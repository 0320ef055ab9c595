# geckolib animation core in Dafny

This project models the per-instance animation engine of geckolib's
`core/animation` package and proves properties of the model. The package has
four classes.

- `AnimationController` is the per-controller state machine: STOPPED,
  TRANSITIONING and RUNNING (module `Controller`). Once per render frame it
  decides which clip plays and fills one point queue per bone. It also
  dispatches the clip's sound, particle and custom-instruction markers at most
  once per playthrough. Its keyframe locator and point builder are in module
  `Keyframes`, and its dispatch reference functions are in module `Events`.
- `AnimationProcessor` is the driver (module `Processor`). It keeps the
  registered bones by name and completes the shared snapshots. It runs every
  controller of an instance, merges the queued points onto the bones, and
  relaxes the channels no controller drove back towards the rest pose.
  `buildAnimationQueue` is in its own module `Queues`, because the controller
  calls it while the processor drives the controller.
- `RawAnimation` is the append-only request builder (module `RawAnimations`).
  Its equality is decided by `hashCode`, modelled with Java's 32-bit
  arithmetic.
- `AnimationData` is the per-instance container (module `Data`). It holds the
  controllers by name, the master snapshot map, the update and first-tick
  times, and the first-tick latch.

The unshown collaborators are plain datatypes in module `Collab`: keyframes,
bone animations, clips, loop types, bones, bone snapshots, animation points
and bone point queues. Only the fields the core reads or writes are modelled.

Modelling choices:

- **Arithmetic.** Time and channel values are exact `real`s. Easing is a
  per-controller function `AnimationPoint -> real` that the model does not
  look into. `Math.toRadians` is multiplication by Java's constant.
- **Values, not objects.** Bones, snapshots and point queues are values. The
  maps that hold them are reassigned where the source mutates them in place.
- **Errors as outcomes.** The exceptions the source throws become an
  `Outcome`. One is the missing-bone `RuntimeException`. Another is the
  missing-snapshot `RuntimeException`. The rest are the
  `NullPointerException`s and `List.get(-1)` failures the code can run into.
- **Controllers and processor are classes.** `AnimationController`,
  `AnimationProcessor`, `AnimationData` and `RawAnimation` are Dafny classes.
  Their methods modify exactly the fields the source writes.
- **Reference passes.** The apply and relax passes of `tickAnimation` are
  loops proved against reference functions: `ApplyBone`, `AppliedPass` and
  `RelaxAll`.
- **The state handler.** Each tick it is a `Verdict`: the request it passes
  to `setAnimation`, if any, and the `PlayState` it returns.
- **The event handlers.** Each one is only "set" or "not set". The markers
  they would receive are returned in dispatch order, and a ghost log records
  them.

Behaviours of the code that the model keeps as written:

- **Request equality.** `equals` is decided by `hashCode`
  (RawAnimation.java:97-110), so two requests with different stage lists can
  compare equal. setAnimation's Javadoc promises that passing the builder
  that is already loaded does nothing (AnimationController.java:244); with
  hash equality, a colliding request also does nothing.
  `CollidingRequestsCompareEqual` builds such a pair.
- **Unresolved request.** When a stage names a clip the loaded geo model does not have,
  the controller stops, and its queue and current request are kept
  (AnimationController.java:270-275).
- **Keyframe past the end.** When the age exceeds a track's total length,
  the locator returns the last keyframe with the unadjusted age
  (AnimationController.java:592). It is not clamped to the keyframe's own end.
- **Which bones relax.** The relax pass runs only over the bones a controller
  applied a channel to this tick (AnimationProcessor.java:136). A bone that
  no controller drove at all is not relaxed.
- **Controller order.** Controllers run in the hash map's iteration order
  (AnimationProcessor.java:67). The model leaves the order open.
- **Markers at the end of a clip.** The executed markers are cleared as soon
  as the tick reaches the clip's length (AnimationController.java:400). This
  happens before the dispatch loops run at the restarted tick. A marker due
  between the last sampled tick and the clip's end can therefore go unfired
  for that playthrough.
- **The easing override.** The processor reads
  `controller.overrideEasingTypeFunction` (AnimationProcessor.java:92). The
  controller declares no such field; it has `easingTypeFunction`
  (AnimationController.java:62). The model uses the controller's easing
  function.

## Model

| member | source | states |
|---|---|---|
| RawAnimations.RawAnimation.Begin | Forge/core/src/main/java/software/bernie/geckolib3/core/animation/RawAnimation.java:33-35 | a new request has no stages |
| RawAnimations.RawAnimation.Then | Forge/core/src/main/java/software/bernie/geckolib3/core/animation/RawAnimation.java:72-76 | exactly one stage (name, loop type) is appended after the existing ones, and the request itself is returned |
| RawAnimations.RawAnimation.ThenPlay | Forge/core/src/main/java/software/bernie/geckolib3/core/animation/RawAnimation.java:41-43 | one PLAY_ONCE stage is appended |
| RawAnimations.RawAnimation.ThenLoop | Forge/core/src/main/java/software/bernie/geckolib3/core/animation/RawAnimation.java:49-51 | one LOOP stage is appended |
| RawAnimations.RawAnimation.ThenPlayXTimes | Forge/core/src/main/java/software/bernie/geckolib3/core/animation/RawAnimation.java:58-64 | exactly max(n, 0) PLAY_ONCE copies of the stage are appended, after the existing stages |
| RawAnimations.RawAnimation.CopyOf | Forge/core/src/main/java/software/bernie/geckolib3/core/animation/RawAnimation.java:88-94 | a fresh request with the same stage list |
| RawAnimations.CopyThenAppendLeavesOriginal | Forge/core/src/main/java/software/bernie/geckolib3/core/animation/RawAnimation.java:88-94 | appending to a copy leaves the original's stages unchanged; the copy holds the original's stages plus the new one |
| RawAnimations.CodeUnits | Forge/core/src/main/java/software/bernie/geckolib3/core/animation/RawAnimation.java:108-110 | the UTF-16 code units Java holds for a character: the character itself inside the Basic Multilingual Plane, otherwise a high and a low surrogate that encode it back exactly |
| RawAnimations.StringHash | Forge/core/src/main/java/software/bernie/geckolib3/core/animation/RawAnimation.java:108-110 | String.hashCode over the UTF-16 code units, a Java int |
| RawAnimations.SupplementaryCharHashesAsSurrogates | Forge/core/src/main/java/software/bernie/geckolib3/core/animation/RawAnimation.java:108-110 | a character outside the Basic Multilingual Plane (U+1F600) hashes as its two surrogates, 31 * 0xD83D + 0xDE00 |
| RawAnimations.TwoCharHash | Forge/core/src/main/java/software/bernie/geckolib3/core/animation/RawAnimation.java:108-110 | a two-character string inside the Basic Multilingual Plane is two code units and hashes as 31 * c0 + c1, wrapped to a Java int |
| RawAnimations.StageHash | Forge/core/src/main/java/software/bernie/geckolib3/core/animation/RawAnimation.java:128-131 | Stage.hashCode is a Java int |
| RawAnimations.StageHashSeesNameHash | Forge/core/src/main/java/software/bernie/geckolib3/core/animation/RawAnimation.java:128-131 | two stages with the same loop type whose names' hashes collide have the same stage hash |
| RawAnimations.RawAnimation.HashCode | Forge/core/src/main/java/software/bernie/geckolib3/core/animation/RawAnimation.java:107-110 | hashCode is a Java int |
| RawAnimations.Wrap32 | Forge/core/src/main/java/software/bernie/geckolib3/core/animation/RawAnimation.java:108-110 | Java int arithmetic: the result lies in [-2^31, 2^31) and is congruent to the input modulo 2^32 |
| RawAnimations.RawAnimation.Equals | Forge/core/src/main/java/software/bernie/geckolib3/core/animation/RawAnimation.java:97-105 | reflexive; false for null; true for structurally equal stage lists; for another non-null object, true exactly when the two hash codes agree |
| RawAnimations.HashCollision | Forge/core/src/main/java/software/bernie/geckolib3/core/animation/RawAnimation.java:108-110 | the different single-stage lists "Aa" and "BB" have the same request hash |
| RawAnimations.CollidingRequestsCompareEqual | Forge/core/src/main/java/software/bernie/geckolib3/core/animation/RawAnimation.java:97-110 | two distinct requests with different stage lists compare equal both ways |
| Data.AnimationData.constructor | Forge/core/src/main/java/software/bernie/geckolib3/core/animation/AnimationData.java:21-26 | both maps are empty, the latch is set, the first-tick time is -1 and the update time is 0 |
| Data.AnimationData.AddAnimationController | Forge/core/src/main/java/software/bernie/geckolib3/core/animation/AnimationData.java:32-34 | the controller is stored under its name and replaces any controller of that name; every other entry is kept; the map stays keyed by controller name |
| Data.AnimationData.ClearSnapshotCache | Forge/core/src/main/java/software/bernie/geckolib3/core/animation/AnimationData.java:44-46 | the snapshot map is empty afterwards |
| Data.AnimationData.UpdatedAt | Forge/core/src/main/java/software/bernie/geckolib3/core/animation/AnimationData.java:48-54 | the next getLastUpdateTime returns the time given |
| Data.AnimationData.StartedAt | Forge/core/src/main/java/software/bernie/geckolib3/core/animation/AnimationData.java:56-62 | the next getFirstTickTime returns the time given |
| Data.AnimationData.FinishFirstTick | Forge/core/src/main/java/software/bernie/geckolib3/core/animation/AnimationData.java:64-70 | the latch is cleared; the only other writer is the processor's tick, which never sets it again (TickAnimation), so once cleared it stays cleared |
| Queues.BuildAnimationQueue | Forge/core/src/main/java/software/bernie/geckolib3/core/animation/AnimationProcessor.java:32-50 | all or nothing: None exactly when some stage name fails to resolve; otherwise a queue of the same length and order, pairing each resolved clip with its stage's loop type |
| Controller.AnimationController.constructor | Forge/core/src/main/java/software/bernie/geckolib3/core/animation/AnimationController.java:43-63 | the controller starts STOPPED with nothing loaded, at speed 1, with no flag set, no handler set and empty queues, snapshots and executed set |
| Controller.AnimationController.SetSoundKeyframeHandler | Forge/core/src/main/java/software/bernie/geckolib3/core/animation/AnimationController.java:117-121 | the sound handler is set |
| Controller.AnimationController.SetParticleKeyframeHandler | Forge/core/src/main/java/software/bernie/geckolib3/core/animation/AnimationController.java:127-131 | the particle handler is set |
| Controller.AnimationController.SetCustomInstructionKeyframeHandler | Forge/core/src/main/java/software/bernie/geckolib3/core/animation/AnimationController.java:137-141 | the custom instruction handler is set |
| Controller.AnimationController.SetAnimationSpeed | Forge/core/src/main/java/software/bernie/geckolib3/core/animation/AnimationController.java:161-163 | later tick adjustments multiply by the given speed |
| Controller.AnimationController.SetEasingType | Forge/core/src/main/java/software/bernie/geckolib3/core/animation/AnimationController.java:170-183 | the controller's easing becomes the given one |
| Controller.AnimationController.MarkNeedsReload | Forge/core/src/main/java/software/bernie/geckolib3/core/animation/AnimationController.java:228-230 | a reload is pending |
| Controller.AnimationController.Stop | Forge/core/src/main/java/software/bernie/geckolib3/core/animation/AnimationController.java:238-240 | the state is STOPPED and, by its modifies clause, nothing else changes |
| Controller.AnimationController.ClearBoneAnimationQueues | Forge/core/src/main/java/software/bernie/geckolib3/core/animation/AnimationProcessor.java:70 | the controller's bone queue map is empty |
| Controller.AnimationController.ResetEventKeyFrames | Forge/core/src/main/java/software/bernie/geckolib3/core/animation/AnimationController.java:598-600 | nothing counts as executed, and the dispatch log restarts |
| Controller.AnimationController.SetAnimation | Forge/core/src/main/java/software/bernie/geckolib3/core/animation/AnimationController.java:249-276 | a null or empty request stops the controller and changes nothing else; an equal request with no reload pending changes nothing; otherwise a fully resolving request is loaded (queue, current request, tick reset, transition started, TRANSITIONING, reload cleared); if it does not resolve, the controller stops with queue and request untouched |
| Controller.ScaledElapsed | Forge/core/src/main/java/software/bernie/geckolib3/core/animation/AnimationController.java:536 | speed times max(tick - offset, 0): 0 at or before the offset, non-negative for a non-negative speed |
| Controller.AnimationController.AdjustTick | Forge/core/src/main/java/software/bernie/geckolib3/core/animation/AnimationController.java:534-544 | without a pending reset: the scaled elapsed time, offset kept; with one: 0, the reset cleared, and the offset moved to the tick unless STOPPED |
| Controller.FreshQueues | Forge/core/src/main/java/software/bernie/geckolib3/core/animation/AnimationController.java:500-506 | one fresh queue per bone, under the bone's key, each for that bone |
| Controller.AnimationController.CreateInitialQueues | Forge/core/src/main/java/software/bernie/geckolib3/core/animation/AnimationController.java:500-506 | the queue map is exactly the fresh queues of the given bones |
| Controller.AnimationController.SaveIfAnimated | Forge/core/src/main/java/software/bernie/geckolib3/core/animation/AnimationController.java:516-523 | the snapshot is stored under its bone's name exactly when some bone animation of the clip names that bone; otherwise nothing changes |
| Controller.AnimationController.SaveStep | Forge/core/src/main/java/software/bernie/geckolib3/core/animation/AnimationController.java:515-525 | one more snapshot considered extends the saved-snapshot relation to that key |
| Controller.AnimationController.SaveSnapshotsForAnimation | Forge/core/src/main/java/software/bernie/geckolib3/core/animation/AnimationController.java:514-526 | saved snapshots are added only for bones the clip animates, each copied from a snapshot of that bone; no other entry is added, removed or changed |
| Controller.SavedSnapshotsAreTheBonesOwn | Forge/core/src/main/java/software/bernie/geckolib3/core/animation/AnimationController.java:514-526 | with snapshots keyed by bone name, each animated bone gets exactly its own snapshot and every other entry stays as it was |
| Controller.SampleChannel | Forge/core/src/main/java/software/bernie/geckolib3/core/animation/AnimationController.java:439-457 | an empty x track leaves the queue alone; otherwise, on success, the three axis points at the tick are pushed onto that channel's queues |
| Controller.SampleBones | Forge/core/src/main/java/software/bernie/geckolib3/core/animation/AnimationController.java:425-459 | the pass keeps the queue keys and each queue's bone |
| Controller.SamplingFindsEveryBone | Forge/core/src/main/java/software/bernie/geckolib3/core/animation/AnimationController.java:428-431 | with crash on missing bone set, the sampling pass succeeds only if every bone of the clip has a queue |
| Controller.AnimationController.SampleBoneAt | Forge/core/src/main/java/software/bernie/geckolib3/core/animation/AnimationController.java:435-458 | the rotation, position and scale blocks for one bone give SampleBone's result |
| Controller.AnimationController.SampleClip | Forge/core/src/main/java/software/bernie/geckolib3/core/animation/AnimationController.java:425-459 | the sampling loop leaves the outcome and queues SampleBones gives |
| Controller.TransitionChannel | Forge/core/src/main/java/software/bernie/geckolib3/core/animation/AnimationController.java:363-386 | an empty x track leaves the queue alone; on success a transition point from the saved snapshot towards the first keyframe values is queued, which needs a snapshot and, for rotation, a rest pose |
| Controller.TransitionBones | Forge/core/src/main/java/software/bernie/geckolib3/core/animation/AnimationController.java:343-387 | the transition pass keeps the queue keys and each queue's bone |
| Controller.MissingBonesAreSkipped | Forge/core/src/main/java/software/bernie/geckolib3/core/animation/AnimationController.java:356-361 | without crash, a clip bone missing from the bone list is skipped: the pass equals the pass over the present bones only |
| Controller.TransitionFindsEveryBone | Forge/core/src/main/java/software/bernie/geckolib3/core/animation/AnimationController.java:356-358 | with crash set, the transition pass succeeds only if every bone of the clip is registered |
| Controller.AnimationController.TransitionBoneAt | Forge/core/src/main/java/software/bernie/geckolib3/core/animation/AnimationController.java:363-386 | the three transition blocks for one bone give TransitionBone's result |
| Controller.AnimationController.QueueTransitionPoints | Forge/core/src/main/java/software/bernie/geckolib3/core/animation/AnimationController.java:343-387 | the transition loop leaves the outcome and queues TransitionBones gives |
| Controller.AnimationController.HandleClipEnd | Forge/core/src/main/java/software/bernie/geckolib3/core/animation/AnimationController.java:399-421 | before the clip's length nothing changes; at or past it the executed markers are cleared; then a replaying clip restarts at tick 0, RUNNING; a finished clip with an empty queue stops; otherwise the peeked next clip becomes current, TRANSITIONING with a tick reset |
| Controller.AnimationController.DispatchEvents | Forge/core/src/main/java/software/bernie/geckolib3/core/animation/AnimationController.java:461-469 | the markers fired are exactly DueEvents, each added to the executed set and the log; a due marker without a handler is a null dereference that fires nothing |
| Controller.AnimationController.DispatchAll | Forge/core/src/main/java/software/bernie/geckolib3/core/animation/AnimationController.java:461-489 | on success the markers fired are DueInOrder (sounds, then particles, then custom instructions); with all handlers set it cannot fail; the log grows by exactly what was fired |
| Events.DueEventsFireOnce | Forge/core/src/main/java/software/bernie/geckolib3/core/animation/AnimationController.java:461-468 | every marker fired is in the list, was not executed before and has reached its start tick; none is fired twice |
| Events.DueEventsComplete | Forge/core/src/main/java/software/bernie/geckolib3/core/animation/AnimationController.java:461-468 | every marker in the list that was not executed and whose start tick is reached is fired |
| Events.DispatchOrderByKind | Forge/core/src/main/java/software/bernie/geckolib3/core/animation/AnimationController.java:461-489 | within one tick sounds come before particles and particles before custom instructions |
| Controller.AnimationController.ProcessCurrentAnimation | Forge/core/src/main/java/software/bernie/geckolib3/core/animation/AnimationController.java:398-493 | a missing current clip is a null dereference; otherwise the clip ClipToSample picks is sampled at the tick TickToSample gives, then its markers fire per DueInOrder (from an empty executed set after a clip end); the end-of-clip outcomes as in HandleClipEnd, and with transition length 0 the next clip is polled in the same tick |
| Controller.AnimationController.ProcessTransition | Forge/core/src/main/java/software/bernie/geckolib3/core/animation/AnimationController.java:327-389 | at tick 0 or on the first tick the next clip is polled, the executed set is cleared and the clip's bone snapshots are saved; then, while a clip is current, the queues are what TransitionBones gives |
| Controller.AnimationController.FinishTransitionIfDue | Forge/core/src/main/java/software/bernie/geckolib3/core/animation/AnimationController.java:294-298 | TRANSITIONING with a tick at or past the transition length becomes RUNNING, with the tick re-based to 0 and the offset at seekTime; otherwise nothing changes |
| Controller.AnimationController.SettleState | Forge/core/src/main/java/software/bernie/geckolib3/core/animation/AnimationController.java:309-322 | the three rungs of the ladder: a just-requested transition takes its tick reset; with no current clip a transition restarts at tick 0; otherwise a non-transitioning controller is RUNNING |
| Controller.AnimationController.BeginTick | Forge/core/src/main/java/software/bernie/geckolib3/core/animation/AnimationController.java:290-298 | the queues are the fresh queues of the given bones; only a TRANSITIONING controller can change state, and only to RUNNING |
| Controller.AnimationController.ApplyVerdictRequest | Forge/core/src/main/java/software/bernie/geckolib3/core/animation/AnimationController.java:300 | a handler that makes no request leaves the queue and state alone |
| Controller.AnimationController.Advance | Forge/core/src/main/java/software/bernie/geckolib3/core/animation/AnimationController.java:309-389 | the queue keys stay the bone names, each queue stays its bone's, the event invariant holds, and the markers returned end the dispatch log |
| Controller.AnimationController.Process | Forge/core/src/main/java/software/bernie/geckolib3/core/animation/AnimationController.java:288-390 | a STOP answer, or no request with nothing current and nothing queued, ends the tick STOPPED with justStopped, fresh queues and nothing fired; in every case the queues are keyed by the given bones, and no marker fires twice between resets |
| Keyframes.LocationIsFirstExceeding | Forge/core/src/main/java/software/bernie/geckolib3/core/animation/AnimationController.java:581-590 | the location is the first keyframe whose cumulative length exceeds the age, with local tick = age minus the length before it; for age >= 0 the local tick lies in [0, length) |
| Keyframes.LocationFallsBackToLast | Forge/core/src/main/java/software/bernie/geckolib3/core/animation/AnimationController.java:592 | when no cumulative length exceeds the age, the last keyframe is returned with the unadjusted age |
| Keyframes.GetCurrentKeyFrameLocation | Forge/core/src/main/java/software/bernie/geckolib3/core/animation/AnimationController.java:581-593 | the accumulating loop returns CurrentKeyFrameLocation (None for an empty list) |
| Keyframes.PointAtTick | Forge/core/src/main/java/software/bernie/geckolib3/core/animation/AnimationController.java:549-573 | a point exactly for a non-empty list, carrying the located keyframe, its local tick and the keyframe's length |
| Keyframes.RotationConversion | Forge/core/src/main/java/software/bernie/geckolib3/core/animation/AnimationController.java:556-570 | a non-constant rotation endpoint goes to radians, negated on X and Y but not on Z; constant endpoints and all position and scale endpoints pass through |
| Keyframes.GetAnimationPointAtTick | Forge/core/src/main/java/software/bernie/geckolib3/core/animation/AnimationController.java:549-573 | builds PointAtTick's point |
| Keyframes.SampleStack | Forge/core/src/main/java/software/bernie/geckolib3/core/animation/AnimationController.java:439-443 | the channel is skipped exactly when its x track is empty; otherwise its three points are the axis points at the tick |
| Keyframes.SampleStackAt | Forge/core/src/main/java/software/bernie/geckolib3/core/animation/AnimationController.java:439-443 | computes SampleStack |
| Processor.RegisterTreeFacts | Forge/core/src/main/java/software/bernie/geckolib3/core/animation/AnimationProcessor.java:241-248 | registration adds exactly the names of the bone and its descendants, leaves every other entry alone, and keeps every entry under its name with a rest pose |
| Processor.RegisterForestFacts | Forge/core/src/main/java/software/bernie/geckolib3/core/animation/AnimationProcessor.java:258-260 | the same for a list of bones |
| Processor.StoredUnderItsName | Forge/core/src/main/java/software/bernie/geckolib3/core/animation/AnimationProcessor.java:242-243 | last write wins: a bone no descendant renames ends up under its name with its rest pose captured |
| Processor.AnimationProcessor.RegisterGeoBone | Forge/core/src/main/java/software/bernie/geckolib3/core/animation/AnimationProcessor.java:241-248 | the bone map becomes RegisterTree of the old one (recursion into each child) |
| Processor.RegisterAsWritten | Forge/core/src/main/java/software/bernie/geckolib3/core/animation/AnimationProcessor.java:241-248 | registerGeoBone as written, bounded by a stack depth: with no depth left it does not return, and whenever it does return the bone is stored under its name with its rest pose captured |
| Processor.ChildLoopAsWritten | Forge/core/src/main/java/software/bernie/geckolib3/core/animation/AnimationProcessor.java:245-247 | the as-written child loop: with no iteration left the map is unchanged; after at least one iteration that returns, the parent bone is (again) stored under its name with its rest pose |
| Processor.AsWrittenNeverReturns | Forge/core/src/main/java/software/bernie/geckolib3/core/animation/AnimationProcessor.java:245-246 | as written, registering a bone with a child does not return at any recursion depth |
| Processor.AsWrittenAgreesOnLeaves | Forge/core/src/main/java/software/bernie/geckolib3/core/animation/AnimationProcessor.java:241-248 | for a childless bone the as-written and corrected registrations agree |
| Processor.AnimationProcessor.SetActiveModel | Forge/core/src/main/java/software/bernie/geckolib3/core/animation/AnimationProcessor.java:255-261 | the map is cleared, then holds exactly the model's bones and their descendants, each under its name with a rest pose |
| Processor.AnimationProcessor.GetBone | Forge/core/src/main/java/software/bernie/geckolib3/core/animation/AnimationProcessor.java:232-234 | the bone registered under the name, or None exactly when there is none |
| Processor.AnimationProcessor.ResetBoneTransformationMarkers | Forge/core/src/main/java/software/bernie/geckolib3/core/animation/AnimationProcessor.java:207-209 | every bone has its change markers cleared and keeps its values; the keys are kept |
| Processor.AnimationProcessor.UpdateBoneSnapshots | Forge/core/src/main/java/software/bernie/geckolib3/core/animation/AnimationProcessor.java:217-224 | the keys become the old keys plus the bone names; existing entries are kept; every bone without an entry gets its rest pose |
| Processor.ApplyChannelSpec | Forge/core/src/main/java/software/bernie/geckolib3/core/animation/AnimationProcessor.java:94-129 | a channel is applied only with all three points: rotation = eased value + rest rotation, position and scale = eased value; the snapshot takes the new value and is marked in progress; the bone is marked changed; other channels keep everything; a missing snapshot, or a missing rest pose for rotation, is a null dereference |
| Processor.ApplyBoneFacts | Forge/core/src/main/java/software/bernie/geckolib3/core/animation/AnimationProcessor.java:78-130 | for a registered bone with a snapshot the three blocks cannot fail; each channel is applied exactly when its points are all present, and is then marked changed with the snapshot holding the bone's new value; otherwise it keeps value, marker and snapshot |
| Processor.ApplyChannelsCrash | Forge/core/src/main/java/software/bernie/geckolib3/core/animation/AnimationProcessor.java:95-99 | the blocks fail only with a null dereference, and only for a bone without a snapshot or a rest pose |
| Processor.ApplyPass | Forge/core/src/main/java/software/bernie/geckolib3/core/animation/AnimationProcessor.java:78-130 | on success the bones, snapshots and polled queues are AppliedPass (ApplyBone on each queued bone, everything else unchanged, `modified` listing exactly the bones that had a channel applied); a crash is a null dereference and happens only when some queued bone has no snapshot |
| Processor.ApplyBoneUntouched | Forge/core/src/main/java/software/bernie/geckolib3/core/animation/AnimationProcessor.java:93-128 | for a registered bone with a snapshot: a bone none of whose channels had all three points comes out unchanged with its snapshot; one that had a channel applied is marked changed for it; no marker set before is cleared |
| Processor.AppliedPassDrivesOnly | Forge/core/src/main/java/software/bernie/geckolib3/core/animation/AnimationProcessor.java:78-130 | a completed apply pass over registered bones that all have snapshots leaves the bones it does not list, and their snapshots, as they were, marks every listed bone changed, and clears no marker |
| Processor.DrivenOnlyTrans | Forge/core/src/main/java/software/bernie/geckolib3/core/animation/AnimationProcessor.java:67-131 | two controller turns in a row leave unlisted bones alone, mark every bone either lists, and clear no marker, as one turn listing both |
| Processor.AnimationProcessor.RunNamedController | Forge/core/src/main/java/software/bernie/geckolib3/core/animation/AnimationProcessor.java:67-130 | the controller under the given name takes its turn; on success it is ready, and the turn leaves unlisted bones and snapshots alone and marks every listed bone changed |
| Processor.ResetProgress | Forge/core/src/main/java/software/bernie/geckolib3/core/animation/AnimationProcessor.java:154-155 | min(elapsed / reset length, 1): at most 1, non-negative for non-negative elapsed time, equal to 1 exactly once the reset length has elapsed |
| Processor.RelaxChannel | Forge/core/src/main/java/software/bernie/geckolib3/core/animation/AnimationProcessor.java:150-166 | a relax step keeps the bone's name, rest pose, children and change markers, and touches no other channel |
| Processor.RelaxSkipsChangedChannel | Forge/core/src/main/java/software/bernie/geckolib3/core/animation/AnimationProcessor.java:150 | a channel marked changed this tick is left alone |
| Processor.RelaxStopsInterruptedAnimation | Forge/core/src/main/java/software/bernie/geckolib3/core/animation/AnimationProcessor.java:151-158 | an in-progress channel is stopped at seekTime, and the bone then takes the saved value (progress 0) |
| Processor.RelaxReachesRest | Forge/core/src/main/java/software/bernie/geckolib3/core/animation/AnimationProcessor.java:154-165 | once the reset length has elapsed since the last stop, the bone is at its rest value and the snapshot is pinned there |
| Processor.RelaxStaysAtRest | Forge/core/src/main/java/software/bernie/geckolib3/core/animation/AnimationProcessor.java:157-165 | a snapshot pinned at rest keeps the bone at rest whatever the progress |
| Processor.RelaxIdempotent | Forge/core/src/main/java/software/bernie/geckolib3/core/animation/AnimationProcessor.java:136-166 | relaxing a channel twice in one tick, as for a bone listed once per applied channel, gives what relaxing it once gives |
| Processor.RelaxBoneChannels | Forge/core/src/main/java/software/bernie/geckolib3/core/animation/AnimationProcessor.java:150-198 | the three relax blocks of one bone do not interfere: each channel ends as relaxing it alone would leave it, and no marker moves |
| Processor.RelaxAll | Forge/core/src/main/java/software/bernie/geckolib3/core/animation/AnimationProcessor.java:136-148 | the relax pass keeps the keys and registration and leaves unlisted bones and their snapshots alone; it fails only with crash set and a listed bone without a snapshot, naming that bone; if every listed bone has a snapshot it succeeds |
| Processor.AnimationProcessor.RelaxModifiedBones | Forge/core/src/main/java/software/bernie/geckolib3/core/animation/AnimationProcessor.java:136-199 | the loop leaves the outcome, bones and snapshots RelaxAll gives |
| Processor.AnimationProcessor.PrepareController | Forge/core/src/main/java/software/bernie/geckolib3/core/animation/AnimationProcessor.java:68-73 | a pending reload marks the controller for reload and clears its queues, else both are kept; the controller learns whether this is the first tick |
| Processor.AnimationProcessor.RunController | Forge/core/src/main/java/software/bernie/geckolib3/core/animation/AnimationProcessor.java:68-130 | after one controller's turn the registration, keys and event invariant hold, the controller knows the first-tick flag, and every bone it lists as modified is registered; on success the queues its processing left (one per bone) were applied exactly as ApplyPass specifies: each queued bone and its snapshot are ApplyBone's result, its queue is polled, other bones are untouched, and the modified list names exactly the bones that had a channel applied |
| Processor.AnimationProcessor.RunControllers | Forge/core/src/main/java/software/bernie/geckolib3/core/animation/AnimationProcessor.java:67-131 | after the controller loop, on success, every controller of the instance knows the first-tick flag and holds one queue per registered bone; bones not listed as modified keep their value and snapshot from before the loop, every listed bone has a channel marked changed, and no change marker is cleared (DrivenOnly) |
| Processor.AnimationProcessor.StartTick | Forge/core/src/main/java/software/bernie/geckolib3/core/animation/AnimationProcessor.java:60-131 | the shared snapshots cover the instance's snapshots and every registered bone; the controllers are ready as in RunControllers; on success a bone no controller drove is its old value with the markers cleared, and its snapshot is the instance's saved one or, failing that, its rest pose; every bone listed as modified has a channel marked changed |
| Processor.AnimationProcessor.FinishTick | Forge/core/src/main/java/software/bernie/geckolib3/core/animation/AnimationProcessor.java:133-201 | the reload flag and the first-tick latch are cleared, the relax pass cannot fail, and its bones and snapshots are RelaxAll's |
| Processor.AnimationProcessor.TickAnimation | Forge/core/src/main/java/software/bernie/geckolib3/core/animation/AnimationProcessor.java:60-202 | after a tick every registered bone has a snapshot and the old snapshot keys are kept; on success the reload flag and the latch are cleared, and every controller got the old first-tick flag and holds one queue per registered bone; a crashing tick leaves the latch and the reload flag as they were; a cleared latch stays cleared; on success a bone no controller drove ends the tick as its old value with the markers cleared, and its stored snapshot is the old saved one or, failing that, its rest pose |

## Left out

- The Molang global (`MolangParser.INSTANCE.setValue`, AnimationController.java:341 and 423) is shared state of an external expression engine. Expression keyframe values are given as the number they evaluate to.
- `preAnimationSetup` and `getRegisteredBones` are not modelled: one forwards to the model's Molang queries, the other only returns the map's values.
- The animatable, its factory and `getOrCreateAnimationData` are not part of this model. `tickAnimation` takes the instance's `AnimationData`, the bone reset time and the clip library as parameters.
- `(float)` casts, the precision of `Math.toRadians`, the `EasingType` curves and the rounding of `Interpolations.lerp` are not modelled. Arithmetic is exact, easing is a function parameter and lerp is linear.
- `System.out.printf` in `buildAnimationQueue` is output only.
- The state, sound, particle and custom handlers are injected callbacks. Only their verdict (state handler) or whether they are set (event handlers) is modelled, and the markers they would receive are returned.
- `setAnimationSpeedHandler` and `setEasingType` take functions of the animatable; the model stores the speed as a number and the easing as a function of the point.
- The constructor overloads that default the name or the transition length are left out; the four-argument constructor is modelled. Its easing parameter stands for the LINEAR easing every Java controller starts with (AnimationController.java:62); the model has no easing types, so the caller passes the LINEAR curve.
- Hash-map iteration order over controllers, bones, snapshots and queues is left open (`:|` choice); nothing proved depends on it.
- `BoneSnapshot.copy` (AnimationProcessor.java:220, AnimationController.java:519) is not part of this model: snapshots are values, so the copies never alias.
- `resetTickLength > 0.0` is required by the relax functions; for 0 the source divides by zero and works with NaN or infinity.
- Controller.AnimationController.Process: its contract states the stop cases and the shape of the queues; the RUNNING and TRANSITIONING branches are stated by ProcessCurrentAnimation and ProcessTransition, not restated on Process.
- Controller.AnimationController.Process: the bones are given as a map keyed by bone name, where the source passes the collection of registered bones.
- Controller.AnimationController.Advance: states only the queue shape and the event log, for the same reason.
- Controller.AnimationController.ApplyVerdictRequest: states only the no-request case; the request case is SetAnimation's contract.
- Controller.AnimationController.BeginTick: does not state the adjusted tick it returns; AdjustTick and FinishTransitionIfDue do.
- Processor.AnimationProcessor.RunController: on a crash in the apply pass the bones are left as before the pass, where the source would have mutated the bones applied so far; the apply-pass contract is stated only for the crash-free case, in which every queued bone has a snapshot.
- Processor.AnimationProcessor.RunControllers: does not tie the bones after the loop to a reference function of the controllers, because the source's order over controllers is the hash map's.
- Processor.AnimationProcessor.TickAnimation: the values of the bones the controllers drove are stated one controller at a time (RunController's AppliedPass) and through the relax pass (FinishTick's RelaxAll), not as one function of the tick's inputs, because the controllers run in the hash map's order; on a crash only the latch, the reload flag and the snapshot keys are stated.
- The lines of `tickAnimation` that assume a RUNNING controller has a current clip, or that an event handler is set, give a null dereference in the source; the model returns it as a crash outcome rather than excluding it.

## Findings

| source | as written | input that shows it | evidently intended | confidence | as-written member | corrected member |
|---|---|---|---|---|---|---|
| Forge/core/src/main/java/software/bernie/geckolib3/core/animation/AnimationProcessor.java:245-246 | the loop over the children calls `registerGeoBone(bone)` on the parent instead of on `child` | any bone with at least one child: each call re-registers the same bone and recurses again, so the call never returns (a StackOverflowError in Java) | each child (and so every descendant) is registered in turn | not executed | Processor.AsWrittenNeverReturns | Processor.AnimationProcessor.RegisterGeoBone |
