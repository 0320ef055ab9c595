/**
 * AnimationController: the per-controller state machine (STOPPED /
 * TRANSITIONING / RUNNING) that, once per render frame, decides which clip
 * plays, fills one point queue per bone, and dispatches the clip's event
 * markers at most once per playthrough.
 *
 * The state handler is given to `Process` as a `Verdict` (the request it
 * passes to `setAnimation`, if any, and the play state it returns); the
 * sound, particle and custom handlers are represented by whether they are
 * set, and the events they would receive are returned in dispatch order.
 */
module Controller {
  import opened Collab
  import opened RawAnimations
  import opened Queues
  import opened Keyframes
  import opened Events

  datatype State = Running | Transitioning | Stopped

  datatype PlayState = Continue | Stop

  /** Whether the state handler calls setAnimation during its call, and with what. */
  datatype HandlerAction = NoRequest | Request(raw: RawAnimation?)

  /** What the state handler does on one tick. */
  datatype Verdict = Verdict(action: HandlerAction, playState: PlayState)

  /** The tick adjustTick reports when no reset is pending: speed times the non-negative time since the offset. */
  function ScaledElapsed(speed: real, tick: real, offset: real): (r: real)
    ensures speed >= 0.0 ==> r >= 0.0
    ensures tick <= offset ==> r == 0.0
    ensures tick >= offset ==> r == speed * (tick - offset)
  {
    speed * (if tick - offset > 0.0 then tick - offset else 0.0)
  }

  /** The queues createInitialQueues builds: one fresh queue per bone, under the bone's key. */
  function FreshQueues(bones: map<string, GeoBone>): (r: map<string, BoneAnimationQueue>)
    ensures r.Keys == bones.Keys
    ensures forall k :: k in r ==> r[k] == NewQueue(bones[k]) && r[k].bone == bones[k]
  {
    map k | k in bones :: NewQueue(bones[k])
  }

  function Lookup(snapshots: map<string, BoneSnapshot>, name: string): Option<BoneSnapshot> {
    if name in snapshots then Some(snapshots[name]) else None
  }

  // ----- sampling the running clip (processCurrentAnimation) -----

  /** One channel of a bone animation sampled at a tick and pushed onto that channel's queues. */
  function SampleChannel(q: BoneAnimationQueue, ch: Channel, ba: BoneAnimation, tick: real): (r: (Outcome, BoneAnimationQueue))
    ensures r.1.bone == q.bone
    ensures r.0.Ok? && ba.Track(ch).xKeyframes != [] ==>
      var s := SampleStack(ba.Track(ch), tick, ch == Rotation);
      s.Points? && r.1 == q.Add(ch, s.x, s.y, s.z)
    ensures ba.Track(ch).xKeyframes == [] ==> r == (Ok, q)
  {
    match SampleStack(ba.Track(ch), tick, ch == Rotation)
    case NoTrack => (Ok, q)
    case MissingAxis => (Crash(IndexOutOfBounds), q)
    case Points(px, py, pz) => (Ok, q.Add(ch, px, py, pz))
  }

  /** The given channels sampled in order; the first fault ends the bone. */
  function SampleChannelsFrom(q: BoneAnimationQueue, ba: BoneAnimation, tick: real, channels: seq<Channel>): (r: (Outcome, BoneAnimationQueue))
    ensures r.1.bone == q.bone
    decreases |channels|
  {
    if channels == [] then (Ok, q)
    else
      var r := SampleChannel(q, channels[0], ba, tick);
      if r.0.Crash? then r else SampleChannelsFrom(r.1, ba, tick, channels[1..])
  }

  /** Rotation, then position, then scale; the first fault ends the bone. */
  function SampleBone(q: BoneAnimationQueue, ba: BoneAnimation, tick: real): (Outcome, BoneAnimationQueue) {
    SampleChannelsFrom(q, ba, tick, [Rotation, Position, Scale])
  }

  /**
   * The loop over the clip's bone animations: a bone with no queue is a
   * fault when `crash` is set and is skipped otherwise; the first fault ends
   * the pass with the queues filled so far.
   */
  function SampleBones(queues: map<string, BoneAnimationQueue>, anims: seq<BoneAnimation>, tick: real, crash: bool)
    : (r: (Outcome, map<string, BoneAnimationQueue>))
    ensures r.1.Keys == queues.Keys
    ensures forall k :: k in r.1 ==> r.1[k].bone == queues[k].bone
    decreases |anims|
  {
    if anims == [] then (Ok, queues)
    else
      var name := anims[0].boneName;
      if name !in queues then
        if crash then (Crash(MissingBone(name)), queues) else SampleBones(queues, anims[1..], tick, crash)
      else
        var b := SampleBone(queues[name], anims[0], tick);
        if b.0.Crash? then (b.0, queues[name := b.1])
        else SampleBones(queues[name := b.1], anims[1..], tick, crash)
  }

  function BoneNames(anims: seq<BoneAnimation>): set<string> {
    set ba | ba in anims :: ba.boneName
  }

  /** With `crash` set, the sampling pass ends normally only if every bone of the clip has a queue. */
  lemma {:induction false} SamplingFindsEveryBone(queues: map<string, BoneAnimationQueue>, anims: seq<BoneAnimation>, tick: real)
    requires SampleBones(queues, anims, tick, true).0.Ok?
    ensures BoneNames(anims) <= queues.Keys
    decreases |anims|
  {
    if anims != [] {
      var name := anims[0].boneName;
      var b := SampleBone(queues[name], anims[0], tick);
      SamplingFindsEveryBone(queues[name := b.1], anims[1..], tick);
      assert forall ba :: ba in anims ==> ba == anims[0] || ba in anims[1..];
    }
  }

  // ----- transition points (the TRANSITIONING branch of process) -----

  /**
   * addNextRotation / addNextPosition / addNextScale: the channel's first
   * keyframe values of the next clip (sampled at tick 0) become the targets
   * of a point that starts from the saved snapshot. A missing saved snapshot,
   * or a missing rest pose for rotation, is a null dereference.
   */
  function TransitionChannel(q: BoneAnimationQueue, ch: Channel, ba: BoneAnimation, tick: real, transitionLength: real,
                             snapshot: Option<BoneSnapshot>, initial: Option<BoneSnapshot>): (r: (Outcome, BoneAnimationQueue))
    ensures r.1.bone == q.bone
    ensures ba.Track(ch).xKeyframes == [] ==> r == (Ok, q)
    ensures r.0.Ok? && ba.Track(ch).xKeyframes != [] ==>
      var s := SampleStack(ba.Track(ch), 0.0, ch == Rotation);
      && s.Points? && snapshot.Some? && (ch == Rotation ==> initial.Some?)
      && r.1 == q.AddNext(ch, tick, transitionLength, snapshot.value, if initial.Some? then initial.value else snapshot.value, s.x, s.y, s.z)
  {
    match SampleStack(ba.Track(ch), 0.0, ch == Rotation)
    case NoTrack => (Ok, q)
    case MissingAxis => (Crash(IndexOutOfBounds), q)
    case Points(px, py, pz) =>
      if snapshot.None? || (ch == Rotation && initial.None?) then (Crash(NullReference), q)
      else (Ok, q.AddNext(ch, tick, transitionLength, snapshot.value,
                          if initial.Some? then initial.value else snapshot.value, px, py, pz))
  }

  function TransitionChannelsFrom(q: BoneAnimationQueue, ba: BoneAnimation, tick: real, transitionLength: real,
                                  snapshot: Option<BoneSnapshot>, initial: Option<BoneSnapshot>, channels: seq<Channel>)
    : (r: (Outcome, BoneAnimationQueue))
    ensures r.1.bone == q.bone
    decreases |channels|
  {
    if channels == [] then (Ok, q)
    else
      var r := TransitionChannel(q, channels[0], ba, tick, transitionLength, snapshot, initial);
      if r.0.Crash? then r else TransitionChannelsFrom(r.1, ba, tick, transitionLength, snapshot, initial, channels[1..])
  }

  /** Rotation, then position, then scale; the first fault ends the bone. */
  function TransitionBone(q: BoneAnimationQueue, ba: BoneAnimation, tick: real, transitionLength: real,
                          snapshot: Option<BoneSnapshot>, initial: Option<BoneSnapshot>): (Outcome, BoneAnimationQueue) {
    TransitionChannelsFrom(q, ba, tick, transitionLength, snapshot, initial, [Rotation, Position, Scale])
  }

  /**
   * The loop over the next clip's bone animations at transition time: a bone
   * that is not among the given bones is a fault when `crash` is set and is
   * skipped otherwise.
   */
  function TransitionBones(queues: map<string, BoneAnimationQueue>, anims: seq<BoneAnimation>, bones: map<string, GeoBone>,
                           snapshots: map<string, BoneSnapshot>, tick: real, transitionLength: real, crash: bool)
    : (r: (Outcome, map<string, BoneAnimationQueue>))
    requires queues.Keys == bones.Keys
    ensures r.1.Keys == queues.Keys
    ensures forall k :: k in r.1 ==> r.1[k].bone == queues[k].bone
    decreases |anims|
  {
    if anims == [] then (Ok, queues)
    else
      var name := anims[0].boneName;
      if name !in bones then
        if crash then (Crash(MissingBone(name)), queues)
        else TransitionBones(queues, anims[1..], bones, snapshots, tick, transitionLength, crash)
      else
        var b := TransitionBone(queues[name], anims[0], tick, transitionLength, Lookup(snapshots, name), bones[name].initialSnapshot);
        if b.0.Crash? then (b.0, queues[name := b.1])
        else TransitionBones(queues[name := b.1], anims[1..], bones, snapshots, tick, transitionLength, crash)
  }

  /** The clip's bone animations whose bone is among the given bones. */
  function PresentOnly(anims: seq<BoneAnimation>, bones: map<string, GeoBone>): (r: seq<BoneAnimation>)
    ensures forall ba :: ba in r ==> ba in anims && ba.boneName in bones
    decreases |anims|
  {
    if anims == [] then []
    else if anims[0].boneName in bones then [anims[0]] + PresentOnly(anims[1..], bones)
    else PresentOnly(anims[1..], bones)
  }

  /** Without `crash`, a bone missing from the bone list is skipped: the pass is the one over the present bones alone. */
  lemma {:induction false} MissingBonesAreSkipped(queues: map<string, BoneAnimationQueue>, anims: seq<BoneAnimation>, bones: map<string, GeoBone>,
                                                  snapshots: map<string, BoneSnapshot>, tick: real, transitionLength: real)
    requires queues.Keys == bones.Keys
    ensures TransitionBones(queues, anims, bones, snapshots, tick, transitionLength, false)
         == TransitionBones(queues, PresentOnly(anims, bones), bones, snapshots, tick, transitionLength, false)
    decreases |anims|
  {
    if anims != [] {
      var name := anims[0].boneName;
      if name !in bones {
        MissingBonesAreSkipped(queues, anims[1..], bones, snapshots, tick, transitionLength);
      } else {
        var present := PresentOnly(anims, bones);
        assert present[0] == anims[0] && present[1..] == PresentOnly(anims[1..], bones);
        var b := TransitionBone(queues[name], anims[0], tick, transitionLength, Lookup(snapshots, name), bones[name].initialSnapshot);
        if b.0.Ok? {
          MissingBonesAreSkipped(queues[name := b.1], anims[1..], bones, snapshots, tick, transitionLength);
        }
      }
    }
  }

  /** With `crash` set, the transition pass ends normally only if every bone of the clip is among the given bones. */
  lemma {:induction false} TransitionFindsEveryBone(queues: map<string, BoneAnimationQueue>, anims: seq<BoneAnimation>, bones: map<string, GeoBone>,
                                                    snapshots: map<string, BoneSnapshot>, tick: real, transitionLength: real)
    requires queues.Keys == bones.Keys
    requires TransitionBones(queues, anims, bones, snapshots, tick, transitionLength, true).0.Ok?
    ensures BoneNames(anims) <= bones.Keys
    decreases |anims|
  {
    if anims != [] {
      var name := anims[0].boneName;
      var b := TransitionBone(queues[name], anims[0], tick, transitionLength, Lookup(snapshots, name), bones[name].initialSnapshot);
      TransitionFindsEveryBone(queues[name := b.1], anims[1..], bones, snapshots, tick, transitionLength);
      assert forall ba :: ba in anims ==> ba == anims[0] || ba in anims[1..];
    }
  }

  // ----- saveSnapshotsForAnimation -----

  /** Bone n is named by the clip and some snapshot among `done` belongs to it. */
  ghost predicate SavedFrom(snapshots: map<string, BoneSnapshot>, done: set<string>, names: set<string>, n: string) {
    n in names && exists k :: k in done && k in snapshots && snapshots[k].boneName == n
  }

  /**
   * `after` is `before` with, for every bone the clip names, a snapshot of
   * that bone copied in from `snapshots` (those keyed in `done`); nothing else
   * is added, removed or changed.
   */
  ghost predicate SnapshotsSaved(before: map<string, BoneSnapshot>, after: map<string, BoneSnapshot>, names: set<string>,
                                 snapshots: map<string, BoneSnapshot>, done: set<string>) {
    && (forall n :: n in after <==> n in before || SavedFrom(snapshots, done, names, n))
    && (forall n :: n in after && !SavedFrom(snapshots, done, names, n) ==> after[n] == before[n])
    && (forall n :: n in after && SavedFrom(snapshots, done, names, n) ==>
          exists k :: k in done && k in snapshots && snapshots[k].boneName == n && after[n] == snapshots[k])
  }

  /** When the snapshot map is keyed by bone name, each bone the clip names gets exactly its own snapshot. */
  lemma SavedSnapshotsAreTheBonesOwn(before: map<string, BoneSnapshot>, after: map<string, BoneSnapshot>, names: set<string>,
                                     snapshots: map<string, BoneSnapshot>)
    requires forall k :: k in snapshots ==> snapshots[k].boneName == k
    requires SnapshotsSaved(before, after, names, snapshots, snapshots.Keys)
    ensures forall n :: n in names && n in snapshots ==> n in after && after[n] == snapshots[n]
    ensures forall n :: n in after && (n !in names || n !in snapshots) ==> n in before && after[n] == before[n]
  {
    forall n | n in names && n in snapshots
      ensures n in after && after[n] == snapshots[n]
    {
      assert SavedFrom(snapshots, snapshots.Keys, names, n);
    }
  }

  // ----- end of clip (processCurrentAnimation, lines 399-421) -----

  function ClipEnded(clip: QueuedAnimation, tick: real): bool {
    tick >= clip.animation.length
  }

  /** The clip sampled after the end-of-clip check, or None when the controller stops there. */
  function ClipToSample(clip: QueuedAnimation, queue: seq<QueuedAnimation>, tick: real): Option<QueuedAnimation> {
    if !ClipEnded(clip, tick) || clip.loopType.ShouldPlayAgain() then Some(clip)
    else if queue == [] then None
    else Some(queue[0])
  }

  /** The tick sampled after the end-of-clip check: a looping clip restarts at 0. */
  function TickToSample(clip: QueuedAnimation, tick: real): real {
    if ClipEnded(clip, tick) && clip.loopType.ShouldPlayAgain() then 0.0 else tick
  }

  class AnimationController {
    const name: string
    const transitionLength: real
    var animationSpeed: real
    var easing: AnimationPoint -> real
    var soundHandlerSet: bool
    var particleHandlerSet: bool
    var customHandlerSet: bool
    var boneAnimationQueues: map<string, BoneAnimationQueue>
    var boneSnapshots: map<string, BoneSnapshot>
    var animationQueue: seq<QueuedAnimation>
    var isJustStarting: bool
    var needsAnimationReload: bool
    var shouldResetTick: bool
    var justStopped: bool
    var justStartedTransition: bool
    var currentRawAnimation: RawAnimation?
    var currentAnimation: Option<QueuedAnimation>
    var animationState: State
    var tickOffset: real
    var executedKeyFrames: set<KeyFrameData>
    /** The markers dispatched since the executed set was last cleared, in dispatch order. */
    ghost var firedSinceReset: seq<KeyFrameData>

    /** The executed set is exactly what was dispatched since its last reset, and nothing was dispatched twice. */
    ghost predicate Valid()
      reads this`executedKeyFrames, this`firedSinceReset
    {
      && executedKeyFrames == Elements(firedSinceReset)
      && NoDuplicates(firedSinceReset)
    }

    /**
     * A controller with a name and a transition length in whole ticks; it
     * starts STOPPED with nothing loaded, at speed 1. The easing is the
     * controller's easing function (LINEAR by default in the source).
     */
    constructor (name: string, transitionTickTime: int, easing: AnimationPoint -> real)
      ensures Valid()
      ensures this.name == name && transitionLength == transitionTickTime as real && this.easing == easing
      ensures animationState == Stopped && currentAnimation.None? && animationQueue == [] && currentRawAnimation == null
      ensures !isJustStarting && !needsAnimationReload && !shouldResetTick && !justStopped && !justStartedTransition
      ensures !soundHandlerSet && !particleHandlerSet && !customHandlerSet
      ensures animationSpeed == 1.0 && tickOffset == 0.0
      ensures boneAnimationQueues == map[] && boneSnapshots == map[] && executedKeyFrames == {}
    {
      this.name := name;
      transitionLength := transitionTickTime as real;
      this.easing := easing;
      animationSpeed := 1.0;
      soundHandlerSet, particleHandlerSet, customHandlerSet := false, false, false;
      boneAnimationQueues, boneSnapshots := map[], map[];
      animationQueue := [];
      isJustStarting, needsAnimationReload, shouldResetTick, justStopped, justStartedTransition := false, false, false, false, false;
      currentRawAnimation := null;
      currentAnimation := None;
      animationState := Stopped;
      tickOffset := 0.0;
      executedKeyFrames := {};
      firedSinceReset := [];
    }

    method SetSoundKeyframeHandler()
      modifies this`soundHandlerSet
      ensures soundHandlerSet
    {
      soundHandlerSet := true;
    }

    method SetParticleKeyframeHandler()
      modifies this`particleHandlerSet
      ensures particleHandlerSet
    {
      particleHandlerSet := true;
    }

    method SetCustomInstructionKeyframeHandler()
      modifies this`customHandlerSet
      ensures customHandlerSet
    {
      customHandlerSet := true;
    }

    /** setAnimationSpeed: the speed every later adjustTick multiplies by. */
    method SetAnimationSpeed(speed: real)
      modifies this`animationSpeed
      ensures animationSpeed == speed
    {
      animationSpeed := speed;
    }

    method SetEasingType(easing: AnimationPoint -> real)
      modifies this`easing
      ensures this.easing == easing
    {
      this.easing := easing;
    }

    /** markNeedsReload: the next setAnimation reloads even an equal request. */
    method MarkNeedsReload()
      modifies this`needsAnimationReload
      ensures needsAnimationReload
    {
      needsAnimationReload := true;
    }

    /** stop(): only the state changes. */
    method Stop()
      modifies this`animationState
      ensures animationState == Stopped
    {
      animationState := Stopped;
    }

    /** getBoneAnimationQueues().clear(), as the processor does on a reload. */
    method ClearBoneAnimationQueues()
      modifies this`boneAnimationQueues
      ensures boneAnimationQueues == map[]
    {
      boneAnimationQueues := map[];
    }

    /** resetEventKeyFrames: a new playthrough starts with nothing executed. */
    method ResetEventKeyFrames()
      modifies this`executedKeyFrames, this`firedSinceReset
      ensures Valid() && executedKeyFrames == {} && firedSinceReset == []
    {
      executedKeyFrames := {};
      firedSinceReset := [];
    }

    /**
     * setAnimation. A null or empty request stops the controller and changes
     * nothing else. An equal request with no reload pending changes nothing.
     * Otherwise the request is resolved against the clip library (None: the
     * model has no animation processor) and, if every stage resolves, is
     * loaded and a transition begins; if not, the controller stops with its
     * queue and current request untouched.
     */
    method SetAnimation(rawAnimation: RawAnimation?, clips: Option<ClipLibrary>)
      modifies this`animationState, this`animationQueue, this`currentRawAnimation, this`shouldResetTick,
               this`justStartedTransition, this`needsAnimationReload
      ensures rawAnimation == null || rawAnimation.animationList == [] ==>
        && animationState == Stopped
        && animationQueue == old(animationQueue) && currentRawAnimation == old(currentRawAnimation)
        && shouldResetTick == old(shouldResetTick) && justStartedTransition == old(justStartedTransition)
        && needsAnimationReload == old(needsAnimationReload)
      ensures rawAnimation != null && rawAnimation.animationList != [] && !old(needsAnimationReload)
              && rawAnimation.Equals(old(currentRawAnimation)) ==>
        && animationState == old(animationState)
        && animationQueue == old(animationQueue) && currentRawAnimation == old(currentRawAnimation)
        && shouldResetTick == old(shouldResetTick) && justStartedTransition == old(justStartedTransition)
        && needsAnimationReload == old(needsAnimationReload)
      ensures rawAnimation != null && rawAnimation.animationList != []
              && (old(needsAnimationReload) || !rawAnimation.Equals(old(currentRawAnimation))) ==>
        if clips.Some? && AllResolvable(clips.value, rawAnimation.animationList) then
          && IsResolvedQueue(clips.value, rawAnimation.animationList, animationQueue)
          && currentRawAnimation == rawAnimation
          && shouldResetTick && justStartedTransition && animationState == Transitioning && !needsAnimationReload
        else
          && animationState == Stopped
          && animationQueue == old(animationQueue) && currentRawAnimation == old(currentRawAnimation)
          && shouldResetTick == old(shouldResetTick) && justStartedTransition == old(justStartedTransition)
          && needsAnimationReload == old(needsAnimationReload)
    {
      if rawAnimation == null || rawAnimation.animationList == [] {
        Stop();
        return;
      }
      if needsAnimationReload || !rawAnimation.Equals(currentRawAnimation) {
        if clips.Some? {
          var animations := BuildAnimationQueue(clips.value, rawAnimation.animationList);
          if animations.Some? {
            animationQueue := animations.value;
            currentRawAnimation := rawAnimation;
            shouldResetTick := true;
            animationState := Transitioning;
            justStartedTransition := true;
            needsAnimationReload := false;
            return;
          }
        }
        Stop();
      }
    }

    /**
     * adjustTick. Without a pending reset: speed times the time since the
     * offset, never negative. With one: 0, the reset is spent, and the offset
     * moves to `tick` unless the controller is stopped.
     */
    method AdjustTick(tick: real) returns (r: real)
      modifies this`shouldResetTick, this`tickOffset
      ensures !shouldResetTick
      ensures !old(shouldResetTick) ==> r == ScaledElapsed(animationSpeed, tick, tickOffset) && tickOffset == old(tickOffset)
      ensures old(shouldResetTick) ==> r == 0.0 && tickOffset == (if animationState != Stopped then tick else old(tickOffset))
    {
      if !shouldResetTick {
        return animationSpeed * (if tick - tickOffset > 0.0 then tick - tickOffset else 0.0);
      }
      if animationState != Stopped {
        tickOffset := tick;
      }
      shouldResetTick := false;
      return 0.0;
    }

    /** createInitialQueues: the queues are rebuilt, one fresh queue per given bone. */
    method CreateInitialQueues(bones: map<string, GeoBone>)
      modifies this`boneAnimationQueues
      ensures boneAnimationQueues == FreshQueues(bones)
    {
      boneAnimationQueues := map[];
      var remaining := bones.Keys;
      while remaining != {}
        invariant remaining <= bones.Keys
        invariant boneAnimationQueues == map k | k in bones.Keys - remaining :: NewQueue(bones[k])
        decreases remaining
      {
        var k :| k in remaining;
        boneAnimationQueues := boneAnimationQueues[k := NewQueue(bones[k])];
        remaining := remaining - {k};
      }
    }

    /** saveSnapshotsForAnimation: copies in the snapshots of the bones the clip animates, and no others. */
    method SaveSnapshotsForAnimation(animation: QueuedAnimation, snapshots: map<string, BoneSnapshot>)
      modifies this`boneSnapshots
      ensures SnapshotsSaved(old(boneSnapshots), boneSnapshots, BoneNames(animation.animation.boneAnimations), snapshots, snapshots.Keys)
    {
      var anims := animation.animation.boneAnimations;
      ghost var names := BoneNames(anims);
      var remaining := snapshots.Keys;
      ghost var done: set<string> := {};
      while remaining != {}
        invariant remaining <= snapshots.Keys && done == snapshots.Keys - remaining
        invariant SnapshotsSaved(old(boneSnapshots), boneSnapshots, names, snapshots, done)
        decreases remaining
      {
        var key :| key in remaining;
        ghost var before := boneSnapshots;
        var found := SaveIfAnimated(snapshots[key], anims);
        SaveStep(old(boneSnapshots), before, boneSnapshots, names, snapshots, done, key, found);
        remaining := remaining - {key};
        done := done + {key};
      }
      assert done == snapshots.Keys;
    }

    /** The inner loop: the snapshot is stored under its bone's name when some bone animation of the clip names that bone. */
    method SaveIfAnimated(snapshot: BoneSnapshot, anims: seq<BoneAnimation>) returns (found: bool)
      modifies this`boneSnapshots
      ensures found <==> snapshot.boneName in BoneNames(anims)
      ensures found ==> boneSnapshots == old(boneSnapshots)[snapshot.boneName := snapshot]
      ensures !found ==> boneSnapshots == old(boneSnapshots)
    {
      found := false;
      var j := 0;
      while j < |anims| && !found
        invariant 0 <= j <= |anims|
        invariant !found ==> boneSnapshots == old(boneSnapshots) && forall m :: 0 <= m < j ==> anims[m].boneName != snapshot.boneName
        invariant found ==> snapshot.boneName in BoneNames(anims) && boneSnapshots == old(boneSnapshots)[snapshot.boneName := snapshot]
      {
        if anims[j].boneName == snapshot.boneName {
          boneSnapshots := boneSnapshots[anims[j].boneName := snapshot];
          found := true;
        }
        j := j + 1;
      }
      if !found {
        forall ba | ba in anims
          ensures ba.boneName != snapshot.boneName
        {
          var m :| 0 <= m < |anims| && anims[m] == ba;
        }
      }
    }

    /** One snapshot of the copy loop considered: the saved-snapshot relation extends by its key. */
    static lemma SaveStep(original: map<string, BoneSnapshot>, before: map<string, BoneSnapshot>, after: map<string, BoneSnapshot>,
                          names: set<string>, snapshots: map<string, BoneSnapshot>, done: set<string>, key: string, found: bool)
      requires key in snapshots && key !in done
      requires SnapshotsSaved(original, before, names, snapshots, done)
      requires found ==> snapshots[key].boneName in names && after == before[snapshots[key].boneName := snapshots[key]]
      requires !found ==> snapshots[key].boneName !in names && after == before
      ensures SnapshotsSaved(original, after, names, snapshots, done + {key})
    {
      var s := snapshots[key];
      forall n | n != s.boneName
        ensures SavedFrom(snapshots, done + {key}, names, n) == SavedFrom(snapshots, done, names, n)
      {
        if SavedFrom(snapshots, done + {key}, names, n) {
          var k :| k in done + {key} && k in snapshots && snapshots[k].boneName == n;
          assert k != key;
        }
      }
      if found {
        assert SavedFrom(snapshots, done + {key}, names, s.boneName);
      } else {
        assert SavedFrom(snapshots, done + {key}, names, s.boneName) == SavedFrom(snapshots, done, names, s.boneName);
      }
    }

    /**
     * One of the three dispatch loops: every marker of the list not yet
     * executed whose start tick is reached is dispatched, in list order. A
     * due marker with no handler set is a null dereference, raised before
     * that marker is recorded.
     */
    method DispatchEvents(events: seq<KeyFrameData>, adjustedTick: real, handlerSet: bool) returns (outcome: Outcome, fired: seq<KeyFrameData>)
      requires Valid()
      modifies this`executedKeyFrames, this`firedSinceReset
      ensures Valid()
      ensures firedSinceReset == old(firedSinceReset) + fired
      ensures executedKeyFrames == old(executedKeyFrames) + Elements(fired)
      ensures outcome.Ok? ==> fired == DueEvents(events, old(executedKeyFrames), adjustedTick)
      ensures outcome.Crash? ==>
        && !handlerSet && outcome == Crash(NullReference) && fired == []
        && DueEvents(events, old(executedKeyFrames), adjustedTick) != []
      ensures handlerSet ==> outcome.Ok?
    {
      fired := [];
      for i := 0 to |events|
        invariant Valid()
        invariant fired + DueEvents(events[i..], executedKeyFrames, adjustedTick) == DueEvents(events, old(executedKeyFrames), adjustedTick)
        invariant firedSinceReset == old(firedSinceReset) + fired
        invariant executedKeyFrames == old(executedKeyFrames) + Elements(fired)
        invariant !handlerSet ==> fired == []
      {
        var keyFrameData := events[i];
        assert events[i..][1..] == events[i + 1..];
        if keyFrameData !in executedKeyFrames && adjustedTick >= keyFrameData.startTick {
          if !handlerSet {
            return Crash(NullReference), [];
          }
          fired := fired + [keyFrameData];
          executedKeyFrames := executedKeyFrames + {keyFrameData};
          firedSinceReset := firedSinceReset + [keyFrameData];
        }
      }
      assert events[|events|..] == [];
      outcome := Ok;
    }

    /** The sound, particle and custom instruction loops, in that order. */
    method DispatchAll(keyFrames: EventKeyFrames, adjustedTick: real) returns (outcome: Outcome, fired: seq<KeyFrameData>)
      requires Valid()
      modifies this`executedKeyFrames, this`firedSinceReset
      ensures outcome.Ok? ==> fired == DueInOrder(keyFrames, old(executedKeyFrames), adjustedTick)
      ensures Valid()
      ensures firedSinceReset == old(firedSinceReset) + fired
      ensures soundHandlerSet && particleHandlerSet && customHandlerSet ==> outcome.Ok?
      ensures outcome.Crash? ==> outcome.fault == NullReference
    {
      ghost var log0, executed0 := firedSinceReset, executedKeyFrames;
      var s, p, c;
      outcome, s := DispatchEvents(keyFrames.sounds, adjustedTick, soundHandlerSet);
      if outcome.Crash? {
        return outcome, [];
      }
      outcome, p := DispatchEvents(keyFrames.particles, adjustedTick, particleHandlerSet);
      if outcome.Crash? {
        return outcome, s;
      }
      outcome, c := DispatchEvents(keyFrames.customInstructions, adjustedTick, customHandlerSet);
      fired := s + p + c;
      AppendThree(log0, s, p, c);
    }

    /** The sampling loop of processCurrentAnimation over one clip's bone animations. */
    method SampleClip(anims: seq<BoneAnimation>, tick: real, crash: bool) returns (outcome: Outcome)
      modifies this`boneAnimationQueues
      ensures (outcome, boneAnimationQueues) == SampleBones(old(boneAnimationQueues), anims, tick, crash)
    {
      for i := 0 to |anims|
        invariant SampleBones(boneAnimationQueues, anims[i..], tick, crash) == SampleBones(old(boneAnimationQueues), anims, tick, crash)
      {
        assert anims[i..][0] == anims[i] && anims[i..][1..] == anims[i + 1..];
        var boneAnimation := anims[i];
        if boneAnimation.boneName !in boneAnimationQueues {
          if crash {
            return Crash(MissingBone(boneAnimation.boneName));
          }
        } else {
          var o, q := SampleBoneAt(boneAnimationQueues[boneAnimation.boneName], boneAnimation, tick);
          boneAnimationQueues := boneAnimationQueues[boneAnimation.boneName := q];
          if o.Crash? {
            return o;
          }
        }
      }
      assert anims[|anims|..] == [];
      outcome := Ok;
    }

    /** The transition loop over the next clip's bone animations. */
    method QueueTransitionPoints(anims: seq<BoneAnimation>, bones: map<string, GeoBone>, tick: real, crash: bool) returns (outcome: Outcome)
      requires boneAnimationQueues.Keys == bones.Keys
      modifies this`boneAnimationQueues
      ensures (outcome, boneAnimationQueues)
           == TransitionBones(old(boneAnimationQueues), anims, bones, boneSnapshots, tick, transitionLength, crash)
    {
      for i := 0 to |anims|
        invariant boneAnimationQueues.Keys == bones.Keys
        invariant TransitionBones(boneAnimationQueues, anims[i..], bones, boneSnapshots, tick, transitionLength, crash)
               == TransitionBones(old(boneAnimationQueues), anims, bones, boneSnapshots, tick, transitionLength, crash)
      {
        assert anims[i..][0] == anims[i] && anims[i..][1..] == anims[i + 1..];
        var boneAnimation := anims[i];
        var boneName := boneAnimation.boneName;
        if boneName !in bones {
          if crash {
            return Crash(MissingBone(boneName));
          }
        } else {
          var o, q := TransitionBoneAt(boneAnimationQueues[boneName], boneAnimation, tick, Lookup(boneSnapshots, boneName),
                                       bones[boneName].initialSnapshot);
          boneAnimationQueues := boneAnimationQueues[boneName := q];
          if o.Crash? {
            return o;
          }
        }
      }
      assert anims[|anims|..] == [];
      outcome := Ok;
    }

    method SampleBoneAt(q: BoneAnimationQueue, ba: BoneAnimation, tick: real) returns (outcome: Outcome, r: BoneAnimationQueue)
      ensures (outcome, r) == SampleBone(q, ba, tick)
    {
      r := q;
      var channels := [Rotation, Position, Scale];
      for c := 0 to 3
        invariant SampleBone(q, ba, tick) == SampleChannelsFrom(r, ba, tick, channels[c..])
      {
        assert channels[c..][0] == channels[c] && channels[c..][1..] == channels[c + 1..];
        var ch := channels[c];
        var s := SampleStackAt(ba.Track(ch), tick, ch == Rotation);
        match s
        case NoTrack =>
        case MissingAxis =>
          return Crash(IndexOutOfBounds), r;
        case Points(px, py, pz) =>
          r := r.Add(ch, px, py, pz);
      }
      outcome := Ok;
    }

    method TransitionBoneAt(q: BoneAnimationQueue, ba: BoneAnimation, tick: real, snapshot: Option<BoneSnapshot>, initial: Option<BoneSnapshot>)
      returns (outcome: Outcome, r: BoneAnimationQueue)
      ensures (outcome, r) == TransitionBone(q, ba, tick, transitionLength, snapshot, initial)
    {
      r := q;
      var channels := [Rotation, Position, Scale];
      for c := 0 to 3
        invariant TransitionBone(q, ba, tick, transitionLength, snapshot, initial)
               == TransitionChannelsFrom(r, ba, tick, transitionLength, snapshot, initial, channels[c..])
      {
        assert channels[c..][0] == channels[c] && channels[c..][1..] == channels[c + 1..];
        var ch := channels[c];
        var s := SampleStackAt(ba.Track(ch), 0.0, ch == Rotation);
        match s
        case NoTrack =>
        case MissingAxis =>
          return Crash(IndexOutOfBounds), r;
        case Points(px, py, pz) =>
          if snapshot.None? || (ch == Rotation && initial.None?) {
            return Crash(NullReference), r;
          }
          r := r.AddNext(ch, tick, transitionLength, snapshot.value, if initial.Some? then initial.value else snapshot.value, px, py, pz);
      }
      outcome := Ok;
    }

    /**
     * The end-of-clip check of processCurrentAnimation. Before the clip's
     * length nothing changes. At or past it the executed markers are reset;
     * then a clip that plays again restarts at tick 0, a finished clip with
     * nothing queued stops the controller, and otherwise the next queued clip
     * (peeked, not removed) becomes current with a transition and a tick
     * reset pending.
     */
    method HandleClipEnd(adjustedTick: real, seekTime: real) returns (tick: real, stopped: bool)
      requires Valid() && animationState == Running && currentAnimation.Some?
      modifies this`executedKeyFrames, this`firedSinceReset, this`shouldResetTick, this`tickOffset, this`animationState,
               this`currentAnimation
      ensures Valid()
      ensures var clip := old(currentAnimation).value;
        && (stopped <==> ClipToSample(clip, animationQueue, adjustedTick).None?)
        && (!stopped ==> currentAnimation == ClipToSample(clip, animationQueue, adjustedTick) && tick == TickToSample(clip, adjustedTick))
        && (!ClipEnded(clip, adjustedTick) ==>
              && executedKeyFrames == old(executedKeyFrames) && firedSinceReset == old(firedSinceReset)
              && animationState == Running && shouldResetTick == old(shouldResetTick) && tickOffset == old(tickOffset))
        && (ClipEnded(clip, adjustedTick) ==> executedKeyFrames == {} && firedSinceReset == [])
        && (ClipEnded(clip, adjustedTick) && clip.loopType.ShouldPlayAgain() ==>
              animationState == Running && !shouldResetTick && tickOffset == seekTime)
        && (ClipEnded(clip, adjustedTick) && !clip.loopType.ShouldPlayAgain() && animationQueue == [] ==>
              && animationState == Stopped && currentAnimation == old(currentAnimation)
              && shouldResetTick == old(shouldResetTick) && tickOffset == old(tickOffset))
        && (ClipEnded(clip, adjustedTick) && !clip.loopType.ShouldPlayAgain() && animationQueue != [] ==>
              animationState == Transitioning && shouldResetTick && tickOffset == old(tickOffset))
    {
      var clip := currentAnimation.value;
      tick, stopped := adjustedTick, false;
      if adjustedTick >= clip.animation.length {
        ResetEventKeyFrames();
        if clip.loopType.ShouldPlayAgain() {
          shouldResetTick := true;
          tick := AdjustTick(seekTime);
        } else if animationQueue == [] {
          animationState := Stopped;
          stopped := true;
        } else {
          animationState := Transitioning;
          shouldResetTick := true;
          currentAnimation := Some(animationQueue[0]);
        }
      }
    }

    /**
     * processCurrentAnimation: the end-of-clip check, then the clip it leaves
     * current is sampled into the bone queues at the tick it leaves, then that
     * clip's markers are dispatched; when the end of a clip started a
     * transition and the transition length is 0, the next clip is polled off
     * the queue in the same tick. RUNNING with no current clip is a null
     * dereference.
     */
    method ProcessCurrentAnimation(adjustedTick: real, seekTime: real, crash: bool) returns (outcome: Outcome, fired: seq<KeyFrameData>)
      requires Valid() && animationState == Running
      modifies this`executedKeyFrames, this`firedSinceReset, this`shouldResetTick, this`tickOffset, this`animationState,
               this`currentAnimation, this`animationQueue, this`boneAnimationQueues
      ensures Valid()
      ensures old(currentAnimation).None? ==>
        && outcome == Crash(NullReference) && fired == [] && firedSinceReset == old(firedSinceReset)
        && boneAnimationQueues == old(boneAnimationQueues) && animationState == Running
        && currentAnimation == old(currentAnimation) && animationQueue == old(animationQueue)
      ensures old(currentAnimation).Some? ==>
        var clip := old(currentAnimation).value;
        var ended := ClipEnded(clip, adjustedTick);
        var next := ClipToSample(clip, old(animationQueue), adjustedTick);
        var tick := TickToSample(clip, adjustedTick);
        && firedSinceReset == (if ended then [] else old(firedSinceReset)) + fired
        && (next.None? ==>
              && outcome == Ok && fired == [] && animationState == Stopped && boneAnimationQueues == old(boneAnimationQueues)
              && currentAnimation == old(currentAnimation) && animationQueue == old(animationQueue))
        && (next.Some? ==>
              var sampled := SampleBones(old(boneAnimationQueues), next.value.animation.boneAnimations, tick, crash);
              && boneAnimationQueues == sampled.1
              && (sampled.0.Crash? ==> outcome == sampled.0 && fired == [])
              && (outcome.Ok? ==> sampled.0.Ok? && fired == DueInOrder(next.value.animation.keyFrames, if ended then {} else old(executedKeyFrames), tick)))
        && (!ended ==>
              && animationState == Running && currentAnimation == old(currentAnimation) && animationQueue == old(animationQueue)
              && shouldResetTick == old(shouldResetTick) && tickOffset == old(tickOffset))
        && (ended && clip.loopType.ShouldPlayAgain() ==>
              && animationState == Running && currentAnimation == old(currentAnimation) && animationQueue == old(animationQueue)
              && !shouldResetTick && tickOffset == seekTime)
        && (ended && !clip.loopType.ShouldPlayAgain() && old(animationQueue) != [] ==>
              && animationState == Transitioning && shouldResetTick && tickOffset == old(tickOffset)
              && currentAnimation == Some(old(animationQueue)[0])
              && animationQueue == (if transitionLength == 0.0 && outcome.Ok? then old(animationQueue)[1..] else old(animationQueue)))
    {
      if currentAnimation.None? {
        return Crash(NullReference), [];
      }
      var tick, stopped := HandleClipEnd(adjustedTick, seekTime);
      if stopped {
        return Ok, [];
      }
      var clip := currentAnimation.value;
      outcome := SampleClip(clip.animation.boneAnimations, tick, crash);
      if outcome.Crash? {
        return outcome, [];
      }
      outcome, fired := DispatchAll(clip.animation.keyFrames, tick);
      if outcome.Ok? && transitionLength == 0.0 && shouldResetTick && animationState == Transitioning {
        currentAnimation := Some(animationQueue[0]);
        animationQueue := animationQueue[1..];
      }
    }

    /**
     * The TRANSITIONING branch of process. At tick 0, or on the instance's
     * first tick, the next clip is polled off the queue, the executed markers
     * are reset and, if there is a clip, the snapshots of its bones are saved.
     * Then, while there is a current clip, each of its bones gets a transition
     * point from its saved snapshot toward the clip's first keyframe values.
     */
    method ProcessTransition(adjustedTick: real, bones: map<string, GeoBone>, snapshots: map<string, BoneSnapshot>, crash: bool)
      returns (outcome: Outcome)
      requires Valid() && boneAnimationQueues.Keys == bones.Keys
      modifies this`justStartedTransition, this`currentAnimation, this`animationQueue, this`executedKeyFrames,
               this`firedSinceReset, this`boneSnapshots, this`boneAnimationQueues
      ensures Valid()
      ensures boneAnimationQueues.Keys == bones.Keys
      ensures forall k :: k in boneAnimationQueues ==> boneAnimationQueues[k].bone == old(boneAnimationQueues)[k].bone
      ensures adjustedTick == 0.0 || isJustStarting ==>
        && !justStartedTransition && executedKeyFrames == {} && firedSinceReset == []
        && currentAnimation == (if old(animationQueue) == [] then None else Some(old(animationQueue)[0]))
        && animationQueue == (if old(animationQueue) == [] then [] else old(animationQueue)[1..])
        && (currentAnimation.Some? ==>
              SnapshotsSaved(old(boneSnapshots), boneSnapshots, BoneNames(currentAnimation.value.animation.boneAnimations), snapshots, snapshots.Keys))
      ensures !(adjustedTick == 0.0 || isJustStarting) ==>
        && justStartedTransition == old(justStartedTransition) && currentAnimation == old(currentAnimation)
        && animationQueue == old(animationQueue) && executedKeyFrames == old(executedKeyFrames)
        && firedSinceReset == old(firedSinceReset) && boneSnapshots == old(boneSnapshots)
      ensures currentAnimation.None? ==> outcome == Ok && boneAnimationQueues == old(boneAnimationQueues) && boneSnapshots == old(boneSnapshots)
      ensures currentAnimation.Some? ==>
        (outcome, boneAnimationQueues)
          == TransitionBones(old(boneAnimationQueues), currentAnimation.value.animation.boneAnimations, bones, boneSnapshots,
                             adjustedTick, transitionLength, crash)
    {
      if adjustedTick == 0.0 || isJustStarting {
        justStartedTransition := false;
        if animationQueue == [] {
          currentAnimation := None;
        } else {
          currentAnimation := Some(animationQueue[0]);
          animationQueue := animationQueue[1..];
        }
        ResetEventKeyFrames();
        if currentAnimation.None? {
          return Ok;
        }
        SaveSnapshotsForAnimation(currentAnimation.value, snapshots);
      }
      if currentAnimation.Some? {
        outcome := QueueTransitionPoints(currentAnimation.value.animation.boneAnimations, bones, adjustedTick, crash);
      } else {
        outcome := Ok;
      }
    }

    /** A transition whose length has elapsed becomes RUNNING, with the tick re-based to 0. */
    method FinishTransitionIfDue(seekTime: real, adjustedTick: real) returns (tick: real)
      modifies this`shouldResetTick, this`animationState, this`tickOffset
      ensures old(animationState) == Transitioning && adjustedTick >= transitionLength ==>
        animationState == Running && tick == 0.0 && !shouldResetTick && tickOffset == seekTime
      ensures !(old(animationState) == Transitioning && adjustedTick >= transitionLength) ==>
        && animationState == old(animationState) && tick == adjustedTick
        && shouldResetTick == old(shouldResetTick) && tickOffset == old(tickOffset)
    {
      tick := adjustedTick;
      if animationState == Transitioning && adjustedTick >= transitionLength {
        shouldResetTick := true;
        animationState := Running;
        tick := AdjustTick(seekTime);
      }
    }

    /**
     * The ladder after the handler has answered CONTINUE: a transition just
     * requested takes its tick reset; with no current clip a transition is
     * (re)started from tick 0; otherwise a controller that is not
     * transitioning is RUNNING.
     */
    method SettleState(seekTime: real, adjustedTick: real) returns (tick: real)
      modifies this`justStopped, this`shouldResetTick, this`tickOffset, this`animationState, this`justStartedTransition,
               this`needsAnimationReload
      ensures old(justStartedTransition) && (old(shouldResetTick) || old(justStopped)) ==>
        && !justStopped && !shouldResetTick && justStartedTransition
        && animationState == old(animationState) && needsAnimationReload == old(needsAnimationReload)
        && (old(shouldResetTick) ==> tick == 0.0 && tickOffset == (if animationState != Stopped then seekTime else old(tickOffset)))
        && (!old(shouldResetTick) ==> tick == ScaledElapsed(animationSpeed, seekTime, tickOffset) && tickOffset == old(tickOffset))
      ensures !(old(justStartedTransition) && (old(shouldResetTick) || old(justStopped))) && currentAnimation.None? ==>
        && justStopped == old(justStopped) && !shouldResetTick && animationState == Transitioning
        && justStartedTransition && !needsAnimationReload && tick == 0.0 && tickOffset == seekTime
      ensures !(old(justStartedTransition) && (old(shouldResetTick) || old(justStopped))) && currentAnimation.Some? ==>
        && justStopped == old(justStopped) && shouldResetTick == old(shouldResetTick) && tickOffset == old(tickOffset)
        && justStartedTransition == old(justStartedTransition) && needsAnimationReload == old(needsAnimationReload)
        && tick == adjustedTick
        && animationState == (if old(animationState) != Transitioning then Running else Transitioning)
    {
      tick := adjustedTick;
      if justStartedTransition && (shouldResetTick || justStopped) {
        justStopped := false;
        tick := AdjustTick(seekTime);
      } else if currentAnimation.None? {
        shouldResetTick := true;
        animationState := Transitioning;
        justStartedTransition := true;
        needsAnimationReload := false;
        tick := AdjustTick(seekTime);
      } else if animationState != Transitioning {
        animationState := Running;
      }
    }

    /**
     * process: one render frame of the controller. The queues are rebuilt for
     * the given bones, an elapsed transition becomes RUNNING, the handler
     * answers; a STOP answer, or nothing current and nothing queued, stops the
     * controller with no clip sampled. Otherwise the state ladder runs and the
     * RUNNING or TRANSITIONING branch fills the queues. The markers returned
     * are those dispatched this frame; none of them had fired since the last
     * reset (Valid).
     */
    method Process(seekTime: real, verdict: Verdict, bones: map<string, GeoBone>, snapshots: map<string, BoneSnapshot>,
                   clips: Option<ClipLibrary>, crash: bool) returns (outcome: Outcome, fired: seq<KeyFrameData>)
      requires Valid()
      modifies this`justStopped, this`shouldResetTick, this`tickOffset, this`animationState, this`justStartedTransition,
               this`needsAnimationReload, this`currentAnimation, this`animationQueue, this`currentRawAnimation,
               this`executedKeyFrames, this`firedSinceReset, this`boneSnapshots, this`boneAnimationQueues
      ensures Valid()
      ensures boneAnimationQueues.Keys == bones.Keys
      ensures forall k :: k in boneAnimationQueues ==> boneAnimationQueues[k].bone == bones[k]
      ensures |fired| <= |firedSinceReset| && firedSinceReset[|firedSinceReset| - |fired|..] == fired
      ensures verdict.playState.Stop? ==>
        outcome == Ok && fired == [] && animationState == Stopped && justStopped && boneAnimationQueues == FreshQueues(bones)
      ensures verdict.action.NoRequest? && old(currentAnimation).None? && old(animationQueue) == [] ==>
        outcome == Ok && fired == [] && animationState == Stopped && justStopped && boneAnimationQueues == FreshQueues(bones)
    {
      var adjustedTick := BeginTick(seekTime, bones);
      ApplyVerdictRequest(verdict.action, clips);
      if verdict.playState.Stop? || (currentAnimation.None? && animationQueue == []) {
        animationState := Stopped;
        justStopped := true;
        return Ok, [];
      }
      outcome, fired := Advance(seekTime, adjustedTick, bones, snapshots, crash);
    }

    /** The start of process: the tick is adjusted, the queues rebuilt and an elapsed transition finished. */
    method BeginTick(seekTime: real, bones: map<string, GeoBone>) returns (adjustedTick: real)
      modifies this`shouldResetTick, this`tickOffset, this`boneAnimationQueues, this`animationState
      ensures boneAnimationQueues == FreshQueues(bones)
      ensures old(animationState) == Transitioning ==> animationState in {Transitioning, Running}
      ensures old(animationState) != Transitioning ==> animationState == old(animationState)
    {
      adjustedTick := AdjustTick(seekTime);
      CreateInitialQueues(bones);
      adjustedTick := FinishTransitionIfDue(seekTime, adjustedTick);
    }

    /** The handler's setAnimation call, if it makes one. */
    method ApplyVerdictRequest(action: HandlerAction, clips: Option<ClipLibrary>)
      modifies this`animationState, this`animationQueue, this`currentRawAnimation, this`shouldResetTick,
               this`justStartedTransition, this`needsAnimationReload
      ensures action.NoRequest? ==> animationQueue == old(animationQueue) && animationState == old(animationState)
    {
      if action.Request? {
        SetAnimation(action.raw, clips);
      }
    }

    /** The part of process after a CONTINUE answer: the state ladder, then the RUNNING or TRANSITIONING branch. */
    method Advance(seekTime: real, adjustedTick: real, bones: map<string, GeoBone>, snapshots: map<string, BoneSnapshot>, crash: bool)
      returns (outcome: Outcome, fired: seq<KeyFrameData>)
      requires Valid() && boneAnimationQueues == FreshQueues(bones)
      modifies this`justStopped, this`shouldResetTick, this`tickOffset, this`animationState, this`justStartedTransition,
               this`needsAnimationReload, this`currentAnimation, this`animationQueue, this`executedKeyFrames,
               this`firedSinceReset, this`boneSnapshots, this`boneAnimationQueues
      ensures Valid()
      ensures boneAnimationQueues.Keys == bones.Keys
      ensures forall k :: k in boneAnimationQueues ==> boneAnimationQueues[k].bone == bones[k]
      ensures |fired| <= |firedSinceReset| && firedSinceReset[|firedSinceReset| - |fired|..] == fired
    {
      var tick := SettleState(seekTime, adjustedTick);
      if animationState == Running {
        outcome, fired := ProcessCurrentAnimation(tick, seekTime, crash);
      } else if animationState == Transitioning {
        outcome := ProcessTransition(tick, bones, snapshots, crash);
        fired := [];
      } else {
        outcome, fired := Ok, [];
      }
    }
  }
}
