/**
 * AnimationProcessor: the per-instance driver. It keeps the registered bones
 * by name, runs every controller of an instance once per render frame, merges
 * the points the controllers queued onto the bones, and relaxes every channel
 * no controller drove back towards the bone's rest pose.
 */
module Processor {
  import opened Collab
  import opened Controller
  import opened Data

  // ----- bone registration (registerGeoBone, setActiveModel) -----

  /** The names of a bone and all of its descendants. */
  function TreeNames(bone: GeoBone): set<string>
    decreases bone
  {
    {bone.name} + ForestNames(bone.children)
  }

  function ForestNames(bs: seq<GeoBone>): set<string>
    decreases bs
  {
    if bs == [] then {} else TreeNames(bs[0]) + ForestNames(bs[1..])
  }

  /**
   * registerGeoBone as its authors intended: the bone, with its rest pose
   * captured, is stored under its name, then each child is registered in turn.
   */
  function RegisterTree(m: map<string, GeoBone>, bone: GeoBone): map<string, GeoBone>
    decreases bone
  {
    RegisterForest(m[bone.name := bone.SaveInitialSnapshot()], bone.children)
  }

  function RegisterForest(m: map<string, GeoBone>, bs: seq<GeoBone>): map<string, GeoBone>
    decreases bs
  {
    if bs == [] then m else RegisterForest(RegisterTree(m, bs[0]), bs[1..])
  }

  /** Every bone is stored under its own name and has its rest pose captured. */
  ghost predicate Registered(m: map<string, GeoBone>) {
    forall k :: k in m ==> m[k].name == k && m[k].initialSnapshot.Some?
  }

  /**
   * Registering a tree adds exactly the names of the tree, leaves every other
   * entry as it was and keeps every entry stored under its name with a rest pose.
   */
  lemma {:induction false} RegisterTreeFacts(m: map<string, GeoBone>, bone: GeoBone)
    ensures RegisterTree(m, bone).Keys == m.Keys + TreeNames(bone)
    ensures forall k :: k in m && k !in TreeNames(bone) ==> RegisterTree(m, bone)[k] == m[k]
    ensures Registered(m) ==> Registered(RegisterTree(m, bone))
    decreases bone
  {
    var m1 := m[bone.name := bone.SaveInitialSnapshot()];
    RegisterForestFacts(m1, bone.children);
  }

  lemma {:induction false} RegisterForestFacts(m: map<string, GeoBone>, bs: seq<GeoBone>)
    ensures RegisterForest(m, bs).Keys == m.Keys + ForestNames(bs)
    ensures forall k :: k in m && k !in ForestNames(bs) ==> RegisterForest(m, bs)[k] == m[k]
    ensures Registered(m) ==> Registered(RegisterForest(m, bs))
    decreases bs
  {
    if bs != [] {
      RegisterTreeFacts(m, bs[0]);
      RegisterForestFacts(RegisterTree(m, bs[0]), bs[1..]);
    }
  }

  /**
   * Last write wins: a bone whose name no descendant repeats ends up stored
   * under its name, with its rest pose captured.
   */
  lemma StoredUnderItsName(m: map<string, GeoBone>, bone: GeoBone)
    requires bone.name !in ForestNames(bone.children)
    ensures bone.name in RegisterTree(m, bone)
    ensures RegisterTree(m, bone)[bone.name] == bone.SaveInitialSnapshot()
  {
    RegisterForestFacts(m[bone.name := bone.SaveInitialSnapshot()], bone.children);
  }

  /**
   * registerGeoBone as written: the loop over the children calls
   * registerGeoBone(bone) on the parent again instead of on the child. The
   * Java recursion has no bound; `fuel` bounds it here and None means the
   * call did not return within that depth.
   */
  function RegisterAsWritten(m: map<string, GeoBone>, bone: GeoBone, fuel: nat): (r: Option<map<string, GeoBone>>)
    ensures fuel == 0 ==> r.None?
    ensures r.Some? ==> bone.name in r.value && r.value[bone.name] == bone.SaveInitialSnapshot()
    decreases fuel, 0
  {
    if fuel == 0 then None
    else ChildLoopAsWritten(m[bone.name := bone.SaveInitialSnapshot()], bone, |bone.children|, fuel - 1)
  }

  /** The `for (child : children)` loop of the as-written code, with `n` iterations left. */
  function ChildLoopAsWritten(m: map<string, GeoBone>, bone: GeoBone, n: nat, fuel: nat): (r: Option<map<string, GeoBone>>)
    ensures n == 0 ==> r == Some(m)
    ensures n > 0 && r.Some? ==> bone.name in r.value && r.value[bone.name] == bone.SaveInitialSnapshot()
    decreases fuel, n + 1
  {
    if n == 0 then Some(m)
    else match RegisterAsWritten(m, bone, fuel)
      case None => None
      case Some(m1) => ChildLoopAsWritten(m1, bone, n - 1, fuel)
  }

  /** As written, registering a bone that has a child never returns, however deep the stack. */
  lemma {:induction false} AsWrittenNeverReturns(m: map<string, GeoBone>, bone: GeoBone, fuel: nat)
    requires bone.children != []
    ensures RegisterAsWritten(m, bone, fuel) == None
    decreases fuel
  {
    if fuel > 0 {
      AsWrittenNeverReturns(m[bone.name := bone.SaveInitialSnapshot()], bone, fuel - 1);
    }
  }

  /** On a bone without children the as-written code and the intended one agree. */
  lemma AsWrittenAgreesOnLeaves(m: map<string, GeoBone>, bone: GeoBone, fuel: nat)
    requires bone.children == [] && fuel > 0
    ensures RegisterAsWritten(m, bone, fuel) == Some(RegisterTree(m, bone))
  {
  }

  // ----- the apply pass of tickAnimation (lines 78-130) -----

  /** The result of applying one bone's polled points: the bone, its snapshot and the channels applied. */
  datatype BoneUpdate = BoneUpdate(outcome: Outcome, bone: GeoBone, snapshot: Option<BoneSnapshot>, changed: seq<Channel>)

  /** A channel is applied only when each of its three axis queues had a point. */
  predicate AllPresent(q: ChannelQueue) {
    q.x != [] && q.y != [] && q.z != []
  }

  /** The eased value of the three polled points. */
  function Eased(q: ChannelQueue, easing: AnimationPoint -> real): Vec3
    requires AllPresent(q)
  {
    Vec3(easing(q.x[0]), easing(q.y[0]), easing(q.z[0]))
  }

  function AddVec(a: Vec3, b: Vec3): Vec3 {
    Vec3(a.x + b.x, a.y + b.y, a.z + b.z)
  }

  /**
   * One channel of one bone. With all three points present the channel is set
   * (rotation: the eased value plus the rest rotation; position and scale: the
   * eased value itself), the snapshot takes the new value and is marked in
   * progress, and the bone is marked changed for that channel. A missing rest
   * pose (rotation only) or a missing snapshot is a null dereference.
   */
  function ApplyChannel(u: BoneUpdate, ch: Channel, q: ChannelQueue, easing: AnimationPoint -> real): (r: BoneUpdate)
    ensures r.bone.name == u.bone.name && r.bone.initialSnapshot == u.bone.initialSnapshot
    ensures r.snapshot.Some? == u.snapshot.Some?
  {
    if u.outcome.Crash? || !AllPresent(q) then u
    else if ch == Rotation && u.bone.initialSnapshot.None? then u.(outcome := Crash(NullReference))
    else
      var v := if ch == Rotation then AddVec(Eased(q, easing), u.bone.initialSnapshot.value.rotation.value) else Eased(q, easing);
      var b := u.bone.WithValue(ch, v);
      if u.snapshot.None? then u.(outcome := Crash(NullReference), bone := b)
      else
        var s := u.snapshot.value;
        BoneUpdate(Ok, b.MarkChanged(ch), Some(s.With(ch, s.Get(ch).(value := v, inProgress := true))), u.changed + [ch])
  }

  /**
   * What one channel step does. With all three points present the channel is
   * set (rotation: the eased value plus the rest rotation; position and scale:
   * the eased value itself), the snapshot takes the new value and is marked in
   * progress, the bone is marked changed for that channel, and nothing else
   * changes. A missing rest pose (rotation only) or snapshot is a null
   * dereference. Without all three points nothing happens.
   */
  lemma ApplyChannelSpec(u: BoneUpdate, ch: Channel, q: ChannelQueue, easing: AnimationPoint -> real)
    ensures var r := ApplyChannel(u, ch, q, easing);
      && (u.outcome.Crash? || !AllPresent(q) ==> r == u)
      && (u.outcome.Ok? && r.outcome.Crash? ==>
            && r.outcome == Crash(NullReference) && AllPresent(q)
            && (u.snapshot.None? || (ch == Rotation && u.bone.initialSnapshot.None?)))
      && (u.outcome.Ok? && AllPresent(q) && u.snapshot.Some? && (ch != Rotation || u.bone.initialSnapshot.Some?) ==>
            && r.outcome.Ok?
            && r.bone.Value(ch) == (if ch == Rotation then AddVec(Eased(q, easing), u.bone.initialSnapshot.value.rotation.value)
                                    else Eased(q, easing))
            && r.bone.HasChanged(ch)
            && r.snapshot.value.Get(ch) == u.snapshot.value.Get(ch).(value := r.bone.Value(ch), inProgress := true)
            && (forall c :: c != ch ==> r.bone.Value(c) == u.bone.Value(c) && r.bone.HasChanged(c) == u.bone.HasChanged(c))
            && (forall c :: c != ch ==> r.snapshot.value.Get(c) == u.snapshot.value.Get(c))
            && r.changed == u.changed + [ch])
  {
  }

  /** The apply steps for the given channels, in order. */
  function ApplyChannelsFrom(u: BoneUpdate, q: BoneAnimationQueue, easing: AnimationPoint -> real, channels: seq<Channel>): (r: BoneUpdate)
    ensures r.bone.name == u.bone.name && r.bone.initialSnapshot == u.bone.initialSnapshot
    ensures r.snapshot.Some? == u.snapshot.Some?
    decreases |channels|
  {
    if channels == [] then u
    else ApplyChannelsFrom(ApplyChannel(u, channels[0], q.Queue(channels[0]), easing), q, easing, channels[1..])
  }

  /** The rotation, position and scale blocks for one bone, in that order. */
  function ApplyBone(bone: GeoBone, snapshot: Option<BoneSnapshot>, q: BoneAnimationQueue, easing: AnimationPoint -> real): BoneUpdate {
    ApplyChannelsFrom(BoneUpdate(Ok, bone, snapshot, []), q, easing, [Rotation, Position, Scale])
  }

  /** One channel step of the apply pass, seen from a channel c. */
  lemma ApplyChannelOn(u: BoneUpdate, ch: Channel, q: ChannelQueue, easing: AnimationPoint -> real, c: Channel)
    requires u.outcome.Ok? && u.snapshot.Some? && u.bone.initialSnapshot.Some?
    ensures var r := ApplyChannel(u, ch, q, easing);
      && r.outcome.Ok? && r.snapshot.Some?
      && (c != ch || !AllPresent(q) ==>
            && r.bone.Value(c) == u.bone.Value(c) && r.bone.HasChanged(c) == u.bone.HasChanged(c)
            && r.snapshot.value.Get(c) == u.snapshot.value.Get(c))
      && (c == ch && AllPresent(q) ==> r.bone.HasChanged(c) && r.snapshot.value.Get(c).value == r.bone.Value(c))
      && (c in r.changed <==> c in u.changed || (c == ch && AllPresent(q)))
  {
  }

  lemma {:induction false} ApplyChannelsOn(u: BoneUpdate, q: BoneAnimationQueue, easing: AnimationPoint -> real, channels: seq<Channel>, c: Channel)
    requires u.outcome.Ok? && u.snapshot.Some? && u.bone.initialSnapshot.Some?
    ensures var r := ApplyChannelsFrom(u, q, easing, channels);
      && r.outcome.Ok? && r.snapshot.Some?
      && (c in r.changed <==> c in u.changed || (c in channels && AllPresent(q.Queue(c))))
      && (c in channels && AllPresent(q.Queue(c)) ==> r.bone.HasChanged(c) && r.snapshot.value.Get(c).value == r.bone.Value(c))
      && (c !in channels || !AllPresent(q.Queue(c)) ==>
            && r.bone.Value(c) == u.bone.Value(c) && r.bone.HasChanged(c) == u.bone.HasChanged(c)
            && r.snapshot.value.Get(c) == u.snapshot.value.Get(c))
    decreases |channels|
  {
    if channels != [] {
      var ch := channels[0];
      ApplyChannelOn(u, ch, q.Queue(ch), easing, c);
      ApplyChannelsOn(ApplyChannel(u, ch, q.Queue(ch), easing), q, easing, channels[1..], c);
      assert c in channels <==> c == ch || c in channels[1..];
    }
  }

  /**
   * For a registered bone that has a snapshot the apply step cannot fail and
   * keeps the bone's name and rest pose. Each channel c is changed exactly when
   * its three points were all present; then the bone is marked changed for c
   * and the snapshot's value for c is the bone's new value; otherwise the
   * channel keeps its value, its marker and its snapshot.
   */
  lemma ApplyBoneFacts(bone: GeoBone, snapshot: Option<BoneSnapshot>, q: BoneAnimationQueue, easing: AnimationPoint -> real, c: Channel)
    requires bone.initialSnapshot.Some? && snapshot.Some?
    ensures var r := ApplyBone(bone, snapshot, q, easing);
      && r.outcome.Ok? && r.snapshot.Some?
      && r.bone.name == bone.name && r.bone.initialSnapshot == bone.initialSnapshot
      && (c in r.changed <==> AllPresent(q.Queue(c)))
      && (AllPresent(q.Queue(c)) ==> r.bone.HasChanged(c) && r.snapshot.value.Get(c).value == r.bone.Value(c))
      && (!AllPresent(q.Queue(c)) ==>
            && r.bone.Value(c) == bone.Value(c) && r.bone.HasChanged(c) == bone.HasChanged(c)
            && r.snapshot.value.Get(c) == snapshot.value.Get(c))
  {
    ApplyChannelsOn(BoneUpdate(Ok, bone, snapshot, []), q, easing, [Rotation, Position, Scale], c);
  }

  lemma {:induction false} CrashedStays(u: BoneUpdate, q: BoneAnimationQueue, easing: AnimationPoint -> real, channels: seq<Channel>)
    requires u.outcome.Crash?
    ensures ApplyChannelsFrom(u, q, easing, channels) == u
    decreases |channels|
  {
    if channels != [] {
      CrashedStays(u, q, easing, channels[1..]);
    }
  }

  /** The apply steps fail only on a null dereference, and only when the bone has no snapshot or no rest pose. */
  lemma {:induction false} ApplyChannelsCrash(u: BoneUpdate, q: BoneAnimationQueue, easing: AnimationPoint -> real, channels: seq<Channel>)
    requires u.outcome.Ok?
    ensures var r := ApplyChannelsFrom(u, q, easing, channels);
      r.outcome.Crash? ==> r.outcome == Crash(NullReference) && (u.snapshot.None? || u.bone.initialSnapshot.None?)
    decreases |channels|
  {
    if channels != [] {
      var u1 := ApplyChannel(u, channels[0], q.Queue(channels[0]), easing);
      ApplyChannelSpec(u, channels[0], q.Queue(channels[0]), easing);
      if u1.outcome.Crash? {
        CrashedStays(u1, q, easing, channels[1..]);
      } else {
        ApplyChannelsCrash(u1, q, easing, channels[1..]);
      }
    }
  }

  // ----- the relax pass of tickAnimation (lines 136-198) -----

  /** Math.min((seekTime - lastReset) / resetTickLength, 1): how far the way back to rest has got. */
  function ResetProgress(seekTime: real, lastReset: real, resetTickLength: real): (r: real)
    requires resetTickLength > 0.0
    ensures r <= 1.0
    ensures seekTime >= lastReset ==> 0.0 <= r
    ensures r == 1.0 <==> seekTime - lastReset >= resetTickLength
    ensures r < 1.0 ==> r * resetTickLength == seekTime - lastReset
  {
    var p := (seekTime - lastReset) / resetTickLength;
    if p < 1.0 then p else 1.0
  }

  /** Interpolations.lerp: a + (b - a) * p. */
  function Lerp(a: real, b: real, p: real): real {
    a + (b - a) * p
  }

  function LerpVec(a: Vec3, b: Vec3, p: real): Vec3 {
    Vec3(Lerp(a.x, b.x, p), Lerp(a.y, b.y, p), Lerp(a.z, b.z, p))
  }

  /**
   * One channel of the relax pass. A channel the bone marked changed is left
   * alone. Otherwise an animation still in progress is stopped at seekTime,
   * the bone is set between the saved value and the rest value by the reset
   * progress, and once the progress is 1 the snapshot is pinned to that value.
   */
  function RelaxChannel(ch: Channel, bone: GeoBone, saved: BoneSnapshot, initial: BoneSnapshot,
                        seekTime: real, resetTickLength: real): (r: (GeoBone, BoneSnapshot))
    requires resetTickLength > 0.0
    ensures r.0.name == bone.name && r.0.initialSnapshot == bone.initialSnapshot && r.0.children == bone.children
    ensures r.1.boneName == saved.boneName
    ensures forall c :: r.0.HasChanged(c) == bone.HasChanged(c)
    ensures forall c :: c != ch ==> r.0.Value(c) == bone.Value(c) && r.1.Get(c) == saved.Get(c)
  {
    if bone.HasChanged(ch) then (bone, saved)
    else
      var cs := saved.Get(ch);
      var s1 := if cs.inProgress then saved.With(ch, cs.(inProgress := false, lastResetTick := seekTime)) else saved;
      var p := ResetProgress(seekTime, s1.Get(ch).lastResetTick, resetTickLength);
      var v := LerpVec(s1.Get(ch).value, initial.Get(ch).value, p);
      var b := bone.WithValue(ch, v);
      var s2 := if p >= 1.0 then s1.With(ch, s1.Get(ch).(value := v)) else s1;
      (b, s2)
  }

  /** Relaxing a channel the bone marked changed this tick does nothing. */
  lemma RelaxSkipsChangedChannel(ch: Channel, bone: GeoBone, saved: BoneSnapshot, initial: BoneSnapshot,
                                 seekTime: real, resetTickLength: real)
    requires resetTickLength > 0.0 && bone.HasChanged(ch)
    ensures RelaxChannel(ch, bone, saved, initial, seekTime, resetTickLength) == (bone, saved)
  {
  }

  /**
   * The first relax of a channel whose animation was in progress stops it at
   * seekTime; the progress is then 0, so the bone takes the saved value.
   */
  lemma RelaxStopsInterruptedAnimation(ch: Channel, bone: GeoBone, saved: BoneSnapshot, initial: BoneSnapshot,
                                       seekTime: real, resetTickLength: real)
    requires resetTickLength > 0.0 && !bone.HasChanged(ch) && saved.Get(ch).inProgress
    ensures var r := RelaxChannel(ch, bone, saved, initial, seekTime, resetTickLength);
      && r.1.Get(ch) == ChannelSnapshot(saved.Get(ch).value, false, seekTime)
      && r.0.Value(ch) == saved.Get(ch).value
  {
    var cs := saved.Get(ch);
    var s1 := saved.With(ch, cs.(inProgress := false, lastResetTick := seekTime));
    assert ResetProgress(seekTime, seekTime, resetTickLength) == 0.0;
    assert LerpVec(s1.Get(ch).value, initial.Get(ch).value, 0.0) == cs.value;
  }

  /**
   * Once the reset time has passed since the channel last stopped, the bone is
   * at its rest value and the snapshot is pinned there.
   */
  lemma RelaxReachesRest(ch: Channel, bone: GeoBone, saved: BoneSnapshot, initial: BoneSnapshot,
                         seekTime: real, resetTickLength: real)
    requires resetTickLength > 0.0 && !bone.HasChanged(ch) && !saved.Get(ch).inProgress
    requires seekTime - saved.Get(ch).lastResetTick >= resetTickLength
    ensures var r := RelaxChannel(ch, bone, saved, initial, seekTime, resetTickLength);
      && r.0.Value(ch) == initial.Get(ch).value
      && r.1.Get(ch) == saved.Get(ch).(value := initial.Get(ch).value)
  {
    assert ResetProgress(seekTime, saved.Get(ch).lastResetTick, resetTickLength) == 1.0;
    assert LerpVec(saved.Get(ch).value, initial.Get(ch).value, 1.0) == initial.Get(ch).value;
  }

  /** A snapshot pinned at the rest value keeps the bone at rest, whatever the progress. */
  lemma RelaxStaysAtRest(ch: Channel, bone: GeoBone, saved: BoneSnapshot, initial: BoneSnapshot,
                         seekTime: real, resetTickLength: real)
    requires resetTickLength > 0.0 && !bone.HasChanged(ch) && saved.Get(ch).value == initial.Get(ch).value
    ensures var r := RelaxChannel(ch, bone, saved, initial, seekTime, resetTickLength);
      r.0.Value(ch) == initial.Get(ch).value && r.1.Get(ch).value == initial.Get(ch).value
  {
    var v := initial.Get(ch).value;
    forall p: real
      ensures LerpVec(v, v, p) == v
    {
    }
  }

  /**
   * Relaxing the same channel twice in one tick, as happens for a bone listed
   * once per channel applied, gives what relaxing it once gives.
   */
  lemma RelaxIdempotent(ch: Channel, bone: GeoBone, saved: BoneSnapshot, initial: BoneSnapshot,
                        seekTime: real, resetTickLength: real)
    requires resetTickLength > 0.0
    ensures var r := RelaxChannel(ch, bone, saved, initial, seekTime, resetTickLength);
      RelaxChannel(ch, r.0, r.1, initial, seekTime, resetTickLength) == r
  {
    if !bone.HasChanged(ch) {
      var cs := saved.Get(ch);
      var s1 := if cs.inProgress then saved.With(ch, cs.(inProgress := false, lastResetTick := seekTime)) else saved;
      var p := ResetProgress(seekTime, s1.Get(ch).lastResetTick, resetTickLength);
      var v := LerpVec(s1.Get(ch).value, initial.Get(ch).value, p);
      if p >= 1.0 {
        assert v == initial.Get(ch).value;
        assert LerpVec(v, initial.Get(ch).value, p) == v;
      }
    }
  }

  /** The relax steps for the given channels, in order. */
  function RelaxChannels(bone: GeoBone, saved: BoneSnapshot, initial: BoneSnapshot, seekTime: real, resetTickLength: real,
                         channels: seq<Channel>): (r: (GeoBone, BoneSnapshot))
    requires resetTickLength > 0.0
    ensures r.0.name == bone.name && r.0.initialSnapshot == bone.initialSnapshot
    ensures r.1.boneName == saved.boneName
    decreases |channels|
  {
    if channels == [] then (bone, saved)
    else
      var r := RelaxChannel(channels[0], bone, saved, initial, seekTime, resetTickLength);
      RelaxChannels(r.0, r.1, initial, seekTime, resetTickLength, channels[1..])
  }

  /** The rotation, position and scale blocks of the relax pass for one bone. */
  function RelaxBone(bone: GeoBone, saved: BoneSnapshot, initial: BoneSnapshot,
                     seekTime: real, resetTickLength: real): (GeoBone, BoneSnapshot)
    requires resetTickLength > 0.0
  {
    RelaxChannels(bone, saved, initial, seekTime, resetTickLength, [Rotation, Position, Scale])
  }

  /** A relax step on a channel looks only at that channel of the bone and of the snapshot. */
  lemma RelaxChannelLocal(ch: Channel, b1: GeoBone, s1: BoneSnapshot, b2: GeoBone, s2: BoneSnapshot,
                          initial: BoneSnapshot, seekTime: real, resetTickLength: real)
    requires resetTickLength > 0.0
    requires b1.HasChanged(ch) == b2.HasChanged(ch) && b1.Value(ch) == b2.Value(ch) && s1.Get(ch) == s2.Get(ch)
    ensures var r1 := RelaxChannel(ch, b1, s1, initial, seekTime, resetTickLength);
      var r2 := RelaxChannel(ch, b2, s2, initial, seekTime, resetTickLength);
      r1.0.Value(ch) == r2.0.Value(ch) && r1.1.Get(ch) == r2.1.Get(ch)
  {
  }

  /**
   * The three relax blocks of one bone do not interfere: each channel ends as
   * relaxing that channel alone would leave it, and no change marker moves.
   */
  lemma RelaxBoneChannels(bone: GeoBone, saved: BoneSnapshot, initial: BoneSnapshot,
                          seekTime: real, resetTickLength: real, c: Channel)
    requires resetTickLength > 0.0
    ensures var r := RelaxBone(bone, saved, initial, seekTime, resetTickLength);
      var alone := RelaxChannel(c, bone, saved, initial, seekTime, resetTickLength);
      && r.0.Value(c) == alone.0.Value(c) && r.1.Get(c) == alone.1.Get(c)
      && r.0.HasChanged(c) == bone.HasChanged(c)
  {
    var r1 := RelaxChannel(Rotation, bone, saved, initial, seekTime, resetTickLength);
    var r2 := RelaxChannel(Position, r1.0, r1.1, initial, seekTime, resetTickLength);
    var r3 := RelaxChannel(Scale, r2.0, r2.1, initial, seekTime, resetTickLength);
    assert [Rotation, Position, Scale][1..] == [Position, Scale] && [Position, Scale][1..] == [Scale] && [Scale][1..] == [];
    assert RelaxBone(bone, saved, initial, seekTime, resetTickLength) == r3;
    if c == Position {
      RelaxChannelLocal(Position, r1.0, r1.1, bone, saved, initial, seekTime, resetTickLength);
    } else if c == Scale {
      RelaxChannelLocal(Scale, r2.0, r2.1, bone, saved, initial, seekTime, resetTickLength);
    }
  }

  /** Every listed name is a registered bone. */
  ghost predicate AllIn(names: seq<string>, bones: map<string, GeoBone>) {
    forall i :: 0 <= i < |names| ==> names[i] in bones
  }

  /**
   * The relax loop over the modified bones, in order. A bone without a saved
   * snapshot aborts the pass when crash is set and is skipped otherwise.
   */
  function RelaxAll(bones: map<string, GeoBone>, snapshots: map<string, BoneSnapshot>, names: seq<string>,
                    seekTime: real, resetTickLength: real, crash: bool): (r: (Outcome, map<string, GeoBone>, map<string, BoneSnapshot>))
    requires resetTickLength > 0.0 && Registered(bones) && AllIn(names, bones)
    ensures r.1.Keys == bones.Keys && r.2.Keys == snapshots.Keys && Registered(r.1)
    ensures forall k :: k in bones && (forall i :: 0 <= i < |names| ==> names[i] != k) ==> r.1[k] == bones[k]
    ensures forall k :: k in snapshots && (forall i :: 0 <= i < |names| ==> names[i] != k) ==> r.2[k] == snapshots[k]
    ensures r.0.Crash? ==> crash && exists i :: 0 <= i < |names| && names[i] !in snapshots && r.0 == Crash(MissingSnapshot(names[i]))
    ensures (forall i :: 0 <= i < |names| ==> names[i] in snapshots) ==> r.0.Ok?
    decreases |names|
  {
    if names == [] then (Ok, bones, snapshots)
    else
      var n := names[0];
      if n !in snapshots then
        if crash then (Crash(MissingSnapshot(n)), bones, snapshots)
        else RelaxAll(bones, snapshots, names[1..], seekTime, resetTickLength, crash)
      else
        var bs := RelaxBone(bones[n], snapshots[n], bones[n].initialSnapshot.value, seekTime, resetTickLength);
        RelaxAll(bones[n := bs.0], snapshots[n := bs.1], names[1..], seekTime, resetTickLength, crash)
  }

  /** The first step of the relax loop, for a listed bone that has a snapshot. */
  lemma RelaxAllStep(bones: map<string, GeoBone>, snapshots: map<string, BoneSnapshot>, names: seq<string>,
                     seekTime: real, resetTickLength: real, crash: bool)
    requires resetTickLength > 0.0 && Registered(bones) && AllIn(names, bones)
    requires names != [] && names[0] in snapshots
    ensures var n := names[0];
      var r := RelaxBone(bones[n], snapshots[n], bones[n].initialSnapshot.value, seekTime, resetTickLength);
      && Registered(bones[n := r.0]) && bones[n := r.0].Keys == bones.Keys && AllIn(names[1..], bones[n := r.0])
      && RelaxAll(bones, snapshots, names, seekTime, resetTickLength, crash)
         == RelaxAll(bones[n := r.0], snapshots[n := r.1], names[1..], seekTime, resetTickLength, crash)
  {
  }

  /** The first step of the relax loop, for a listed bone without a snapshot when the pass does not crash. */
  lemma RelaxAllSkip(bones: map<string, GeoBone>, snapshots: map<string, BoneSnapshot>, names: seq<string>,
                     seekTime: real, resetTickLength: real)
    requires resetTickLength > 0.0 && Registered(bones) && AllIn(names, bones)
    requires names != [] && names[0] !in snapshots
    ensures AllIn(names[1..], bones)
    ensures RelaxAll(bones, snapshots, names, seekTime, resetTickLength, false)
         == RelaxAll(bones, snapshots, names[1..], seekTime, resetTickLength, false)
  {
  }

  /** n copies of x: the source adds a bone to its modified list once per channel applied. */
  function Repeat(x: string, n: nat): (r: seq<string>)
    ensures |r| == n
    ensures forall y :: y in r <==> n > 0 && y == x
  {
    if n == 0 then [] else [x] + Repeat(x, n - 1)
  }

  /**
   * The state of the apply pass part-way through: the bones whose queues are
   * in `done` hold their expected result, snapshot and queue included, every
   * other bone, snapshot and queue is as it was, and `modified` names exactly
   * the done bones that had a channel applied.
   */
  ghost predicate ApplyPassState(b0: map<string, GeoBone>, q0: map<string, BoneAnimationQueue>,
                                 s0: map<string, BoneSnapshot>, expected: map<string, BoneUpdate>,
                                 bs: map<string, GeoBone>, snaps: map<string, BoneSnapshot>,
                                 queues: map<string, BoneAnimationQueue>, modified: seq<string>, done: set<string>)
  {
    && ApplyPassShape(b0, q0, s0, expected, bs, snaps, queues, done)
    && ApplyPassValues(b0, q0, s0, expected, bs, snaps, queues, done)
    && ApplyPassModified(b0, expected, modified, done)
  }

  ghost predicate ApplyPassShape(b0: map<string, GeoBone>, q0: map<string, BoneAnimationQueue>,
                                 s0: map<string, BoneSnapshot>, expected: map<string, BoneUpdate>,
                                 bs: map<string, GeoBone>, snaps: map<string, BoneSnapshot>,
                                 queues: map<string, BoneAnimationQueue>, done: set<string>)
  {
    && done <= q0.Keys && q0.Keys <= b0.Keys && expected.Keys == q0.Keys
    && Registered(bs) && bs.Keys == b0.Keys && snaps.Keys == s0.Keys && queues.Keys == q0.Keys
  }

  ghost predicate ApplyPassValues(b0: map<string, GeoBone>, q0: map<string, BoneAnimationQueue>,
                                  s0: map<string, BoneSnapshot>, expected: map<string, BoneUpdate>,
                                  bs: map<string, GeoBone>, snaps: map<string, BoneSnapshot>,
                                  queues: map<string, BoneAnimationQueue>, done: set<string>)
    requires ApplyPassShape(b0, q0, s0, expected, bs, snaps, queues, done)
  {
    forall k :: k in b0 ==>
      if k in done then
        && bs[k] == expected[k].bone
        && (k in s0 ==> expected[k].snapshot.Some? && snaps[k] == expected[k].snapshot.value)
        && queues[k] == q0[k].Polled()
      else
        && bs[k] == b0[k] && (k in s0 ==> snaps[k] == s0[k])
        && (k in q0 ==> queues[k] == q0[k])
  }

  ghost predicate ApplyPassModified(b0: map<string, GeoBone>, expected: map<string, BoneUpdate>, modified: seq<string>, done: set<string>)
    requires done <= expected.Keys
  {
    && (forall k :: k in modified <==> k in done && expected[k].changed != [])
    && (forall i :: 0 <= i < |modified| ==> modified[i] in b0)
  }

  /** One bone of the apply pass: its queue is polled and the three channel blocks are applied. */
  method ApplyPassStep(k: string, bs: map<string, GeoBone>, snaps: map<string, BoneSnapshot>,
                       queues: map<string, BoneAnimationQueue>, modified: seq<string>, easing: AnimationPoint -> real,
                       ghost b0: map<string, GeoBone>, ghost q0: map<string, BoneAnimationQueue>,
                       ghost s0: map<string, BoneSnapshot>, ghost expected: map<string, BoneUpdate>, ghost done: set<string>)
    returns (outcome: Outcome, bs': map<string, GeoBone>, snaps': map<string, BoneSnapshot>,
             queues': map<string, BoneAnimationQueue>, modified': seq<string>)
    requires ApplyPassState(b0, q0, s0, expected, bs, snaps, queues, modified, done)
    requires k in q0 && k !in done
    requires expected[k] == ApplyBone(b0[k], Lookup(s0, k), q0[k], easing)
    ensures queues' == queues[k := queues[k].Polled()]
    ensures outcome == expected[k].outcome
    ensures outcome.Crash? ==> bs' == bs && snaps' == snaps && modified' == modified
    ensures outcome.Ok? ==> ApplyPassState(b0, q0, s0, expected, bs', snaps', queues', modified', done + {k})
  {
    var q := queues[k];
    queues' := queues[k := q.Polled()];
    assert Lookup(snaps, k) == Lookup(s0, k);
    var u := ApplyBone(bs[k], Lookup(snaps, k), q, easing);
    if u.outcome.Crash? {
      return u.outcome, bs, snaps, queues', modified;
    }
    outcome, bs' := Ok, bs[k := u.bone];
    snaps' := if u.snapshot.Some? then snaps[k := u.snapshot.value] else snaps;
    modified' := modified + Repeat(k, |u.changed|);
    ApplyPassStepKeeps(k, bs, snaps, queues, modified, b0, q0, s0, expected, done);
  }

  lemma ApplyPassStepKeeps(k: string, bs: map<string, GeoBone>, snaps: map<string, BoneSnapshot>,
                           queues: map<string, BoneAnimationQueue>, modified: seq<string>,
                           b0: map<string, GeoBone>, q0: map<string, BoneAnimationQueue>,
                           s0: map<string, BoneSnapshot>, expected: map<string, BoneUpdate>, done: set<string>)
    requires ApplyPassState(b0, q0, s0, expected, bs, snaps, queues, modified, done)
    requires k in q0 && k !in done && expected[k].outcome.Ok?
    requires expected[k].bone.name == k && expected[k].bone.initialSnapshot.Some?
    requires expected[k].snapshot.Some? == (k in s0)
    ensures var u := expected[k];
      ApplyPassState(b0, q0, s0, expected, bs[k := u.bone],
        if u.snapshot.Some? then snaps[k := u.snapshot.value] else snaps,
        queues[k := queues[k].Polled()], modified + Repeat(k, |u.changed|), done + {k})
  {
    ApplyPassValuesStep(k, bs, snaps, queues, b0, q0, s0, expected, done);
    ApplyPassModifiedStep(k, modified, b0, expected, done);
  }

  lemma ApplyPassValuesStep(k: string, bs: map<string, GeoBone>, snaps: map<string, BoneSnapshot>,
                            queues: map<string, BoneAnimationQueue>,
                            b0: map<string, GeoBone>, q0: map<string, BoneAnimationQueue>,
                            s0: map<string, BoneSnapshot>, expected: map<string, BoneUpdate>, done: set<string>)
    requires ApplyPassShape(b0, q0, s0, expected, bs, snaps, queues, done)
    requires ApplyPassValues(b0, q0, s0, expected, bs, snaps, queues, done)
    requires k in q0 && k !in done
    requires expected[k].bone.name == k && expected[k].bone.initialSnapshot.Some?
    requires expected[k].snapshot.Some? == (k in s0)
    ensures var u := expected[k];
      var bs', snaps', queues' := bs[k := u.bone], (if u.snapshot.Some? then snaps[k := u.snapshot.value] else snaps), queues[k := queues[k].Polled()];
      && ApplyPassShape(b0, q0, s0, expected, bs', snaps', queues', done + {k})
      && ApplyPassValues(b0, q0, s0, expected, bs', snaps', queues', done + {k})
  {
  }

  lemma ApplyPassModifiedStep(k: string, modified: seq<string>, b0: map<string, GeoBone>, expected: map<string, BoneUpdate>, done: set<string>)
    requires done <= expected.Keys && k in expected && k in b0
    requires ApplyPassModified(b0, expected, modified, done)
    ensures ApplyPassModified(b0, expected, modified + Repeat(k, |expected[k].changed|), done + {k})
  {
    var r := Repeat(k, |expected[k].changed|);
    forall i | 0 <= i < |modified + r|
      ensures (modified + r)[i] in b0
    {
      if i >= |modified| {
        assert (modified + r)[i] == r[i - |modified|] && r[i - |modified|] in r;
      }
    }
  }

  /**
   * The outcome of a completed apply pass: each queued bone, and its snapshot,
   * is what ApplyBone makes of it from the state before the pass and its queue
   * is polled; every other bone and snapshot is as it was; `modified` lists
   * exactly the queued bones that had a channel applied.
   */
  ghost predicate AppliedPass(b0: map<string, GeoBone>, q0: map<string, BoneAnimationQueue>, s0: map<string, BoneSnapshot>,
                              easing: AnimationPoint -> real, bs: map<string, GeoBone>, snaps: map<string, BoneSnapshot>,
                              queues: map<string, BoneAnimationQueue>, modified: seq<string>)
  {
    && q0.Keys <= b0.Keys
    && Registered(bs) && bs.Keys == b0.Keys && snaps.Keys == s0.Keys && queues.Keys == q0.Keys
    && (forall k :: k in b0 ==>
          if k in q0 then
            var u := ApplyBone(b0[k], Lookup(s0, k), q0[k], easing);
            && bs[k] == u.bone
            && (k in s0 ==> snaps[k] == u.snapshot.value)
            && queues[k] == q0[k].Polled()
          else bs[k] == b0[k] && (k in s0 ==> snaps[k] == s0[k]))
    && (forall k :: k in modified <==> k in q0 && ApplyBone(b0[k], Lookup(s0, k), q0[k], easing).changed != [])
    && (forall i :: 0 <= i < |modified| ==> modified[i] in bs)
  }

  lemma ApplyPassFinished(b0: map<string, GeoBone>, q0: map<string, BoneAnimationQueue>, s0: map<string, BoneSnapshot>,
                          easing: AnimationPoint -> real, bs: map<string, GeoBone>, snaps: map<string, BoneSnapshot>,
                          queues: map<string, BoneAnimationQueue>, modified: seq<string>, expected: map<string, BoneUpdate>)
    requires q0.Keys <= b0.Keys
    requires ApplyPassState(b0, q0, s0, expected, bs, snaps, queues, modified, q0.Keys)
    requires forall k {:trigger ApplyBone(b0[k], Lookup(s0, k), q0[k], easing)} :: k in q0 ==> expected[k] == ApplyBone(b0[k], Lookup(s0, k), q0[k], easing)
    ensures AppliedPass(b0, q0, s0, easing, bs, snaps, queues, modified)
  {
  }

  /**
   * The apply pass for one controller, lines 78-130 of tickAnimation: for each
   * bone queue in turn the nine heads are polled and applied to the bone. On a
   * crash the pass stops with a null dereference, which happens only for a
   * queued bone without a snapshot.
   */
  method ApplyPass(bs0: map<string, GeoBone>, queues0: map<string, BoneAnimationQueue>,
                   snapshots: map<string, BoneSnapshot>, easing: AnimationPoint -> real)
    returns (outcome: Outcome, bs: map<string, GeoBone>, newSnapshots: map<string, BoneSnapshot>,
             queues: map<string, BoneAnimationQueue>, modified: seq<string>)
    requires Registered(bs0) && queues0.Keys <= bs0.Keys
    ensures outcome.Crash? ==> outcome == Crash(NullReference) && !(queues0.Keys <= snapshots.Keys)
    ensures outcome.Crash? ==> queues.Keys == queues0.Keys
    ensures AllIn(modified, bs0) && newSnapshots.Keys == snapshots.Keys
    ensures outcome.Ok? ==> AppliedPass(bs0, queues0, snapshots, easing, bs, newSnapshots, queues, modified)
  {
    bs, queues := bs0, queues0;
    ghost var expected := ApplyResults(bs0, queues0, snapshots, easing);
    newSnapshots, modified := snapshots, [];
    var remaining := queues.Keys;
    while remaining != {}
      invariant remaining <= queues0.Keys
      invariant ApplyPassState(bs0, queues0, snapshots, expected, bs, newSnapshots, queues, modified, queues0.Keys - remaining)
      decreases remaining
    {
      var k :| k in remaining;
      outcome, bs, newSnapshots, queues, modified :=
        ApplyPassStep(k, bs, newSnapshots, queues, modified, easing, bs0, queues0, snapshots, expected, queues0.Keys - remaining);
      if outcome.Crash? {
        return;
      }
      MoveKey(queues0.Keys, remaining, k);
      remaining := remaining - {k};
    }
    ApplyPassFinished(bs0, queues0, snapshots, easing, bs, newSnapshots, queues, modified, expected);
    outcome := Ok;
  }

  /** Visiting one more key of those still to visit. */
  lemma MoveKey(keys: set<string>, remaining: set<string>, k: string)
    requires k in remaining && remaining <= keys
    ensures (keys - remaining) + {k} == keys - (remaining - {k}) && k !in keys - remaining
  {
  }

  /**
   * The apply step's result for every queued bone, computed from the bones and
   * snapshots before the pass; a result fails only on a null dereference for a
   * bone without a snapshot.
   */
  lemma ApplyResults(b0: map<string, GeoBone>, q0: map<string, BoneAnimationQueue>,
                     s0: map<string, BoneSnapshot>, easing: AnimationPoint -> real) returns (r: map<string, BoneUpdate>)
    requires Registered(b0) && q0.Keys <= b0.Keys
    ensures r.Keys == q0.Keys
    ensures forall k {:trigger ApplyBone(b0[k], Lookup(s0, k), q0[k], easing)} :: k in q0 ==> r[k] == ApplyBone(b0[k], Lookup(s0, k), q0[k], easing)
    ensures forall k :: k in r && r[k].outcome.Crash? ==> r[k].outcome == Crash(NullReference) && k !in s0
  {
    r := map k | k in q0 :: ApplyBone(b0[k], Lookup(s0, k), q0[k], easing);
    forall k | k in r && r[k].outcome.Crash?
      ensures r[k].outcome == Crash(NullReference) && k !in s0
    {
      ApplyChannelsCrash(BoneUpdate(Ok, b0[k], Lookup(s0, k), []), q0[k], easing, [Rotation, Position, Scale]);
    }
  }

  /** Some channel of the bone was driven this tick. */
  predicate Driven(b: GeoBone) {
    b.HasChanged(Rotation) || b.HasChanged(Position) || b.HasChanged(Scale)
  }

  /**
   * For a registered bone that has a snapshot, a bone no channel was applied
   * to comes out of the apply step as it went in, snapshot included; one that
   * had a channel applied is driven; and no change marker is ever cleared.
   */
  lemma ApplyBoneUntouched(bone: GeoBone, snapshot: Option<BoneSnapshot>, q: BoneAnimationQueue, easing: AnimationPoint -> real)
    requires bone.initialSnapshot.Some? && snapshot.Some?
    ensures var r := ApplyBone(bone, snapshot, q, easing);
      && (r.changed == [] ==> r.bone == bone && r.snapshot == snapshot)
      && (r.changed != [] ==> Driven(r.bone))
      && (forall c :: bone.HasChanged(c) ==> r.bone.HasChanged(c))
  {
    var r := ApplyBone(bone, snapshot, q, easing);
    ApplyBoneFacts(bone, snapshot, q, easing, Rotation);
    ApplyBoneFacts(bone, snapshot, q, easing, Position);
    ApplyBoneFacts(bone, snapshot, q, easing, Scale);
    if r.changed == [] {
      var u := BoneUpdate(Ok, bone, snapshot, []);
      ApplyChannelSpec(u, Rotation, q.Queue(Rotation), easing);
      ApplyChannelSpec(u, Position, q.Queue(Position), easing);
      ApplyChannelSpec(u, Scale, q.Queue(Scale), easing);
      assert [Rotation, Position, Scale][1..] == [Position, Scale] && [Position, Scale][1..] == [Scale] && [Scale][1..] == [];
    } else {
      assert r.changed[0] in r.changed;
    }
  }

  /**
   * What a controller's turn may do to the bones and snapshots, as seen from
   * b0 and s0: bones not listed in `modified` keep their value and their
   * snapshot, every listed bone is driven, and no change marker is cleared.
   */
  ghost predicate DrivenOnly(b0: map<string, GeoBone>, s0: map<string, BoneSnapshot>,
                             bs: map<string, GeoBone>, snaps: map<string, BoneSnapshot>, modified: seq<string>)
  {
    && bs.Keys == b0.Keys && snaps.Keys == s0.Keys && b0.Keys <= s0.Keys
    && (forall k :: k in b0 && k !in modified ==> bs[k] == b0[k] && snaps[k] == s0[k])
    && (forall i :: 0 <= i < |modified| ==> modified[i] in bs && Driven(bs[modified[i]]))
    && (forall k, c :: k in b0 && b0[k].HasChanged(c) ==> bs[k].HasChanged(c))
  }

  /** A completed apply pass, over queues for registered bones that all have snapshots, drives only what it lists. */
  lemma AppliedPassDrivesOnly(b0: map<string, GeoBone>, q0: map<string, BoneAnimationQueue>, s0: map<string, BoneSnapshot>,
                              easing: AnimationPoint -> real, bs: map<string, GeoBone>, snaps: map<string, BoneSnapshot>,
                              queues: map<string, BoneAnimationQueue>, modified: seq<string>)
    requires Registered(b0) && b0.Keys <= s0.Keys
    requires AppliedPass(b0, q0, s0, easing, bs, snaps, queues, modified)
    ensures DrivenOnly(b0, s0, bs, snaps, modified)
  {
    forall k | k in b0
      ensures k !in modified ==> bs[k] == b0[k] && snaps[k] == s0[k]
      ensures k in modified ==> Driven(bs[k])
      ensures forall c :: b0[k].HasChanged(c) ==> bs[k].HasChanged(c)
    {
      if k in q0 {
        ApplyBoneUntouched(b0[k], Lookup(s0, k), q0[k], easing);
      }
    }
    forall i | 0 <= i < |modified|
      ensures modified[i] in bs && Driven(bs[modified[i]])
    {
      assert modified[i] in modified;
    }
  }

  /** Two turns in a row drive only what the two list together. */
  lemma DrivenOnlyTrans(b0: map<string, GeoBone>, s0: map<string, BoneSnapshot>, b1: map<string, GeoBone>, s1: map<string, BoneSnapshot>,
                        m1: seq<string>, b2: map<string, GeoBone>, s2: map<string, BoneSnapshot>, m2: seq<string>)
    requires DrivenOnly(b0, s0, b1, s1, m1) && DrivenOnly(b1, s1, b2, s2, m2)
    ensures DrivenOnly(b0, s0, b2, s2, m1 + m2)
  {
    forall i | 0 <= i < |m1 + m2|
      ensures (m1 + m2)[i] in b2 && Driven(b2[(m1 + m2)[i]])
    {
      if i < |m1| {
        assert (m1 + m2)[i] == m1[i];
      } else {
        assert (m1 + m2)[i] == m2[i - |m1|];
      }
    }
    forall k | k in b0 && k !in m1 + m2
      ensures b2[k] == b0[k] && s2[k] == s0[k]
    {
      assert k !in m1 && k !in m2;
    }
  }

  class AnimationProcessor {
    var bones: map<string, GeoBone>
    var reloadAnimations: bool

    ghost predicate Valid()
      reads this`bones
    {
      Registered(bones)
    }

    constructor ()
      ensures Valid() && bones == map[] && !reloadAnimations
    {
      bones := map[];
      reloadAnimations := false;
    }

    /** getBone(name): the bone registered under the name, if any. */
    function GetBone(boneName: string): (r: Option<GeoBone>)
      reads this`bones
      ensures r.Some? <==> boneName in bones
      ensures r.Some? ==> r.value == bones[boneName]
    {
      if boneName in bones then Some(bones[boneName]) else None
    }

    /** registerGeoBone, with the recursion into each child (the source recurses on the parent). */
    method RegisterGeoBone(bone: GeoBone)
      modifies this`bones
      ensures bones == RegisterTree(old(bones), bone)
      decreases bone
    {
      bones := bones[bone.name := bone.SaveInitialSnapshot()];
      assert bone.children[0..] == bone.children;
      for i := 0 to |bone.children|
        invariant RegisterForest(bones, bone.children[i..]) == RegisterTree(old(bones), bone)
      {
        assert bone.children[i..][0] == bone.children[i] && bone.children[i..][1..] == bone.children[i + 1..];
        assert bone.children[i] in bone.children;
        RegisterGeoBone(bone.children[i]);
      }
      assert bone.children[|bone.children|..] == [];
    }

    /**
     * setActiveModel: the registered bones are exactly the model's bones and
     * their descendants, each under its name with its rest pose captured.
     */
    method SetActiveModel(modelBones: seq<GeoBone>)
      modifies this`bones
      ensures bones == RegisterForest(map[], modelBones)
      ensures bones.Keys == ForestNames(modelBones)
      ensures Valid()
    {
      bones := map[];
      assert modelBones[0..] == modelBones;
      for i := 0 to |modelBones|
        invariant RegisterForest(bones, modelBones[i..]) == RegisterForest(map[], modelBones)
      {
        assert modelBones[i..][0] == modelBones[i] && modelBones[i..][1..] == modelBones[i + 1..];
        RegisterGeoBone(modelBones[i]);
      }
      assert modelBones[|modelBones|..] == [];
      RegisterForestFacts(map[], modelBones);
    }

    /** resetBoneTransformationMarkers: every registered bone starts the frame with no channel changed. */
    method ResetBoneTransformationMarkers()
      requires Valid()
      modifies this`bones
      ensures Valid() && bones.Keys == old(bones).Keys
      ensures forall k :: k in bones ==> bones[k] == old(bones)[k].ResetStateChanges()
    {
      ghost var before := bones;
      var remaining := bones.Keys;
      while remaining != {}
        invariant remaining <= before.Keys && bones.Keys == before.Keys
        invariant forall k :: k in bones ==> bones[k] == (if k in remaining then before[k] else before[k].ResetStateChanges())
        decreases remaining
      {
        var k :| k in remaining;
        bones := bones[k := bones[k].ResetStateChanges()];
        remaining := remaining - {k};
      }
    }

    /**
     * updateBoneSnapshots: every registered bone without a snapshot gets a copy
     * of its rest pose; existing snapshots are kept and no key is removed.
     */
    method UpdateBoneSnapshots(snapshots: map<string, BoneSnapshot>) returns (r: map<string, BoneSnapshot>)
      requires Valid()
      ensures r.Keys == snapshots.Keys + bones.Keys
      ensures forall k :: k in snapshots ==> r[k] == snapshots[k]
      ensures forall k :: k in bones && k !in snapshots ==> r[k] == bones[k].initialSnapshot.value
    {
      r := snapshots;
      var remaining := bones.Keys;
      while remaining != {}
        invariant remaining <= bones.Keys
        invariant r.Keys == snapshots.Keys + (bones.Keys - remaining)
        invariant forall k :: k in snapshots ==> r[k] == snapshots[k]
        invariant forall k :: k in bones && k !in snapshots && k !in remaining ==> r[k] == bones[k].initialSnapshot.value
        decreases remaining
      {
        var k :| k in remaining;
        var bone := bones[k];
        if bone.name !in r {
          r := r[bone.name := bone.initialSnapshot.value];
        }
        remaining := remaining - {k};
      }
    }

    /**
     * Lines 68-73 of tickAnimation, before a controller is processed: a pending
     * reload marks the controller for reload and clears its bone queues, and
     * the controller learns whether this is the instance's first tick.
     */
    method PrepareController(controller: AnimationController, firstTick: bool)
      modifies controller`needsAnimationReload, controller`boneAnimationQueues, controller`isJustStarting
      ensures controller.isJustStarting == firstTick
      ensures reloadAnimations ==> controller.needsAnimationReload && controller.boneAnimationQueues == map[]
      ensures !reloadAnimations ==>
        controller.needsAnimationReload == old(controller.needsAnimationReload) &&
        controller.boneAnimationQueues == old(controller.boneAnimationQueues)
    {
      if reloadAnimations {
        controller.MarkNeedsReload();
        controller.ClearBoneAnimationQueues();
      }
      controller.isJustStarting := firstTick;
    }

    /**
     * One controller's turn in tickAnimation: it is prepared, processed against
     * this processor's bones and the shared snapshots, and its output applied.
     * A crash in process ends the turn before anything is applied.
     */
    method RunController(controller: AnimationController, firstTick: bool, verdict: Verdict, seekTime: real,
                         snapshots: map<string, BoneSnapshot>, clips: Option<ClipLibrary>, crash: bool)
      returns (outcome: Outcome, newSnapshots: map<string, BoneSnapshot>, modified: seq<string>,
               ghost queued: map<string, BoneAnimationQueue>)
      requires Valid() && controller.Valid()
      modifies this`bones, controller`isJustStarting,
               controller`justStopped, controller`shouldResetTick, controller`tickOffset, controller`animationState,
               controller`justStartedTransition, controller`needsAnimationReload, controller`currentAnimation,
               controller`animationQueue, controller`currentRawAnimation, controller`executedKeyFrames,
               controller`firedSinceReset, controller`boneSnapshots, controller`boneAnimationQueues
      ensures Valid() && controller.Valid() && bones.Keys == old(bones).Keys
      ensures controller.isJustStarting == firstTick
      ensures newSnapshots.Keys == snapshots.Keys
      ensures outcome.Ok? ==> controller.boneAnimationQueues.Keys == bones.Keys
      ensures AllIn(modified, bones)
      ensures bones.Keys <= snapshots.Keys && outcome.Crash? ==> bones == old(bones)
      ensures outcome.Ok? ==> queued.Keys == bones.Keys
      ensures outcome.Ok? ==>
        AppliedPass(old(bones), queued, snapshots, controller.easing, bones, newSnapshots, controller.boneAnimationQueues, modified)
    {
      PrepareController(controller, firstTick);
      var fired;
      outcome, fired := controller.Process(seekTime, verdict, bones, snapshots, clips, crash);
      queued := controller.boneAnimationQueues;
      if outcome.Crash? {
        return outcome, snapshots, [], queued;
      }
      var bs, queues;
      ghost var b0, easing := bones, controller.easing;
      outcome, bs, newSnapshots, queues, modified := ApplyPass(bones, controller.boneAnimationQueues, snapshots, controller.easing);
      if outcome.Ok? {
        assert AppliedPass(b0, queued, snapshots, easing, bs, newSnapshots, queues, modified);
        bones := bs;
      }
      controller.boneAnimationQueues := queues;
      assert controller.easing == easing && b0 == old(bones);
    }

    /**
     * The relax pass, lines 136-198 of tickAnimation: the modified bones in
     * order, each listed once per channel applied to it, with RelaxAll as the
     * reference for what the loop leaves behind.
     */
    method RelaxModifiedBones(modified: seq<string>, snapshots: map<string, BoneSnapshot>,
                              seekTime: real, resetTickLength: real, crash: bool)
      returns (outcome: Outcome, newSnapshots: map<string, BoneSnapshot>)
      requires Valid() && resetTickLength > 0.0 && AllIn(modified, bones)
      modifies this`bones
      ensures (outcome, bones, newSnapshots) == RelaxAll(old(bones), snapshots, modified, seekTime, resetTickLength, crash)
      ensures Valid()
    {
      ghost var b0 := bones;
      newSnapshots := snapshots;
      for i := 0 to |modified|
        invariant Registered(bones) && bones.Keys == b0.Keys && AllIn(modified[i..], bones)
        invariant RelaxAll(bones, newSnapshots, modified[i..], seekTime, resetTickLength, crash)
               == RelaxAll(b0, snapshots, modified, seekTime, resetTickLength, crash)
      {
        var name := modified[i];
        assert modified[i..][0] == name && modified[i..][1..] == modified[i + 1..];
        if name !in newSnapshots {
          if crash {
            return Crash(MissingSnapshot(name)), newSnapshots;
          }
          RelaxAllSkip(bones, newSnapshots, modified[i..], seekTime, resetTickLength);
          continue;
        }
        RelaxAllStep(bones, newSnapshots, modified[i..], seekTime, resetTickLength, crash);
        var r := RelaxBone(bones[name], newSnapshots[name], bones[name].initialSnapshot.value, seekTime, resetTickLength);
        bones := bones[name := r.0];
        newSnapshots := newSnapshots[name := r.1];
      }
      assert modified[|modified|..] == [];
      outcome := Ok;
    }

    /** One controller's turn, looked up by name, within the controller loop. */
    method RunNamedController(data: AnimationData, name: string, verdict: Verdict, seekTime: real,
                              snapshots: map<string, BoneSnapshot>, clips: Option<ClipLibrary>, crash: bool,
                              ghost done: set<string>)
      returns (outcome: Outcome, newSnapshots: map<string, BoneSnapshot>, modified: seq<string>)
      requires Valid() && data.Valid() && name in data.animationControllers
      requires ReadyFor(data, done, data.isFirstTick, bones.Keys)
      requires bones.Keys <= snapshots.Keys
      modifies this`bones, data.animationControllers[name]
      ensures Valid() && data.Valid() && bones.Keys == old(bones).Keys
      ensures newSnapshots.Keys == snapshots.Keys && AllIn(modified, bones)
      ensures outcome.Ok? ==> ReadyFor(data, done + {name}, data.isFirstTick, bones.Keys)
      ensures outcome.Ok? ==> DrivenOnly(old(bones), snapshots, bones, newSnapshots, modified)
    {
      ghost var queued, b0 := map[], bones;
      var controller := data.animationControllers[name];
      outcome, newSnapshots, modified, queued := RunController(controller, data.isFirstTick, verdict, seekTime, snapshots, clips, crash);
      if outcome.Ok? {
        ghost var easing, bs, queues := controller.easing, bones, controller.boneAnimationQueues;
        assert DrivenOnly(b0, snapshots, bs, newSnapshots, modified) by {
          AppliedPassDrivesOnly(b0, queued, snapshots, easing, bs, newSnapshots, queues, modified);
        }
      }
    }

    /**
     * The controller loop of tickAnimation, lines 67-131: every controller of
     * the instance takes its turn, in an order the model leaves open, against
     * the shared snapshots; the bones each one applied are collected.
     */
    method RunControllers(data: AnimationData, seekTime: real, verdicts: string -> Verdict,
                          snapshots: map<string, BoneSnapshot>, clips: Option<ClipLibrary>, crash: bool)
      returns (outcome: Outcome, newSnapshots: map<string, BoneSnapshot>, modified: seq<string>)
      requires Valid() && data.Valid() && bones.Keys <= snapshots.Keys
      modifies this`bones, data.Controllers()
      ensures Valid() && data.Valid() && bones.Keys == old(bones).Keys
      ensures newSnapshots.Keys == snapshots.Keys && AllIn(modified, bones)
      ensures outcome.Ok? ==> ControllersReady(data, data.isFirstTick, bones.Keys)
      ensures outcome.Ok? ==> DrivenOnly(old(bones), snapshots, bones, newSnapshots, modified)
    {
      var keys := data.animationControllers.Keys;
      var remaining := keys;
      newSnapshots, modified, outcome := snapshots, [], Ok;
      while remaining != {}
        invariant remaining <= keys == data.animationControllers.Keys
        invariant Valid() && bones.Keys == old(bones).Keys && data.Valid()
        invariant newSnapshots.Keys == snapshots.Keys && AllIn(modified, bones)
        invariant ReadyFor(data, keys - remaining, data.isFirstTick, bones.Keys)
        invariant DrivenOnly(old(bones), snapshots, bones, newSnapshots, modified)
        decreases |remaining|
      {
        var name :| name in remaining;
        var m;
        ghost var bs, snaps := bones, newSnapshots;
        outcome, newSnapshots, m := RunNamedController(data, name, verdicts(name), seekTime, newSnapshots, clips, crash, keys - remaining);
        if outcome.Crash? {
          return;
        }
        DrivenOnlyTrans(old(bones), snapshots, bs, snaps, modified, bones, newSnapshots, m);
        AllInAppend(modified, m, bones);
        modified := modified + m;
        MoveKey(keys, remaining, name);
        remaining := remaining - {name};
      }
    }

    /**
     * Lines 60-131 of tickAnimation: the shared snapshots are completed from
     * the bones' rest poses, the change markers reset, and every controller
     * run and applied. The snapshots returned hold the instance's snapshots
     * and one for every registered bone.
     */
    method StartTick(data: AnimationData, seekTime: real, verdicts: string -> Verdict,
                     clips: Option<ClipLibrary>, crash: bool)
      returns (outcome: Outcome, snapshots: map<string, BoneSnapshot>, modified: seq<string>)
      requires Valid() && data.Valid()
      modifies this`bones, data.Controllers()
      ensures Valid() && data.Valid() && bones.Keys == old(bones).Keys
      ensures snapshots.Keys == data.boneSnapshotCollection.Keys + bones.Keys
      ensures AllIn(modified, bones)
      ensures outcome.Ok? ==> ControllersReady(data, data.isFirstTick, bones.Keys)
      ensures outcome.Ok? ==> forall k :: k in bones && k !in modified ==>
        && bones[k] == old(bones)[k].ResetStateChanges()
        && snapshots[k] == (if k in data.boneSnapshotCollection then data.boneSnapshotCollection[k] else old(bones)[k].initialSnapshot.value)
      ensures outcome.Ok? ==> forall i :: 0 <= i < |modified| ==> Driven(bones[modified[i]])
    {
      snapshots := UpdateBoneSnapshots(data.boneSnapshotCollection);
      ResetBoneTransformationMarkers();
      outcome, snapshots, modified := RunControllers(data, seekTime, verdicts, snapshots, clips, crash);
    }

    /**
     * Lines 133-202 of tickAnimation: a pending reload is consumed, the
     * modified bones are relaxed against the shared snapshots, which become
     * the instance's, and the first-tick latch is cleared. Since every listed
     * bone has a snapshot, the relax pass cannot fail.
     */
    method FinishTick(data: AnimationData, modified: seq<string>, snapshots: map<string, BoneSnapshot>,
                      seekTime: real, resetTickLength: real, crash: bool)
      returns (outcome: Outcome)
      requires Valid() && resetTickLength > 0.0 && AllIn(modified, bones) && bones.Keys <= snapshots.Keys
      modifies this`bones, this`reloadAnimations, data`boneSnapshotCollection, data`isFirstTick
      ensures outcome == Ok && Valid() && !reloadAnimations && !data.isFirstTick
      ensures (outcome, bones, data.boneSnapshotCollection)
           == RelaxAll(old(bones), snapshots, modified, seekTime, resetTickLength, crash)
    {
      assert forall i :: 0 <= i < |modified| ==> modified[i] in snapshots;
      reloadAnimations := false;
      var relaxed;
      outcome, relaxed := RelaxModifiedBones(modified, snapshots, seekTime, resetTickLength, crash);
      data.boneSnapshotCollection := relaxed;
      data.FinishFirstTick();
    }

    /**
     * tickAnimation, lines 60-202: the start of the tick, then its finish
     * unless a controller's process failed. Every controller is told whether
     * this was the first tick and is left with one queue per registered bone,
     * and every registered bone is left with a snapshot.
     */
    method TickAnimation(data: AnimationData, seekTime: real, verdicts: string -> Verdict,
                         clips: Option<ClipLibrary>, resetTickLength: real, crash: bool)
      returns (outcome: Outcome, ghost driven: seq<string>)
      requires Valid() && data.Valid() && resetTickLength > 0.0
      modifies this`bones, this`reloadAnimations, data`boneSnapshotCollection, data`isFirstTick, data.Controllers()
      ensures Valid() && data.Valid() && bones.Keys == old(bones).Keys
      ensures data.boneSnapshotCollection.Keys == old(data.boneSnapshotCollection).Keys + bones.Keys
      ensures outcome.Ok? ==> !reloadAnimations && !data.isFirstTick
      ensures outcome.Crash? ==> data.isFirstTick == old(data.isFirstTick) && reloadAnimations == old(reloadAnimations)
      ensures !old(data.isFirstTick) ==> !data.isFirstTick
      ensures outcome.Ok? ==> ControllersReady(data, old(data.isFirstTick), bones.Keys)
      ensures AllIn(driven, bones)
      ensures outcome.Ok? ==> forall k :: k in bones && k !in driven ==>
        && bones[k] == old(bones)[k].ResetStateChanges()
        && data.boneSnapshotCollection[k]
           == (if k in old(data.boneSnapshotCollection) then old(data.boneSnapshotCollection)[k] else old(bones)[k].initialSnapshot.value)
    {
      var snapshots, modified;
      outcome, snapshots, modified := StartTick(data, seekTime, verdicts, clips, crash);
      driven := modified;
      if outcome.Crash? {
        data.boneSnapshotCollection := snapshots;
        return;
      }
      outcome := FinishTick(data, modified, snapshots, seekTime, resetTickLength, crash);
    }
  }

  /** The named controllers know whether this is the first tick and hold one queue per bone. */
  ghost predicate ReadyFor(data: AnimationData, names: set<string>, firstTick: bool, boneNames: set<string>)
    reads data`animationControllers, data.Controllers()
  {
    forall n :: n in data.animationControllers && n in names ==>
      data.animationControllers[n].isJustStarting == firstTick &&
      data.animationControllers[n].boneAnimationQueues.Keys == boneNames
  }

  /** Every controller of the instance is ready. */
  ghost predicate ControllersReady(data: AnimationData, firstTick: bool, boneNames: set<string>)
    reads data`animationControllers, data.Controllers()
  {
    ReadyFor(data, data.animationControllers.Keys, firstTick, boneNames)
  }

  lemma AllInAppend(a: seq<string>, b: seq<string>, bones: map<string, GeoBone>)
    requires AllIn(a, bones) && AllIn(b, bones)
    ensures AllIn(a + b, bones)
  {
    forall i | 0 <= i < |a + b|
      ensures (a + b)[i] in bones
    {
      if i >= |a| {
        assert (a + b)[i] == b[i - |a|];
      }
    }
  }
}
