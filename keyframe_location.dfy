/**
 * The keyframe sampler of AnimationController: finding the keyframe a tick
 * falls in (getCurrentKeyFrameLocation) and turning it into an animation point
 * (getAnimationPointAtTick), with the degree-to-radian rule for rotations.
 */
module Keyframes {
  import opened Collab

  /** A keyframe and the tick local to it. */
  datatype KeyframeLocation = KeyframeLocation(keyframe: Keyframe, startTick: real)

  /** The summed length of the first n keyframes. */
  function PrefixLength(frames: seq<Keyframe>, n: nat): real
    requires n <= |frames|
  {
    if n == 0 then 0.0 else PrefixLength(frames, n - 1) + frames[n - 1].length
  }

  /** The tick at which keyframe j ends, counted from the start of the track. */
  function EndOf(frames: seq<Keyframe>, j: nat): real
    requires j < |frames|
  {
    PrefixLength(frames, j + 1)
  }

  /**
   * The walk from frame i on, `total` being the summed length of the frames
   * before i: the first frame whose running total exceeds the age, else the
   * last frame with the age unchanged.
   */
  function LocateFrom(frames: seq<Keyframe>, age: real, i: nat, total: real): KeyframeLocation
    requires 0 < |frames| && i <= |frames|
    decreases |frames| - i
  {
    if i == |frames| then KeyframeLocation(frames[|frames| - 1], age)
    else
      var t := total + frames[i].length;
      if t > age then KeyframeLocation(frames[i], age - (t - frames[i].length))
      else LocateFrom(frames, age, i + 1, t)
  }

  /** The location for an age; None for an empty list (where the source's List.get(-1) throws). */
  function CurrentKeyFrameLocation(frames: seq<Keyframe>, age: real): Option<KeyframeLocation> {
    if frames == [] then None else Some(LocateFrom(frames, age, 0, 0.0))
  }

  lemma {:induction false} LocateFromFindsFirst(frames: seq<Keyframe>, age: real, i: nat, k: nat)
    requires i <= k < |frames|
    requires EndOf(frames, k) > age
    requires forall j :: i <= j < k ==> EndOf(frames, j) <= age
    ensures LocateFrom(frames, age, i, PrefixLength(frames, i)) == KeyframeLocation(frames[k], age - PrefixLength(frames, k))
    decreases k - i
  {
    assert EndOf(frames, i) == PrefixLength(frames, i) + frames[i].length;
    if i < k {
      LocateFromFindsFirst(frames, age, i + 1, k);
    }
  }

  lemma {:induction false} LocateFromFallsBack(frames: seq<Keyframe>, age: real, i: nat)
    requires 0 < |frames| && i <= |frames|
    requires forall j :: i <= j < |frames| ==> EndOf(frames, j) <= age
    ensures LocateFrom(frames, age, i, PrefixLength(frames, i)) == KeyframeLocation(frames[|frames| - 1], age)
    decreases |frames| - i
  {
    if i < |frames| {
      assert EndOf(frames, i) == PrefixLength(frames, i) + frames[i].length;
      LocateFromFallsBack(frames, age, i + 1);
    }
  }

  /**
   * The location is the first keyframe k whose cumulative length exceeds the
   * age, with local tick age minus the length of the frames before k; for a
   * non-negative age that local tick lies in [0, length of k).
   */
  lemma {:induction false} LocationIsFirstExceeding(frames: seq<Keyframe>, age: real, k: nat)
    requires k < |frames| && EndOf(frames, k) > age
    requires forall j :: 0 <= j < k ==> EndOf(frames, j) <= age
    ensures CurrentKeyFrameLocation(frames, age) == Some(KeyframeLocation(frames[k], age - PrefixLength(frames, k)))
    ensures age >= 0.0 ==> 0.0 <= age - PrefixLength(frames, k) < frames[k].length
  {
    LocateFromFindsFirst(frames, age, 0, k);
    if k > 0 {
      assert EndOf(frames, k - 1) <= age;
    }
  }

  /** When no cumulative length exceeds the age, the last keyframe is returned with the unadjusted age. */
  lemma {:induction false} LocationFallsBackToLast(frames: seq<Keyframe>, age: real)
    requires |frames| > 0
    requires forall j :: 0 <= j < |frames| ==> EndOf(frames, j) <= age
    ensures CurrentKeyFrameLocation(frames, age) == Some(KeyframeLocation(frames[|frames| - 1], age))
  {
    LocateFromFallsBack(frames, age, 0);
  }

  /** getCurrentKeyFrameLocation: the accumulating walk over the keyframes. */
  method GetCurrentKeyFrameLocation(frames: seq<Keyframe>, ageInTicks: real) returns (r: Option<KeyframeLocation>)
    ensures r == CurrentKeyFrameLocation(frames, ageInTicks)
  {
    if frames == [] {
      return None;
    }
    var totalFrameTime := 0.0;
    for i := 0 to |frames|
      invariant LocateFrom(frames, ageInTicks, i, totalFrameTime) == LocateFrom(frames, ageInTicks, 0, 0.0)
    {
      totalFrameTime := totalFrameTime + frames[i].length;
      if totalFrameTime > ageInTicks {
        return Some(KeyframeLocation(frames[i], ageInTicks - (totalFrameTime - frames[i].length)));
      }
    }
    return Some(KeyframeLocation(frames[|frames| - 1], ageInTicks));
  }

  /** Math.toRadians: multiplication by Java's degree-to-radian constant. */
  const RadiansPerDegree: real := 0.017453292519943295

  function ToRadians(degrees: real): real {
    degrees * RadiansPerDegree
  }

  /** The value an endpoint contributes to a point. */
  function EndpointValue(v: KeyframeValue, isRotation: bool, axis: Axis): real {
    if isRotation && !v.Constant? then
      if axis == X || axis == Y then -ToRadians(v.Get()) else ToRadians(v.Get())
    else v.Get()
  }

  /** getAnimationPointAtTick: the point for the keyframe the tick falls in. */
  function PointAtTick(frames: seq<Keyframe>, tick: real, isRotation: bool, axis: Axis): (r: Option<AnimationPoint>)
    ensures r.Some? <==> frames != []
    ensures r.Some? ==>
      var loc := CurrentKeyFrameLocation(frames, tick).value;
      && r.value.keyframe == Some(loc.keyframe)
      && r.value.currentTick == loc.startTick
      && r.value.transitionLength == loc.keyframe.length
  {
    match CurrentKeyFrameLocation(frames, tick)
    case None => None
    case Some(loc) =>
      Some(AnimationPoint(Some(loc.keyframe), loc.startTick, loc.keyframe.length,
        EndpointValue(loc.keyframe.startValue, isRotation, axis),
        EndpointValue(loc.keyframe.endValue, isRotation, axis)))
  }

  /**
   * The rotation rule: a non-constant endpoint is converted from degrees to
   * radians and negated on X and Y but not on Z; constant endpoints, and every
   * position and scale endpoint, pass through unchanged.
   */
  lemma RotationConversion(frames: seq<Keyframe>, tick: real)
    requires frames != []
    ensures var kf := CurrentKeyFrameLocation(frames, tick).value.keyframe;
      && (forall axis :: PointAtTick(frames, tick, false, axis).value.startValue == kf.startValue.Get())
      && (forall axis :: PointAtTick(frames, tick, false, axis).value.endValue == kf.endValue.Get())
      && (kf.startValue.Constant? ==> forall axis :: PointAtTick(frames, tick, true, axis).value.startValue == kf.startValue.Get())
      && (kf.endValue.Constant? ==> forall axis :: PointAtTick(frames, tick, true, axis).value.endValue == kf.endValue.Get())
      && (!kf.startValue.Constant? ==>
            && PointAtTick(frames, tick, true, Z).value.startValue == ToRadians(kf.startValue.Get())
            && PointAtTick(frames, tick, true, X).value.startValue == -ToRadians(kf.startValue.Get())
            && PointAtTick(frames, tick, true, Y).value.startValue == -ToRadians(kf.startValue.Get()))
      && (!kf.endValue.Constant? ==>
            && PointAtTick(frames, tick, true, Z).value.endValue == ToRadians(kf.endValue.Get())
            && PointAtTick(frames, tick, true, X).value.endValue == -ToRadians(kf.endValue.Get())
            && PointAtTick(frames, tick, true, Y).value.endValue == -ToRadians(kf.endValue.Get()))
  {
  }

  /** The point getAnimationPointAtTick builds, computed through the keyframe walk. */
  method GetAnimationPointAtTick(frames: seq<Keyframe>, tick: real, isRotation: bool, axis: Axis) returns (r: Option<AnimationPoint>)
    ensures r == PointAtTick(frames, tick, isRotation, axis)
  {
    var location := GetCurrentKeyFrameLocation(frames, tick);
    if location.None? {
      return None;
    }
    var currentFrame := location.value.keyframe;
    var startValue := EndpointValue(currentFrame.startValue, isRotation, axis);
    var endValue := EndpointValue(currentFrame.endValue, isRotation, axis);
    r := Some(AnimationPoint(Some(currentFrame), location.value.startTick, currentFrame.length, startValue, endValue));
  }

  /** The three axis points of one channel's tracks at a tick. */
  datatype StackSample =
    | NoTrack                                                 // the x track is empty: the channel is skipped
    | MissingAxis                                             // x has keyframes but y or z has none: List.get(-1) throws
    | Points(x: AnimationPoint, y: AnimationPoint, z: AnimationPoint)

  function SampleStack(stack: KeyframeStack, tick: real, isRotation: bool): (r: StackSample)
    ensures r.NoTrack? <==> stack.xKeyframes == []
    ensures r.Points? ==>
      && Some(r.x) == PointAtTick(stack.xKeyframes, tick, isRotation, X)
      && Some(r.y) == PointAtTick(stack.yKeyframes, tick, isRotation, Y)
      && Some(r.z) == PointAtTick(stack.zKeyframes, tick, isRotation, Z)
  {
    if stack.xKeyframes == [] then NoTrack
    else if stack.yKeyframes == [] || stack.zKeyframes == [] then MissingAxis
    else Points(
      PointAtTick(stack.xKeyframes, tick, isRotation, X).value,
      PointAtTick(stack.yKeyframes, tick, isRotation, Y).value,
      PointAtTick(stack.zKeyframes, tick, isRotation, Z).value)
  }

  method SampleStackAt(stack: KeyframeStack, tick: real, isRotation: bool) returns (r: StackSample)
    ensures r == SampleStack(stack, tick, isRotation)
  {
    if stack.xKeyframes == [] {
      return NoTrack;
    }
    var px := GetAnimationPointAtTick(stack.xKeyframes, tick, isRotation, X);
    var py := GetAnimationPointAtTick(stack.yKeyframes, tick, isRotation, Y);
    var pz := GetAnimationPointAtTick(stack.zKeyframes, tick, isRotation, Z);
    if py.None? || pz.None? {
      return MissingAxis;
    }
    r := Points(px.value, py.value, pz.value);
  }
}
