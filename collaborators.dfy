/**
 * The collaborators of the animation core whose source is not part of this
 * model: keyframes and their values, per-bone keyframe tracks, clips, loop
 * types, bones, bone snapshots, animation points and the per-bone point
 * queues a controller fills. They are kept as plain values; their payloads
 * (sound names, particle effects, instruction strings, Molang expressions)
 * are opaque numbers, and only what the core reads or writes is a field.
 */
module Collab {

  datatype Option<T> = None | Some(value: T)

  /** What a tick of the engine ends in: normally, or with the exception the source throws. */
  datatype Outcome = Ok | Crash(fault: Fault)

  datatype Fault =
    | MissingBone(boneName: string)      // RuntimeException "Could not find bone"
    | MissingSnapshot(boneName: string)  // RuntimeException "Could not find save snapshot for bone"
    | NullReference                      // a NullPointerException in the source
    | IndexOutOfBounds                   // List.get(-1) on an empty keyframe list

  /** The three axis values of one transformation channel. */
  datatype Vec3 = Vec3(x: real, y: real, z: real)

  datatype Axis = X | Y | Z

  /** The three transformation channels a bone animation drives. */
  datatype Channel = Rotation | Position | Scale

  /**
   * A keyframe endpoint. `Constant` endpoints are literal numbers; `Expression`
   * stands for any other value (a Molang expression) and carries what it
   * evaluates to at this tick.
   */
  datatype KeyframeValue = Constant(c: real) | Expression(current: real)
  {
    function Get(): real {
      match this
      case Constant(c) => c
      case Expression(v) => v
    }
  }

  /** One time-bounded segment of a one-axis track. */
  datatype Keyframe = Keyframe(length: real, startValue: KeyframeValue, endValue: KeyframeValue)

  /** The three one-axis tracks of one channel. */
  datatype KeyframeStack = KeyframeStack(xKeyframes: seq<Keyframe>, yKeyframes: seq<Keyframe>, zKeyframes: seq<Keyframe>)

  /** The rotation, position and scale tracks of one bone in a clip. */
  datatype BoneAnimation = BoneAnimation(
    boneName: string,
    rotationKeyFrames: KeyframeStack,
    positionKeyFrames: KeyframeStack,
    scaleKeyFrames: KeyframeStack)
  {
    function Track(ch: Channel): KeyframeStack {
      match ch
      case Rotation => rotationKeyFrames
      case Position => positionKeyFrames
      case Scale => scaleKeyFrames
    }
  }

  datatype EventKind = SoundEvent | ParticleEvent | CustomInstructionEvent

  /** A timed event marker of a clip; its payload is opaque. */
  datatype KeyFrameData = KeyFrameData(kind: EventKind, startTick: real, payload: nat)

  /** The three event marker lists of a clip. */
  datatype EventKeyFrames = EventKeyFrames(
    sounds: seq<KeyFrameData>,
    particles: seq<KeyFrameData>,
    customInstructions: seq<KeyFrameData>)

  /** A clip, as the clip library supplies it. */
  datatype Animation = Animation(
    name: string,
    length: real,
    boneAnimations: seq<BoneAnimation>,
    keyFrames: EventKeyFrames)

  /** The clips a model resolves by name; a name absent from the map is unresolved. */
  type ClipLibrary = map<string, Animation>

  /**
   * How a finished clip proceeds. `Other` stands for every loop type beyond the
   * two the request builder names (hold-on-last-frame, custom predicates); its
   * decision is the fixed verdict it carries.
   */
  datatype LoopType = PlayOnce | Loop | Other(id: nat, playsAgain: bool)
  {
    function ShouldPlayAgain(): bool {
      match this
      case PlayOnce => false
      case Loop => true
      case Other(_, again) => again
    }
  }

  /** The per-channel part of a bone snapshot. */
  datatype ChannelSnapshot = ChannelSnapshot(value: Vec3, inProgress: bool, lastResetTick: real)

  /** Last known blended transform of one bone, with per-channel progress state. */
  datatype BoneSnapshot = BoneSnapshot(
    boneName: string,
    rotation: ChannelSnapshot,
    position: ChannelSnapshot,
    scale: ChannelSnapshot)
  {
    function Get(ch: Channel): ChannelSnapshot {
      match ch
      case Rotation => rotation
      case Position => position
      case Scale => scale
    }

    function With(ch: Channel, cs: ChannelSnapshot): (r: BoneSnapshot)
      ensures r.Get(ch) == cs && r.boneName == boneName
      ensures forall other :: other != ch ==> r.Get(other) == Get(other)
    {
      match ch
      case Rotation => this.(rotation := cs)
      case Position => this.(position := cs)
      case Scale => this.(scale := cs)
    }
  }

  /** A bone of the model, with its transient per-frame state. */
  datatype GeoBone = GeoBone(
    name: string,
    rotation: Vec3,
    position: Vec3,
    scale: Vec3,
    rotationChanged: bool,
    positionChanged: bool,
    scaleChanged: bool,
    initialSnapshot: Option<BoneSnapshot>,
    children: seq<GeoBone>)
  {
    function Value(ch: Channel): Vec3 {
      match ch
      case Rotation => rotation
      case Position => position
      case Scale => scale
    }

    function HasChanged(ch: Channel): bool {
      match ch
      case Rotation => rotationChanged
      case Position => positionChanged
      case Scale => scaleChanged
    }

    function WithValue(ch: Channel, v: Vec3): (r: GeoBone)
      ensures r.Value(ch) == v
      ensures forall other :: other != ch ==> r.Value(other) == Value(other)
      ensures forall c :: r.HasChanged(c) == HasChanged(c)
      ensures r.name == name && r.initialSnapshot == initialSnapshot && r.children == children
    {
      match ch
      case Rotation => this.(rotation := v)
      case Position => this.(position := v)
      case Scale => this.(scale := v)
    }

    function MarkChanged(ch: Channel): (r: GeoBone)
      ensures r.HasChanged(ch)
      ensures forall other :: other != ch ==> r.HasChanged(other) == HasChanged(other)
      ensures forall c :: r.Value(c) == Value(c)
      ensures r.name == name && r.initialSnapshot == initialSnapshot && r.children == children
    {
      match ch
      case Rotation => this.(rotationChanged := true)
      case Position => this.(positionChanged := true)
      case Scale => this.(scaleChanged := true)
    }

    /** The bone's transform as a snapshot with no channel in progress. */
    function Snapshot(): BoneSnapshot {
      BoneSnapshot(name,
        ChannelSnapshot(rotation, false, 0.0),
        ChannelSnapshot(position, false, 0.0),
        ChannelSnapshot(scale, false, 0.0))
    }

    /** Captures the rest pose the first time a bone is registered. */
    function SaveInitialSnapshot(): (r: GeoBone)
      ensures r.initialSnapshot.Some? && r.name == name && r.children == children
      ensures initialSnapshot.Some? ==> r == this
      ensures initialSnapshot.None? ==> r.initialSnapshot == Some(Snapshot())
    {
      if initialSnapshot.None? then this.(initialSnapshot := Some(Snapshot())) else this
    }

    /** Clears the "changed this frame" markers. */
    function ResetStateChanges(): (r: GeoBone)
      ensures forall c :: !r.HasChanged(c) && r.Value(c) == Value(c)
      ensures r.name == name && r.initialSnapshot == initialSnapshot && r.children == children
    {
      this.(rotationChanged := false, positionChanged := false, scaleChanged := false)
    }
  }

  /** One interpolation step: from startValue to endValue over transitionLength, currently at currentTick. */
  datatype AnimationPoint = AnimationPoint(
    keyframe: Option<Keyframe>,
    currentTick: real,
    transitionLength: real,
    startValue: real,
    endValue: real)

  /** The x, y and z point queues of one channel. */
  datatype ChannelQueue = ChannelQueue(x: seq<AnimationPoint>, y: seq<AnimationPoint>, z: seq<AnimationPoint>)
  {
    function Push(px: AnimationPoint, py: AnimationPoint, pz: AnimationPoint): ChannelQueue {
      ChannelQueue(x + [px], y + [py], z + [pz])
    }

    /** Queue.poll on each axis: the head of each queue is removed, if there is one. */
    function Polled(): ChannelQueue {
      ChannelQueue(Tail(x), Tail(y), Tail(z))
    }
  }

  function Head(s: seq<AnimationPoint>): Option<AnimationPoint> {
    if s == [] then None else Some(s[0])
  }

  function Tail(s: seq<AnimationPoint>): seq<AnimationPoint> {
    if s == [] then [] else s[1..]
  }

  /** The nine point queues a controller fills for one bone during one tick. */
  datatype BoneAnimationQueue = BoneAnimationQueue(
    bone: GeoBone,
    rotation: ChannelQueue,
    position: ChannelQueue,
    scale: ChannelQueue)
  {
    function Queue(ch: Channel): ChannelQueue {
      match ch
      case Rotation => rotation
      case Position => position
      case Scale => scale
    }

    function WithQueue(ch: Channel, q: ChannelQueue): (r: BoneAnimationQueue)
      ensures r.Queue(ch) == q && r.bone == bone
      ensures forall other :: other != ch ==> r.Queue(other) == Queue(other)
    {
      match ch
      case Rotation => this.(rotation := q)
      case Position => this.(position := q)
      case Scale => this.(scale := q)
    }

    /** The queues after the processor has polled the head of each of the nine. */
    function Polled(): (r: BoneAnimationQueue)
      ensures r.bone == bone
      ensures forall ch :: r.Queue(ch) == Queue(ch).Polled()
    {
      BoneAnimationQueue(bone, rotation.Polled(), position.Polled(), scale.Polled())
    }

    /** addRotations / addPositions / addScales: one sampled point per axis. */
    function Add(ch: Channel, px: AnimationPoint, py: AnimationPoint, pz: AnimationPoint): BoneAnimationQueue {
      WithQueue(ch, Queue(ch).Push(px, py, pz))
    }

    /**
     * addNextRotation / addNextPosition / addNextScale: a transition point per
     * axis that blends from the saved snapshot towards the first value of the
     * next clip. Rotation starts from the snapshot relative to the rest pose,
     * because the rest rotation is added back when the point is applied.
     */
    function AddNext(ch: Channel, tick: real, transitionLength: real, start: BoneSnapshot,
                     initial: BoneSnapshot, nx: AnimationPoint, ny: AnimationPoint, nz: AnimationPoint): BoneAnimationQueue
    {
      var s := start.Get(ch).value;
      var base := if ch == Rotation then initial.rotation.value else Vec3(0.0, 0.0, 0.0);
      Add(ch,
        AnimationPoint(None, tick, transitionLength, s.x - base.x, nx.startValue),
        AnimationPoint(None, tick, transitionLength, s.y - base.y, ny.startValue),
        AnimationPoint(None, tick, transitionLength, s.z - base.z, nz.startValue))
    }
  }

  function EmptyChannelQueue(): ChannelQueue {
    ChannelQueue([], [], [])
  }

  /** A fresh queue for a bone, as createInitialQueues builds one. */
  function NewQueue(bone: GeoBone): BoneAnimationQueue {
    BoneAnimationQueue(bone, EmptyChannelQueue(), EmptyChannelQueue(), EmptyChannelQueue())
  }
}
