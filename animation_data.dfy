/**
 * AnimationData: what one animated instance keeps between ticks. It holds the
 * controllers by name, the master bone snapshot map, the last update time and
 * the first-tick latch.
 */
module Data {
  import opened Collab
  import opened Controller

  class AnimationData {
    var boneSnapshotCollection: map<string, BoneSnapshot>
    var animationControllers: map<string, AnimationController>
    var lastUpdateTime: real
    var isFirstTick: bool
    var firstTickTime: real

    ghost function Controllers(): set<AnimationController>
      reads this`animationControllers
    {
      set k | k in animationControllers :: animationControllers[k]
    }

    /** Every controller is stored under its own name and keeps its event invariant. */
    ghost predicate Valid()
      reads this`animationControllers, Controllers()
    {
      forall k :: k in animationControllers ==>
        animationControllers[k].name == k && animationControllers[k].Valid()
    }

    /** Empty maps, the latch set and the first-tick time at -1; Java's default 0 for the update time. */
    constructor ()
      ensures Valid()
      ensures boneSnapshotCollection == map[] && animationControllers == map[]
      ensures isFirstTick && firstTickTime == -1.0 && lastUpdateTime == 0.0
    {
      boneSnapshotCollection := map[];
      animationControllers := map[];
      lastUpdateTime := 0.0;
      isFirstTick := true;
      firstTickTime := -1.0;
    }

    /**
     * addAnimationController: the controller is stored under its name,
     * replacing any controller of the same name; other entries are kept.
     */
    method AddAnimationController(controller: AnimationController)
      requires Valid() && controller.Valid()
      modifies this`animationControllers
      ensures Valid()
      ensures animationControllers == old(animationControllers)[controller.name := controller]
      ensures controller.name in animationControllers && animationControllers[controller.name] == controller
      ensures forall k :: k in old(animationControllers) && k != controller.name ==>
        k in animationControllers && animationControllers[k] == old(animationControllers)[k]
    {
      animationControllers := animationControllers[controller.name := controller];
    }

    function GetAnimationControllers(): map<string, AnimationController>
      reads this
    {
      animationControllers
    }

    function GetBoneSnapshotCollection(): map<string, BoneSnapshot>
      reads this
    {
      boneSnapshotCollection
    }

    /** clearSnapshotCache: no snapshot is left. */
    method ClearSnapshotCache()
      modifies this`boneSnapshotCollection
      ensures boneSnapshotCollection == map[]
      ensures GetBoneSnapshotCollection() == map[]
    {
      boneSnapshotCollection := map[];
    }

    function GetLastUpdateTime(): real
      reads this
    {
      lastUpdateTime
    }

    /** updatedAt(t): the next getLastUpdateTime returns t. */
    method UpdatedAt(updateTime: real)
      modifies this`lastUpdateTime
      ensures GetLastUpdateTime() == updateTime
    {
      lastUpdateTime := updateTime;
    }

    function GetFirstTickTime(): real
      reads this
    {
      firstTickTime
    }

    /** startedAt(t): the next getFirstTickTime returns t. */
    method StartedAt(time: real)
      modifies this`firstTickTime
      ensures GetFirstTickTime() == time
    {
      firstTickTime := time;
    }

    function IsFirstTick(): bool
      reads this
    {
      isFirstTick
    }

    /**
     * finishFirstTick: the latch is cleared. No other operation of this class
     * writes it, and the processor's tick, the only other writer, only ever
     * clears it (see TickAnimation), so once false it stays false.
     */
    method FinishFirstTick()
      modifies this`isFirstTick
      ensures !IsFirstTick()
    {
      isFirstTick := false;
    }
  }
}
