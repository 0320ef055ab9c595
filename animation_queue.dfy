/**
 * The queue-building half of AnimationProcessor: turning a request's stages
 * into the clips to play. It is its own module because the controller calls
 * it while the processor drives the controller.
 */
module Queues {
  import opened Collab
  import opened RawAnimations

  /** A clip paired with the loop type its stage asked for. */
  datatype QueuedAnimation = QueuedAnimation(animation: Animation, loopType: LoopType)

  /** Every stage names a clip the library knows. */
  ghost predicate AllResolvable(clips: ClipLibrary, stages: seq<Stage>) {
    forall i :: 0 <= i < |stages| ==> stages[i].animationName in clips
  }

  /** q holds, in stage order, each stage's clip with that stage's loop type. */
  ghost predicate IsResolvedQueue(clips: ClipLibrary, stages: seq<Stage>, q: seq<QueuedAnimation>) {
    && |q| == |stages|
    && forall i :: 0 <= i < |stages| ==>
         stages[i].animationName in clips
         && q[i] == QueuedAnimation(clips[stages[i].animationName], stages[i].loopType)
  }

  /**
   * buildAnimationQueue: all or nothing. Every stage name is looked up; if any
   * is missing the result is None (the source returns null), otherwise the
   * queue pairs each resolved clip with its stage's loop type, in order.
   */
  method BuildAnimationQueue(clips: ClipLibrary, stages: seq<Stage>) returns (r: Option<seq<QueuedAnimation>>)
    ensures r.Some? <==> AllResolvable(clips, stages)
    ensures r.Some? ==> IsResolvedQueue(clips, stages, r.value)
  {
    var animations: seq<QueuedAnimation> := [];
    var error := false;
    var missing: nat := 0;
    for i := 0 to |stages|
      invariant error ==> missing < i && stages[missing].animationName !in clips
      invariant !error ==> forall j :: 0 <= j < i ==> stages[j].animationName in clips
      invariant !error ==> IsResolvedQueue(clips, stages[..i], animations)
    {
      var name := stages[i].animationName;
      if name !in clips {
        if !error {
          missing := i;
        }
        error := true;
      } else {
        animations := animations + [QueuedAnimation(clips[name], stages[i].loopType)];
      }
    }
    if error {
      r := None;
    } else {
      assert stages[..|stages|] == stages;
      r := Some(animations);
    }
  }
}
