/**
 * Which event markers a controller dispatches on one tick: every marker of a
 * list that has not yet fired since the last reset and whose start tick has
 * been reached, in list order, with sounds dispatched before particles and
 * particles before custom instructions.
 */
module Events {
  import opened Collab

  function Elements(s: seq<KeyFrameData>): set<KeyFrameData> {
    set e | e in s
  }

  ghost predicate NoDuplicates(s: seq<KeyFrameData>) {
    forall i, j :: 0 <= i < j < |s| ==> s[i] != s[j]
  }

  /** The markers of one list the dispatch loop fires, given the markers already executed. */
  function DueEvents(events: seq<KeyFrameData>, executed: set<KeyFrameData>, tick: real): seq<KeyFrameData>
    decreases |events|
  {
    if events == [] then []
    else if events[0] !in executed && tick >= events[0].startTick then
      [events[0]] + DueEvents(events[1..], executed + {events[0]}, tick)
    else DueEvents(events[1..], executed, tick)
  }

  /** The three dispatch loops in source order; each sees what the previous ones fired. */
  function DueInOrder(k: EventKeyFrames, executed: set<KeyFrameData>, tick: real): seq<KeyFrameData> {
    var s := DueEvents(k.sounds, executed, tick);
    var p := DueEvents(k.particles, executed + Elements(s), tick);
    s + p + DueEvents(k.customInstructions, executed + Elements(s) + Elements(p), tick)
  }

  lemma AppendThree(a: seq<KeyFrameData>, b: seq<KeyFrameData>, c: seq<KeyFrameData>, d: seq<KeyFrameData>)
    ensures a + b + c + d == a + (b + c + d)
  {
  }

  /**
   * Every dispatched marker is one of the list, was not executed before, has
   * reached its start tick, and is dispatched once only.
   */
  lemma {:induction false} DueEventsFireOnce(events: seq<KeyFrameData>, executed: set<KeyFrameData>, tick: real)
    ensures forall e :: e in DueEvents(events, executed, tick) ==> e in events && e !in executed && tick >= e.startTick
    ensures NoDuplicates(DueEvents(events, executed, tick))
    decreases |events|
  {
    if events != [] {
      var e := events[0];
      if e !in executed && tick >= e.startTick {
        var rest := DueEvents(events[1..], executed + {e}, tick);
        DueEventsFireOnce(events[1..], executed + {e}, tick);
        assert e !in rest;
        var r := [e] + rest;
        forall i, j | 0 <= i < j < |r|
          ensures r[i] != r[j]
        {
          if i == 0 {
            assert r[j] == rest[j - 1];
          } else {
            assert r[i] == rest[i - 1] && r[j] == rest[j - 1];
          }
        }
      } else {
        DueEventsFireOnce(events[1..], executed, tick);
      }
    }
  }

  /** Every marker of the list that is not executed and whose start tick is reached is dispatched. */
  lemma {:induction false} DueEventsComplete(events: seq<KeyFrameData>, executed: set<KeyFrameData>, tick: real)
    ensures forall e :: e in events && e !in executed && tick >= e.startTick ==> e in DueEvents(events, executed, tick)
    decreases |events|
  {
    if events != [] {
      var e0 := events[0];
      if e0 !in executed && tick >= e0.startTick {
        DueEventsComplete(events[1..], executed + {e0}, tick);
      } else {
        DueEventsComplete(events[1..], executed, tick);
      }
      forall e | e in events && e !in executed && tick >= e.startTick
        ensures e in DueEvents(events, executed, tick)
      {
        if e != e0 {
          assert e in events[1..];
        }
      }
    }
  }

  function KindRank(k: EventKind): nat {
    match k
    case SoundEvent => 0
    case ParticleEvent => 1
    case CustomInstructionEvent => 2
  }

  /** Each marker list of a clip holds markers of its own kind. */
  ghost predicate WellKinded(k: EventKeyFrames) {
    && (forall e :: e in k.sounds ==> e.kind == SoundEvent)
    && (forall e :: e in k.particles ==> e.kind == ParticleEvent)
    && (forall e :: e in k.customInstructions ==> e.kind == CustomInstructionEvent)
  }

  /** Within one tick, sounds are dispatched before particles, and particles before custom instructions. */
  lemma DispatchOrderByKind(k: EventKeyFrames, executed: set<KeyFrameData>, tick: real)
    requires WellKinded(k)
    ensures var f := DueInOrder(k, executed, tick);
      forall i, j :: 0 <= i < j < |f| ==> KindRank(f[i].kind) <= KindRank(f[j].kind)
  {
    var s := DueEvents(k.sounds, executed, tick);
    var p := DueEvents(k.particles, executed + Elements(s), tick);
    var c := DueEvents(k.customInstructions, executed + Elements(s) + Elements(p), tick);
    DueEventsFireOnce(k.sounds, executed, tick);
    DueEventsFireOnce(k.particles, executed + Elements(s), tick);
    DueEventsFireOnce(k.customInstructions, executed + Elements(s) + Elements(p), tick);
    var f := s + p + c;
    forall i, j | 0 <= i < j < |f|
      ensures KindRank(f[i].kind) <= KindRank(f[j].kind)
    {
      if i < |s| {
        assert f[i] == s[i] && f[i] in s;
      } else if i < |s| + |p| {
        assert f[i] == p[i - |s|] && f[i] in p;
        if j < |s| + |p| {
          assert f[j] == p[j - |s|] && f[j] in p;
        } else {
          assert f[j] == c[j - |s| - |p|] && f[j] in c;
        }
      } else {
        assert f[i] == c[i - |s| - |p|] && f[i] in c;
        assert f[j] == c[j - |s| - |p|] && f[j] in c;
      }
    }
  }
}
