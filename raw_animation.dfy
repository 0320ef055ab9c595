/**
 * RawAnimation: an animation request built by appending (clip name, loop type)
 * stages in play order. A controller compares requests with `Equals` to decide
 * whether it must reload; that comparison is decided by `hashCode`, which is
 * modelled with Java's 32-bit arithmetic.
 */
module RawAnimations {
  import opened Collab

  /** One stage of a request: a clip name and how it proceeds once finished. */
  datatype Stage = Stage(animationName: string, loopType: LoopType)

  const TwoTo31: int := 0x8000_0000
  const TwoTo32: int := 0x1_0000_0000

  /** Java's `int` arithmetic: the two's-complement wrap of x into 32 bits. */
  function Wrap32(x: int): (r: int)
    ensures -TwoTo31 <= r < TwoTo31
    ensures (r - x) % TwoTo32 == 0
  {
    (x + TwoTo31) % TwoTo32 - TwoTo31
  }

  /**
   * The UTF-16 code units Java stores for one character: the character itself
   * inside the Basic Multilingual Plane, a high and a low surrogate outside it.
   */
  function CodeUnits(c: char): (r: seq<int>)
    ensures |r| == (if c as int < 0x1_0000 then 1 else 2)
    ensures forall i :: 0 <= i < |r| ==> 0 <= r[i] < 0x1_0000
    ensures |r| == 1 ==> r[0] == c as int
    ensures |r| == 2 ==>
      && 0xD800 <= r[0] < 0xDC00 && 0xDC00 <= r[1] < 0xE000
      && 0x1_0000 + (r[0] - 0xD800) * 0x400 + (r[1] - 0xDC00) == c as int
  {
    var v := c as int;
    if v < 0x1_0000 then [v]
    else [0xD800 + (v - 0x1_0000) / 0x400, 0xDC00 + (v - 0x1_0000) % 0x400]
  }

  /** A string as the sequence of UTF-16 code units Java holds for it. */
  function Utf16(s: string): (r: seq<int>)
    ensures |r| >= |s|
    ensures forall i :: 0 <= i < |r| ==> 0 <= r[i] < 0x1_0000
    decreases |s|
  {
    if s == [] then [] else Utf16(s[..|s| - 1]) + CodeUnits(s[|s| - 1])
  }

  /** h = 31 * h + u over code units, wrapping at 32 bits. */
  function UnitsHash(units: seq<int>): int
    decreases |units|
  {
    if units == [] then 0 else Wrap32(31 * UnitsHash(units[..|units| - 1]) + units[|units| - 1])
  }

  /** String.hashCode: the polynomial hash over the string's UTF-16 code units. */
  function StringHash(s: string): (r: int)
    ensures -TwoTo31 <= r < TwoTo31
  {
    UnitsHash(Utf16(s))
  }

  /**
   * A character outside the Basic Multilingual Plane counts as its two
   * surrogates: U+1F600 hashes as 31 * 0xD83D + 0xDE00.
   */
  lemma {:induction false} SupplementaryCharHashesAsSurrogates()
    ensures Utf16("\U{1F600}") == [0xD83D, 0xDE00]
    ensures StringHash("\U{1F600}") == 31 * 0xD83D + 0xDE00
  {
    assert "\U{1F600}"[..0] == "";
    assert Utf16("\U{1F600}") == [0xD83D, 0xDE00];
    assert [0xD83D, 0xDE00][..1] == [0xD83D];
    assert [0xD83D][..0] == [];
  }

  /**
   * The identity hash code of a loop-type object. Java gives no fixed value;
   * these numbers are arbitrary and no property below depends on them.
   */
  function LoopTypeHash(l: LoopType): int {
    match l
    case PlayOnce => 1
    case Loop => 2
    case Other(id, _) => Wrap32(id + 3)
  }

  /** Stage.hashCode = Objects.hash(animationName, loopType): a Java int. */
  function StageHash(st: Stage): (r: int)
    ensures -TwoTo31 <= r < TwoTo31
  {
    Wrap32(31 * Wrap32(31 + StringHash(st.animationName)) + LoopTypeHash(st.loopType))
  }

  /**
   * A stage's hash sees its name only through the name's hash: two stages
   * with the same loop type and colliding names hash alike.
   */
  lemma StageHashSeesNameHash(a: Stage, b: Stage)
    requires a.loopType == b.loopType && StringHash(a.animationName) == StringHash(b.animationName)
    ensures StageHash(a) == StageHash(b)
  {
  }

  /** List.hashCode: h = 31 * h + e.hashCode(), starting from 1. */
  function StageListHash(stages: seq<Stage>): int
    decreases |stages|
  {
    if stages == [] then 1
    else Wrap32(31 * StageListHash(stages[..|stages| - 1]) + StageHash(stages[|stages| - 1]))
  }

  /** RawAnimation.hashCode = Objects.hash(animationList). */
  function RequestHash(stages: seq<Stage>): int {
    Wrap32(31 + StageListHash(stages))
  }

  class RawAnimation {
    var animationList: seq<Stage>

    /** begin(): a request with no stages. */
    constructor Begin()
      ensures animationList == []
    {
      animationList := [];
    }

    function GetAnimationStages(): seq<Stage>
      reads this
    {
      animationList
    }

    /** then(name, loopType): appends exactly one stage, after the existing ones. */
    method Then(animationName: string, loopType: LoopType) returns (self: RawAnimation)
      modifies this`animationList
      ensures self == this
      ensures animationList == old(animationList) + [Stage(animationName, loopType)]
    {
      animationList := animationList + [Stage(animationName, loopType)];
      self := this;
    }

    /** thenPlay(name): appends a play-once stage. */
    method ThenPlay(animationName: string) returns (self: RawAnimation)
      modifies this`animationList
      ensures self == this
      ensures animationList == old(animationList) + [Stage(animationName, PlayOnce)]
    {
      self := Then(animationName, PlayOnce);
    }

    /** thenLoop(name): appends a looping stage. */
    method ThenLoop(animationName: string) returns (self: RawAnimation)
      modifies this`animationList
      ensures self == this
      ensures animationList == old(animationList) + [Stage(animationName, Loop)]
    {
      self := Then(animationName, Loop);
    }

    /** thenPlayXTimes(name, n): appends max(n, 0) play-once stages of the same clip. */
    method ThenPlayXTimes(animationName: string, playCount: int) returns (self: RawAnimation)
      modifies this`animationList
      ensures self == this
      ensures animationList == old(animationList) + Repeat(Stage(animationName, PlayOnce), if playCount < 0 then 0 else playCount)
    {
      var i := 0;
      while i < playCount
        invariant 0 <= i
        invariant playCount >= 0 ==> i <= playCount
        invariant playCount < 0 ==> i == 0
        invariant animationList == old(animationList) + Repeat(Stage(animationName, PlayOnce), i)
      {
        self := ThenPlay(animationName);
        RepeatSnoc(Stage(animationName, PlayOnce), i);
        i := i + 1;
      }
      self := this;
    }

    /** copyOf(other): a new request with the same stages; the two lists are independent afterwards. */
    static method CopyOf(other: RawAnimation) returns (r: RawAnimation)
      ensures fresh(r)
      ensures r.animationList == other.animationList
    {
      r := new RawAnimation.Begin();
      r.animationList := r.animationList + other.animationList;
    }

    /** hashCode(): Objects.hash over the stage list, a Java int. */
    function HashCode(): (r: int)
      reads this
      ensures -TwoTo31 <= r < TwoTo31
    {
      RequestHash(animationList)
    }

    /**
     * equals(obj): the same object, or a non-null request with the same hash
     * code. Structurally equal stage lists always compare equal.
     */
    function Equals(obj: RawAnimation?): (r: bool)
      reads this, obj
      ensures obj == this ==> r
      ensures obj != null && obj.animationList == animationList ==> r
      ensures obj == null ==> !r
      ensures r && obj != this ==> obj != null && RequestHash(obj.animationList) == RequestHash(animationList)
      ensures obj != null && RequestHash(obj.animationList) == RequestHash(animationList) ==> r
    {
      this == obj || (obj != null && HashCode() == obj.HashCode())
    }
  }

  /** n copies of one stage. */
  function Repeat(st: Stage, n: nat): (r: seq<Stage>)
    ensures |r| == n
    ensures forall i :: 0 <= i < n ==> r[i] == st
  {
    seq(n, _ => st)
  }

  lemma RepeatSnoc(st: Stage, n: nat)
    ensures Repeat(st, n + 1) == Repeat(st, n) + [st]
  {
    assert Repeat(st, n + 1)[..n] == Repeat(st, n);
  }

  /** A two-character string inside the Basic Multilingual Plane hashes as 31 * c0 + c1, wrapped. */
  lemma {:induction false} TwoCharHash(c0: char, c1: char)
    requires c0 as int < 0x1_0000 && c1 as int < 0x1_0000
    ensures Utf16([c0, c1]) == [c0 as int, c1 as int]
    ensures StringHash([c0, c1]) == Wrap32(31 * (c0 as int) + c1 as int)
  {
    assert Utf16([c0]) == [c0 as int] by { assert [c0][..0] == []; }
    assert Utf16([c0, c1]) == [c0 as int, c1 as int] by { assert [c0, c1][..1] == [c0]; }
    assert UnitsHash([c0 as int]) == c0 as int by { assert [c0 as int][..0] == []; }
    assert [c0 as int, c1 as int][..1] == [c0 as int];
  }

  lemma NameHashAa()
    ensures StringHash("Aa") == 2112
  {
    TwoCharHash('A', 'a');
    assert Wrap32(31 * 65 + 97) == 2112;
  }

  lemma NameHashBB()
    ensures StringHash("BB") == 2112
  {
    TwoCharHash('B', 'B');
    assert Wrap32(31 * 66 + 66) == 2112;
  }

  /** Two different single-stage requests whose hash codes collide ("Aa" and "BB"). */
  lemma {:induction false} HashCollision(l: LoopType)
    ensures [Stage("Aa", l)] != [Stage("BB", l)]
    ensures RequestHash([Stage("Aa", l)]) == RequestHash([Stage("BB", l)])
  {
    NameHashAa();
    NameHashBB();
    StageHashSeesNameHash(Stage("Aa", l), Stage("BB", l));
  }

  /**
   * Because equality is decided by hash codes, two requests with different
   * stage lists can compare equal: a controller holding one will not reload
   * when handed the other.
   */
  method CollidingRequestsCompareEqual() returns (a: RawAnimation, b: RawAnimation)
    ensures a != b && a.animationList != b.animationList
    ensures a.Equals(b) && b.Equals(a)
  {
    a := new RawAnimation.Begin();
    a := a.ThenPlay("Aa");
    b := new RawAnimation.Begin();
    b := b.ThenPlay("BB");
    assert a.animationList == [Stage("Aa", PlayOnce)];
    assert b.animationList == [Stage("BB", PlayOnce)];
    HashCollision(PlayOnce);
    assert a.HashCode() == b.HashCode();
  }

  /** Appending to a copy leaves the original's stages as they were. */
  method CopyThenAppendLeavesOriginal(original: RawAnimation, animationName: string) returns (copy: RawAnimation)
    ensures fresh(copy)
    ensures original.animationList == old(original.animationList)
    ensures copy.animationList == original.animationList + [Stage(animationName, Loop)]
  {
    copy := RawAnimation.CopyOf(original);
    copy := copy.ThenLoop(animationName);
  }
}
