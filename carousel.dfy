/**
 * The three-slot carousel: the order of the slot labels, how a rotation
 * permutes it, which box is at the front, and how a horizontal swipe is
 * turned into at most one rotation.
 */
module Carousel {
  import opened Wrappers

  /** The three slot labels; `Pos2` is the front (centre) slot, the only one whose box opens a video. */
  datatype Slot = Pos1 | Pos2 | Pos3

  /** The label as the page writes it. */
  function SlotName(slot: Slot): (name: string)
    ensures |name| == 4 && name[..3] == "pos"
    ensures name == "pos2" <==> slot == Pos2
  {
    match slot
    case Pos1 => "pos1"
    case Pos2 => "pos2"
    case Pos3 => "pos3"
  }

  /** The slot labels in the order the page starts with. */
  const Initial: seq<Slot> := [Pos1, Pos2, Pos3]

  /** A horizontal movement must exceed this many pixels to count as a swipe. */
  const SwipeThreshold: real := 30.0

  /** An order of the slot labels reachable by rotations: three labels, no label used twice. */
  predicate IsArrangement(p: seq<Slot>) {
    |p| == 3 && p[0] != p[1] && p[1] != p[2] && p[0] != p[2]
  }

  /** In an arrangement every label is held by exactly one box. */
  lemma EachSlotOnce(p: seq<Slot>)
    requires IsArrangement(p)
    ensures forall x :: multiset(p)[x] == 1
  {
    forall x: Slot ensures multiset(p)[x] == 1 {
      assert p == [p[0], p[1], p[2]];
      assert x == p[0] || x == p[1] || x == p[2];
    }
  }

  /** The arrangements are exactly the permutations of the three labels. */
  lemma ArrangementIsPermutation(p: seq<Slot>)
    ensures IsArrangement(p) <==> multiset(p) == multiset(Initial)
  {
    if IsArrangement(p) {
      EachSlotOnce(Initial);
      EachSlotOnce(p);
      assert forall x :: multiset(p)[x] == multiset(Initial)[x];
    }
    if multiset(p) == multiset(Initial) {
      PermutationIsArrangement(p);
    }
  }

  /** A sequence counting the labels as Initial does is an arrangement. */
  lemma PermutationIsArrangement(p: seq<Slot>)
    requires multiset(p) == multiset(Initial)
    ensures IsArrangement(p)
  {
  }

  /** The class a box is given when it holds slot `slot`. */
  function BoxClass(slot: Slot): (c: string)
    ensures |c| == 8 && c[..4] == "box " && c[4..] == SlotName(slot)
  {
    "box " + SlotName(slot)
  }

  /** Different slots have different names, and so give their boxes different classes. */
  lemma BoxClassIdentifiesSlot(a: Slot, b: Slot)
    ensures SlotName(a) == SlotName(b) ==> a == b
    ensures BoxClass(a) == BoxClass(b) ==> a == b
  {
    if BoxClass(a) == BoxClass(b) {
      assert BoxClass(a)[4..] == BoxClass(b)[4..];
    }
  }

  /**
   * The order after `rotateBoxes(direction)`: "left" moves the first label to
   * the back, "right" moves the last label to the front, and every other
   * direction string leaves the order alone.
   */
  function Rotated(p: seq<Slot>, direction: string): (r: seq<Slot>)
    requires |p| > 0
    ensures multiset(r) == multiset(p)
    ensures |r| == |p|
    ensures direction != "left" && direction != "right" ==> r == p
  {
    if direction == "left" then
      assert p == [p[0]] + p[1..];
      p[1..] + [p[0]]
    else if direction == "right" then
      assert p == p[..|p| - 1] + [p[|p| - 1]];
      [p[|p| - 1]] + p[..|p| - 1]
    else
      p
  }

  /**
   * Position by position: after "left" box i holds what box i + 1 held (the
   * last box gets the first label), after "right" box i holds what box i - 1
   * held (the first box gets the last label).
   */
  lemma RotatedAt(p: seq<Slot>, i: int)
    requires 0 <= i < |p|
    ensures Rotated(p, "left")[i] == p[(i + 1) % |p|]
    ensures Rotated(p, "right")[i] == p[(i + |p| - 1) % |p|]
  {
    var n := |p|;
    var left, right := Rotated(p, "left"), Rotated(p, "right");
    assert left == p[1..] + [p[0]];
    assert right == [p[n - 1]] + p[..n - 1];
    if i + 1 < n {
      assert left[i] == p[i + 1];
      WrapBelow(i + 1, n);
    } else {
      assert left[i] == p[0];
      WrapOnce(0, n);
    }
    if i == 0 {
      assert right[i] == p[n - 1];
      WrapBelow(n - 1, n);
    } else {
      assert right[i] == p[i - 1];
      WrapOnce(i - 1, n);
    }
  }

  /** Helper: a number below the modulus is its own remainder. */
  lemma WrapBelow(a: int, n: int)
    requires 0 <= a < n
    ensures a % n == a
  {
  }

  /** Helper: adding the modulus once does not change the remainder. */
  lemma WrapOnce(a: int, n: int)
    requires 0 <= a < n
    ensures (a + n) % n == a
  {
  }

  /** Rotating left and then right restores the original order. */
  lemma LeftThenRight(p: seq<Slot>)
    requires |p| > 0
    ensures Rotated(Rotated(p, "left"), "right") == p
  {
  }

  /** Rotating right and then left restores the original order. */
  lemma RightThenLeft(p: seq<Slot>)
    requires |p| > 0
    ensures Rotated(Rotated(p, "right"), "left") == p
  {
  }

  /** The order after a whole sequence of `rotateBoxes` calls, first direction first. */
  function RotateAll(p: seq<Slot>, directions: seq<string>): (r: seq<Slot>)
    requires |p| > 0
    ensures |r| == |p|
    decreases |directions|
  {
    if directions == [] then p
    else RotateAll(Rotated(p, directions[0]), directions[1..])
  }

  /** However many rotations run, in whatever directions, the order stays a permutation of the three labels. */
  lemma {:induction false} RotationsKeepArrangement(p: seq<Slot>, directions: seq<string>)
    requires IsArrangement(p)
    ensures IsArrangement(RotateAll(p, directions))
    decreases |directions|
  {
    if directions != [] {
      RotatedKeepsArrangement(p, directions[0]);
      RotationsKeepArrangement(Rotated(p, directions[0]), directions[1..]);
    }
  }

  /** One rotation, in any direction, keeps an arrangement an arrangement. */
  lemma RotatedKeepsArrangement(p: seq<Slot>, direction: string)
    requires IsArrangement(p)
    ensures IsArrangement(Rotated(p, direction))
  {
  }

  /** In every arrangement exactly one box index holds the front slot. */
  function FrontIndex(p: seq<Slot>): (i: nat)
    requires IsArrangement(p)
    ensures i < |p| == 3 && p[i] == Pos2
    ensures forall j :: 0 <= j < |p| && p[j] == Pos2 ==> j == i
  {
    if p[0] == Pos2 then 0 else if p[1] == Pos2 then 1 else 2
  }

  /**
   * The rotation a release `diff` pixels to the right of the press asks for:
   * "left" beyond the threshold, "right" beyond its negative, none otherwise.
   */
  function SwipeRotation(diff: real): (d: Option<string>)
    ensures d == Some("left") <==> diff > SwipeThreshold
    ensures d == Some("right") <==> diff < -SwipeThreshold
    ensures d == None <==> -SwipeThreshold <= diff <= SwipeThreshold
  {
    if diff > SwipeThreshold then Some("left")
    else if diff < -SwipeThreshold then Some("right")
    else None
  }
}
