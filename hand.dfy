/**
 * One tracked hand: 21 landmarks in normalised image coordinates (y grows
 * downward), the finger-curl classifiers both variants share, and the
 * per-side landmark smoother.
 */
module Hand {
  import opened Wrappers

  /** A landmark: x, y in [0, 1] image units, z a relative depth. */
  datatype Point = Point(x: real, y: real, z: real)

  datatype Label = Left | Right

  /** One hand as the tracker reports it in a callback. */
  datatype HandFrame = HandFrame(side: Label, landmarks: seq<Point>)

  const LANDMARKS: nat := 21

  // Anatomical landmark indices.
  const WRIST: nat := 0
  const THUMB_TIP: nat := 4
  const INDEX_PIP: nat := 6
  const INDEX_TIP: nat := 8
  const MIDDLE_MCP: nat := 9
  const MIDDLE_PIP: nat := 10
  const MIDDLE_TIP: nat := 12
  const RING_PIP: nat := 14
  const RING_TIP: nat := 16
  const PINKY_PIP: nat := 18
  const PINKY_TIP: nat := 20

  predicate IsHand(h: seq<Point>) { |h| == LANDMARKS }

  /** The tracker's contract: every reported hand has 21 landmarks. */
  predicate FrameOk(hands: seq<HandFrame>)
  {
    forall j :: 0 <= j < |hands| ==> IsHand(hands[j].landmarks)
  }

  /** Finger tip above its PIP joint. */
  predicate Up(h: seq<Point>, tip: nat, pip: nat)
    requires IsHand(h) && tip < LANDMARKS && pip < LANDMARKS
  {
    h[tip].y < h[pip].y
  }

  /** Finger tip below its PIP joint. */
  predicate Down(h: seq<Point>, tip: nat, pip: nat)
    requires IsHand(h) && tip < LANDMARKS && pip < LANDMARKS
  {
    h[tip].y > h[pip].y
  }

  /** Index, middle and ring fingers curled. */
  predicate IsFist(h: seq<Point>)
    requires IsHand(h)
  {
    Down(h, INDEX_TIP, INDEX_PIP) && Down(h, MIDDLE_TIP, MIDDLE_PIP) && Down(h, RING_TIP, RING_PIP)
  }

  /** Index, middle and pinky fingers extended (thumb and ring free). */
  predicate IsPalm(h: seq<Point>)
    requires IsHand(h)
  {
    Up(h, INDEX_TIP, INDEX_PIP) && Up(h, MIDDLE_TIP, MIDDLE_PIP) && Up(h, PINKY_TIP, PINKY_PIP)
  }

  /** Index extended, middle curled. */
  predicate IsPointing(h: seq<Point>)
    requires IsHand(h)
  {
    Up(h, INDEX_TIP, INDEX_PIP) && Down(h, MIDDLE_TIP, MIDDLE_PIP)
  }

  /** Index and middle extended, ring and pinky curled. */
  predicate IsPeace(h: seq<Point>)
    requires IsHand(h)
  {
    Up(h, INDEX_TIP, INDEX_PIP) && Up(h, MIDDLE_TIP, MIDDLE_PIP)
    && Down(h, RING_TIP, RING_PIP) && Down(h, PINKY_TIP, PINKY_PIP)
  }

  /**
   * The four finger-curl gestures exclude each other on one hand: each pair
   * disagrees on some tip against its joint.
   */
  lemma ClassifiersExclusive(h: seq<Point>)
    requires IsHand(h)
    ensures !(IsFist(h) && IsPalm(h))
    ensures !(IsFist(h) && IsPointing(h)) && !(IsFist(h) && IsPeace(h))
    ensures !(IsPalm(h) && IsPointing(h)) && !(IsPalm(h) && IsPeace(h))
    ensures !(IsPointing(h) && IsPeace(h))
  {
  }

  // ---------------------------------------------------------------------
  // Smoothing

  /** Blend factor toward the new raw value for x and y. */
  const LATERAL_BLEND: real := 0.45
  /** Blend factor for the noisier depth z. */
  const DEPTH_BLEND: real := 0.1

  function Blend(prev: Point, raw: Point): Point
  {
    Point(prev.x + (raw.x - prev.x) * LATERAL_BLEND,
          prev.y + (raw.y - prev.y) * LATERAL_BLEND,
          prev.z + (raw.z - prev.z) * DEPTH_BLEND)
  }

  predicate Within(a: real, b: real, v: real)
  {
    (a <= v <= b) || (b <= v <= a)
  }

  /**
   * Each smoothed coordinate moves part of the way toward the raw value and
   * never past it; a raw value equal to the stored one leaves it unchanged.
   */
  lemma BlendBetween(prev: Point, raw: Point)
    ensures Within(prev.x, raw.x, Blend(prev, raw).x)
    ensures Within(prev.y, raw.y, Blend(prev, raw).y)
    ensures Within(prev.z, raw.z, Blend(prev, raw).z)
    ensures raw == prev ==> Blend(prev, raw) == prev
  {
  }

  /** Stored landmarks for one side: empty until first seen, else 21. */
  predicate StoredOk(s: seq<Point>) { s == [] || IsHand(s) }

  /**
   * The landmarks kept for one side after one raw report: a verbatim copy
   * when nothing is stored yet, otherwise each point blended toward the raw one.
   */
  function Smoothed(stored: seq<Point>, raw: seq<Point>): (r: seq<Point>)
    requires StoredOk(stored) && IsHand(raw)
    ensures IsHand(r)
    ensures stored == [] ==> r == raw
    ensures stored != [] ==> forall i :: 0 <= i < LANDMARKS ==> r[i] == Blend(stored[i], raw[i])
    ensures stored != [] ==> forall i :: 0 <= i < LANDMARKS ==>
      Within(stored[i].x, raw[i].x, r[i].x) && Within(stored[i].y, raw[i].y, r[i].y) && Within(stored[i].z, raw[i].z, r[i].z)
    ensures stored != [] ==> forall i :: 0 <= i < LANDMARKS && raw[i] == stored[i] ==> r[i] == stored[i]
  {
    if stored == [] then raw
    else
      BlendAllBetween(stored, raw);
      seq(LANDMARKS, i requires 0 <= i < LANDMARKS => Blend(stored[i], raw[i]))
  }

  /** Blending every landmark keeps each one between its stored and raw positions. */
  lemma BlendAllBetween(stored: seq<Point>, raw: seq<Point>)
    requires IsHand(stored) && IsHand(raw)
    ensures forall i :: 0 <= i < LANDMARKS ==>
      var b := Blend(stored[i], raw[i]);
      Within(stored[i].x, raw[i].x, b.x) && Within(stored[i].y, raw[i].y, b.y) && Within(stored[i].z, raw[i].z, b.z)
    ensures forall i :: 0 <= i < LANDMARKS && raw[i] == stored[i] ==> Blend(stored[i], raw[i]) == stored[i]
  {
    forall i | 0 <= i < LANDMARKS {
      BlendBetween(stored[i], raw[i]);
    }
  }

  /** The smoothed landmarks of both labels. */
  datatype Pair = Pair(left: seq<Point>, right: seq<Point>)

  function SmoothOne(p: Pair, h: HandFrame): (r: Pair)
    requires StoredOk(p.left) && StoredOk(p.right) && IsHand(h.landmarks)
    ensures StoredOk(r.left) && StoredOk(r.right)
  {
    match h.side
    case Left => p.(left := Smoothed(p.left, h.landmarks))
    case Right => p.(right := Smoothed(p.right, h.landmarks))
  }

  /** Smoothing every hand of one callback in report order. */
  function SmoothAll(p: Pair, hands: seq<HandFrame>): (r: Pair)
    requires StoredOk(p.left) && StoredOk(p.right) && FrameOk(hands)
    ensures StoredOk(r.left) && StoredOk(r.right)
  {
    if hands == [] then p
    else SmoothOne(SmoothAll(p, hands[..|hands| - 1]), hands[|hands| - 1])
  }

  /** Some hand in the callback carries the side. */
  predicate Seen(hands: seq<HandFrame>, side: Label)
  {
    exists j :: 0 <= j < |hands| && hands[j].side == side
  }

  /** The hand a side contributes to one callback: none, or 21 landmarks. */
  predicate HandOk(h: Option<seq<Point>>) { h.Some? ==> IsHand(h.value) }

  /** The smoothed hand of a side, if that side was reported. */
  function Reported(p: Pair, hands: seq<HandFrame>, side: Label): Option<seq<Point>>
  {
    if !Seen(hands, side) then None else if side == Left then Some(p.left) else Some(p.right)
  }

  /** A callback's hand list, when the tracker reported one, holds whole hands. */
  predicate ResultsOk(results: Option<seq<HandFrame>>)
  {
    results.Some? ==> FrameOk(results.value)
  }

  predicate BothFists(l: Option<seq<Point>>, r: Option<seq<Point>>)
    requires HandOk(l) && HandOk(r)
  {
    l.Some? && r.Some? && IsFist(l.value) && IsFist(r.value)
  }

  predicate BothPalms(l: Option<seq<Point>>, r: Option<seq<Point>>)
    requires HandOk(l) && HandOk(r)
  {
    l.Some? && r.Some? && IsPalm(l.value) && IsPalm(r.value)
  }

  /** The two two-hand gestures never hold together, so their order is immaterial. */
  lemma TwoHandGesturesExclusive(l: Option<seq<Point>>, r: Option<seq<Point>>)
    requires HandOk(l) && HandOk(r)
    ensures !(BothFists(l, r) && BothPalms(l, r))
  {
    if l.Some? {
      ClassifiersExclusive(l.value);
    }
  }

  /**
   * A side reported in the callback ends up with 21 smoothed landmarks;
   * a side not reported keeps exactly what it had.
   */
  lemma {:induction false} SmoothAllLabels(p: Pair, hands: seq<HandFrame>)
    requires StoredOk(p.left) && StoredOk(p.right) && FrameOk(hands)
    ensures Seen(hands, Left) ==> IsHand(SmoothAll(p, hands).left)
    ensures Seen(hands, Right) ==> IsHand(SmoothAll(p, hands).right)
    ensures !Seen(hands, Left) ==> SmoothAll(p, hands).left == p.left
    ensures !Seen(hands, Right) ==> SmoothAll(p, hands).right == p.right
  {
    if hands != [] {
      var init := hands[..|hands| - 1];
      var last := hands[|hands| - 1];
      SmoothAllLabels(p, init);
      forall side: Label
        ensures Seen(hands, side) <==> Seen(init, side) || last.side == side
      {
        if Seen(hands, side) {
          var j :| 0 <= j < |hands| && hands[j].side == side;
          if j < |hands| - 1 { assert init[j] == hands[j]; }
        }
        if Seen(init, side) {
          var j :| 0 <= j < |init| && init[j].side == side;
          assert hands[j] == init[j];
        }
      }
    }
  }

  /**
   * The smoothed landmarks of both labels, one mutable array per side,
   * persisting across callbacks.
   */
  class Smoother {
    var left: seq<Point>
    var right: seq<Point>

    ghost predicate Valid()
      reads this
    {
      StoredOk(left) && StoredOk(right)
    }

    function Contents(): Pair
      reads this
    {
      Pair(left, right)
    }

    constructor ()
      ensures Valid() && left == [] && right == []
    {
      left := [];
      right := [];
    }

    /** The smoothing half of drawing one hand. */
    method Smooth(side: Label, raw: seq<Point>)
      requires Valid() && IsHand(raw)
      modifies this
      ensures Valid()
      ensures Contents() == SmoothOne(old(Contents()), HandFrame(side, raw))
    {
      var stored := if side == Left then left else right;
      if stored == [] {
        stored := raw;
      } else {
        for i := 0 to |raw|
          invariant |stored| == LANDMARKS
          invariant forall k :: 0 <= k < i ==> stored[k] == Blend(old(if side == Left then left else right)[k], raw[k])
          invariant forall k :: i <= k < LANDMARKS ==> stored[k] == old(if side == Left then left else right)[k]
        {
          stored := stored[i := Blend(stored[i], raw[i])];
        }
      }
      if side == Left { left := stored; } else { right := stored; }
    }

    /**
     * Smooths every hand of a callback in report order and says which
     * labels were reported.
     */
    method SmoothHands(hands: seq<HandFrame>) returns (hasLeft: bool, hasRight: bool)
      requires Valid() && FrameOk(hands)
      modifies this
      ensures Valid()
      ensures Contents() == SmoothAll(old(Contents()), hands)
      ensures hasLeft == Seen(hands, Left) && hasRight == Seen(hands, Right)
    {
      hasLeft, hasRight := false, false;
      for i := 0 to |hands|
        invariant Valid()
        invariant Contents() == SmoothAll(old(Contents()), hands[..i])
        invariant hasLeft == Seen(hands[..i], Left) && hasRight == Seen(hands[..i], Right)
      {
        var h := hands[i];
        assert hands[..i + 1][..i] == hands[..i];
        Smooth(h.side, h.landmarks);
        if h.side == Left { hasLeft := true; }
        if h.side == Right { hasRight := true; }
        assert forall side: Label :: Seen(hands[..i + 1], side) <==> Seen(hands[..i], side) || h.side == side by {
          forall side: Label ensures Seen(hands[..i + 1], side) <==> Seen(hands[..i], side) || h.side == side {
            if Seen(hands[..i + 1], side) {
              var j :| 0 <= j < i + 1 && hands[..i + 1][j].side == side;
              if j < i { assert hands[..i][j] == hands[..i + 1][j]; }
            }
            if Seen(hands[..i], side) {
              var j :| 0 <= j < i && hands[..i][j].side == side;
              assert hands[..i + 1][j] == hands[..i][j];
            }
          }
        }
      }
      assert hands[..|hands|] == hands;
    }
  }
}
