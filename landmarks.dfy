/** Hand landmarks as the hand detector reports them, and the numeric helpers
    (min, max, Python's int() on a float) that the recognition step applies to
    their coordinates. */
module Landmarks {

  /** A landmark in frame-relative coordinates (nominally in 0..1). */
  datatype Point = Point(x: real, y: real)

  /** Landmarks per detected hand: 0 is the wrist, 1..20 the joints of the five fingers. */
  const NumLandmarks: nat := 21

  /** A detected hand: always exactly 21 landmarks (the drawing code indexes 0..20). */
  type Hand = h: seq<Point> | |h| == NumLandmarks witness seq(21, _ => Point(0.0, 0.0))

  datatype Axis = X | Y

  function Coord(p: Point, axis: Axis): real
  {
    match axis
    case X => p.x
    case Y => p.y
  }

  /** The coordinates on one axis of one hand's landmarks, in landmark order. */
  function HandCoords(pts: seq<Point>, axis: Axis): (r: seq<real>)
    ensures |r| == |pts|
  {
    seq(|pts|, i requires 0 <= i < |pts| => Coord(pts[i], axis))
  }

  /** The running list `x_` (or `y_`) after the landmarks of `hands` have been appended. */
  function Coords(hands: seq<Hand>, axis: Axis): (r: seq<real>)
    ensures |r| == 21 * |hands|
  {
    if hands == [] then []
    else Coords(hands[..|hands| - 1], axis) + HandCoords(hands[|hands| - 1], axis)
  }

  /** Landmark i of hand k sits at position 21*k + i of the running list. */
  lemma {:induction false} CoordsAt(hands: seq<Hand>, axis: Axis, k: nat, i: nat)
    requires k < |hands| && i < NumLandmarks
    ensures Coords(hands, axis)[21 * k + i] == Coord(hands[k][i], axis)
  {
    var n := |hands| - 1;
    if k < n {
      CoordsAt(hands[..n], axis, k, i);
    }
  }

  /** A position of the running list as (hand, landmark). */
  lemma SplitIndex(a: nat, count: nat) returns (k: nat, i: nat)
    requires a < 21 * count
    ensures k < count && i < NumLandmarks && a == 21 * k + i
  {
    k, i := a / 21, a % 21;
  }

  /** Python's min over a non-empty list. */
  function Min(s: seq<real>): real
    requires |s| > 0
  {
    if |s| == 1 then s[0]
    else
      var m := Min(s[..|s| - 1]);
      if s[|s| - 1] < m then s[|s| - 1] else m
  }

  /** Python's max over a non-empty list. */
  function Max(s: seq<real>): real
    requires |s| > 0
  {
    if |s| == 1 then s[0]
    else
      var m := Max(s[..|s| - 1]);
      if s[|s| - 1] > m then s[|s| - 1] else m
  }

  /** Min is a lower bound of the list and one of its elements. */
  lemma {:induction false} MinIsLeast(s: seq<real>)
    requires |s| > 0
    ensures forall i :: 0 <= i < |s| ==> Min(s) <= s[i]
    ensures exists i :: 0 <= i < |s| && s[i] == Min(s)
  {
    if |s| > 1 {
      var t := s[..|s| - 1];
      MinIsLeast(t);
      var j :| 0 <= j < |t| && t[j] == Min(t);
      assert forall i :: 0 <= i < |t| ==> s[i] == t[i];
      if s[|s| - 1] < Min(t) {
        assert s[|s| - 1] == Min(s);
      } else {
        assert s[j] == Min(s);
      }
    } else {
      assert s[0] == Min(s);
    }
  }

  /** Max is an upper bound of the list and one of its elements. */
  lemma {:induction false} MaxIsGreatest(s: seq<real>)
    requires |s| > 0
    ensures forall i :: 0 <= i < |s| ==> s[i] <= Max(s)
    ensures exists i :: 0 <= i < |s| && s[i] == Max(s)
  {
    if |s| > 1 {
      var t := s[..|s| - 1];
      MaxIsGreatest(t);
      var j :| 0 <= j < |t| && t[j] == Max(t);
      assert forall i :: 0 <= i < |t| ==> s[i] == t[i];
      if s[|s| - 1] > Max(t) {
        assert s[|s| - 1] == Max(s);
      } else {
        assert s[j] == Max(s);
      }
    } else {
      assert s[0] == Max(s);
    }
  }

  /** Python's int() on a float: truncation toward zero. */
  function Trunc(r: real): (n: int)
    ensures 0.0 <= r ==> 0 <= n && n as real <= r < n as real + 1.0
    ensures r < 0.0 ==> n <= 0 && n as real - 1.0 < r <= n as real
  {
    if r >= 0.0 then r.Floor else -((-r).Floor)
  }

  /** `int(v * n)`: a normalised coordinate scaled to a frame dimension of n pixels. */
  function Scaled(v: real, n: nat): int
  {
    Trunc(v * n as real)
  }

  /** Scaling to pixels preserves order. */
  lemma ScaledMonotone(a: real, b: real, n: nat)
    requires a <= b
    ensures Scaled(a, n) <= Scaled(b, n)
  {
    var p, q := a * n as real, b * n as real;
    assert p <= q by {
      assert q - p == (b - a) * n as real;
    }
  }
}
