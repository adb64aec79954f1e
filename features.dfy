/** The feature vector handed to the classifier: every landmark's offset from a
    running-minimum origin, x then y, hand after hand. */
module Features {
  import opened Landmarks

  /** Offsets of `pts` from (ox, oy), appended point by point: x offset, then y offset. */
  function Offsets(pts: seq<Point>, ox: real, oy: real): (r: seq<real>)
    ensures |r| == 2 * |pts|
  {
    if pts == [] then []
    else
      var p := pts[|pts| - 1];
      Offsets(pts[..|pts| - 1], ox, oy) + [p.x - ox, p.y - oy]
  }

  /** The origin used for hand k on one axis: `min(x_)` at the time hand k is
      normalised, i.e. the minimum over the landmarks of hands 0..k. */
  function Origin(hands: seq<Hand>, k: nat, axis: Axis): real
    requires k < |hands|
  {
    Min(Coords(hands[..k + 1], axis))
  }

  /** `data_aux` after the per-hand loop has run over `hands`. */
  function FeatureVector(hands: seq<Hand>): (v: seq<real>)
    ensures |v| == 42 * |hands|
  {
    if hands == [] then []
    else
      var n := |hands| - 1;
      FeatureVector(hands[..n]) + Offsets(hands[n], Origin(hands, n, X), Origin(hands, n, Y))
  }

  lemma {:induction false} OffsetsAt(pts: seq<Point>, ox: real, oy: real, i: nat)
    requires i < |pts|
    ensures Offsets(pts, ox, oy)[2 * i] == pts[i].x - ox
    ensures Offsets(pts, ox, oy)[2 * i + 1] == pts[i].y - oy
  {
    var n := |pts| - 1;
    if i < n {
      OffsetsAt(pts[..n], ox, oy, i);
    }
  }

  /** Position 42*k + 2*i holds landmark i of hand k, as an offset from hand k's origin. */
  lemma {:induction false} FeatureVectorAt(hands: seq<Hand>, k: nat, i: nat)
    requires k < |hands| && i < NumLandmarks
    ensures FeatureVector(hands)[42 * k + 2 * i] == hands[k][i].x - Origin(hands, k, X)
    ensures FeatureVector(hands)[42 * k + 2 * i + 1] == hands[k][i].y - Origin(hands, k, Y)
  {
    var n := |hands| - 1;
    var prev := FeatureVector(hands[..n]);
    var last := Offsets(hands[n], Origin(hands, n, X), Origin(hands, n, Y));
    assert FeatureVector(hands) == prev + last;
    var at := 42 * k + 2 * i;
    if k < n {
      FeatureVectorAt(hands[..n], k, i);
      OriginOfPrefix(hands, n, k, X);
      OriginOfPrefix(hands, n, k, Y);
      assert hands[..n][k] == hands[k];
      assert at + 1 < |prev|;
      assert (prev + last)[at] == prev[at] && (prev + last)[at + 1] == prev[at + 1];
    } else {
      OffsetsAt(hands[n], Origin(hands, n, X), Origin(hands, n, Y), i);
      assert at == |prev| + 2 * i;
      assert (prev + last)[at] == last[2 * i] && (prev + last)[at + 1] == last[2 * i + 1];
    }
  }

  /** Dropping later hands does not move an earlier hand's origin. */
  lemma OriginOfPrefix(hands: seq<Hand>, m: nat, k: nat, axis: Axis)
    requires k < m <= |hands|
    ensures Origin(hands[..m], k, axis) == Origin(hands, k, axis)
  {
    assert hands[..m][..k + 1] == hands[..k + 1];
  }

  /** The origin of hand k lies at or below every landmark of hands 0..k. */
  lemma OriginBelow(hands: seq<Hand>, k: nat, j: nat, i: nat, axis: Axis)
    requires j <= k < |hands| && i < NumLandmarks
    ensures Origin(hands, k, axis) <= Coord(hands[j][i], axis)
  {
    MinIsLeast(Coords(hands[..k + 1], axis));
    CoordsAt(hands[..k + 1], axis, j, i);
  }

  /** The origin only moves down from one hand to the next. */
  lemma OriginNonIncreasing(hands: seq<Hand>, j: nat, k: nat, axis: Axis)
    requires j <= k < |hands|
    ensures Origin(hands, k, axis) <= Origin(hands, j, axis)
  {
    var s := Coords(hands[..j + 1], axis);
    MinIsLeast(s);
    var m :| 0 <= m < |s| && s[m] == Origin(hands, j, axis);
    var h, i := SplitIndex(m, j + 1);
    CoordsAt(hands[..j + 1], axis, h, i);
    OriginBelow(hands, k, h, i, axis);
  }

  lemma EntriesNonNegative(hands: seq<Hand>, k: nat, i: nat)
    requires k < |hands| && i < NumLandmarks
    ensures FeatureVector(hands)[42 * k + 2 * i] >= 0.0
    ensures FeatureVector(hands)[42 * k + 2 * i + 1] >= 0.0
  {
    FeatureVectorAt(hands, k, i);
    OriginBelow(hands, k, k, i, X);
    OriginBelow(hands, k, k, i, Y);
  }

  /** Every entry of the feature vector is non-negative. */
  lemma FeatureVectorNonNegative(hands: seq<Hand>)
    ensures forall n :: 0 <= n < |FeatureVector(hands)| ==> FeatureVector(hands)[n] >= 0.0
  {
    forall n | 0 <= n < |FeatureVector(hands)|
      ensures FeatureVector(hands)[n] >= 0.0
    {
      var k, r := n / 42, n % 42;
      var i := r / 2;
      assert n == 42 * k + 2 * i || n == 42 * k + 2 * i + 1;
      EntriesNonNegative(hands, k, i);
    }
  }

  /** One hand: the smallest x offset and the smallest y offset are both exactly 0. */
  lemma SingleHandTouchesZero(hand: Hand)
    ensures exists i :: 0 <= i < NumLandmarks && FeatureVector([hand])[2 * i] == 0.0
    ensures exists i :: 0 <= i < NumLandmarks && FeatureVector([hand])[2 * i + 1] == 0.0
  {
    var a := LowestLandmark(hand, X);
    var b := LowestLandmark(hand, Y);
    FeatureVectorAt([hand], 0, a);
    FeatureVectorAt([hand], 0, b);
    assert FeatureVector([hand])[2 * a] == 0.0;
    assert FeatureVector([hand])[2 * b + 1] == 0.0;
  }

  /** A landmark of a lone hand that sits on that hand's origin. */
  lemma LowestLandmark(hand: Hand, axis: Axis) returns (i: nat)
    ensures i < NumLandmarks && Coord(hand[i], axis) == Origin([hand], 0, axis)
  {
    var hands := [hand];
    assert hands[..1] == hands;
    var s := Coords(hands, axis);
    MinIsLeast(s);
    var a :| 0 <= a < |s| && s[a] == Min(s);
    CoordsAt(hands, axis, 0, a);
    i := a;
  }

  /** The origin of the second hand is not that hand's own minimum: a hand at
      (0.5, 0.5) after a hand at (0, 0) gets offsets 0.5, not 0. */
  lemma OriginIsNotPerHand()
    ensures var h0: Hand := seq(21, _ => Point(0.0, 0.0));
            var h1: Hand := seq(21, _ => Point(0.5, 0.5));
            FeatureVector([h0, h1])[2 * NumLandmarks] == 0.5
  {
    var h0: Hand := seq(21, _ => Point(0.0, 0.0));
    var h1: Hand := seq(21, _ => Point(0.5, 0.5));
    var hands := [h0, h1];
    FeatureVectorAt(hands, 1, 0);
    OriginBelow(hands, 1, 0, 0, X);
    var s := Coords(hands[..2], X);
    MinIsLeast(s);
    var m :| 0 <= m < |s| && s[m] == Origin(hands, 1, X);
    var h, i := SplitIndex(m, 2);
    CoordsAt(hands[..2], X, h, i);
  }

  /** Nor is it the minimum over the whole batch: a hand at (0.5, 0.5) before a
      hand at (0, 0) gets offsets 0, not 0.5. */
  lemma OriginIsNotWholeBatch()
    ensures var h0: Hand := seq(21, _ => Point(0.5, 0.5));
            var h1: Hand := seq(21, _ => Point(0.0, 0.0));
            FeatureVector([h0, h1])[0] == 0.0
            && Min(Coords([h0, h1], X)) == 0.0
  {
    var h0: Hand := seq(21, _ => Point(0.5, 0.5));
    var h1: Hand := seq(21, _ => Point(0.0, 0.0));
    var hands := [h0, h1];
    FeatureVectorAt(hands, 0, 0);
    var s := Coords(hands[..1], X);
    MinIsLeast(s);
    var m :| 0 <= m < |s| && s[m] == Origin(hands, 0, X);
    CoordsAt(hands[..1], X, 0, m);
    CoordsAt(hands, X, 1, 0);
    var t := Coords(hands, X);
    MinIsLeast(t);
    var q :| 0 <= q < |t| && t[q] == Min(t);
    var h, i := SplitIndex(q, 2);
    CoordsAt(hands, X, h, i);
  }
}
