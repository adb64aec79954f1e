/** The per-frame recognition step shared by the desktop window and the web
    stream: draw each detected hand's skeleton, build the feature vector, ask
    the classifier and, when it answers, draw the box around the hands. */
module Pipeline {
  import opened Wrappers
  import opened Landmarks
  import opened Labels
  import opened Features
  import opened Drawing
  import opened Skeleton
  import opened Reticle

  /** The trained model's `predict`, followed by `int(prediction[0])`; None when
      it raises (for instance on a vector of a width it was not trained on). */
  type Classifier = seq<real> -> Option<int>

  /** The hand detector: the landmarks of every hand found in an image. */
  type Detector = Image -> seq<Hand>

  /** What one frame's recognition step concluded. */
  datatype Verdict = NoHand | Unclassified | Recognized(sign: string)

  const CaptionScale: real := 1.3
  const CaptionThickness: int := 3
  /** How far above the box's top edge the caption's baseline sits. */
  const CaptionOffset: int := 10

  function Classify(hands: seq<Hand>, predict: Classifier): Verdict
  {
    if hands == [] then NoHand
    else
      match predict(FeatureVector(hands))
      case None => Unclassified
      case Some(k) => Recognized(LabelOf(k))
  }

  /** The box over all landmarks of all hands in a w-by-h frame. */
  function HandBox(hands: seq<Hand>, w: nat, h: nat): Box
    requires hands != []
  {
    BoxAround(Coords(hands, X), Coords(hands, Y), w, h)
  }

  /** The label written above the box by the web stream, when `captioned`. */
  function Captions(b: Box, sign: string, color: Color, captioned: bool): seq<DrawCmd>
  {
    if captioned then [Text(sign, Pixel(b.x1, b.y1 - CaptionOffset), CaptionScale, color, CaptionThickness)] else []
  }

  /** Everything drawn over a w-by-h frame in which `hands` were detected: the
      skeletons, then (only if the classifier answered) the reticle and, when
      `captioned`, the label. */
  function Overlay(hands: seq<Hand>, w: nat, h: nat, wristColor: Color, boxColor: Color,
                   predict: Classifier, captioned: bool): seq<DrawCmd>
  {
    if hands == [] then []
    else
      SkeletonsPlan(hands, wristColor, w, h) +
        match predict(FeatureVector(hands))
        case None => []
        case Some(k) =>
          ReticlePlan(HandBox(hands, w, h), boxColor) + Captions(HandBox(hands, w, h), LabelOf(k), boxColor, captioned)
  }

  /** A rectangle is drawn exactly when a sign was recognised; with no hand
      nothing is drawn, and when the classifier fails only the skeletons are. */
  lemma BoxIffRecognized(hands: seq<Hand>, w: nat, h: nat, wristColor: Color, boxColor: Color,
                         predict: Classifier, captioned: bool)
    ensures (exists c :: c in Overlay(hands, w, h, wristColor, boxColor, predict, captioned) && c.Rectangle?)
              <==> Classify(hands, predict).Recognized?
    ensures Classify(hands, predict) == NoHand <==> Overlay(hands, w, h, wristColor, boxColor, predict, captioned) == []
    ensures Classify(hands, predict) == Unclassified ==>
              Overlay(hands, w, h, wristColor, boxColor, predict, captioned) == SkeletonsPlan(hands, wristColor, w, h)
  {
    var overlay := Overlay(hands, w, h, wristColor, boxColor, predict, captioned);
    SkeletonsOnlyMarkersAndBones(hands, wristColor, w, h);
    if hands != [] {
      var skel := SkeletonsPlan(hands, wristColor, w, h);
      assert |skel| > 0;
      assert overlay[0] == skel[0];
      match predict(FeatureVector(hands))
      case None =>
        assert overlay == skel;
      case Some(k) =>
        var b := HandBox(hands, w, h);
        ReticleShape(b, boxColor);
        assert overlay[|skel|] == ReticlePlan(b, boxColor)[0];
    }
  }

  /** Every landmark's pixel lies inside the box, at least Margin pixels from each
      side, and some landmark touches each of those inner bounds. */
  lemma BoxEnclosesSkeleton(hands: seq<Hand>, w: nat, h: nat)
    requires hands != []
    ensures forall k, i :: 0 <= k < |hands| && 0 <= i < NumLandmarks ==>
      var b, p := HandBox(hands, w, h), PixelOf(hands[k][i], w, h);
      b.x1 + Margin <= p.x <= b.x2 - Margin && b.y1 + Margin <= p.y <= b.y2 - Margin
    ensures exists k, i :: (0 <= k < |hands| && 0 <= i < NumLandmarks &&
      PixelOf(hands[k][i], w, h).x == HandBox(hands, w, h).x1 + Margin)
    ensures exists k, i :: (0 <= k < |hands| && 0 <= i < NumLandmarks &&
      PixelOf(hands[k][i], w, h).y == HandBox(hands, w, h).y1 + Margin)
  {
    AxisBounds(hands, X, w);
    AxisBounds(hands, Y, h);
    var kx, ix :| 0 <= kx < |hands| && 0 <= ix < NumLandmarks
      && Scaled(Coord(hands[kx][ix], X), w) == Scaled(Min(Coords(hands, X)), w);
    assert PixelOf(hands[kx][ix], w, h).x == HandBox(hands, w, h).x1 + Margin;
    var ky, iy :| 0 <= ky < |hands| && 0 <= iy < NumLandmarks
      && Scaled(Coord(hands[ky][iy], Y), h) == Scaled(Min(Coords(hands, Y)), h);
    assert PixelOf(hands[ky][iy], w, h).y == HandBox(hands, w, h).y1 + Margin;
  }

  /** On one axis, every landmark's scaled coordinate lies between the scaled
      extremes of the running list, and some landmark attains the lower one. */
  lemma AxisBounds(hands: seq<Hand>, axis: Axis, n: nat)
    requires hands != []
    ensures forall k, i :: 0 <= k < |hands| && 0 <= i < NumLandmarks ==>
      Scaled(Min(Coords(hands, axis)), n) <= Scaled(Coord(hands[k][i], axis), n) <= Scaled(Max(Coords(hands, axis)), n)
    ensures exists k, i :: (0 <= k < |hands| && 0 <= i < NumLandmarks &&
      Scaled(Coord(hands[k][i], axis), n) == Scaled(Min(Coords(hands, axis)), n))
  {
    var lo, hi := Min(Coords(hands, axis)), Max(Coords(hands, axis));
    CoordsBounds(hands, axis);
    forall k, i | 0 <= k < |hands| && 0 <= i < NumLandmarks
      ensures Scaled(lo, n) <= Scaled(Coord(hands[k][i], axis), n) <= Scaled(hi, n)
    {
      ScaledMonotone(lo, Coord(hands[k][i], axis), n);
      ScaledMonotone(Coord(hands[k][i], axis), hi, n);
    }
    var k, i :| 0 <= k < |hands| && 0 <= i < NumLandmarks && Coord(hands[k][i], axis) == lo;
    assert Scaled(Coord(hands[k][i], axis), n) == Scaled(lo, n);
  }

  /** The running list's extremes bound every landmark, and the minimum is a landmark. */
  lemma CoordsBounds(hands: seq<Hand>, axis: Axis)
    requires hands != []
    ensures forall k, i :: 0 <= k < |hands| && 0 <= i < NumLandmarks ==>
      Min(Coords(hands, axis)) <= Coord(hands[k][i], axis) <= Max(Coords(hands, axis))
    ensures exists k, i :: (0 <= k < |hands| && 0 <= i < NumLandmarks &&
      Coord(hands[k][i], axis) == Min(Coords(hands, axis)))
  {
    var s := Coords(hands, axis);
    MinIsLeast(s);
    MaxIsGreatest(s);
    forall k, i | 0 <= k < |hands| && 0 <= i < NumLandmarks
      ensures Min(s) <= Coord(hands[k][i], axis) <= Max(s)
    {
      CoordsAt(hands, axis, k, i);
    }
    var a :| 0 <= a < |s| && s[a] == Min(s);
    var k, i := SplitIndex(a, |hands|);
    CoordsAt(hands, axis, k, i);
  }


  /** The caption starts at the box's left edge, CaptionOffset above its top
      edge, so its baseline is Margin + CaptionOffset pixels above the highest
      landmark. */
  lemma CaptionAboveHands(hands: seq<Hand>, w: nat, h: nat, sign: string, color: Color)
    requires hands != []
    ensures |Captions(HandBox(hands, w, h), sign, color, true)| == 1
    ensures var c := Captions(HandBox(hands, w, h), sign, color, true)[0];
      && c.Text? && c.text == sign && c.origin.x == HandBox(hands, w, h).x1
      && c.origin.y == HandBox(hands, w, h).y1 - CaptionOffset
      && forall j, i :: 0 <= j < |hands| && 0 <= i < NumLandmarks ==>
           c.origin.y + Margin + CaptionOffset <= PixelOf(hands[j][i], w, h).y
  {
    BoxEnclosesSkeleton(hands, w, h);
  }

  /** The vector has 42 entries per hand, so a classifier that only accepts the
      one-hand width it was trained on never answers for two or more hands. */
  ghost predicate AcceptsOnlyWidth(predict: Classifier, width: nat)
  {
    forall v :: |v| != width ==> predict(v) == None
  }

  lemma MoreHandsUnclassified(hands: seq<Hand>, predict: Classifier)
    requires AcceptsOnlyWidth(predict, 2 * NumLandmarks)
    requires |hands| >= 2
    ensures Classify(hands, predict) == Unclassified
  {
    assert |FeatureVector(hands)| == 42 * |hands|;
  }

  /** The body of a tick once hands were looked for: the hand loop, the
      prediction and, when it succeeds, the reticle and (when `captioned`) the
      label above it; a failed prediction is caught and draws nothing more. */
  method RecognizeHands(frame: Frame, hands: seq<Hand>, wristColor: Color, boxColor: Color,
                        predict: Classifier, captioned: bool) returns (verdict: Verdict)
    modifies frame
    ensures verdict == Classify(hands, predict)
    ensures frame.overlay == old(frame.overlay)
              + Overlay(hands, frame.image.width, frame.image.height, wristColor, boxColor, predict, captioned)
  {
    var w, h := frame.image.width, frame.image.height;
    if |hands| == 0 {
      assert frame.overlay == old(frame.overlay) + [];
      return NoHand;
    }
    var data, xs, ys := ProcessHands(frame, hands, wristColor);
    ghost var skeletons := SkeletonsPlan(hands, wristColor, w, h);
    assert frame.overlay == old(frame.overlay) + skeletons;
    match predict(data)
    case None =>
      verdict := Unclassified;
      assert frame.overlay == old(frame.overlay) + Overlay(hands, w, h, wristColor, boxColor, predict, captioned);
    case Some(k) =>
      verdict := Recognized(LabelOf(k));
      var box := BoxAround(xs, ys, w, h);
      assert box == HandBox(hands, w, h);
      DrawRecognition(frame, box, LabelOf(k), boxColor, captioned);
      AppendAssoc(old(frame.overlay), skeletons, ReticlePlan(box, boxColor));
      AppendAssoc(old(frame.overlay), skeletons + ReticlePlan(box, boxColor), Captions(box, LabelOf(k), boxColor, captioned));
      AppendAssoc(skeletons, ReticlePlan(box, boxColor), Captions(box, LabelOf(k), boxColor, captioned));
  }

  /** The rest of the `try` block once the classifier answered `sign`: the box,
      its corner accents and, when `captioned`, the sign above it. */
  method DrawRecognition(frame: Frame, box: Box, sign: string, boxColor: Color, captioned: bool)
    modifies frame
    ensures frame.overlay == old(frame.overlay) + ReticlePlan(box, boxColor) + Captions(box, sign, boxColor, captioned)
  {
    DrawReticle(frame, box, boxColor);
    if captioned {
      frame.PutText(sign, Pixel(box.x1, box.y1 - CaptionOffset), CaptionScale, boxColor, CaptionThickness);
    } else {
      assert frame.overlay == old(frame.overlay) + ReticlePlan(box, boxColor) + [];
    }
  }

  /** The loop over the detected hands: draw each skeleton, append its
      coordinates to `x_`/`y_`, then its offsets from the current minima to `data_aux`. */
  method ProcessHands(frame: Frame, hands: seq<Hand>, wristColor: Color)
      returns (data: seq<real>, xs: seq<real>, ys: seq<real>)
    modifies frame
    ensures data == FeatureVector(hands) && xs == Coords(hands, X) && ys == Coords(hands, Y)
    ensures frame.overlay == old(frame.overlay) + SkeletonsPlan(hands, wristColor, frame.image.width, frame.image.height)
  {
    ghost var w, h := frame.image.width, frame.image.height;
    data, xs, ys := [], [], [];
    for k := 0 to |hands|
      invariant data == FeatureVector(hands[..k])
      invariant xs == Coords(hands[..k], X) && ys == Coords(hands[..k], Y)
      invariant frame.overlay == old(frame.overlay) + SkeletonsPlan(hands[..k], wristColor, w, h)
    {
      var hand := hands[k];
      HandStep(hands, k, wristColor, w, h);
      DrawColoredLandmarks(frame, hand, wristColor);
      AppendAssoc(old(frame.overlay), SkeletonsPlan(hands[..k], wristColor, w, h), SkeletonPlan(HandPixels(hand, w, h), wristColor));
      xs, ys := AppendCoords(xs, ys, hand);
      data := AppendOffsets(data, hand, Min(xs), Min(ys));
    }
    assert hands[..|hands|] == hands;
  }

  /** The first inner loop: one hand's landmark coordinates appended to `x_` and `y_`. */
  method AppendCoords(xs: seq<real>, ys: seq<real>, hand: Hand) returns (xs': seq<real>, ys': seq<real>)
    ensures xs' == xs + HandCoords(hand, X) && ys' == ys + HandCoords(hand, Y)
  {
    xs', ys' := xs, ys;
    for i := 0 to |hand|
      invariant xs' == xs + HandCoords(hand[..i], X)
      invariant ys' == ys + HandCoords(hand[..i], Y)
    {
      HandCoordsStep(hand, i, xs, ys);
      xs' := xs' + [hand[i].x];
      ys' := ys' + [hand[i].y];
    }
    assert hand[..|hand|] == hand;
  }

  /** The second inner loop: one hand's offsets from (ox, oy) appended to
      `data_aux`. The source re-evaluates `min(x_)` and `min(y_)` on every
      iteration; the lists do not change inside this loop, so the caller passes
      them once. */
  method AppendOffsets(data: seq<real>, hand: Hand, ox: real, oy: real) returns (data': seq<real>)
    ensures data' == data + Offsets(hand, ox, oy)
  {
    data' := data;
    for i := 0 to |hand|
      invariant data' == data + Offsets(hand[..i], ox, oy)
    {
      OffsetsStep(hand, i, ox, oy, data);
      data' := data' + [hand[i].x - ox, hand[i].y - oy];
    }
    assert hand[..|hand|] == hand;
  }

  /** How the running lists, the vector and the plan grow by hand k. */
  lemma HandStep(hands: seq<Hand>, k: nat, wristColor: Color, w: nat, h: nat)
    requires k < |hands|
    ensures Coords(hands[..k + 1], X) == Coords(hands[..k], X) + HandCoords(hands[k], X)
    ensures Coords(hands[..k + 1], Y) == Coords(hands[..k], Y) + HandCoords(hands[k], Y)
    ensures FeatureVector(hands[..k + 1]) == FeatureVector(hands[..k])
              + Offsets(hands[k], Min(Coords(hands[..k + 1], X)), Min(Coords(hands[..k + 1], Y)))
    ensures SkeletonsPlan(hands[..k + 1], wristColor, w, h)
              == SkeletonsPlan(hands[..k], wristColor, w, h) + SkeletonPlan(HandPixels(hands[k], w, h), wristColor)
  {
    var pre := hands[..k + 1];
    assert pre[..k] == hands[..k] && pre[k] == hands[k];
    assert pre[..k + 1] == pre;
  }

  lemma HandCoordsStep(hand: Hand, i: nat, xs: seq<real>, ys: seq<real>)
    requires i < |hand|
    ensures xs + HandCoords(hand[..i + 1], X) == (xs + HandCoords(hand[..i], X)) + [hand[i].x]
    ensures ys + HandCoords(hand[..i + 1], Y) == (ys + HandCoords(hand[..i], Y)) + [hand[i].y]
  {
    assert HandCoords(hand[..i + 1], X) == HandCoords(hand[..i], X) + [hand[i].x];
    assert HandCoords(hand[..i + 1], Y) == HandCoords(hand[..i], Y) + [hand[i].y];
  }

  lemma OffsetsStep(pts: seq<Point>, i: nat, ox: real, oy: real, prev: seq<real>)
    requires i < |pts|
    ensures prev + Offsets(pts[..i + 1], ox, oy) == (prev + Offsets(pts[..i], ox, oy)) + [pts[i].x - ox, pts[i].y - oy]
  {
    assert pts[..i + 1][..i] == pts[..i] && pts[..i + 1][i] == pts[i];
  }
}
