/** `draw_colored_landmarks`: the per-finger coloured skeleton drawn over each
    detected hand. */
module Skeleton {
  import opened Landmarks
  import opened Drawing

  datatype Finger = Thumb | IndexFinger | Middle | Ring | Pinky

  /** The insertion order of the `finger_landmarks` dictionary, which the drawing loop follows. */
  const FingerOrder: seq<Finger> := [Thumb, IndexFinger, Middle, Ring, Pinky]

  /** `finger_colors`, in BGR. */
  function FingerColor(f: Finger): Color
  {
    match f
    case Thumb => Bgr(255, 0, 0)
    case IndexFinger => Bgr(0, 255, 0)
    case Middle => Bgr(0, 0, 255)
    case Ring => Bgr(255, 0, 255)
    case Pinky => Bgr(0, 255, 255)
  }

  type LandmarkIndex = i: nat | i < NumLandmarks

  /** `finger_landmarks`: the four landmark indices of each finger, base to tip. */
  function FingerLandmarks(f: Finger): seq<LandmarkIndex>
  {
    match f
    case Thumb => [1, 2, 3, 4]
    case IndexFinger => [5, 6, 7, 8]
    case Middle => [9, 10, 11, 12]
    case Ring => [13, 14, 15, 16]
    case Pinky => [17, 18, 19, 20]
  }

  const MarkerRadius: int := 5
  const Filled: int := -1
  const BoneThickness: int := 2

  /** The finger a landmark 1..20 belongs to, by arithmetic on its index. */
  function FingerOf(i: int): Finger
    requires 1 <= i <= 20
  {
    FingerOrder[(i - 1) / 4]
  }

  /** `int(pos.x * w), int(pos.y * h)` for every landmark of a hand. */
  function HandPixels(hand: Hand, w: nat, h: nat): seq<Pixel>
  {
    seq(NumLandmarks, i requires 0 <= i < NumLandmarks => PixelOf(hand[i], w, h))
  }

  /** Commands for one joint: a marker at landmark idx and, when idx is
      positive, a bone from landmark idx - 1. */
  function JointPlan(px: seq<Pixel>, idx: LandmarkIndex, color: Color): seq<DrawCmd>
    requires |px| == NumLandmarks
  {
    [Circle(px[idx], MarkerRadius, color, Filled)]
      + (if idx > 0 then [Line(px[idx - 1], px[idx], color, BoneThickness)] else [])
  }

  /** Commands for the joints `idxs` of one finger, one joint after another. */
  function JointsPlan(px: seq<Pixel>, idxs: seq<LandmarkIndex>, color: Color): seq<DrawCmd>
    requires |px| == NumLandmarks
  {
    if idxs == [] then []
    else JointsPlan(px, idxs[..|idxs| - 1], color) + JointPlan(px, idxs[|idxs| - 1], color)
  }

  /** Commands for the fingers `fs`, one after another, each in its own colour. */
  function FingersPlan(px: seq<Pixel>, fs: seq<Finger>): seq<DrawCmd>
    requires |px| == NumLandmarks
  {
    if fs == [] then []
    else
      var f := fs[|fs| - 1];
      FingersPlan(px, fs[..|fs| - 1]) + JointsPlan(px, FingerLandmarks(f), FingerColor(f))
  }

  /** Everything `draw_colored_landmarks` draws for a hand whose landmarks fall
      on the pixels `px`: the wrist marker in the given colour, then the five fingers. */
  function SkeletonPlan(px: seq<Pixel>, wristColor: Color): seq<DrawCmd>
    requires |px| == NumLandmarks
  {
    [Circle(px[0], MarkerRadius, wristColor, Filled)] + FingersPlan(px, FingerOrder)
  }

  /** The skeletons of several hands in a w-by-h frame, drawn one hand after another. */
  function SkeletonsPlan(hands: seq<Hand>, wristColor: Color, w: nat, h: nat): seq<DrawCmd>
  {
    if hands == [] then []
    else
      SkeletonsPlan(hands[..|hands| - 1], wristColor, w, h)
        + SkeletonPlan(HandPixels(hands[|hands| - 1], w, h), wristColor)
  }

  /** The marker for landmark i and the bone that ends at it, both in `color`. */
  predicate JointDrawn(plan: seq<DrawCmd>, at: nat, px: seq<Pixel>, i: nat, color: Color)
  {
    && 1 <= i < |px|
    && at + 1 < |plan|
    && plan[at] == Circle(px[i], MarkerRadius, color, Filled)
    && plan[at + 1] == Line(px[i - 1], px[i], color, BoneThickness)
  }

  lemma {:induction false} JointsPlanAt(px: seq<Pixel>, idxs: seq<LandmarkIndex>, color: Color)
    requires |px| == NumLandmarks
    requires forall j :: 0 <= j < |idxs| ==> 1 <= idxs[j]
    ensures |JointsPlan(px, idxs, color)| == 2 * |idxs|
    ensures forall j :: 0 <= j < |idxs| ==> JointDrawn(JointsPlan(px, idxs, color), 2 * j, px, idxs[j], color)
  {
    if idxs != [] {
      var n := |idxs| - 1;
      JointsPlanAt(px, idxs[..n], color);
      var prev := JointsPlan(px, idxs[..n], color);
      var all := JointsPlan(px, idxs, color);
      forall j | 0 <= j < n
        ensures JointDrawn(all, 2 * j, px, idxs[j], color)
      {
        assert JointDrawn(prev, 2 * j, px, idxs[..n][j], color);
        assert all[2 * j] == prev[2 * j] && all[2 * j + 1] == prev[2 * j + 1];
      }
    }
  }

  /** The fingers of FingerOrder are landmarks 4m+1 .. 4m+4, for m = 0..4. */
  lemma FingerLandmarksAt(m: nat)
    requires m < |FingerOrder|
    ensures FingerLandmarks(FingerOrder[m]) == [4 * m + 1, 4 * m + 2, 4 * m + 3, 4 * m + 4]
    ensures forall i :: 4 * m + 1 <= i <= 4 * m + 4 ==> FingerOf(i) == FingerOrder[m]
  {
  }

  lemma JointDrawnInPrefix(prev: seq<DrawCmd>, tail: seq<DrawCmd>, at: nat, px: seq<Pixel>, i: nat, color: Color)
    requires JointDrawn(prev, at, px, i, color)
    ensures JointDrawn(prev + tail, at, px, i, color)
  {
  }

  lemma JointDrawnAfter(prev: seq<DrawCmd>, tail: seq<DrawCmd>, at: nat, shifted: nat, px: seq<Pixel>, i: nat, color: Color)
    requires JointDrawn(tail, at, px, i, color) && shifted == |prev| + at
    ensures JointDrawn(prev + tail, shifted, px, i, color)
  {
  }

  lemma FingersPlanStep(px: seq<Pixel>, m: nat)
    requires |px| == NumLandmarks && m < |FingerOrder|
    ensures FingersPlan(px, FingerOrder[..m + 1])
         == FingersPlan(px, FingerOrder[..m])
            + JointsPlan(px, FingerLandmarks(FingerOrder[m]), FingerColor(FingerOrder[m]))
  {
    assert FingerOrder[..m + 1][..m] == FingerOrder[..m];
  }

  /** Drawing finger m leaves the commands of the earlier fingers in place. */
  lemma FingersPlanKeepsJoint(px: seq<Pixel>, m: nat, at: nat, i: nat, color: Color)
    requires |px| == NumLandmarks && m < |FingerOrder|
    requires JointDrawn(FingersPlan(px, FingerOrder[..m]), at, px, i, color)
    ensures JointDrawn(FingersPlan(px, FingerOrder[..m + 1]), at, px, i, color)
  {
    FingersPlanStep(px, m);
    var tail := JointsPlan(px, FingerLandmarks(FingerOrder[m]), FingerColor(FingerOrder[m]));
    JointDrawnInPrefix(FingersPlan(px, FingerOrder[..m]), tail, at, px, i, color);
  }

  /** Finger m draws landmarks 4m+1 .. 4m+4 in its own colour. */
  lemma FingerJointsAt(px: seq<Pixel>, m: nat)
    requires |px| == NumLandmarks && m < |FingerOrder|
    ensures |JointsPlan(px, FingerLandmarks(FingerOrder[m]), FingerColor(FingerOrder[m]))| == 8
    ensures forall i :: 4 * m + 1 <= i <= 4 * m + 4 ==>
      JointDrawn(JointsPlan(px, FingerLandmarks(FingerOrder[m]), FingerColor(FingerOrder[m])),
                 2 * (i - 4 * m - 1), px, i, FingerColor(FingerOf(i)))
  {
    FingerLandmarksAt(m);
    var f := FingerOrder[m];
    var idxs := FingerLandmarks(f);
    JointsPlanAt(px, idxs, FingerColor(f));
    forall i | 4 * m + 1 <= i <= 4 * m + 4
      ensures JointDrawn(JointsPlan(px, idxs, FingerColor(f)), 2 * (i - 4 * m - 1), px, i, FingerColor(FingerOf(i)))
    {
      var j := i - 4 * m - 1;
      assert idxs[j] == i;
    }
  }

  /** Landmark i of finger m, drawn at 2(i - 4m - 1) within that finger's commands. */
  lemma FingerJointAt(px: seq<Pixel>, m: nat, i: nat)
    requires |px| == NumLandmarks && m < |FingerOrder| && 4 * m + 1 <= i <= 4 * m + 4
    ensures |JointsPlan(px, FingerLandmarks(FingerOrder[m]), FingerColor(FingerOrder[m]))| == 8
    ensures JointDrawn(JointsPlan(px, FingerLandmarks(FingerOrder[m]), FingerColor(FingerOrder[m])),
                       2 * (i - 4 * m - 1), px, i, FingerColor(FingerOf(i)))
  {
    FingerJointsAt(px, m);
  }

  /** The first n fingers draw eight commands each. */
  lemma {:induction false} FingersPlanLength(px: seq<Pixel>, n: nat)
    requires |px| == NumLandmarks && n <= |FingerOrder|
    ensures |FingersPlan(px, FingerOrder[..n])| == 8 * n
  {
    if n > 0 {
      FingersPlanLength(px, n - 1);
      FingersPlanStep(px, n - 1);
      FingerJointsAt(px, n - 1);
    }
  }

  /** Among the first n fingers, landmark i (1 <= i <= 4n) is drawn at 2i-2. */
  lemma {:induction false} FingerJointDrawn(px: seq<Pixel>, n: nat, i: nat)
    requires |px| == NumLandmarks && n <= |FingerOrder| && 1 <= i <= 4 * n
    ensures JointDrawn(FingersPlan(px, FingerOrder[..n]), 2 * i - 2, px, i, FingerColor(FingerOf(i)))
    decreases n, 1
  {
    if i <= 4 * (n - 1) {
      EarlierFingerJoint(px, n - 1, i);
    } else {
      LastFingerJoint(px, n - 1, i);
    }
  }

  /** Adding finger m keeps the joints of the earlier fingers where they were. */
  lemma {:induction false} EarlierFingerJoint(px: seq<Pixel>, m: nat, i: nat)
    requires |px| == NumLandmarks && m < |FingerOrder| && 1 <= i <= 4 * m
    ensures JointDrawn(FingersPlan(px, FingerOrder[..m + 1]), 2 * i - 2, px, i, FingerColor(FingerOf(i)))
    decreases m + 1, 0
  {
    FingerJointDrawn(px, m, i);
    FingersPlanKeepsJoint(px, m, 2 * i - 2, i, FingerColor(FingerOf(i)));
  }

  /** Finger m's own joints follow the 8m commands of the fingers before it. */
  lemma LastFingerJoint(px: seq<Pixel>, m: nat, i: nat)
    requires |px| == NumLandmarks && m < |FingerOrder| && 4 * m + 1 <= i <= 4 * m + 4
    ensures JointDrawn(FingersPlan(px, FingerOrder[..m + 1]), 2 * i - 2, px, i, FingerColor(FingerOf(i)))
  {
    FingersPlanStep(px, m);
    FingersPlanLength(px, m);
    FingerJointAt(px, m, i);
    var prev := FingersPlan(px, FingerOrder[..m]);
    var tail := JointsPlan(px, FingerLandmarks(FingerOrder[m]), FingerColor(FingerOrder[m]));
    JointDrawnAfter(prev, tail, 2 * (i - 4 * m - 1), 2 * i - 2, px, i, FingerColor(FingerOf(i)));
  }

  /** The first n fingers draw landmarks 1..4n in order, each in its finger's colour. */
  lemma FingersPlanAt(px: seq<Pixel>, n: nat)
    requires |px| == NumLandmarks && n <= |FingerOrder|
    ensures |FingersPlan(px, FingerOrder[..n])| == 8 * n
    ensures forall i :: 1 <= i <= 4 * n ==>
      JointDrawn(FingersPlan(px, FingerOrder[..n]), 2 * i - 2, px, i, FingerColor(FingerOf(i)))
  {
    FingersPlanLength(px, n);
    forall i | 1 <= i <= 4 * n
      ensures JointDrawn(FingersPlan(px, FingerOrder[..n]), 2 * i - 2, px, i, FingerColor(FingerOf(i)))
    {
      FingerJointDrawn(px, n, i);
    }
  }

  /** A skeleton is 41 commands: the wrist marker in the given colour, then for
      every landmark i in 1..20 its marker and the bone from landmark i-1, both in
      the colour of i's finger (so the bones include 4-5, 8-9, 12-13 and 16-17). */
  lemma SkeletonPlanAt(px: seq<Pixel>, wristColor: Color)
    requires |px| == NumLandmarks
    ensures |SkeletonPlan(px, wristColor)| == 2 * NumLandmarks - 1
    ensures SkeletonPlan(px, wristColor)[0] == Circle(px[0], MarkerRadius, wristColor, Filled)
    ensures forall i :: 1 <= i < NumLandmarks ==>
      JointDrawn(SkeletonPlan(px, wristColor), 2 * i - 1, px, i, FingerColor(FingerOf(i)))
  {
    FingersPlanAt(px, 5);
    assert FingerOrder[..5] == FingerOrder;
    var fingers := FingersPlan(px, FingerOrder);
    forall i | 1 <= i < NumLandmarks
      ensures JointDrawn([Circle(px[0], MarkerRadius, wristColor, Filled)] + fingers, 2 * i - 1, px, i, FingerColor(FingerOf(i)))
    {
      JointDrawnAfter([Circle(px[0], MarkerRadius, wristColor, Filled)], fingers, 2 * i - 2, 2 * i - 1, px, i, FingerColor(FingerOf(i)));
    }
  }

  /** A skeleton draws no rectangle and no text: only markers and bones. */
  lemma SkeletonOnlyMarkersAndBones(px: seq<Pixel>, wristColor: Color)
    requires |px| == NumLandmarks
    ensures forall c :: c in SkeletonPlan(px, wristColor) ==> c.Circle? || c.Line?
  {
    SkeletonPlanAt(px, wristColor);
    var plan := SkeletonPlan(px, wristColor);
    forall n | 0 <= n < |plan|
      ensures plan[n].Circle? || plan[n].Line?
    {
      if n > 0 {
        var i := (n + 1) / 2;
        assert JointDrawn(plan, 2 * i - 1, px, i, FingerColor(FingerOf(i)));
      }
    }
  }

  /** The same holds of the skeletons of any number of hands, which together are
      41 commands per hand. */
  lemma {:induction false} SkeletonsOnlyMarkersAndBones(hands: seq<Hand>, wristColor: Color, w: nat, h: nat)
    ensures |SkeletonsPlan(hands, wristColor, w, h)| == 41 * |hands|
    ensures forall c :: c in SkeletonsPlan(hands, wristColor, w, h) ==> c.Circle? || c.Line?
  {
    if hands != [] {
      var px := HandPixels(hands[|hands| - 1], w, h);
      SkeletonsOnlyMarkersAndBones(hands[..|hands| - 1], wristColor, w, h);
      SkeletonOnlyMarkersAndBones(px, wristColor);
      SkeletonPlanAt(px, wristColor);
    }
  }

  /** Extending the joints drawn by one index adds that joint's commands. */
  lemma JointsPlanStep(px: seq<Pixel>, idxs: seq<LandmarkIndex>, j: nat, color: Color)
    requires |px| == NumLandmarks && j < |idxs|
    ensures JointsPlan(px, idxs[..j + 1], color) == JointsPlan(px, idxs[..j], color) + JointPlan(px, idxs[j], color)
  {
    assert idxs[..j + 1][..j] == idxs[..j];
  }

  /** One joint of a finger: the marker, then the bone when the index is positive. */
  method DrawJoint(frame: Frame, hand: Hand, idx: LandmarkIndex, color: Color)
    modifies frame
    ensures frame.overlay == old(frame.overlay)
              + JointPlan(HandPixels(hand, frame.image.width, frame.image.height), idx, color)
  {
    var w, h := frame.image.width, frame.image.height;
    var pos := PixelOf(hand[idx], w, h);
    frame.DrawCircle(pos, MarkerRadius, color, Filled);
    if idx > 0 {
      var prev := PixelOf(hand[idx - 1], w, h);
      frame.DrawLine(prev, pos, color, BoneThickness);
    }
  }

  /** One finger of `draw_colored_landmarks`: the inner loop over its indices. */
  method DrawFinger(frame: Frame, hand: Hand, indices: seq<LandmarkIndex>, color: Color)
    modifies frame
    ensures frame.overlay == old(frame.overlay)
              + JointsPlan(HandPixels(hand, frame.image.width, frame.image.height), indices, color)
  {
    ghost var px := HandPixels(hand, frame.image.width, frame.image.height);
    for j := 0 to |indices|
      invariant frame.overlay == old(frame.overlay) + JointsPlan(px, indices[..j], color)
    {
      JointsPlanStep(px, indices, j, color);
      DrawJoint(frame, hand, indices[j], color);
      AppendAssoc(old(frame.overlay), JointsPlan(px, indices[..j], color), JointPlan(px, indices[j], color));
    }
    assert indices[..|indices|] == indices;
  }

  /** `draw_colored_landmarks(frame, hand_landmarks, theme_color)`. */
  method DrawColoredLandmarks(frame: Frame, hand: Hand, themeColor: Color)
    modifies frame
    ensures frame.overlay == old(frame.overlay)
              + SkeletonPlan(HandPixels(hand, frame.image.width, frame.image.height), themeColor)
  {
    var w, h := frame.image.width, frame.image.height;
    ghost var px := HandPixels(hand, w, h);
    // the palm loop runs over the wrist alone
    var wristPos := PixelOf(hand[0], w, h);
    assert wristPos == px[0];
    frame.DrawCircle(wristPos, MarkerRadius, themeColor, Filled);
    ghost var wrist := frame.overlay;
    assert wrist == old(frame.overlay) + [Circle(px[0], MarkerRadius, themeColor, Filled)];
    for f := 0 to |FingerOrder|
      invariant frame.overlay == wrist + FingersPlan(px, FingerOrder[..f])
    {
      FingersPlanStep(px, f);
      ghost var before := frame.overlay;
      DrawFinger(frame, hand, FingerLandmarks(FingerOrder[f]), FingerColor(FingerOrder[f]));
      ghost var finger := JointsPlan(px, FingerLandmarks(FingerOrder[f]), FingerColor(FingerOrder[f]));
      assert frame.overlay == before + finger;
      AppendAssoc(wrist, FingersPlan(px, FingerOrder[..f]), finger);
    }
    assert FingerOrder[..|FingerOrder|] == FingerOrder;
    AppendAssoc(old(frame.overlay), [Circle(px[0], MarkerRadius, themeColor, Filled)], FingersPlan(px, FingerOrder));
  }
}
