/** The bounding box drawn around the detected landmarks after a successful
    prediction: a rectangle with a fixed margin and four corner accents. */
module Reticle {
  import opened Landmarks
  import opened Drawing

  /** Corners (x1, y1) top-left and (x2, y2) bottom-right, in pixels. */
  datatype Box = Box(x1: int, y1: int, x2: int, y2: int)

  const Margin: int := 10
  const CornerLength: int := 20
  const BoxThickness: int := 2
  const AccentThickness: int := 3

  /** The box over the running lists `x_`, `y_` in a w-by-h frame: the truncated
      pixel extent widened by Margin on every side, with no clamping to the frame. */
  function BoxAround(xs: seq<real>, ys: seq<real>, w: nat, h: nat): Box
    requires |xs| > 0 && |ys| > 0
  {
    Box(Scaled(Min(xs), w) - Margin, Scaled(Min(ys), h) - Margin,
        Scaled(Max(xs), w) + Margin, Scaled(Max(ys), h) + Margin)
  }

  /** The rectangle, then the accents at (x1, y1) along +x and +y and at (x2, y2)
      along -x and -y. */
  function ReticlePlan(b: Box, color: Color): seq<DrawCmd>
  {
    var c1, c2 := Pixel(b.x1, b.y1), Pixel(b.x2, b.y2);
    [ Rectangle(c1, c2, color, BoxThickness),
      Line(c1, Pixel(b.x1 + CornerLength, b.y1), color, AccentThickness),
      Line(c1, Pixel(b.x1, b.y1 + CornerLength), color, AccentThickness),
      Line(c2, Pixel(b.x2 - CornerLength, b.y2), color, AccentThickness),
      Line(c2, Pixel(b.x2, b.y2 - CornerLength), color, AccentThickness) ]
  }

  /** Every scaled coordinate lies between the scaled extremes, which are
      themselves attained. */
  lemma ScaledWithinExtremes(s: seq<real>, scale: nat)
    requires |s| > 0
    ensures forall i :: 0 <= i < |s| ==> Scaled(Min(s), scale) <= Scaled(s[i], scale) <= Scaled(Max(s), scale)
    ensures exists i :: 0 <= i < |s| && Scaled(s[i], scale) == Scaled(Min(s), scale)
    ensures exists i :: 0 <= i < |s| && Scaled(s[i], scale) == Scaled(Max(s), scale)
  {
    MinIsLeast(s);
    MaxIsGreatest(s);
    forall i | 0 <= i < |s|
      ensures Scaled(Min(s), scale) <= Scaled(s[i], scale) <= Scaled(Max(s), scale)
    {
      ScaledMonotone(Min(s), s[i], scale);
      ScaledMonotone(s[i], Max(s), scale);
    }
    var a :| 0 <= a < |s| && s[a] == Min(s);
    var b :| 0 <= b < |s| && s[b] == Max(s);
    assert Scaled(s[a], scale) == Scaled(Min(s), scale);
    assert Scaled(s[b], scale) == Scaled(Max(s), scale);
  }

  /** The box is at least 2 * Margin = CornerLength pixels wide and high. */
  lemma BoxAtLeastCornerWide(xs: seq<real>, ys: seq<real>, w: nat, h: nat)
    requires |xs| > 0 && |ys| > 0
    ensures BoxAround(xs, ys, w, h).x2 - BoxAround(xs, ys, w, h).x1 >= CornerLength
    ensures BoxAround(xs, ys, w, h).y2 - BoxAround(xs, ys, w, h).y1 >= CornerLength
  {
    ScaledWithinExtremes(xs, w);
    ScaledWithinExtremes(ys, h);
  }

  /** Nothing clamps the box to the frame: a landmark on the left edge puts x1 at -10. */
  lemma BoxNotClamped()
    ensures BoxAround([0.0], [0.5], 640, 480) == Box(-10, 230, 10, 250)
  {
  }

  /** A pixel on the outline of the box. */
  predicate OnOutline(b: Box, p: Pixel)
  {
    || ((p.x == b.x1 || p.x == b.x2) && b.y1 <= p.y <= b.y2)
    || ((p.y == b.y1 || p.y == b.y2) && b.x1 <= p.x <= b.x2)
  }

  /** A stroke of CornerLength pixels from `corner` in the direction (dx, dy). */
  predicate Accent(c: DrawCmd, corner: Pixel, dx: int, dy: int)
  {
    && c.Line?
    && c.start == corner
    && c.end.x - corner.x == dx * CornerLength
    && c.end.y - corner.y == dy * CornerLength
  }

  /** The reticle is one rectangle on the box's corners and four corner accents:
      along +x and +y from the top-left corner, then along -x and -y from the
      bottom-right one. When the box is at least CornerLength wide and high,
      every accent runs along the outline, pointing inward from its corner. */
  lemma ReticleShape(b: Box, color: Color)
    ensures |ReticlePlan(b, color)| == 5
    ensures ReticlePlan(b, color)[0] == Rectangle(Pixel(b.x1, b.y1), Pixel(b.x2, b.y2), color, BoxThickness)
    ensures Accent(ReticlePlan(b, color)[1], Pixel(b.x1, b.y1), 1, 0)
    ensures Accent(ReticlePlan(b, color)[2], Pixel(b.x1, b.y1), 0, 1)
    ensures Accent(ReticlePlan(b, color)[3], Pixel(b.x2, b.y2), -1, 0)
    ensures Accent(ReticlePlan(b, color)[4], Pixel(b.x2, b.y2), 0, -1)
    ensures forall k :: 1 <= k < 5 ==> ReticlePlan(b, color)[k].thickness == AccentThickness
    ensures b.x2 - b.x1 >= CornerLength && b.y2 - b.y1 >= CornerLength ==>
      forall k :: 1 <= k < 5 ==> OnOutline(b, ReticlePlan(b, color)[k].start) && OnOutline(b, ReticlePlan(b, color)[k].end)
  {
  }

  /** The box and accents as drawn by `cv2.rectangle` and four `cv2.line` calls. */
  method DrawReticle(frame: Frame, b: Box, color: Color)
    modifies frame
    ensures frame.overlay == old(frame.overlay) + ReticlePlan(b, color)
  {
    frame.DrawRectangle(Pixel(b.x1, b.y1), Pixel(b.x2, b.y2), color, BoxThickness);
    frame.DrawLine(Pixel(b.x1, b.y1), Pixel(b.x1 + CornerLength, b.y1), color, AccentThickness);
    frame.DrawLine(Pixel(b.x1, b.y1), Pixel(b.x1, b.y1 + CornerLength), color, AccentThickness);
    frame.DrawLine(Pixel(b.x2, b.y2), Pixel(b.x2 - CornerLength, b.y2), color, AccentThickness);
    frame.DrawLine(Pixel(b.x2, b.y2), Pixel(b.x2, b.y2 - CornerLength), color, AccentThickness);
  }
}
