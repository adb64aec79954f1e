/** Frames and the OpenCV drawing calls made on them. A frame keeps the captured
    image unchanged and records, in order, every shape drawn over it; the pixels
    those shapes would produce are not modelled. */
module Drawing {
  import opened Landmarks

  /** An OpenCV colour, in BGR channel order. */
  datatype Color = Bgr(b: int, g: int, r: int)

  /** A pixel position (column, row); not clamped to the frame. */
  datatype Pixel = Pixel(x: int, y: int)

  /** One OpenCV drawing call: cv2.circle, cv2.line, cv2.rectangle, cv2.putText. */
  datatype DrawCmd =
    | Circle(center: Pixel, radius: int, color: Color, thickness: int)
    | Line(start: Pixel, end: Pixel, color: Color, thickness: int)
    | Rectangle(corner1: Pixel, corner2: Pixel, color: Color, thickness: int)
    | Text(text: string, origin: Pixel, scale: real, color: Color, thickness: int)

  type Byte = b: int | 0 <= b < 256

  /** A captured camera image: its size and its raw pixel bytes. */
  datatype Image = Image(width: nat, height: nat, pixels: seq<Byte>)

  /** A frame as it is handed on: the captured image and what was drawn over it. */
  datatype Snapshot = Snapshot(image: Image, overlay: seq<DrawCmd>)

  /** `int(pos.x * w), int(pos.y * h)`: a landmark's pixel in a w-by-h frame. */
  function PixelOf(p: Point, w: nat, h: nat): Pixel
  {
    Pixel(Scaled(p.x, w), Scaled(p.y, h))
  }

  /** A landmark inside the unit square lands on a pixel inside the frame (the
      right and bottom edges included). */
  lemma PixelWithinFrame(p: Point, w: nat, h: nat)
    requires 0.0 <= p.x <= 1.0 && 0.0 <= p.y <= 1.0
    ensures 0 <= PixelOf(p, w, h).x <= w && 0 <= PixelOf(p, w, h).y <= h
  {
    ScaledMonotone(0.0, p.x, w);
    ScaledMonotone(p.x, 1.0, w);
    ScaledMonotone(0.0, p.y, h);
    ScaledMonotone(p.y, 1.0, h);
  }

  /** Drawing in two steps appends the same commands as drawing their concatenation. */
  lemma AppendAssoc<T>(a: seq<T>, b: seq<T>, c: seq<T>)
    ensures (a + b) + c == a + (b + c)
  {
  }

  /** A camera frame, annotated in place. */
  class Frame {
    const image: Image
    var overlay: seq<DrawCmd>

    constructor (image: Image)
      ensures this.image == image && overlay == []
    {
      this.image := image;
      overlay := [];
    }

    /** The image with everything drawn over it so far. */
    function Snap(): Snapshot
      reads this
    {
      Snapshot(image, overlay)
    }

    method DrawCircle(center: Pixel, radius: int, color: Color, thickness: int)
      modifies this
      ensures overlay == old(overlay) + [Circle(center, radius, color, thickness)]
    {
      overlay := overlay + [Circle(center, radius, color, thickness)];
    }

    method DrawLine(start: Pixel, end: Pixel, color: Color, thickness: int)
      modifies this
      ensures overlay == old(overlay) + [Line(start, end, color, thickness)]
    {
      overlay := overlay + [Line(start, end, color, thickness)];
    }

    method DrawRectangle(corner1: Pixel, corner2: Pixel, color: Color, thickness: int)
      modifies this
      ensures overlay == old(overlay) + [Rectangle(corner1, corner2, color, thickness)]
    {
      overlay := overlay + [Rectangle(corner1, corner2, color, thickness)];
    }

    method PutText(text: string, origin: Pixel, scale: real, color: Color, thickness: int)
      modifies this
      ensures overlay == old(overlay) + [Text(text, origin, scale, color, thickness)]
    {
      overlay := overlay + [Text(text, origin, scale, color, thickness)];
    }
  }
}
