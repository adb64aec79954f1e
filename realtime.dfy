/** The web stream (`generate_frames`): every camera frame is annotated in the
    fixed colour, encoded as a JPEG and emitted as one multipart part, until
    the first failed read. */
module RealTime {
  import opened Wrappers
  import opened Landmarks
  import opened Labels
  import opened Features
  import opened Drawing
  import opened Skeleton
  import opened Reticle
  import opened Theme
  import opened Pipeline
  import opened Multipart

  /** The one colour of the stream's skeleton wrists, reticle and caption (BGR). */
  const MarkColor: Color := Bgr(200, 180, 255)

  /** `predicted_character` at the end of a tick: the sign, or None when no hand
      was detected or the prediction raised. */
  function StreamLabel(v: Verdict): Option<string>
  {
    match v
    case Recognized(sign) => Some(sign)
    case _ => None
  }

  /** The annotated frame handed to the encoder. */
  function Annotated(image: Image, detect: Detector, predict: Classifier): Snapshot
  {
    Snapshot(image, Overlay(detect(image), image.width, image.height, MarkColor, MarkColor, predict, true))
  }

  /** One pass of the `while True` body after a successful read. */
  method AnnotateFrame(frame: Frame, detect: Detector, predict: Classifier) returns (predicted: Option<string>)
    modifies frame
    ensures predicted == StreamLabel(Classify(detect(frame.image), predict))
    ensures frame.overlay == old(frame.overlay)
              + Overlay(detect(frame.image), frame.image.width, frame.image.height, MarkColor, MarkColor, predict, true)
  {
    var hands := detect(frame.image);
    var verdict := RecognizeHands(frame, hands, MarkColor, MarkColor, predict, true);
    predicted := StreamLabel(verdict);
  }

  /** `predicted_character` stays None exactly when no hand was detected or the
      prediction raised; otherwise it is the label of the predicted index. */
  lemma StreamLabelNoneIff(hands: seq<Hand>, predict: Classifier)
    ensures StreamLabel(Classify(hands, predict)).None? <==> (hands == [] || predict(FeatureVector(hands)).None?)
    ensures hands != [] && predict(FeatureVector(hands)).Some? ==>
      StreamLabel(Classify(hands, predict)) == Some(LabelOf(predict(FeatureVector(hands)).value))
  {
  }

  /** How many reads succeed before the first failure. */
  function ReadsBeforeFailure(captures: seq<Option<Image>>): (n: nat)
    ensures n <= |captures|
    ensures forall t :: 0 <= t < n ==> captures[t].Some?
    ensures n < |captures| ==> captures[n].None?
  {
    if captures == [] || captures[0].None? then 0
    else 1 + ReadsBeforeFailure(captures[1..])
  }

  /** The chunk yielded for a frame read as `image`. */
  function Chunk(image: Image, detect: Detector, predict: Classifier, encode: Snapshot -> seq<Byte>): seq<Byte>
  {
    Part(encode(Annotated(image, detect, predict)))
  }

  /** `generate_frames` over the camera's successive reads: one chunk per frame
      read before the first failure, which ends the stream. `encode` stands for
      `cv2.imencode('.jpg', frame)`. */
  method GenerateFrames(captures: seq<Option<Image>>, detect: Detector, predict: Classifier,
                        encode: Snapshot -> seq<Byte>) returns (chunks: seq<seq<Byte>>)
    ensures |chunks| == ReadsBeforeFailure(captures)
    ensures forall t :: 0 <= t < |chunks| ==>
      captures[t].Some? && chunks[t] == Chunk(captures[t].value, detect, predict, encode)
  {
    ghost var n := ReadsBeforeFailure(captures);
    chunks := [];
    var t := 0;
    while t < |captures|
      invariant t <= n
      invariant |chunks| == t
      invariant forall u :: 0 <= u < t ==>
        captures[u].Some? && chunks[u] == Chunk(captures[u].value, detect, predict, encode)
    {
      var capture := captures[t];
      if capture.None? {
        assert n <= t;
        break;
      }
      var chunk := EmitFrame(capture.value, detect, predict, encode);
      chunks := chunks + [chunk];
      t := t + 1;
    }
  }

  /** From a read image to the chunk it yields: annotate, encode, frame as a part. */
  method EmitFrame(image: Image, detect: Detector, predict: Classifier, encode: Snapshot -> seq<Byte>)
      returns (chunk: seq<Byte>)
    ensures chunk == Chunk(image, detect, predict, encode)
  {
    var frame := new Frame(image);
    var predicted := AnnotateFrame(frame, detect, predict);
    ghost var overlay := Overlay(detect(image), image.width, image.height, MarkColor, MarkColor, predict, true);
    assert frame.overlay == [] + overlay;
    assert [] + overlay == overlay;
    var snapshot := frame.Snap();
    assert snapshot == Snapshot(image, overlay);
    var jpeg := encode(snapshot);
    chunk := Part(jpeg);
  }

  /** The stream draws what the desktop window draws in dark mode, plus the
      caption after a recognition. */
  lemma StreamIsDarkWindowWithCaption(hands: seq<Hand>, w: nat, h: nat, predict: Classifier)
    ensures MarkColor == PaletteFor(true).landmarkColor
    ensures var dark := PaletteFor(true).landmarkColor;
      Overlay(hands, w, h, MarkColor, MarkColor, predict, true)
        == Overlay(hands, w, h, dark, dark, predict, false)
           + (if Classify(hands, predict).Recognized?
              then Captions(HandBox(hands, w, h), Classify(hands, predict).sign, MarkColor, true)
              else [])
  {
    if hands != [] && predict(FeatureVector(hands)).Some? {
      var skel := SkeletonsPlan(hands, MarkColor, w, h);
      var ret := ReticlePlan(HandBox(hands, w, h), MarkColor);
      var cap := Captions(HandBox(hands, w, h), Classify(hands, predict).sign, MarkColor, true);
      assert Overlay(hands, w, h, MarkColor, MarkColor, predict, false) == skel + (ret + []);
      assert ret + [] == ret;
      assert skel + (ret + cap) == (skel + ret) + cap;
    } else {
      assert Overlay(hands, w, h, MarkColor, MarkColor, predict, true) + [] == Overlay(hands, w, h, MarkColor, MarkColor, predict, true);
    }
  }
}
