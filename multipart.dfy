/** The body of the `/video_feed` response: one multipart body part per
    JPEG-encoded frame, delimited by the boundary `frame` (section 5.1.1 of
    RFC 2046). */
module Multipart {
  import opened Wrappers
  import opened Drawing

  const Boundary: string := "frame"

  /** The Content-Type of the streamed response. */
  const Mimetype: string := "multipart/x-mixed-replace; boundary=frame"

  predicate IsAscii(s: string)
  {
    forall i :: 0 <= i < |s| ==> s[i] as int < 128
  }

  /** The bytes of an ASCII string, one per character. */
  function Ascii(s: string): seq<Byte>
    requires IsAscii(s)
  {
    seq(|s|, i requires 0 <= i < |s| => s[i] as int)
  }

  /** The bytes before a part's JPEG: the delimiter line and the part's header. */
  const PartHead: seq<Byte> := Ascii("--frame\r\nContent-Type: image/jpeg\r\n\r\n")

  /** The bytes after a part's JPEG. */
  const PartTail: seq<Byte> := Ascii("\r\n")

  /** One chunk yielded by `generate_frames`. */
  function Part(jpeg: seq<Byte>): seq<Byte>
  {
    PartHead + jpeg + PartTail
  }

  /** Recover the JPEG from a chunk; None when the chunk is not framed as a part. */
  function ParsePart(chunk: seq<Byte>): Option<seq<Byte>>
  {
    if |chunk| >= |PartHead| + |PartTail|
       && chunk[..|PartHead|] == PartHead
       && chunk[|chunk| - |PartTail|..] == PartTail
    then Some(chunk[|PartHead|..|chunk| - |PartTail|])
    else None
  }

  /** Framing adds 39 bytes and parsing undoes it. */
  lemma PartRoundTrip(jpeg: seq<Byte>)
    ensures |Part(jpeg)| == |jpeg| + 39
    ensures ParsePart(Part(jpeg)) == Some(jpeg)
  {
    var c := Part(jpeg);
    assert c[..|PartHead|] == PartHead;
    assert c[|c| - |PartTail|..] == PartTail;
    assert c[|PartHead|..|c| - |PartTail|] == jpeg;
  }

  /** Every chunk the parser accepts is the framing of what it returns. */
  lemma ParsePartInverse(chunk: seq<Byte>)
    ensures ParsePart(chunk).Some? ==> Part(ParsePart(chunk).value) == chunk
  {
    if ParsePart(chunk).Some? {
      var j := ParsePart(chunk).value;
      assert chunk == chunk[..|PartHead|] + j + chunk[|chunk| - |PartTail|..];
    }
  }

  /** Every part opens with the delimiter line: "--", the boundary, CRLF. */
  lemma PartOpensWithDelimiter(b: seq<Byte>)
    ensures Part(b)[..|Boundary| + 4] == Ascii("--" + Boundary + "\r\n")
  {
    var d := Ascii("--" + Boundary + "\r\n");
    forall i | 0 <= i < |d|
      ensures Part(b)[i] == d[i]
    {
      assert Part(b)[i] == PartHead[i];
    }
  }

  /** The boundary in the Content-Type is the one that opens every part, and in
      the stream each later part's delimiter is preceded by CRLF. */
  lemma PartsDelimitedByBoundary(a: seq<Byte>, b: seq<Byte>)
    ensures Mimetype == "multipart/x-mixed-replace; boundary=" + Boundary
    ensures (Part(a) + Part(b))[|Part(a)| - 2..|Part(a)| + |Boundary| + 2] == Ascii("\r\n--" + Boundary)
  {
    var d := Ascii("--" + Boundary + "\r\n");
    PartOpensWithDelimiter(b);
    var n := |Part(a)|;
    assert Part(a)[n - 2..] == PartTail;
    assert Part(b)[..|Boundary| + 2] == d[..|Boundary| + 2];
    assert (Part(a) + Part(b))[n - 2..n + |Boundary| + 2] == Part(a)[n - 2..] + Part(b)[..|Boundary| + 2];
    DelimiterAfterTail();
  }

  /** A part's CRLF tail followed by the next delimiter without its own CRLF. */
  lemma DelimiterAfterTail()
    ensures PartTail + Ascii("--" + Boundary + "\r\n")[..|Boundary| + 2] == Ascii("\r\n--" + Boundary)
  {
    var d := Ascii("--" + Boundary + "\r\n");
    var e := Ascii("\r\n--" + Boundary);
    forall i | 0 <= i < |e|
      ensures (PartTail + d[..|Boundary| + 2])[i] == e[i]
    {
      if i >= 2 {
        assert (PartTail + d[..|Boundary| + 2])[i] == d[i - 2];
      }
    }
  }
}
