/** From the chunks of a request to the stored file: the declared length, the bounded body reader,
    the framing it may carry, and the atomic write. */
module BodyDelivery {
  import opened Text
  import opened Etags
  import opened Paths
  import opened FrameLines
  import opened BodyReaders
  import opened BodyCuts
  import opened CutDecoding
  import opened ChunkedFraming
  import opened ChunkedReaders
  import opened ChunkedDecoding
  import opened Uploading

  function AnswersAtStart(chunks: seq<Bytes>, maxBytes: nat): Answers {
    AnswersOf(Body(chunks, [], 0), FILE_CHUNK_SIZE_BYTES, maxBytes)
  }

  lemma StartAnswers(chunks: seq<Bytes>, maxBytes: nat)
    ensures var a := AnswersAtStart(chunks, maxBytes);
      && Flatten(a.slices) <= Flatten(chunks) && |Flatten(a.slices)| <= maxBytes
      && (a.tail.Eof? <==> |Flatten(chunks)| <= maxBytes) && (a.tail.Eof? ==> Flatten(a.slices) == Flatten(chunks))
  {
    AnswersAreTheBody(Body(chunks, [], 0), FILE_CHUNK_SIZE_BYTES, maxBytes);
    assert Left(Body(chunks, [], 0)) == Flatten(chunks);
  }

  /** An unframed body is delivered whole if it fits, however it is cut into chunks and whichever of them are empty,
      and refused as too large if it does not. */
  lemma PlainBodyDelivered(chunks: seq<Bytes>, maxBytes: nat)
    ensures BodyPayload(chunks, maxBytes, false).end == (if |Flatten(chunks)| <= maxBytes then Done else Failed(BodyTooLarge))
    ensures |Flatten(chunks)| <= maxBytes ==> BodyPayload(chunks, maxBytes, false).bytes == Flatten(chunks)
  {
    StartAnswers(chunks, maxBytes);
  }

  /** The framing reader at the start of a body cut every 65536 bytes. */
  function StartCursor(s: Bytes, tail: Tail): Cursor { Cursor([], Cuts(s), tail) }

  lemma StartDecodes(s: Bytes, tail: Tail)
    ensures Decoded(StartCursor(s, tail)) == DecodeAt(s, 0, tail)
  {
    CutReader(s, 0, tail);
    assert s[..0] == [] && s[0..] == s;
  }

  /** A framed body that fits is decoded as if the network had cut it every 65536 bytes, however it did. With no negative
      size that is what the one-shot decoder says if no such cut interrupts a line too late, as none does when the
      lines are short, and otherwise the body breaks at that line. In every case no more than the allowed bytes are
      accepted. */
  lemma FramedBodyDelivered(chunks: seq<Bytes>, maxBytes: nat)
    ensures |BodyPayload(chunks, maxBytes, true).bytes| <= maxBytes
    ensures |Flatten(chunks)| <= maxBytes ==> BodyPayload(chunks, maxBytes, true) == DecodeAt(Flatten(chunks), 0, Eof)
    ensures |Flatten(chunks)| <= maxBytes && SizesNonNegative(Flatten(chunks)) ==>
      if LinesInOneGo(Flatten(chunks), 0) then BodyPayload(chunks, maxBytes, true) == OneShot(Flatten(chunks))
      else BodyPayload(chunks, maxBytes, true).end == Failed(IncompleteBody)
    ensures ShortLines(Flatten(chunks)) ==> LinesInOneGo(Flatten(chunks), 0)
  {
    StartAnswers(chunks, maxBytes);
    var a, s := AnswersAtStart(chunks, maxBytes), Flatten(chunks);
    PayloadFitsBody(Cursor([], a.slices, a.tail));
    assert Ahead(Cursor([], a.slices, a.tail)) == Flatten(a.slices);
    if |s| <= maxBytes {
      FittedAnswers(chunks, maxBytes);
      StartDecodes(s, Eof);
      if SizesNonNegative(s) { CutsMatterToLines(s, 0); }
    }
    if ShortLines(s) { ShortLinesInOneGo(s, 0); }
  }

  lemma FittedAnswers(chunks: seq<Bytes>, maxBytes: nat)
    requires |Flatten(chunks)| <= maxBytes
    ensures AnswersAtStart(chunks, maxBytes) == Answers(Cuts(Flatten(chunks)), Eof)
  {
    FittingAnswers(Body(chunks, [], 0), maxBytes);
    assert Left(Body(chunks, [], 0)) == Flatten(chunks);
  }

  // ---------- the network's cuts ----------

  /** A body that fits comes to the same however the network cuts it, framed or not, whatever its lines and sizes. */
  lemma NetworkCutsDoNotMatter(chunks: seq<Bytes>, chunks': seq<Bytes>, maxBytes: nat, framed: bool)
    requires Flatten(chunks) == Flatten(chunks') && |Flatten(chunks)| <= maxBytes
    ensures BodyPayload(chunks, maxBytes, framed) == BodyPayload(chunks', maxBytes, framed)
  {
    FittedAnswers(chunks, maxBytes);
    FittedAnswers(chunks', maxBytes);
  }

  /** What becomes of a body: the bytes to store, or the error. */
  function Fate(p: Payload): Payload { if p.end.Done? then p else Payload([], p.end) }

  ghost predicate NetworkIndependent(s: Bytes, maxBytes: nat) {
    forall chunks, chunks' :: Flatten(chunks) == s && Flatten(chunks') == s ==>
      Fate(BodyPayload(chunks, maxBytes, true)) == Fate(BodyPayload(chunks', maxBytes, true))
  }

  /** The part of a body that the limit allows in full slices. */
  function Allowed(s: Bytes, maxBytes: nat): Bytes
    requires maxBytes <= |s|
  {
    s[..Full(maxBytes)]
  }

  /** A body over the limit that runs out in its allowed part is refused, whatever its chunks. */
  lemma OversizeIsRefused(chunks: seq<Bytes>, maxBytes: nat)
    requires maxBytes < |Flatten(chunks)| && RunsOut(Allowed(Flatten(chunks), maxBytes), 0)
    ensures Fate(BodyPayload(chunks, maxBytes, true)) == Payload([], Failed(BodyTooLarge))
  {
    var s := Flatten(chunks);
    var n := OversizeAnswers(Body(chunks, [], 0), maxBytes);
    assert Left(Body(chunks, [], 0)) == s;
    FullIsMost(n, maxBytes);
    SettledFurther(s, n, Full(maxBytes));
    StartDecodes(Allowed(s, maxBytes), Overflow);
    MeetsFailure(Allowed(s, maxBytes), 0);
    assert Decoded(StartCursor(s[..n], Overflow)).end == Failed(BodyTooLarge);
  }

  /** What some slices settle, more slices settle the same way. */
  lemma SettledFurther(s: Bytes, n: nat, m: nat)
    requires n <= m <= |s| && AtCut(n)
    ensures Decoded(StartCursor(s[..n], Overflow)).end != Failed(BodyTooLarge) ==>
      Decoded(StartCursor(s[..m], Overflow)) == Decoded(StartCursor(s[..n], Overflow))
  {
    var c, more := StartCursor(s[..n], Overflow), s[n..m];
    assert s[..n] + more == s[..m];
    MoreCuts(s[..n], more);
    assert More(c, Cuts(more), Overflow) == StartCursor(s[..m], Overflow);
    if Decoded(c).end != Failed(BodyTooLarge) { MoreDecoded(c, Cuts(more), Overflow); }
  }

  lemma OnePieceIsRefused(s: Bytes, maxBytes: nat)
    requires maxBytes < |s|
    ensures Flatten([s]) == s && BodyPayload([s], maxBytes, true).end == Failed(BodyTooLarge)
  {
    OnePieceAnswers(s, maxBytes);
  }

  lemma SlicesAreDecoded(s: Bytes, maxBytes: nat)
    requires maxBytes < |s|
    ensures Flatten(Cuts(s)) == s && BodyPayload(Cuts(s), maxBytes, true) == DecodeAt(Allowed(s, maxBytes), 0, Overflow)
  {
    hide DecodeAt, Decoded, RunsOut, AnswersOf, Cuts, Full, Flatten;
    CutAnswers(s, 0, maxBytes);
    CutsAreAll(s);
    StartDecodes(Allowed(s, maxBytes), Overflow);
  }

  /** One that does not run out there is refused when it comes in one piece, and not when it comes in slices. */
  lemma SettledBodyDepends(s: Bytes, maxBytes: nat)
    requires maxBytes < |s| && !RunsOut(Allowed(s, maxBytes), 0)
    ensures Flatten([s]) == s && BodyPayload([s], maxBytes, true).end == Failed(BodyTooLarge)
    ensures Flatten(Cuts(s)) == s && BodyPayload(Cuts(s), maxBytes, true) == DecodeAt(Allowed(s, maxBytes), 0, Overflow)
    ensures BodyPayload(Cuts(s), maxBytes, true).end != Failed(BodyTooLarge)
  {
    hide BodyPayload, DecodeAt, RunsOut;
    OnePieceIsRefused(s, maxBytes);
    SlicesAreDecoded(s, maxBytes);
    MeetsFailure(Allowed(s, maxBytes), 0);
  }

  /** The fate of a framed body is independent of the network if and only if the body fits, or runs out in the full slices
      the limit allows: no line or frame there breaks or ends it. */
  lemma NetworkIndependence(s: Bytes, maxBytes: nat)
    ensures NetworkIndependent(s, maxBytes) <==> |s| <= maxBytes || RunsOut(Allowed(s, maxBytes), 0)
  {
    if |s| <= maxBytes {
      forall chunks, chunks' | Flatten(chunks) == s && Flatten(chunks') == s
        ensures Fate(BodyPayload(chunks, maxBytes, true)) == Fate(BodyPayload(chunks', maxBytes, true))
      {
        NetworkCutsDoNotMatter(chunks, chunks', maxBytes, true);
      }
    } else if RunsOut(Allowed(s, maxBytes), 0) {
      forall chunks, chunks' | Flatten(chunks) == s && Flatten(chunks') == s
        ensures Fate(BodyPayload(chunks, maxBytes, true)) == Fate(BodyPayload(chunks', maxBytes, true))
      {
        OversizeIsRefused(chunks, maxBytes);
        OversizeIsRefused(chunks', maxBytes);
      }
    } else {
      SettledBodyDepends(s, maxBytes);
      assert Fate(BodyPayload([s], maxBytes, true)) != Fate(BodyPayload(Cuts(s), maxBytes, true));
    }
  }

  // ---------- bodies on either side of the conditions ----------

  /** A final frame with an extension, and no trailer. */
  function FinalFrame(ext: Bytes): Bytes { Encode([], ext, []) }

  /** A body of one line and a blank one: complete, short up to 8191 bytes, in one go up to the first cut. */
  lemma FinalFrameLines(ext: Bytes)
    requires ext != [] && ext[0] == SEMICOLON && FindCrlf(Header(0, ext)) == -1
    ensures var s := FinalFrame(ext);
      && SizesNonNegative(s) && OneShot(s) == Payload([], Done)
      && (ShortLines(s) <==> |ext| < 8191) && (LinesInOneGo(s, 0) <==> |ext| <= 65533)
  {
    FirstLine(Header(0, ext), EncodeTrailers([]));
    HeaderReadsBack(0, ext);
    EncodedTrailers([]);
    FirstLine([], []);
    assert [] + CRLF + [] == CRLF;
    assert |Header(0, ext)| == 1 + |ext|;
    assert NextCut(CHUNK_LINE_MAX_BYTES) == 65536;
  }

  /** A semicolon and `n` letters. */
  function Padding(n: nat): Bytes { [SEMICOLON] + seq(n, _ => 120 as Byte) }

  lemma PaddingIsOneLine(n: nat)
    ensures FindCrlf(Header(0, Padding(n))) == -1
  {
    var line := Header(0, Padding(n));
    assert forall k :: 0 <= k < |line| ==> line[k] != CR;
  }

  /** A line of 8192 bytes makes the framing reader depend on its source's slices, but not the stack of the two
      readers: that delivers the body, and breaks at a line of 65535 bytes, however the network cuts either. */
  lemma LongLineWitness(chunks: seq<Bytes>, maxBytes: nat)
    requires |Flatten(chunks)| <= maxBytes
    ensures SizesNonNegative(FinalFrame(Padding(8190))) && OneShot(FinalFrame(Padding(8190))).end.Done?
    ensures !ShortLines(FinalFrame(Padding(8190))) && !SlicingIndependent(FinalFrame(Padding(8190)))
    ensures Flatten(chunks) == FinalFrame(Padding(8190)) ==> BodyPayload(chunks, maxBytes, true) == Payload([], Done)
    ensures OneShot(FinalFrame(Padding(65533))).end.Done?
    ensures Flatten(chunks) == FinalFrame(Padding(65533)) ==> BodyPayload(chunks, maxBytes, true).end == Failed(IncompleteBody)
  {
    PaddingIsOneLine(8191);
    PaddingIsOneLine(65533);
    FinalFrameLines(Padding(8190));
    FinalFrameLines(Padding(65533));
    SlicingIndependence(FinalFrame(Padding(8190)));
    FramedBodyDelivered(chunks, maxBytes);
  }

  const LAST_FRAME: Bytes := [48, 13, 10, 13, 10]

  /** A body that begins with its final frame and goes on past the limit is stored when the network delivers it in slices,
      and refused when it comes in one piece. */
  lemma OverlongBodyDepends(s: Bytes, maxBytes: nat)
    requires LAST_FRAME <= s && CUT <= maxBytes < |s|
    ensures Flatten(Cuts(s)) == s && BodyPayload(Cuts(s), maxBytes, true).end == Done
    ensures Flatten([s]) == s && BodyPayload([s], maxBytes, true).end == Failed(BodyTooLarge)
    ensures !NetworkIndependent(s, maxBytes)
  {
    var t := Allowed(s, maxBytes);
    assert t[..5] == s[..5] == LAST_FRAME;
    EndsAtOnce(t);
    MeetsFailure(t, 0);
    SettledBodyDepends(s, maxBytes);
    NetworkIndependence(s, maxBytes);
  }

  lemma EndsAtOnce(t: Bytes)
    requires |t| >= 5 && t[..5] == LAST_FRAME
    ensures DecodeAt(t, 0, Overflow).end == Done
  {
    assert t[0] == t[..5][0] && t[1] == t[..5][1] && t[2] == t[..5][2] && t[3] == t[..5][3] && t[4] == t[..5][4];
    FoundAt(t, 1);
    FoundAt(t[3..], 0);
    assert t[..1] == [48];
    assert ParseFrameSize([48]) == Some(0) by { HeaderReadsBack(0, []); assert HexSize(0) + [] == [48]; }
  }

  /** What a client sends in frames is delivered without them, however the network cuts it. */
  lemma SentBodyDelivered(frames: seq<Sent>, ext: Bytes, trailers: seq<Bytes>, chunks: seq<Bytes>, maxBytes: nat)
    requires WellSent(frames, ext, trailers) && Flatten(chunks) == Encode(frames, ext, trailers) && |Flatten(chunks)| <= maxBytes
    ensures BodyPayload(chunks, maxBytes, true) == Payload(SentBytes(frames), Done)
  {
    DecodeEncode(frames, ext, trailers);
    FramedBodyDelivered(chunks, maxBytes);
  }

  datatype Stored = Stored | Refused(declared: Declared) | Aborted(error: Error)

  /** Builds the reader for a request and uploads what it gives. */
  method StoreBody(chunks: seq<Bytes>, encoding: string, payloadHash: string, decoded: Option<string>, length: Option<string>,
      maxBytes: nat, files: map<Path, Bytes>, temporary: Path, destination: Path)
    returns (result: Stored, after: map<Path, Bytes>)
    requires temporary !in files && temporary != destination
    ensures !DeclaredLength(decoded, length, maxBytes).Acceptable? ==>
      result == Refused(DeclaredLength(decoded, length, maxBytes)) && after == files
    ensures DeclaredLength(decoded, length, maxBytes).Acceptable? ==>
      match BodyPayload(chunks, maxBytes, AnnouncesFraming(encoding, payloadHash))
      case Payload(bytes, Done) => result.Stored? && after == files[destination := bytes] && |bytes| <= maxBytes
      case Payload(_, Failed(e)) => result == Aborted(e) && after == files
    ensures DeclaredLength(decoded, length, maxBytes).Acceptable? && !AnnouncesFraming(encoding, payloadHash) ==>
      if |Flatten(chunks)| <= maxBytes then result.Stored? && after == files[destination := Flatten(chunks)]
      else result == Aborted(BodyTooLarge) && after == files
    ensures DeclaredLength(decoded, length, maxBytes).Acceptable? && AnnouncesFraming(encoding, payloadHash) && |Flatten(chunks)| <= maxBytes ==>
      match DecodeAt(Flatten(chunks), 0, Eof)
      case Payload(bytes, Done) => result.Stored? && after == files[destination := bytes]
      case Payload(_, Failed(e)) => result == Aborted(e) && after == files
  {
    var declared, readable := BuildBodyReader(chunks, encoding, payloadHash, decoded, length, maxBytes);
    if readable.None? { return Refused(declared), files; }
    var error;
    error, after := Upload(readable.value, files, temporary, destination);
    FramedBodyDelivered(chunks, maxBytes);
    PlainBodyDelivered(chunks, maxBytes);
    return if error.Some? then Aborted(error.value) else Stored, after;
  }
}
