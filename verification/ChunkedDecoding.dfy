/** What aws-chunked framing means, as a decoder of the whole byte string, and that the
    incremental reader agrees with it however its source slices the bytes. */
module ChunkedDecoding {
  import opened Text
  import opened Etags
  import opened FrameLines
  import opened BodyReaders
  import opened ChunkedFraming

  // ---------- the one-shot decoder ----------

  /** Trailing lines up to an empty one, or up to the end. */
  function TrailerComplete(s: Bytes): bool {
    var i := FindCrlf(s);
    if i < 0 then s == [] else i == 0 || TrailerComplete(s[i + 2..])
  }

  /** Sized frames, blank lines between them skipped, up to a frame of size zero or the end. */
  function OneShot(s: Bytes): Payload
    decreases |s|
  {
    var i := FindCrlf(s);
    if i < 0 then Payload([], if s == [] then Done else Failed(IncompleteBody))
    else
      var line, rest := s[..i], s[i + 2..];
      if line == [] then OneShot(rest)
      else match ParseFrameSize(line)
        case None => Payload([], Failed(IncompleteBody))
        case Some(size) =>
          if size == 0 then Payload([], if TrailerComplete(rest) then Done else Failed(IncompleteBody))
          else if size < 0 || |rest| < size + 2 then Payload([], Failed(IncompleteBody))
          else
            var later := OneShot(rest[size + 2..]);
            Payload(rest[..size] + later.bytes, later.end)
  }

  /** No frame announces a negative size. */
  ghost predicate SizesNonNegative(s: Bytes)
    decreases |s|
  {
    var i := FindCrlf(s);
    i >= 0 ==>
      var line, rest := s[..i], s[i + 2..];
      if line == [] then SizesNonNegative(rest)
      else match ParseFrameSize(line)
        case None => true
        case Some(size) => size >= 0 && (0 < size && size + 2 <= |rest| ==> SizesNonNegative(rest[size + 2..]))
  }

  ghost predicate ShortTrailer(s: Bytes) {
    var i := FindCrlf(s);
    i >= 0 ==> i < CHUNK_LINE_MAX_BYTES && (i > 0 ==> ShortTrailer(s[i + 2..]))
  }

  /** Every terminated line the decoder reads has at most 8191 bytes. */
  ghost predicate ShortLines(s: Bytes)
    decreases |s|
  {
    var i := FindCrlf(s);
    i >= 0 ==>
      && i < CHUNK_LINE_MAX_BYTES
      && var line, rest := s[..i], s[i + 2..];
      if line == [] then ShortLines(rest)
      else match ParseFrameSize(line)
        case None => true
        case Some(size) =>
          if size == 0 then ShortTrailer(rest)
          else 0 < size && size + 2 <= |rest| ==> ShortLines(rest[size + 2..])
  }

  // ---------- lines and exact reads do not depend on the slicing ----------

  lemma {:induction false} LineAgrees(c: Cursor)
    ensures var s, i := Ahead(c), FindCrlf(Ahead(c));
      match ReadLine(c)
      case Line(text, rest) => i >= 0 && text == s[..i] && Ahead(rest) == s[i + 2..] && rest.tail == c.tail
      case NoLine => s == [] && c.tail.Eof?
      case BadLine(e) => (0 <= i ==> i >= CHUNK_LINE_MAX_BYTES) && (c.tail.Eof? ==> e == IncompleteBody && s != [])
    decreases |c.slices|
  {
    var s, i := Ahead(c), FindCrlf(c.framed);
    if i >= 0 {
      FoundInPrefix(c.framed, Flatten(c.slices));
      assert s[..i] == c.framed[..i] && s[i + 2..] == c.framed[i + 2..] + Flatten(c.slices);
    } else if |c.framed| > CHUNK_LINE_MAX_BYTES {
      if 0 <= FindCrlf(s) < CHUNK_LINE_MAX_BYTES {
        assert CrlfAt(c.framed, FindCrlf(s));
      }
    } else if c.slices != [] {
      LineAgrees(Refill(c));
    } else {
      assert s == c.framed;
    }
  }

  lemma {:induction false} ExactAgrees(c: Cursor, count: nat)
    ensures match ReadExact(c, count)
      case Exact(data, rest) =>
        count <= |Ahead(c)| && data == Ahead(c)[..count] && Ahead(rest) == Ahead(c)[count..] && rest.tail == c.tail
      case Short(e) => |Ahead(c)| < count && (c.tail.Eof? ==> e == IncompleteBody)
    decreases |c.slices|
  {
    if count <= |c.framed| {
      assert Ahead(c)[count..] == c.framed[count..] + Flatten(c.slices);
    } else if c.slices != [] {
      ExactAgrees(Refill(c), count);
    }
  }

  lemma PayloadAgrees(c: Cursor, size: nat)
    ensures match ReadPayload(c, size)
      case Frame(data, rest) =>
        size + 2 <= |Ahead(c)| && data == Ahead(c)[..size] && Ahead(rest) == Ahead(c)[size + 2..] && rest.tail == c.tail
      case Broken(e) => |Ahead(c)| < size + 2 && (c.tail.Eof? ==> e == IncompleteBody)
      case Last(_) => false
  {
    ExactAgrees(c, size);
    match ReadExact(c, size)
    case Short(_) =>
    case Exact(_, rest) => ExactAgrees(rest, 2);
  }

  lemma {:induction false} TrailerAgrees(c: Cursor)
    ensures match SkipTrailer(c)
      case Last(_) => TrailerComplete(Ahead(c))
      case Broken(e) => c.tail.Eof? ==> e == IncompleteBody && (ShortTrailer(Ahead(c)) ==> !TrailerComplete(Ahead(c)))
      case Frame(_, _) => false
    decreases |Ahead(c)|
  {
    LineAgrees(c);
    ReadLineAdvances(c);
    match ReadLine(c)
    case NoLine =>
    case BadLine(_) =>
    case Line(text, rest) => if text != [] { TrailerAgrees(rest); }
  }

  // ---------- refinement ----------

  lemma SizedFrameAgrees(c: Cursor, s: Bytes, size: nat)
    requires FindCrlf(s) > 0 && ParseFrameSize(s[..FindCrlf(s)]) == Some(size) && Ahead(c) == s[FindCrlf(s) + 2..]
    requires SizesNonNegative(s) && size > 0
    ensures match ReadPayload(c, size)
      case Frame(data, rest) =>
        && OneShot(s) == Payload(data + OneShot(Ahead(rest)).bytes, OneShot(Ahead(rest)).end) && rest.tail == c.tail
        && SizesNonNegative(Ahead(rest)) && (ShortLines(s) ==> ShortLines(Ahead(rest)))
      case Broken(e) => OneShot(s) == Payload([], Failed(IncompleteBody)) && (c.tail.Eof? ==> e == IncompleteBody)
      case Last(_) => false
  {
    PayloadAgrees(c, size);
  }

  /** A decoded frame is the one-shot decoder's next frame. */
  lemma FrameAgrees(c: Cursor)
    requires SizesNonNegative(Ahead(c))
    ensures var s := Ahead(c);
      match DecodeFrame(c)
      case Frame(data, rest) =>
        && OneShot(s) == Payload(data + OneShot(Ahead(rest)).bytes, OneShot(Ahead(rest)).end) && rest.tail == c.tail
        && SizesNonNegative(Ahead(rest)) && (ShortLines(s) ==> ShortLines(Ahead(rest)))
      case Last(_) => OneShot(s) == Payload([], Done)
      case Broken(e) => c.tail.Eof? ==> e == IncompleteBody && (ShortLines(s) ==> OneShot(s) == Payload([], Failed(IncompleteBody)))
  {
    LineAgrees(c);
    match ReadLine(c)
    case NoLine =>
    case BadLine(_) =>
    case Line(text, rest) =>
      if text == [] {
        assert [] + OneShot(Ahead(rest)).bytes == OneShot(Ahead(rest)).bytes;
      } else if ParseFrameSize(text).Some? {
        if ParseFrameSize(text).value == 0 {
          TrailerAgrees(rest);
        } else {
          SizedFrameAgrees(rest, Ahead(c), ParseFrameSize(text).value);
        }
      }
  }

  /** Whatever the slicing and however the source ends: a reader that finishes has returned exactly the decoder's
      payload, and one that fails has returned a prefix of it. */
  lemma {:induction false} ReaderIsSound(c: Cursor)
    requires SizesNonNegative(Ahead(c))
    ensures Decoded(c).bytes <= OneShot(Ahead(c)).bytes
    ensures Decoded(c).end.Done? ==> Decoded(c) == OneShot(Ahead(c))
    decreases |Ahead(c)|
  {
    FrameAgrees(c);
    FrameAdvances(c);
    match DecodeFrame(c)
    case Last(_) =>
    case Broken(_) =>
    case Frame(_, rest) => ReaderIsSound(rest);
  }

  /** Refinement and slicing independence: with no negative size and no line over 8191 bytes, the reader yields the
      payload or the failure exactly as the decoder of the whole byte string does. */
  lemma {:induction false} ReaderRefinesDecoder(c: Cursor)
    requires c.tail.Eof? && SizesNonNegative(Ahead(c)) && ShortLines(Ahead(c))
    ensures Decoded(c) == OneShot(Ahead(c))
    decreases |Ahead(c)|
  {
    FrameAgrees(c);
    FrameAdvances(c);
    match DecodeFrame(c)
    case Last(_) =>
    case Broken(_) =>
    case Frame(_, rest) => ReaderRefinesDecoder(rest);
  }

  lemma {:induction false} PayloadFitsBody(c: Cursor)
    ensures |Decoded(c).bytes| <= |Ahead(c)|
    decreases |Ahead(c)|
  {
    FrameAdvances(c);
    match DecodeFrame(c)
    case Last(_) =>
    case Broken(_) =>
    case Frame(data, rest) => PayloadFitsBody(rest);
  }

  // ---------- the line limit is exactly what slicing independence needs ----------

  /** One byte at a time. */
  function ByByte(s: Bytes): (r: seq<Bytes>)
    ensures |r| == |s| && forall i :: 0 <= i < |r| ==> r[i] == [s[i]]
  {
    seq(|s|, i requires 0 <= i < |s| => [s[i]])
  }

  lemma {:induction false} FlattenByByte(s: Bytes)
    ensures Flatten(ByByte(s)) == s
  {
    if s != [] {
      assert ByByte(s)[1..] == ByByte(s[1..]);
      FlattenByByte(s[1..]);
    }
  }

  /** The first `n` bytes of `s` buffered, the others to come one by one. */
  function Dripping(s: Bytes, n: nat): Cursor
    requires n <= |s|
  {
    Cursor(s[..n], ByByte(s[n..]), Eof)
  }

  lemma DripRefill(s: Bytes, n: nat)
    requires n < |s|
    ensures Dripping(s, n).slices != [] && Refill(Dripping(s, n)) == Dripping(s, n + 1)
  {
  }

  /** Byte by byte, a line is read without a byte of what follows, or found too long. */
  lemma {:induction false} DrippedLine(s: Bytes, n: nat)
    requires n <= |s| && FindCrlf(s) >= 0 && n <= FindCrlf(s) + 2
    requires n <= CHUNK_LINE_MAX_BYTES + 1
    ensures var i := FindCrlf(s);
      ReadLine(Dripping(s, n)) == if i < CHUNK_LINE_MAX_BYTES then Line(s[..i], Dripping(s[i + 2..], 0)) else BadLine(IncompleteBody)
    decreases |s| - n
  {
    var i := FindCrlf(s);
    if n == i + 2 {
      assert CrlfAt(s[..n], i);
      assert forall k :: CrlfAt(s[..n], k) ==> CrlfAt(s, k);
      FoundAt(s[..n], i);
      assert s[..n][..i] == s[..i] && s[..n][i + 2..] == [] && s[i + 2..][..0] == [] && s[i + 2..][0..] == s[i + 2..];
    } else {
      NotFoundBefore(s, n);
      if n <= CHUNK_LINE_MAX_BYTES {
        DripRefill(s, n);
        DrippedLine(s, n + 1);
      }
    }
  }

  /** Byte by byte, exactly the bytes asked for are taken. */
  lemma {:induction false} DrippedExact(s: Bytes, n: nat, count: nat)
    requires n <= count <= |s|
    ensures ReadExact(Dripping(s, n), count) == Exact(s[..count], Dripping(s[count..], 0))
    decreases count - n
  {
    if n == count {
      assert s[..n][..count] == s[..count] && s[..n][count..] == [] && s[count..][..0] == [] && s[count..][0..] == s[count..];
    } else {
      DripRefill(s, n);
      DrippedExact(s, n + 1, count);
    }
  }

  lemma DrippedPayload(s: Bytes, size: nat)
    requires size + 2 <= |s|
    ensures ReadPayload(Dripping(s, 0), size) == Frame(s[..size], Dripping(s[size + 2..], 0))
  {
    DrippedExact(s, 0, size);
    DrippedExact(s[size..], 0, 2);
    assert s[size..][2..] == s[size + 2..];
  }

  lemma {:induction false} DrippedTrailerFails(s: Bytes)
    requires !ShortTrailer(s)
    ensures SkipTrailer(Dripping(s, 0)) == Broken(IncompleteBody)
    decreases |s|
  {
    var i := FindCrlf(s);
    DrippedLine(s, 0);
    if i < CHUNK_LINE_MAX_BYTES { DrippedTrailerFails(s[i + 2..]); }
  }

  /** The body begins with a short line and all of the frame it announces, or with a blank line. */
  predicate FrameFollows(s: Bytes) {
    var i := FindCrlf(s);
    && 0 <= i < CHUNK_LINE_MAX_BYTES
    && (i > 0 ==> match ParseFrameSize(s[..i])
                  case None => false
                  case Some(size) => 0 < size && i + 2 + size + 2 <= |s|)
  }

  function FrameData(s: Bytes): Bytes
    requires FrameFollows(s)
  {
    var i := FindCrlf(s);
    if i == 0 then [] else s[i + 2..][..ParseFrameSize(s[..i]).value]
  }

  function AfterFrame(s: Bytes): (r: Bytes)
    requires FrameFollows(s)
    ensures |r| < |s|
  {
    var i := FindCrlf(s);
    if i == 0 then s[2..] else s[i + 2..][ParseFrameSize(s[..i]).value + 2..]
  }

  /** What the decoder gives from the first line over the limit on. */
  function FromLongLine(s: Bytes): Payload
    decreases |s|
  {
    if FrameFollows(s) then FromLongLine(AfterFrame(s)) else OneShot(s)
  }

  lemma FirstFrame(s: Bytes)
    requires FrameFollows(s)
    ensures OneShot(s) == Payload(FrameData(s) + OneShot(AfterFrame(s)).bytes, OneShot(AfterFrame(s)).end)
    ensures (SizesNonNegative(s) ==> SizesNonNegative(AfterFrame(s))) && (ShortLines(s) <==> ShortLines(AfterFrame(s)))
  {
    assert [] + OneShot(AfterFrame(s)).bytes == OneShot(AfterFrame(s)).bytes;
  }

  lemma ReadsFirstFrame(c: Cursor)
    requires FrameFollows(Ahead(c))
    ensures DecodeFrame(c).Frame? && Ahead(DecodeFrame(c).rest) == AfterFrame(Ahead(c)) && DecodeFrame(c).rest.tail == c.tail
  {
    LineAgrees(c);
    match ReadLine(c)
    case Line(text, rest) =>
      if text != [] { PayloadAgrees(rest, ParseFrameSize(text).value); }
  }

  lemma DrippedFrame(s: Bytes)
    requires FrameFollows(s)
    ensures DecodeFrame(Dripping(s, 0)) == Frame(FrameData(s), Dripping(AfterFrame(s), 0))
  {
    DrippedLine(s, 0);
    if FindCrlf(s) > 0 { DrippedPayload(s[FindCrlf(s) + 2..], ParseFrameSize(s[..FindCrlf(s)]).value); }
  }

  lemma DrippedBreak(s: Bytes)
    requires SizesNonNegative(s) && !ShortLines(s) && !FrameFollows(s)
    ensures DecodeFrame(Dripping(s, 0)) == Broken(IncompleteBody)
  {
    DrippedLine(s, 0);
    if FindCrlf(s) < CHUNK_LINE_MAX_BYTES { DrippedTrailerFails(s[FindCrlf(s) + 2..]); }
  }

  lemma OneAfterTheOther(a: Bytes, b: Bytes, c: Bytes)
    ensures a + (b + c) == (a + b) + c
  {
  }

  /** A line of 8192 bytes or more breaks the body when it comes byte by byte: what has been returned by then is all
      that comes before that line. */
  lemma {:induction false} LongLineFailsByByte(s: Bytes)
    requires SizesNonNegative(s) && !ShortLines(s)
    ensures Decoded(Dripping(s, 0)).end == Failed(IncompleteBody)
    ensures OneShot(s) == Payload(Decoded(Dripping(s, 0)).bytes + FromLongLine(s).bytes, FromLongLine(s).end)
    decreases |s|
  {
    if FrameFollows(s) {
      FirstFrame(s);
      DrippedFrame(s);
      LongLineFailsByByte(AfterFrame(s));
      OneAfterTheOther(FrameData(s), Decoded(Dripping(AfterFrame(s), 0)).bytes, FromLongLine(s).bytes);
    } else {
      DrippedBreak(s);
      assert [] + OneShot(s).bytes == OneShot(s).bytes;
    }
  }

  /** A complete source ends a body in no other failure. */
  lemma {:induction false} EndsOrIsIncomplete(c: Cursor)
    requires SizesNonNegative(Ahead(c)) && c.tail.Eof?
    ensures Decoded(c).end == Done || Decoded(c).end == Failed(IncompleteBody)
    decreases |Ahead(c)|
  {
    FrameAgrees(c);
    FrameAdvances(c);
    match DecodeFrame(c)
    case Last(_) =>
    case Broken(_) =>
    case Frame(_, rest) => EndsOrIsIncomplete(rest);
  }

  /** Where nothing is lost from the first long line on, the reader agrees with the decoder all the same. */
  lemma {:induction false} NothingAfterLongLine(c: Cursor)
    requires SizesNonNegative(Ahead(c)) && c.tail.Eof? && FromLongLine(Ahead(c)) == Payload([], Failed(IncompleteBody))
    ensures Decoded(c) == OneShot(Ahead(c))
    decreases |Ahead(c)|
  {
    if FrameFollows(Ahead(c)) {
      ReadsFirstFrame(c);
      FrameAgrees(c);
      NothingAfterLongLine(DecodeFrame(c).rest);
    } else {
      ReaderIsSound(c);
      EndsOrIsIncomplete(c);
    }
  }

  /** Every way to slice the body gives what the decoder of the whole gives. */
  ghost predicate SlicingIndependent(s: Bytes) {
    forall c: Cursor :: Ahead(c) == s && c.framed == [] && c.tail.Eof? && Proper(c) ==> Decoded(c) == OneShot(s)
  }

  lemma DrippingIsASlicing(s: Bytes)
    ensures Ahead(Dripping(s, 0)) == s && Dripping(s, 0).framed == [] && Proper(Dripping(s, 0))
  {
    FlattenByByte(s);
    assert s[0..] == s && s[..0] == [];
  }

  /** The lines are short, or nothing comes of the body from the first long line on. */
  ghost predicate NothingLost(s: Bytes) {
    ShortLines(s) || FromLongLine(s) == Payload([], Failed(IncompleteBody))
  }

  lemma NothingLostSuffices(s: Bytes)
    requires SizesNonNegative(s) && NothingLost(s)
    ensures SlicingIndependent(s)
  {
    forall c: Cursor | Ahead(c) == s && c.framed == [] && c.tail.Eof? && Proper(c) ensures Decoded(c) == OneShot(s) {
      if ShortLines(s) { ReaderRefinesDecoder(c); } else { NothingAfterLongLine(c); }
    }
  }

  lemma LossDepends(s: Bytes)
    requires SizesNonNegative(s) && !NothingLost(s)
    ensures !SlicingIndependent(s)
  {
    var c := Dripping(s, 0);
    DrippingIsASlicing(s);
    LongLineFailsByByte(s);
    MoreToGive(Decoded(c), FromLongLine(s));
    assert c.tail.Eof?;
  }

  lemma MoreToGive(p: Payload, more: Payload)
    requires p.end == Failed(IncompleteBody) && more != Payload([], Failed(IncompleteBody))
    ensures Payload(p.bytes + more.bytes, more.end) != p
  {
    if p.bytes + more.bytes == p.bytes { assert |more.bytes| == 0; }
  }

  /** Over a source that slices as it likes, the result is independent of the slicing if and only if no line has more
      than 8191 bytes, or the body breaks there anyway with nothing more to give. */
  lemma SlicingIndependence(s: Bytes)
    requires SizesNonNegative(s)
    ensures SlicingIndependent(s) <==> NothingLost(s)
    ensures OneShot(s).end.Done? ==> (NothingLost(s) <==> ShortLines(s))
  {
    if NothingLost(s) { NothingLostSuffices(s); } else { LossDepends(s); }
    if !ShortLines(s) { LongLineFailsByByte(s); }
  }

  // ---------- a frame of negative size ----------

  /** `-2`, then two line ends around a final frame. */
  const NEGATIVE_FRAME: Bytes := [45, 50, 13, 10, 13, 10, 48, 13, 10, 13, 10]

  const WHOLE := Cursor([], [NEGATIVE_FRAME], Eof)
  const IN_TWO := Cursor([], [NEGATIVE_FRAME[..4], NEGATIVE_FRAME[4..]], Eof)

  /** A negative size slices from the end of what happens to be buffered: two slicings of one complete body both come
      to an end, with different payloads. */
  lemma NegativeSizeDependsOnSlicing()
    ensures Ahead(WHOLE) == Ahead(IN_TWO) == NEGATIVE_FRAME
    ensures Decoded(WHOLE) == Payload([13, 10, 48, 13, 10], Done)
    ensures Decoded(IN_TWO) == Payload([], Done)
  {
    assert Flatten([NEGATIVE_FRAME]) == NEGATIVE_FRAME;
    assert IN_TWO.slices[1..] == [AFTER_SIZE] && Flatten([AFTER_SIZE]) == AFTER_SIZE;
    assert NEGATIVE_FRAME[..4] + AFTER_SIZE == NEGATIVE_FRAME;
    MinusTwo();
    AllBuffered();
    NothingBuffered();
  }

  lemma MinusTwo()
    ensures ParseFrameSize([45, 50]) == Some(-2)
  {
    assert BeforeSemicolon([45, 50]) == [45, 50] by {
      assert [45, 50][1..] == [50] && [50][1..] == [];
    }
    assert HexDigits([50], true, 0) == Some(2) by { assert [50][1..] == []; }
    assert [45, 50][1..] == [50];
  }

  const AFTER_SIZE := NEGATIVE_FRAME[4..]

  lemma AllBuffered()
    requires ParseFrameSize([45, 50]) == Some(-2)
    ensures Decoded(WHOLE) == Payload([13, 10, 48, 13, 10], Done)
  {
    var c := Refill(WHOLE);
    FoundAt(c.framed, 2);
    assert ReadLine(WHOLE) == Line([45, 50], Cursor(AFTER_SIZE, [], Eof));
    var rest := Cursor(AFTER_SIZE[5..], [], Eof);
    assert ReadExact(Cursor(AFTER_SIZE, [], Eof), -2) == Exact(AFTER_SIZE[..5], rest);
    assert ReadExact(rest, 2) == Exact(AFTER_SIZE[5..], Cursor([], [], Eof));
    assert DecodeFrame(Cursor([], [], Eof)).Last?;
  }

  lemma NothingBuffered()
    requires ParseFrameSize([45, 50]) == Some(-2)
    ensures Decoded(IN_TWO) == Payload([], Done)
  {
    FoundAt(Refill(IN_TWO).framed, 2);
    var c := Cursor([], [AFTER_SIZE], Eof);
    assert ReadLine(IN_TWO) == Line([45, 50], c);
    assert ReadExact(c, -2) == Exact([], c);
    var rest := Cursor(AFTER_SIZE[2..], [], Eof);
    assert ReadExact(c, 2) == Exact(AFTER_SIZE[..2], rest);
    FinalFrame(rest);
  }

  lemma FinalFrame(c: Cursor)
    requires c == Cursor(AFTER_SIZE[2..], [], Eof)
    ensures DecodeFrame(c).Last?
  {
    FoundAt(c.framed, 1);
    assert ReadLine(c) == Line([48], Cursor(AFTER_SIZE[5..], [], Eof));
    assert ParseFrameSize([48]) == Some(0) by { HeaderReadsBack(0, []); assert HexSize(0) + [] == [48]; }
    FoundAt(AFTER_SIZE[5..], 0);
  }

  ghost predicate Slicing(c: Cursor, s: Bytes) {
    Ahead(c) == s && c.framed == [] && c.tail.Eof? && Proper(c)
  }

  /** The body begins with the size line of a frame of size `-n`. */
  ghost predicate NegativeFrame(s: Bytes, n: int) {
    var i := FindCrlf(s);
    0 < i < CHUNK_LINE_MAX_BYTES && n > 0 && ParseFrameSize(s[..i]) == Some(-n)
  }

  function AfterLine(s: Bytes): Bytes
    requires FindCrlf(s) >= 0
  {
    s[FindCrlf(s) + 2..]
  }

  /** The frame's data, or nothing if it breaks. */
  function Shown(f: Frame): Option<Bytes> { if f.Frame? then Some(f.data) else None }

  /** What a frame shows that takes `k` bytes of what follows its size line. */
  function ShownOf(rest: Bytes, k: nat): Option<Bytes> { if k + 2 <= |rest| then Some(rest[..k]) else None }

  lemma NegativePayload(c: Cursor, n: int)
    requires n > 0
    ensures Shown(ReadPayload(c, -n)) == ShownOf(Ahead(c), if n < |c.framed| then |c.framed| - n else 0)
  {
    var k := if n < |c.framed| then |c.framed| - n else 0;
    var mid := c.(framed := c.framed[k..]);
    assert Cut(c.framed, -n) == k;
    assert ReadExact(c, -n) == Exact(c.framed[..k], mid);
    ExactAgrees(mid, 2);
    assert |Ahead(mid)| == |Ahead(c)| - k && c.framed[..k] == Ahead(c)[..k];
  }

  lemma NegativeFrameShows(c: Cursor, s: Bytes, n: int)
    requires Ahead(c) == s && NegativeFrame(s, n)
    ensures ReadLine(c).Line? && Ahead(ReadLine(c).rest) == AfterLine(s)
    ensures var b := |ReadLine(c).rest.framed|; Shown(DecodeFrame(c)) == ShownOf(AfterLine(s), if n < b then b - n else 0)
  {
    hide FindFrom, CrlfAt, ReadLine, ReadPayload;
    LineAgrees(c);
    NegativePayload(ReadLine(c).rest, n);
  }

  /** The body in two slices, the first of `m` bytes, or in one. */
  function InTwo(s: Bytes, m: nat): Cursor
    requires 0 < m <= |s|
  {
    Cursor([], if m < |s| then [s[..m], s[m..]] else [s], Eof)
  }

  lemma InTwoIsSlicing(s: Bytes, m: nat)
    requires 0 < m <= |s|
    ensures Slicing(InTwo(s, m), s)
  {
    var c := InTwo(s, m);
    if m < |s| {
      assert c.slices[1..] == [s[m..]] && Flatten([s[m..]]) == s[m..] && s[..m] + s[m..] == s;
    } else {
      assert Flatten([s]) == s;
    }
  }

  lemma InTwoBuffers(s: Bytes, m: nat)
    requires FindCrlf(s) >= 0 && FindCrlf(s) + 2 <= m <= |s|
    ensures ReadLine(InTwo(s, m)).Line? && |ReadLine(InTwo(s, m)).rest.framed| == m - FindCrlf(s) - 2
  {
    var i, t := FindCrlf(s), s[..m];
    assert CrlfAt(t, i) && forall k :: CrlfAt(t, k) ==> CrlfAt(s, k);
    FoundAt(t, i);
    assert Refill(InTwo(s, m)).framed == t;
  }

  /** Every slicing shows the same first frame of negative size `-n` exactly when no more than `n` bytes follow its size
      line: none of them can then be buffered and spared. */
  lemma NegativeFrameDetermined(s: Bytes, n: int)
    requires NegativeFrame(s, n)
    ensures (forall c, c' :: Slicing(c, s) && Slicing(c', s) ==> Shown(DecodeFrame(c)) == Shown(DecodeFrame(c'))) <==> |AfterLine(s)| <= n
  {
    hide FindFrom, CrlfAt, ParseFrameSize, DecodeFrame, ReadLine;
    var i, rest := FindCrlf(s), AfterLine(s);
    if |rest| <= n {
      forall c, c' | Slicing(c, s) && Slicing(c', s) ensures Shown(DecodeFrame(c)) == Shown(DecodeFrame(c')) {
        NegativeFrameShows(c, s, n);
        NegativeFrameShows(c', s, n);
      }
    } else {
      var c, c' := InTwo(s, i + 2), InTwo(s, |s|);
      InTwoIsSlicing(s, i + 2);
      InTwoIsSlicing(s, |s|);
      InTwoBuffers(s, i + 2);
      InTwoBuffers(s, |s|);
      NegativeFrameShows(c, s, n);
      NegativeFrameShows(c', s, n);
      assert Shown(DecodeFrame(c)) == Some(rest[..0]) && Shown(DecodeFrame(c')) == ShownOf(rest, |rest| - n);
    }
  }

  // ---------- what a client sends ----------

  /** A frame as a client writes it: its size in hexadecimal, an extension after a semicolon, its bytes. */
  datatype Sent = Sent(data: Bytes, ext: Bytes)

  function Header(size: nat, ext: Bytes): Bytes { HexSize(size) + ext }

  /** A line without a line end inside it, within the limit. */
  ghost predicate Sendable(line: Bytes) { FindCrlf(line) == -1 && 0 < |line| < CHUNK_LINE_MAX_BYTES }

  ghost predicate SendableHeader(size: nat, ext: Bytes) {
    (ext == [] || ext[0] == SEMICOLON) && Sendable(Header(size, ext))
  }

  function EncodeFrame(f: Sent): Bytes { Header(|f.data|, f.ext) + CRLF + f.data + CRLF }

  function EncodeTrailers(trailers: seq<Bytes>): Bytes {
    if trailers == [] then CRLF else trailers[0] + CRLF + EncodeTrailers(trailers[1..])
  }

  /** The frames, the final frame of size zero, its trailing headers and the closing empty line. */
  function Encode(frames: seq<Sent>, ext: Bytes, trailers: seq<Bytes>): Bytes {
    if frames == [] then Header(0, ext) + CRLF + EncodeTrailers(trailers)
    else EncodeFrame(frames[0]) + Encode(frames[1..], ext, trailers)
  }

  ghost predicate WellSent(frames: seq<Sent>, ext: Bytes, trailers: seq<Bytes>) {
    && (forall i :: 0 <= i < |frames| ==> frames[i].data != [] && SendableHeader(|frames[i].data|, frames[i].ext))
    && SendableHeader(0, ext)
    && (forall i :: 0 <= i < |trailers| ==> Sendable(trailers[i]))
  }

  function SentBytes(frames: seq<Sent>): Bytes {
    if frames == [] then [] else frames[0].data + SentBytes(frames[1..])
  }

  lemma FirstLine(line: Bytes, rest: Bytes)
    requires FindCrlf(line) == -1
    ensures var s := line + CRLF + rest; FindCrlf(s) == |line| && s[..|line|] == line && s[|line| + 2..] == rest
  {
    FoundAfterLine(line, rest);
  }

  lemma {:induction false} EncodedTrailers(trailers: seq<Bytes>)
    requires forall i :: 0 <= i < |trailers| ==> Sendable(trailers[i])
    ensures TrailerComplete(EncodeTrailers(trailers)) && ShortTrailer(EncodeTrailers(trailers))
  {
    if trailers == [] {
      FirstLine([], []);
      assert [] + CRLF + [] == CRLF;
    } else {
      FirstLine(trailers[0], EncodeTrailers(trailers[1..]));
      EncodedTrailers(trailers[1..]);
    }
  }

  lemma EncodedLast(ext: Bytes, trailers: seq<Bytes>)
    requires WellSent([], ext, trailers)
    ensures var s := Encode([], ext, trailers);
      OneShot(s) == Payload([], Done) && SizesNonNegative(s) && ShortLines(s)
  {
    FirstLine(Header(0, ext), EncodeTrailers(trailers));
    HeaderReadsBack(0, ext);
    EncodedTrailers(trailers);
  }

  lemma EncodedFirst(f: Sent, rest: Bytes)
    requires f.data != [] && SendableHeader(|f.data|, f.ext)
    ensures var s := EncodeFrame(f) + rest;
      && OneShot(s) == Payload(f.data + OneShot(rest).bytes, OneShot(rest).end)
      && (SizesNonNegative(rest) ==> SizesNonNegative(s)) && (ShortLines(rest) ==> ShortLines(s))
  {
    var body := f.data + CRLF + rest;
    assert EncodeFrame(f) + rest == Header(|f.data|, f.ext) + CRLF + body;
    FirstLine(Header(|f.data|, f.ext), body);
    HeaderReadsBack(|f.data|, f.ext);
    assert body[..|f.data|] == f.data && body[|f.data| + 2..] == rest;
  }

  /** The decoder inverts the encoder. */
  lemma {:induction false} DecodeEncode(frames: seq<Sent>, ext: Bytes, trailers: seq<Bytes>)
    requires WellSent(frames, ext, trailers)
    ensures var s := Encode(frames, ext, trailers);
      OneShot(s) == Payload(SentBytes(frames), Done) && SizesNonNegative(s) && ShortLines(s)
  {
    if frames == [] {
      EncodedLast(ext, trailers);
    } else {
      DecodeEncode(frames[1..], ext, trailers);
      EncodedFirst(frames[0], Encode(frames[1..], ext, trailers));
    }
  }

  // ---------- sequences of reads ----------

  /** Successive reads of the given sizes, until one raises. */
  function Reads(owed: Payload, sizes: seq<nat>): Option<seq<Bytes>>
    decreases sizes
  {
    if sizes == [] then Some([])
    else match Give(owed, sizes[0])
      case Raises(_) => None
      case Given(data, rest) =>
        match Reads(rest, sizes[1..])
        case None => None
        case Some(later) => Some([data] + later)
  }

  /** Successive reads of a complete body return it piece by piece: their concatenation is a prefix of it, and all of
      it once a read has come back shorter than asked for. */
  lemma {:induction false} ReadsReturnTheBody(owed: Payload, sizes: seq<nat>)
    requires owed.end.Done?
    ensures Reads(owed, sizes).Some?
    ensures var got := Reads(owed, sizes).value;
      && |got| == |sizes| && Flatten(got) <= owed.bytes
      && ((exists i :: 0 <= i < |got| && |got[i]| < sizes[i]) ==> Flatten(got) == owed.bytes)
    decreases sizes
  {
    if sizes != [] {
      var given := Give(owed, sizes[0]);
      ReadsReturnTheBody(given.owed, sizes[1..]);
      var later := Reads(given.owed, sizes[1..]).value;
      var got := [given.data] + later;
      assert Reads(owed, sizes) == Some(got);
      assert got[1..] == later && Flatten(got) == given.data + Flatten(later);
      assert owed.bytes == given.data + given.owed.bytes;
      forall i | 0 <= i < |got| && |got[i]| < sizes[i] ensures Flatten(later) == given.owed.bytes {
        if i == 0 {
          assert given.owed.bytes == [];
        } else {
          assert |later[i - 1]| < sizes[1..][i - 1];
        }
      }
    }
  }

  /** The round trip: for every list of frames with any extensions and trailers, every slicing of their encoding into
      source answers, and every sequence of read sizes, the reads return the frames' bytes one after the other. */
  lemma ChunkedRoundTrip(frames: seq<Sent>, ext: Bytes, trailers: seq<Bytes>, c: Cursor, sizes: seq<nat>)
    requires WellSent(frames, ext, trailers) && Ahead(c) == Encode(frames, ext, trailers) && c.tail.Eof?
    ensures Decoded(c) == Payload(SentBytes(frames), Done)
    ensures Reads(Owed(Reader([], c, false)), sizes).Some?
    ensures var got := Reads(Owed(Reader([], c, false)), sizes).value;
      && |got| == |sizes| && Flatten(got) <= SentBytes(frames)
      && ((exists i :: 0 <= i < |got| && |got[i]| < sizes[i]) ==> Flatten(got) == SentBytes(frames))
  {
    DecodeEncode(frames, ext, trailers);
    ReaderRefinesDecoder(c);
    assert [] + SentBytes(frames) == SentBytes(frames);
    ReadsReturnTheBody(Payload(SentBytes(frames), Done), sizes);
  }
}
