/** aws-chunked decoding as `AwsChunkedReader` (app/streams.py) does it: a buffer of framed
    bytes, refilled from a source that answers in slices of its own choosing. */
module ChunkedFraming {
  import opened Text
  import opened Etags
  import opened FrameLines
  import opened BodyReaders

  const CHUNK_LINE_MAX_BYTES := 8192

  datatype Error = IncompleteBody | BodyTooLarge

  /** The framed bytes buffered, and the source's answers still to come (none of them empty). */
  datatype Cursor = Cursor(framed: Bytes, slices: seq<Bytes>, tail: Tail)

  ghost predicate Proper(c: Cursor) {
    forall i :: 0 <= i < |c.slices| ==> c.slices[i] != []
  }

  /** Bytes buffered or still to come. */
  function Ahead(c: Cursor): Bytes { c.framed + Flatten(c.slices) }

  /** `_receive`: the buffer with the next slice. */
  function Refill(c: Cursor): (r: Cursor)
    requires c.slices != []
    ensures Ahead(r) == Ahead(c)
  {
    Cursor(c.framed + c.slices[0], c.slices[1..], c.tail)
  }

  datatype Line = Line(text: Bytes, rest: Cursor) | NoLine | BadLine(error: Error)

  /** `_read_line`. */
  function ReadLine(c: Cursor): Line
    decreases |c.slices|
  {
    var i := FindCrlf(c.framed);
    if i >= 0 then Line(c.framed[..i], c.(framed := c.framed[i + 2..]))
    else if |c.framed| > CHUNK_LINE_MAX_BYTES then BadLine(IncompleteBody)
    else if c.slices != [] then ReadLine(Refill(c))
    else if c.tail.Overflow? then BadLine(BodyTooLarge)
    else if c.framed != [] then BadLine(IncompleteBody)
    else NoLine
  }

  datatype Exact = Exact(data: Bytes, rest: Cursor) | Short(error: Error)

  /** `b[:count]` and what `del b[:count]` leaves: a negative count keeps that many bytes from the end. */
  function Cut(s: Bytes, count: int): nat
    requires count <= |s|
    ensures Cut(s, count) <= |s|
  {
    if count >= 0 then count else if |s| + count >= 0 then |s| + count else 0
  }

  /** `_read_exact`. */
  function ReadExact(c: Cursor, count: int): Exact
    decreases |c.slices|
  {
    if count <= |c.framed| then
      var n := Cut(c.framed, count);
      Exact(c.framed[..n], c.(framed := c.framed[n..]))
    else if c.slices != [] then ReadExact(Refill(c), count)
    else Short(if c.tail.Overflow? then BodyTooLarge else IncompleteBody)
  }

  lemma {:induction false} ReadLineAdvances(c: Cursor)
    ensures match ReadLine(c)
      case Line(text, rest) => Ahead(c) == text + CRLF + Ahead(rest) && (Proper(c) ==> Proper(rest)) && rest.tail == c.tail
      case _ => true
    decreases |c.slices|
  {
    var i := FindCrlf(c.framed);
    if i >= 0 {
      assert c.framed == c.framed[..i] + CRLF + c.framed[i + 2..];
    } else if |c.framed| <= CHUNK_LINE_MAX_BYTES && c.slices != [] {
      ReadLineAdvances(Refill(c));
    }
  }

  lemma {:induction false} ReadExactAdvances(c: Cursor, count: int)
    ensures match ReadExact(c, count)
      case Exact(data, rest) =>
        Ahead(c) == data + Ahead(rest) && (count >= 0 ==> |data| == count) && (Proper(c) ==> Proper(rest)) && rest.tail == c.tail
      case Short(_) => true
    decreases |c.slices|
  {
    if count <= |c.framed| {
      var n := Cut(c.framed, count);
      assert c.framed == c.framed[..n] + c.framed[n..];
    } else if c.slices != [] {
      ReadExactAdvances(Refill(c), count);
    }
  }

  // ---------- frames ----------

  datatype Frame = Frame(data: Bytes, rest: Cursor) | Last(rest: Cursor) | Broken(error: Error)

  /** `_skip_trailer`: lines up to an empty one or the end. */
  function SkipTrailer(c: Cursor): Frame
    decreases |Ahead(c)|
  {
    ReadLineAdvances(c);
    match ReadLine(c)
    case BadLine(e) => Broken(e)
    case NoLine => Last(Cursor([], [], c.tail))
    case Line(text, rest) => if text == [] then Last(rest) else SkipTrailer(rest)
  }

  function ReadPayload(c: Cursor, size: int): Frame {
    match ReadExact(c, size)
    case Short(e) => Broken(e)
    case Exact(data, rest) =>
      match ReadExact(rest, 2)
      case Short(e) => Broken(e)
      case Exact(_, rest') => Frame(data, rest')
  }

  /** `_decode_frame`: a frame's payload, which is empty for a blank line. */
  function DecodeFrame(c: Cursor): Frame {
    match ReadLine(c)
    case NoLine => Last(Cursor([], [], c.tail))
    case BadLine(e) => Broken(e)
    case Line(text, rest) =>
      if text == [] then Frame([], rest)
      else match ParseFrameSize(text)
        case None => Broken(IncompleteBody)
        case Some(size) => if size == 0 then SkipTrailer(rest) else ReadPayload(rest, size)
  }

  lemma PayloadAdvances(c: Cursor, size: int)
    ensures match ReadPayload(c, size)
      case Frame(data, rest) => |data| + |Ahead(rest)| <= |Ahead(c)| && (Proper(c) ==> Proper(rest)) && rest.tail == c.tail
      case _ => true
  {
    ReadExactAdvances(c, size);
    match ReadExact(c, size)
    case Short(_) =>
    case Exact(_, rest) => ReadExactAdvances(rest, 2);
  }

  /** Every frame that neither ends nor breaks the body uses up bytes. */
  lemma FrameAdvances(c: Cursor)
    ensures match DecodeFrame(c)
      case Frame(data, rest) => |data| + |Ahead(rest)| < |Ahead(c)| && (Proper(c) ==> Proper(rest)) && rest.tail == c.tail
      case _ => true
  {
    ReadLineAdvances(c);
    match ReadLine(c)
    case NoLine =>
    case BadLine(_) =>
    case Line(text, rest) =>
      if text != [] && ParseFrameSize(text).Some? && ParseFrameSize(text) != Some(0) {
        PayloadAdvances(rest, ParseFrameSize(text).value);
      } else if text != [] && ParseFrameSize(text).Some? {
        TrailerEnds(rest);
      }
  }

  lemma {:induction false} TrailerEnds(c: Cursor)
    ensures !SkipTrailer(c).Frame?
    decreases |Ahead(c)|
  {
    ReadLineAdvances(c);
    match ReadLine(c)
    case BadLine(_) =>
    case NoLine =>
    case Line(text, rest) => if text != [] { TrailerEnds(rest); }
  }

  // ---------- the whole body ----------

  datatype End = Done | Failed(error: Error)

  /** The payload of all frames up to the end or the failure; a frame that breaks gives none. */
  datatype Payload = Payload(bytes: Bytes, end: End)

  function Decoded(c: Cursor): Payload
    decreases |Ahead(c)|
  {
    FrameAdvances(c);
    match DecodeFrame(c)
    case Last(_) => Payload([], Done)
    case Broken(e) => Payload([], Failed(e))
    case Frame(data, rest) =>
      var later := Decoded(rest);
      Payload(data + later.bytes, later.end)
  }

  // ---------- reading through the payload buffer ----------

  /** The payload buffered and the frames still to come. */
  datatype Reader = Reader(payload: Bytes, cursor: Cursor, finished: bool)

  function Owed(r: Reader): Payload {
    if r.finished then Payload(r.payload, Done)
    else Payload(r.payload + Decoded(r.cursor).bytes, Decoded(r.cursor).end)
  }

  datatype Given = Given(data: Bytes, owed: Payload) | Raises(error: Error)

  /** What `read` gives a caller, in terms of what the body still owes: as many bytes as asked for if there are
      so many, whatever comes after them; the rest if the body is complete; else the failure. */
  function Give(owed: Payload, size: int): Given {
    if 0 <= size <= |owed.bytes| then Given(owed.bytes[..size], Payload(owed.bytes[size..], owed.end))
    else match owed.end
      case Done => Given(owed.bytes, Payload([], Done))
      case Failed(e) => Raises(e)
  }
}
