/** `AwsChunkedReader` (app/streams.py): strips aws-chunked framing from whatever source it is stacked on. */
module ChunkedReaders {
  import opened Text
  import opened Etags
  import opened FrameLines
  import opened BodyReaders
  import opened ChunkedFraming

  /** A source that answers reads with slices of its own choosing, then ends or fails. */
  class SliceFeed {
    var slices: seq<Bytes>
    const tail: Tail

    constructor (answers: seq<Bytes>, end: Tail)
      ensures slices == answers && tail == end
    {
      slices, tail := answers, end;
    }

    method Read() returns (tooLarge: bool, data: Bytes)
      modifies this
      ensures old(slices) != [] ==> !tooLarge && data == old(slices)[0] && slices == old(slices)[1..]
      ensures old(slices) == [] ==> slices == [] && tooLarge == tail.Overflow? && data == []
    {
      if slices == [] { return tail.Overflow?, []; }
      data, slices := slices[0], slices[1..];
      return false, data;
    }
  }

  /** What the reader is stacked on: the request's body, or any other readable. */
  datatype Source = OfBody(body: RequestBodyReader) | OfFeed(feed: SliceFeed)

  class AwsChunkedReader {
    const source: Source
    var framed: Bytes
    var payload: Bytes
    var drained: bool
    var finished: bool

    ghost function Footprint(): set<object> {
      {this, match source case OfBody(b) => b as object case OfFeed(f) => f as object}
    }

    ghost predicate SourceValid()
      reads Footprint()
    {
      match source
      case OfBody(b) => b.Valid()
      case OfFeed(f) => forall i :: 0 <= i < |f.slices| ==> f.slices[i] != []
    }

    /** The source's answers still to come. */
    ghost function Upcoming(): Answers
      requires SourceValid()
      reads Footprint()
    {
      match source
      case OfBody(b) => AnswersOf(b.State(), FILE_CHUNK_SIZE_BYTES, b.maxBytes)
      case OfFeed(f) => Answers(f.slices, f.tail)
    }

    ghost predicate Valid()
      reads Footprint()
    {
      SourceValid() && (drained ==> Upcoming() == Answers([], Eof)) && (source.OfBody? ==> this as object != source.body)
        && (source.OfFeed? ==> this as object != source.feed)
    }

    ghost function Here(): Cursor
      requires SourceValid()
      reads Footprint()
    {
      Cursor(framed, Upcoming().slices, Upcoming().tail)
    }

    ghost function Owing(): Payload
      requires SourceValid()
      reads Footprint()
    {
      Owed(Reader(payload, Here(), finished))
    }

    constructor (on: Source)
      requires match on case OfBody(b) => b.Valid() case OfFeed(f) => forall i :: 0 <= i < |f.slices| ==> f.slices[i] != []
      ensures Valid() && source == on && framed == [] && payload == [] && !finished
      ensures match on
        case OfBody(b) => Upcoming() == AnswersOf(b.State(), FILE_CHUNK_SIZE_BYTES, b.maxBytes)
        case OfFeed(f) => Upcoming() == Answers(f.slices, f.tail)
    {
      source := on;
      framed, payload, drained, finished := [], [], false, false;
    }

    /** `_receive`. */
    method Receive() returns (error: Option<Error>, more: bool)
      requires Valid()
      modifies Footprint()
      ensures payload == old(payload) && finished == old(finished)
      ensures old(Here()).slices != [] ==> error.None? && more && Valid() && Here() == Refill(old(Here()))
      ensures old(Here()).slices == [] && old(Here()).tail.Eof? ==> error.None? && !more && Valid() && Here() == old(Here())
      ensures old(Here()).slices == [] && old(Here()).tail.Overflow? ==> error == Some(BodyTooLarge)
    {
      if drained { return None, false; }
      var tooLarge, chunk;
      match source
      case OfBody(b) =>
        ghost var before := b.State();
        ReadIsExact(before, FILE_CHUNK_SIZE_BYTES, b.maxBytes);
        tooLarge, chunk := b.Read(FILE_CHUNK_SIZE_BYTES);
        if tooLarge { return Some(BodyTooLarge), false; }
        if chunk == [] {
          ReadIsExact(b.State(), FILE_CHUNK_SIZE_BYTES, b.maxBytes);
          drained := true;
          return None, false;
        }
        framed := framed + chunk;
        return None, true;
      case OfFeed(f) =>
        tooLarge, chunk := f.Read();
        if tooLarge { return Some(BodyTooLarge), false; }
        if chunk == [] {
          drained := true;
          return None, false;
        }
        framed := framed + chunk;
        return None, true;
    }

    /** `_read_line`: the next line, or None at the end of the framed body. */
    method NextLine() returns (error: Option<Error>, line: Option<Bytes>)
      requires Valid()
      modifies Footprint()
      ensures payload == old(payload) && finished == old(finished)
      ensures match ReadLine(old(Here()))
        case Line(text, rest) => error.None? && line == Some(text) && Valid() && Here() == rest
        case NoLine => error.None? && line.None? && Valid() && Here() == Cursor([], [], Eof)
        case BadLine(e) => error == Some(e)
    {
      while true
        invariant Valid() && payload == old(payload) && finished == old(finished)
        invariant ReadLine(Here()) == ReadLine(old(Here()))
        decreases |Here().slices|
      {
        var index := FindCrlf(framed);
        if index >= 0 {
          line := Some(framed[..index]);
          framed := framed[index + 2..];
          return None, line;
        }
        if |framed| > CHUNK_LINE_MAX_BYTES { return Some(IncompleteBody), None; }
        var failed, more := Receive();
        if failed.Some? { return failed, None; }
        if !more {
          if framed != [] { return Some(IncompleteBody), None; }
          return None, None;
        }
      }
    }

    /** `_read_exact`. */
    method TakeExact(count: int) returns (error: Option<Error>, data: Bytes)
      requires Valid()
      modifies Footprint()
      ensures payload == old(payload) && finished == old(finished)
      ensures match ReadExact(old(Here()), count)
        case Exact(bytes, rest) => error.None? && data == bytes && Valid() && Here() == rest
        case Short(e) => error == Some(e)
    {
      while |framed| < count
        invariant Valid() && payload == old(payload) && finished == old(finished)
        invariant ReadExact(Here(), count) == ReadExact(old(Here()), count)
        decreases |Here().slices|
      {
        var failed, more := Receive();
        if failed.Some? { return failed, []; }
        if !more { return Some(IncompleteBody), []; }
      }
      var n := Cut(framed, count);
      data, framed := framed[..n], framed[n..];
      return None, data;
    }

    /** `_skip_trailer`. */
    method DropTrailer() returns (error: Option<Error>)
      requires Valid()
      modifies Footprint()
      ensures payload == old(payload) && finished == old(finished)
      ensures match SkipTrailer(old(Here()))
        case Broken(e) => error == Some(e)
        case _ => error.None? && Valid()
    {
      while true
        invariant Valid() && payload == old(payload) && finished == old(finished)
        invariant SkipTrailer(Here()) == SkipTrailer(old(Here()))
        decreases |Ahead(Here())|
      {
        ReadLineAdvances(Here());
        var failed, line := NextLine();
        if failed.Some? { return failed; }
        if line.None? || line.value == [] { return None; }
      }
    }

    /** `_decode_frame`: a frame more in the payload buffer, or the end. */
    method DecodeNext() returns (error: Option<Error>)
      requires Valid() && !finished
      modifies Footprint()
      ensures match DecodeFrame(old(Here()))
        case Broken(e) => error == Some(e)
        case Last(_) => error.None? && Valid() && finished && payload == old(payload)
        case Frame(data, rest) => error.None? && Valid() && !finished && payload == old(payload) + data && Here() == rest
    {
      FrameAdvances(Here());
      var line;
      error, line := NextLine();
      if error.Some? { return; }
      if line.None? {
        finished := true;
        return;
      }
      if line.value == [] { return; }
      var size := ParseFrameSize(line.value);
      if size.None? { return Some(IncompleteBody); }
      if size.value == 0 {
        TrailerEnds(Here());
        error := DropTrailer();
        if error.None? { finished := true; }
        return;
      }
      var data;
      error, data := TakeExact(size.value);
      if error.Some? { return; }
      payload := payload + data;
      error, data := TakeExact(2);
    }

    /** `read`: what the body owes, as many bytes as asked for; after a failure the reader is not used again. */
    method Read(size: int) returns (error: Option<Error>, data: Bytes)
      requires Valid()
      modifies Footprint()
      ensures match Give(old(Owing()), size)
        case Given(bytes, owed) => error.None? && data == bytes && Valid() && Owing() == owed
        case Raises(e) => error == Some(e)
    {
      ghost var owed := Owing();
      ghost var state := Reader(payload, Here(), finished);
      while !finished && (size < 0 || |payload| < size)
        invariant Valid() && state == Reader(payload, Here(), finished) && Owed(state) == owed
        decreases !finished, |Ahead(state.cursor)|
      {
        FrameAdvances(state.cursor);
        OwedStep(state);
        var failed := DecodeNext();
        if failed.Some? { return failed, []; }
        state := Reader(payload, Here(), finished);
      }
      GivenFromBuffer(state, size);
      if size < 0 {
        data, payload := payload, [];
        return None, data;
      }
      var n := if size <= |payload| then size else |payload|;
      data, payload := payload[..n], payload[n..];
      return None, data;
    }
  }

  /** With enough payload buffered, or the body finished, a read is served from the buffer. */
  lemma GivenFromBuffer(r: Reader, size: int)
    requires r.finished || (0 <= size <= |r.payload|)
    ensures var n := if 0 <= size <= |r.payload| then size else |r.payload|;
      Give(Owed(r), size) == Given(r.payload[..n], Owed(r.(payload := r.payload[n..])))
    ensures size < 0 ==> r.payload[..|r.payload|] == r.payload && r.payload[|r.payload|..] == []
  {
    var n := if 0 <= size <= |r.payload| then size else |r.payload|;
    if !r.finished {
      var later := Decoded(r.cursor).bytes;
      assert (r.payload + later)[..n] == r.payload[..n] && (r.payload + later)[n..] == r.payload[n..] + later;
    }
  }

  /** Decoding a frame moves bytes from what is to come into the buffer and owes the same. */
  lemma OwedStep(r: Reader)
    requires !r.finished
    ensures match DecodeFrame(r.cursor)
      case Frame(data, rest) => Owed(Reader(r.payload + data, rest, false)) == Owed(r)
      case Last(_) => Owed(r) == Payload(r.payload, Done) == Owed(r.(finished := true))
      case Broken(e) => Owed(r) == Payload(r.payload, Failed(e))
  {
  }
}
