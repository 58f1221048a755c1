/** `upload` and `_atomic_write_stream` (app/repositories/io.py) draining the body reader that
    `build_body_reader` (app/streams.py) chooses. */
module Uploading {
  import opened Text
  import opened Etags
  import opened Paths
  import opened FrameLines
  import opened BodyReaders
  import opened ChunkedFraming
  import opened ChunkedReaders

  // ---------- which reader ----------

  predicate Contains(s: string, part: string) {
    exists i :: 0 <= i <= |s| && part <= s[i..]
  }

  /** `_is_aws_chunked`; a missing header is the empty string. */
  predicate IsAwsChunked(encoding: string, payloadHash: string) {
    Contains(Lower(encoding), "aws-chunked") || "STREAMING-" <= payloadHash
  }

  /** `e` is the lower-case `word` in some capitalization. */
  ghost predicate Capitalizes(e: string, word: string) {
    |e| == |word| && forall i :: 0 <= i < |e| ==> e[i] == word[i] || ('a' <= word[i] <= 'z' && e[i] as int == word[i] as int - 32)
  }

  /** The headers announce framing: a coding named somewhere in one of them, or the beginning of the other. */
  ghost predicate AnnouncesFraming(encoding: string, payloadHash: string) {
    || (exists i, j :: 0 <= i <= j <= |encoding| && Capitalizes(encoding[i..j], "aws-chunked"))
    || (exists x :: payloadHash == "STREAMING-" + x)
  }

  lemma CapitalizedLowers(e: string, word: string)
    requires forall i :: 0 <= i < |word| ==> !('A' <= word[i] <= 'Z')
    ensures Capitalizes(e, word) <==> Lower(e) == word
  {
    if Lower(e) == word {
      forall i | 0 <= i < |e| ensures e[i] == word[i] || ('a' <= word[i] <= 'z' && e[i] as int == word[i] as int - 32) {
        assert LowerChar(e[i]) == word[i];
      }
    }
  }

  /** A body is unframed exactly when its headers announce the framing, whatever else they hold and however they
      capitalize it. */
  lemma FramingIsAnnounced(encoding: string, payloadHash: string)
    ensures IsAwsChunked(encoding, payloadHash) <==> AnnouncesFraming(encoding, payloadHash)
  {
    var word, low := "aws-chunked", Lower(encoding);
    if Contains(low, word) {
      var i :| 0 <= i <= |low| && word <= low[i..];
      var j := i + |word|;
      assert Lower(encoding[i..j]) == low[i..][..|word|] == word;
      CapitalizedLowers(encoding[i..j], word);
    }
    forall i, j | 0 <= i <= j <= |encoding| && Capitalizes(encoding[i..j], word) ensures Contains(low, word) {
      CapitalizedLowers(encoding[i..j], word);
      assert low[i..][..|word|] == Lower(encoding[i..j]);
    }
    if "STREAMING-" <= payloadHash { assert payloadHash == "STREAMING-" + payloadHash[|"STREAMING-"|..]; }
  }

  /** Anything `upload` can drain. */
  datatype Readable = Plain(body: RequestBodyReader) | Chunked(reader: AwsChunkedReader)

  ghost function Objects(r: Readable): set<object> {
    match r
    case Plain(body) => {body}
    case Chunked(reader) => reader.Footprint()
  }

  ghost predicate Ready(r: Readable)
    reads Objects(r)
  {
    match r
    case Plain(body) => body.Valid()
    case Chunked(reader) => reader.Valid()
  }

  /** Everything the readable will give, and how it ends. */
  ghost function Promise(r: Readable): Payload
    requires Ready(r)
    reads Objects(r)
  {
    match r
    case Plain(body) => PlainPayload(body.State(), body.maxBytes)
    case Chunked(reader) => reader.Owing()
  }

  function PlainPayload(b: Body, maxBytes: nat): Payload
    requires b.received <= maxBytes
  {
    var a := AnswersOf(b, FILE_CHUNK_SIZE_BYTES, maxBytes);
    Payload(Flatten(a.slices), if a.tail.Eof? then Done else Failed(BodyTooLarge))
  }

  /** The payload a body with the given chunks carries, framed or not. */
  function BodyPayload(chunks: seq<Bytes>, maxBytes: nat, framed: bool): Payload {
    var b := Body(chunks, [], 0);
    var a := AnswersOf(b, FILE_CHUNK_SIZE_BYTES, maxBytes);
    if framed then Decoded(Cursor([], a.slices, a.tail)) else PlainPayload(b, maxBytes)
  }

  /** `build_body_reader`: the body's reader, unwrapped when it is framed; an oversized declaration is refused. */
  method BuildBodyReader(chunks: seq<Bytes>, encoding: string, payloadHash: string,
      decoded: Option<string>, length: Option<string>, maxBytes: nat)
    returns (declared: Declared, readable: Option<Readable>)
    ensures declared == DeclaredLength(decoded, length, maxBytes) && (readable.Some? <==> declared.Acceptable?)
    ensures readable.Some? ==> fresh(Objects(readable.value)) && Ready(readable.value)
    ensures readable.Some? ==> Promise(readable.value) == BodyPayload(chunks, maxBytes, AnnouncesFraming(encoding, payloadHash))
  {
    declared := DeclaredLength(decoded, length, maxBytes);
    if !declared.Acceptable? { return declared, None; }
    FramingIsAnnounced(encoding, payloadHash);
    var body := new RequestBodyReader(chunks, maxBytes);
    if !IsAwsChunked(encoding, payloadHash) { return declared, Some(Readable.Plain(body)); }
    var reader := new AwsChunkedReader(OfBody(body));
    OwedAtStart(reader.Here());
    return declared, Some(Chunked(reader));
  }

  lemma OwedAtStart(c: Cursor)
    ensures Owed(Reader([], c, false)) == Decoded(c)
  {
  }

  // ---------- draining ----------

  /** One read of a file-sized chunk. */
  method ReadChunk(r: Readable) returns (error: Option<Error>, chunk: Bytes)
    requires Ready(r)
    modifies Objects(r)
    ensures match Give(old(Promise(r)), FILE_CHUNK_SIZE_BYTES)
      case Given(bytes, owed) => error.None? && chunk == bytes && Ready(r) && Promise(r) == owed
      case Raises(e) => error == Some(e)
  {
    match r
    case Chunked(reader) => error, chunk := reader.Read(FILE_CHUNK_SIZE_BYTES);
    case Plain(body) =>
      ghost var before := body.State();
      PlainGives(before, body.maxBytes);
      var tooLarge;
      tooLarge, chunk := body.Read(FILE_CHUNK_SIZE_BYTES);
      return if tooLarge then Some(BodyTooLarge) else None, chunk;
  }

  /** The body's own answers are given the same way. */
  lemma PlainGives(b: Body, maxBytes: nat)
    requires b.received <= maxBytes
    ensures match ReadFrom(b, FILE_CHUNK_SIZE_BYTES, maxBytes)
      case TooLarge => Give(PlainPayload(b, maxBytes), FILE_CHUNK_SIZE_BYTES) == Raises(BodyTooLarge)
      case Reply(data, rest) =>
        rest.received <= maxBytes && Give(PlainPayload(b, maxBytes), FILE_CHUNK_SIZE_BYTES) == Given(data, PlainPayload(rest, maxBytes))
  {
    ReadIsExact(b, FILE_CHUNK_SIZE_BYTES, maxBytes);
    match ReadFrom(b, FILE_CHUNK_SIZE_BYTES, maxBytes)
    case TooLarge =>
    case Reply(data, rest) =>
      var owed := PlainPayload(b, maxBytes);
      if data == [] {
        ReadIsExact(rest, FILE_CHUNK_SIZE_BYTES, maxBytes);
      } else {
        var later := AnswersOf(rest, FILE_CHUNK_SIZE_BYTES, maxBytes);
        assert ([data] + later.slices)[1..] == later.slices;
        assert owed.bytes == data + PlainPayload(rest, maxBytes).bytes;
        if |data| < FILE_CHUNK_SIZE_BYTES { AnswersAreTheBody(rest, FILE_CHUNK_SIZE_BYTES, maxBytes); }
      }
  }

  /** One turn of the loop takes from what is owed what it gives. */
  lemma GivenIsOwed(owed: Payload)
    ensures match Give(owed, FILE_CHUNK_SIZE_BYTES)
      case Given(bytes, rest) => owed == Payload(bytes + rest.bytes, rest.end) && (bytes == [] ==> owed == Payload([], Done))
      case Raises(e) => owed.end == Failed(e)
  {
  }

  /** The reading loop of `upload`, writing to the temporary file. */
  method Drain(r: Readable) returns (error: Option<Error>, written: Bytes)
    requires Ready(r)
    modifies Objects(r)
    ensures match old(Promise(r)).end
      case Done => error.None? && written == old(Promise(r)).bytes
      case Failed(e) => error == Some(e)
  {
    written := [];
    ghost var owed := Promise(r);
    ghost var whole := owed;
    while true
      invariant Ready(r) && Promise(r) == owed
      invariant whole == Payload(written + owed.bytes, owed.end)
      decreases |owed.bytes|
    {
      GivenIsOwed(owed);
      var failed, chunk := ReadChunk(r);
      if failed.Some? { return failed, written; }
      if chunk == [] { return None, written; }
      owed := Promise(r);
      TakenFromFront(written, chunk, owed.bytes);
      written := written + chunk;
    }
  }

  lemma TakenFromFront(a: Bytes, b: Bytes, c: Bytes)
    ensures a + (b + c) == (a + b) + c
  {
  }

  /** `upload`: the destination gets the whole payload at once, or nothing changes. */
  method Upload(r: Readable, files: map<Path, Bytes>, temporary: Path, destination: Path) returns (error: Option<Error>, after: map<Path, Bytes>)
    requires Ready(r) && temporary !in files && temporary != destination
    modifies Objects(r)
    ensures match old(Promise(r)).end
      case Done => error.None? && after == files[destination := old(Promise(r)).bytes]
      case Failed(e) => error == Some(e) && after == files
  {
    var written;
    error, written := Drain(r);
    after := files[temporary := written];
    if error.None? {
      after := (after - {temporary})[destination := after[temporary]];
    } else {
      after := after - {temporary};
    }
  }
}
