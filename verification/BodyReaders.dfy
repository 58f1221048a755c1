/** `RequestBodyReader` (app/streams.py): a buffered, bounded reader over the chunks of a request body. */
module BodyReaders {
  import opened Text
  import opened Etags
  import opened Integers

  const FILE_CHUNK_SIZE_BYTES := 65536

  // ---------- the declared length ----------

  predicate IsSuperscript(c: char) { c == '\U{B2}' || c == '\U{B3}' || c == '\U{B9}' }

  /** `str.isdigit` over the characters a header can carry, those of Latin-1: it also accepts superscript digits. */
  predicate IsDigit(c: char) { '0' <= c <= '9' || IsSuperscript(c) }

  predicate AllDigits(header: string) { header != "" && forall c :: c in header ==> IsDigit(c) }

  datatype Declared = Acceptable | TooLong | Malformed

  /** The decoded length is preferred. */
  function Chosen(decoded: Option<string>, length: Option<string>): Option<string> {
    if decoded.Some? then decoded else length
  }

  /** `_assert_declared_length`: a header that is not all digits is ignored, and one that `int` refuses raises. */
  function DeclaredLength(decoded: Option<string>, length: Option<string>, maxBytes: nat): Declared {
    match Chosen(decoded, length)
    case None => Acceptable
    case Some(header) =>
      if !AllDigits(header) then Acceptable
      else match ParseInt(header)
        case None => Malformed
        case Some(n) => if n > maxBytes then TooLong else Acceptable
  }

  /** A plain declared length of at most 4300 digits is refused exactly when it exceeds the maximum; a longer one
      raises whatever the maximum. */
  lemma DeclaredLengthDecides(n: nat, other: Option<string>, maxBytes: nat)
    ensures var answer := if |Decimal(n)| > DIGITS_MAX then Malformed else if n > maxBytes then TooLong else Acceptable;
      DeclaredLength(Some(Decimal(n)), other, maxBytes) == answer && DeclaredLength(None, Some(Decimal(n)), maxBytes) == answer
  {
    DecimalParses(n);
  }

  /** The same of any plain digits, leading zeros included: they are refused exactly when the number they stand for exceeds
      the maximum. */
  lemma PlainLengthDecides(header: string, other: Option<string>, maxBytes: nat)
    requires header != "" && forall c :: c in header ==> '0' <= c <= '9'
    ensures var answer := if |header| > DIGITS_MAX then Malformed else if Value(header, 0) > maxBytes then TooLong else Acceptable;
      DeclaredLength(Some(header), other, maxBytes) == answer && DeclaredLength(None, Some(header), maxBytes) == answer
  {
    hide ParseInt, Numeral;
    PlainDigitsAreNumerals(header);
    IntegersRead(header);
    PlainDigitsParse(header);
  }

  /** A header is said to be ignored when it is malformed. It raises instead exactly when it passes `str.isdigit`
      and holds a superscript digit or more than 4300 digits. */
  lemma LengthRaises(decoded: Option<string>, length: Option<string>, maxBytes: nat)
    ensures DeclaredLength(decoded, length, maxBytes) == Malformed <==>
      match Chosen(decoded, length)
      case None => false
      case Some(header) => AllDigits(header) && ((exists c :: c in header && IsSuperscript(c)) || |header| > DIGITS_MAX)
  {
    match Chosen(decoded, length)
    case None =>
    case Some(header) =>
      if AllDigits(header) {
        if c :| c in header && IsSuperscript(c) {
          SuperscriptRaises(header, c);
        } else {
          PlainDigitsParse(header);
        }
      }
  }

  lemma SuperscriptRaises(header: string, c: char)
    requires AllDigits(header) && c in header && IsSuperscript(c)
    ensures ParseInt(header).None?
  {
    assert header[0] in header;
    OneBadCharacter(header, true, c);
  }

  /** No header, an empty one, and one with any other character pass. */
  lemma OtherLengthsPass(decoded: Option<string>, length: Option<string>, maxBytes: nat)
    requires match if decoded.Some? then decoded else length
      case None => true
      case Some(header) => header == "" || exists c :: c in header && !('0' <= c <= '9') && c as int !in {0xB2, 0xB3, 0xB9}
    ensures DeclaredLength(decoded, length, maxBytes).Acceptable?
  {
  }

  /** Headers that raise: each superscript digit, and too many digits. */
  lemma MalformedLengthIsNotIgnored(maxBytes: nat)
    ensures forall c: char :: c as int in {0xB2, 0xB3, 0xB9} ==> DeclaredLength(Some([c]), None, maxBytes) == Malformed
    ensures DeclaredLength(Some(seq(DIGITS_MAX + 1, _ => '9')), None, maxBytes) == Malformed
  {
    var long := seq(DIGITS_MAX + 1, _ => '9');
    forall c: char | c as int in {0xB2, 0xB3, 0xB9} ensures DeclaredLength(Some([c]), None, maxBytes) == Malformed {
      assert c in [c];
      LengthRaises(Some([c]), None, maxBytes);
    }
    LengthRaises(Some(long), None, maxBytes);
  }

  // ---------- reading as a value ----------

  /** The chunks still to come, what is buffered, and how much has been received. */
  datatype Body = Body(chunks: seq<Bytes>, buffer: Bytes, received: nat)

  datatype Reply = Reply(data: Bytes, rest: Body) | TooLarge

  /** Everything the reader could still return. */
  function Left(b: Body): Bytes { b.buffer + Flatten(b.chunks) }

  predicate Enough(b: Body, size: int) { 0 <= size <= |b.buffer| }

  /** Receives until there is enough or the body ends. */
  function Fill(b: Body, size: int, maxBytes: nat): Option<Body>
    decreases |b.chunks|
  {
    if Enough(b, size) || b.chunks == [] then Some(b)
    else
      var chunk := b.chunks[0];
      if b.received + |chunk| > maxBytes then None
      else Fill(Body(b.chunks[1..], b.buffer + chunk, b.received + |chunk|), size, maxBytes)
  }

  function ReadFrom(b: Body, size: int, maxBytes: nat): Reply {
    match Fill(b, size, maxBytes)
    case None => TooLarge
    case Some(full) =>
      if 0 <= size < |full.buffer| then Reply(full.buffer[..size], full.(buffer := full.buffer[size..]))
      else Reply(full.buffer, full.(buffer := []))
  }

  lemma {:induction false} FillKeeps(b: Body, size: int, maxBytes: nat)
    requires b.received <= maxBytes
    ensures match Fill(b, size, maxBytes)
      case None => b.received + |Flatten(b.chunks)| > maxBytes
      case Some(full) =>
        && Left(full) == Left(b) && (Enough(full, size) || full.chunks == [])
        && full.received - |full.buffer| == b.received - |b.buffer| && full.received <= maxBytes
        && full.received + |Flatten(full.chunks)| == b.received + |Flatten(b.chunks)|
    decreases |b.chunks|
  {
    if !Enough(b, size) && b.chunks != [] && b.received + |b.chunks[0]| <= maxBytes {
      FillKeeps(Body(b.chunks[1..], b.buffer + b.chunks[0], b.received + |b.chunks[0]|), size, maxBytes);
    }
  }

  /** A read returns the next bytes of the body: as many as asked for, fewer only when the body ends there;
      it fails only if the body is larger than allowed, and what has been returned and what is buffered
      always add up to what has been received. */
  lemma ReadIsExact(b: Body, size: int, maxBytes: nat)
    requires b.received <= maxBytes
    ensures match ReadFrom(b, size, maxBytes)
      case TooLarge => b.received + |Flatten(b.chunks)| > maxBytes
      case Reply(data, rest) =>
        && Left(b) == data + Left(rest)
        && (size >= 0 ==> |data| <= size) && (size < 0 || |data| < size ==> Left(rest) == [] && rest.chunks == [])
        && rest.received - |rest.buffer| == b.received - |b.buffer| + |data| && rest.received <= maxBytes
        && rest.received + |Flatten(rest.chunks)| == b.received + |Flatten(b.chunks)|
  {
    FillKeeps(b, size, maxBytes);
    match Fill(b, size, maxBytes)
    case None =>
    case Some(full) =>
      if 0 <= size < |full.buffer| {
        assert full.buffer == full.buffer[..size] + full.buffer[size..];
      }
  }

  // ---------- what a consumer that reads in file-sized chunks gets ----------

  datatype Tail = Eof | Overflow

  /** The answers to repeated reads of the given size, up to the end or the failure. */
  datatype Answers = Answers(slices: seq<Bytes>, tail: Tail)

  function AnswersOf(b: Body, size: nat, maxBytes: nat): Answers
    requires size > 0 && b.received <= maxBytes
    decreases |Left(b)|
  {
    ReadIsExact(b, size, maxBytes);
    match ReadFrom(b, size, maxBytes)
    case TooLarge => Answers([], Overflow)
    case Reply(data, rest) =>
      if data == [] then Answers([], Eof)
      else
        var later := AnswersOf(rest, size, maxBytes);
        Answers([data] + later.slices, later.tail)
  }

  /** The answers are the body itself, in full slices but for the last, when it fits; otherwise they are a
      prefix of it that ends in a failure and never in an end of body. */
  lemma {:induction false} AnswersAreTheBody(b: Body, size: nat, maxBytes: nat)
    requires size > 0 && b.received <= maxBytes
    ensures var a := AnswersOf(b, size, maxBytes);
      && (forall i :: 0 <= i < |a.slices| ==> 0 < |a.slices[i]| <= size)
      && (a.tail.Eof? ==> forall i :: 0 <= i < |a.slices| - 1 ==> |a.slices[i]| == size)
      && Flatten(a.slices) <= Left(b)
      && (a.tail.Eof? ==> Flatten(a.slices) == Left(b))
      && (a.tail.Eof? <==> b.received + |Flatten(b.chunks)| <= maxBytes)
      && |Flatten(a.slices)| <= |b.buffer| + (maxBytes - b.received)
    decreases |Left(b)|
  {
    ReadIsExact(b, size, maxBytes);
    match ReadFrom(b, size, maxBytes)
    case TooLarge =>
    case Reply(data, rest) =>
      if data != [] {
        AnswersAreTheBody(rest, size, maxBytes);
        var later := AnswersOf(rest, size, maxBytes);
        assert ([data] + later.slices)[1..] == later.slices;
      }
  }

  // ---------- the reader ----------

  class RequestBodyReader {
    var chunks: seq<Bytes>
    var buffer: Bytes
    var exhausted: bool
    var received: nat
    const maxBytes: nat

    ghost predicate Valid()
      reads this
    {
      received <= maxBytes && |buffer| <= received && (exhausted ==> chunks == [])
    }

    ghost function State(): Body
      reads this
    {
      Body(chunks, buffer, received)
    }

    constructor (stream: seq<Bytes>, limit: nat)
      ensures Valid() && State() == Body(stream, [], 0) && maxBytes == limit && !exhausted
    {
      chunks, buffer, exhausted, received := stream, [], false, 0;
      maxBytes := limit;
    }

    /** `_receive`: the stream's end, a chunk too many, or a chunk more. */
    method Receive() returns (tooLarge: bool)
      requires Valid() && !exhausted
      modifies this
      ensures old(chunks) == [] ==> !tooLarge && exhausted && State() == old(State())
      ensures old(chunks) != [] ==> tooLarge == (old(received) + |old(chunks)[0]| > maxBytes) && chunks == old(chunks)[1..]
      ensures old(chunks) != [] && !tooLarge ==>
        !exhausted && buffer == old(buffer) + old(chunks)[0] && received == old(received) + |old(chunks)[0]|
      ensures !tooLarge ==> Valid()
    {
      if chunks == [] {
        exhausted := true;
        return false;
      }
      var chunk := chunks[0];
      chunks := chunks[1..];
      received := received + |chunk|;
      if received > maxBytes { return true; }
      buffer := buffer + chunk;
      return false;
    }

    /** `read`; after a failure the reader is not used again. */
    method Read(size: int) returns (tooLarge: bool, data: Bytes)
      requires Valid()
      modifies this
      ensures !tooLarge ==> Valid() && ReadFrom(old(State()), size, maxBytes) == Reply(data, State())
      ensures tooLarge ==> ReadFrom(old(State()), size, maxBytes).TooLarge?
    {
      while !exhausted && (size < 0 || |buffer| < size)
        invariant Valid()
        invariant Fill(State(), size, maxBytes) == Fill(old(State()), size, maxBytes)
        decreases |chunks|, !exhausted
      {
        var failed := Receive();
        if failed { return true, []; }
      }
      if size < 0 {
        data, buffer := buffer, [];
        return false, data;
      }
      var n := if size <= |buffer| then size else |buffer|;
      data, buffer := buffer[..n], buffer[n..];
      return false, data;
    }
  }
}
