/** The framing reader over the request body reader (app/streams.py), which cuts the body every 65536 bytes. */
module BodyCuts {
  import opened Text
  import opened Etags
  import opened FrameLines
  import opened BodyReaders
  import opened ChunkedFraming
  import opened ChunkedDecoding

  const CUT := FILE_CHUNK_SIZE_BYTES

  /** Full slices, and what is left. */
  function Cuts(s: Bytes): seq<Bytes> {
    if s == [] then [] else if |s| <= CUT then [s] else [s[..CUT]] + Cuts(s[CUT..])
  }

  lemma {:induction false} CutsAreAll(s: Bytes)
    ensures Flatten(Cuts(s)) == s
    decreases |s|
  {
    if s != [] {
      FirstCut(s);
      var n := if |s| <= CUT then |s| else CUT;
      CutsAreAll(s[n..]);
      assert ([s[..n]] + Cuts(s[n..]))[1..] == Cuts(s[n..]);
      assert s == s[..n] + s[n..];
    }
  }

  lemma FirstCut(s: Bytes)
    requires s != []
    ensures var n := if |s| <= CUT then |s| else CUT;
      Cuts(s) == [s[..n]] + Cuts(s[n..])
  {
    if |s| <= CUT { assert s[|s|..] == [] && s[..|s|] == s; }
  }

  /** A whole number of full slices. */
  predicate AtCut(n: nat) { n == 0 || (n >= CUT && AtCut(n - CUT)) }

  /** As many full slices as `n` bytes allow. */
  function Full(n: nat): (r: nat)
    ensures r <= n && AtCut(r)
  {
    if n < CUT then 0 else CUT + Full(n - CUT)
  }

  lemma {:induction false} FullIsMost(n: nat, most: nat)
    requires AtCut(n) && n <= most
    ensures n <= Full(most)
  {
    if n > 0 { FullIsMost(n - CUT, most - CUT); }
  }

  // ---------- what the request body reader answers ----------

  /** A body that fits is answered in full slices, whatever its chunks. */
  lemma {:induction false} FittingAnswers(b: Body, maxBytes: nat)
    requires b.received + |Flatten(b.chunks)| <= maxBytes
    ensures AnswersOf(b, CUT, maxBytes) == Answers(Cuts(Left(b)), Eof)
    decreases |Left(b)|
  {
    ReadIsExact(b, CUT, maxBytes);
    var r := ReadFrom(b, CUT, maxBytes);
    if r.data != [] {
      FittingAnswers(r.rest, maxBytes);
      FirstCut(Left(b));
      assert Left(b)[|r.data|..] == Left(r.rest) && Left(b)[..|r.data|] == r.data;
    }
  }

  lemma FirstOfFullCuts(s: Bytes, n: nat)
    requires CUT + n <= |s| && AtCut(n)
    ensures Cuts(s[..CUT + n]) == [s[..CUT]] + Cuts(s[CUT..][..n])
  {
    var t := s[..CUT + n];
    FirstCut(t);
    assert t[..CUT] == s[..CUT] && t[CUT..] == s[CUT..][..n];
  }

  /** One that does not is answered in full slices up to some point, and then the reader fails. */
  lemma {:induction false} OversizeAnswers(b: Body, maxBytes: nat) returns (n: nat)
    requires b.received <= maxBytes < b.received + |Flatten(b.chunks)|
    ensures AtCut(n) && n <= |Left(b)| && n <= |b.buffer| + (maxBytes - b.received)
    ensures AnswersOf(b, CUT, maxBytes) == Answers(Cuts(Left(b)[..n]), Overflow)
    decreases |Left(b)|
  {
    ReadIsExact(b, CUT, maxBytes);
    match ReadFrom(b, CUT, maxBytes)
    case TooLarge =>
      n := 0;
    case Reply(data, rest) =>
      n := OversizeAnswers(rest, maxBytes);
      FirstOfFullCuts(Left(b), n);
      assert Left(b)[CUT..] == Left(rest) && Left(b)[..CUT] == data;
      n := n + CUT;
  }

  /** A body that comes in one piece and does not fit is refused at once. */
  lemma OnePieceAnswers(s: Bytes, maxBytes: nat)
    requires |s| > maxBytes
    ensures Flatten([s]) == s && AnswersOf(Body([s], [], 0), CUT, maxBytes) == Answers([], Overflow)
  {
    assert [s][1..] == [];
  }

  lemma ReadsOneChunk(chunk: Bytes, chunks: seq<Bytes>, received: nat, maxBytes: nat)
    requires |chunk| == CUT && received + CUT <= maxBytes
    ensures ReadFrom(Body([chunk] + chunks, [], received), CUT, maxBytes) == Reply(chunk, Body(chunks, [], received + CUT))
  {
    var b := Body([chunk] + chunks, [], received);
    assert b.chunks[1..] == chunks && [] + chunk == chunk;
    assert Fill(b, CUT, maxBytes) == Fill(Body(chunks, chunk, received + CUT), CUT, maxBytes);
  }

  /** Cut where the reader cuts it, such a body is read as far as it is allowed. */
  lemma {:induction false} CutAnswers(s: Bytes, received: nat, maxBytes: nat)
    requires received <= maxBytes < received + |s|
    ensures AnswersOf(Body(Cuts(s), [], received), CUT, maxBytes) == Answers(Cuts(s[..Full(maxBytes - received)]), Overflow)
    decreases |s|
  {
    var n := Full(maxBytes - received);
    FirstCut(s);
    if n > 0 {
      ReadsOneChunk(s[..CUT], Cuts(s[CUT..]), received, maxBytes);
      CutAnswers(s[CUT..], received + CUT, maxBytes);
      FirstOfFullCuts(s, n - CUT);
    }
  }

  lemma FirstCutOf(s: Bytes, t: Bytes)
    requires |s| >= CUT
    ensures Cuts(s + t) == [s[..CUT]] + Cuts(s[CUT..] + t)
  {
    FirstCut(s + t);
    assert (s + t)[CUT..] == s[CUT..] + t && (s + t)[..CUT] == s[..CUT];
  }

  lemma {:induction false} MoreCuts(s: Bytes, t: Bytes)
    requires AtCut(|s|)
    ensures Cuts(s + t) == Cuts(s) + Cuts(t)
    decreases |s|
  {
    if s == [] {
      assert s + t == t;
    } else {
      FirstCutOf(s, t);
      FirstCutOf(s, []);
      assert s + [] == s && s[CUT..] + [] == s[CUT..];
      MoreCuts(s[CUT..], t);
    }
  }

  // ---------- a body that ended before the reader failed ends there with more to read ----------

  function More(c: Cursor, extra: seq<Bytes>, tail: Tail): Cursor { Cursor(c.framed, c.slices + extra, tail) }

  lemma {:induction false} MoreLine(c: Cursor, extra: seq<Bytes>, tail: Tail)
    requires c.tail.Overflow?
    ensures match ReadLine(c)
      case Line(text, rest) => rest.tail.Overflow? && ReadLine(More(c, extra, tail)) == Line(text, More(rest, extra, tail))
      case BadLine(e) => e == IncompleteBody ==> ReadLine(More(c, extra, tail)) == BadLine(e)
      case NoLine => false
    decreases |c.slices|
  {
    if FindCrlf(c.framed) < 0 && |c.framed| <= CHUNK_LINE_MAX_BYTES && c.slices != [] {
      assert (c.slices + extra)[1..] == c.slices[1..] + extra;
      MoreLine(Refill(c), extra, tail);
    }
  }

  lemma {:induction false} MoreExact(c: Cursor, count: int, extra: seq<Bytes>, tail: Tail)
    requires c.tail.Overflow?
    ensures match ReadExact(c, count)
      case Exact(data, rest) => rest.tail.Overflow? && ReadExact(More(c, extra, tail), count) == Exact(data, More(rest, extra, tail))
      case Short(e) => e == BodyTooLarge
    decreases |c.slices|
  {
    if count > |c.framed| && c.slices != [] {
      assert (c.slices + extra)[1..] == c.slices[1..] + extra;
      MoreExact(Refill(c), count, extra, tail);
    }
  }

  ghost predicate SameFrame(f: Frame, g: Frame, extra: seq<Bytes>, tail: Tail) {
    match f
    case Frame(data, rest) => rest.tail.Overflow? && g == Frame(data, More(rest, extra, tail))
    case Last(_) => g.Last?
    case Broken(e) => e == IncompleteBody ==> g == f
  }

  lemma {:induction false} MoreTrailer(c: Cursor, extra: seq<Bytes>, tail: Tail)
    requires c.tail.Overflow?
    ensures SameFrame(SkipTrailer(c), SkipTrailer(More(c, extra, tail)), extra, tail)
    decreases |Ahead(c)|
  {
    MoreLine(c, extra, tail);
    ReadLineAdvances(c);
    match ReadLine(c)
    case BadLine(_) =>
    case NoLine =>
    case Line(text, rest) => if text != [] { MoreTrailer(rest, extra, tail); } else { TrailerEnds(c); }
  }

  lemma MorePayload(c: Cursor, size: int, extra: seq<Bytes>, tail: Tail)
    requires c.tail.Overflow?
    ensures SameFrame(ReadPayload(c, size), ReadPayload(More(c, extra, tail), size), extra, tail)
  {
    MoreExact(c, size, extra, tail);
    match ReadExact(c, size)
    case Short(_) =>
    case Exact(_, rest) => MoreExact(rest, 2, extra, tail);
  }

  lemma MoreFrame(c: Cursor, extra: seq<Bytes>, tail: Tail)
    requires c.tail.Overflow?
    ensures SameFrame(DecodeFrame(c), DecodeFrame(More(c, extra, tail)), extra, tail)
  {
    MoreLine(c, extra, tail);
    match ReadLine(c)
    case NoLine =>
    case BadLine(_) =>
    case Line(text, rest) =>
      if text != [] && ParseFrameSize(text).Some? {
        MoreTrailer(rest, extra, tail);
        MorePayload(rest, ParseFrameSize(text).value, extra, tail);
      }
  }

  /** What was settled before the source failed is settled the same way when it goes on. */
  lemma {:induction false} MoreDecoded(c: Cursor, extra: seq<Bytes>, tail: Tail)
    requires c.tail.Overflow? && Decoded(c).end != Failed(BodyTooLarge)
    ensures Decoded(More(c, extra, tail)) == Decoded(c)
    decreases |Ahead(c)|
  {
    MoreFrame(c, extra, tail);
    FrameAdvances(c);
    match DecodeFrame(c)
    case Last(_) =>
    case Broken(_) =>
    case Frame(_, rest) => MoreDecoded(rest, extra, tail);
  }
}
