/** The framing reader over a body cut every 65536 bytes, as a decoder of bytes and positions: no slices and no buffer. */
module CutDecoding {
  import opened Text
  import opened Etags
  import opened FrameLines
  import opened BodyReaders
  import opened ChunkedFraming
  import opened ChunkedDecoding
  import opened BodyCuts

  // ---------- positions against cuts ----------

  /** The first cut after a position of the body. */
  function NextCut(at: nat): (r: nat)
    ensures at < r <= at + CUT
  {
    if at < CUT then CUT else CUT + NextCut(at - CUT)
  }

  lemma {:induction false} NextCutIsNext(at: nat, cut: nat)
    requires at < cut && AtCut(cut)
    ensures NextCut(at) <= cut
  {
    if at >= CUT { NextCutIsNext(at - CUT, cut - CUT); }
  }

  lemma {:induction false} NextCutGrows(at: nat, later: nat)
    requires at <= later
    ensures NextCut(at) <= NextCut(later)
  {
    if at >= CUT { NextCutGrows(at - CUT, later - CUT); }
  }

  lemma {:induction false} NextCutIsCut(at: nat)
    ensures AtCut(NextCut(at))
  {
    if at >= CUT { NextCutIsCut(at - CUT); }
  }

  lemma {:induction false} CutAfterCut(cut: nat)
    requires AtCut(cut)
    ensures NextCut(cut) == cut + CUT
  {
    if cut > 0 { CutAfterCut(cut - CUT); }
  }

  /** No cut leaves more than 8192 bytes of the line buffered without its end: `at` is where the line begins, `i` how
      many bytes it has. */
  predicate InOneGo(at: nat, i: nat) { at + i + 2 <= NextCut(at + CHUNK_LINE_MAX_BYTES) }

  /** The first cut at or after a position. */
  function CutFrom(at: nat): (r: nat)
    ensures at <= r
  {
    if at == 0 then 0 else NextCut(at - 1)
  }

  /** How many of the `n` bytes left are buffered once the reader has come to a position: those before the next cut. */
  function Buffered(at: nat, n: nat): (r: nat)
    ensures r <= n
  {
    if CutFrom(at) - at < n then CutFrom(at) - at else n
  }

  // ---------- the decoder ----------

  /** No line end is left among `n` bytes: too many for a line, or the source has no more to give. */
  function NoLineEnd(n: nat, tail: Tail): End {
    if n > CHUNK_LINE_MAX_BYTES then Failed(IncompleteBody)
    else if tail.Overflow? then Failed(BodyTooLarge)
    else if n > 0 then Failed(IncompleteBody)
    else Done
  }

  /** How many of the `n` bytes left a frame takes: a negative size leaves that many of the buffered ones. */
  function FrameLength(size: int, at: nat, n: nat): nat {
    if size >= 0 then size else if Buffered(at, n) + size > 0 then Buffered(at, n) + size else 0
  }

  function TrailerAt(r: Bytes, at: nat, tail: Tail): End
    decreases |r|
  {
    var i := FindCrlf(r);
    if i < 0 then NoLineEnd(|r|, tail)
    else if !InOneGo(at, i) then Failed(IncompleteBody)
    else if i == 0 then Done
    else TrailerAt(r[i + 2..], at + i + 2, tail)
  }

  /** The next frame, with how many bytes it takes in all; or how the body ends. */
  datatype Next = Taken(data: Bytes, length: nat) | Ending(end: End)

  function FrameAt(r: Bytes, at: nat, tail: Tail): (f: Next)
    ensures f.Taken? ==> 0 < f.length <= |r|
  {
    var i := FindCrlf(r);
    if i < 0 then Ending(NoLineEnd(|r|, tail))
    else if !InOneGo(at, i) then Ending(Failed(IncompleteBody))
    else if i == 0 then Taken([], 2)
    else match ParseFrameSize(r[..i])
      case None => Ending(Failed(IncompleteBody))
      case Some(size) =>
        var rest, p := r[i + 2..], at + i + 2;
        if size == 0 then Ending(TrailerAt(rest, p, tail))
        else
          var n := FrameLength(size, p, |rest|);
          if |rest| < n + 2 then Ending(Failed(Spent(tail))) else Taken(rest[..n], i + 2 + n + 2)
  }

  /** The payload of what is left of a body from a position on. */
  function DecodeAt(r: Bytes, at: nat, tail: Tail): Payload
    decreases |r|
  {
    match FrameAt(r, at, tail)
    case Ending(end) => Payload([], end)
    case Taken(data, n) =>
      var later := DecodeAt(r[n..], at + n, tail);
      Payload(data + later.bytes, later.end)
  }

  /** How the source fails a reader that asks for more bytes than there are. */
  function Spent(tail: Tail): Error { if tail.Overflow? then BodyTooLarge else IncompleteBody }

  // ---------- the reader at a position ----------

  /** The first `m` bytes of what is left are buffered. */
  function Loaded(r: Bytes, m: nat, tail: Tail): Cursor
    requires m <= |r|
  {
    Cursor(r[..m], Cuts(r[m..]), tail)
  }

  /** The reader when it has come to a position. */
  function CutCursor(r: Bytes, at: nat, tail: Tail): Cursor { Loaded(r, Buffered(at, |r|), tail) }

  /** The buffer reaches to a cut or to the end, and there is no other cut after the first `before` bytes. */
  predicate Loads(at: nat, n: nat, before: nat, m: nat) {
    before <= m <= n && (m < n ==> AtCut(at + m)) && at + m <= NextCut(at + before)
  }

  lemma StartLoads(at: nat, n: nat)
    ensures Loads(at, n, 0, Buffered(at, n))
  {
    if at > 0 {
      NextCutIsCut(at - 1);
      NextCutGrows(at - 1, at);
    }
  }

  lemma RefillLoaded(r: Bytes, at: nat, before: nat, m: nat, tail: Tail)
    requires Loads(at, |r|, before, m) && m < |r|
    ensures var m' := if |r| <= m + CUT then |r| else m + CUT;
      && Loaded(r, m, tail).slices != [] && Refill(Loaded(r, m, tail)) == Loaded(r, m', tail) && Loads(at, |r|, m, m')
  {
    var m' := if |r| <= m + CUT then |r| else m + CUT;
    FirstCut(r[m..]);
    CutAfterCut(at + m);
    assert r[m..][m' - m..] == r[m'..] && r[..m] + r[m..][..m' - m] == r[..m'];
    assert ([r[m..][..m' - m]] + Cuts(r[m'..]))[1..] == Cuts(r[m'..]);
  }

  lemma RestBuffered(at: nat, n: nat, before: nat, m: nat, p: nat)
    requires Loads(at, n, before, m) && before < p <= m
    ensures m - p == Buffered(at + p, n - p)
  {
    NextCutGrows(at + before, at + p - 1);
    if m < n { NextCutIsNext(at + p - 1, at + m); }
  }

  /** What the reader takes from its buffer leaves it at the position after that. */
  lemma RestLoaded(r: Bytes, at: nat, before: nat, m: nat, p: nat, tail: Tail)
    requires Loads(at, |r|, before, m) && before < p <= m
    ensures Cursor(r[..m][p..], Cuts(r[m..]), tail) == CutCursor(r[p..], at + p, tail)
  {
    RestBuffered(at, |r|, before, m, p);
    assert r[..m][p..] == r[p..][..m - p] && r[m..] == r[p..][m - p..];
  }

  // ---------- its lines ----------

  function LineAt(r: Bytes, at: nat, tail: Tail): Line {
    var i := FindCrlf(r);
    if i < 0 then
      match NoLineEnd(|r|, tail)
      case Done => NoLine
      case Failed(e) => BadLine(e)
    else if !InOneGo(at, i) then BadLine(IncompleteBody)
    else Line(r[..i], CutCursor(r[i + 2..], at + i + 2, tail))
  }

  lemma BufferedLine(c: Cursor, r: Bytes, at: nat, i: nat, tail: Tail)
    requires FindCrlf(c.framed) == i && FindCrlf(r) == i && InOneGo(at, i) && c.framed[..i] == r[..i]
    requires c.(framed := c.framed[i + 2..]) == CutCursor(r[i + 2..], at + i + 2, tail)
    ensures ReadLine(c) == LineAt(r, at, tail)
  {
  }

  lemma FoundInOneGo(at: nat, n: nat, before: nat, m: nat, i: nat)
    requires Loads(at, n, before, m) && before <= CHUNK_LINE_MAX_BYTES && i + 2 <= m
    ensures InOneGo(at, i)
  {
    NextCutGrows(at + before, at + CHUNK_LINE_MAX_BYTES);
  }

  lemma LineBuffered(r: Bytes, at: nat, before: nat, m: nat, tail: Tail)
    requires Loads(at, |r|, before, m) && before <= CHUNK_LINE_MAX_BYTES && FindCrlf(r[..before]) < 0 && FindCrlf(r[..m]) >= 0
    ensures ReadLine(Loaded(r, m, tail)) == LineAt(r, at, tail)
  {
    var i := FindCrlf(r[..m]);
    FoundInPrefix(r[..m], r[m..]);
    assert r[..m] + r[m..] == r && r[..m][..i] == r[..i];
    EndsPast(r, before);
    FoundInOneGo(at, |r|, before, m, i);
    RestLoaded(r, at, before, m, i + 2, tail);
    BufferedLine(Loaded(r, m, tail), r, at, i, tail);
  }

  lemma LineTooLong(r: Bytes, at: nat, before: nat, m: nat, tail: Tail)
    requires Loads(at, |r|, before, m) && m > CHUNK_LINE_MAX_BYTES && FindCrlf(r[..m]) < 0
    ensures ReadLine(Loaded(r, m, tail)) == LineAt(r, at, tail)
  {
    if FindCrlf(r) >= 0 {
      EndsPast(r, m);
      NextCutIsNext(at + CHUNK_LINE_MAX_BYTES, at + m);
    }
  }

  lemma LineRunsOut(r: Bytes, at: nat, tail: Tail)
    requires |r| <= CHUNK_LINE_MAX_BYTES && FindCrlf(r) < 0
    ensures ReadLine(Loaded(r, |r|, tail)) == LineAt(r, at, tail)
  {
    assert r[..|r|] == r && r[|r|..] == [];
  }

  lemma {:induction false} LoadedLine(r: Bytes, at: nat, before: nat, m: nat, tail: Tail)
    requires Loads(at, |r|, before, m) && before <= CHUNK_LINE_MAX_BYTES && FindCrlf(r[..before]) < 0
    ensures ReadLine(Loaded(r, m, tail)) == LineAt(r, at, tail)
    decreases |r| - m
  {
    if FindCrlf(r[..m]) >= 0 {
      LineBuffered(r, at, before, m, tail);
    } else if m > CHUNK_LINE_MAX_BYTES {
      LineTooLong(r, at, before, m, tail);
    } else if m == |r| {
      assert r[..m] == r;
      LineRunsOut(r, at, tail);
    } else {
      RefillLoaded(r, at, before, m, tail);
      LoadedLine(r, at, m, if |r| <= m + CUT then |r| else m + CUT, tail);
    }
  }

  lemma CutLine(r: Bytes, at: nat, tail: Tail)
    ensures ReadLine(CutCursor(r, at, tail)) == LineAt(r, at, tail)
  {
    StartLoads(at, |r|);
    assert r[..0] == [];
    LoadedLine(r, at, 0, Buffered(at, |r|), tail);
  }

  // ---------- its exact reads ----------

  function ExactAt(r: Bytes, at: nat, n: nat, tail: Tail): Exact {
    if n <= |r| then Exact(r[..n], CutCursor(r[n..], at + n, tail)) else Short(Spent(tail))
  }

  lemma {:induction false} LoadedExact(r: Bytes, at: nat, before: nat, m: nat, count: nat, tail: Tail)
    requires Loads(at, |r|, before, m) && before < count
    ensures ReadExact(Loaded(r, m, tail), count) == ExactAt(r, at, count, tail)
    decreases |r| - m
  {
    if count <= m {
      RestLoaded(r, at, before, m, count, tail);
      assert r[..m][..count] == r[..count];
    } else if m == |r| {
      assert r[m..] == [];
    } else {
      RefillLoaded(r, at, before, m, tail);
      LoadedExact(r, at, m, if |r| <= m + CUT then |r| else m + CUT, count, tail);
    }
  }

  lemma CutExact(r: Bytes, at: nat, count: int, tail: Tail)
    requires count != 0
    ensures ReadExact(CutCursor(r, at, tail), count) == ExactAt(r, at, FrameLength(count, at, |r|), tail)
  {
    var m, n := Buffered(at, |r|), FrameLength(count, at, |r|);
    StartLoads(at, |r|);
    if count > 0 {
      LoadedExact(r, at, 0, m, count, tail);
    } else {
      assert Cut(r[..m], count) == n && r[..m][..n] == r[..n];
      if n > 0 { RestLoaded(r, at, 0, m, n, tail); } else { assert r[0..] == r && r[..m][0..] == r[..m]; }
    }
  }

  // ---------- its frames ----------

  function PayloadAt(r: Bytes, at: nat, n: nat, tail: Tail): Frame {
    if |r| < n + 2 then Broken(Spent(tail)) else Frame(r[..n], CutCursor(r[n + 2..], at + n + 2, tail))
  }

  lemma PayloadOfExacts(c: Cursor, size: int, first: Exact, second: Exact)
    requires ReadExact(c, size) == first && (first.Exact? ==> ReadExact(first.rest, 2) == second)
    ensures ReadPayload(c, size) ==
      if first.Short? then Broken(first.error) else if second.Short? then Broken(second.error) else Frame(first.data, second.rest)
  {
  }

  lemma TwoExacts(r: Bytes, at: nat, n: nat, tail: Tail)
    requires n <= |r|
    ensures ExactAt(r[n..], at + n, 2, tail) ==
      if n + 2 <= |r| then Exact(r[n..][..2], CutCursor(r[n + 2..], at + n + 2, tail)) else Short(Spent(tail))
  {
    if n + 2 <= |r| { assert r[n..][2..] == r[n + 2..]; }
  }

  lemma PayloadOf(c: Cursor, r: Bytes, at: nat, size: int, n: nat, tail: Tail, mid: Cursor)
    requires ReadExact(c, size) == ExactAt(r, at, n, tail)
    requires n <= |r| ==> mid == ExactAt(r, at, n, tail).rest && ReadExact(mid, 2) == ExactAt(r[n..], at + n, 2, tail)
    ensures ReadPayload(c, size) == PayloadAt(r, at, n, tail)
  {
    if n <= |r| {
      TwoExacts(r, at, n, tail);
      PayloadOfExacts(c, size, ExactAt(r, at, n, tail), ExactAt(r[n..], at + n, 2, tail));
    } else {
      PayloadOfExacts(c, size, ExactAt(r, at, n, tail), ExactAt(r, at, n, tail));
    }
  }

  lemma CutPayload(r: Bytes, at: nat, size: int, tail: Tail)
    requires size != 0
    ensures ReadPayload(CutCursor(r, at, tail), size) == PayloadAt(r, at, FrameLength(size, at, |r|), tail)
  {
    var n := FrameLength(size, at, |r|);
    CutExact(r, at, size, tail);
    if n <= |r| { CutExact(r[n..], at + n, 2, tail); }
    PayloadOf(CutCursor(r, at, tail), r, at, size, n, tail, if n <= |r| then CutCursor(r[n..], at + n, tail) else CutCursor(r, at, tail));
  }

  ghost predicate EndsAs(f: Frame, end: End) {
    match f
    case Last(_) => end == Done
    case Broken(e) => end == Failed(e)
    case Frame(_, _) => false
  }

  lemma {:induction false} CutTrailer(r: Bytes, at: nat, tail: Tail)
    ensures EndsAs(SkipTrailer(CutCursor(r, at, tail)), TrailerAt(r, at, tail))
    decreases |r|
  {
    hide FindCrlf, FindFrom, CrlfAt, ParseFrameSize, NextCut, Cuts;
    CutLine(r, at, tail);
    var i := FindCrlf(r);
    if i > 0 && InOneGo(at, i) { CutTrailer(r[i + 2..], at + i + 2, tail); }
  }

  ghost predicate IsFrameAt(f: Frame, r: Bytes, at: nat, tail: Tail) {
    match FrameAt(r, at, tail)
    case Ending(end) => EndsAs(f, end)
    case Taken(data, n) => f == Frame(data, CutCursor(r[n..], at + n, tail))
  }

  /** The size line of a frame ends before `rest`. */
  ghost predicate SizeLine(r: Bytes, at: nat, size: int) {
    FindCrlf(r) > 0 && InOneGo(at, FindCrlf(r)) && ParseFrameSize(r[..FindCrlf(r)]) == Some(size)
  }

  lemma SizedNext(r: Bytes, at: nat, i: nat, size: int, tail: Tail, n: nat)
    requires SizeLine(r, at, size) && size != 0 && i == FindCrlf(r) && n == FrameLength(size, at + i + 2, |r| - i - 2)
    ensures FrameAt(r, at, tail) ==
      if |r| < i + 2 + n + 2 then Ending(Failed(Spent(tail))) else Taken(r[i + 2..][..n], i + 2 + n + 2)
  {
  }

  lemma SizedFrameAt(r: Bytes, at: nat, i: nat, tail: Tail, n: nat, f: Frame)
    requires i + 2 <= |r| && f == PayloadAt(r[i + 2..], at + i + 2, n, tail)
    requires FrameAt(r, at, tail) ==
      if |r| < i + 2 + n + 2 then Ending(Failed(Spent(tail))) else Taken(r[i + 2..][..n], i + 2 + n + 2)
    ensures IsFrameAt(f, r, at, tail)
  {
    if i + 2 + n + 2 <= |r| { assert r[i + 2..][n + 2..] == r[i + 2 + n + 2..]; }
  }

  lemma CutSizedFrame(r: Bytes, at: nat, size: int, tail: Tail, rest: Cursor)
    requires SizeLine(r, at, size) && rest == CutCursor(r[FindCrlf(r) + 2..], at + FindCrlf(r) + 2, tail)
    ensures IsFrameAt(if size == 0 then SkipTrailer(rest) else ReadPayload(rest, size), r, at, tail)
  {
    hide FindCrlf, FindFrom, CrlfAt, ParseFrameSize, NextCut, Cuts, ReadExact, ReadLine;
    var i := FindCrlf(r);
    if size == 0 {
      CutTrailer(r[i + 2..], at + i + 2, tail);
    } else {
      var n := FrameLength(size, at + i + 2, |r| - i - 2);
      CutPayload(r[i + 2..], at + i + 2, size, tail);
      SizedNext(r, at, i, size, tail, n);
      SizedFrameAt(r, at, i, tail, n, ReadPayload(rest, size));
    }
  }

  lemma CutFrame(r: Bytes, at: nat, tail: Tail)
    ensures IsFrameAt(DecodeFrame(CutCursor(r, at, tail)), r, at, tail)
  {
    hide FindCrlf, FindFrom, CrlfAt, ParseFrameSize, NextCut;
    CutLine(r, at, tail);
    var i := FindCrlf(r);
    if i > 0 && InOneGo(at, i) && ParseFrameSize(r[..i]).Some? {
      CutSizedFrame(r, at, ParseFrameSize(r[..i]).value, tail, CutCursor(r[i + 2..], at + i + 2, tail));
    }
  }

  lemma DecodedFrame(c: Cursor, data: Bytes, rest: Cursor, later: Payload)
    requires DecodeFrame(c) == Frame(data, rest) && Decoded(rest) == later
    ensures Decoded(c) == Payload(data + later.bytes, later.end)
  {
  }

  lemma DecodedEnd(c: Cursor, end: End)
    requires EndsAs(DecodeFrame(c), end)
    ensures Decoded(c) == Payload([], end)
  {
  }

  /** Over slices cut every 65536 bytes, the framing reader gives what the decoder of bytes and positions gives: for every
      body, whatever its lines and sizes, and whether the source ends or fails. */
  lemma {:induction false} CutReader(r: Bytes, at: nat, tail: Tail)
    ensures Decoded(CutCursor(r, at, tail)) == DecodeAt(r, at, tail)
    decreases |r|, 1
  {
    CutFrame(r, at, tail);
    CutReaderGoesOn(r, at, tail, CutCursor(r, at, tail));
  }

  lemma {:induction false} CutReaderGoesOn(r: Bytes, at: nat, tail: Tail, c: Cursor)
    requires IsFrameAt(DecodeFrame(c), r, at, tail)
    ensures Decoded(c) == DecodeAt(r, at, tail)
    decreases |r|, 0
  {
    match FrameAt(r, at, tail)
    case Ending(end) => DecodedEnd(c, end);
    case Taken(data, n) =>
      CutReader(r[n..], at + n, tail);
      DecodedFrame(c, data, CutCursor(r[n..], at + n, tail), DecodeAt(r[n..], at + n, tail));
  }

  // ---------- when the source's failure is met ----------

  predicate TrailerRunsOut(r: Bytes, at: nat) {
    var i := FindCrlf(r);
    if i < 0 then |r| <= CHUNK_LINE_MAX_BYTES else InOneGo(at, i) && i > 0 && TrailerRunsOut(r[i + 2..], at + i + 2)
  }

  /** No line and no frame ends or breaks the body, so that the reader asks for more bytes than there are. */
  predicate RunsOut(r: Bytes, at: nat)
    decreases |r|
  {
    var i := FindCrlf(r);
    if i < 0 then |r| <= CHUNK_LINE_MAX_BYTES
    else
      var rest, p := r[i + 2..], at + i + 2;
      && InOneGo(at, i)
      && if i == 0 then RunsOut(rest, p)
         else match ParseFrameSize(r[..i])
           case None => false
           case Some(size) =>
             if size == 0 then TrailerRunsOut(rest, p)
             else
               var n := FrameLength(size, p, |rest|);
               |rest| < n + 2 || RunsOut(rest[n + 2..], p + n + 2)
  }

  lemma {:induction false} TrailerMeetsFailure(r: Bytes, at: nat)
    ensures TrailerAt(r, at, Overflow) == Failed(BodyTooLarge) <==> TrailerRunsOut(r, at)
    decreases |r|
  {
    var i := FindCrlf(r);
    if i > 0 && InOneGo(at, i) { TrailerMeetsFailure(r[i + 2..], at + i + 2); }
  }

  lemma SizedRunsOut(r: Bytes, at: nat, i: nat, size: int, n: nat, later: Bytes)
    requires SizeLine(r, at, size) && size != 0 && i == FindCrlf(r) && n == FrameLength(size, at + i + 2, |r| - i - 2)
    requires i + 2 + n + 2 <= |r| && later == r[i + 2..][n + 2..]
    ensures RunsOut(r, at) == RunsOut(later, at + i + 2 + n + 2)
  {
    hide FindCrlf, FindFrom, CrlfAt, ParseFrameSize, NextCut, FrameLength, TrailerRunsOut;
  }

  lemma RunsOutAfter(r: Bytes, at: nat, data: Bytes, n: nat)
    requires FrameAt(r, at, Overflow) == Taken(data, n)
    ensures RunsOut(r, at) == RunsOut(r[n..], at + n)
  {
    hide FindCrlf, FindFrom, CrlfAt, ParseFrameSize, NextCut;
    var i := FindCrlf(r);
    if i > 0 {
      var size := ParseFrameSize(r[..i]).value;
      var m := FrameLength(size, at + i + 2, |r| - i - 2);
      SizedNext(r, at, i, size, Overflow, m);
      assert r[i + 2..][m + 2..] == r[n..] && at + i + 2 + m + 2 == at + n;
      SizedRunsOut(r, at, i, size, m, r[n..]);
    }
  }

  lemma RunsOutHere(r: Bytes, at: nat)
    requires FrameAt(r, at, Overflow).Ending?
    ensures FrameAt(r, at, Overflow).end == Failed(BodyTooLarge) <==> RunsOut(r, at)
  {
    hide FindCrlf, FindFrom, CrlfAt, ParseFrameSize, NextCut;
    var i := FindCrlf(r);
    if i >= 0 { TrailerMeetsFailure(r[i + 2..], at + i + 2); }
  }

  /** Over a source that fails, the reader fails as the source does exactly when it runs out of bytes. */
  lemma {:induction false} MeetsFailure(r: Bytes, at: nat)
    ensures (DecodeAt(r, at, Overflow).end == Failed(BodyTooLarge)) == RunsOut(r, at)
    decreases |r|
  {
    hide FindCrlf, FindFrom, CrlfAt, ParseFrameSize, NextCut, FrameAt;
    match FrameAt(r, at, Overflow)
    case Ending(_) => RunsOutHere(r, at);
    case Taken(data, n) =>
      RunsOutAfter(r, at, data, n);
      MeetsFailure(r[n..], at + n);
  }

  // ---------- against the decoder without cuts ----------

  ghost predicate TrailerInOneGo(s: Bytes, at: nat) {
    var i := FindCrlf(s);
    i >= 0 ==> InOneGo(at, i) && (i > 0 ==> TrailerInOneGo(s[i + 2..], at + i + 2))
  }

  /** Every terminated line the decoder reads is read in one go; the body begins at `at`. */
  ghost predicate LinesInOneGo(s: Bytes, at: nat)
    decreases |s|
  {
    var i := FindCrlf(s);
    i >= 0 ==>
      && InOneGo(at, i)
      && var line, rest := s[..i], s[i + 2..];
      if line == [] then LinesInOneGo(rest, at + 2)
      else match ParseFrameSize(line)
        case None => true
        case Some(size) =>
          if size == 0 then TrailerInOneGo(rest, at + i + 2)
          else 0 < size && size + 2 <= |rest| ==> LinesInOneGo(rest[size + 2..], at + i + 2 + size + 2)
  }

  lemma {:induction false} TrailerAgreesAt(r: Bytes, at: nat)
    ensures TrailerAt(r, at, Eof) == if TrailerInOneGo(r, at) && TrailerComplete(r) then Done else Failed(IncompleteBody)
    decreases |r|
  {
    var i := FindCrlf(r);
    if i > 0 && InOneGo(at, i) { TrailerAgreesAt(r[i + 2..], at + i + 2); }
  }

  lemma SizedOneShot(r: Bytes, i: nat, size: nat, later: Bytes)
    requires FindCrlf(r) == i && i > 0 && ParseFrameSize(r[..i]) == Some(size) && size > 0
    requires i + 2 + size + 2 <= |r| && later == r[i + 2..][size + 2..]
    ensures OneShot(r) == Payload(r[i + 2..][..size] + OneShot(later).bytes, OneShot(later).end)
    ensures SizesNonNegative(r) ==> SizesNonNegative(later)
  {
  }

  lemma SizedInOneGo(r: Bytes, at: nat, i: nat, size: nat, later: Bytes)
    requires SizeLine(r, at, size) && i == FindCrlf(r) && size > 0 && i + 2 + size + 2 <= |r| && later == r[i + 2..][size + 2..]
    ensures LinesInOneGo(r, at) == LinesInOneGo(later, at + i + 2 + size + 2)
  {
  }

  lemma NextSizeNonNegative(r: Bytes)
    requires SizesNonNegative(r) && FindCrlf(r) > 0 && ParseFrameSize(r[..FindCrlf(r)]).Some?
    ensures ParseFrameSize(r[..FindCrlf(r)]).value >= 0
  {
  }

  lemma BlankInOneGo(r: Bytes, at: nat)
    requires FindCrlf(r) == 0 && InOneGo(at, 0)
    ensures OneShot(r) == OneShot(r[2..]) && SizesNonNegative(r) == SizesNonNegative(r[2..]) && LinesInOneGo(r, at) == LinesInOneGo(r[2..], at + 2)
  {
  }

  /** What the first frame is, and that its data and the rest are those of the decoder without cuts. */
  lemma FrameInOneGo(r: Bytes, at: nat, data: Bytes, n: nat)
    requires FrameAt(r, at, Eof) == Taken(data, n) && SizesNonNegative(r)
    ensures OneShot(r) == Payload(data + OneShot(r[n..]).bytes, OneShot(r[n..]).end)
    ensures SizesNonNegative(r[n..]) && LinesInOneGo(r, at) == LinesInOneGo(r[n..], at + n)
  {
    hide FindCrlf, FindFrom, CrlfAt, ParseFrameSize, NextCut;
    var i := FindCrlf(r);
    if i == 0 {
      BlankInOneGo(r, at);
      NothingBefore(OneShot(r[2..]));
    } else {
      NextSizeNonNegative(r);
      var size := ParseFrameSize(r[..i]).value;
      SizedNext(r, at, i, size, Eof, size);
      assert r[i + 2..][size + 2..] == r[n..] && at + i + 2 + size + 2 == at + n;
      SizedOneShot(r, i, size, r[n..]);
      SizedInOneGo(r, at, i, size, r[n..]);
    }
  }

  lemma NothingBefore(p: Payload)
    ensures Payload([] + p.bytes, p.end) == p
  {
  }

  lemma LastInOneGo(r: Bytes, at: nat)
    requires FrameAt(r, at, Eof).Ending? && SizesNonNegative(r)
    ensures if LinesInOneGo(r, at) then OneShot(r) == Payload([], FrameAt(r, at, Eof).end) else FrameAt(r, at, Eof).end == Failed(IncompleteBody)
  {
    hide FindCrlf, FindFrom, CrlfAt, ParseFrameSize, NextCut;
    var i := FindCrlf(r);
    if i >= 0 { TrailerAgreesAt(r[i + 2..], at + i + 2); }
  }

  /** With no negative size, the cuts matter only to lines: the payload is that of the decoder without cuts when every
      line is read in one go, and otherwise the body breaks. */
  lemma {:induction false} CutsMatterToLines(r: Bytes, at: nat)
    requires SizesNonNegative(r)
    ensures if LinesInOneGo(r, at) then DecodeAt(r, at, Eof) == OneShot(r) else DecodeAt(r, at, Eof).end == Failed(IncompleteBody)
    decreases |r|
  {
    hide FindCrlf, FindFrom, CrlfAt, ParseFrameSize, NextCut, FrameAt;
    match FrameAt(r, at, Eof)
    case Ending(_) => LastInOneGo(r, at);
    case Taken(data, n) =>
      FrameInOneGo(r, at, data, n);
      CutsMatterToLines(r[n..], at + n);
  }

  lemma ShortLineInOneGo(at: nat, i: nat)
    requires i < CHUNK_LINE_MAX_BYTES
    ensures InOneGo(at, i)
  {
  }

  lemma {:induction false} ShortTrailerInOneGo(s: Bytes, at: nat)
    requires ShortTrailer(s)
    ensures TrailerInOneGo(s, at)
  {
    var i := FindCrlf(s);
    if i >= 0 { ShortLineInOneGo(at, i); }
    if i > 0 { ShortTrailerInOneGo(s[i + 2..], at + i + 2); }
  }

  lemma FrameInOneGoFirst(s: Bytes, at: nat, later: nat)
    requires FrameFollows(s) && InOneGo(at, FindCrlf(s)) && later == at + |s| - |AfterFrame(s)| && LinesInOneGo(AfterFrame(s), later)
    ensures LinesInOneGo(s, at)
  {
    hide FindCrlf, FindFrom, CrlfAt, ParseFrameSize, NextCut;
    var i := FindCrlf(s);
    if i > 0 {
      var size := ParseFrameSize(s[..i]).value;
      assert later == at + i + 2 + size + 2;
    }
  }

  lemma LastLinesInOneGo(s: Bytes, at: nat)
    requires ShortLines(s) && !FrameFollows(s)
    ensures LinesInOneGo(s, at)
  {
    var i := FindCrlf(s);
    if i >= 0 {
      ShortLineInOneGo(at, i);
      if ParseFrameSize(s[..i]) == Some(0) { ShortTrailerInOneGo(s[i + 2..], at + i + 2); }
    }
  }

  /** Short lines are never interrupted too late. */
  lemma {:induction false} ShortLinesInOneGo(s: Bytes, at: nat)
    requires ShortLines(s)
    ensures LinesInOneGo(s, at)
    decreases |s|
  {
    if FrameFollows(s) {
      var later := at + |s| - |AfterFrame(s)|;
      FirstFrame(s);
      ShortLinesInOneGo(AfterFrame(s), later);
      ShortLineInOneGo(at, FindCrlf(s));
      FrameInOneGoFirst(s, at, later);
    } else {
      LastLinesInOneGo(s, at);
    }
  }
}
