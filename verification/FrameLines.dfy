/** Lines and size headers of aws-chunked framing, as bytes (app/streams.py). */
module FrameLines {
  import opened Text
  import opened Etags

  const CR: Byte := 13
  const LF: Byte := 10
  const SEMICOLON: Byte := 59
  const PLUS: Byte := 43
  const MINUS: Byte := 45
  const UNDERSCORE: Byte := 95
  const CRLF: Bytes := [CR, LF]

  // ---------- finding a line's end ----------

  predicate CrlfAt(s: Bytes, i: int) {
    0 <= i && i + 1 < |s| && s[i] == CR && s[i + 1] == LF
  }

  function FindFrom(s: Bytes, i: nat): (r: int)
    requires i <= |s|
    ensures r == -1 || i <= r
    ensures r == -1 ==> forall k :: i <= k ==> !CrlfAt(s, k)
    ensures r >= 0 ==> CrlfAt(s, r) && forall k :: i <= k < r ==> !CrlfAt(s, k)
    decreases |s| - i
  {
    if i == |s| then -1 else if CrlfAt(s, i) then i else FindFrom(s, i + 1)
  }

  /** `bytearray.find(b"\r\n")`. */
  function FindCrlf(s: Bytes): (r: int)
    ensures -1 <= r && (r >= 0 ==> r + 2 <= |s|)
    ensures r == -1 ==> forall k :: !CrlfAt(s, k)
    ensures r >= 0 ==> CrlfAt(s, r) && forall k :: k < r ==> !CrlfAt(s, k)
  {
    FindFrom(s, 0)
  }

  lemma FoundAt(s: Bytes, i: nat)
    requires CrlfAt(s, i) && forall k :: k < i ==> !CrlfAt(s, k)
    ensures FindCrlf(s) == i
  {
  }

  /** What follows does not move the first line end. */
  lemma FoundInPrefix(s: Bytes, t: Bytes)
    requires FindCrlf(s) >= 0
    ensures FindCrlf(s + t) == FindCrlf(s)
  {
    var i := FindCrlf(s);
    forall k | k < i ensures !CrlfAt(s + t, k) {
      assert !CrlfAt(s, k);
    }
    FoundAt(s + t, i);
  }

  /** A line without a line end inside it ends where it should. */
  lemma FoundAfterLine(line: Bytes, rest: Bytes)
    requires FindCrlf(line) == -1
    ensures FindCrlf(line + CRLF + rest) == |line|
  {
    var s := line + CRLF + rest;
    forall k | k < |line| ensures !CrlfAt(s, k) {
      assert !CrlfAt(line, k);
    }
    FoundAt(s, |line|);
  }

  /** A prefix that ends before the first line end's second byte shows no line end. */
  lemma NotFoundBefore(s: Bytes, n: nat)
    requires n <= |s| && (FindCrlf(s) == -1 || n < FindCrlf(s) + 2)
    ensures FindCrlf(s[..n]) == -1
  {
    assert forall k :: CrlfAt(s[..n], k) ==> CrlfAt(s, k);
  }

  /** A line end that a prefix does not show lies past it. */
  lemma EndsPast(s: Bytes, n: nat)
    requires n <= |s| && FindCrlf(s) >= 0 && FindCrlf(s[..n]) < 0
    ensures n < FindCrlf(s) + 2
  {
    assert forall k :: k + 2 <= n && CrlfAt(s, k) ==> CrlfAt(s[..n], k);
  }

  // ---------- size headers ----------

  function BeforeSemicolon(line: Bytes): (r: Bytes)
    ensures r <= line
  {
    if line == [] || line[0] == SEMICOLON then [] else [line[0]] + BeforeSemicolon(line[1..])
  }

  predicate IsBlank(b: Byte) { b == 32 || 9 <= b <= 13 }

  function StripFront(s: Bytes): Bytes {
    if s != [] && IsBlank(s[0]) then StripFront(s[1..]) else s
  }

  function StripBack(s: Bytes): Bytes {
    if s != [] && IsBlank(s[|s| - 1]) then StripBack(s[..|s| - 1]) else s
  }

  function HexDigitValue(b: Byte): Option<nat> {
    if 48 <= b <= 57 then Some(b as int - 48)
    else if 97 <= b <= 102 then Some(b as int - 87)
    else if 65 <= b <= 70 then Some(b as int - 55)
    else None
  }

  /** Digits with single underscores between them; `gap` says an underscore may not come next. */
  function HexDigits(s: Bytes, gap: bool, sum: nat): Option<nat> {
    if s == [] then (if gap then None else Some(sum))
    else if s[0] == UNDERSCORE then (if gap then None else HexDigits(s[1..], true, sum))
    else match HexDigitValue(s[0])
      case None => None
      case Some(v) => HexDigits(s[1..], false, sum * 16 + v)
  }

  function AfterPrefix(s: Bytes): Bytes {
    if |s| >= 2 && s[0] == 48 && (s[1] == 120 || s[1] == 88) then
      (if |s| >= 3 && s[2] == UNDERSCORE then s[3..] else s[2..])
    else s
  }

  /** `int(header, 16)`: an optional sign, an optional `0x`, hexadecimal digits. */
  function ParseInt16(s: Bytes): Option<int> {
    var signed := s != [] && (s[0] == PLUS || s[0] == MINUS);
    match HexDigits(AfterPrefix(if signed then s[1..] else s), true, 0)
    case None => None
    case Some(v) =>
      var value: int := v;
      Some(if signed && s[0] == MINUS then -value else value)
  }

  /** `_parse_frame_size`. */
  function ParseFrameSize(line: Bytes): Option<int> {
    ParseInt16(StripBack(StripFront(BeforeSemicolon(line))))
  }

  // ---------- the usual header ----------

  function HexByte(v: nat): Byte
    requires v < 16
  {
    if v < 10 then (48 + v) as Byte else (87 + v) as Byte
  }

  /** The size in lower-case hexadecimal, as clients write it. */
  function HexSize(n: nat): (r: Bytes)
    ensures r != [] && forall i :: 0 <= i < |r| ==> HexDigitValue(r[i]).Some?
  {
    if n < 16 then [HexByte(n)] else HexSize(n / 16) + [HexByte(n % 16)]
  }

  predicate IsHexDigit(b: Byte) { HexDigitValue(b).Some? }

  lemma {:induction false} HexDigitsAppend(s: Bytes, last: Byte, gap: bool, sum: nat)
    requires IsHexDigit(last) && forall i :: 0 <= i < |s| ==> IsHexDigit(s[i])
    ensures HexDigits(s + [last], gap, sum).Some?
    ensures s == [] ==> HexDigits(s + [last], gap, sum) == Some(sum * 16 + HexDigitValue(last).value)
    ensures s != [] ==> HexDigits(s, gap, sum).Some?
    ensures s != [] ==> HexDigits(s + [last], gap, sum) == Some(HexDigits(s, gap, sum).value * 16 + HexDigitValue(last).value)
  {
    if s == [] {
      assert ([] + [last])[1..] == [];
      assert [] + [last] == [last];
    } else {
      var v := HexDigitValue(s[0]).value;
      assert (s + [last])[1..] == s[1..] + [last];
      HexDigitsAppend(s[1..], last, false, sum * 16 + v);
      if s[1..] == [] { assert HexDigits(s[1..], false, sum * 16 + v) == Some(sum * 16 + v); }
    }
  }

  lemma {:induction false} HexSizeReadsBack(n: nat)
    ensures HexDigits(HexSize(n), true, 0) == Some(n)
  {
    if n < 16 {
      HexDigitsAppend([], HexByte(n), true, 0);
      assert [] + [HexByte(n)] == HexSize(n);
    } else {
      HexSizeReadsBack(n / 16);
      HexDigitsAppend(HexSize(n / 16), HexByte(n % 16), true, 0);
    }
  }

  lemma {:induction false} NoSemicolon(s: Bytes, ext: Bytes)
    requires forall i :: 0 <= i < |s| ==> s[i] != SEMICOLON
    requires ext == [] || ext[0] == SEMICOLON
    ensures BeforeSemicolon(s + ext) == s
  {
    if s == [] {
      assert s + ext == ext;
    } else {
      assert (s + ext)[1..] == s[1..] + ext;
      NoSemicolon(s[1..], ext);
    }
  }

  // ---------- exactly the headers that are read ----------

  predicate HexOrUnderscore(b: Byte) { b == 95 || 48 <= b <= 57 || 65 <= b <= 70 || 97 <= b <= 102 }

  /** Hexadecimal digits of either case, with single underscores between them. */
  ghost predicate HexNumeral(s: Bytes) {
    && s != [] && s[0] != UNDERSCORE && HexBegun(s)
  }

  /** The same, but for an underscore at the front. */
  ghost predicate HexBegun(s: Bytes) {
    && (s != [] ==> s[|s| - 1] != UNDERSCORE)
    && (forall i :: 0 <= i < |s| - 1 ==> s[i] != UNDERSCORE || s[i + 1] != UNDERSCORE)
    && forall i :: 0 <= i < |s| ==> HexOrUnderscore(s[i])
  }

  /** A digit's value: its place in the row of digits. */
  function DigitPlace(b: Byte): nat { if b >= 97 then 10 + (b as int - 97) else if b >= 65 then 10 + (b as int - 65) else if b >= 48 then b as int - 48 else 0 }

  /** The number that digits after `sum` stand for, from right to left: sixteen times what comes before a digit, and it. */
  function HexNumber(s: Bytes, sum: nat): nat {
    if s == [] then sum
    else
      var before := HexNumber(s[..|s| - 1], sum);
      if s[|s| - 1] == UNDERSCORE then before else before * 16 + DigitPlace(s[|s| - 1])
  }

  lemma {:induction false} HexNumberFront(s: Bytes, sum: nat)
    requires s != []
    ensures HexNumber(s, sum) == HexNumber(s[1..], if s[0] == UNDERSCORE then sum else sum * 16 + DigitPlace(s[0]))
  {
    if |s| == 1 {
      assert s[..0] == [] && s[1..] == [];
    } else {
      assert s[1..][..|s| - 2] == s[..|s| - 1][1..];
      HexNumberFront(s[..|s| - 1], sum);
    }
  }

  lemma HexBegunTail(s: Bytes)
    requires s != []
    ensures HexBegun(s) <==> HexBegun(s[1..]) && HexOrUnderscore(s[0]) && (s[0] == UNDERSCORE ==> |s| > 1 && s[1] != UNDERSCORE)
  {
    var rest := s[1..];
    assert forall i :: 0 <= i < |rest| ==> rest[i] == s[i + 1];
    if HexBegun(rest) && HexOrUnderscore(s[0]) && (s[0] == UNDERSCORE ==> |s| > 1 && s[1] != UNDERSCORE) {
      forall i | 0 <= i < |s| - 1 ensures s[i] != UNDERSCORE || s[i + 1] != UNDERSCORE {
        if i > 0 { assert rest[i - 1] != UNDERSCORE || rest[i] != UNDERSCORE; }
      }
      forall i | 0 <= i < |s| ensures HexOrUnderscore(s[i]) {
        if i > 0 { assert HexOrUnderscore(rest[i - 1]); }
      }
    }
  }

  lemma {:induction false} HexDigitsRead(s: Bytes, gap: bool, sum: nat)
    ensures HexDigits(s, gap, sum) ==
      if HexBegun(s) && (gap ==> s != [] && s[0] != UNDERSCORE) then Some(HexNumber(s, sum)) else None
  {
    if s != [] {
      HexBegunTail(s);
      HexNumberFront(s, sum);
      if s[0] == UNDERSCORE {
        HexDigitsRead(s[1..], true, sum);
      } else if IsHexDigit(s[0]) {
        HexDigitsRead(s[1..], false, sum * 16 + HexDigitValue(s[0]).value);
      }
    }
  }

  /** A base prefix, perhaps with an underscore after it. */
  predicate IsPrefix16(prefix: Bytes) {
    prefix == [] || (2 <= |prefix| <= 3 && prefix[0] == 48 && (prefix[1] == 120 || prefix[1] == 88) && (|prefix| == 3 ==> prefix[2] == UNDERSCORE))
  }

  predicate IsSign(sign: Bytes) { sign == [] || sign == [PLUS] || sign == [MINUS] }

  /** Nothing but tabs, line feeds, vertical tabs, form feeds, carriage returns and spaces. */
  predicate AllBlank(s: Bytes) { forall i :: 0 <= i < |s| ==> s[i] as int in {9, 10, 11, 12, 13, 32} }

  /** A size line taken apart. */
  datatype SizeLine = SizeLine(front: Bytes, sign: Bytes, prefix: Bytes, digits: Bytes, back: Bytes, ext: Bytes)

  ghost predicate WellSpelled(l: SizeLine) {
    && AllBlank(l.front) && IsSign(l.sign) && IsPrefix16(l.prefix) && HexNumeral(l.digits) && AllBlank(l.back)
    && (l.ext == [] || l.ext[0] == SEMICOLON)
  }

  function Number(l: SizeLine): Bytes { l.sign + l.prefix + l.digits }

  function Spelling(l: SizeLine): Bytes { l.front + Number(l) + l.back + l.ext }

  function SizeOf(l: SizeLine): int {
    var n: int := HexNumber(l.digits, 0);
    if l.sign == [MINUS] then -n else n
  }

  lemma {:induction false} FrontStripped(front: Bytes, rest: Bytes)
    requires AllBlank(front) && (rest == [] || !IsBlank(rest[0]))
    ensures StripFront(front + rest) == rest
  {
    if front == [] {
      assert [] + rest == rest;
    } else {
      assert (front + rest)[1..] == front[1..] + rest;
      FrontStripped(front[1..], rest);
    }
  }

  lemma {:induction false} BackStripped(rest: Bytes, back: Bytes)
    requires AllBlank(back) && (rest == [] || !IsBlank(rest[|rest| - 1]))
    ensures StripBack(rest + back) == rest
  {
    if back == [] {
      assert rest + [] == rest;
    } else {
      assert (rest + back)[..|rest + back| - 1] == rest + back[..|back| - 1];
      BackStripped(rest, back[..|back| - 1]);
    }
  }

  lemma PrefixDropped(prefix: Bytes, digits: Bytes)
    requires IsPrefix16(prefix) && HexNumeral(digits)
    ensures AfterPrefix(prefix + digits) == digits
  {
    var s := prefix + digits;
    if prefix == [] {
      assert s == digits;
      if |digits| >= 2 { assert HexOrUnderscore(digits[1]); }
    }
  }

  lemma UnsignedReads(prefix: Bytes, digits: Bytes)
    requires IsPrefix16(prefix) && HexNumeral(digits)
    ensures HexDigits(AfterPrefix(prefix + digits), true, 0) == Some(HexNumber(digits, 0))
    ensures var s := prefix + digits; s != [] && s[0] != PLUS && s[0] != MINUS
  {
    hide AfterPrefix, HexDigits, HexNumber;
    PrefixDropped(prefix, digits);
    HexDigitsRead(digits, true, 0);
    assert HexOrUnderscore(digits[0]);
  }

  lemma NumberReads(l: SizeLine)
    requires WellSpelled(l)
    ensures ParseInt16(Number(l)) == Some(SizeOf(l))
  {
    hide AfterPrefix, HexDigits, HexNumber, HexNumeral, IsPrefix16;
    var s, unsigned := Number(l), l.prefix + l.digits;
    UnsignedReads(l.prefix, l.digits);
    if l.sign == [] { assert s == unsigned; } else { assert s[1..] == unsigned; }
  }

  lemma NumberEnds(l: SizeLine)
    requires WellSpelled(l)
    ensures var s := Number(l); s != [] && !IsBlank(s[0]) && !IsBlank(s[|s| - 1]) && SEMICOLON !in s && SEMICOLON !in l.front && SEMICOLON !in l.back
  {
    var s := Number(l);
    assert HexOrUnderscore(l.digits[0]) && HexOrUnderscore(l.digits[|l.digits| - 1]);
    assert s[|s| - 1] == l.digits[|l.digits| - 1];
    assert s[0] == (if l.sign != [] then l.sign[0] else if l.prefix != [] then l.prefix[0] else l.digits[0]);
    assert forall i :: 0 <= i < |l.digits| ==> HexOrUnderscore(l.digits[i]);
  }

  /** Every well-spelled size line is read as the size it spells: either case, a sign, a base prefix, single underscores,
      blanks around, an extension after a semicolon. */
  lemma SpelledSizeReads(l: SizeLine)
    requires WellSpelled(l)
    ensures ParseFrameSize(Spelling(l)) == Some(SizeOf(l))
  {
    hide WellSpelled, ParseInt16, Number, SizeOf;
    NumberEnds(l);
    NumberReads(l);
    assert AllBlank(l.front) && AllBlank(l.back) && (l.ext == [] || l.ext[0] == SEMICOLON) by { SpelledParts(l); }
    var number := Number(l);
    var core := l.front + number + l.back;
    assert Spelling(l) == core + l.ext;
    NoSemicolon(core, l.ext);
    assert core == l.front + (number + l.back);
    FrontStripped(l.front, number + l.back);
    BackStripped(number, l.back);
  }

  lemma SpelledParts(l: SizeLine)
    requires WellSpelled(l)
    ensures AllBlank(l.front) && AllBlank(l.back) && (l.ext == [] || l.ext[0] == SEMICOLON)
  {
  }

  lemma HexSizeIsNumeral(n: nat)
    ensures HexNumeral(HexSize(n)) && HexNumber(HexSize(n), 0) == n
  {
    hide HexSize, HexDigits, HexNumber;
    HexSizeReadsBack(n);
    HexDigitsRead(HexSize(n), true, 0);
  }

  /** The size in hexadecimal, followed by any extension after a semicolon, reads back as the size. */
  lemma HeaderReadsBack(n: nat, ext: Bytes)
    requires ext == [] || ext[0] == SEMICOLON
    ensures ParseFrameSize(HexSize(n) + ext) == Some(n)
  {
    hide HexSize, ParseFrameSize, HexNumber, HexNumeral;
    var l := SizeLine([], [], [], HexSize(n), [], ext);
    HexSizeIsNumeral(n);
    SpelledSizeReads(l);
    assert Spelling(l) == HexSize(n) + ext;
  }

  // ---------- and no others ----------

  lemma {:induction false} SemicolonEnds(line: Bytes)
    ensures var core := BeforeSemicolon(line); |core| <= |line| && (line == core || line[|core|] == SEMICOLON)
  {
    if line != [] && line[0] != SEMICOLON { SemicolonEnds(line[1..]); }
  }

  lemma {:induction false} FrontFound(s: Bytes) returns (front: Bytes)
    ensures s == front + StripFront(s) && AllBlank(front)
  {
    front := [];
    if s != [] && IsBlank(s[0]) {
      var rest := FrontFound(s[1..]);
      front := [s[0]] + rest;
    }
  }

  lemma {:induction false} BackFound(s: Bytes) returns (back: Bytes)
    ensures s == StripBack(s) + back && AllBlank(back)
  {
    back := [];
    if s != [] && IsBlank(s[|s| - 1]) {
      var rest := BackFound(s[..|s| - 1]);
      back := rest + [s[|s| - 1]];
      assert s == s[..|s| - 1] + [s[|s| - 1]];
    }
  }

  lemma PrefixFound(s: Bytes) returns (prefix: Bytes)
    ensures s == prefix + AfterPrefix(s) && IsPrefix16(prefix)
  {
    prefix := s[..|s| - |AfterPrefix(s)|];
  }

  lemma NumberFound(s: Bytes) returns (sign: Bytes, prefix: Bytes, digits: Bytes)
    requires ParseInt16(s).Some?
    ensures s == sign + prefix + digits && IsSign(sign) && IsPrefix16(prefix) && HexNumeral(digits)
  {
    hide AfterPrefix, HexDigits, HexNumber, HexBegun;
    var signed := s != [] && (s[0] == PLUS || s[0] == MINUS);
    sign := if signed then [s[0]] else [];
    var unsigned := if signed then s[1..] else s;
    prefix := PrefixFound(unsigned);
    digits := AfterPrefix(unsigned);
    HexDigitsRead(digits, true, 0);
    assert s == sign + unsigned;
  }

  /** A line that is read as a size spells it. */
  lemma ReadSizeIsSpelled(line: Bytes) returns (l: SizeLine)
    requires ParseFrameSize(line).Some?
    ensures WellSpelled(l) && Spelling(l) == line && ParseFrameSize(line) == Some(SizeOf(l))
  {
    hide BeforeSemicolon, StripFront, StripBack, ParseInt16, HexNumeral, HexNumber;
    var core := BeforeSemicolon(line);
    SemicolonEnds(line);
    var front := FrontFound(core);
    var middle := StripFront(core);
    var back := BackFound(middle);
    var sign, prefix, digits := NumberFound(StripBack(middle));
    l := SizeLine(front, sign, prefix, digits, back, line[|core|..]);
    assert Number(l) == StripBack(middle);
    assert Spelling(l) == line by {
      assert front + (Number(l) + back) == core && line == core + line[|core|..];
      assert front + Number(l) + back == front + (Number(l) + back);
    }
    SpelledSizeReads(l);
  }
}
