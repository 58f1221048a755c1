/** `int()` of a string in base ten, as Python 3.12 reads it; the callers have stripped surrounding whitespace. */
module Integers {
  import opened Text

  /** `sys.int_info.default_max_str_digits`: a longer numeral is a ValueError. */
  const DIGITS_MAX := 4300

  /** The decimal digits beyond ASCII are Unicode's; the first of them is U+0660. */
  const OtherDigit: char -> Option<nat>

  function DigitValue(c: char): (r: Option<nat>)
    ensures r.Some? ==> r.value < 10 && c != '_'
  {
    if '0' <= c <= '9' then Some(c as int - '0' as int)
    else if c < '\U{0660}' then None
    else match OtherDigit(c)
      case None => None
      case Some(v) => if v < 10 then Some(v) else None
  }

  /** Digits with single underscores between them, read from the right; `gap` says an underscore may not come next. */
  function Digits(s: string, gap: bool): Option<nat> {
    if s == "" then None
    else
      var c, rest := s[|s| - 1], s[..|s| - 1];
      if c == '_' then (if gap then None else Digits(rest, true))
      else match DigitValue(c)
        case None => None
        case Some(digit) =>
          if rest == "" then Some(digit)
          else match Digits(rest, false)
            case None => None
            case Some(v) => Some(v * 10 + digit)
  }

  /** Leading zeros count, underscores do not. */
  function DigitCount(s: string): nat {
    if s == "" then 0 else DigitCount(s[..|s| - 1]) + (if s[|s| - 1] == '_' then 0 else 1)
  }

  function ParseNat(s: string): Option<nat> {
    match Digits(s, true)
    case None => None
    case Some(v) => if DigitCount(s) > DIGITS_MAX then None else Some(v)
  }

  /** `int(text)`: an optional sign, then digits; None is a ValueError. */
  function ParseInt(s: string): Option<int> {
    var signed := s != "" && (s[0] == '+' || s[0] == '-');
    match ParseNat(if signed then s[1..] else s)
    case None => None
    case Some(v) =>
      var value: int := v;
      Some(if signed && s[0] == '-' then -value else value)
  }

  lemma {:induction false} OnlyDigits(s: string, gap: bool)
    requires s != "" && forall c :: c in s ==> DigitValue(c).Some?
    ensures Digits(s, gap).Some? && DigitCount(s) == |s|
  {
    assert s[|s| - 1] in s;
    if |s| > 1 { OnlyDigits(s[..|s| - 1], false); } else { assert DigitCount(s[..0]) == 0; }
  }

  lemma {:induction false} OneBadCharacter(s: string, gap: bool, c: char)
    requires c in s && c != '_' && DigitValue(c).None?
    ensures Digits(s, gap).None?
  {
    if s[|s| - 1] != c {
      var k :| 0 <= k < |s| && s[k] == c;
      assert s[..|s| - 1][k] == c;
      OneBadCharacter(s[..|s| - 1], s[|s| - 1] == '_', c);
    }
  }

  lemma {:induction false} DecimalReads(n: nat, gap: bool)
    ensures Digits(Decimal(n), gap) == Some(n) && DigitCount(Decimal(n)) == |Decimal(n)|
  {
    var s := Decimal(n);
    assert s[|s| - 1] in s;
    if n >= 10 {
      assert s[..|s| - 1] == Decimal(n / 10);
      DecimalReads(n / 10, false);
    } else {
      assert DigitCount(s[..0]) == 0;
    }
  }

  lemma {:induction false} ValueFitsCount(s: string, gap: bool)
    requires Digits(s, gap).Some?
    ensures |Decimal(Digits(s, gap).value)| <= DigitCount(s)
  {
    var c, rest := s[|s| - 1], s[..|s| - 1];
    if c == '_' {
      ValueFitsCount(rest, true);
    } else if rest != "" {
      ValueFitsCount(rest, false);
    }
  }

  /** A decimal numeral reads back exactly when it is short enough. */
  lemma DecimalParses(n: nat)
    ensures ParseInt(Decimal(n)) == if |Decimal(n)| <= DIGITS_MAX then Some(n) else None
  {
    DecimalReads(n, true);
    assert Decimal(n)[0] in Decimal(n);
  }

  /** The non-negative numbers `int` can return are those with at most 4300 digits. */
  lemma ParsedIsShort(s: string)
    ensures ParseInt(s).Some? && ParseInt(s).value >= 0 ==> |Decimal(ParseInt(s).value)| <= DIGITS_MAX
  {
    var signed := s != "" && (s[0] == '+' || s[0] == '-');
    var body := if signed then s[1..] else s;
    if ParseNat(body).Some? { ValueFitsCount(body, true); }
  }

  /** A string of decimal digits alone raises exactly when there are too many of them. */
  lemma PlainDigitsParse(s: string)
    requires s != "" && forall c :: c in s ==> DigitValue(c).Some?
    ensures ParseInt(s).Some? <==> |s| <= DIGITS_MAX
  {
    OnlyDigits(s, true);
    assert s[0] in s;
  }

  // ---------- exactly what is read ----------

  /** ASCII's digits and Unicode's. */
  predicate IsDecimalDigit(c: char) {
    48 <= c as int <= 57 || (c as int >= 0x660 && OtherDigit(c).Some? && OtherDigit(c).value < 10)
  }

  function DigitOf(c: char): nat {
    if 48 <= c as int <= 57 then c as int - 48 else match OtherDigit(c) case Some(v) => v case None => 0
  }

  predicate DigitOrUnderscore(c: char) { c == '_' || IsDecimalDigit(c) }

  predicate NoDoubleUnderscore(s: string) { forall i :: 0 <= i < |s| - 1 ==> s[i] != '_' || s[i + 1] != '_' }

  /** Digits, with single underscores between them. */
  ghost predicate Numeral(s: string) {
    && s != "" && s[0] != '_' && s[|s| - 1] != '_' && NoDoubleUnderscore(s)
    && forall c :: c in s ==> DigitOrUnderscore(c)
  }

  /** The number the digits stand for, from left to right. */
  function Value(s: string, sum: nat): nat {
    if s == "" then sum
    else Value(s[1..], if s[0] == '_' then sum else sum * 10 + DigitOf(s[0]))
  }

  /** A numeral that is not too long; underscores do not count. */
  ghost predicate Readable(s: string) { Numeral(s) && |s| - multiset(s)['_'] <= DIGITS_MAX }

  lemma {:induction false} ValueAppend(s: string, c: char, sum: nat)
    requires DigitOrUnderscore(c)
    ensures Value(s + [c], sum) == if c == '_' then Value(s, sum) else Value(s, sum) * 10 + DigitOf(c)
  {
    if s == "" {
      assert (s + [c])[1..] == "";
    } else {
      assert (s + [c])[1..] == s[1..] + [c];
      ValueAppend(s[1..], c, if s[0] == '_' then sum else sum * 10 + DigitOf(s[0]));
    }
  }

  lemma {:induction false} CountsDigits(s: string)
    ensures DigitCount(s) == |s| - multiset(s)['_']
  {
    if s != "" {
      CountsDigits(s[..|s| - 1]);
      assert s == s[..|s| - 1] + [s[|s| - 1]];
    }
  }

  /** A numeral but for an underscore at its end. */
  ghost predicate Begun(s: string) {
    s != "" && s[0] != '_' && NoDoubleUnderscore(s) && forall c :: c in s ==> DigitOrUnderscore(c)
  }

  lemma BegunShorter(s: string)
    requires |s| > 1
    ensures Begun(s) <==> Begun(s[..|s| - 1]) && DigitOrUnderscore(s[|s| - 1]) && (s[|s| - 2] != '_' || s[|s| - 1] != '_')
  {
    var rest, c := s[..|s| - 1], s[|s| - 1];
    assert s == rest + [c];
    assert forall i :: 0 <= i < |rest| ==> rest[i] == s[i];
    if Begun(s) { assert forall d :: d in rest ==> d in s; }
    if Begun(rest) && (rest[|rest| - 1] != '_' || c != '_') {
      forall i | 0 <= i < |s| - 1 ensures s[i] != '_' || s[i + 1] != '_' {
        if i < |rest| - 1 { assert rest[i] != '_' || rest[i + 1] != '_'; }
      }
    }
  }

  lemma {:induction false} DigitsRead(s: string, gap: bool)
    ensures Digits(s, gap) == if Begun(s) && (gap ==> s[|s| - 1] != '_') then Some(Value(s, 0)) else None
  {
    if s != "" {
      var c, rest := s[|s| - 1], s[..|s| - 1];
      assert s == rest + [c] && c in s;
      if rest == "" {
        assert s[1..] == "" && Digits(rest, true).None?;
      } else {
        BegunShorter(s);
        DigitsRead(rest, c == '_');
        if DigitOrUnderscore(c) { ValueAppend(rest, c, 0); }
      }
    }
  }

  lemma NatReads(s: string)
    ensures ParseNat(s) == if Readable(s) then Some(Value(s, 0)) else None
  {
    DigitsRead(s, true);
    CountsDigits(s);
  }

  lemma NumeralStart(s: string)
    requires Readable(s)
    ensures s != "" && s[0] != '+' && s[0] != '-'
  {
    assert s[0] in s;
  }

  /** `int` reads exactly the numerals of at most 4300 digits, as the number they stand for, with or without a sign. */
  lemma IntegersRead(s: string)
    ensures Readable(s) ==>
      var v: int := Value(s, 0);
      ParseInt(s) == Some(v) && ParseInt("+" + s) == Some(v) && ParseInt("-" + s) == Some(-v)
    ensures ParseInt(s).Some? ==> Readable(s) || (s != "" && (s[0] == '+' || s[0] == '-') && Readable(s[1..]))
  {
    hide ParseNat, Value, Readable;
    NatReads(s);
    if s != "" { NatReads(s[1..]); }
    if Readable(s) { NumeralStart(s); }
    assert ("+" + s)[1..] == s && ("-" + s)[1..] == s;
  }

  lemma PlainDigitsAreNumerals(s: string)
    requires s != "" && forall c :: c in s ==> DigitValue(c).Some?
    ensures Numeral(s) && multiset(s)['_'] == 0
  {
    forall i | 0 <= i < |s| ensures s[i] != '_' { assert s[i] in s; }
    assert '_' !in multiset(s);
  }
}
