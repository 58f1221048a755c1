/** The canonical query string of a SigV4 request (app/security/sigv4.py): parameters percent-encoded
    with the unreserved set of section 2.3 of RFC 3986, sorted, and joined. */
module CanonicalQuery {
  import opened Text

  // ---------- percent-encoding ----------

  predicate Unreserved(c: char) {
    'A' <= c <= 'Z' || 'a' <= c <= 'z' || '0' <= c <= '9' || c == '-' || c == '.' || c == '_' || c == '~'
  }

  function UpperHexDigit(n: nat): char
    requires n < 16
  {
    if n < 10 then '0' + n as char else 'A' + (n - 10) as char
  }

  function UpperHex(n: nat): (r: string)
    ensures r != ""
  {
    if n < 16 then [UpperHexDigit(n)] else UpperHex(n / 16) + [UpperHexDigit(n % 16)]
  }

  /** `f"{n:02X}"`. */
  function AtLeastTwo(n: nat): string { if n < 16 then "0" + UpperHex(n) else UpperHex(n) }

  function EncodeChar(c: char): (r: string)
    ensures r != ""
  {
    if Unreserved(c) then [c] else "%" + AtLeastTwo(c as int)
  }

  function Encode(s: string): string {
    if s == "" then "" else EncodeChar(s[0]) + Encode(s[1..])
  }

  lemma {:induction false} EncodeAppend(s: string, c: char)
    ensures Encode(s + [c]) == Encode(s) + EncodeChar(c)
  {
    if s == "" {
      assert "" + [c] == [c];
    } else {
      assert (s + [c])[1..] == s[1..] + [c];
      EncodeAppend(s[1..], c);
    }
  }

  /** `uri_encode` with `encode_slash=True`: the loop over the characters. */
  method UriEncode(value: string) returns (out: string)
    ensures out == Encode(value)
  {
    out := "";
    for index := 0 to |value|
      invariant out == Encode(value[..index])
    {
      var c := value[index];
      assert value[..index + 1] == value[..index] + [c];
      EncodeAppend(value[..index], c);
      if Unreserved(c) {
        out := out + [c];
      } else {
        out := out + ("%" + AtLeastTwo(c as int));
      }
    }
    assert value[..|value|] == value;
  }

  function HexOf(c: char): nat {
    if '0' <= c <= '9' then c as int - '0' as int else if 'A' <= c <= 'F' then c as int - 'A' as int + 10 else 0
  }

  /** Reads an encoding back, two digits for each percent sign. */
  function Decode(t: string): string {
    if t == "" then ""
    else if t[0] == '%' && |t| >= 3 then [(HexOf(t[1]) * 16 + HexOf(t[2])) as char] + Decode(t[3..])
    else [t[0]] + Decode(t[1..])
  }

  /** All characters have code points below `n`. */
  ghost predicate Below(s: string, n: nat) { forall i :: 0 <= i < |s| ==> s[i] as int < n }

  lemma TwoDigits(n: nat)
    requires n < 256
    ensures AtLeastTwo(n) == [UpperHexDigit(n / 16), UpperHexDigit(n % 16)]
    ensures HexOf(UpperHexDigit(n / 16)) * 16 + HexOf(UpperHexDigit(n % 16)) == n
  {
    assert n >= 16 ==> UpperHex(n / 16) == [UpperHexDigit(n / 16)];
  }

  /** Below code point 256 encoding can be undone. */
  lemma {:induction false} DecodeEncode(s: string)
    requires Below(s, 256)
    ensures Decode(Encode(s)) == s
  {
    if s != "" {
      DecodeEncode(s[1..]);
      var rest, c := Encode(s[1..]), s[0];
      if Unreserved(c) {
        assert Encode(s) == [c] + rest;
        assert ([c] + rest)[1..] == rest;
      } else {
        TwoDigits(c as int);
        var d := AtLeastTwo(c as int);
        assert Encode(s) == "%" + d + rest;
        assert ("%" + d + rest)[3..] == rest;
      }
      assert s == [s[0]] + s[1..];
    }
  }

  /** An encoding holds only unreserved characters, percent signs and digits. */
  lemma {:induction false} EncodedAlphabet(s: string)
    ensures forall c :: c in Encode(s) ==> Unreserved(c) || c == '%'
  {
    if s != "" {
      HexAlphabet(s[0] as int);
      EncodedAlphabet(s[1..]);
    }
  }

  lemma {:induction false} HexAlphabet(n: nat)
    ensures forall c :: c in UpperHex(n) ==> Unreserved(c)
    ensures forall c :: c in AtLeastTwo(n) ==> Unreserved(c)
  {
    if n >= 16 { HexAlphabet(n / 16); }
  }

  // ---------- sorting ----------

  /** Python's order of strings: by code point, a prefix first. */
  predicate StringLeq(a: string, b: string) {
    a == "" || (b != "" && (a[0] < b[0] || (a[0] == b[0] && StringLeq(a[1..], b[1..]))))
  }

  lemma {:induction false} StringLeqTotal(a: string, b: string)
    ensures StringLeq(a, b) || StringLeq(b, a)
    ensures StringLeq(a, b) && StringLeq(b, a) ==> a == b
  {
    if a != "" && b != "" && a[0] == b[0] {
      StringLeqTotal(a[1..], b[1..]);
      assert a == [a[0]] + a[1..] && b == [b[0]] + b[1..];
    }
  }

  lemma {:induction false} StringLeqTransitive(a: string, b: string, c: string)
    requires StringLeq(a, b) && StringLeq(b, c)
    ensures StringLeq(a, c)
  {
    if a != "" && a[0] == b[0] == c[0] { StringLeqTransitive(a[1..], b[1..], c[1..]); }
  }

  datatype Pair = Pair(key: string, value: string)

  predicate Leq(p: Pair, q: Pair) {
    if p.key == q.key then StringLeq(p.value, q.value) else StringLeq(p.key, q.key)
  }

  lemma LeqTotal(p: Pair, q: Pair)
    ensures Leq(p, q) || Leq(q, p)
    ensures Leq(p, q) && Leq(q, p) ==> p == q
  {
    StringLeqTotal(p.key, q.key);
    StringLeqTotal(p.value, q.value);
  }

  lemma LeqTransitive(p: Pair, q: Pair, r: Pair)
    requires Leq(p, q) && Leq(q, r)
    ensures Leq(p, r)
  {
    StringLeqTotal(p.key, q.key);
    StringLeqTotal(q.key, r.key);
    if p.key == q.key && q.key == r.key {
      StringLeqTransitive(p.value, q.value, r.value);
    } else if p.key != q.key && q.key != r.key {
      StringLeqTransitive(p.key, q.key, r.key);
      StringLeqTotal(p.key, r.key);
    }
  }

  function Insert(p: Pair, sorted: seq<Pair>): seq<Pair> {
    if sorted == [] || Leq(p, sorted[0]) then [p] + sorted else [sorted[0]] + Insert(p, sorted[1..])
  }

  /** `list.sort`: the elements in ascending order. */
  function Sort(pairs: seq<Pair>): seq<Pair> {
    if pairs == [] then [] else Insert(pairs[0], Sort(pairs[1..]))
  }

  ghost predicate Ascending(s: seq<Pair>) {
    forall i, j :: 0 <= i < j < |s| ==> Leq(s[i], s[j])
  }

  lemma {:induction false} InsertSorts(p: Pair, s: seq<Pair>)
    requires Ascending(s)
    ensures Ascending(Insert(p, s)) && multiset(Insert(p, s)) == multiset(s) + multiset{p}
  {
    if s == [] {
    } else if Leq(p, s[0]) {
      forall j | 0 <= j < |s| ensures Leq(p, s[j]) {
        if j > 0 { LeqTransitive(p, s[0], s[j]); }
      }
    } else {
      assert s == [s[0]] + s[1..];
      InsertSorts(p, s[1..]);
      var rest := Insert(p, s[1..]);
      LeqTotal(p, s[0]);
      forall j | 0 <= j < |rest| ensures Leq(s[0], rest[j]) {
        assert rest[j] in multiset(rest);
        if rest[j] != p { assert rest[j] in s[1..]; }
      }
    }
  }

  lemma {:induction false} SortSorts(pairs: seq<Pair>)
    ensures Ascending(Sort(pairs)) && multiset(Sort(pairs)) == multiset(pairs)
  {
    if pairs != [] {
      assert pairs == [pairs[0]] + pairs[1..];
      SortSorts(pairs[1..]);
      InsertSorts(pairs[0], Sort(pairs[1..]));
    }
  }

  lemma TailMultiset<T>(s: seq<T>)
    requires s != []
    ensures multiset(s[1..]) == multiset(s) - multiset{s[0]}
  {
    assert s == [s[0]] + s[1..];
  }

  /** There is only one ascending order of given elements. */
  lemma {:induction false} AscendingUnique(a: seq<Pair>, b: seq<Pair>)
    requires Ascending(a) && Ascending(b) && multiset(a) == multiset(b)
    ensures a == b
  {
    assert |multiset(a)| == |a| && |multiset(b)| == |b|;
    if a != [] {
      SameFirst(a, b);
      TailMultiset(a);
      TailMultiset(b);
      AscendingUnique(a[1..], b[1..]);
      assert a == [a[0]] + a[1..] && b == [b[0]] + b[1..];
    }
  }

  lemma SameFirst(a: seq<Pair>, b: seq<Pair>)
    requires Ascending(a) && Ascending(b) && multiset(a) == multiset(b) && a != [] && b != []
    ensures a[0] == b[0]
  {
    assert a[0] in multiset(a) && b[0] in multiset(b);
    FirstIsLeast(a, b[0]);
    FirstIsLeast(b, a[0]);
    LeqTotal(a[0], b[0]);
  }

  lemma FirstIsLeast(s: seq<Pair>, p: Pair)
    requires Ascending(s) && p in s
    ensures Leq(s[0], p)
  {
    var i :| 0 <= i < |s| && s[i] == p;
    LeqTotal(p, p);
  }

  // ---------- the canonical string ----------

  /** The request's parameters: for query authorization the signature itself is dropped. */
  function Signed(pairs: seq<Pair>, queryAuth: bool): seq<Pair> {
    if pairs == [] then []
    else if queryAuth && pairs[0].key == "X-Amz-Signature" then Signed(pairs[1..], queryAuth)
    else [pairs[0]] + Signed(pairs[1..], queryAuth)
  }

  function EncodePair(p: Pair): Pair { Pair(Encode(p.key), Encode(p.value)) }

  function Mapped(f: Pair -> Pair, pairs: seq<Pair>): (r: seq<Pair>)
    ensures |r| == |pairs| && forall i :: 0 <= i < |r| ==> r[i] == f(pairs[i])
  {
    seq(|pairs|, i requires 0 <= i < |pairs| => f(pairs[i]))
  }

  function EncodeAll(pairs: seq<Pair>): seq<Pair> { Mapped(EncodePair, pairs) }

  function Assignment(p: Pair): string { p.key + "=" + p.value }

  function Assignments(pairs: seq<Pair>): (r: seq<string>)
    ensures |r| == |pairs| && forall i :: 0 <= i < |r| ==> r[i] == Assignment(pairs[i])
  {
    seq(|pairs|, i requires 0 <= i < |pairs| => Assignment(pairs[i]))
  }

  function Canonical(pairs: seq<Pair>, queryAuth: bool): string {
    Join(Assignments(Sort(EncodeAll(Signed(pairs, queryAuth)))), '&')
  }

  lemma {:induction false} SignedAppend(pairs: seq<Pair>, p: Pair, queryAuth: bool)
    ensures Signed(pairs + [p], queryAuth)
         == Signed(pairs, queryAuth) + (if queryAuth && p.key == "X-Amz-Signature" then [] else [p])
  {
    if pairs == [] {
      assert [] + [p] == [p];
    } else {
      assert (pairs + [p])[1..] == pairs[1..] + [p];
      SignedAppend(pairs[1..], p, queryAuth);
    }
  }

  /** `_canonical_query_string`, after the query has been split into its parameters. */
  method CanonicalQueryString(pairs: seq<Pair>, queryAuth: bool) returns (canonical: string)
    ensures canonical == Canonical(pairs, queryAuth)
  {
    var encoded: seq<Pair> := [];
    for index := 0 to |pairs|
      invariant encoded == EncodeAll(Signed(pairs[..index], queryAuth))
    {
      var pair := pairs[index];
      assert pairs[..index + 1] == pairs[..index] + [pair];
      SignedAppend(pairs[..index], pair, queryAuth);
      if !(queryAuth && pair.key == "X-Amz-Signature") {
        var key := UriEncode(pair.key);
        var value := UriEncode(pair.value);
        encoded := encoded + [Pair(key, value)];
      }
    }
    assert pairs[..|pairs|] == pairs;
    canonical := Join(Assignments(Sort(encoded)), '&');
  }

  // ---------- reordering changes nothing ----------

  function Without<T>(s: seq<T>, i: nat): seq<T>
    requires i < |s|
  {
    s[..i] + s[i + 1..]
  }

  lemma RemoveAt<T>(s: seq<T>, i: nat)
    requires i < |s|
    ensures multiset(s) == multiset(Without(s, i)) + multiset{s[i]}
  {
    assert s == s[..i] + [s[i]] + s[i + 1..];
  }

  /** Equal multisets: the first element of one is somewhere in the other, and the rests are equal. */
  lemma PairOff(a: seq<Pair>, b: seq<Pair>) returns (i: nat)
    requires a != [] && multiset(a) == multiset(b)
    ensures i < |b| && b[i] == a[0] && multiset(a[1..]) == multiset(Without(b, i))
  {
    assert a[0] in multiset(a) && a[0] in multiset(b);
    i :| 0 <= i < |b| && b[i] == a[0];
    TailMultiset(a);
    RemoveAt(b, i);
    assert multiset(Without(b, i)) == multiset(b) - multiset{a[0]};
  }

  lemma {:induction false} MappedMultiset(f: Pair -> Pair, a: seq<Pair>, b: seq<Pair>)
    requires multiset(a) == multiset(b)
    ensures multiset(Mapped(f, a)) == multiset(Mapped(f, b))
    decreases a
  {
    if a == [] {
      assert |multiset(b)| == |b|;
    } else {
      var i := PairOff(a, b);
      MappedMultiset(f, a[1..], Without(b, i));
      TailMultiset(Mapped(f, a));
      RemoveAt(Mapped(f, b), i);
      assert Mapped(f, a)[1..] == Mapped(f, a[1..]);
      assert Without(Mapped(f, b), i) == Mapped(f, Without(b, i));
    }
  }

  /** Parameters in any order give the same canonical string. */
  lemma CanonicalIgnoresOrder(a: seq<Pair>, b: seq<Pair>, queryAuth: bool)
    requires multiset(Signed(a, queryAuth)) == multiset(Signed(b, queryAuth))
    ensures Canonical(a, queryAuth) == Canonical(b, queryAuth)
  {
    var x, y := EncodeAll(Signed(a, queryAuth)), EncodeAll(Signed(b, queryAuth));
    MappedMultiset(EncodePair, Signed(a, queryAuth), Signed(b, queryAuth));
    SortSorts(x);
    SortSorts(y);
    AscendingUnique(Sort(x), Sort(y));
  }

  // ---------- and nothing else does, below code point 256 ----------

  ghost predicate AllBelow(pairs: seq<Pair>, n: nat) {
    forall i :: 0 <= i < |pairs| ==> Below(pairs[i].key, n) && Below(pairs[i].value, n)
  }

  lemma FreeOfSeparators(s: string)
    ensures '&' !in Encode(s) && '=' !in Encode(s)
  {
    EncodedAlphabet(s);
  }

  lemma AssignmentReadsBack(p: Pair)
    requires '=' !in p.key && '=' !in p.value
    ensures Split(Assignment(p), '=') == [p.key, p.value]
  {
    SplitFirst(p.key, p.value, '=');
    SplitFirst(p.value, "", '=');
    assert Assignment(p) == p.key + ['='] + p.value;
  }

  /** No separator occurs inside an encoded key or value. */
  ghost predicate Separable(pairs: seq<Pair>) {
    forall i :: 0 <= i < |pairs| ==>
      '=' !in pairs[i].key && '=' !in pairs[i].value && '&' !in pairs[i].key && '&' !in pairs[i].value
  }

  lemma JoinNotEmpty(pairs: seq<Pair>)
    requires pairs != []
    ensures Join(Assignments(pairs), '&') != ""
  {
  }

  lemma JoinedReadsBack(a: seq<Pair>, b: seq<Pair>)
    requires Separable(a) && Separable(b) && Join(Assignments(a), '&') == Join(Assignments(b), '&')
    ensures a == b
  {
    if a == [] || b == [] {
      if a != [] { JoinNotEmpty(a); }
      if b != [] { JoinNotEmpty(b); }
    } else {
      assert Free(Assignments(a), '&') && Free(Assignments(b), '&');
      SplitJoin(Assignments(a), '&');
      SplitJoin(Assignments(b), '&');
      forall i | 0 <= i < |a| ensures a[i] == b[i] {
        assert Assignments(a)[i] == Assignments(b)[i];
        AssignmentReadsBack(a[i]);
        AssignmentReadsBack(b[i]);
      }
    }
  }

  lemma SortedStaysSeparable(pairs: seq<Pair>)
    ensures Separable(Sort(EncodeAll(pairs)))
  {
    var s := Sort(EncodeAll(pairs));
    SortSorts(EncodeAll(pairs));
    forall i | 0 <= i < |s| ensures '=' !in s[i].key && '=' !in s[i].value && '&' !in s[i].key && '&' !in s[i].value {
      assert s[i] in multiset(s);
      var k :| 0 <= k < |pairs| && EncodeAll(pairs)[k] == s[i];
      FreeOfSeparators(pairs[k].key);
      FreeOfSeparators(pairs[k].value);
    }
  }

  function DecodePair(p: Pair): Pair { Pair(Decode(p.key), Decode(p.value)) }

  function DecodeAll(pairs: seq<Pair>): seq<Pair> { Mapped(DecodePair, pairs) }

  lemma DecodeAllEncodeAll(pairs: seq<Pair>)
    requires AllBelow(pairs, 256)
    ensures DecodeAll(EncodeAll(pairs)) == pairs
  {
    forall i | 0 <= i < |pairs| ensures DecodeAll(EncodeAll(pairs))[i] == pairs[i] {
      DecodeEncode(pairs[i].key);
      DecodeEncode(pairs[i].value);
    }
  }

  /** Below code point 256 the canonical string determines the parameters up to their order. */
  lemma CanonicalDeterminesParameters(a: seq<Pair>, b: seq<Pair>, queryAuth: bool)
    requires AllBelow(Signed(a, queryAuth), 256) && AllBelow(Signed(b, queryAuth), 256)
    requires Canonical(a, queryAuth) == Canonical(b, queryAuth)
    ensures multiset(Signed(a, queryAuth)) == multiset(Signed(b, queryAuth))
  {
    var x, y := Signed(a, queryAuth), Signed(b, queryAuth);
    SortedStaysSeparable(x);
    SortedStaysSeparable(y);
    JoinedReadsBack(Sort(EncodeAll(x)), Sort(EncodeAll(y)));
    SortSorts(EncodeAll(x));
    SortSorts(EncodeAll(y));
    MappedMultiset(DecodePair, EncodeAll(x), EncodeAll(y));
    DecodeAllEncodeAll(x);
    DecodeAllEncodeAll(y);
  }

  /** Equal canonical strings mean equal parameters up to their order, for parameters below a code point. */
  ghost predicate Faithful(n: nat) {
    forall a, b, queryAuth ::
      AllBelow(Signed(a, queryAuth), n) && AllBelow(Signed(b, queryAuth), n) && Canonical(a, queryAuth) == Canonical(b, queryAuth)
      ==> multiset(Signed(a, queryAuth)) == multiset(Signed(b, queryAuth))
  }

  /** Two parameter lists that are not permutations of each other and have the same canonical string. */
  lemma Collision()
    ensures var a, b := [Pair("k", ['\U{100}'])], [Pair("k", ['\U{10}', '0'])];
      && Canonical(a, false) == Canonical(b, false) && multiset(Signed(a, false)) != multiset(Signed(b, false))
      && AllBelow(Signed(a, false), 257) && AllBelow(Signed(b, false), 257)
  {
    var a, b := [Pair("k", ['\U{100}'])], [Pair("k", ['\U{10}', '0'])];
    assert Signed(a, false) == a && Signed(b, false) == b;
    assert UpperHex(16) == UpperHex(1) + [UpperHexDigit(0)] == "10";
    assert UpperHex(256) == UpperHex(16) + [UpperHexDigit(0)] == "100";
    assert Encode(['\U{100}']) == "%100" by { assert ['\U{100}'][1..] == []; }
    assert Encode(['\U{10}', '0']) == "%100" by {
      assert ['\U{10}', '0'][1..] == ['0'] && ['0'][1..] == [];
      assert Encode(['0']) == "0";
      assert EncodeChar('\U{10}') == "%10";
    }
    assert EncodeAll(a) == EncodeAll(b);
    assert a[0] in multiset(a) && a[0] !in multiset(b);
  }

  lemma FaithfulBelow(n: nat)
    requires n <= 256
    ensures Faithful(n)
  {
    forall a, b, queryAuth | AllBelow(Signed(a, queryAuth), n) && AllBelow(Signed(b, queryAuth), n) && Canonical(a, queryAuth) == Canonical(b, queryAuth)
      ensures multiset(Signed(a, queryAuth)) == multiset(Signed(b, queryAuth))
    {
      CanonicalDeterminesParameters(a, b, queryAuth);
    }
  }

  lemma UnfaithfulAbove(n: nat)
    requires n > 256
    ensures !Faithful(n)
  {
    Collision();
    var a, b := [Pair("k", ['\U{100}'])], [Pair("k", ['\U{10}', '0'])];
    assert AllBelow(Signed(a, false), n) && AllBelow(Signed(b, false), n);
  }

  /** The canonical form is faithful to parameters below code point `n` if and only if `n` is at most 256:
      two hexadecimal digits cannot carry more. */
  lemma FaithfulUpTo256(n: nat)
    ensures Faithful(n) <==> n <= 256
  {
    if n <= 256 { FaithfulBelow(n); } else { UnfaithfulAbove(n); }
  }

  // ---------- what the canonical string looks like ----------

  /** The code points of letters, digits, hyphen, period, underscore and tilde. */
  predicate UnreservedPoint(n: nat) { 65 <= n <= 90 || 97 <= n <= 122 || 48 <= n <= 57 || n in {45, 46, 95, 126} }

  predicate UpperDigit(c: char) { '0' <= c <= '9' || 'A' <= c <= 'F' }

  /** The number hexadecimal digits after `sum` stand for. */
  function HexRead(s: string, sum: nat): nat { if s == "" then sum else HexRead(s[1..], sum * 16 + HexOf(s[0])) }

  lemma {:induction false} HexReadAppend(s: string, c: char, sum: nat)
    ensures HexRead(s + [c], sum) == HexRead(s, sum) * 16 + HexOf(c)
  {
    if s == "" {
      assert (s + [c])[1..] == "";
    } else {
      assert (s + [c])[1..] == s[1..] + [c];
      HexReadAppend(s[1..], c, sum * 16 + HexOf(s[0]));
    }
  }

  lemma DigitReads(n: nat)
    requires n < 16
    ensures UpperDigit(UpperHexDigit(n)) && HexOf(UpperHexDigit(n)) == n && (UpperHexDigit(n) == '0' <==> n == 0)
  {
  }

  lemma {:induction false} UpperHexReads(n: nat)
    ensures HexRead(UpperHex(n), 0) == n && (forall c :: c in UpperHex(n) ==> UpperDigit(c))
    ensures n > 0 ==> UpperHex(n)[0] != '0'
    ensures (|UpperHex(n)| == 1 <==> n < 16) && (|UpperHex(n)| <= 2 <==> n < 256)
  {
    DigitReads(n % 16);
    if n < 16 {
      assert UpperHex(n)[1..] == "";
    } else {
      UpperHexReads(n / 16);
      HexReadAppend(UpperHex(n / 16), UpperHexDigit(n % 16), 0);
    }
  }

  /** Exactly the unreserved characters stand for themselves; every other becomes a percent sign and its code point in
      upper-case hexadecimal, in two digits or, from 256 on, as many more as it takes. */
  lemma CharactersEncoded(c: char)
    ensures Encode([c]) == [c] <==> UnreservedPoint(c as int)
    ensures !UnreservedPoint(c as int) ==>
      var e := Encode([c]);
      && |e| >= 3 && e[0] == '%' && (forall d :: d in e[1..] ==> UpperDigit(d)) && HexRead(e[1..], 0) == c as int
      && (c as int < 256 <==> |e| == 3) && (c as int >= 256 ==> e[1] != '0')
  {
    assert [c][1..] == "" && Encode("") == "";
    assert Unreserved(c) <==> UnreservedPoint(c as int);
    assert Encode([c]) == EncodeChar(c);
    if !Unreserved(c) {
      var hex := AtLeastTwo(c as int);
      UpperHexReads(c as int);
      assert EncodeChar(c) == "%" + hex && EncodeChar(c)[1..] == hex;
      if c as int < 16 {
        assert hex[1..] == UpperHex(c as int);
        assert HexRead(hex, 0) == HexRead(UpperHex(c as int), 0);
      }
    }
  }

  /** By code point: a prefix first, or else smaller at the first difference. */
  ghost predicate NotAfter(a: string, b: string) {
    a <= b || exists k :: 0 <= k < |a| && k < |b| && a[..k] == b[..k] && a[k] < b[k]
  }

  lemma FirstsEqual(a: string, b: string)
    ensures forall k :: 0 < k <= |a| && k <= |b| && a[..k] == b[..k] ==> a[0] == b[0]
  {
    forall k | 0 < k <= |a| && k <= |b| && a[..k] == b[..k] ensures a[0] == b[0] { assert a[..k][0] == b[..k][0]; }
  }

  lemma {:induction false} StringOrder(a: string, b: string)
    ensures StringLeq(a, b) <==> NotAfter(a, b)
  {
    if a != "" && b != "" && a[0] == b[0] {
      StringOrder(a[1..], b[1..]);
      assert a == [a[0]] + a[1..] && b == [b[0]] + b[1..];
      if k :| 0 <= k < |a[1..]| && k < |b[1..]| && a[1..][..k] == b[1..][..k] && a[1..][k] < b[1..][k] {
        assert a[..k + 1] == [a[0]] + a[1..][..k] && b[..k + 1] == [b[0]] + b[1..][..k];
      }
      if k :| 0 <= k < |a| && k < |b| && a[..k] == b[..k] && a[k] < b[k] {
        assert a[1..][..k - 1] == a[..k][1..] && b[1..][..k - 1] == b[..k][1..];
      }
    } else if a != "" && b != "" && a[0] < b[0] {
      assert a[..0] == b[..0];
    } else {
      FirstsEqual(a, b);
    }
  }

  /** By name, and by value where the names are equal. */
  ghost predicate InOrder(p: Pair, q: Pair) {
    if p.key == q.key then NotAfter(p.value, q.value) else NotAfter(p.key, q.key)
  }

  lemma {:induction false} KeptParameters(pairs: seq<Pair>, queryAuth: bool, p: Pair)
    ensures multiset(Signed(pairs, queryAuth))[p] == if queryAuth && p.key == "X-Amz-Signature" then 0 else multiset(pairs)[p]
  {
    if pairs != [] {
      assert pairs == [pairs[0]] + pairs[1..];
      KeptParameters(pairs[1..], queryAuth, p);
    }
  }

  /** The canonical string lists the encoded parameters, all but the signature of query authorization, as `name=value`
      joined by ampersands, in ascending order of the encoded names and then of the encoded values. */
  lemma CanonicalListsParameters(pairs: seq<Pair>, queryAuth: bool) returns (kept: seq<Pair>, listed: seq<Pair>)
    ensures forall p :: multiset(kept)[p] == if queryAuth && p.key == "X-Amz-Signature" then 0 else multiset(pairs)[p]
    ensures multiset(listed) == multiset(EncodeAll(kept))
    ensures forall i, j :: 0 <= i < j < |listed| ==> InOrder(listed[i], listed[j])
    ensures Split(Canonical(pairs, queryAuth), '&') ==
      if listed == [] then [""] else seq(|listed|, i requires 0 <= i < |listed| => listed[i].key + "=" + listed[i].value)
  {
    hide Split, Join, Separable, StringLeq, NotAfter, EncodeAll, Signed;
    kept := Signed(pairs, queryAuth);
    listed := Sort(EncodeAll(kept));
    forall p ensures multiset(kept)[p] == if queryAuth && p.key == "X-Amz-Signature" then 0 else multiset(pairs)[p] {
      KeptParameters(pairs, queryAuth, p);
    }
    SortSorts(EncodeAll(kept));
    forall i, j | 0 <= i < j < |listed| ensures InOrder(listed[i], listed[j]) {
      StringOrder(listed[i].key, listed[j].key);
      StringOrder(listed[i].value, listed[j].value);
    }
    SortedStaysSeparable(kept);
    JoinedSplits(listed);
  }

  lemma JoinedSplits(listed: seq<Pair>)
    requires Separable(listed)
    ensures Split(Join(Assignments(listed), '&'), '&') ==
      if listed == [] then [""] else seq(|listed|, i requires 0 <= i < |listed| => listed[i].key + "=" + listed[i].value)
  {
    if listed != [] {
      assert Free(Assignments(listed), '&');
      SplitJoin(Assignments(listed), '&');
      assert Assignments(listed) == seq(|listed|, i requires 0 <= i < |listed| => listed[i].key + "=" + listed[i].value);
    }
  }
}
