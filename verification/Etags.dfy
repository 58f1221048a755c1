/** Byte strings, hexadecimal digests and ETags (app/s3/etag.py). MD5 is an
    uninterpreted function from bytes to bytes. */
module Etags {
  import opened Text

  newtype Byte = x: int | 0 <= x < 256
  type Bytes = seq<Byte>

  const Md5: Bytes -> Bytes

  function Flatten(pieces: seq<Bytes>): Bytes {
    if pieces == [] then [] else pieces[0] + Flatten(pieces[1..])
  }

  lemma {:induction false} FlattenAppend(a: seq<Bytes>, b: seq<Bytes>)
    ensures Flatten(a + b) == Flatten(a) + Flatten(b)
  {
    if a == [] {
      assert a + b == b;
    } else {
      FlattenAppend(a[1..], b);
      assert (a + b)[1..] == a[1..] + b;
      assert Flatten(a + b) == a[0] + (Flatten(a[1..]) + Flatten(b));
    }
  }

  // ---------- hexadecimal ----------

  function HexDigit(n: nat): char
    requires n < 16
  {
    if n < 10 then '0' + n as char else 'a' + (n - 10) as char
  }

  function HexValue(c: char): Option<nat> {
    if '0' <= c <= '9' then Some(c as int - '0' as int)
    else if 'a' <= c <= 'f' then Some(c as int - 'a' as int + 10)
    else if 'A' <= c <= 'F' then Some(c as int - 'A' as int + 10)
    else None
  }

  /** `bytes.hex`: two lower-case digits a byte. */
  function Hex(data: Bytes): string {
    if data == [] then "" else [HexDigit(data[0] as int / 16), HexDigit(data[0] as int % 16)] + Hex(data[1..])
  }

  /** `bytes.fromhex` without its tolerance for spaces; a malformed string raises. */
  function FromHex(s: string): Option<Bytes> {
    if s == "" then Some([])
    else if |s| == 1 || HexValue(s[0]).None? || HexValue(s[1]).None? then None
    else match FromHex(s[2..])
      case None => None
      case Some(rest) =>
        var b := HexValue(s[0]).value * 16 + HexValue(s[1]).value;
        if b < 256 then Some([b as Byte] + rest) else None
  }

  lemma {:induction false} FromHexHex(data: Bytes)
    ensures FromHex(Hex(data)) == Some(data)
  {
    if data != [] {
      FromHexHex(data[1..]);
      var hi, lo := data[0] as int / 16, data[0] as int % 16;
      assert HexValue(HexDigit(hi)) == Some(hi) && HexValue(HexDigit(lo)) == Some(lo);
      assert hi * 16 + lo == data[0] as int && (hi * 16 + lo) as Byte == data[0];
      var s := Hex(data);
      assert s[0] == HexDigit(hi) && s[1] == HexDigit(lo) && s[2..] == Hex(data[1..]);
      assert [data[0]] + data[1..] == data;
    }
  }

  /** Decoding takes digits of either case, in pairs, and nothing else. */
  lemma {:induction false} FromHexAccepts(s: string)
    ensures FromHex(s).Some? <==> |s| % 2 == 0 && forall i :: 0 <= i < |s| ==> '0' <= s[i] <= '9' || 'a' <= s[i] <= 'f' || 'A' <= s[i] <= 'F'
  {
    if |s| >= 2 {
      var rest := s[2..];
      FromHexAccepts(rest);
      assert forall i :: 0 <= i < |rest| ==> rest[i] == s[i + 2];
      assert forall i :: 2 <= i < |s| ==> s[i] == rest[i - 2];
    }
  }

  /** Encoding what was decoded gives the digits back in lower case. */
  lemma {:induction false} HexFromHex(s: string)
    requires FromHex(s).Some?
    ensures Hex(FromHex(s).value) == Lower(s)
  {
    if s != "" {
      HexFromHex(s[2..]);
      DigitPair(s[0], s[1]);
      assert Lower(s) == [LowerChar(s[0]), LowerChar(s[1])] + Lower(s[2..]);
      var data := FromHex(s).value;
      assert data[1..] == FromHex(s[2..]).value;
    }
  }

  lemma DigitPair(a: char, b: char)
    requires HexValue(a).Some? && HexValue(b).Some?
    ensures var n := HexValue(a).value * 16 + HexValue(b).value;
      n < 256 && HexDigit(n / 16) == LowerChar(a) && HexDigit(n % 16) == LowerChar(b)
  {
  }

  /** The ETag of a single upload: the hexadecimal MD5 of its bytes. */
  function ContentEtag(data: Bytes): string { Hex(Md5(data)) }

  function ContentEtags(pieces: seq<Bytes>): (r: seq<string>)
    ensures |r| == |pieces| && forall i :: 0 <= i < |r| ==> r[i] == ContentEtag(pieces[i])
  {
    seq(|pieces|, i requires 0 <= i < |pieces| => ContentEtag(pieces[i]))
  }

  /** The concatenated digests behind a list of hexadecimal hashes. */
  function JoinDigests(hashes: seq<string>): Option<Bytes> {
    if hashes == [] then Some([])
    else match (FromHex(hashes[0]), JoinDigests(hashes[1..]))
      case (Some(d), Some(rest)) => Some(d + rest)
      case _ => None
  }

  /** `construct_etag`; a hash that is not hexadecimal raises. */
  function ConstructEtag(hashes: seq<string>): Option<string> {
    match JoinDigests(hashes)
    case None => None
    case Some(digests) => Some(ContentEtag(digests) + "-" + Decimal(|hashes|))
  }

  function Digests(pieces: seq<Bytes>): (r: seq<Bytes>)
    ensures |r| == |pieces|
  {
    seq(|pieces|, i requires 0 <= i < |pieces| => Md5(pieces[i]))
  }

  lemma {:induction false} JoinDigestsOfContent(pieces: seq<Bytes>)
    ensures JoinDigests(ContentEtags(pieces)) == Some(Flatten(Digests(pieces)))
  {
    if pieces != [] {
      JoinDigestsOfContent(pieces[1..]);
      FromHexHex(Md5(pieces[0]));
      assert ContentEtags(pieces)[1..] == ContentEtags(pieces[1..]);
      assert Digests(pieces)[1..] == Digests(pieces[1..]);
    }
  }

  /** The ETag of an assembled object is the MD5 of its parts' binary digests, and the part count. */
  lemma ConstructedEtag(pieces: seq<Bytes>)
    ensures ConstructEtag(ContentEtags(pieces))
         == Some(Hex(Md5(Flatten(Digests(pieces)))) + "-" + Decimal(|pieces|))
  {
    JoinDigestsOfContent(pieces);
  }

  /** The ETags of parts can be combined exactly when each of them is hexadecimal. */
  lemma {:induction false} DigestsJoin(hashes: seq<string>)
    ensures ConstructEtag(hashes).Some? <==> forall i :: 0 <= i < |hashes| ==> FromHex(hashes[i]).Some?
  {
    if hashes != [] {
      DigestsJoin(hashes[1..]);
      assert forall i :: 1 <= i < |hashes| ==> hashes[i] == hashes[1..][i - 1];
    }
  }

  // ---------- ETags on the wire ----------

  /** `str.isspace`. */
  predicate IsSpace(c: char) {
    || c == ' ' || '\t' <= c <= '\r' || '\U{1C}' <= c <= '\U{1F}' || c == '\U{85}' || c == '\U{A0}'
    || c == '\U{1680}' || '\U{2000}' <= c <= '\U{200A}' || '\U{2028}' <= c <= '\U{2029}' || c == '\U{202F}'
    || c == '\U{205F}' || c == '\U{3000}'
  }

  function StripLeft(s: string, drop: char -> bool): (r: string)
    ensures |r| <= |s|
  {
    if s != "" && drop(s[0]) then StripLeft(s[1..], drop) else s
  }

  function StripRight(s: string, drop: char -> bool): (r: string)
    ensures |r| <= |s|
  {
    if s != "" && drop(s[|s| - 1]) then StripRight(s[..|s| - 1], drop) else s
  }

  function Strip(s: string, drop: char -> bool): string { StripRight(StripLeft(s, drop), drop) }

  function LowerChar(c: char): char { if 'A' <= c <= 'Z' then (c as int + 32) as char else c }

  function Lower(s: string): (r: string)
    ensures |r| == |s| && forall i :: 0 <= i < |s| ==> r[i] == LowerChar(s[i])
  {
    seq(|s|, i requires 0 <= i < |s| => LowerChar(s[i]))
  }

  /** `normalize_etag`, over ASCII. */
  function NormalizeEtag(value: string): string {
    Lower(Strip(Strip(value, c => IsSpace(c)), c => c == '"'))
  }

  lemma {:induction false} StripPadding(left: string, core: string, right: string, drop: char -> bool)
    requires forall i :: 0 <= i < |left| ==> drop(left[i])
    requires forall i :: 0 <= i < |right| ==> drop(right[i])
    requires core != "" && !drop(core[0]) && !drop(core[|core| - 1])
    ensures Strip(left + core + right, drop) == core
  {
    StripLeftPadding(left, core + right, drop);
    assert left + core + right == left + (core + right);
    StripRightPadding(core, right, drop);
  }

  lemma {:induction false} StripLeftPadding(left: string, core: string, drop: char -> bool)
    requires forall i :: 0 <= i < |left| ==> drop(left[i])
    requires core != "" && !drop(core[0])
    ensures StripLeft(left + core, drop) == core
  {
    if left == "" {
      assert left + core == core;
    } else {
      StripLeftPadding(left[1..], core, drop);
      assert (left + core)[1..] == left[1..] + core;
    }
  }

  lemma {:induction false} StripRightPadding(core: string, right: string, drop: char -> bool)
    requires forall i :: 0 <= i < |right| ==> drop(right[i])
    requires core != "" && !drop(core[|core| - 1])
    ensures StripRight(core + right, drop) == core
  {
    if right == "" {
      assert core + right == core;
    } else {
      StripRightPadding(core, right[..|right| - 1], drop);
      assert (core + right)[..|core + right| - 1] == core + right[..|right| - 1];
    }
  }

  /** White space by code point (the White_Space property and the information separators). */
  predicate Whitespace(c: char) {
    var n := c as int;
    9 <= n <= 13 || 28 <= n <= 32 || n in {0x85, 0xA0, 0x1680, 0x202F, 0x205F, 0x3000} || 0x2000 <= n <= 0x200A || 0x2028 <= n <= 0x2029
  }

  /** However a client echoes a stored hash (padded, quoted or bare, in either case), it compares
      equal to the hash after normalization. */
  lemma EchoedEtagMatches(hash: string, echo: string, quotes: string, left: string, right: string)
    requires hash != "" && |echo| == |hash| && Lower(echo) == hash
    requires forall c :: c in echo ==> HexValue(c).Some? || c == '-'
    requires quotes == "" || quotes == "\""
    requires forall c :: c in left + right ==> Whitespace(c)
    ensures NormalizeEtag(left + (quotes + echo + quotes) + right) == hash
  {
    var quoted := quotes + echo + quotes;
    assert quoted[0] == (if quotes == "" then echo[0] else '"');
    assert quoted[|quoted| - 1] == (if quotes == "" then echo[|echo| - 1] else '"');
    assert echo[0] in echo && echo[|echo| - 1] in echo;
    var space, quote := (c: char) => IsSpace(c), (c: char) => c == '"';
    assert forall i :: 0 <= i < |left| ==> left[i] in left + right;
    assert forall i :: 0 <= i < |right| ==> right[i] in left + right;
    StripPadding(left, quoted, right, space);
    StripPadding(quotes, echo, quotes, quote);
  }

  lemma {:induction false} LeftStripped(s: string, drop: char -> bool) returns (left: string)
    ensures s == left + StripLeft(s, drop) && (forall i :: 0 <= i < |left| ==> drop(left[i]))
    ensures StripLeft(s, drop) != "" ==> !drop(StripLeft(s, drop)[0])
  {
    left := "";
    if s != "" && drop(s[0]) {
      var rest := LeftStripped(s[1..], drop);
      left := [s[0]] + rest;
    }
  }

  lemma {:induction false} RightStripped(s: string, drop: char -> bool) returns (right: string)
    ensures s == StripRight(s, drop) + right && (forall i :: 0 <= i < |right| ==> drop(right[i]))
    ensures StripRight(s, drop) != "" ==> !drop(StripRight(s, drop)[|StripRight(s, drop)| - 1])
  {
    right := "";
    if s != "" && drop(s[|s| - 1]) {
      var rest := RightStripped(s[..|s| - 1], drop);
      right := rest + [s[|s| - 1]];
      assert s == s[..|s| - 1] + [s[|s| - 1]];
    }
  }

  lemma Stripping(s: string, drop: char -> bool) returns (left: string, right: string)
    ensures s == left + Strip(s, drop) + right
    ensures (forall i :: 0 <= i < |left| ==> drop(left[i])) && (forall i :: 0 <= i < |right| ==> drop(right[i]))
    ensures Strip(s, drop) != "" ==> !drop(Strip(s, drop)[0]) && !drop(Strip(s, drop)[|Strip(s, drop)| - 1])
  {
    left := LeftStripped(s, drop);
    var rest := StripLeft(s, drop);
    right := RightStripped(rest, drop);
    assert s == left + (Strip(s, drop) + right);
    if Strip(s, drop) != "" { assert Strip(s, drop)[0] == rest[0]; }
  }

  /** What compares equal to a hash after normalization is an echo of it: padding, quotes, and the hash in some
      capitalization. */
  lemma OnlyEchoesMatch(value: string) returns (left: string, open: string, core: string, close: string, right: string)
    ensures value == left + (open + core + close) + right && Lower(core) == NormalizeEtag(value)
    ensures (forall i :: 0 <= i < |left| ==> Whitespace(left[i])) && (forall i :: 0 <= i < |right| ==> Whitespace(right[i]))
    ensures (forall i :: 0 <= i < |open| ==> open[i] == '"') && (forall i :: 0 <= i < |close| ==> close[i] == '"')
    ensures core != "" ==> core[0] != '"' && core[|core| - 1] != '"'
  {
    hide Strip;
    left, right := Stripping(value, c => IsSpace(c));
    var quoted := Strip(value, c => IsSpace(c));
    open, close := Stripping(quoted, c => c == '"');
    core := Strip(quoted, c => c == '"');
  }
}
