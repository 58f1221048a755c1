/** Paths as segment sequences, the names the services build (app/s3/paths.py), and object keys as paths. */
module Paths {
  import opened Text

  type Token = string

  /** One path component. `Plain` is a component taken as it is (a mountpoint
      directory, a bucket, a key segment, an upload id, a staged file's token);
      the others are the names built from ids, numbers and tokens. */
  datatype Segment =
    | Plain(name: string)
    | ObjectBackup(token: Token)
    | CompletedDir(id: string, token: Token)
    | AbortedDir(id: string, token: Token)
    | PartFile(number: nat)
    | StagedPart(number: nat, token: Token)
    | PartBackup(number: nat, token: Token)

  /** A normalized absolute path; `[]` is the root. */
  type Path = seq<Segment>

  const BUCKETS_DIR: Path := [Plain("buckets")]
  const TMP_DIR: Path := [Plain("tmp")]

  function BucketPath(bucket: string): Path {
    BUCKETS_DIR + [Plain(bucket)]
  }

  function PlainSegments(names: seq<string>): Path {
    seq(|names|, i requires 0 <= i < |names| => Plain(names[i]))
  }

  function ObjectPath(bucket: string, key: string): Path {
    BucketPath(bucket) + PlainSegments(Split(key, '/'))
  }

  function UploadPath(id: string): Path { TMP_DIR + [Plain(id)] }
  function PartPath(id: string, number: nat): Path { UploadPath(id) + [PartFile(number)] }
  function StagedPartPath(id: string, number: nat, token: Token): Path { UploadPath(id) + [StagedPart(number, token)] }
  function PartBackupPath(id: string, number: nat, token: Token): Path { UploadPath(id) + [PartBackup(number, token)] }
  function AbortedPath(id: string, token: Token): Path { TMP_DIR + [AbortedDir(id, token)] }
  function CompletedPath(id: string, token: Token): Path { TMP_DIR + [CompletedDir(id, token)] }
  function ObjectBackupPath(token: Token): Path { TMP_DIR + [ObjectBackup(token)] }
  function StagedPath(token: Token): Path { TMP_DIR + [Plain(token)] }

  function Parent(p: Path): Path
    requires p != []
  {
    p[..|p| - 1]
  }

  // ---------- the names as strings ----------

  /** The dot-separated pieces of a component's name. */
  function Fields(s: Segment): (parts: seq<string>)
    ensures |parts| > 0
  {
    match s
    case Plain(name) => [name]
    case ObjectBackup(token) => ["", token, "object", "bak"]
    case CompletedDir(id, token) => ["", id, "completed", token]
    case AbortedDir(id, token) => ["", id, "aborted", token]
    case PartFile(n) => [Decimal(n), "part"]
    case StagedPart(n, token) => ["", Decimal(n), token, "part", "tmp"]
    case PartBackup(n, token) => ["", Decimal(n), token, "part", "bak"]
  }

  /** The component's name on disk, as the path builders format it. */
  function Render(s: Segment): string {
    match s
    case Plain(name) => name
    case ObjectBackup(token) => "." + token + ".object.bak"
    case CompletedDir(id, token) => "." + id + ".completed." + token
    case AbortedDir(id, token) => "." + id + ".aborted." + token
    case PartFile(n) => Decimal(n) + ".part"
    case StagedPart(n, token) => "." + Decimal(n) + "." + token + ".part.tmp"
    case PartBackup(n, token) => "." + Decimal(n) + "." + token + ".part.bak"
  }

  lemma Join4(a: string, b: string, c: string, d: string)
    ensures Join([a, b, c, d], '.') == a + ['.'] + (b + ['.'] + (c + ['.'] + d))
  {
    assert [c, d][1..] == [d];
    assert Join([c, d], '.') == c + ['.'] + d;
    assert [b, c, d][1..] == [c, d];
    assert Join([b, c, d], '.') == b + ['.'] + (c + ['.'] + d);
    assert [a, b, c, d][1..] == [b, c, d];
  }

  lemma Join5(a: string, b: string, c: string, d: string, e: string)
    ensures Join([a, b, c, d, e], '.') == a + ['.'] + (b + ['.'] + (c + ['.'] + (d + ['.'] + e)))
  {
    assert [a, b, c, d, e][1..] == [b, c, d, e];
    Join4(b, c, d, e);
  }

  lemma RenderObjectBackup(token: Token)
    ensures Render(ObjectBackup(token)) == Join(Fields(ObjectBackup(token)), '.')
  {
    Join4("", token, "object", "bak");
    assert "" + ['.'] + (token + ['.'] + ("object" + ['.'] + "bak")) == "." + token + ".object.bak";
  }

  lemma RenderUploadDir(id: string, kind: string, token: Token)
    ensures "." + id + ("." + kind + ".") + token == Join(["", id, kind, token], '.')
  {
    Join4("", id, kind, token);
    assert "" + ['.'] + (id + ['.'] + (kind + ['.'] + token)) == "." + id + ("." + kind + ".") + token;
  }

  lemma RenderPartName(n: string, token: Token, last: string)
    ensures "." + n + "." + token + (".part." + last) == Join(["", n, token, "part", last], '.')
  {
    Join5("", n, token, "part", last);
    assert "" + ['.'] + (n + ['.'] + (token + ['.'] + ("part" + ['.'] + last)))
        == "." + n + "." + token + (".part." + last);
  }

  lemma RenderIsJoinedFields(s: Segment)
    ensures Render(s) == Join(Fields(s), '.')
  {
    match s
    case Plain(name) =>
    case ObjectBackup(token) => RenderObjectBackup(token);
    case CompletedDir(id, token) =>
      RenderUploadDir(id, "completed", token);
      assert "." + "completed" + "." == ".completed.";
    case AbortedDir(id, token) =>
      RenderUploadDir(id, "aborted", token);
      assert "." + "aborted" + "." == ".aborted.";
    case PartFile(n) =>
      assert [Decimal(n), "part"][1..] == ["part"];
      assert Decimal(n) + ['.'] + "part" == Decimal(n) + ".part";
    case StagedPart(n, token) =>
      RenderPartName(Decimal(n), token, "tmp");
      assert ".part." + "tmp" == ".part.tmp";
    case PartBackup(n, token) =>
      RenderPartName(Decimal(n), token, "bak");
      assert ".part." + "bak" == ".part.bak";
  }

  /** Upload ids and tokens are hexadecimal UUIDs, so they carry no dot. */
  ghost predicate DotFree(s: Segment) {
    match s
    case Plain(name) => '.' !in name
    case PartFile(_) => true
    case ObjectBackup(token) => '.' !in token
    case CompletedDir(id, token) => '.' !in id && '.' !in token
    case AbortedDir(id, token) => '.' !in id && '.' !in token
    case StagedPart(_, token) => '.' !in token
    case PartBackup(_, token) => '.' !in token
  }

  lemma FieldsFree(s: Segment)
    requires DotFree(s)
    ensures Free(Fields(s), '.')
  {
  }

  /** No two components below the tmp directory share a name on disk: keeping
      components structured, as the rest of the model does, loses nothing. */
  lemma RenderInjective(s: Segment, t: Segment)
    requires DotFree(s) && DotFree(t)
    requires Render(s) == Render(t)
    ensures s == t
  {
    RenderIsJoinedFields(s);
    RenderIsJoinedFields(t);
    FieldsFree(s);
    FieldsFree(t);
    SplitJoin(Fields(s), '.');
    SplitJoin(Fields(t), '.');
    FieldsInjective(s, t);
  }

  lemma FieldsInjective(s: Segment, t: Segment)
    requires DotFree(s) && DotFree(t)
    requires Fields(s) == Fields(t)
    ensures s == t
  {
    var f, g := Fields(s), Fields(t);
    assert |f| == |g|;
    assert |"object"| == 6 && |"completed"| == 9 && |"aborted"| == 7 && "tmp"[0] == 't' && "bak"[0] == 'b';
    if |f| == 2 {
      assert f[0] == g[0];
      DecimalInjective(s.number, t.number);
    } else if |f| == 4 {
      assert f[1] == g[1] && f[2] == g[2] && f[3] == g[3];
    } else if |f| == 5 {
      assert f[1] == g[1] && f[2] == g[2] && f[4] == g[4];
      DecimalInjective(s.number, t.number);
    } else {
      assert f[0] == g[0];
    }
  }

  // ---------- object keys ----------

  const OBJECT_KEY_MAX_BYTES := 1024

  /** Bytes of the UTF-8 encoding of a character. */
  function Utf8Size(c: char): nat {
    if c < '\U{80}' then 1 else if c < '\U{800}' then 2 else if c < '\U{10000}' then 3 else 4
  }

  function Utf8Length(s: string): nat {
    if s == [] then 0 else Utf8Size(s[0]) + Utf8Length(s[1..])
  }

  /** Key segments the filesystem mapping cannot carry. */
  predicate ForbiddenSegment(s: string) { s == "" || s == "." || s == ".." }

  /** The check of `validate_object_key`. A Dafny character is never a surrogate,
      so the encoding itself cannot fail. */
  predicate ValidObjectKey(key: string) {
    && Utf8Length(key) <= OBJECT_KEY_MAX_BYTES
    && '\0' !in key
    && !(exists part :: part in Split(key, '/') && ForbiddenSegment(part))
  }

  /** `resolve_object_path`: the guards compare the joined path with the bucket's. */
  function ResolveObjectPath(bucket: string, key: string): Option<(Path, Path)> {
    var bucketPath, objectPath := BucketPath(bucket), ObjectPath(bucket, key);
    if objectPath == bucketPath || !(bucketPath <= objectPath) then None else Some((bucketPath, objectPath))
  }

  /** Distinct objects have distinct paths: the pair can be read back off the path. */
  lemma ObjectPathInjective(b1: string, k1: string, b2: string, k2: string)
    requires ObjectPath(b1, k1) == ObjectPath(b2, k2)
    ensures b1 == b2 && k1 == k2
  {
    var p, q := ObjectPath(b1, k1), ObjectPath(b2, k2);
    assert p[1] == Plain(b1) && q[1] == Plain(b2);
    var s1, s2 := Split(k1, '/'), Split(k2, '/');
    assert |p| == |s1| + 2 && |q| == |s2| + 2;
    forall i | 0 <= i < |s1| ensures s1[i] == s2[i] {
      assert p[i + 2] == Plain(s1[i]) && q[i + 2] == Plain(s2[i]);
    }
    assert s1 == s2;
    JoinSplit(k1, '/');
    JoinSplit(k2, '/');
  }

  /** Every valid key resolves, to a path strictly inside its bucket all of whose
      components below the bucket are ordinary names (not empty, `.` or `..`, and
      free of the separator), and the key is those names joined by slashes. */
  lemma ValidKeyStaysInside(bucket: string, key: string)
    requires ValidObjectKey(key)
    ensures ResolveObjectPath(bucket, key) == Some((BucketPath(bucket), ObjectPath(bucket, key)))
    ensures BucketPath(bucket) < ObjectPath(bucket, key)
    ensures forall i :: 2 <= i < |ObjectPath(bucket, key)| ==>
      var s := ObjectPath(bucket, key)[i];
      s.Plain? && !ForbiddenSegment(s.name) && '/' !in s.name
    ensures key != "" && key[0] != '/' && key[|key| - 1] != '/'
  {
    var parts := Split(key, '/');
    JoinSplit(key, '/');
    var p := ObjectPath(bucket, key);
    assert |p| == 2 + |parts|;
    forall i | 2 <= i < |p| ensures p[i].Plain? && !ForbiddenSegment(p[i].name) && '/' !in p[i].name {
      assert p[i] == Plain(parts[i - 2]) && parts[i - 2] in parts;
    }
    assert parts[0] in parts && parts[|parts| - 1] in parts;
    SlashAtEnds(key);
  }

  lemma SlashAtEnds(key: string)
    ensures key == "" || key[0] == '/' ==> Split(key, '/')[0] == ""
    ensures key != "" && key[|key| - 1] == '/' ==> Split(key, '/')[|Split(key, '/')| - 1] == ""
  {
  }

  lemma {:induction false} SplitEnd(s: string, sep: char)
    ensures Split(s + [sep], sep) == Split(s, sep) + [""]
  {
    if s == [] {
      assert Split([sep], sep) == [""] + Split([], sep);
    } else {
      SplitEnd(s[1..], sep);
      assert (s + [sep])[1..] == s[1..] + [sep];
    }
  }

  // ---------- exactly the valid keys ----------

  /** A byte that is not the first of a character's encoding carries six bits. */
  function Trail(n: nat): int { 0x80 + n % 64 }

  /** The bytes of a character's UTF-8 encoding (section 3 of RFC 3629), as numbers. */
  function Utf8(c: char): (r: seq<int>)
    ensures |r| == Utf8Size(c)
  {
    var n := c as int;
    if n < 0x80 then [n]
    else if n < 0x800 then [0xC0 + n / 64, Trail(n)]
    else if n < 0x10000 then [0xE0 + n / 64 / 64, Trail(n / 64), Trail(n)]
    else [0xF0 + n / 64 / 64 / 64, Trail(n / 64 / 64), Trail(n / 64), Trail(n)]
  }

  function Carry(high: int, trail: int): int { high * 64 + trail - 0x80 }

  function FromUtf8(b: seq<int>): int {
    if |b| == 1 then b[0]
    else if |b| == 2 then Carry(b[0] - 0xC0, b[1])
    else if |b| == 3 then Carry(Carry(b[0] - 0xE0, b[1]), b[2])
    else if |b| == 4 then Carry(Carry(Carry(b[0] - 0xF0, b[1]), b[2]), b[3])
    else 0
  }

  /** The first byte tells how many follow. */
  predicate Leads(b: seq<int>) {
    match |b|
    case 1 => 0 <= b[0] < 0x80
    case 2 => 0xC0 <= b[0] < 0xE0
    case 3 => 0xE0 <= b[0] < 0xF0
    case 4 => 0xF0 <= b[0] < 0xF8
    case _ => false
  }

  lemma Carried(n: nat)
    ensures Carry(n / 64, Trail(n)) == n && 0x80 <= Trail(n) < 0xC0
  {
  }

  /** The encoding is one: it can be undone, and shows where characters begin. */
  lemma Utf8ReadsBack(c: char)
    ensures FromUtf8(Utf8(c)) == c as int && Leads(Utf8(c))
    ensures forall i :: 1 <= i < |Utf8(c)| ==> 0x80 <= Utf8(c)[i] < 0xC0
  {
    hide Carry, Trail;
    var n := c as int;
    Carried(n);
    Carried(n / 64);
    Carried(n / 64 / 64);
  }

  function Utf8Bytes(s: string): seq<int> { if s == "" then [] else Utf8(s[0]) + Utf8Bytes(s[1..]) }

  lemma {:induction false} Utf8LengthIsBytes(s: string)
    ensures |Utf8Bytes(s)| == Utf8Length(s)
  {
    if s != "" { Utf8LengthIsBytes(s[1..]); }
  }

  /** A key is valid exactly when its UTF-8 encoding has at most 1024 bytes, it holds no NUL, and it is one or more ordinary
      names joined by slashes. */
  lemma ValidKeysAre(key: string)
    ensures ValidObjectKey(key) <==>
      && |Utf8Bytes(key)| <= 1024 && '\0' !in key
      && exists names :: |names| > 0 && Free(names, '/') && key == Join(names, '/')
           && forall i :: 0 <= i < |names| ==> names[i] != "" && names[i] != "." && names[i] != ".."
  {
    Utf8LengthIsBytes(key);
    JoinSplit(key, '/');
    var parts := Split(key, '/');
    forall names | |names| > 0 && Free(names, '/') && key == Join(names, '/') ensures names == parts {
      SplitJoin(names, '/');
    }
    if !(exists part :: part in parts && ForbiddenSegment(part)) {
      forall i | 0 <= i < |parts| ensures parts[i] != "" && parts[i] != "." && parts[i] != ".." { assert parts[i] in parts; }
    }
  }
}
