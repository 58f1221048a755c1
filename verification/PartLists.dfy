/** Validation of the parts a client lists when it completes an upload
    (`load_multipart_parts` in app/s3/multipart.py). */
module PartLists {
  import opened Text
  import opened Paths
  import opened FileSystems
  import opened Rows

  const PART_NUMBER_MAX := 10000
  const PART_SIZE_MIN_BYTES := 5 * 1024 * 1024

  datatype ListedPart = ListedPart(number: int, etag: string)

  datatype PartFault = PartOrderInvalid | PartNumberInvalid | PartInvalid | PartTooSmall

  datatype PartsResult =
    | Loaded(paths: seq<Path>, etags: seq<string>)
    | Faulty(fault: PartFault)

  function Previous(parts: seq<ListedPart>, i: nat): int
    requires i < |parts|
  {
    if i == 0 then 0 else parts[i - 1].number
  }

  /** What is wrong with the part at `i`, in the order the checks are made. */
  function FaultAt(t: Tables, fs: FileSystem, upload: string, parts: seq<ListedPart>, i: nat): Option<PartFault>
    requires i < |parts| && Previous(parts, i) >= 0
  {
    var n := parts[i].number;
    if n <= Previous(parts, i) then Some(PartOrderInvalid)
    else if n > PART_NUMBER_MAX then Some(PartNumberInvalid)
    else if PartId(upload, n) !in t.parts then Some(PartInvalid)
    else if !IsFile(fs, PartPath(upload, n)) then Some(PartInvalid)
    else if i < |parts| - 1 && t.parts[PartId(upload, n)].size < PART_SIZE_MIN_BYTES then Some(PartTooSmall)
    else None
  }

  /** The part at `i` follows in order, is known, is on disk, and is large enough unless it is the last. */
  ghost predicate GoodAt(t: Tables, fs: FileSystem, upload: string, parts: seq<ListedPart>, i: nat)
    requires i < |parts|
  {
    && 0 <= Previous(parts, i) < parts[i].number <= PART_NUMBER_MAX
    && PartId(upload, parts[i].number) in t.parts
    && IsFile(fs, PartPath(upload, parts[i].number))
    && (i < |parts| - 1 ==> t.parts[PartId(upload, parts[i].number)].size >= PART_SIZE_MIN_BYTES)
  }

  ghost predicate GoodUpTo(t: Tables, fs: FileSystem, upload: string, parts: seq<ListedPart>, n: nat)
    requires n <= |parts|
  {
    forall i :: 0 <= i < n ==> GoodAt(t, fs, upload, parts, i)
  }

  /** The row a listed part names; a number below 1 is refused before it is looked up. */
  function ListedId(upload: string, part: ListedPart): PartId {
    PartId(upload, if part.number >= 0 then part.number else 0)
  }

  function StoredRow(t: Tables, upload: string, part: ListedPart): Row {
    match PartRow(t, ListedId(upload, part))
    case Some(row) => row
    case None => Row(0, "")
  }

  function PathsUpTo(upload: string, parts: seq<ListedPart>, n: nat): (r: seq<Path>)
    requires n <= |parts|
    ensures |r| == n
  {
    seq(n, i requires 0 <= i < n => PartPath(upload, ListedId(upload, parts[i]).number))
  }

  function EtagsUpTo(t: Tables, upload: string, parts: seq<ListedPart>, n: nat): (r: seq<string>)
    requires n <= |parts|
    ensures |r| == n
  {
    seq(n, i requires 0 <= i < n => StoredRow(t, upload, parts[i]).etag)
  }

  /** The validation as a value: the first fault, or the paths and stored ETags in client order. */
  function LoadPartsFrom(t: Tables, fs: FileSystem, upload: string, parts: seq<ListedPart>, n: nat): PartsResult
    requires n <= |parts| && GoodUpTo(t, fs, upload, parts, n)
    decreases |parts| - n
  {
    assert n > 0 ==> GoodAt(t, fs, upload, parts, n - 1);
    assert forall i :: 0 <= i < n ==> GoodAt(t, fs, upload, parts, i);
    if n == |parts| then Loaded(PathsUpTo(upload, parts, n), EtagsUpTo(t, upload, parts, n))
    else match FaultAt(t, fs, upload, parts, n)
      case Some(fault) => Faulty(fault)
      case None => LoadPartsFrom(t, fs, upload, parts, n + 1)
  }

  function LoadParts(t: Tables, fs: FileSystem, upload: string, parts: seq<ListedPart>): PartsResult {
    LoadPartsFrom(t, fs, upload, parts, 0)
  }

  /** The loop of `load_multipart_parts`. */
  method LoadMultipartParts(t: Tables, fs: FileSystem, upload: string, parts: seq<ListedPart>) returns (r: PartsResult)
    ensures r == LoadParts(t, fs, upload, parts)
  {
    var previous := 0;
    var paths, etags := [], [];
    for index := 0 to |parts|
      invariant GoodUpTo(t, fs, upload, parts, index)
      invariant previous >= 0 && (index < |parts| ==> previous == Previous(parts, index))
      invariant paths == PathsUpTo(upload, parts, index) && etags == EtagsUpTo(t, upload, parts, index)
      invariant LoadParts(t, fs, upload, parts) == LoadPartsFrom(t, fs, upload, parts, index)
    {
      var part := parts[index];
      if part.number <= previous {
        return Faulty(PartOrderInvalid);
      }
      if part.number > PART_NUMBER_MAX {
        return Faulty(PartNumberInvalid);
      }
      previous := part.number;
      var id := PartId(upload, part.number);
      if id !in t.parts {
        return Faulty(PartInvalid);
      }
      var path := PartPath(upload, part.number);
      if !IsFile(fs, path) {
        return Faulty(PartInvalid);
      }
      if index < |parts| - 1 && t.parts[id].size < PART_SIZE_MIN_BYTES {
        return Faulty(PartTooSmall);
      }
      paths := paths + [path];
      etags := etags + [t.parts[id].etag];
    }
    return Loaded(paths, etags);
  }

  lemma {:induction false} ScanFrom(t: Tables, fs: FileSystem, upload: string, parts: seq<ListedPart>, n: nat) returns (i: nat)
    requires n <= |parts| && GoodUpTo(t, fs, upload, parts, n)
    ensures n <= i <= |parts| && GoodUpTo(t, fs, upload, parts, i)
    ensures LoadPartsFrom(t, fs, upload, parts, n).Loaded? <==> i == |parts|
    ensures i == |parts| ==>
      LoadPartsFrom(t, fs, upload, parts, n) == Loaded(PathsUpTo(upload, parts, i), EtagsUpTo(t, upload, parts, i))
    ensures i < |parts| ==> Previous(parts, i) >= 0 && !GoodAt(t, fs, upload, parts, i)
    ensures i < |parts| ==> FaultAt(t, fs, upload, parts, i) == Some(LoadPartsFrom(t, fs, upload, parts, n).fault)
    decreases |parts| - n
  {
    assert n > 0 ==> GoodAt(t, fs, upload, parts, n - 1);
    if n < |parts| && FaultAt(t, fs, upload, parts, n).None? {
      i := ScanFrom(t, fs, upload, parts, n + 1);
    } else {
      i := n;
    }
  }

  /** The validation succeeds exactly when every listed part is good, and then returns the part paths
      and stored ETags in client order; otherwise it names the fault of the first part that is not. */
  lemma LoadPartsCharacterized(t: Tables, fs: FileSystem, upload: string, parts: seq<ListedPart>) returns (i: nat)
    ensures i <= |parts| && GoodUpTo(t, fs, upload, parts, i)
    ensures LoadParts(t, fs, upload, parts).Loaded? <==> GoodUpTo(t, fs, upload, parts, |parts|)
    ensures i == |parts| ==>
      LoadParts(t, fs, upload, parts) == Loaded(PathsUpTo(upload, parts, i), EtagsUpTo(t, upload, parts, i))
    ensures i < |parts| ==> Previous(parts, i) >= 0 && !GoodAt(t, fs, upload, parts, i)
    ensures i < |parts| ==> FaultAt(t, fs, upload, parts, i) == Some(LoadParts(t, fs, upload, parts).fault)
  {
    i := ScanFrom(t, fs, upload, parts, 0);
  }

  /** The list is refused for its first part that is not good: out of order before anything else is looked at, then out of
      range, then unknown or missing on disk, and too small only if it is all else and not the last. */
  lemma FirstFaultDecides(t: Tables, fs: FileSystem, upload: string, parts: seq<ListedPart>) returns (i: nat)
    requires LoadParts(t, fs, upload, parts).Faulty?
    ensures i < |parts| && (forall k :: 0 <= k < i ==> GoodAt(t, fs, upload, parts, k)) && !GoodAt(t, fs, upload, parts, i)
    ensures var n, before := parts[i].number, if i == 0 then 0 else parts[i - 1].number;
      match LoadParts(t, fs, upload, parts).fault
      case PartOrderInvalid => n <= before
      case PartNumberInvalid => before < n && 10000 < n
      case PartInvalid => 0 <= before < n <= 10000 && (PartRow(t, PartId(upload, n)).None? || At(fs, PartPath(upload, n)).None?)
      case PartTooSmall =>
        && 0 <= before < n <= 10000 && At(fs, PartPath(upload, n)).Some? && i < |parts| - 1
        && PartRow(t, PartId(upload, n)).Some? && PartRow(t, PartId(upload, n)).value.size < 5 * 1024 * 1024
  {
    i := LoadPartsCharacterized(t, fs, upload, parts);
  }

  /** The ETags the client listed. */
  function ListedEtags(parts: seq<ListedPart>): (r: seq<string>)
    ensures |r| == |parts| && forall i :: 0 <= i < |r| ==> r[i] == parts[i].etag
  {
    seq(|parts|, i requires 0 <= i < |parts| => parts[i].etag)
  }

  /** Sum of the recorded sizes of the first `n` listed parts. */
  function RecordedSize(t: Tables, upload: string, parts: seq<ListedPart>, n: nat): nat
    requires n <= |parts|
  {
    if n == 0 then 0 else RecordedSize(t, upload, parts, n - 1) + StoredRow(t, upload, parts[n - 1]).size
  }

  lemma {:induction false} GoodPartsBounds(t: Tables, fs: FileSystem, upload: string, parts: seq<ListedPart>, n: nat)
    requires n <= |parts| && GoodUpTo(t, fs, upload, parts, n)
    ensures n > 0 ==> parts[n - 1].number >= n
    ensures RecordedSize(t, upload, parts, n) >= (if n == |parts| then n - 1 else n) * PART_SIZE_MIN_BYTES
  {
    if n > 0 {
      GoodPartsBounds(t, fs, upload, parts, n - 1);
      assert GoodAt(t, fs, upload, parts, n - 1);
    }
  }

  lemma {:induction false} Ascending(t: Tables, fs: FileSystem, upload: string, parts: seq<ListedPart>, i: nat, j: nat)
    requires GoodUpTo(t, fs, upload, parts, |parts|) && i < j < |parts|
    ensures 1 <= parts[i].number < parts[j].number <= PART_NUMBER_MAX
  {
    assert GoodAt(t, fs, upload, parts, j);
    if i < j - 1 {
      Ascending(t, fs, upload, parts, i, j - 1);
    } else {
      assert GoodAt(t, fs, upload, parts, i);
    }
  }

  /** An accepted list has strictly ascending numbers in 1..10000, so at most 10000 parts, and its
      recorded sizes add up to at least the minimum part size for all parts but one. */
  lemma AcceptedListBounds(t: Tables, fs: FileSystem, upload: string, parts: seq<ListedPart>)
    requires LoadParts(t, fs, upload, parts).Loaded?
    ensures GoodUpTo(t, fs, upload, parts, |parts|)
    ensures forall i, j :: 0 <= i < j < |parts| ==> 1 <= parts[i].number < parts[j].number <= PART_NUMBER_MAX
    ensures |parts| <= PART_NUMBER_MAX
    ensures RecordedSize(t, upload, parts, |parts|) >= (|parts| - 1) * PART_SIZE_MIN_BYTES
  {
    var n := LoadPartsCharacterized(t, fs, upload, parts);
    GoodPartsBounds(t, fs, upload, parts, |parts|);
    if |parts| > 0 {
      assert GoodAt(t, fs, upload, parts, |parts| - 1);
    }
    forall i, j | 0 <= i < j < |parts| ensures 1 <= parts[i].number < parts[j].number <= PART_NUMBER_MAX {
      Ascending(t, fs, upload, parts, i, j);
    }
  }
}
