/** The filesystem below the mountpoint and the primitives of app/repositories/io.py the services use. */
module FileSystems {
  import opened Text
  import opened Paths
  import opened Etags

  datatype FileSystem = FileSystem(files: map<Path, Bytes>, dirs: set<Path>)

  function At(fs: FileSystem, p: Path): Option<Bytes> {
    if p in fs.files then Some(fs.files[p]) else None
  }

  predicate IsFile(fs: FileSystem, p: Path) { p in fs.files }
  predicate IsDir(fs: FileSystem, p: Path) { p in fs.dirs }

  /** Every entry sits in a directory, and nothing is both a file and a directory. */
  ghost predicate WellFormed(fs: FileSystem) {
    && [] in fs.dirs
    && fs.files.Keys !! fs.dirs
    && (forall p :: p in fs.files && p != [] ==> Parent(p) in fs.dirs)
    && (forall p :: p in fs.dirs && p != [] ==> Parent(p) in fs.dirs)
  }

  datatype Operation =
    | Write(path: Path, data: Bytes)
    | Copy(source: Path, destination: Path)
    | Delete(path: Path)
    | Move(source: Path, destination: Path)
    | MoveTree(source: Path, destination: Path)
    | MakeTree(path: Path)
    | RemoveTree(path: Path)

  predicate Below(top: Path, p: Path) { top < p }

  /** A file can be put at `p`: its parent is a directory and `p` itself is not. */
  predicate CanPlace(fs: FileSystem, p: Path) {
    p != [] && p !in fs.dirs && Parent(p) in fs.dirs
  }

  /** Whether the operating system carries the operation out. One that raises has no effect, except that a failing
      tree removal may already have unlinked files. */
  predicate Possible(fs: FileSystem, op: Operation) {
    match op
    case Write(p, _) => CanPlace(fs, p)
    case Copy(s, d) => s in fs.files && CanPlace(fs, d)
    case Delete(p) => p !in fs.dirs
    case Move(s, d) => s in fs.files && CanPlace(fs, d)
    case MoveTree(s, d) =>
      && s in fs.dirs && d != [] && !(s <= d) && d !in fs.files && Parent(d) in fs.dirs
      && (forall q :: q in fs.files ==> !Below(d, q)) && (forall q :: q in fs.dirs ==> !Below(d, q))
    case MakeTree(p) => forall q :: q in fs.files ==> !(q <= p)
    case RemoveTree(p) => p != [] && forall q :: q in fs.dirs ==> !Below(p, q)
  }

  function Relocate(p: Path, s: Path, d: Path): Path {
    if s <= p then d + p[|s|..] else p
  }

  /** Where the entry found at `q` after moving `s` to `d` was before. */
  function Origin(q: Path, s: Path, d: Path): Path {
    if d <= q then s + q[|d|..] else q
  }

  function Prefixes(p: Path): (r: set<Path>)
    ensures forall q :: q in r <==> q <= p
  {
    var r := set i | 0 <= i <= |p| :: p[..i];
    assert forall q :: q <= p ==> q == p[..|q|];
    r
  }

  function Perform(fs: FileSystem, op: Operation): FileSystem {
    match op
    case Write(p, data) => fs.(files := fs.files[p := data])
    case Copy(s, d) => if s in fs.files then fs.(files := fs.files[d := fs.files[s]]) else fs
    case Delete(p) => fs.(files := fs.files - {p})
    case Move(s, d) => if s in fs.files then fs.(files := (fs.files - {s})[d := fs.files[s]]) else fs
    case MoveTree(s, d) =>
      var keys := set p | p in fs.files :: Relocate(p, s, d);
      FileSystem(
        map q | q in keys && Origin(q, s, d) in fs.files :: fs.files[Origin(q, s, d)],
        set p | p in fs.dirs :: Relocate(p, s, d))
    case MakeTree(p) => fs.(dirs := fs.dirs + Prefixes(p))
    case RemoveTree(p) =>
      if p in fs.dirs then FileSystem(Surviving(fs, p, fs.files.Keys), fs.dirs - {p}) else fs
  }

  function Surviving(fs: FileSystem, top: Path, gone: set<Path>): map<Path, Bytes> {
    map q | q in fs.files && !(q in gone && Below(top, q)) :: fs.files[q]
  }

  /** A tree removal that raised after unlinking the files in `gone`. */
  function Prune(fs: FileSystem, top: Path, gone: set<Path>): FileSystem {
    if top in fs.dirs then fs.(files := Surviving(fs, top, gone)) else fs
  }

  // ---------- what the operations do, path by path ----------

  lemma RelocateOrigin(s: Path, d: Path, p: Path, q: Path)
    ensures d <= q ==> Relocate(Origin(q, s, d), s, d) == q
    ensures Relocate(p, s, d) == q && s <= p ==> d <= q && Origin(q, s, d) == p
  {
  }

  lemma PrefixCases(d: Path, p: Path)
    ensures d <= p ==> d == p || d < p
  {
  }

  /** An entry of the moved tree comes from exactly one place. */
  lemma RelocatedFrom(fs: FileSystem, s: Path, d: Path, p: Path, q: Path)
    requires WellFormed(fs) && Possible(fs, MoveTree(s, d))
    requires (p in fs.files || (p in fs.dirs && p != d)) && Relocate(p, s, d) == q
    ensures if d <= q then p == Origin(q, s, d) && s <= p else p == q && !(s <= q)
  {
    RelocateOrigin(s, d, p, q);
    if !(s <= p) {
      assert !Below(d, p);
      PrefixCases(d, p);
    }
  }

  lemma MoveTreeAt(fs: FileSystem, s: Path, d: Path, q: Path)
    requires WellFormed(fs) && Possible(fs, MoveTree(s, d))
    ensures At(Perform(fs, MoveTree(s, d)), q)
         == (if d <= q then At(fs, Origin(q, s, d)) else if s <= q then None else At(fs, q))
    ensures q in Perform(fs, MoveTree(s, d)).dirs
       <==> (if d <= q then Origin(q, s, d) in fs.dirs else !(s <= q) && q in fs.dirs)
  {
    RelocateOrigin(s, d, q, q);
    MovedFile(fs, s, d, q);
    MovedDir(fs, s, d, q);
  }

  lemma MovedFile(fs: FileSystem, s: Path, d: Path, q: Path)
    requires WellFormed(fs) && Possible(fs, MoveTree(s, d))
    ensures At(Perform(fs, MoveTree(s, d)), q)
         == (if d <= q then At(fs, Origin(q, s, d)) else if s <= q then None else At(fs, q))
  {
    RelocateOrigin(s, d, q, q);
    var keys := set p | p in fs.files :: Relocate(p, s, d);
    var o := Origin(q, s, d);
    if q in keys {
      var p :| p in fs.files && Relocate(p, s, d) == q;
      RelocatedFrom(fs, s, d, p, q);
    }
    if o in fs.files && (d <= q || !(s <= q)) {
      assert Relocate(o, s, d) == q;
      assert q in keys;
    }
  }

  lemma MovedDir(fs: FileSystem, s: Path, d: Path, q: Path)
    requires WellFormed(fs) && Possible(fs, MoveTree(s, d))
    ensures q in Perform(fs, MoveTree(s, d)).dirs
       <==> (if d <= q then Origin(q, s, d) in fs.dirs else !(s <= q) && q in fs.dirs)
  {
    RelocateOrigin(s, d, q, q);
    var o := Origin(q, s, d);
    if q in Perform(fs, MoveTree(s, d)).dirs {
      var p :| p in fs.dirs && Relocate(p, s, d) == q;
      if p == d {
        assert !(s <= d) ==> q == d && o == s;
      } else {
        RelocatedFrom(fs, s, d, p, q);
      }
    }
    if o in fs.dirs && (d <= q || !(s <= q)) {
      assert Relocate(o, s, d) == q;
    }
  }

  /** Paths an operation may change. */
  ghost predicate Touches(fs: FileSystem, op: Operation, p: Path) {
    match op
    case Write(q, _) => p == q
    case Copy(_, d) => p == d
    case Delete(q) => p == q
    case Move(s, d) => p == s || p == d
    case MoveTree(s, d) => s <= p || d <= p
    case MakeTree(q) => p <= q && p !in fs.dirs
    case RemoveTree(q) => q <= p
  }

  ghost predicate SameAt(fs: FileSystem, fs': FileSystem, p: Path) {
    At(fs, p) == At(fs', p) && (p in fs.dirs <==> p in fs'.dirs)
  }

  lemma UntouchedStays(fs: FileSystem, op: Operation, p: Path)
    requires WellFormed(fs) && Possible(fs, op) && !Touches(fs, op, p)
    ensures SameAt(fs, Perform(fs, op), p)
  {
  }

  lemma UnprunedStays(fs: FileSystem, top: Path, gone: set<Path>, p: Path)
    requires !(top <= p)
    ensures SameAt(fs, Prune(fs, top, gone), p)
  {
  }

  lemma PrefixOfEntry(fs: FileSystem, p: Path, i: nat)
    requires WellFormed(fs) && (p in fs.files || p in fs.dirs) && i < |p|
    ensures p[..i] in fs.dirs
  {
    assert Parent(p) in fs.dirs;
    if i < |p| - 1 {
      PrefixOfEntry(fs, Parent(p), i);
      assert Parent(p)[..i] == p[..i];
    }
  }

  lemma MoveTreeKeepsWellFormed(fs: FileSystem, s: Path, d: Path)
    requires WellFormed(fs) && Possible(fs, MoveTree(s, d))
    ensures WellFormed(Perform(fs, MoveTree(s, d)))
  {
    var fs' := Perform(fs, MoveTree(s, d));
    MoveTreeAt(fs, s, d, []);
    assert [] in fs'.dirs by {
      assert s != [] by { assert [] <= d; }
    }
    forall q | q in fs'.files ensures q !in fs'.dirs && (q != [] ==> Parent(q) in fs'.dirs) {
      MoveTreeAt(fs, s, d, q);
      assert At(fs', q).Some?;
      if q != [] { MovedParent(fs, s, d, q); }
    }
    forall q | q in fs'.dirs && q != [] ensures Parent(q) in fs'.dirs {
      MoveTreeAt(fs, s, d, q);
      MovedParent(fs, s, d, q);
    }
  }

  lemma OriginOfParent(s: Path, d: Path, q: Path)
    requires d < q
    ensures d <= Parent(q) && Origin(q, s, d) != [] && Origin(Parent(q), s, d) == Parent(Origin(q, s, d))
  {
    assert |d| < |q|;
    assert s + Parent(q)[|d|..] == Parent(s + q[|d|..]);
  }

  lemma ArrivedParent(fs: FileSystem, s: Path, d: Path, q: Path)
    requires WellFormed(fs) && Possible(fs, MoveTree(s, d)) && d < q
    requires var o := Origin(q, s, d); o in fs.files || o in fs.dirs
    ensures Parent(q) in Perform(fs, MoveTree(s, d)).dirs
  {
    OriginOfParent(s, d, q);
    MoveTreeAt(fs, s, d, Parent(q));
  }

  lemma MovedParent(fs: FileSystem, s: Path, d: Path, q: Path)
    requires WellFormed(fs) && Possible(fs, MoveTree(s, d)) && q != []
    requires var o := Origin(q, s, d); (o in fs.files || o in fs.dirs) && (d <= q || !(s <= q))
    ensures Parent(q) in Perform(fs, MoveTree(s, d)).dirs
  {
    if d < q {
      ArrivedParent(fs, s, d, q);
    } else if q == d {
      MoveTreeAt(fs, s, d, Parent(q));
      assert !(d <= Parent(q));
      assert !(s <= Parent(q)) by { assert Parent(q) <= d; }
    } else {
      MoveTreeAt(fs, s, d, Parent(q));
      assert !(d <= Parent(q)) by { assert Parent(q) <= q; }
      assert !(s <= Parent(q)) by { assert Parent(q) <= q; }
    }
  }

  lemma OperationKeepsWellFormed(fs: FileSystem, op: Operation)
    requires WellFormed(fs) && Possible(fs, op)
    ensures WellFormed(Perform(fs, op))
  {
    var fs' := Perform(fs, op);
    match op
    case Write(_, _) =>
    case Copy(_, _) =>
    case Delete(_) =>
    case Move(s, d) =>
    case MoveTree(s, d) => MoveTreeKeepsWellFormed(fs, s, d);
    case MakeTree(p) =>
      forall q | q in fs'.dirs && q != [] ensures Parent(q) in fs'.dirs {
        if q <= p { assert Parent(q) <= p; }
      }
    case RemoveTree(p) =>
      if p in fs.dirs {
        forall q | q in fs'.files && q != [] ensures Parent(q) in fs'.dirs {
          if Parent(q) == p { assert Below(p, q); }
        }
        forall q | q in fs'.dirs && q != [] ensures Parent(q) in fs'.dirs {
          if Parent(q) == p { assert Below(p, q); }
        }
      }
  }
}
