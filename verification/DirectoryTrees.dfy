/** `_makedirs_sync` (app/repositories/io.py): creating a directory with its missing parents, and
    listing those that were missing so that each can be made durable. */
module DirectoryTrees {
  import opened Paths
  import opened FileSystems

  /** Ancestors of a directory are directories. */
  lemma {:induction false} AncestorsExist(fs: FileSystem, p: Path, q: Path)
    requires WellFormed(fs) && p in fs.dirs && q <= p
    ensures q in fs.dirs
  {
    if |q| < |p| {
      PrefixOfEntry(fs, p, |q|);
      assert p[..|q|] == q;
    } else {
      assert q == p;
    }
  }

  /** The loop climbs from the path to its first existing ancestor; what it lists, deepest first, is exactly
      what creating the tree adds. */
  method MakeDirectories(fs: FileSystem, path: Path) returns (created: seq<Path>, ok: bool, after: FileSystem)
    requires WellFormed(fs)
    ensures forall q :: q in created <==> q <= path && q !in fs.dirs
    ensures forall i :: 0 <= i < |created| ==> |created[i]| == |path| - i
    ensures ok == Possible(fs, MakeTree(path)) && after == (if ok then Perform(fs, MakeTree(path)) else fs)
    ensures ok ==> after.dirs == fs.dirs + (set q | q in created)
  {
    created := [];
    var cursor := path;
    while cursor !in fs.dirs
      invariant cursor <= path
      invariant forall q :: q in created <==> q <= path && |q| > |cursor|
      invariant forall q :: q in created ==> q !in fs.dirs
      invariant |created| == |path| - |cursor| && forall i :: 0 <= i < |created| ==> |created[i]| == |path| - i
      decreases |cursor|
    {
      ghost var before := created;
      created := created + [cursor];
      forall q ensures q in created <==> q <= path && |q| > |cursor| - 1 {
        assert q in created <==> q in before || q == cursor;
        if q <= path && |q| == |cursor| { assert q == path[..|q|] == cursor; }
      }
      var parent := Parent(cursor);
      if parent == cursor { break; }
      cursor := parent;
    }
    forall q ensures q in created <==> q <= path && q !in fs.dirs {
      if q <= path && |q| <= |cursor| {
        assert q == path[..|q|] == cursor[..|q|];
        AncestorsExist(fs, cursor, q);
      }
    }
    ok := Possible(fs, MakeTree(path));
    after := if ok then Perform(fs, MakeTree(path)) else fs;
  }
}
