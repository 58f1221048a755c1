/** Two requests that run at the same time never own the same path or row: locks,
    fresh names and the uploads table keep them apart. */
module Separation {
  import opened Text
  import opened Paths
  import opened Etags
  import opened FileSystems
  import opened Rows
  import opened PartLists
  import opened Locks
  import opened Requests
  import opened Shapes
  import opened Footprints
  import opened Ownership

  /** The tokens a request drew and the upload id it issues. */
  function Names(j: Job): set<string> { Tokens(j) + IssuedId(j) }

  predicate Ended(r: Request) { Ends(r.job.kind) && r.flags.committed }

  /** Locks the two requests hold do not conflict. */
  ghost predicate LocksApart(a: Request, b: Request) {
    forall x, y :: x in HeldLocks(a) && y in HeldLocks(b) ==> !Conflicts(x, y)
  }

  /** `a`'s upload id is no token of `b`, once it is or was in use, and is not issued again. */
  ghost predicate UploadForeign(t: Tables, a: Request, b: Request) {
    && (a.job.upload in t.uploads || Ended(a) ==> a.job.upload !in Tokens(b.job))
    && (Ended(a) && b.job.kind.Create? && !b.flags.committed ==> a.job.upload != b.job.upload)
  }

  ghost predicate Apart(t: Tables, a: Request, b: Request) {
    && LocksApart(a, b) && Names(a.job) !! Names(b.job) && UploadForeign(t, a, b) && UploadForeign(t, b, a)
  }

  /** Paths whose content the facts kept about a request speak of. */
  predicate UploadRegion(r: Request, p: Path) {
    || ((OwnsUpload(r) || Ended(r)) && UploadPath(r.job.upload) <= p)
    || (r.job.kind.Create? && !r.flags.committed && p == UploadPath(r.job.upload))
  }

  predicate Relies(r: Request, p: Path) { OwnsPath(r, p) || UploadRegion(r, p) }

  // ---------- locks cover what they guard ----------

  lemma BothCoverConflict(x: Wish, y: Wish, p: Path)
    requires x.lockType.Write? && Covers(x.resource, p) && Covers(y.resource, p)
    ensures Conflicts(x, y)
  {
    OverlapIsIntersection(x.resource, y.resource);
  }

  function UploadLock(u: string): Wish { Wish(DirectoryResource(UploadPath(u)), LockType.Write) }
  function BucketLock(b: string): Wish { Wish(DirectoryResource(BucketPath(b)), LockType.Write) }
  function PartLock(u: string, n: nat): Wish { Wish(LockResource(UploadPath(u), Some(PartFile(n))), LockType.Write) }

  lemma BucketLockHeld(r: Request)
    requires OwnsTarget(r) && !r.job.kind.UploadPart?
    ensures BucketLock(r.job.bucket) in HeldLocks(r)
  {
  }

  lemma PartLockHeld(r: Request)
    requires r.job.kind.UploadPart? && HoldsOuter(r)
    ensures PartLock(r.job.upload, r.job.number) in HeldLocks(r)
  {
  }

  lemma UploadLockHeld(r: Request)
    requires Ends(r.job.kind) && HoldsOuter(r)
    ensures UploadLock(r.job.upload) in HeldLocks(r)
  {
    assert HeldLocks(r)[0] == UploadLock(r.job.upload);
  }

  lemma SameUploadName(u: string, v: string, p: Path)
    requires UploadPath(u) <= p && UploadPath(v) <= p
    ensures u == v
  {
    assert p[1] == Plain(u) && p[1] == Plain(v);
  }

  // ---------- no path is owned by one request and relied on by another ----------

  /** What the paths of each kind look like. */
  lemma OwnedShape(r: Request, p: Path)
    ensures OwnsPrivatePath(r, p) && r.job.kind.UploadPart? ==>
      |p| == 3 && UploadPath(r.job.upload) <= p && (p[2] == StagedPart(r.job.number, r.job.staged) || p[2] == PartBackup(r.job.number, r.job.backup))
    ensures OwnsPrivatePath(r, p) && !r.job.kind.UploadPart? ==>
      |p| == 2 && p[0] == Plain("tmp") && (p[1] == Plain(r.job.staged) || p[1] == Plain(r.job.backup) || p[1] == ObjectBackup(r.job.backup))
    ensures OwnsTargetPath(r, p) && r.job.kind.UploadPart? ==> |p| == 3 && UploadPath(r.job.upload) <= p && p[2] == PartFile(r.job.number)
    ensures OwnsTargetPath(r, p) && !r.job.kind.UploadPart? ==> |p| >= 2 && p[0] == Plain("buckets")
    ensures UploadRegion(r, p) ==> |p| >= 2 && UploadPath(r.job.upload) <= p
    ensures OwnsAsidePath(r, p) ==>
      |p| >= 2 && p[0] == Plain("tmp") && (p[1] == CompletedDir(r.job.upload, r.job.cleanup) || p[1] == AbortedDir(r.job.upload, r.job.cleanup))
    ensures |p| >= 2 && UploadPath(r.job.upload) <= p ==> p[0] == Plain("tmp") && p[1] == Plain(r.job.upload)
  {
  }

  lemma OwnNames(r: Request)
    ensures OwnsPrivate(r) ==> r.job.staged in Names(r.job) && r.job.backup in Names(r.job)
    ensures Ends(r.job.kind) ==> r.job.cleanup in Names(r.job)
    ensures r.job.kind.Create? ==> r.job.upload in Names(r.job)
  {
  }

  lemma TargetsApart(a: Request, b: Request, p: Path)
    requires LocksApart(a, b) && OwnsTargetPath(a, p)
    ensures !OwnsTargetPath(b, p)
  {
    OwnedShape(a, p);
    OwnedShape(b, p);
    if !OwnsTargetPath(b, p) {
    } else if a.job.kind.UploadPart? {
      PartLockHeld(a);
      PartLockHeld(b);
      SameUploadName(a.job.upload, b.job.upload, p);
      BothCoverConflict(PartLock(a.job.upload, a.job.number), PartLock(b.job.upload, b.job.number), p);
    } else {
      BucketLockHeld(a);
      BucketLockHeld(b);
      BothCoverConflict(BucketLock(a.job.bucket), BucketLock(b.job.bucket), p);
    }
  }

  lemma PrivatesApart(a: Request, b: Request, p: Path)
    requires Names(a.job) !! Names(b.job) && OwnsPrivatePath(a, p)
    ensures !OwnsPrivatePath(b, p)
  {
    OwnedShape(a, p);
    OwnedShape(b, p);
    OwnNames(a);
    OwnNames(b);
  }

  lemma PrivateVersusTarget(a: Request, b: Request, p: Path)
    requires OwnsPrivatePath(a, p)
    ensures !OwnsTargetPath(b, p)
  {
    OwnedShape(a, p);
    OwnedShape(b, p);
  }

  /** A part upload that owns anything holds its part's lock and knows its upload. */
  lemma PartVersusUpload(w: World, a: Request, b: Request)
    requires a.job.kind.UploadPart? && OwnsTarget(a) && UploadAgrees(w, a) && UploadAgrees(w, b)
    requires LocksApart(a, b) && a.job.upload == b.job.upload
    ensures !OwnsUpload(b) && !Ended(b) && !(b.job.kind.Create? && !b.flags.committed)
  {
    if Ends(b.job.kind) && OwnsUpload(b) {
      PartLockHeld(a);
      UploadLockHeld(b);
      BothCoverConflict(PartLock(a.job.upload, a.job.number), UploadLock(b.job.upload), PartPath(a.job.upload, a.job.number));
    }
  }

  lemma TargetVersusUpload(w: World, a: Request, b: Request, p: Path)
    requires LocksApart(a, b) && UploadAgrees(w, a) && UploadAgrees(w, b)
    requires OwnsTargetPath(a, p)
    ensures !UploadRegion(b, p)
  {
    OwnedShape(a, p);
    OwnedShape(b, p);
    if UploadRegion(b, p) && a.job.kind.UploadPart? {
      PartVersusUpload(w, a, b);
    }
  }

  lemma PrivateVersusUpload(w: World, a: Request, b: Request, p: Path)
    requires Apart(w.rows, a, b) && UploadAgrees(w, a) && UploadAgrees(w, b)
    requires OwnsPrivatePath(a, p)
    ensures !UploadRegion(b, p)
  {
    OwnedShape(a, p);
    OwnedShape(b, p);
    OwnNames(b);
    if UploadRegion(b, p) && a.job.kind.UploadPart? {
      PartVersusUpload(w, a, b);
    }
  }

  lemma UploadsApart(w: World, a: Request, b: Request, p: Path)
    requires Apart(w.rows, a, b) && UploadAgrees(w, a) && UploadAgrees(w, b)
    requires OwnsUploadPath(a, p)
    ensures !UploadRegion(b, p)
  {
    OwnedShape(a, p);
    OwnedShape(b, p);
    OwnNames(a);
    OwnNames(b);
    if UploadRegion(b, p) && Ends(a.job.kind) && Ends(b.job.kind) && OwnsUpload(b) {
      UploadLockHeld(a);
      UploadLockHeld(b);
      BothCoverConflict(UploadLock(a.job.upload), UploadLock(b.job.upload), p);
    }
  }

  lemma AsidesApart(a: Request, b: Request, p: Path)
    requires Names(a.job) !! Names(b.job) && OwnsAsidePath(a, p)
    ensures !Relies(b, p)
  {
    OwnedShape(a, p);
    OwnedShape(b, p);
    OwnNames(a);
    OwnNames(b);
  }

  lemma OwnedPathsApart(w: World, a: Request, b: Request, p: Path)
    requires Apart(w.rows, a, b) && UploadAgrees(w, a) && UploadAgrees(w, b)
    requires OwnsPrivatePath(a, p) || OwnsTargetPath(a, p) || OwnsUploadPath(a, p)
    ensures !OwnsPrivatePath(b, p) && !OwnsTargetPath(b, p)
  {
    if OwnsTargetPath(b, p) {
      TargetsApart(b, a, p);
      TargetVersusUpload(w, b, a, p);
      if OwnsPrivatePath(a, p) { PrivateVersusTarget(a, b, p); }
    } else if OwnsPrivatePath(b, p) {
      PrivatesApart(b, a, p);
      PrivateVersusUpload(w, b, a, p);
      PrivateVersusTarget(b, a, p);
    }
  }

  /** What one request may change, no other relies on. */
  lemma OwnershipExclusive(w: World, a: Request, b: Request, p: Path)
    requires Apart(w.rows, a, b) && UploadAgrees(w, a) && UploadAgrees(w, b)
    requires OwnsPath(a, p)
    ensures !Relies(b, p)
  {
    if OwnsAsidePath(a, p) {
      AsidesApart(a, b, p);
    } else {
      if OwnsAsidePath(b, p) { AsidesApart(b, a, p); }
      OwnedPathsApart(w, a, b, p);
      if OwnsTargetPath(a, p) {
        TargetVersusUpload(w, a, b, p);
      } else if OwnsPrivatePath(a, p) {
        PrivateVersusUpload(w, a, b, p);
      } else {
        UploadsApart(w, a, b, p);
      }
    }
  }

  // ---------- nor any row ----------

  lemma ObjectRowExclusive(a: Request, b: Request, id: ObjectId)
    requires LocksApart(a, b) && OwnsObject(a, id)
    ensures !OwnsObject(b, id)
  {
    if OwnsObject(b, id) {
      TargetInside(a.job);
      TargetsApart(a, b, BucketPath(id.bucket));
    }
  }

  lemma PartRowExclusive(w: World, a: Request, b: Request, id: PartId)
    requires Apart(w.rows, a, b) && UploadAgrees(w, a) && UploadAgrees(w, b) && OwnsPart(a, id)
    ensures !OwnsPart(b, id)
  {
    if OwnsPart(b, id) {
      OwnershipExclusive(w, a, b, PartPath(id.upload, id.number));
    }
  }

  /** An upload's row changes only by the request that owns the upload; a part upload that
      found it, and a request that ended it or is about to issue it, rely on it too. */
  predicate ReliesOnUploadRow(r: Request, u: string) {
    u == r.job.upload && (OwnsUpload(r) || Ended(r) || (r.job.kind.UploadPart? && OwnsTarget(r)) || (r.job.kind.Create? && !r.flags.committed))
  }

  lemma UploadRowExclusive(w: World, a: Request, b: Request, u: string)
    requires Apart(w.rows, a, b) && UploadAgrees(w, a) && UploadAgrees(w, b) && OwnsUploadRow(a, u)
    ensures !ReliesOnUploadRow(b, u)
  {
    if ReliesOnUploadRow(b, u) {
      if b.job.kind.UploadPart? {
        PartVersusUpload(w, b, a);
      } else {
        UploadsApart(w, a, b, UploadPath(u));
      }
    }
  }
}
