/** What one step of one request may change, on disk and in the database. */
module Ownership {
  import opened Text
  import opened Paths
  import opened Etags
  import opened FileSystems
  import opened Rows
  import opened PartLists
  import opened Requests
  import opened Shapes
  import opened Footprints

  predicate OwnsPrivatePath(r: Request, p: Path) {
    OwnsPrivate(r) && (p == StagedFile(r.job) || p == BackupFile(r.job))
  }

  predicate OwnsTargetPath(r: Request, p: Path) {
    OwnsTarget(r) && if r.job.kind.UploadPart? then p == TargetPath(r.job) else BucketPath(r.job.bucket) <= p
  }

  predicate OwnsUploadPath(r: Request, p: Path) { OwnsUpload(r) && UploadPath(r.job.upload) <= p }

  predicate OwnsAsidePath(r: Request, p: Path) { Ends(r.job.kind) && CleanupDir(r.job) <= p }

  /** The paths a request may change at its program counter. */
  predicate OwnsPath(r: Request, p: Path) {
    OwnsPrivatePath(r, p) || OwnsTargetPath(r, p) || OwnsUploadPath(r, p) || OwnsAsidePath(r, p)
  }

  /** The two directories everything lives in. */
  ghost predicate Mounted(fs: FileSystem) {
    WellFormed(fs) && TMP_DIR in fs.dirs && BUCKETS_DIR in fs.dirs
  }

  /** No file is named after the fresh name of a part upload that has not found its upload yet. */
  ghost predicate Unseen(fs: FileSystem, r: Request) {
    r.job.kind.UploadPart? && !r.flags.verified ==> forall p :: p in fs.files && p != [] ==> !NamedFor(r.job, p)
  }

  predicate NamedFor(j: Job, p: Path)
    requires p != []
  {
    p[|p| - 1] == StagedPart(j.number, j.staged) || p[|p| - 1] == PartBackup(j.number, j.backup)
  }

  lemma TreeTouches(fs: FileSystem, r: Request, p: Path)
    requires Mounted(fs) && Shape(r) && r.pc.MakeDirs?
    requires Touches(fs, MakeTree(if r.job.kind.Create? then UploadPath(r.job.upload) else Parent(ObjectPath(r.job.bucket, r.job.key))), p)
    ensures OwnsPath(r, p)
  {
    var j := r.job;
    var tree := if j.kind.Create? then UploadPath(j.upload) else Parent(ObjectPath(j.bucket, j.key));
    assert p != TMP_DIR && p != BUCKETS_DIR && p != [];
    assert p == tree[..|p|];
    if j.kind.Create? {
      assert p == tree;
    } else {
      assert p[..2] == tree[..2] == BucketPath(j.bucket);
    }
  }

  lemma MainTouches(fs: FileSystem, r: Request, op: Operation, p: Path)
    requires Mounted(fs) && Shape(r) && OnMainPath(r.pc) && TodoAt(fs, r) == Disk(op) && Touches(fs, op, p)
    ensures OwnsPath(r, p)
  {
    if r.pc.MakeDirs? {
      TreeTouches(fs, r, p);
    } else if r.pc.Publish? || r.pc.Backup? {
      TargetInside(r.job);
    }
  }

  lemma TargetInside(j: Job)
    ensures BucketPath(j.bucket) <= ObjectPath(j.bucket, j.key)
  {
  }

  lemma RecoveryTouches(fs: FileSystem, r: Request, op: Operation, p: Path)
    requires Shape(r) && !OnMainPath(r.pc) && TodoAt(fs, r) == Disk(op) && Touches(fs, op, p)
    ensures OwnsPath(r, p) || (r.job.kind.UploadPart? && !r.flags.verified && op == Delete(StagedFile(r.job)))
  {
  }

  /** A step changes nothing outside the paths its request owns. */
  lemma StepStaysInside(w: World, r: Request, o: Outcome, p: Path)
    requires Mounted(w.fs) && Shape(r) && Unseen(w.fs, r) && !OwnsPath(r, p)
    ensures SameAt(w.fs, WorldAfter(w, r, o).fs, p)
  {
    StepByAnswer(w, r, o);
    var todo := TodoAt(w.fs, r);
    if todo.Disk? && Succeeds(w.fs, r, o) {
      if Touches(w.fs, todo.op, p) {
        if OnMainPath(r.pc) { MainTouches(w.fs, r, todo.op, p); } else { RecoveryTouches(w.fs, r, todo.op, p); }
        assert NamedFor(r.job, StagedFile(r.job));
      } else {
        UntouchedStays(w.fs, todo.op, p);
      }
    } else if todo.Disk? && todo.op.RemoveTree? && o.Fault? {
      RemovalInside(w.fs, r, p);
      UnprunedStays(w.fs, todo.op.path, o.gone, p);
    }
  }

  lemma RemovalInside(fs: FileSystem, r: Request, p: Path)
    requires Shape(r) && TodoAt(fs, r).Disk? && TodoAt(fs, r).op.RemoveTree? && !OwnsPath(r, p)
    ensures !(TodoAt(fs, r).op.path <= p)
  {
  }

  // ---------- rows ----------

  predicate OwnsObject(r: Request, id: ObjectId) {
    OwnsTarget(r) && !r.job.kind.UploadPart? && id == TargetObject(r.job)
  }

  predicate OwnsPart(r: Request, id: PartId) {
    if r.job.kind.UploadPart? then OwnsTarget(r) && id == TargetPart(r.job)
    else Ends(r.job.kind) && OwnsUpload(r) && id.upload == r.job.upload
  }

  predicate OwnsUploadRow(r: Request, upload: string) { OwnsUpload(r) && upload == r.job.upload }

  function UploadRowAt(t: Tables, upload: string): Option<UploadRow> {
    if upload in t.uploads then Some(t.uploads[upload]) else None
  }

  /** What a commit writes, by kind. */
  lemma CommitPending(r: Request)
    requires Shape(r) && Values(r) && r.pc.Commit?
    ensures r.job.kind.PutObject? ==> r.local.pending == PutChange(r) && OwnsTarget(r)
    ensures r.job.kind.UploadPart? ==> r.local.pending == PartChange(r) && OwnsTarget(r)
    ensures r.job.kind.Complete? ==> r.local.pending == EndChange(PutChange(r), r) && OwnsTarget(r) && OwnsUpload(r)
    ensures r.job.kind.Abort? ==> r.local.pending == EndChange(NO_CHANGES, r) && OwnsUpload(r)
    ensures r.job.kind.Create? ==>
      r.local.pending == NO_CHANGES.(putUploads := map[r.job.upload := UploadRow(r.job.bucket, r.job.key)]) && OwnsUpload(r)
  {
  }

  ghost predicate DropsOwnParts(t: Tables, r: Request) {
    Ends(r.job.kind) && r.pc.Commit? ==> r.local.pending.dropParts == PartsOf(t, r.job.upload)
  }

  /** A step changes no row outside those its request owns. */
  lemma RowsStayInside(w: World, r: Request, o: Outcome)
    requires Shape(r) && Values(r) && DropsOwnParts(w.rows, r)
    ensures forall id :: !OwnsObject(r, id) ==> ObjectRow(WorldAfter(w, r, o).rows, id) == ObjectRow(w.rows, id)
    ensures forall id :: !OwnsPart(r, id) ==> PartRow(WorldAfter(w, r, o).rows, id) == PartRow(w.rows, id)
    ensures forall u :: !OwnsUploadRow(r, u) ==> UploadRowAt(WorldAfter(w, r, o).rows, u) == UploadRowAt(w.rows, u)
  {
    if r.pc.Commit? && o.Returned? {
      CommitPending(r);
    }
  }
}
