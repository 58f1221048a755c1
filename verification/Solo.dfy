/** One request run by itself, step after step: exactly what it leaves on disk and in the
    database when it finishes. */
module Solo {
  import opened Text
  import opened Paths
  import opened Etags
  import opened FileSystems
  import opened Rows
  import opened PartLists
  import opened Requests
  import opened Shapes
  import opened Footprints
  import opened Ownership
  import opened Separation
  import opened Records
  import opened Server
  import opened Objects
  import opened Uploads
  import opened Parts
  import opened Runs
  import opened Atomicity
  import opened Progress

  /** The run of a request on the given answers of the environment. */
  function Exec(w: World, j: Job, outcomes: seq<Outcome>): (World, Request) {
    if outcomes == [] then (w, NewRequest(j))
    else
      var (w1, r1) := Exec(w, j, outcomes[..|outcomes| - 1]);
      if r1.pc.Finished? then (w1, r1) else Step(w1, r1, outcomes[|outcomes| - 1])
  }

  /** Where the run starts: the request's names are fresh, and no upload's directory is a file. */
  ghost predicate Startable(w: World, j: Job) {
    && Mounted(w.fs) && ProperJob(j) && FreshNames(w, j)
    && (Ends(j.kind) ==> UploadPath(j.upload) !in w.fs.files)
  }

  /** The files a request may change. */
  ghost predicate Reaches(j: Job, p: Path) {
    || (Publishes(j.kind) && (p == TargetPath(j) || p == StagedFile(j) || p == BackupFile(j)))
    || ((Ends(j.kind) || j.kind.Create?) && UploadPath(j.upload) <= p)
    || (Ends(j.kind) && CleanupDir(j) <= p)
  }

  function ChangeOf(t: Tables, r: Request): Pending {
    match r.job.kind
    case PutObject => PutChange(r)
    case UploadPart => PartChange(r)
    case Complete => PutChange(r).(dropParts := PartsOf(t, r.job.upload), dropUploads := {r.job.upload})
    case Abort => NO_CHANGES.(dropParts := PartsOf(t, r.job.upload), dropUploads := {r.job.upload})
    case Create => NO_CHANGES.(putUploads := map[r.job.upload := UploadRow(r.job.bucket, r.job.key)])
  }

  ghost predicate RowsLedger(w0: World, w: World, r: Request) {
    w.rows == if r.flags.committed then CommitChanges(w0.rows, ChangeOf(w0.rows, r)) else w0.rows
  }

  function SlotNow(fs0: FileSystem, r: Request): Option<Bytes> {
    match r.past.target
    case Before => At(fs0, TargetPath(r.job))
    case Gone => None
    case New => Some(r.past.payload)
  }

  ghost predicate TargetNow(w0: World, w: World, r: Request) {
    && At(w.fs, TargetPath(r.job)) == SlotNow(w0.fs, r)
    && (OwnsTarget(r) || r.past.backupHere || !r.past.target.Before? ==> r.past.before == At(w0.fs, TargetPath(r.job)))
  }

  ghost predicate PrivateNow(w: World, r: Request) {
    At(w.fs, StagedFile(r.job)) == StagedContent(r) && At(w.fs, BackupFile(r.job)) == BackupContent(r)
  }

  ghost predicate PartsNow(w0: World, w: World, r: Request) {
    && SameTree(w0.fs, UploadPath(r.job.upload), w.fs, PartsHome(r))
    && UploadPath(r.job.upload) !in w0.fs.files && UploadPath(r.job.upload) !in w.fs.files
  }

  ghost predicate UploadNow(w0: World, w: World, r: Request) {
    match r.job.kind
    case Create => forall p :: UploadPath(r.job.upload) <= p ==> p !in w.fs.files
    case _ => Ends(r.job.kind) && !r.flags.committed ==> PartsNow(w0, w, r)
  }

  ghost predicate RestNow(w0: World, w: World, r: Request) {
    forall p :: !Reaches(r.job, p) ==> At(w.fs, p) == At(w0.fs, p)
  }

  /** A committed completion assembled the parts it found. */
  ghost predicate PiecesFound(w0: World, r: Request) {
    r.job.kind.Complete? && r.flags.committed ==> PiecesAt(w0.fs, r.job, UploadPath(r.job.upload), r.past.pieces)
  }

  ghost predicate SoloLedger(w0: World, w: World, r: Request) {
    && Mounted(w.fs) && Recorded(w, r) && PiecesFound(w0, r)
    && RowsLedger(w0, w, r) && RestNow(w0, w, r) && UploadNow(w0, w, r)
    && (Publishes(r.job.kind) ==> TargetNow(w0, w, r) && PrivateNow(w, r))
  }

  lemma StartLedger(w: World, j: Job)
    requires Startable(w, j)
    ensures SoloLedger(w, w, NewRequest(j))
  {
    NewRecorded(w, j);
    if j.kind.UploadPart? { assert NamedFor(j, StagedFile(j)) && NamedFor(j, BackupFile(j)); }
  }

  // ---------- rows ----------

  lemma CommitChange(w: World, r: Request)
    requires Recorded(w, r) && r.pc.Commit?
    ensures r.local.pending == ChangeOf(w.rows, AfterCommit(r))
  {
    CommitPending(r);
    DropsRecorded(w, r);
  }

  lemma RecoverKeepsChange(t: Tables, r: Request, idle: bool, ok: bool)
    ensures ChangeOf(t, Recover(r, idle, ok)) == ChangeOf(t, r)
  {
  }

  lemma StepKeepsRowsLedger(w0: World, w: World, r: Request, o: Outcome)
    requires Recorded(w, r) && RowsLedger(w0, w, r)
    ensures RowsLedger(w0, WorldAfter(w, r, o), RequestAfter(w, r, o))
  {
    StepByAnswer(w, r, o);
    CommitsOnlyAtCommit(w, r, o);
    if r.pc.Commit? {
      CommitChange(w, r);
    } else if !OnMainPath(r.pc) {
      RecoverKeepsChange(w0.rows, r, TodoAt(w.fs, r).Idle?, Succeeds(w.fs, r, o));
    }
  }

  // ---------- files out of reach ----------

  lemma OutOfReach(j: Job, r: Request, p: Path)
    requires r.job == j && !Reaches(j, p) && !(BUCKETS_DIR <= p)
    ensures !OwnsPath(r, p)
  {
  }

  lemma StepKeepsRest(w0: World, w: World, r: Request, o: Outcome)
    requires Mounted(w.fs) && Recorded(w, r) && RestNow(w0, w, r)
    ensures RestNow(w0, WorldAfter(w, r, o), RequestAfter(w, r, o))
  {
    SameJob(w, r, o);
    forall p | !Reaches(r.job, p) ensures At(WorldAfter(w, r, o).fs, p) == At(w0.fs, p) {
      RestStep(w, r, o, p);
    }
  }

  lemma RestStep(w: World, r: Request, o: Outcome, p: Path)
    requires Mounted(w.fs) && Recorded(w, r) && !Reaches(r.job, p)
    ensures At(WorldAfter(w, r, o).fs, p) == At(w.fs, p)
  {
    if BUCKETS_DIR <= p {
      OnlyTheTarget(w, r, o, p);
    } else {
      OutOfReach(r.job, r, p);
      StepStaysInside(w, r, o, p);
    }
  }

  // ---------- the target, staged and backup files ----------

  lemma UnownedSlotMain(w: World, r: Request)
    requires Shape(r) && Publishes(r.job.kind) && OnMainPath(r.pc) && !OwnsTarget(r) && !r.pc.Start? && !r.pc.AwaitBucket?
    ensures r.past.target.Before? && Advance(w, r).past.target.Before? && !r.past.backupHere && !Advance(w, r).past.backupHere
  {
  }

  lemma UnownedSlotRecovery(fs: FileSystem, r: Request, ok: bool)
    requires Shape(r) && Publishes(r.job.kind) && !OnMainPath(r.pc) && !OwnsTarget(r)
    ensures var r' := Recover(r, TodoAt(fs, r).Idle?, ok);
      r'.past.target == r.past.target && r'.past.payload == r.past.payload && r'.past.before == r.past.before && (r'.past.backupHere ==> r.past.backupHere)
  {
    match r.pc
    case Rollback =>
    case Undo =>
    case DropBackup =>
    case RestoreUpload =>
    case DropStaged =>
    case TidyLocked =>
    case UnlockInner =>
    case UnlockOuter =>
    case Tidy =>
    case TidyUpload =>
    case _ =>
  }

  lemma UnownedSlotFirst(w: World, r: Request)
    requires Shape(r) && Publishes(r.job.kind) && (r.pc.Start? || r.pc.AwaitBucket?)
    ensures r.past.target.Before? && Proceed(w, r, true).past.target.Before? && !Proceed(w, r, true).past.backupHere
  {
  }

  lemma UnownedTarget(w: World, r: Request, o: Outcome)
    requires Mounted(w.fs) && Recorded(w, r) && Publishes(r.job.kind) && !OwnsTarget(r)
    ensures At(WorldAfter(w, r, o).fs, TargetPath(r.job)) == At(w.fs, TargetPath(r.job))
  {
    if r.job.kind.UploadPart? {
      OwnedShape(r, TargetPath(r.job));
      StepStaysInside(w, r, o, TargetPath(r.job));
    } else {
      TargetInside(r.job);
      assert BUCKETS_DIR <= BucketPath(r.job.bucket) <= TargetPath(r.job);
      OnlyTheTarget(w, r, o, TargetPath(r.job));
    }
  }

  lemma UnownedStep(w0: World, w: World, r: Request, o: Outcome)
    requires Mounted(w.fs) && Recorded(w, r) && Publishes(r.job.kind) && TargetNow(w0, w, r)
    requires !OwnsTarget(r) && !OwnsTarget(RequestAfter(w, r, o))
    ensures TargetNow(w0, WorldAfter(w, r, o), RequestAfter(w, r, o))
  {
    SameJob(w, r, o);
    UnownedTarget(w, r, o);
    if !OnMainPath(r.pc) {
      UnownedSlotRecovery(w.fs, r, Succeeds(w.fs, r, o));
    } else if r.pc.Start? || r.pc.AwaitBucket? {
      UnownedSlotFirst(w, r);
    } else {
      UnownedSlotMain(w, r);
    }
  }

  /** A request gives its target back without touching anything. */
  lemma ReleaseStep(w: World, r: Request, o: Outcome)
    requires Recorded(w, r) && OwnsTarget(r) && !OwnsTarget(RequestAfter(w, r, o))
    ensures WorldAfter(w, r, o) == w && RequestAfter(w, r, o).past == r.past && RequestAfter(w, r, o).job == r.job
  {
    SameJob(w, r, o);
    if r.job.kind.UploadPart? { PartOwnsAfter(w, r, o); } else { OwnsAfter(w, r, o); }
  }

  lemma StepKeepsTargetNow(w0: World, w: World, r: Request, o: Outcome)
    requires Mounted(w.fs) && Recorded(w, r) && Publishes(r.job.kind) && TargetNow(w0, w, r)
    requires Recorded(WorldAfter(w, r, o), RequestAfter(w, r, o))
    ensures TargetNow(w0, WorldAfter(w, r, o), RequestAfter(w, r, o))
  {
    SameJob(w, r, o);
    if OwnsTarget(RequestAfter(w, r, o)) {
      if OwnsTarget(r) {
        OwnerKeepsSnapshot(w, r, o);
      } else {
        OwnedStart(w, r, o);
        GrabsUntouched(w, r, o);
      }
    } else if OwnsTarget(r) {
      ReleaseStep(w, r, o);
    } else {
      UnownedStep(w0, w, r, o);
    }
  }

  lemma GrabsUntouched(w: World, r: Request, o: Outcome)
    requires Shape(r) && Publishes(r.job.kind) && !OwnsTarget(r) && OwnsTarget(RequestAfter(w, r, o))
    ensures r.past.target.Before? && RequestAfter(w, r, o).past.target.Before?
  {
    if r.job.kind.UploadPart? {
      PartOwnsAfter(w, r, o);
      UnownedSlotMain(w, r);
    } else {
      OwnsAfter(w, r, o);
      UnownedSlotFirst(w, r);
    }
  }

  lemma StaysUnverified(w: World, r: Request, o: Outcome)
    requires Shape(r) && r.job.kind.UploadPart? && !r.pc.Finished? && !OwnsPrivate(r) && !OwnsPrivate(RequestAfter(w, r, o))
    ensures !RequestAfter(w, r, o).flags.verified
  {
  }

  /** A part upload that never found its upload has nothing on disk. */
  lemma UnverifiedPrivate(w: World, r: Request)
    requires Recorded(w, r) && r.job.kind.UploadPart?
    ensures !r.flags.verified ==> PrivateNow(w, r)
  {
  }

  lemma StepKeepsPrivateNow(w: World, r: Request, o: Outcome)
    requires Recorded(w, r) && Publishes(r.job.kind) && PrivateNow(w, r) && !r.pc.Finished?
    requires Recorded(WorldAfter(w, r, o), RequestAfter(w, r, o))
    ensures PrivateNow(WorldAfter(w, r, o), RequestAfter(w, r, o))
  {
    SameJob(w, r, o);
    if !OwnsPrivate(RequestAfter(w, r, o)) {
      if OwnsPrivate(r) {
        ReleaseStep(w, r, o);
      } else {
        StaysUnverified(w, r, o);
        UnverifiedPrivate(WorldAfter(w, r, o), RequestAfter(w, r, o));
      }
    }
  }

  // ---------- the upload's directory ----------

  lemma UnownedHomeStays(w: World, r: Request, o: Outcome)
    requires Mounted(w.fs) && Recorded(w, r) && Ends(r.job.kind) && !OwnsUpload(r)
    ensures forall p :: UploadPath(r.job.upload) <= p ==> SameAt(w.fs, WorldAfter(w, r, o).fs, p)
  {
    forall p | UploadPath(r.job.upload) <= p ensures SameAt(w.fs, WorldAfter(w, r, o).fs, p) {
      OwnedShape(r, p);
      StepStaysInside(w, r, o, p);
    }
  }

  lemma IdleHome(w: World, r: Request, o: Outcome)
    requires Mounted(w.fs) && Recorded(w, r) && Ends(r.job.kind) && !OwnsUpload(r) && !OwnsUpload(RequestAfter(w, r, o))
    requires !RequestAfter(w, r, o).flags.committed && !r.pc.Finished?
    ensures !r.past.displaced && !RequestAfter(w, r, o).past.displaced
    ensures forall p :: UploadPath(r.job.upload) <= p ==> SameAt(w.fs, WorldAfter(w, r, o).fs, p)
  {
    CommitsOnlyAtCommit(w, r, o);
    if OnMainPath(r.pc) {
      if !r.pc.Start? && !r.pc.AwaitBucket? { AdvanceDisplaces(w, r); }
    } else {
      RecoverDisplaces(r, TodoAt(w.fs, r).Idle?, Succeeds(w.fs, r, o));
    }
    UnownedHomeStays(w, r, o);
  }

  lemma UnlockKeepsPast(r: Request, idle: bool, ok: bool)
    requires r.pc.UnlockOuter?
    ensures Recover(r, idle, ok).past == r.past
  {
  }

  lemma OnlyUnlockLeaves(w: World, r: Request, o: Outcome)
    requires Shape(r) && Ends(r.job.kind) && OwnsUpload(r) && !OwnsUpload(RequestAfter(w, r, o)) && !RequestAfter(w, r, o).flags.committed
    ensures r.pc.UnlockOuter?
  {
    CommitsOnlyAtCommit(w, r, o);
    if OnMainPath(r.pc) {
      if !r.pc.Start? && !r.pc.AwaitBucket? { AdvanceOwnsUpload(w, r); }
    } else {
      RecoverOwnsUpload(r, TodoAt(w.fs, r).Idle?, Succeeds(w.fs, r, o));
    }
  }

  lemma LeavingHome(w: World, r: Request, o: Outcome)
    requires Recorded(w, r) && Ends(r.job.kind) && OwnsUpload(r) && !OwnsUpload(RequestAfter(w, r, o))
    requires !RequestAfter(w, r, o).flags.committed
    ensures WorldAfter(w, r, o) == w && RequestAfter(w, r, o).past == r.past
  {
    OnlyUnlockLeaves(w, r, o);
    StepByAnswer(w, r, o);
    UnlockKeepsPast(r, TodoAt(w.fs, r).Idle?, Succeeds(w.fs, r, o));
  }

  lemma StepKeepsPartsNow(w0: World, w: World, r: Request, o: Outcome)
    requires Mounted(w.fs) && Recorded(w, r) && Ends(r.job.kind) && PartsNow(w0, w, r) && !r.pc.Finished?
    requires Recorded(WorldAfter(w, r, o), RequestAfter(w, r, o)) && !RequestAfter(w, r, o).flags.committed
    ensures PartsNow(w0, WorldAfter(w, r, o), RequestAfter(w, r, o))
  {
    SameJob(w, r, o);
    var w', r' := WorldAfter(w, r, o), RequestAfter(w, r, o);
    if OwnsUpload(r') {
      if OwnsUpload(r) { OwnHomeStep(w, r, o, w0.fs); } else { FindingFrom(w0, w, r, o); }
    } else if OwnsUpload(r) {
      LeavingHome(w, r, o);
    } else {
      IdleHome(w, r, o);
      TreeUnmoved(w0.fs, UploadPath(r.job.upload), w.fs, w'.fs, UploadPath(r.job.upload));
      assert SameAt(w.fs, w'.fs, UploadPath(r.job.upload));
    }
  }

  lemma FindingFrom(w0: World, w: World, r: Request, o: Outcome)
    requires Recorded(w, r) && Ends(r.job.kind) && PartsNow(w0, w, r)
    requires !OwnsUpload(r) && OwnsUpload(RequestAfter(w, r, o))
    ensures PartsNow(w0, WorldAfter(w, r, o), RequestAfter(w, r, o))
  {
    FindingUpload(w, r, o);
    NotYetDisplaced(w, r, o);
  }

  lemma NotYetDisplaced(w: World, r: Request, o: Outcome)
    requires Shape(r) && Ends(r.job.kind) && !OwnsUpload(r) && OwnsUpload(RequestAfter(w, r, o))
    ensures !r.past.displaced
  {
    if OnMainPath(r.pc) {
      if !r.pc.Start? && !r.pc.AwaitBucket? { AdvanceOwnsUpload(w, r); }
    } else {
      RecoverOwnsUpload(r, TodoAt(w.fs, r).Idle?, Succeeds(w.fs, r, o));
    }
  }

  lemma CreatorWritesNoFile(w: World, r: Request, o: Outcome)
    requires Shape(r) && r.job.kind.Create?
    ensures WorldAfter(w, r, o).fs.files.Keys <= w.fs.files.Keys
  {
  }

  lemma PiecesFromHome(fs0: FileSystem, fs: FileSystem, j: Job, home: Path, pieces: seq<Bytes>)
    requires SameTree(fs0, UploadPath(j.upload), fs, home) && PiecesAt(fs, j, home, pieces)
    ensures PiecesAt(fs0, j, UploadPath(j.upload), pieces)
  {
  }

  lemma StepKeepsPiecesFound(w0: World, w: World, r: Request, o: Outcome)
    requires Recorded(w, r) && PiecesFound(w0, r) && UploadNow(w0, w, r)
    ensures PiecesFound(w0, RequestAfter(w, r, o))
  {
    SameJob(w, r, o);
    CommitsOnlyAtCommit(w, r, o);
    if r.job.kind.Complete? {
      if r.pc.Commit? {
        PiecesFromHome(w0.fs, w.fs, r.job, PartsHome(r), r.past.pieces);
      } else if r.flags.committed {
        RecoverKeepsPieces(r, TodoAt(w.fs, r).Idle?, Succeeds(w.fs, r, o));
      }
    }
  }

  lemma RecoverKeepsPieces(r: Request, idle: bool, ok: bool)
    ensures Recover(r, idle, ok).past.pieces == r.past.pieces
  {
  }

  // ---------- the whole run ----------

  lemma StepKeepsSoloLedger(w0: World, w: World, r: Request, o: Outcome)
    requires SoloLedger(w0, w, r) && !r.pc.Finished?
    ensures SoloLedger(w0, WorldAfter(w, r, o), RequestAfter(w, r, o))
  {
    SameJob(w, r, o);
    StepKeepsMounted(w, r, o);
    OwnStepKeepsRecords(w, r, o);
    StepKeepsRowsLedger(w0, w, r, o);
    StepKeepsRest(w0, w, r, o);
    StepKeepsPiecesFound(w0, w, r, o);
    CommitsOnlyAtCommit(w, r, o);
    if Publishes(r.job.kind) {
      StepKeepsTargetNow(w0, w, r, o);
      StepKeepsPrivateNow(w, r, o);
    }
    if Ends(r.job.kind) && !RequestAfter(w, r, o).flags.committed {
      StepKeepsPartsNow(w0, w, r, o);
    }
    if r.job.kind.Create? { CreatorWritesNoFile(w, r, o); }
  }

  /** The ledger holds all along the run. */
  lemma {:induction false} ExecKeepsLedger(w0: World, j: Job, outcomes: seq<Outcome>)
    requires Startable(w0, j)
    ensures SoloLedger(w0, Exec(w0, j, outcomes).0, Exec(w0, j, outcomes).1) && Exec(w0, j, outcomes).1.job == j
  {
    if outcomes == [] {
      StartLedger(w0, j);
    } else {
      var rest, o := outcomes[..|outcomes| - 1], outcomes[|outcomes| - 1];
      ExecKeepsLedger(w0, j, rest);
      var (w, r) := Exec(w0, j, rest);
      if !r.pc.Finished? {
        StepKeepsSoloLedger(w0, w, r, o);
        SameJob(w, r, o);
      }
    }
  }

  // ---------- the directory a creation makes ----------

  /** Nothing but the upload's own directory comes or goes; it is there once made, and gone once removed again. */
  ghost predicate CreatorDirs(w0: World, w: World, r: Request) {
    var before, after := w0.fs.dirs, w0.fs.dirs + {UploadPath(r.job.upload)};
    && (w.fs.dirs == before || w.fs.dirs == after)
    && (r.pc.Start? || r.pc.MakeDirs? || (r.pc.Finished? && r.failure.Some? && !r.past.litter) ==> w.fs.dirs == before)
    && (r.pc.InsertUpload? || r.pc.Commit? || (r.pc.Finished? && r.failure.None?) ==> w.fs.dirs == after)
  }

  lemma MadeUploadDir(fs: FileSystem, u: string)
    requires Mounted(fs)
    ensures Perform(fs, MakeTree(UploadPath(u))).dirs == fs.dirs + {UploadPath(u)}
  {
    var up := UploadPath(u);
    forall q | q in Prefixes(up) ensures q == up || q == TMP_DIR || q == [] {
      assert q == up[..|q|] && up[..1] == TMP_DIR;
    }
  }

  lemma StepKeepsCreatorDirs(w0: World, w: World, r: Request, o: Outcome)
    requires Mounted(w.fs) && Shape(r) && r.job.kind.Create? && !r.pc.Finished? && UploadPath(r.job.upload) !in w0.fs.dirs
    requires CreatorDirs(w0, w, r)
    ensures CreatorDirs(w0, WorldAfter(w, r, o), RequestAfter(w, r, o))
  {
    MadeUploadDir(w.fs, r.job.upload);
    match r.pc
    case Start =>
    case MakeDirs =>
    case InsertUpload =>
    case Commit =>
    case Rollback =>
    case TidyUpload =>
  }

  lemma {:induction false} ExecKeepsCreatorDirs(w0: World, j: Job, outcomes: seq<Outcome>)
    requires Startable(w0, j) && j.kind.Create?
    ensures CreatorDirs(w0, Exec(w0, j, outcomes).0, Exec(w0, j, outcomes).1)
  {
    if outcomes != [] {
      var rest, o := outcomes[..|outcomes| - 1], outcomes[|outcomes| - 1];
      ExecKeepsCreatorDirs(w0, j, rest);
      ExecKeepsLedger(w0, j, rest);
      var (w, r) := Exec(w0, j, rest);
      if !r.pc.Finished? { StepKeepsCreatorDirs(w0, w, r, o); }
    }
  }

  // ---------- what a finished run leaves ----------

  lemma FreshPrivate(w0: World, j: Job)
    requires FreshNames(w0, j) && Publishes(j.kind)
    ensures At(w0.fs, StagedFile(j)) == None && At(w0.fs, BackupFile(j)) == None
  {
  }

  lemma SameFiles(fs: FileSystem, fs': FileSystem)
    requires forall p :: At(fs', p) == At(fs, p)
    ensures fs'.files == fs.files
  {
    forall p ensures p in fs'.files <==> p in fs.files { assert At(fs', p) == At(fs, p); }
    forall p | p in fs.files ensures fs'.files[p] == fs.files[p] { assert At(fs', p) == At(fs, p); }
  }

  lemma BelowUpload(fs0: FileSystem, fs: FileSystem, up: Path, p: Path)
    requires SameTree(fs0, up, fs, up) && up !in fs0.files && up !in fs.files && up <= p
    ensures At(fs, p) == At(fs0, p)
  {
    var rest := p[|up|..];
    assert p == up + rest;
    if rest == [] { assert p == up; }
  }

  /** A failed run whose compensations succeeded leaves every file and every row as it found them. */
  lemma FailedRunChangesNothing(w0: World, w: World, r: Request)
    requires Startable(w0, r.job) && SoloLedger(w0, w, r) && r.pc.Finished? && r.failure.Some? && Clean(r)
    ensures w.rows == w0.rows && w.fs.files == w0.fs.files
  {
    var j := r.job;
    forall p ensures At(w.fs, p) == At(w0.fs, p) {
      if Reaches(j, p) {
        if Publishes(j.kind) { FreshPrivate(w0, j); }
        if (Ends(j.kind) || j.kind.Create?) && UploadPath(j.upload) <= p {
          if Ends(j.kind) { BelowUpload(w0.fs, w.fs, UploadPath(j.upload), p); }
        }
      }
    }
    SameFiles(w0.fs, w.fs);
  }

  /** What a file holds once the request is done: its target the new payload, its ended upload nothing. */
  function Outcomes(fs0: FileSystem, r: Request, p: Path): Option<Bytes> {
    if Publishes(r.job.kind) && p == TargetPath(r.job) then Some(r.past.payload)
    else if Ends(r.job.kind) && UploadPath(r.job.upload) <= p then None
    else At(fs0, p)
  }

  /** A run that returned, and whose last deletions succeeded, has changed exactly its target and its upload. */
  lemma ReturnedRunDoesItsJob(w0: World, w: World, r: Request)
    requires Startable(w0, r.job) && SoloLedger(w0, w, r) && r.pc.Finished? && r.failure.None? && !r.past.litter
    ensures w.rows == CommitChanges(w0.rows, ChangeOf(w0.rows, r))
    ensures forall p :: At(w.fs, p) == Outcomes(w0.fs, r, p)
    ensures r.job.kind.PutObject? || r.job.kind.UploadPart? ==>
      r.past.payload == r.job.body && NewRow(r) == Row(|r.job.body|, ContentEtag(r.job.body))
    ensures r.job.kind.Complete? ==>
      PiecesAt(w0.fs, r.job, UploadPath(r.job.upload), r.past.pieces) && AssembledPayload(r)
  {
    var j := r.job;
    forall p ensures At(w.fs, p) == Outcomes(w0.fs, r, p) {
      if Reaches(j, p) {
        if Publishes(j.kind) {
          FreshPrivate(w0, j);
          OwnPathsDistinct(j);
        }
        if Ends(j.kind) { EndsApart(j, p); }
      }
    }
  }

  lemma EndsApart(j: Job, p: Path)
    requires Ends(j.kind)
    ensures CleanupDir(j) <= p ==> !(UploadPath(j.upload) <= p)
    ensures p == TargetPath(j) ==> !(UploadPath(j.upload) <= p) && !(CleanupDir(j) <= p)
  {
    if CleanupDir(j) <= p { assert p[1] == CleanupDir(j)[1]; }
    assert TargetPath(j)[0] == Plain("buckets");
  }
}
