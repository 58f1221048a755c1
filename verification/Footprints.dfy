/** What each step of a request does to the paths and rows it is responsible for.
    `Agrees` says that the target, the staged file, the backup and the target's row
    are as the request's own records have them; `EndingAgrees` says the same of the
    directory and rows of an upload that a request completes or aborts. */
module Footprints {
  import opened Text
  import opened Paths
  import opened Etags
  import opened FileSystems
  import opened Rows
  import opened PartLists
  import opened Requests
  import opened Shapes

  /** The request is the only one to write its target path and target row. */
  predicate OwnsTarget(r: Request) {
    HoldsOuter(r) && match r.job.kind
      case PutObject => true
      case UploadPart => r.flags.verified
      case Complete => r.flags.inner
      case _ => false
  }

  /** The request is the only one to write its staged and backup paths. */
  predicate OwnsPrivate(r: Request) {
    match r.job.kind
    case PutObject => true
    case Complete => true
    case UploadPart => r.flags.verified && HoldsOuter(r)
    case _ => false
  }

  /** The request is the only one to write below its upload's directory. */
  predicate OwnsUpload(r: Request) {
    match r.job.kind
    case Complete => r.flags.verified && HoldsOuter(r) && !r.flags.committed
    case Abort => r.flags.verified && HoldsOuter(r) && !r.flags.committed
    case Create => !r.flags.committed && !r.pc.Finished?
    case _ => false
  }

  /** The world is as the request left it, where only it writes. */
  ghost predicate TargetAgrees(w: World, r: Request) {
    OwnsTarget(r) ==>
      && At(w.fs, TargetPath(r.job)) == SlotContent(r)
      && TargetRow(w.rows, r.job) == if r.flags.committed then Some(NewRow(r)) else r.past.rowBefore
  }

  ghost predicate PrivateAgrees(fs: FileSystem, r: Request) {
    OwnsPrivate(r) ==> At(fs, StagedFile(r.job)) == StagedContent(r) && At(fs, BackupFile(r.job)) == BackupContent(r)
  }

  ghost predicate NothingAt(fs: FileSystem, top: Path) {
    forall p :: top <= p ==> p !in fs.files && p !in fs.dirs
  }

  /** The upload a request works on, its directory, and what becomes of them. */
  ghost predicate UploadAgrees(w: World, r: Request) {
    match r.job.kind
    case PutObject => true
    case UploadPart => OwnsTarget(r) ==> UploadKnown(w.rows, r.job)
    case Create => !r.flags.committed ==> r.job.upload !in w.rows.uploads && UploadPath(r.job.upload) !in w.fs.files
    case _ => EndingAgrees(w, r)
  }

  /** `MoveUpload` has been passed, with or without a directory to move. */
  predicate PastMove(r: Request) {
    r.past.displaced || (r.job.kind.Abort? && OnMainPath(r.pc) && AbortPos(r.pc) > 3)
  }

  ghost predicate EndingAgrees(w: World, r: Request) {
    var up, aside := UploadPath(r.job.upload), CleanupDir(r.job);
    && (OwnsUpload(r) ==> UploadKnown(w.rows, r.job) && up !in w.fs.files)
    && (OwnsUpload(r) && (r.pc.DropUpload? || r.pc.Commit?) ==> r.local.pending.dropParts == PartsOf(w.rows, r.job.upload))
    && (!r.past.displaced ==> NothingAt(w.fs, aside))
    && (r.past.displaced ==> aside !in w.fs.files)
    && (OwnsUpload(r) && r.past.displaced ==> aside in w.fs.dirs)
    && (OwnsUpload(r) && PastMove(r) ==> NothingAt(w.fs, up))
    && (r.flags.committed ==> NothingAt(w.fs, up) && r.job.upload !in w.rows.uploads)
  }

  /** The fresh names a request drew, and the id it issues. */
  function Tokens(j: Job): set<string> {
    match j.kind
    case PutObject => {j.staged, j.backup}
    case UploadPart => {j.staged, j.backup}
    case Complete => {j.staged, j.backup, j.cleanup}
    case Abort => {j.cleanup}
    case Create => {}
  }

  function IssuedId(j: Job): set<string> { if j.kind.Create? then {j.upload} else {} }

  ghost predicate ProperJob(j: Job) {
    && (j.kind.PutObject? ==> j.staged != j.backup)
    && (j.kind.Complete? ==> j.upload !in Tokens(j))
    && (j.kind.UploadPart? ==> 1 <= j.number <= PART_NUMBER_MAX)
  }

  lemma OwnPathsDistinct(j: Job)
    requires ProperJob(j) && (j.kind.PutObject? || j.kind.UploadPart? || j.kind.Complete?)
    ensures TargetPath(j) != StagedFile(j) && TargetPath(j) != BackupFile(j) && StagedFile(j) != BackupFile(j)
  {
    assert TargetPath(j)[0] == (if j.kind.UploadPart? then Plain("tmp") else Plain("buckets"));
    assert StagedFile(j)[0] == Plain("tmp") && BackupFile(j)[0] == Plain("tmp");
    if j.kind.UploadPart? {
      assert TargetPath(j)[2].PartFile? && StagedFile(j)[2].StagedPart? && BackupFile(j)[2].PartBackup?;
    } else {
      assert StagedFile(j)[1] == Plain(j.staged);
      assert BackupFile(j)[1] == (if j.kind.Complete? then ObjectBackup(j.backup) else Plain(j.backup));
    }
  }

  ghost predicate Agrees(w: World, r: Request) { TargetAgrees(w, r) && PrivateAgrees(w.fs, r) }

  predicate Publishes(k: Kind) { k.PutObject? || k.UploadPart? || k.Complete? }

  /** The step changed nothing its records say about its own paths, and gave no path to it. */
  ghost predicate SameRecords(r: Request, r': Request) {
    && r'.job == r.job && r'.flags.committed == r.flags.committed && (r.flags.committed ==> NewRow(r') == NewRow(r))
    && r'.past == r.past.(targetLost := r'.past.targetLost, uploadLost := r'.past.uploadLost,
         litter := r'.past.litter, displaced := r'.past.displaced)
    && (OwnsTarget(r') ==> OwnsTarget(r)) && (OwnsPrivate(r') ==> OwnsPrivate(r))
  }

  lemma SameRecordsAgree(w: World, r: Request, w': World, r': Request)
    requires Agrees(w, r) && SameRecords(r, r')
    requires At(w'.fs, TargetPath(r.job)) == At(w.fs, TargetPath(r.job))
    requires At(w'.fs, StagedFile(r.job)) == At(w.fs, StagedFile(r.job))
    requires At(w'.fs, BackupFile(r.job)) == At(w.fs, BackupFile(r.job))
    requires TargetRow(w'.rows, r.job) == TargetRow(w.rows, r.job)
    ensures Agrees(w', r')
  {
  }

  lemma StageAgrees(w: World, r: Request, data: Bytes, r': Request)
    requires Publishes(r.job.kind) && ProperJob(r.job) && Agrees(w, r)
    requires r' == r.(pc := r'.pc, local := r'.local, past := r.past.(stagedHere := true, payload := data, pieces := r'.past.pieces))
    requires !r.flags.committed && r.past.target.Before? && OwnsPrivate(r) && (OwnsTarget(r') ==> OwnsTarget(r))
    ensures Agrees(w.(fs := Perform(w.fs, Operation.Write(StagedFile(r.job), data))), r')
  {
    OwnPathsDistinct(r.job);
  }

  lemma BackupAgrees(w: World, r: Request, r': Request)
    requires Publishes(r.job.kind) && ProperJob(r.job) && Agrees(w, r) && OwnsTarget(r) && OwnsPrivate(r)
    requires r.past.target.Before? && r.past.before.Some? && !r.flags.committed
    requires r' == r.(pc := r'.pc, flags := r.flags.(backupCreated := true),
      past := r.past.(backupHere := true, target := if r.job.kind.UploadPart? then Gone else Before))
    ensures r.job.kind.UploadPart? ==> Agrees(w.(fs := Perform(w.fs, Move(TargetPath(r.job), BackupFile(r.job)))), r')
    ensures !r.job.kind.UploadPart? ==> Agrees(w.(fs := Perform(w.fs, Copy(TargetPath(r.job), BackupFile(r.job)))), r')
  {
    OwnPathsDistinct(r.job);
    assert At(w.fs, TargetPath(r.job)) == r.past.before;
  }

  lemma PublishAgrees(w: World, r: Request)
    requires Publishes(r.job.kind) && ProperJob(r.job) && Agrees(w, r) && r.pc.Publish? && OwnsTarget(r)
    requires r.past.stagedHere && !r.flags.committed
    ensures Agrees(w.(fs := Perform(w.fs, Move(StagedFile(r.job), TargetPath(r.job)))), AfterPublish(r))
  {
    OwnPathsDistinct(r.job);
  }

  lemma CommitAgrees(w: World, r: Request)
    requires Publishes(r.job.kind) && Agrees(w, r) && r.pc.Commit? && OwnsTarget(r) && Values(r)
    ensures Agrees(w.(rows := CommitChanges(w.rows, r.local.pending)), AfterCommit(r))
  {
  }

  lemma UndoAgrees(w: World, r: Request, op: Operation, r': Request)
    requires Publishes(r.job.kind) && ProperJob(r.job) && Agrees(w, r) && OwnsTarget(r) && !r.flags.committed
    requires UndoTodo(r.job, r.flags) == Disk(op) && Possible(w.fs, op)
    requires r.past.backupHere == r.flags.backupCreated
    requires r.flags.written && !r.flags.backupCreated ==> r.past.before.None?
    requires r' == AfterUndo(r.(pc := r'.pc), false, true) && OwnsTarget(r')
    ensures Agrees(w.(fs := Perform(w.fs, op)), r')
  {
    OwnPathsDistinct(r.job);
  }

  lemma DropBackupAgrees(w: World, r: Request, r': Request)
    requires Publishes(r.job.kind) && ProperJob(r.job) && Agrees(w, r)
    requires r' == AfterDroppingBackup(r.(pc := r'.pc), false, true)
    requires (OwnsTarget(r') ==> OwnsTarget(r)) && (OwnsPrivate(r') ==> OwnsPrivate(r))
    ensures Agrees(w.(fs := Perform(w.fs, Delete(BackupFile(r.job)))), r')
  {
    OwnPathsDistinct(r.job);
  }

  lemma DropStagedAgrees(w: World, r: Request, r': Request)
    requires Publishes(r.job.kind) && ProperJob(r.job) && Agrees(w, r)
    requires r' == AfterDropStaged(r.(pc := r'.pc), true)
    requires (OwnsTarget(r') ==> OwnsTarget(r)) && (OwnsPrivate(r') ==> OwnsPrivate(r))
    ensures Agrees(w.(fs := Perform(w.fs, Delete(StagedFile(r.job)))), r')
  {
    OwnPathsDistinct(r.job);
  }

  /** A part upload finds its fresh names unused when it starts to own them. */
  ghost predicate Undisturbed(fs: FileSystem, r: Request) {
    r.job.kind.UploadPart? && r.pc.LoadUpload? ==> At(fs, StagedFile(r.job)) == None && At(fs, BackupFile(r.job)) == None
  }

  ghost predicate OwnStepPre(w: World, r: Request) {
    && WellFormed(w.fs) && ProperJob(r.job) && Shape(r) && Values(r) && Agrees(w, r) && Undisturbed(w.fs, r)
  }

  lemma FirstLockAgrees(w: World, r: Request)
    requires OwnStepPre(w, r) && Publishes(r.job.kind) && (r.pc.Start? || r.pc.AwaitBucket?)
    ensures Agrees(w, Proceed(w, r, true))
  {
  }

  lemma FailingAgrees(w: World, r: Request, f: Failure)
    requires Agrees(w, r) && !r.flags.committed && Publishes(r.job.kind) && OnMainPath(r.pc) && !r.pc.Start? && !r.pc.AwaitBucket?
    ensures Agrees(w, Fail(r, f))
  {
  }

  predicate CheckingPc(pc: Pc) {
    pc.CheckUploadDir? || pc.LoadListed? || pc.CompareListed? || pc.CompareStored? || pc.MeasureStaged? || pc.CheckBucket?
  }

  predicate PreparingPc(pc: Pc) { pc.Measure? || pc.CheckKey? || pc.CheckTarget? }

  predicate RecordingPc(pc: Pc) { pc.Upsert? || pc.DropParts? || pc.DropUpload? }

  lemma CheckingKeepsRecords(w: World, r: Request)
    requires !r.flags.committed && Publishes(r.job.kind) && CheckingPc(r.pc)
    ensures SameRecords(r, Advance(w, r))
  {
  }

  lemma PreparingKeepsRecords(w: World, r: Request)
    requires !r.flags.committed && Publishes(r.job.kind) && PreparingPc(r.pc)
    ensures SameRecords(r, Advance(w, r))
  {
  }

  lemma RecordingKeepsRecords(w: World, r: Request)
    requires !r.flags.committed && Publishes(r.job.kind) && RecordingPc(r.pc)
    ensures SameRecords(r, Advance(w, r))
  {
  }

  lemma LoadUploadAgrees(w: World, r: Request)
    requires OwnStepPre(w, r) && Publishes(r.job.kind) && r.pc.LoadUpload?
    ensures Agrees(w, Advance(w, r))
  {
  }

  /** Neither a disk operation nor a commit took effect, not even in part. */
  predicate NoEffect(w: World, r: Request, o: Outcome) {
    if Succeeds(w.fs, r, o) then !TodoAt(w.fs, r).Disk? && !r.pc.Commit?
    else !(TodoAt(w.fs, r).Disk? && TodoAt(w.fs, r).op.RemoveTree? && o.Fault?)
  }

  /** What a step comes to once the primitive has answered. */
  lemma StepByAnswer(w: World, r: Request, o: Outcome)
    ensures TodoAt(w.fs, r).Disk? && Succeeds(w.fs, r, o) ==>
      Step(w, r, o) == (w.(fs := Perform(w.fs, TodoAt(w.fs, r).op)), if OnMainPath(r.pc) then Advance(w, r) else Recover(r, false, true))
    ensures r.pc.Commit? && Succeeds(w.fs, r, o) ==>
      Step(w, r, o) == (w.(rows := CommitChanges(w.rows, r.local.pending)), Advance(w, r))
    ensures NoEffect(w, r, o) ==>
      Step(w, r, o) == (w, if OnMainPath(r.pc) then Proceed(w, r, Succeeds(w.fs, r, o)) else Recover(r, TodoAt(w.fs, r).Idle?, Succeeds(w.fs, r, o)))
  {
  }

  lemma UploadTreeApart(fs: FileSystem, j: Job, op: Operation)
    requires WellFormed(fs) && Possible(fs, op) && ProperJob(j)
    requires j.kind.Complete?
    requires op == MoveTree(UploadPath(j.upload), CleanupDir(j)) || op == MoveTree(CleanupDir(j), UploadPath(j.upload)) || op == RemoveTree(CleanupDir(j))
    ensures At(Perform(fs, op), TargetPath(j)) == At(fs, TargetPath(j))
    ensures At(Perform(fs, op), StagedFile(j)) == At(fs, StagedFile(j))
    ensures At(Perform(fs, op), BackupFile(j)) == At(fs, BackupFile(j))
  {
    var t, s, b := TargetPath(j), StagedFile(j), BackupFile(j);
    assert t[0] == Plain("buckets") && s[1] == Plain(j.staged) && b[1] == ObjectBackup(j.backup);
    assert !Touches(fs, op, t) && !Touches(fs, op, s) && !Touches(fs, op, b);
    UntouchedStays(fs, op, t);
    UntouchedStays(fs, op, s);
    UntouchedStays(fs, op, b);
  }

  lemma PruningApart(fs: FileSystem, j: Job, gone: set<Path>)
    requires j.kind.Complete? && ProperJob(j)
    ensures At(Prune(fs, CleanupDir(j), gone), StagedFile(j)) == At(fs, StagedFile(j))
    ensures At(Prune(fs, CleanupDir(j), gone), BackupFile(j)) == At(fs, BackupFile(j))
  {
  }

  lemma PerformedAgrees(w: World, r: Request, op: Operation)
    requires OwnStepPre(w, r) && Publishes(r.job.kind) && OnMainPath(r.pc)
    requires TodoAt(w.fs, r) == Disk(op) && Possible(w.fs, op)
    ensures Agrees(w.(fs := Perform(w.fs, op)), Advance(w, r))
  {
    match r.pc
    case Stage => StageAgrees(w, r, r.job.body, Advance(w, r));
    case Assemble => StageAgrees(w, r, op.data, Advance(w, r));
    case Backup => BackupAgrees(w, r, Advance(w, r));
    case Publish => PublishAgrees(w, r);
    case MoveUpload => UploadTreeApart(w.fs, r.job, op);
    case MakeDirs =>
  }

  lemma QuietForwardAgrees(w: World, r: Request)
    requires Agrees(w, r) && !r.flags.committed && Publishes(r.job.kind) && (CheckingPc(r.pc) || RecordingPc(r.pc) || PreparingPc(r.pc))
    ensures Agrees(w, Advance(w, r))
  {
    if CheckingPc(r.pc) {
      CheckingKeepsRecords(w, r);
    } else if RecordingPc(r.pc) {
      RecordingKeepsRecords(w, r);
    } else {
      PreparingKeepsRecords(w, r);
    }
    SameRecordsAgree(w, r, w, Advance(w, r));
  }

  lemma LockedForwardAgrees(w: World, r: Request, o: Outcome)
    requires OwnStepPre(w, r) && Publishes(r.job.kind) && (r.pc.Start? || r.pc.AwaitBucket?)
    ensures Agrees(WorldAfter(w, r, o), RequestAfter(w, r, o))
  {
    StepByAnswer(w, r, o);
    FirstLockAgrees(w, r);
  }

  lemma FailedForwardAgrees(w: World, r: Request, o: Outcome)
    requires OwnStepPre(w, r) && Publishes(r.job.kind) && OnMainPath(r.pc)
    requires !r.pc.Start? && !r.pc.AwaitBucket? && !Succeeds(w.fs, r, o)
    ensures Agrees(WorldAfter(w, r, o), RequestAfter(w, r, o))
  {
    StepByAnswer(w, r, o);
    FailingAgrees(w, r, if Blocked(w.fs, r) then KeyConflict else Failure.Raised);
  }

  lemma DoneForwardAgrees(w: World, r: Request, o: Outcome)
    requires OwnStepPre(w, r) && Publishes(r.job.kind) && OnMainPath(r.pc) && !r.pc.Start? && !r.pc.AwaitBucket?
    requires Succeeds(w.fs, r, o) && (TodoAt(w.fs, r).Disk? || r.pc.Commit?)
    ensures Agrees(WorldAfter(w, r, o), RequestAfter(w, r, o))
  {
    StepByAnswer(w, r, o);
    if TodoAt(w.fs, r).Disk? {
      PerformedAgrees(w, r, TodoAt(w.fs, r).op);
    } else {
      CommitAgrees(w, r);
    }
  }

  lemma ForwardAgrees(w: World, r: Request, o: Outcome)
    requires OwnStepPre(w, r) && Publishes(r.job.kind) && OnMainPath(r.pc)
    ensures Agrees(WorldAfter(w, r, o), RequestAfter(w, r, o))
  {
    if r.pc.Start? || r.pc.AwaitBucket? {
      LockedForwardAgrees(w, r, o);
    } else if !Succeeds(w.fs, r, o) {
      FailedForwardAgrees(w, r, o);
    } else if TodoAt(w.fs, r).Disk? || r.pc.Commit? {
      DoneForwardAgrees(w, r, o);
    } else {
      StepByAnswer(w, r, o);
      if r.pc.LoadUpload? {
        LoadUploadAgrees(w, r);
      } else {
        QuietForwardAgrees(w, r);
      }
    }
  }

  lemma UnlockKeepsRecords(r: Request, idle: bool, ok: bool)
    requires Publishes(r.job.kind) && (r.pc.Rollback? || r.pc.UnlockInner? || r.pc.UnlockOuter? || r.pc.Finished?)
    ensures SameRecords(r, Recover(r, idle, ok))
  {
  }

  lemma FailedUndoKeepsRecords(r: Request, idle: bool, ok: bool)
    requires Publishes(r.job.kind) && (r.pc.Undo?)
    requires idle || !ok
    ensures SameRecords(r, Recover(r, idle, ok))
  {
  }

  lemma FailedDropKeepsRecords(r: Request, idle: bool, ok: bool)
    requires Publishes(r.job.kind) && r.pc.DropBackup?
    requires idle || !ok
    ensures SameRecords(r, Recover(r, idle, ok))
  {
  }

  lemma FailedLockedTidyKeepsRecords(r: Request, idle: bool, ok: bool)
    requires Publishes(r.job.kind) && r.pc.TidyLocked?
    requires idle || !ok
    ensures SameRecords(r, Recover(r, idle, ok))
  {
  }

  lemma FailedTidyKeepsRecords(r: Request, idle: bool, ok: bool)
    requires Publishes(r.job.kind) && r.pc.Tidy?
    requires idle || !ok
    ensures SameRecords(r, Recover(r, idle, ok))
  {
  }

  lemma RestoreUploadKeepsRecords(r: Request, idle: bool, ok: bool)
    requires r.pc.RestoreUpload?
    ensures SameRecords(r, Recover(r, idle, ok))
  {
    assert Recover(r, idle, ok) == AfterRestoreUpload(Go(r, if r.job.kind.Complete? then DropStaged else UnlockOuter), ok);
  }

  lemma TidyUploadKeepsRecords(r: Request, idle: bool, ok: bool)
    requires r.pc.TidyUpload?
    ensures SameRecords(r, Recover(r, idle, ok))
  {
    assert Recover(r, idle, ok) == AfterTidyUpload(Go(r, Pc.Finished), idle, ok);
  }

  lemma FailedStagedDropKeepsRecords(r: Request, idle: bool, ok: bool)
    requires Publishes(r.job.kind) && (r.pc.DropStaged?)
    requires !ok
    ensures SameRecords(r, Recover(r, idle, ok))
  {
  }

  lemma IdleKeepsRecords(r: Request, idle: bool, ok: bool)
    requires Publishes(r.job.kind) && !OnMainPath(r.pc)
    requires idle || !ok
    requires r.pc.DropStaged? ==> !ok
    ensures SameRecords(r, Recover(r, idle, ok))
  {
    match r.pc
    case Undo => FailedUndoKeepsRecords(r, idle, ok);
    case DropStaged => FailedStagedDropKeepsRecords(r, idle, ok);
    case RestoreUpload => RestoreUploadKeepsRecords(r, idle, ok);
    case TidyUpload => TidyUploadKeepsRecords(r, idle, ok);
    case DropBackup => FailedDropKeepsRecords(r, idle, ok);
    case TidyLocked => FailedLockedTidyKeepsRecords(r, idle, ok);
    case Tidy => FailedTidyKeepsRecords(r, idle, ok);
    case _ => UnlockKeepsRecords(r, idle, ok);
  }

  lemma UndoneAgrees(w: World, r: Request, op: Operation)
    requires OwnStepPre(w, r) && Publishes(r.job.kind) && r.pc.Undo?
    requires TodoAt(w.fs, r) == Disk(op) && Possible(w.fs, op)
    ensures Agrees(w.(fs := Perform(w.fs, op)), Recover(r, false, true))
  {
    UndoAgrees(w, r, op, Recover(r, false, true));
  }

  lemma DroppedAgrees(w: World, r: Request, op: Operation)
    requires Agrees(w, r) && ProperJob(r.job) && Publishes(r.job.kind)
    requires r.pc.DropBackup? || r.pc.TidyLocked? || r.pc.Tidy? || r.pc.DropStaged?
    requires TodoAt(w.fs, r) == Disk(op) && Possible(w.fs, op)
    ensures Agrees(w.(fs := Perform(w.fs, op)), Recover(r, false, true))
  {
    if r.pc.DropStaged? {
      DropStagedAgrees(w, r, Recover(r, false, true));
    } else {
      DropBackupAgrees(w, r, Recover(r, false, true));
    }
  }

  lemma TreeRestoredAgrees(w: World, r: Request, op: Operation)
    requires OwnStepPre(w, r) && Publishes(r.job.kind) && (r.pc.RestoreUpload? || r.pc.TidyUpload?)
    requires TodoAt(w.fs, r) == Disk(op) && Possible(w.fs, op)
    ensures Agrees(w.(fs := Perform(w.fs, op)), Recover(r, false, true))
  {
    if r.pc.RestoreUpload? { RestoreUploadKeepsRecords(r, false, true); } else { TidyUploadKeepsRecords(r, false, true); }
    UploadTreeApart(w.fs, r.job, op);
    SameRecordsAgree(w, r, w.(fs := Perform(w.fs, op)), Recover(r, false, true));
  }

  lemma BackwardAgrees(w: World, r: Request, o: Outcome)
    requires OwnStepPre(w, r) && Publishes(r.job.kind) && !OnMainPath(r.pc)
    ensures Agrees(WorldAfter(w, r, o), RequestAfter(w, r, o))
  {
    StepByAnswer(w, r, o);
    var todo, ok := TodoAt(w.fs, r), Succeeds(w.fs, r, o);
    if todo.Disk? && ok {
      if r.pc.Undo? {
        UndoneAgrees(w, r, todo.op);
      } else if r.pc.RestoreUpload? || r.pc.TidyUpload? {
        TreeRestoredAgrees(w, r, todo.op);
      } else {
        DroppedAgrees(w, r, todo.op);
      }
    } else {
      IdleKeepsRecords(r, todo.Idle?, ok);
      if todo.Disk? && todo.op.RemoveTree? && o.Fault? {
        PruningApart(w.fs, r.job, o.gone);
      }
    }
  }

  /** A request's own step leaves its target, staged and backup paths, and its row, as its records say. */
  lemma OwnStepAgrees(w: World, r: Request, o: Outcome)
    requires OwnStepPre(w, r)
    ensures Agrees(WorldAfter(w, r, o), RequestAfter(w, r, o))
  {
    if Publishes(r.job.kind) {
      if OnMainPath(r.pc) {
        ForwardAgrees(w, r, o);
      } else {
        BackwardAgrees(w, r, o);
      }
    }
  }

  // ---------- the upload's directory and rows ----------

  lemma RegionKept(fs: FileSystem, op: Operation, top: Path)
    requires WellFormed(fs) && Possible(fs, op)
    requires forall p :: top <= p ==> !Touches(fs, op, p)
    ensures NothingAt(fs, top) ==> NothingAt(Perform(fs, op), top)
    ensures SameAt(fs, Perform(fs, op), top)
  {
    forall p | top <= p ensures SameAt(fs, Perform(fs, op), p) {
      UntouchedStays(fs, op, p);
    }
    if NothingAt(fs, top) {
      forall p | top <= p ensures p !in Perform(fs, op).files && p !in Perform(fs, op).dirs {
        assert SameAt(fs, Perform(fs, op), p);
      }
    }
  }

  predicate IsTreeOp(op: Operation) { op.MoveTree? || op.RemoveTree? }

  lemma PublishingSparesUpload(fs: FileSystem, r: Request, op: Operation, p: Path)
    requires r.job.kind.Complete? && TodoAt(fs, r) == Disk(op) && !IsTreeOp(op)
    requires ProperJob(r.job)
    requires UploadPath(r.job.upload) <= p || CleanupDir(r.job) <= p
    ensures !Touches(fs, op, p)
  {
    var j := r.job;
    assert p[0] == Plain("tmp") && (p[1] == Plain(j.upload) || p[1] == CompletedDir(j.upload, j.cleanup));
    assert TargetPath(j)[0] == Plain("buckets") && StagedFile(j)[1] == Plain(j.staged) && BackupFile(j)[1] == ObjectBackup(j.backup);
  }

  lemma MoveAsideEffect(fs: FileSystem, s: Path, d: Path)
    requires WellFormed(fs) && Possible(fs, MoveTree(s, d)) && !(d <= s)
    ensures NothingAt(Perform(fs, MoveTree(s, d)), s)
    ensures d in Perform(fs, MoveTree(s, d)).dirs && d !in Perform(fs, MoveTree(s, d)).files
  {
    var fs' := Perform(fs, MoveTree(s, d));
    forall p | s <= p ensures p !in fs'.files && p !in fs'.dirs {
      MoveTreeAt(fs, s, d, p);
      if d <= p { OneIsInside(s, d, p); }
    }
    MoveTreeAt(fs, s, d, d);
    assert Origin(d, s, d) == s;
    MoveTreeKeepsWellFormed(fs, s, d);
  }

  lemma OneIsInside(a: Path, b: Path, p: Path)
    requires a <= p && b <= p
    ensures a <= b || b <= a
  {
  }

  lemma UploadAndAsideApart(j: Job)
    ensures !(UploadPath(j.upload) <= CleanupDir(j)) && !(CleanupDir(j) <= UploadPath(j.upload))
  {
    assert UploadPath(j.upload)[1] == Plain(j.upload) && (CleanupDir(j)[1].CompletedDir? || CleanupDir(j)[1].AbortedDir?);
  }

  lemma TopOfEntry(fs: FileSystem, top: Path, p: Path)
    requires WellFormed(fs)
    ensures top <= p && (p in fs.files || p in fs.dirs) ==> top in fs.files || top in fs.dirs
  {
    PrefixCases(top, p);
    if top < p && (p in fs.files || p in fs.dirs) {
      PrefixOfEntry(fs, p, |top|);
      assert p[..|top|] == top;
    }
  }

  lemma MissingTopIsEmpty(fs: FileSystem, top: Path)
    requires WellFormed(fs)
    ensures top !in fs.dirs && top !in fs.files ==> NothingAt(fs, top)
  {
    forall p ensures top <= p && (p in fs.files || p in fs.dirs) ==> top in fs.files || top in fs.dirs {
      TopOfEntry(fs, top, p);
    }
  }

  lemma RemovedTreeIsGone(fs: FileSystem, top: Path)
    requires WellFormed(fs) && Possible(fs, RemoveTree(top)) && top !in fs.files
    ensures NothingAt(Perform(fs, RemoveTree(top)), top)
  {
    if top in fs.dirs {
      forall p | top <= p ensures p !in Perform(fs, RemoveTree(top)).files && p !in Perform(fs, RemoveTree(top)).dirs {
        PrefixCases(top, p);
      }
    } else {
      MissingTopIsEmpty(fs, top);
    }
  }

  predicate Ends(k: Kind) { k.Complete? || k.Abort? }

  ghost predicate EndingPre(w: World, r: Request) {
    && Ends(r.job.kind) && ProperJob(r.job) && WellFormed(w.fs) && Shape(r) && EndingAgrees(w, r)
    && (r.pc.LoadUpload? && UploadKnown(w.rows, r.job) ==> UploadPath(r.job.upload) !in w.fs.files)
  }

  /** The facts about the upload speak of these fields only. */
  lemma EndingUnmoved(w: World, r: Request, w': World, r': Request)
    requires Ends(r.job.kind) && EndingAgrees(w, r) && r'.job == r.job
    requires SameAt(w.fs, w'.fs, UploadPath(r.job.upload)) && SameAt(w.fs, w'.fs, CleanupDir(r.job))
    requires NothingAt(w.fs, UploadPath(r.job.upload)) ==> NothingAt(w'.fs, UploadPath(r.job.upload))
    requires NothingAt(w.fs, CleanupDir(r.job)) ==> NothingAt(w'.fs, CleanupDir(r.job))
    requires w'.rows == w.rows
    requires r'.past.displaced == r.past.displaced && r'.flags.committed == r.flags.committed
    requires (OwnsUpload(r') ==> OwnsUpload(r)) && (OwnsUpload(r') && PastMove(r') ==> PastMove(r))
    requires OwnsUpload(r') && (r'.pc.DropUpload? || r'.pc.Commit?) ==> (r.pc.DropUpload? || r.pc.Commit?) && r'.local.pending.dropParts == r.local.pending.dropParts
    ensures EndingAgrees(w', r')
  {
  }

  lemma EndingQuiet(w: World, r: Request)
    requires EndingPre(w, r) && OnMainPath(r.pc) && !r.pc.MoveUpload? && !r.pc.Commit?
    ensures EndingAgrees(w, Advance(w, r))
  {
    match r.pc
    case Start =>
    case AwaitBucket =>
    case CheckUploadDir => MissingTopIsEmpty(w.fs, UploadPath(r.job.upload));
    case LoadUpload =>
    case LoadListed =>
    case CompareListed =>
    case Assemble =>
    case CompareStored =>
    case MeasureStaged =>
    case CheckBucket =>
    case CheckKey =>
    case CheckTarget =>
    case Backup =>
    case Upsert =>
    case Publish =>
    case DropUpload =>
    case _ =>
  }

  lemma EndingMoved(w: World, r: Request)
    requires EndingPre(w, r) && r.pc.MoveUpload?
    requires Possible(w.fs, MoveTree(UploadPath(r.job.upload), CleanupDir(r.job)))
    ensures EndingAgrees(w.(fs := Perform(w.fs, MoveTree(UploadPath(r.job.upload), CleanupDir(r.job)))), Advance(w, r))
  {
    UploadAndAsideApart(r.job);
    MoveAsideEffect(w.fs, UploadPath(r.job.upload), CleanupDir(r.job));
  }

  lemma EndingCommitted(w: World, r: Request)
    requires EndingPre(w, r) && Values(r) && r.pc.Commit?
    ensures EndingAgrees(w.(rows := CommitChanges(w.rows, r.local.pending)), Advance(w, r))
  {
  }

  lemma EndingRestored(w: World, r: Request)
    requires EndingPre(w, r) && r.pc.RestoreUpload? && r.flags.moved
    requires Possible(w.fs, MoveTree(CleanupDir(r.job), UploadPath(r.job.upload)))
    ensures EndingAgrees(w.(fs := Perform(w.fs, MoveTree(CleanupDir(r.job), UploadPath(r.job.upload)))), Recover(r, false, true))
  {
    UploadAndAsideApart(r.job);
    MoveAsideEffect(w.fs, CleanupDir(r.job), UploadPath(r.job.upload));
  }

  lemma EndingTidied(w: World, r: Request)
    requires EndingPre(w, r) && r.pc.TidyUpload? && r.flags.moved
    requires Possible(w.fs, RemoveTree(CleanupDir(r.job)))
    ensures EndingAgrees(w.(fs := Perform(w.fs, RemoveTree(CleanupDir(r.job)))), Recover(r, false, true))
  {
    UploadAndAsideApart(r.job);
    var up, aside := UploadPath(r.job.upload), CleanupDir(r.job);
    assert up[1] != aside[1];
    RegionKept(w.fs, RemoveTree(aside), up);
    RemovedTreeIsGone(w.fs, aside);
  }

  lemma EndingPruned(w: World, r: Request, gone: set<Path>)
    requires EndingPre(w, r) && r.pc.TidyUpload? && r.flags.moved
    ensures EndingAgrees(w.(fs := Prune(w.fs, CleanupDir(r.job), gone)), Recover(r, false, false))
  {
  }

  lemma EndingPublished(w: World, r: Request, op: Operation)
    requires EndingPre(w, r) && TodoAt(w.fs, r) == Disk(op) && Possible(w.fs, op) && !IsTreeOp(op)
    ensures SameAt(w.fs, Perform(w.fs, op), UploadPath(r.job.upload)) && SameAt(w.fs, Perform(w.fs, op), CleanupDir(r.job))
    ensures NothingAt(w.fs, UploadPath(r.job.upload)) ==> NothingAt(Perform(w.fs, op), UploadPath(r.job.upload))
    ensures NothingAt(w.fs, CleanupDir(r.job)) ==> NothingAt(Perform(w.fs, op), CleanupDir(r.job))
  {
    forall p | UploadPath(r.job.upload) <= p || CleanupDir(r.job) <= p ensures !Touches(w.fs, op, p) {
      PublishingSparesUpload(w.fs, r, op, p);
    }
    RegionKept(w.fs, op, UploadPath(r.job.upload));
    RegionKept(w.fs, op, CleanupDir(r.job));
  }

  /** What the request says about its upload, where nothing of it changes. */
  ghost predicate SameEnding(r: Request, r': Request) {
    && r'.job == r.job && r'.past.displaced == r.past.displaced && r'.flags.committed == r.flags.committed
    && (OwnsUpload(r') ==> OwnsUpload(r)) && (OwnsUpload(r') && PastMove(r') ==> PastMove(r))
    && (OwnsUpload(r') && (r'.pc.DropUpload? || r'.pc.Commit?) ==>
          (r.pc.DropUpload? || r.pc.Commit?) && r'.local.pending.dropParts == r.local.pending.dropParts)
  }

  lemma EndingFails(r: Request, f: Failure)
    requires Ends(r.job.kind) && Shape(r) && OnMainPath(r.pc)
    ensures SameEnding(r, Fail(r, f))
  {
  }

  lemma PublishingKeepsEnding(w: World, r: Request)
    requires r.job.kind.Complete? && Shape(r) && OnMainPath(r.pc)
    requires r.pc.Assemble? || r.pc.MakeDirs? || r.pc.Backup? || r.pc.Publish?
    ensures SameEnding(r, Advance(w, r))
  {
  }

  lemma FirstLockKeepsEnding(w: World, r: Request)
    requires Ends(r.job.kind) && Shape(r) && (r.pc.Start? || r.pc.AwaitBucket?)
    ensures SameEnding(r, Proceed(w, r, true))
  {
  }

  lemma RecoverKeepsEnding(r: Request, idle: bool, ok: bool)
    requires Ends(r.job.kind) && Shape(r) && !OnMainPath(r.pc)
    requires r.pc.RestoreUpload? || r.pc.TidyUpload? ==> idle || !ok
    requires r.pc.RestoreUpload? ==> !r.flags.moved || !ok
    ensures SameEnding(r, Recover(r, idle, ok))
  {
  }

  lemma EndingPublishing(w: World, r: Request, op: Operation)
    requires EndingPre(w, r) && OnMainPath(r.pc) && TodoAt(w.fs, r) == Disk(op) && Possible(w.fs, op) && !IsTreeOp(op)
    ensures EndingAgrees(w.(fs := Perform(w.fs, op)), Advance(w, r))
  {
    EndingPublished(w, r, op);
    PublishingKeepsEnding(w, r);
    EndingUnmoved(w, r, w.(fs := Perform(w.fs, op)), Advance(w, r));
  }

  lemma EndingRecovering(w: World, r: Request, op: Operation)
    requires EndingPre(w, r) && !OnMainPath(r.pc) && TodoAt(w.fs, r) == Disk(op) && Possible(w.fs, op) && !IsTreeOp(op)
    ensures EndingAgrees(w.(fs := Perform(w.fs, op)), Recover(r, false, true))
  {
    EndingPublished(w, r, op);
    RecoverKeepsEnding(r, false, true);
    EndingUnmoved(w, r, w.(fs := Perform(w.fs, op)), Recover(r, false, true));
  }

  lemma EndingOnDisk(w: World, r: Request, op: Operation)
    requires EndingPre(w, r) && TodoAt(w.fs, r) == Disk(op) && Possible(w.fs, op)
    ensures EndingAgrees(w.(fs := Perform(w.fs, op)), if OnMainPath(r.pc) then Advance(w, r) else Recover(r, false, true))
  {
    if r.pc.MoveUpload? {
      EndingMoved(w, r);
    } else if r.pc.RestoreUpload? {
      EndingRestored(w, r);
    } else if r.pc.TidyUpload? {
      EndingTidied(w, r);
    } else if OnMainPath(r.pc) {
      EndingPublishing(w, r, op);
    } else {
      EndingRecovering(w, r, op);
    }
  }

  lemma EndingOffDisk(w: World, r: Request, ok: bool)
    requires EndingPre(w, r) && Values(r)
    requires ok ==> !TodoAt(w.fs, r).Disk? && !r.pc.Commit?
    ensures EndingAgrees(w, if OnMainPath(r.pc) then Proceed(w, r, ok) else Recover(r, TodoAt(w.fs, r).Idle?, ok))
  {
    if !OnMainPath(r.pc) {
      RecoverKeepsEnding(r, TodoAt(w.fs, r).Idle?, ok);
      EndingUnmoved(w, r, w, Recover(r, TodoAt(w.fs, r).Idle?, ok));
    } else if r.pc.Start? || r.pc.AwaitBucket? {
      FirstLockKeepsEnding(w, r);
      EndingUnmoved(w, r, w, Proceed(w, r, true));
    } else if ok {
      EndingQuiet(w, r);
    } else {
      EndingFails(r, Failure.Raised);
      EndingFails(r, KeyConflict);
      EndingUnmoved(w, r, w, Proceed(w, r, false));
    }
  }

  /** Completing and aborting leave the upload's directory and rows as their records say. */
  lemma OwnEndingAgrees(w: World, r: Request, o: Outcome)
    requires EndingPre(w, r) && Values(r)
    ensures EndingAgrees(WorldAfter(w, r, o), RequestAfter(w, r, o))
  {
    StepByAnswer(w, r, o);
    var todo, ok := TodoAt(w.fs, r), Succeeds(w.fs, r, o);
    if todo.Disk? && ok {
      EndingOnDisk(w, r, todo.op);
    } else if todo.Disk? && todo.op.RemoveTree? && o.Fault? {
      EndingPruned(w, r, o.gone);
    } else if r.pc.Commit? && ok {
      EndingCommitted(w, r);
    } else {
      EndingOffDisk(w, r, ok);
    }
  }
}
