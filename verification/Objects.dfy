/** Object rows and object files: they agree unless a compensation failed, and even
    then the bytes of each committed object are still on disk. */
module Objects {
  import opened Text
  import opened Paths
  import opened Etags
  import opened FileSystems
  import opened Rows
  import opened PartLists
  import opened Requests
  import opened Shapes
  import opened Footprints
  import opened Ownership
  import opened Separation
  import opened Records
  import opened Server

  // ---------- a row describes bytes ----------

  ghost predicate Assembles(row: Row, data: Bytes, pieces: seq<Bytes>) {
    Flatten(pieces) == data && ConstructEtag(ContentEtags(pieces)) == Some(row.etag)
  }

  /** Size and ETag are those of the bytes, stored in one piece or assembled from parts. */
  ghost predicate Describes(row: Row, data: Bytes) {
    row.size == |data| && (row.etag == ContentEtag(data) || exists pieces :: Assembles(row, data, pieces))
  }

  ghost predicate Fits(row: Option<Row>, data: Option<Bytes>) {
    match (row, data)
    case (None, None) => true
    case (Some(r), Some(b)) => Describes(r, b)
    case _ => false
  }

  lemma NewRowDescribes(r: Request)
    requires Shape(r) && Values(r) && Publishes(r.job.kind) && (r.flags.committed || r.pc.Commit?)
    ensures Describes(NewRow(r), r.past.payload)
  {
    if r.job.kind.Complete? { assert Assembles(NewRow(r), r.past.payload, r.past.pieces); }
  }

  // ---------- what a step does to one object ----------

  predicate OnObject(r: Request, id: ObjectId) {
    (r.job.kind.PutObject? || r.job.kind.Complete?) && TargetObject(r.job) == id
  }

  function PathOf(id: ObjectId): Path { ObjectPath(id.bucket, id.key) }

  lemma OwnerIsOn(r: Request, id: ObjectId)
    ensures OwnsObject(r, id) <==> OwnsTarget(r) && OnObject(r, id)
    ensures OnObject(r, id) ==> TargetPath(r.job) == PathOf(id)
    ensures !r.job.kind.UploadPart? && TargetPath(r.job) == PathOf(id) ==> TargetObject(r.job) == id
  {
    if !r.job.kind.UploadPart? && TargetPath(r.job) == PathOf(id) {
      ObjectPathInjective(r.job.bucket, r.job.key, id.bucket, id.key);
    }
  }

  /** In the buckets directory a step changes no file but its target. */
  lemma OnlyTheTarget(w: World, r: Request, o: Outcome, p: Path)
    requires Mounted(w.fs) && Shape(r) && BUCKETS_DIR <= p && (p != TargetPath(r.job) || !OwnsTarget(r))
    ensures At(WorldAfter(w, r, o).fs, p) == At(w.fs, p)
  {
    StepByAnswer(w, r, o);
    var todo := TodoAt(w.fs, r);
    assert p[0] == Plain("buckets");
    if todo.Disk? && Succeeds(w.fs, r, o) {
      OtherFilesUntouched(w.fs, r, todo.op, p);
    } else if todo.Disk? && todo.op.RemoveTree? && o.Fault? {
      UnprunedStays(w.fs, todo.op.path, o.gone, p);
    }
  }

  lemma OtherFilesUntouched(fs: FileSystem, r: Request, op: Operation, p: Path)
    requires Mounted(fs) && Shape(r) && TodoAt(fs, r) == Disk(op) && Possible(fs, op)
    requires p != [] && p[0] == Plain("buckets") && (p != TargetPath(r.job) || !OwnsTarget(r))
    ensures At(Perform(fs, op), p) == At(fs, p)
  {
    NamesInTmp(r.job);
    if !op.MakeTree? {
      if Touches(fs, op, p) {
        TouchedTargetIsOwned(fs, r, op, p);
      } else {
        UntouchedStays(fs, op, p);
      }
    }
  }

  /** Everything a request names but an object's own path is below the tmp directory. */
  lemma NamesInTmp(j: Job)
    ensures StagedFile(j)[0] == Plain("tmp") && BackupFile(j)[0] == Plain("tmp")
    ensures UploadPath(j.upload)[0] == Plain("tmp") && CleanupDir(j)[0] == Plain("tmp")
    ensures j.kind.UploadPart? ==> TargetPath(j)[0] == Plain("tmp")
  {
  }

  lemma TouchedTargetIsOwned(fs: FileSystem, r: Request, op: Operation, p: Path)
    requires Shape(r) && TodoAt(fs, r) == Disk(op) && !op.MakeTree?
    requires p != [] && p[0] == Plain("buckets") && Touches(fs, op, p)
    ensures p == TargetPath(r.job) && OwnsTarget(r)
  {
  }

  lemma OtherObjectsStay(w: World, r: Request, o: Outcome, id: ObjectId)
    requires Mounted(w.fs) && Recorded(w, r) && !OwnsObject(r, id)
    ensures At(WorldAfter(w, r, o).fs, PathOf(id)) == At(w.fs, PathOf(id))
    ensures ObjectRow(WorldAfter(w, r, o).rows, id) == ObjectRow(w.rows, id)
  {
    DropsRecorded(w, r);
    RowsStayInside(w, r, o);
    OwnerIsOn(r, id);
    assert BUCKETS_DIR <= PathOf(id);
    NamesInTmp(r.job);
    assert PathOf(id)[0] == Plain("buckets");
    OnlyTheTarget(w, r, o, PathOf(id));
  }

  // ---------- how ownership of the target comes and goes ----------

  /** A request that comes to own its object has just read its file and row. */
  lemma Grabbing(w: World, r: Request, o: Outcome, id: ObjectId)
    requires Shape(r) && !OwnsObject(r, id) && OwnsObject(RequestAfter(w, r, o), id)
    ensures WorldAfter(w, r, o) == w && OnObject(r, id)
    ensures RequestAfter(w, r, o).past.before == At(w.fs, PathOf(id)) && RequestAfter(w, r, o).past.rowBefore == ObjectRow(w.rows, id)
    ensures RequestAfter(w, r, o).past.target.Before? && r.past.targetLost == RequestAfter(w, r, o).past.targetLost
    ensures !RequestAfter(w, r, o).flags.committed
  {
    SameJob(w, r, o);
    OwnsAfter(w, r, o);
  }

  lemma FailingOwns(r: Request, f: Failure)
    requires OnMainPath(r.pc) && !r.pc.Start?
    ensures OwnsTarget(Fail(r, f)) == OwnsTarget(r)
  {
  }

  lemma OwnsAfter(w: World, r: Request, o: Outcome)
    requires Shape(r) && !r.job.kind.UploadPart?
    ensures !OwnsTarget(r) && OwnsTarget(RequestAfter(w, r, o)) ==> (r.pc.Start? && r.job.kind.PutObject?) || r.pc.AwaitBucket?
    ensures OwnsTarget(r) && !OwnsTarget(RequestAfter(w, r, o)) ==> r.pc.UnlockInner? || r.pc.UnlockOuter?
  {
    var ok := Succeeds(w.fs, r, o);
    if !OnMainPath(r.pc) {
      RecoverOwns(r, TodoAt(w.fs, r).Idle?, ok);
    } else if r.pc.Start? || r.pc.AwaitBucket? {
    } else if ok {
      AdvanceOwns(w, r);
    } else {
      FailingOwns(r, if Blocked(w.fs, r) then KeyConflict else Failure.Raised);
    }
  }

  lemma AdvanceOwns(w: World, r: Request)
    requires OnMainPath(r.pc) && Shape(r) && !r.job.kind.UploadPart? && !r.pc.Start? && !r.pc.AwaitBucket?
    ensures OwnsTarget(r) == OwnsTarget(Advance(w, r))
  {
  }

  lemma RecoverOwns(r: Request, idle: bool, ok: bool)
    requires !OnMainPath(r.pc) && Shape(r) && !r.job.kind.UploadPart?
    ensures OwnsTarget(Recover(r, idle, ok)) ==> OwnsTarget(r)
    ensures OwnsTarget(r) && !OwnsTarget(Recover(r, idle, ok)) ==> r.pc.UnlockInner? || r.pc.UnlockOuter?
  {
  }

  /** While a request owns its target, what it found there stays on its records. */
  lemma AdvanceKeepsSnapshot(w: World, r: Request)
    requires OnMainPath(r.pc) && OwnsTarget(r) && !r.pc.LoadUpload?
    ensures Advance(w, r).past.before == r.past.before && Advance(w, r).past.rowBefore == r.past.rowBefore
    ensures Advance(w, r).past.targetLost == r.past.targetLost
  {
    match r.pc
    case CheckUploadDir => assert Advance(w, r) == AfterCheckUploadDir(w.fs, r);
    case LoadListed => assert Advance(w, r) == AfterLoadListed(w, r);
    case CompareListed => assert Advance(w, r) == AfterCompareListed(r);
    case Assemble => assert Advance(w, r) == AfterAssemble(w.fs, r);
    case CompareStored => assert Advance(w, r) == AfterCompareStored(r);
    case MeasureStaged => assert Advance(w, r) == AfterMeasureStaged(w.fs, r);
    case CheckBucket => assert Advance(w, r) == AfterCheckBucket(w.fs, r);
    case Measure => assert Advance(w, r) == AfterMeasure(w.fs, r);
    case CheckKey => assert Advance(w, r) == AfterCheckKey(w.fs, r);
    case CheckTarget => assert Advance(w, r) == AfterCheckTarget(w.fs, r);
    case Backup => assert Advance(w, r) == AfterBackup(r);
    case Upsert => assert Advance(w, r) == AfterUpsert(w.rows, r);
    case Publish => assert Advance(w, r) == AfterPublish(r);
    case DropUpload => assert Advance(w, r) == AfterDropUpload(w.rows, r);
    case Commit => assert Advance(w, r) == AfterCommit(r);
    case _ =>
  }

  lemma RecoverKeepsSnapshot(r: Request, idle: bool, ok: bool)
    ensures Recover(r, idle, ok).past.before == r.past.before && Recover(r, idle, ok).past.rowBefore == r.past.rowBefore
    ensures r.past.targetLost ==> Recover(r, idle, ok).past.targetLost
  {
    match r.pc
    case Undo =>
    case DropBackup =>
    case RestoreUpload =>
    case DropStaged =>
    case TidyLocked =>
    case Tidy =>
    case TidyUpload =>
    case _ =>
  }

  lemma OwnerKeepsSnapshot(w: World, r: Request, o: Outcome)
    requires Shape(r) && OwnsTarget(r)
    ensures RequestAfter(w, r, o).past.before == r.past.before && RequestAfter(w, r, o).past.rowBefore == r.past.rowBefore
    ensures r.past.targetLost ==> RequestAfter(w, r, o).past.targetLost
  {
    if !OnMainPath(r.pc) {
      RecoverKeepsSnapshot(r, TodoAt(w.fs, r).Idle?, Succeeds(w.fs, r, o));
    } else if !r.pc.Start? && !r.pc.AwaitBucket? {
      AdvanceKeepsSnapshot(w, r);
    }
  }

  lemma LostStaysLost(w: World, r: Request, o: Outcome)
    requires Shape(r)
    ensures r.past.targetLost ==> RequestAfter(w, r, o).past.targetLost
  {
  }

  /** A request that lets go of its object, with no compensation failed, leaves row and file agreeing. */
  lemma LettingGo(w: World, r: Request, o: Outcome, id: ObjectId)
    requires Recorded(w, r) && OwnsObject(r, id) && !OwnsObject(RequestAfter(w, r, o), id)
    requires !r.past.targetLost && Fits(r.past.rowBefore, r.past.before)
    ensures WorldAfter(w, r, o) == w && Fits(ObjectRow(w.rows, id), At(w.fs, PathOf(id)))
  {
    SameJob(w, r, o);
    OwnsAfter(w, r, o);
    OwnerIsOn(r, id);
    if r.flags.committed { NewRowDescribes(r); }
  }

  // ---------- agreement ----------

  ghost predicate Unharmed(s: Server, id: ObjectId) {
    forall r :: r in s.requests && OnObject(r, id) ==> !r.past.targetLost
  }

  /** Row and file fit; while a request owns the object, those it found fit. */
  ghost predicate ObjectAgrees(s: Server, id: ObjectId) {
    && (forall r :: r in s.requests && OwnsObject(r, id) ==> Fits(r.past.rowBefore, r.past.before))
    && ((forall r :: r in s.requests ==> !OwnsObject(r, id)) ==> Fits(ObjectRow(s.world.rows, id), At(s.world.fs, PathOf(id))))
  }

  ghost predicate ObjectsAgree(s: Server) {
    forall id :: Unharmed(s, id) ==> ObjectAgrees(s, id)
  }

  lemma StillUnharmed(s: Server, s': Server, i: nat, id: ObjectId)
    requires Moved(s, s', i) && Unharmed(s', id)
    requires s'.requests[i].job == s.requests[i].job && (s.requests[i].past.targetLost ==> s'.requests[i].past.targetLost)
    ensures Unharmed(s, id)
  {
  }

  lemma OnlyOwner(s: Server, i: nat, id: ObjectId, k: nat)
    requires AllApart(s) && i < |s.requests| && k < |s.requests| && k != i && OwnsObject(s.requests[i], id)
    ensures !OwnsObject(s.requests[k], id)
  {
    assert Apart(s.world.rows, s.requests[i], s.requests[k]);
    ObjectRowExclusive(s.requests[i], s.requests[k], id);
  }

  lemma OwnerStepAgrees(s: Server, s': Server, i: nat, id: ObjectId)
    requires Moved(s, s', i) && AllApart(s) && OwnsObject(s.requests[i], id) && ObjectAgrees(s, id)
    requires s'.requests[i].past.before == s.requests[i].past.before && s'.requests[i].past.rowBefore == s.requests[i].past.rowBefore
    requires !OwnsObject(s'.requests[i], id) ==> Fits(ObjectRow(s'.world.rows, id), At(s'.world.fs, PathOf(id)))
    ensures ObjectAgrees(s', id)
  {
  }

  lemma GrabAgrees(s: Server, s': Server, i: nat, id: ObjectId)
    requires Moved(s, s', i) && AllApart(s') && !OwnsObject(s.requests[i], id) && OwnsObject(s'.requests[i], id) && ObjectAgrees(s, id)
    requires s'.requests[i].past.before == At(s.world.fs, PathOf(id)) && s'.requests[i].past.rowBefore == ObjectRow(s.world.rows, id)
    ensures ObjectAgrees(s', id)
  {
    forall r | r in s.requests ensures !OwnsObject(r, id) {
      var k :| 0 <= k < |s.requests| && s.requests[k] == r;
      if k != i { OnlyOwner(s', i, id, k); }
    }
    assert s'.requests[i] in s'.requests;
    forall r | r in s'.requests && OwnsObject(r, id) ensures Fits(r.past.rowBefore, r.past.before) {
      Bystander(s, s', i, r);
    }
  }

  lemma OtherStepAgrees(s: Server, s': Server, i: nat, id: ObjectId)
    requires Moved(s, s', i) && !OwnsObject(s.requests[i], id) && !OwnsObject(s'.requests[i], id) && ObjectAgrees(s, id)
    requires ObjectRow(s'.world.rows, id) == ObjectRow(s.world.rows, id) && At(s'.world.fs, PathOf(id)) == At(s.world.fs, PathOf(id))
    ensures ObjectAgrees(s', id)
  {
  }

  lemma StepKeepsObjectAgrees(s: Server, i: nat, o: Outcome, id: ObjectId)
    requires Sound(s) && CanStep(s, i) && Unharmed(s, id) && ObjectAgrees(s, id) && AllApart(StepOf(s, i, o))
    ensures ObjectAgrees(StepOf(s, i, o), id)
  {
    var s', a := StepOf(s, i, o), s.requests[i];
    StepMoves(s, i, o);
    assert Recorded(s.world, a) && a in s.requests;
    if OwnsObject(a, id) {
      OwnerKeepsSnapshot(s.world, a, o);
      if !OwnsObject(s'.requests[i], id) { LettingGo(s.world, a, o, id); }
      OwnerStepAgrees(s, s', i, id);
    } else if OwnsObject(s'.requests[i], id) {
      Grabbing(s.world, a, o, id);
      GrabAgrees(s, s', i, id);
    } else {
      OtherObjectsStay(s.world, a, o, id);
      OtherStepAgrees(s, s', i, id);
    }
  }

  lemma StepKeepsObjectsAgree(s: Server, i: nat, o: Outcome)
    requires Sound(s) && CanStep(s, i) && ObjectsAgree(s)
    ensures ObjectsAgree(StepOf(s, i, o))
  {
    var s', a := StepOf(s, i, o), s.requests[i];
    assert Recorded(s.world, a);
    StepKeepsApart(s, i, o);
    StepMoves(s, i, o);
    SameJob(s.world, a, o);
    LostStaysLost(s.world, a, o);
    forall id | Unharmed(s', id) ensures ObjectAgrees(s', id) {
      StillUnharmed(s, s', i, id);
      StepKeepsObjectAgrees(s, i, o, id);
    }
  }

  // ---------- no payload is lost ----------

  /** The bytes are kept in the request's backup file. */
  ghost predicate KeptInBackup(r: Request, id: ObjectId, data: Bytes) {
    OnObject(r, id) && !r.flags.committed && r.past.backupHere && r.past.before == Some(data)
  }

  predicate Overwritten(r: Request, id: ObjectId) {
    OwnsObject(r, id) && r.past.target.New? && !r.flags.committed
  }

  ghost predicate KeptInPlace(s: Server, id: ObjectId, data: Bytes) {
    && (forall r :: r in s.requests ==> !Overwritten(r, id))
    && At(s.world.fs, PathOf(id)) == Some(data)
  }

  ghost predicate Held(s: Server, id: ObjectId, data: Bytes) { InBackup(s, id, data) || KeptInPlace(s, id, data) }

  lemma CommitWritesObject(w: World, a: Request, o: Outcome, id: ObjectId)
    requires Recorded(w, a) && OwnsObject(a, id) && a.pc.Commit? && o.Returned?
    ensures ObjectRow(WorldAfter(w, a, o).rows, id) == Some(NewRow(a))
    ensures At(WorldAfter(w, a, o).fs, PathOf(id)) == Some(a.past.payload)
    ensures Describes(NewRow(a), a.past.payload)
    ensures RequestAfter(w, a, o).flags.committed && OwnsObject(RequestAfter(w, a, o), id)
  {
    NewRowDescribes(a);
    OwnerIsOn(a, id);
    CommitPending(a);
    StepByAnswer(w, a, o);
  }

  lemma CommittedOverwritesNothing(s: Server, s': Server, i: nat, id: ObjectId)
    requires Moved(s, s', i) && AllApart(s') && OwnsObject(s'.requests[i], id) && s'.requests[i].flags.committed
    ensures forall r :: r in s'.requests ==> !Overwritten(r, id)
  {
    forall r | r in s'.requests ensures !Overwritten(r, id) {
      var k :| 0 <= k < |s'.requests| && s'.requests[k] == r;
      if k != i { OnlyOwner(s', i, id, k); }
    }
  }

  /** A backup that is given up while its bytes are back in place. */
  ghost predicate Handover(a: Request, a': Request, id: ObjectId, data: Bytes) {
    KeptInBackup(a, id, data) && !KeptInBackup(a', id, data) ==>
      OwnsObject(a, id) && OwnsObject(a', id) && a'.past.target.Before? && a'.past.before == a.past.before
  }

  /** A target that is replaced once what was there is backed up. */
  ghost predicate Takeover(a: Request, a': Request, id: ObjectId) {
    !Overwritten(a, id) && Overwritten(a', id) ==>
      && OwnsObject(a, id) && a.past.target.Before?
      && (a.past.before.Some? ==> a'.past.backupHere && a'.past.before == a.past.before)
  }

  lemma AdvanceHandsOver(w: World, a: Request, id: ObjectId, data: Bytes)
    requires Recorded(w, a) && OnObject(a, id) && OnMainPath(a.pc) && !a.pc.Commit? && !a.pc.Start? && !a.pc.AwaitBucket?
    ensures Handover(a, Advance(w, a), id, data)
  {
    AdvanceCommits(w, a);
    if KeptInBackup(a, id, data) {
      if OwnsTarget(a) { AdvanceKeepsSnapshot(w, a); }
      AdvanceKeepsBackup(w, a);
      AdvanceSameJob(w, a);
    }
  }

  lemma AdvanceKeepsBackup(w: World, a: Request)
    requires OnMainPath(a.pc)
    ensures a.past.backupHere ==> Advance(w, a).past.backupHere
  {
    match a.pc
    case CheckUploadDir => assert Advance(w, a) == AfterCheckUploadDir(w.fs, a);
    case LoadListed => assert Advance(w, a) == AfterLoadListed(w, a);
    case CompareListed => assert Advance(w, a) == AfterCompareListed(a);
    case Assemble => assert Advance(w, a) == AfterAssemble(w.fs, a);
    case CompareStored => assert Advance(w, a) == AfterCompareStored(a);
    case MeasureStaged => assert Advance(w, a) == AfterMeasureStaged(w.fs, a);
    case CheckBucket => assert Advance(w, a) == AfterCheckBucket(w.fs, a);
    case Measure => assert Advance(w, a) == AfterMeasure(w.fs, a);
    case CheckKey => assert Advance(w, a) == AfterCheckKey(w.fs, a);
    case CheckTarget => assert Advance(w, a) == AfterCheckTarget(w.fs, a);
    case Backup => assert Advance(w, a) == AfterBackup(a);
    case Upsert => assert Advance(w, a) == AfterUpsert(w.rows, a);
    case Publish => assert Advance(w, a) == AfterPublish(a);
    case DropUpload => assert Advance(w, a) == AfterDropUpload(w.rows, a);
    case Commit => assert Advance(w, a) == AfterCommit(a);
    case _ =>
  }

  lemma AdvanceTakesOver(w: World, a: Request, id: ObjectId)
    requires Recorded(w, a) && OnObject(a, id) && OnMainPath(a.pc) && !a.pc.Commit? && !a.pc.Start? && !a.pc.AwaitBucket?
    ensures Takeover(a, Advance(w, a), id)
  {
    match a.pc
    case LoadUpload => assert Advance(w, a) == AfterLoadUpload(w, a);
    case LoadListed => assert Advance(w, a) == AfterLoadListed(w, a);
    case CompareListed => assert Advance(w, a) == AfterCompareListed(a);
    case Assemble => assert Advance(w, a) == AfterAssemble(w.fs, a);
    case CompareStored => assert Advance(w, a) == AfterCompareStored(a);
    case MeasureStaged => assert Advance(w, a) == AfterMeasureStaged(w.fs, a);
    case CheckBucket => assert Advance(w, a) == AfterCheckBucket(w.fs, a);
    case Measure => assert Advance(w, a) == AfterMeasure(w.fs, a);
    case CheckKey => assert Advance(w, a) == AfterCheckKey(w.fs, a);
    case CheckTarget => assert Advance(w, a) == AfterCheckTarget(w.fs, a);
    case Backup => assert Advance(w, a) == AfterBackup(a);
    case Upsert => assert Advance(w, a) == AfterUpsert(w.rows, a);
    case Publish => assert Advance(w, a) == AfterPublish(a);
    case DropUpload => assert Advance(w, a) == AfterDropUpload(w.rows, a);
    case _ =>
  }

  lemma FailingHandsOver(w: World, a: Request, f: Failure, id: ObjectId, data: Bytes)
    requires Shape(a) && OnMainPath(a.pc) && !a.pc.Start? && !a.pc.AwaitBucket?
    ensures Handover(a, Fail(a, f), id, data) && Takeover(a, Fail(a, f), id)
  {
  }

  lemma FirstLockHandsOver(w: World, a: Request, id: ObjectId, data: Bytes)
    requires Shape(a) && OnObject(a, id) && (a.pc.Start? || a.pc.AwaitBucket?)
    ensures Handover(a, Proceed(w, a, true), id, data) && Takeover(a, Proceed(w, a, true), id)
  {
  }

  lemma RecoveryTakesNothingOver(a: Request, id: ObjectId, idle: bool, ok: bool)
    requires OnObject(a, id) && !OnMainPath(a.pc) && Shape(a)
    ensures Overwritten(Recover(a, idle, ok), id) ==> Overwritten(a, id)
  {
    RecoverOwns(a, idle, ok);
  }

  lemma RecoveryHandsOver(w: World, a: Request, id: ObjectId, data: Bytes, ok: bool)
    requires Recorded(w, a) && OnObject(a, id) && !OnMainPath(a.pc)
    ensures Handover(a, Recover(a, TodoAt(w.fs, a).Idle?, ok), id, data)
  {
  }

  lemma OwnerKeeps(w: World, a: Request, o: Outcome, id: ObjectId, data: Bytes)
    requires Recorded(w, a) && OnObject(a, id) && !(a.pc.Commit? && o.Returned?)
    ensures Handover(a, RequestAfter(w, a, o), id, data) && Takeover(a, RequestAfter(w, a, o), id)
  {
    if !OnMainPath(a.pc) {
      RecoveryHandsOver(w, a, id, data, Succeeds(w.fs, a, o));
      RecoveryTakesNothingOver(a, id, TodoAt(w.fs, a).Idle?, Succeeds(w.fs, a, o));
    } else if a.pc.Start? || a.pc.AwaitBucket? {
      FirstLockHandsOver(w, a, id, data);
    } else if Succeeds(w.fs, a, o) {
      AdvanceHandsOver(w, a, id, data);
      AdvanceTakesOver(w, a, id);
    } else {
      FailingHandsOver(w, a, if Blocked(w.fs, a) then KeyConflict else Failure.Raised, id, data);
    }
  }

  /** The target's content changes only when it is overwritten or restored. */
  lemma TargetContentStays(w: World, a: Request, o: Outcome, id: ObjectId)
    requires Mounted(w.fs) && Recorded(w, a) && OnObject(a, id) && OwnsObject(a, id)
    requires !Overwritten(a, id) && !Overwritten(RequestAfter(w, a, o), id)
    ensures At(WorldAfter(w, a, o).fs, PathOf(id)) == At(w.fs, PathOf(id))
  {
    StepByAnswer(w, a, o);
    OwnerIsOn(a, id);
    var todo := TodoAt(w.fs, a);
    if todo.Disk? && Succeeds(w.fs, a, o) && !a.pc.Publish? {
      QuietTarget(w.fs, a, todo.op);
    }
  }

  lemma QuietTarget(fs: FileSystem, a: Request, op: Operation)
    requires Mounted(fs) && Shape(a) && (a.job.kind.PutObject? || a.job.kind.Complete?)
    requires TodoAt(fs, a) == Disk(op) && Possible(fs, op) && !a.pc.Publish?
    requires !(a.past.target.New? && !a.flags.committed)
    ensures At(Perform(fs, op), TargetPath(a.job)) == At(fs, TargetPath(a.job))
  {
    var p := TargetPath(a.job);
    assert p[0] == Plain("buckets");
    NamesInTmp(a.job);
    assert !a.pc.Undo?;
    if !op.MakeTree? {
      UntouchedStays(fs, op, p);
    }
  }

  ghost predicate InBackup(s: Server, id: ObjectId, data: Bytes) {
    exists r :: r in s.requests && KeptInBackup(r, id, data)
  }

  lemma BackupHandedOver(s: Server, s': Server, i: nat, id: ObjectId, data: Bytes)
    requires Moved(s, s', i) && AllApart(s') && InBackup(s, id, data)
    requires Handover(s.requests[i], s'.requests[i], id, data)
    requires OwnsObject(s'.requests[i], id) && s'.requests[i].past.target.Before? ==> At(s'.world.fs, PathOf(id)) == s'.requests[i].past.before
    ensures InBackup(s', id, data) || KeptInPlace(s', id, data)
  {
    var a, a' := s.requests[i], s'.requests[i];
    assert a' in s'.requests;
    var r :| r in s.requests && KeptInBackup(r, id, data);
    Bystander(s, s', i, r);
    if r == a && !KeptInBackup(a', id, data) {
      forall q | q in s'.requests ensures !Overwritten(q, id) {
        var k :| 0 <= k < |s'.requests| && s'.requests[k] == q;
        if k != i { OnlyOwner(s', i, id, k); }
      }
    }
  }

  lemma PlaceTakenOver(s: Server, s': Server, i: nat, id: ObjectId, data: Bytes)
    requires Moved(s, s', i) && KeptInPlace(s, id, data) && Takeover(s.requests[i], s'.requests[i], id)
    requires s'.requests[i].job == s.requests[i].job
    requires OwnsObject(s.requests[i], id) && s.requests[i].past.target.Before? ==> At(s.world.fs, PathOf(id)) == s.requests[i].past.before
    requires !Overwritten(s'.requests[i], id) ==> At(s'.world.fs, PathOf(id)) == At(s.world.fs, PathOf(id))
    ensures InBackup(s', id, data) || KeptInPlace(s', id, data)
  {
    var a, a' := s.requests[i], s'.requests[i];
    assert a in s.requests && a' in s'.requests;
    if Overwritten(a', id) {
      assert KeptInBackup(a', id, data);
    } else {
      forall q | q in s'.requests ensures !Overwritten(q, id) {
        Bystander(s, s', i, q);
      }
    }
  }

  lemma TargetFits(w: World, r: Request, id: ObjectId)
    requires Agrees(w, r) && OwnsObject(r, id) && r.past.target.Before?
    ensures At(w.fs, PathOf(id)) == r.past.before
  {
  }

  lemma UncommittedRowStays(w: World, a: Request, o: Outcome, id: ObjectId)
    requires Recorded(w, a) && !(OwnsObject(a, id) && a.pc.Commit? && o.Returned?)
    ensures ObjectRow(WorldAfter(w, a, o).rows, id) == ObjectRow(w.rows, id)
  {
    DropsRecorded(w, a);
    RowsStayInside(w, a, o);
  }

  /** Away from a commit, whatever keeps the bytes before the step, something keeps them after it. */
  lemma StepKeepsOwnHeld(s: Server, i: nat, o: Outcome, id: ObjectId, data: Bytes)
    requires Sound(s) && CanStep(s, i) && Sound(StepOf(s, i, o))
    requires Held(s, id, data)
    requires OnObject(s.requests[i], id) && !(s.requests[i].pc.Commit? && o.Returned?)
    ensures Held(StepOf(s, i, o), id, data)
  {
    var s', a := StepOf(s, i, o), s.requests[i];
    StepMoves(s, i, o);
    var a' := s'.requests[i];
    assert Recorded(s.world, a) && Recorded(s'.world, a');
    OwnerKeeps(s.world, a, o, id, data);
    SameJob(s.world, a, o);
    if InBackup(s, id, data) {
      if OwnsObject(a', id) && a'.past.target.Before? { TargetFits(s'.world, a', id); }
      BackupHandedOver(s, s', i, id, data);
    } else {
      if OwnsObject(a, id) && a.past.target.Before? { TargetFits(s.world, a, id); }
      if !OwnsObject(a, id) {
        OtherObjectsStay(s.world, a, o, id);
      } else if !Overwritten(a', id) {
        assert a in s.requests;
        TargetContentStays(s.world, a, o, id);
      }
      PlaceTakenOver(s, s', i, id, data);
    }
  }

  lemma BystanderKeeps(s: Server, s': Server, i: nat, id: ObjectId, data: Bytes)
    requires Moved(s, s', i) && !OnObject(s.requests[i], id) && !OnObject(s'.requests[i], id)
    requires Held(s, id, data)
    requires At(s'.world.fs, PathOf(id)) == At(s.world.fs, PathOf(id))
    ensures InBackup(s', id, data) || KeptInPlace(s', id, data)
  {
  }

  lemma CommitterOwns(a: Request, id: ObjectId)
    requires Shape(a)
    ensures a.pc.Commit? && OnObject(a, id) ==> OwnsObject(a, id)
  {
  }

  /** The step commits a new row for the object. */
  predicate CommitsObject(r: Request, o: Outcome, id: ObjectId) {
    OnObject(r, id) && r.pc.Commit? && o.Returned?
  }

  /** Away from a commit on the object its row stays, and bytes that are held stay held, failed compensations included. */
  lemma StepKeepsHeld(s: Server, i: nat, o: Outcome, id: ObjectId, data: Bytes)
    requires Sound(s) && CanStep(s, i) && Held(s, id, data) && !CommitsObject(s.requests[i], o, id)
    ensures Held(StepOf(s, i, o), id, data)
    ensures ObjectRow(StepOf(s, i, o).world.rows, id) == ObjectRow(s.world.rows, id)
  {
    var a := s.requests[i];
    StepKeepsSound(s, i, o);
    assert Recorded(s.world, a);
    CommitterOwns(a, id);
    UncommittedRowStays(s.world, a, o, id);
    if OnObject(a, id) {
      StepKeepsOwnHeld(s, i, o, id, data);
    } else {
      OwnerIsOn(a, id);
      SameJob(s.world, a, o);
      StepMoves(s, i, o);
      OtherObjectsStay(s.world, a, o, id);
      BystanderKeeps(s, StepOf(s, i, o), i, id, data);
    }
  }

  /** A commit leaves at the object's path, and holds there, bytes that its new row describes. */
  lemma CommitHolds(s: Server, i: nat, o: Outcome, id: ObjectId)
    requires Sound(s) && CanStep(s, i) && CommitsObject(s.requests[i], o, id)
    ensures var s' := StepOf(s, i, o);
      && id in s'.world.rows.objects && At(s'.world.fs, PathOf(id)).Some?
      && Describes(s'.world.rows.objects[id], At(s'.world.fs, PathOf(id)).value)
      && Held(s', id, At(s'.world.fs, PathOf(id)).value)
  {
    var s', a := StepOf(s, i, o), s.requests[i];
    StepKeepsSound(s, i, o);
    StepMoves(s, i, o);
    assert Recorded(s.world, a);
    CommitterOwns(a, id);
    CommitWritesObject(s.world, a, o, id);
    CommittedOverwritesNothing(s, s', i, id);
  }

  // ---------- bucket files are objects ----------

  ghost predicate ValidKeys(s: Server) {
    forall r :: r in s.requests ==> ValidObjectKey(r.job.key)
  }

  /** The file is where some object with a valid key belongs. */
  ghost predicate IsObjectFile(p: Path) {
    exists id :: PathOf(id) == p && ValidObjectKey(id.key)
  }

  ghost predicate BucketFilesAreObjects(s: Server) {
    forall p :: p in s.world.fs.files && BUCKETS_DIR <= p ==> IsObjectFile(p)
  }

  lemma StepKeepsBucketFiles(s: Server, i: nat, o: Outcome)
    requires Sound(s) && CanStep(s, i) && ValidKeys(s) && BucketFilesAreObjects(s)
    ensures ValidKeys(StepOf(s, i, o)) && BucketFilesAreObjects(StepOf(s, i, o))
  {
    var s', a := StepOf(s, i, o), s.requests[i];
    assert Recorded(s.world, a) && a in s.requests;
    StepMoves(s, i, o);
    SameJob(s.world, a, o);
    forall r | r in s'.requests ensures ValidObjectKey(r.job.key) {
      Bystander(s, s', i, r);
    }
    forall p | p in s'.world.fs.files && BUCKETS_DIR <= p ensures IsObjectFile(p) {
      if p == TargetPath(a.job) && OwnsTarget(a) {
        TargetIsObject(a.job, p);
      } else {
        OnlyTheTarget(s.world, a, o, p);
        assert p in s.world.fs.files;
      }
    }
  }

  lemma TargetIsObject(j: Job, p: Path)
    requires p == TargetPath(j) && BUCKETS_DIR <= p && ValidObjectKey(j.key)
    ensures IsObjectFile(p)
  {
    assert p[0] == Plain("buckets");
    if !j.kind.UploadPart? { assert PathOf(TargetObject(j)) == p; }
  }
}
