/** The storage and database session a service call works on. Every awaited primitive may
    raise; which do is recorded, so that the call can be followed as a run of the model. */
module Sessions {
  import opened Text
  import opened Paths
  import opened Etags
  import opened FileSystems
  import opened Rows
  import opened PartLists
  import opened Requests
  import opened Footprints
  import Io
  import Records
  import opened Solo

  /** The step that awaits nothing. */
  function AfterQuiet(r: Request): Request {
    match r.pc
    case Undo => Go(r, if r.job.kind.UploadPart? then DropStaged else DropBackup)
    case DropBackup => Go(r, if r.job.kind.Complete? then RestoreUpload else DropStaged)
    case RestoreUpload => AfterRestoreUpload(Go(r, if r.job.kind.Complete? then DropStaged else UnlockOuter), true)
    case TidyLocked => Go(r, UnlockOuter)
    case UnlockInner => Go(r.(flags := r.flags.(inner := false)), UnlockOuter)
    case UnlockOuter =>
      Go(r, if r.failure.Some? || r.job.kind.UploadPart? then Pc.Finished else if r.job.kind.Abort? then TidyUpload else Tidy)
    case Tidy => Go(r, if r.job.kind.Complete? then TidyUpload else Pc.Finished)
    case TidyUpload => Go(r, Pc.Finished)
    case _ => Recover(r, true, true)
  }

  /** The step that deletes a file. */
  function AfterDelete(r: Request, raised: bool): Request {
    match r.pc
    case Undo => AfterUndo(Go(r, if r.job.kind.UploadPart? then DropStaged else DropBackup), false, !raised)
    case DropBackup => AfterDroppingBackup(Go(r, if r.job.kind.Complete? then RestoreUpload else DropStaged), false, !raised)
    case DropStaged => AfterDropStaged(Go(r, if r.flags.inner then UnlockInner else UnlockOuter), !raised)
    case TidyLocked => AfterDroppingBackup(Go(r, UnlockOuter), false, !raised)
    case Tidy => AfterDroppingBackup(Go(r, if r.job.kind.Complete? then TidyUpload else Pc.Finished), false, !raised)
    case _ => Recover(r, false, !raised)
  }

  /** The compensation or cleanup at this point has nothing to undo, or a lock is given back. */
  predicate NothingDue(r: Request) {
    match r.pc
    case Undo => !r.flags.written && (r.job.kind.UploadPart? ==> !r.flags.backupCreated)
    case DropBackup => !r.flags.backupCreated || r.past.targetLost
    case RestoreUpload => !r.flags.moved
    case TidyLocked => !r.flags.backupCreated
    case Tidy => !r.flags.backupCreated
    case TidyUpload => !r.job.kind.Create? && !r.flags.moved
    case UnlockInner => true
    case UnlockOuter => true
    case _ => false
  }

  predicate DeletionDue(r: Request, path: Path) {
    match r.pc
    case Undo => r.flags.written && !r.flags.backupCreated && path == TargetPath(r.job)
    case DropBackup => r.flags.backupCreated && !r.past.targetLost && path == BackupFile(r.job)
    case DropStaged => path == StagedFile(r.job)
    case TidyLocked => r.flags.backupCreated && path == BackupFile(r.job)
    case Tidy => r.flags.backupCreated && path == BackupFile(r.job)
    case _ => false
  }

  class Session {
    var fs: FileSystem
    var rows: Tables
    var pending: Pending

    /** What the service was called with, and the fresh names it drew. */
    const job: Job

    ghost const origin: World
    ghost var outcomes: seq<Outcome>
    ghost var request: Request

    /** The call so far is the model's run on the recorded outcomes. */
    ghost predicate Follows()
      reads this
    {
      Exec(origin, job, outcomes) == (Here(), request) && request.job == job
    }

    ghost function Here(): World
      reads this
    {
      World(fs, rows)
    }

    constructor (world: World, j: Job)
      ensures Follows() && Here() == world && origin == world && job == j && request == NewRequest(j)
      ensures pending == NO_CHANGES
    {
      fs, rows, pending := world.fs, world.rows, NO_CHANGES;
      job := j;
      origin, outcomes, request := world, [], NewRequest(j);
    }

    /** Advances the model by the step that has just been taken. */
    ghost method Record(o: Outcome, before: World)
      requires Exec(origin, job, outcomes) == (before, request) && request.job == job && !request.pc.Finished?
      requires Here() == WorldAfter(before, request, o)
      modifies this`outcomes, this`request
      ensures Follows() && request == RequestAfter(before, old(request), o)
    {
      assert (outcomes + [o])[..|outcomes + [o]| - 1] == outcomes;
      Records.SameJob(before, request, o);
      outcomes := outcomes + [o];
      request := RequestAfter(before, request, o);
    }

    /** One filesystem primitive. */
    method Disk(op: Operation) returns (ok: bool)
      requires Follows() && TodoAt(fs, request) == Requests.Disk(op)
      modifies this
      ensures Follows() && rows == old(rows) && pending == old(pending)
      ensures ok ==> Possible(old(fs), op) && fs == Perform(old(fs), op)
      ensures !ok && !op.RemoveTree? ==> fs == old(fs)
      ensures request == if OnMainPath(old(request.pc)) then Proceed(old(Here()), old(request), ok) else Recover(old(request), false, ok)
    {
      ghost var before := Here();
      StepByAnswer(before, request, Returned);
      var raised: bool := *;
      if raised {
        var gone: set<Path> := *;
        StepByAnswer(before, request, Fault(gone));
        if op.RemoveTree? { fs := Prune(fs, op.path, gone); }
        Record(Fault(gone), before);
        ok := false;
      } else if Possible(fs, op) {
        fs := Perform(fs, op);
        Record(Returned, before);
        ok := true;
      } else {
        Record(Returned, before);
        ok := false;
      }
    }

    /** A read, or a check that changes nothing. */
    method Look() returns (ok: bool)
      requires Follows() && TodoAt(fs, request).Idle? && OnMainPath(request.pc)
      modifies this
      ensures Follows() && fs == old(fs) && rows == old(rows) && pending == old(pending)
      ensures request == Proceed(old(Here()), old(request), ok)
    {
      ghost var before := Here();
      var raised: bool := *;
      if raised { Record(Fault({}), before); } else { Record(Returned, before); }
      ok := !raised;
    }

    /** Row changes flushed to the database, not yet committed. */
    method Flush(change: Pending) returns (ok: bool)
      requires Follows() && TodoAt(fs, request).Idle? && OnMainPath(request.pc)
      modifies this
      ensures Follows() && fs == old(fs) && rows == old(rows)
      ensures pending == if ok then change else old(pending)
      ensures request == Proceed(old(Here()), old(request), ok)
    {
      ok := Look();
      if ok { pending := change; }
    }

    method Commit() returns (ok: bool)
      requires Follows() && request.pc.Commit? && pending == request.local.pending
      modifies this
      ensures Follows() && fs == old(fs) && pending == old(pending)
      ensures rows == if ok then CommitChanges(old(rows), old(pending)) else old(rows)
      ensures request == Proceed(old(Here()), old(request), ok)
    {
      ghost var before := Here();
      var raised: bool := *;
      if raised {
        Record(Fault({}), before);
      } else {
        rows := CommitChanges(rows, pending);
        Record(Returned, before);
      }
      ok := !raised;
    }

    /** A rollback, a lock taken or given back, a compensation that was not needed. */
    method Quiet()
      requires Follows() && TodoAt(fs, request).Idle? && !request.pc.Finished?
      requires OnMainPath(request.pc) ==> request.pc.Start? || request.pc.AwaitBucket? || request.pc.CompareListed? || request.pc.CompareStored?
      modifies this
      ensures Follows() && fs == old(fs) && rows == old(rows) && pending == old(pending)
      ensures request == if OnMainPath(old(request.pc)) then Proceed(old(Here()), old(request), true) else Recover(old(request), true, true)
    {
      Record(Returned, Here());
    }

    method Rollback()
      requires Follows() && request.pc.Rollback?
      modifies this
      ensures Follows() && fs == old(fs) && rows == old(rows) && pending == NO_CHANGES
      ensures request == Pend(old(request), NO_CHANGES, match job.kind case Abort => RestoreUpload case Create => TidyUpload case _ => Undo)
    {
      Quiet();
      pending := NO_CHANGES;
    }

    // ---------- the awaits of the services, by what they look at or change ----------

    /** Waits for the lock and takes it: the first one, or the bucket's inside it. */
    method TakeLock()
      requires Follows() && !request.job.kind.Create? && (request.pc.Start? || request.pc.AwaitBucket?)
      modifies this
      ensures Follows() && fs == old(fs) && rows == old(rows) && pending == old(pending)
      ensures old(request).pc.Start? ==> request == AfterFirstLock(Here(), old(request))
      ensures old(request).pc.AwaitBucket? ==>
        request == Go(Snapshot(Here(), old(request)).(flags := old(request).flags.(inner := true)), CheckBucket)
    {
      Quiet();
    }

    /** A service that takes no lock just begins. */
    method Begin()
      requires Follows() && job.kind.Create? && request.pc.Start?
      modifies this
      ensures Follows() && fs == old(fs) && rows == old(rows) && pending == old(pending)
      ensures request == Go(old(request), MakeDirs)
    {
      Quiet();
    }

    /** `isdir` of the bucket, the key's place or the upload's directory. */
    method IsDirectory(path: Path) returns (raised: bool, answer: bool)
      requires Follows()
      requires match request.pc
        case CheckBucket => path == BucketPath(job.bucket)
        case CheckKey => path == TargetPath(job)
        case CheckUploadDir => path == UploadPath(job.upload)
        case _ => false
      modifies this
      ensures Follows() && fs == old(fs) && rows == old(rows) && pending == old(pending) && answer == IsDir(fs, path)
      ensures raised ==> request == Fail(old(request), Failure.Raised)
      ensures !raised ==> request == match old(request).pc
        case CheckBucket => AfterCheckBucket(fs, old(request))
        case CheckKey => AfterCheckKey(fs, old(request))
        case _ => AfterCheckUploadDir(fs, old(request))
    {
      answer := IsDir(fs, path);
      var ok := Look();
      raised := !ok;
    }

    /** `isfile` of the path about to be overwritten. */
    method IsRegularFile(path: Path) returns (raised: bool, answer: bool)
      requires Follows() && request.pc.CheckTarget? && path == TargetPath(job)
      modifies this
      ensures Follows() && fs == old(fs) && rows == old(rows) && pending == old(pending) && answer == IsFile(fs, path)
      ensures request == if raised then Fail(old(request), Failure.Raised) else AfterCheckTarget(fs, old(request))
    {
      answer := IsFile(fs, path);
      var ok := Look();
      raised := !ok;
    }

    /** `load_multipart`: an upload that is not there, or is another bucket's or key's, is not found. */
    method LoadMultipart() returns (raised: bool, found: bool)
      requires Follows() && request.pc.LoadUpload?
      modifies this
      ensures Follows() && fs == old(fs) && rows == old(rows) && pending == old(pending) && found == UploadKnown(rows, job)
      ensures request == if raised then Fail(old(request), Failure.Raised) else AfterLoadUpload(Here(), old(request))
    {
      found := UploadKnown(rows, job);
      var ok := Look();
      raised := !ok;
    }

    /** `load_multipart_parts`. */
    method LoadParts() returns (raised: bool, loaded: PartsResult)
      requires Follows() && request.pc.LoadListed?
      modifies this
      ensures Follows() && fs == old(fs) && rows == old(rows) && pending == old(pending)
      ensures loaded == PartLists.LoadParts(rows, fs, job.upload, job.listed)
      ensures request == if raised then Fail(old(request), Failure.Raised) else AfterLoadListed(Here(), old(request))
    {
      loaded := LoadMultipartParts(rows, fs, job.upload, job.listed);
      var ok := Look();
      raised := !ok;
    }

    /** The comparison loops over `zip` of two lists, which end with the shorter one. */
    method Compare(expected: seq<string>, actual: seq<string>) returns (same: bool)
      requires Follows() && (request.pc.CompareListed? || request.pc.CompareStored?) && |expected| == |actual|
      modifies this
      ensures Follows() && fs == old(fs) && rows == old(rows) && pending == old(pending)
      ensures same <==> expected == actual
      ensures request == if old(request).pc.CompareListed? then AfterCompareListed(old(request)) else AfterCompareStored(old(request))
    {
      hide Exec, AfterCompareListed, AfterCompareStored;
      for index := 0 to |expected|
        invariant expected[..index] == actual[..index]
        invariant Follows() && fs == old(fs) && rows == old(rows) && pending == old(pending) && request == old(request)
      {
        assert expected[..index + 1] == expected[..index] + [expected[index]];
        assert actual[..index + 1] == actual[..index] + [actual[index]];
        if expected[index] != actual[index] {
          Quiet();
          return false;
        }
      }
      assert expected[..|expected|] == expected && actual[..|expected|] == actual;
      Quiet();
      return true;
    }

    /** `concat` of the listed parts into the staged file; a missing part raises. */
    method ConcatParts(sources: seq<Path>, destination: Path) returns (raised: bool, hashes: seq<string>)
      requires Follows() && request.pc.Assemble?
      requires sources == PathsUpTo(job.upload, job.listed, |job.listed|) && destination == StagedFile(job)
      modifies this
      ensures Follows() && rows == old(rows) && pending == old(pending)
      ensures raised ==> request == Fail(old(request), Failure.Raised)
      ensures !raised ==> request == AfterAssemble(old(fs), old(request)) && request.pc.CompareStored? && request.local.hashes == hashes
      ensures !raised ==> |hashes| == |sources|
    {
      hashes := [];
      var contents := ContentsOf(fs, sources);
      if contents.None? {
        ghost var before := Here();
        StepByAnswer(before, request, Returned);
        Record(Returned, before);
        return true, [];
      }
      var data;
      data, hashes := Io.Concat(contents.value);
      Records.ContentsAre(fs, sources, contents.value);
      var ok := Disk(Operation.Write(destination, data));
      raised := !ok;
    }

    /** `get_filesize`. */
    method FileSize(path: Path) returns (raised: bool, size: nat)
      requires Follows() && request.pc.MeasureStaged? && path == StagedFile(job)
      modifies this
      ensures Follows() && fs == old(fs) && rows == old(rows) && pending == old(pending)
      ensures raised ==> request == Fail(old(request), Failure.Raised)
      ensures !raised ==> request == AfterMeasureStaged(fs, old(request)) && request.pc.AwaitBucket? && request.local.size == size
    {
      var ok := Look();
      if !ok || path !in fs.files { return true, 0; }
      return false, |fs.files[path]|;
    }

    /** `get_filesize` and `get_file_hash` of the staged file. */
    method Measure(path: Path) returns (raised: bool, size: nat, etag: string)
      requires Follows() && request.pc.Measure? && path == StagedFile(job)
      modifies this
      ensures Follows() && fs == old(fs) && rows == old(rows) && pending == old(pending)
      ensures raised ==> request == Fail(old(request), Failure.Raised)
      ensures !raised ==> request == AfterMeasure(fs, old(request)) && !request.pc.Rollback? && request.local.size == size && request.local.etag == etag
    {
      var ok := Look();
      if !ok || path !in fs.files { return true, 0, ""; }
      etag := Io.FileHash(fs.files[path]);
      return false, |fs.files[path]|, etag;
    }

    /** `upload` of the request body. */
    method Upload(body: Bytes, destination: Path) returns (raised: bool)
      requires Follows() && request.pc.Stage? && body == job.body && destination == StagedFile(job)
      modifies this
      ensures Follows() && rows == old(rows) && pending == old(pending)
      ensures raised ==> request == Fail(old(request), Failure.Raised)
      ensures !raised ==> request == Go(old(request).(past := old(request).past.(stagedHere := true, payload := body)), Pc.Measure)
    {
      var ok := Disk(Operation.Write(destination, body));
      raised := !ok;
    }

    /** `mktree`; a prefix that is a file cannot become a directory. */
    method MakeTree(path: Path) returns (raised: bool, taken: bool)
      requires Follows() && request.pc.MakeDirs?
      requires path == if job.kind.Create? then UploadPath(job.upload) else Parent(ObjectPath(job.bucket, job.key))
      modifies this
      ensures Follows() && rows == old(rows) && pending == old(pending)
      ensures raised ==> request == Fail(old(request), if taken then KeyConflict else Failure.Raised)
      ensures !raised ==> request == Go(old(request), if job.kind.Create? then InsertUpload else CheckTarget)
    {
      taken := Blocks(fs, path);
      var ok := Disk(Operation.MakeTree(path));
      raised := !ok;
    }

    /** The operating system's reason for refusing `mktree` to a service that publishes objects. */
    function Blocks(files: FileSystem, path: Path): bool {
      (job.kind.PutObject? || job.kind.Complete?) && !Possible(files, Operation.MakeTree(path))
    }

    /** `copy` of the object about to be overwritten. */
    method BackUpByCopy(source: Path, destination: Path) returns (raised: bool)
      requires Follows() && request.pc.Backup? && !job.kind.UploadPart? && source == TargetPath(job) && destination == BackupFile(job)
      modifies this
      ensures Follows() && rows == old(rows) && pending == old(pending)
      ensures request == if raised then Fail(old(request), Failure.Raised) else AfterBackup(old(request))
    {
      var ok := Disk(Operation.Copy(source, destination));
      raised := !ok;
    }

    /** `rename` of the part about to be replaced. */
    method BackUpByRename(source: Path, destination: Path) returns (raised: bool)
      requires Follows() && request.pc.Backup? && job.kind.UploadPart? && source == TargetPath(job) && destination == BackupFile(job)
      modifies this
      ensures Follows() && rows == old(rows) && pending == old(pending)
      ensures request == if raised then Fail(old(request), Failure.Raised) else AfterBackup(old(request))
    {
      var ok := Disk(Operation.Move(source, destination));
      raised := !ok;
    }

    /** `rename` of the staged file over its target; a directory there refuses it. */
    method Publish(source: Path, destination: Path) returns (raised: bool, taken: bool)
      requires Follows() && request.pc.Publish? && source == StagedFile(job) && destination == TargetPath(job)
      modifies this
      ensures Follows() && rows == old(rows) && pending == old(pending)
      ensures raised ==> request == Fail(old(request), if taken then KeyConflict else Failure.Raised)
      ensures !raised ==> request == AfterPublish(old(request))
    {
      taken := (job.kind.PutObject? || job.kind.Complete?) && IsDir(fs, destination);
      var ok := Disk(Operation.Move(source, destination));
      raised := !ok;
    }

    /** `rename` of the upload's directory to its cleanup path. */
    method MoveUploadAside(source: Path, destination: Path) returns (raised: bool)
      requires Follows() && request.pc.MoveUpload? && source == UploadPath(job.upload) && destination == CleanupDir(job)
      modifies this
      ensures Follows() && rows == old(rows) && pending == old(pending)
      ensures raised ==> request == Fail(old(request), Failure.Raised)
      ensures !raised ==>
        request == Go(old(request).(flags := old(request).flags.(moved := true), past := old(request).past.(displaced := true)), DropParts)
    {
      var ok := Disk(MoveTree(source, destination));
      raised := !ok;
    }

    /** `upsert_object`. */
    method UpsertObject(size: nat, etag: string) returns (raised: bool)
      requires Follows() && request.pc.Upsert? && pending == request.local.pending
      requires job.kind.PutObject? || (job.kind.Complete? && ConstructEtag(request.local.etags) == Some(etag))
      requires size == request.local.size && (job.kind.PutObject? ==> etag == request.local.etag)
      modifies this
      ensures Follows() && fs == old(fs) && rows == old(rows)
      ensures raised ==> request == Fail(old(request), Failure.Raised)
      ensures !raised ==> request == AfterUpsert(rows, old(request)) && request.pc.Publish? && pending == request.local.pending
    {
      var ok := Flush(pending.(putObjects := map[TargetObject(job) := Row(size, etag)]));
      raised := !ok;
    }

    /** `upsert_multipart_part`; its foreign key refuses a part whose upload is gone. */
    method UpsertPart(size: nat, etag: string) returns (raised: bool)
      requires Follows() && request.pc.Upsert? && job.kind.UploadPart? && pending == request.local.pending
      requires size == request.local.size && etag == request.local.etag
      modifies this
      ensures Follows() && fs == old(fs) && rows == old(rows)
      ensures raised ==> request == Fail(old(request), Failure.Raised)
      ensures !raised ==> request == AfterUpsert(rows, old(request)) && request.pc.Commit? && pending == request.local.pending
    {
      var ok := Look();
      if !ok || job.upload !in rows.uploads { return true; }
      pending := pending.(putParts := map[TargetPart(job) := Row(size, etag)]);
      return false;
    }

    /** `insert` of the upload's row. */
    method InsertMultipart() returns (raised: bool)
      requires Follows() && request.pc.InsertUpload? && pending == request.local.pending
      modifies this
      ensures Follows() && fs == old(fs) && rows == old(rows)
      ensures raised ==> request == Fail(old(request), Failure.Raised)
      ensures !raised ==> request.pc.Commit? && pending == request.local.pending && request == old(request).(pc := Pc.Commit, local := request.local)
    {
      var ok := Flush(pending.(putUploads := map[job.upload := UploadRow(job.bucket, job.key)]));
      raised := !ok;
    }

    /** `delete_multipart_parts`: every part row of the upload, one by one, then one flush. */
    method DeleteMultipartParts() returns (raised: bool)
      requires Follows() && request.pc.DropParts? && pending == request.local.pending
      modifies this
      ensures Follows() && fs == old(fs) && rows == old(rows)
      ensures raised ==> request == Fail(old(request), Failure.Raised)
      ensures !raised ==> request == Pend(old(request), old(request).local.pending.(dropParts := PartsOf(rows, job.upload)), DropUpload)
      ensures !raised ==> pending == request.local.pending
    {
      var left, dropped := PartsOf(rows, job.upload), {};
      while left != {}
        invariant left + dropped == PartsOf(rows, job.upload)
        decreases left
      {
        var row :| row in left;
        left, dropped := left - {row}, dropped + {row};
      }
      var ok := Flush(pending.(dropParts := dropped));
      raised := !ok;
    }

    /** `delete` of the upload's row; part rows still there refuse it. */
    method DeleteMultipart() returns (raised: bool)
      requires Follows() && request.pc.DropUpload? && pending == request.local.pending
      modifies this
      ensures Follows() && fs == old(fs) && rows == old(rows)
      ensures raised ==> request == Fail(old(request), Failure.Raised)
      ensures !raised ==> request == AfterDropUpload(rows, old(request)) && request.pc.Commit? && pending == request.local.pending
    {
      var ok := Look();
      if !ok || !(PartsOf(rows, job.upload) <= pending.dropParts) { return true; }
      pending := pending.(dropUploads := {job.upload});
      return false;
    }

    method CommitTransaction() returns (raised: bool)
      requires Follows() && request.pc.Commit? && pending == request.local.pending
      modifies this
      ensures Follows() && fs == old(fs)
      ensures rows == if raised then old(rows) else CommitChanges(old(rows), old(pending))
      ensures request == if raised then Fail(old(request), Failure.Raised) else AfterCommit(old(request))
    {
      var ok := Commit();
      raised := !ok;
    }

    // ---------- compensation and cleanup ----------

    /** A compensation that is not needed, or a lock given back. */
    ghost method Skip()
      requires Follows() && NothingDue(request)
      modifies this`outcomes, this`request
      ensures Follows()
      ensures request == AfterQuiet(old(request))
    {
      Record(Returned, Here());
    }

    /** `delete` of the target, a backup or the staged file. */
    method Delete(path: Path) returns (raised: bool)
      requires Follows() && DeletionDue(request, path)
      modifies this
      ensures Follows() && rows == old(rows) && pending == old(pending)
      ensures request == AfterDelete(old(request), raised)
    {
      var ok := Disk(Operation.Delete(path));
      raised := !ok;
    }

    /** `copy` of an object's backup back over it. */
    method RestoreByCopy(source: Path, destination: Path) returns (raised: bool)
      requires Follows() && request.pc.Undo? && !job.kind.UploadPart? && request.flags.written && request.flags.backupCreated
      requires source == BackupFile(job) && destination == TargetPath(job)
      modifies this
      ensures Follows() && rows == old(rows) && pending == old(pending)
      ensures request == AfterUndo(Go(old(request), DropBackup), false, !raised)
    {
      var ok := Disk(Operation.Copy(source, destination));
      raised := !ok;
    }

    /** `rename` of a part's backup back to its place. */
    method RestoreByRename(source: Path, destination: Path) returns (raised: bool)
      requires Follows() && request.pc.Undo? && job.kind.UploadPart? && request.flags.backupCreated
      requires source == BackupFile(job) && destination == TargetPath(job)
      modifies this
      ensures Follows() && rows == old(rows) && pending == old(pending)
      ensures request == AfterUndo(Go(old(request), DropStaged), false, !raised)
    {
      var ok := Disk(Operation.Move(source, destination));
      raised := !ok;
    }

    /** `rename` of the upload's directory back from its cleanup path. */
    method RestoreUploadDir(source: Path, destination: Path) returns (raised: bool)
      requires Follows() && request.pc.RestoreUpload? && request.flags.moved
      requires source == CleanupDir(job) && destination == UploadPath(job.upload)
      modifies this
      ensures Follows() && rows == old(rows) && pending == old(pending)
      ensures request == AfterRestoreUpload(Go(old(request), if job.kind.Complete? then DropStaged else UnlockOuter), !raised)
    {
      var ok := Disk(MoveTree(source, destination));
      raised := !ok;
    }

    /** `rmtree`. */
    method RemoveTreeAt(path: Path) returns (raised: bool)
      requires Follows() && request.pc.TidyUpload? && (job.kind.Create? || request.flags.moved)
      requires path == if job.kind.Create? then UploadPath(job.upload) else CleanupDir(job)
      modifies this
      ensures Follows() && rows == old(rows) && pending == old(pending)
      ensures request == AfterTidyUpload(Go(old(request), Pc.Finished), false, !raised)
    {
      var ok := Disk(RemoveTree(path));
      raised := !ok;
    }

    /** Gives back the lock taken last. */
    method GiveBackLock()
      requires Follows() && (request.pc.UnlockInner? || request.pc.UnlockOuter?)
      modifies this
      ensures Follows() && fs == old(fs) && rows == old(rows) && pending == old(pending)
      ensures request == AfterQuiet(old(request))
    {
      Skip();
    }
  }
}
