/** `object_upload` (app/services/object_upload.py) on a bucket whose versioning is Disabled. */
module ObjectUploadService {
  import opened Text
  import opened Paths
  import opened Etags
  import opened FileSystems
  import opened Rows
  import opened Requests
  import opened Shapes
  import opened Sessions
  import opened Solo
  import opened Verdicts

  /** The call is in the bucket's lock with the given flags set. */
  ghost predicate Locked(s: Session, backupCreated: bool, objectWritten: bool)
    reads s
  {
    && s.Follows() && s.job.kind.PutObject?
    && s.request.flags == Flags(backupCreated, objectWritten, false, false, false, false)
    && !s.request.past.targetLost
  }

  /** The `try` block. */
  method PublishObject(s: Session) returns (failure: Option<Failure>, backupCreated: bool, objectWritten: bool)
    requires Locked(s, false, false) && s.request.pc.CheckBucket? && s.request.failure.None? && s.pending == s.request.local.pending
    modifies s
    ensures failure.Some? ==> Locked(s, backupCreated, objectWritten) && s.request.pc.Rollback? && s.request.failure == failure
    ensures failure.None? ==> s.Follows() && s.request.pc.UnlockOuter? && s.request.failure.None?
    ensures failure.None? ==> s.request.flags == Flags(backupCreated, true, false, false, false, true)
  {
    var j := s.job;
    var bucketPath, objectPath := BucketPath(j.bucket), ObjectPath(j.bucket, j.key);
    var stagedPath, backupPath := StagedPath(j.staged), StagedPath(j.backup);
    backupCreated, objectWritten := false, false;

    var raised, there := s.IsDirectory(bucketPath);
    if raised { return Some(Failure.Raised), backupCreated, objectWritten; }
    if !there { return Some(NoSuchBucket), backupCreated, objectWritten; }

    raised := s.Upload(j.body, stagedPath);
    if raised { return Some(Failure.Raised), backupCreated, objectWritten; }
    var size, etag;
    raised, size, etag := s.Measure(stagedPath);
    if raised { return Some(Failure.Raised), backupCreated, objectWritten; }

    raised, there := s.IsDirectory(objectPath);
    if raised { return Some(Failure.Raised), backupCreated, objectWritten; }
    if there { return Some(KeyConflict), backupCreated, objectWritten; }
    var taken;
    raised, taken := s.MakeTree(Parent(objectPath));
    if raised { return Some(if taken then KeyConflict else Failure.Raised), backupCreated, objectWritten; }

    raised, there := s.IsRegularFile(objectPath);
    if raised { return Some(Failure.Raised), backupCreated, objectWritten; }
    if there {
      raised := s.BackUpByCopy(objectPath, backupPath);
      if raised { return Some(Failure.Raised), backupCreated, objectWritten; }
      backupCreated := true;
    }
    raised := s.UpsertObject(size, etag);
    if raised { return Some(Failure.Raised), backupCreated, objectWritten; }
    raised, taken := s.Publish(stagedPath, objectPath);
    if raised { return Some(if taken then KeyConflict else Failure.Raised), backupCreated, objectWritten; }
    objectWritten := true;
    raised := s.CommitTransaction();
    if raised { return Some(Failure.Raised), backupCreated, objectWritten; }
    return None, backupCreated, objectWritten;
  }

  /** The `except` block. */
  method Compensate(s: Session, backupCreated: bool, objectWritten: bool)
    requires Locked(s, backupCreated, objectWritten) && s.request.pc.Rollback? && s.request.failure.Some?
    modifies s
    ensures s.Follows() && s.request.pc.UnlockOuter? && s.request.failure == old(s.request.failure)
  {
    var j := s.job;
    var objectPath := ObjectPath(j.bucket, j.key);
    var stagedPath, backupPath := StagedPath(j.staged), StagedPath(j.backup);
    s.Rollback();

    var restored := true;
    if objectWritten && !backupCreated {
      var raised := s.Delete(objectPath);
    }
    if objectWritten && backupCreated {
      var raised := s.RestoreByCopy(backupPath, objectPath);
      restored := !raised;
    }
    if !objectWritten { s.Skip(); }
    if backupCreated && restored {
      var raised := s.Delete(backupPath);
    } else {
      s.Skip();
    }
    var raised := s.Delete(stagedPath);
  }

  /** Everything that happens under the bucket's lock. */
  method UnderLock(s: Session) returns (failure: Option<Failure>, backupCreated: bool)
    requires s.Follows() && s.request == NewRequest(s.job) && s.job.kind.PutObject? && s.pending == NO_CHANGES
    modifies s
    ensures s.Follows() && s.request.failure == failure
    ensures failure.Some? ==> s.request.pc.Finished?
    ensures failure.None? ==> s.request.pc.Tidy? && s.request.flags.backupCreated == backupCreated
  {
    s.TakeLock();
    var objectWritten;
    failure, backupCreated, objectWritten := PublishObject(s);
    if failure.Some? { Compensate(s, backupCreated, objectWritten); }
    s.GiveBackLock();
  }

  /** What a finished call leaves, read off the ledger of its run. */
  lemma Finished(w0: World, w: World, r: Request)
    requires Startable(w0, r.job) && SoloLedger(w0, w, r) && r.pc.Finished? && r.job.kind.PutObject?
    ensures r.failure.Some? && Clean(r) ==> w.rows == w0.rows && w.fs.files == w0.fs.files
    ensures r.failure.None? && !r.past.litter ==>
      && w.fs.files == w0.fs.files[ObjectPath(r.job.bucket, r.job.key) := r.job.body]
      && w.rows == w0.rows.(objects := w0.rows.objects[TargetObject(r.job) := Row(|r.job.body|, ContentEtag(r.job.body))])
  {
    if r.failure.Some? && Clean(r) { FailedRunChangesNothing(w0, w, r); }
    if r.failure.None? && !r.past.litter {
      ReturnedRunDoesItsJob(w0, w, r);
      SameFiles(FileSystem(w0.fs.files[ObjectPath(r.job.bucket, r.job.key) := r.job.body], {}), w.fs);
    }
  }

  /** Drops the backup once the lock is given back. */
  method DropBackup(s: Session, backupCreated: bool)
    requires s.Follows() && s.job.kind.PutObject? && s.request.pc.Tidy? && s.request.flags.backupCreated == backupCreated
    modifies s
    ensures s.Follows() && s.request.pc.Finished? && s.request.failure == old(s.request.failure)
  {
    if backupCreated {
      var raised := s.Delete(StagedPath(s.job.backup));
    } else {
      s.Skip();
    }
  }

  /** The service: all or nothing under the bucket's lock, then the backup is dropped. */
  method ObjectUpload(s: Session) returns (failure: Option<Failure>)
    requires s.Follows() && s.request == NewRequest(s.job) && s.job.kind.PutObject? && s.pending == NO_CHANGES
    requires s.origin == s.Here() && Startable(s.origin, s.job)
    modifies s
    ensures s.Follows() && s.request.pc.Finished? && s.request.failure == failure
    ensures PrivateRoom(old(s.fs), s.job) ==> failure == Verdict(old(s.Here()), s.job) || failure == Some(Failure.Raised)
    ensures Faultless(s.outcomes) && PrivateRoom(old(s.fs), s.job) ==>
      failure == Verdict(old(s.Here()), s.job) && (Flat(old(s.fs), s.job) ==> Clean(s.request))
    ensures failure.Some? && Clean(s.request) ==> s.rows == old(s.rows) && s.fs.files == old(s.fs.files)
    ensures failure.None? && !s.request.past.litter ==>
      && s.fs.files == old(s.fs.files)[ObjectPath(s.job.bucket, s.job.key) := s.job.body]
      && s.rows == old(s.rows).(objects := old(s.rows).objects[TargetObject(s.job) := Row(|s.job.body|, ContentEtag(s.job.body))])
  {
    var backupCreated;
    failure, backupCreated := UnderLock(s);
    if failure.None? { DropBackup(s, backupCreated); }
    ExecKeepsLedger(s.origin, s.job, s.outcomes);
    if PrivateRoom(s.origin.fs, s.job) {
      RunDecides(s.origin, s.job, s.outcomes);
      if Faultless(s.outcomes) { FaultlessRunDecides(s.origin, s.job, s.outcomes); }
    }
    Finished(s.origin, s.Here(), s.request);
  }
}
