/** `multipart_upload` (app/services/multipart_upload.py). */
module MultipartUploadService {
  import opened Text
  import opened Paths
  import opened Etags
  import opened FileSystems
  import opened Rows
  import opened Requests
  import opened Shapes
  import opened Sessions
  import opened Solo
  import opened Verdicts

  /** The call is in the part's lock with the given flags set. */
  ghost predicate Locked(s: Session, backupCreated: bool, partWritten: bool)
    reads s
  {
    && s.Follows() && s.job.kind.UploadPart?
    && s.request.flags == Flags(backupCreated, partWritten, false, s.request.flags.verified, false, false)
  }

  /** The `try` block. */
  method PublishPart(s: Session) returns (failure: Option<Failure>, backupCreated: bool, partWritten: bool, etag: string)
    requires Locked(s, false, false) && s.request.pc.CheckUploadDir? && s.request.failure.None? && s.pending == s.request.local.pending
    modifies s
    ensures failure.Some? ==> Locked(s, backupCreated, partWritten) && s.request.pc.Rollback? && s.request.failure == failure
    ensures failure.None? ==> s.Follows() && s.request.pc.TidyLocked? && s.request.failure.None? && s.request.local.etag == etag
    ensures failure.None? ==> s.request.flags == Flags(backupCreated, true, false, s.request.flags.verified, false, true)
  {
    var j := s.job;
    var uploadPath, partPath := UploadPath(j.upload), PartPath(j.upload, j.number);
    var stagedPath, backupPath := StagedPartPath(j.upload, j.number, j.staged), PartBackupPath(j.upload, j.number, j.backup);
    backupCreated, partWritten, etag := false, false, "";

    var raised, there := s.IsDirectory(uploadPath);
    if raised { return Some(Failure.Raised), backupCreated, partWritten, etag; }
    if !there { return Some(NoSuchUpload), backupCreated, partWritten, etag; }
    raised, there := s.LoadMultipart();
    if raised { return Some(Failure.Raised), backupCreated, partWritten, etag; }
    if !there { return Some(NoSuchUpload), backupCreated, partWritten, etag; }

    raised := s.Upload(j.body, stagedPath);
    if raised { return Some(Failure.Raised), backupCreated, partWritten, etag; }
    var size;
    raised, size, etag := s.Measure(stagedPath);
    if raised { return Some(Failure.Raised), backupCreated, partWritten, etag; }

    raised, there := s.IsRegularFile(partPath);
    if raised { return Some(Failure.Raised), backupCreated, partWritten, etag; }
    if there {
      raised := s.BackUpByRename(partPath, backupPath);
      if raised { return Some(Failure.Raised), backupCreated, partWritten, etag; }
      backupCreated := true;
    }
    var taken;
    raised, taken := s.Publish(stagedPath, partPath);
    if raised { return Some(if taken then KeyConflict else Failure.Raised), backupCreated, partWritten, etag; }
    partWritten := true;
    raised := s.UpsertPart(size, etag);
    if raised { return Some(Failure.Raised), backupCreated, partWritten, etag; }
    raised := s.CommitTransaction();
    if raised { return Some(Failure.Raised), backupCreated, partWritten, etag; }
    return None, backupCreated, partWritten, etag;
  }

  /** The `except` block. */
  method Compensate(s: Session, backupCreated: bool, partWritten: bool)
    requires Locked(s, backupCreated, partWritten) && s.request.pc.Rollback? && s.request.failure.Some?
    modifies s
    ensures s.Follows() && s.request.pc.UnlockOuter? && s.request.failure == old(s.request.failure)
  {
    var j := s.job;
    var partPath := PartPath(j.upload, j.number);
    s.Rollback();
    if partWritten && !backupCreated {
      var raised := s.Delete(partPath);
    }
    if backupCreated {
      var raised := s.RestoreByRename(PartBackupPath(j.upload, j.number, j.backup), partPath);
    }
    if !partWritten && !backupCreated { s.Skip(); }
    var raised := s.Delete(StagedPartPath(j.upload, j.number, j.staged));
  }

  /** Drops the previous part's backup while the lock is still held. */
  method DropBackup(s: Session, backupCreated: bool)
    requires s.Follows() && s.job.kind.UploadPart? && s.request.pc.TidyLocked? && s.request.flags.backupCreated == backupCreated
    modifies s
    ensures s.Follows() && s.request.pc.UnlockOuter? && s.request.failure == old(s.request.failure)
    ensures s.request.local == old(s.request.local)
  {
    if backupCreated {
      var raised := s.Delete(PartBackupPath(s.job.upload, s.job.number, s.job.backup));
    } else {
      s.Skip();
    }
  }

  /** Everything that happens under the part's lock. */
  method UnderLock(s: Session) returns (failure: Option<Failure>, etag: string)
    requires s.Follows() && s.request == NewRequest(s.job) && s.job.kind.UploadPart? && s.pending == NO_CHANGES
    modifies s
    ensures s.Follows() && s.request.pc.Finished? && s.request.failure == failure
    ensures failure.None? ==> s.request.local.etag == etag
  {
    s.TakeLock();
    var backupCreated, partWritten;
    failure, backupCreated, partWritten, etag := PublishPart(s);
    if failure.Some? { Compensate(s, backupCreated, partWritten); } else { DropBackup(s, backupCreated); }
    s.GiveBackLock();
  }

  /** What a finished call leaves, read off the ledger of its run. */
  lemma Finished(w0: World, w: World, r: Request)
    requires Startable(w0, r.job) && SoloLedger(w0, w, r) && r.pc.Finished? && r.job.kind.UploadPart?
    ensures r.failure.Some? && Clean(r) ==> w.rows == w0.rows && w.fs.files == w0.fs.files
    ensures r.failure.None? && !r.past.litter ==>
      && w.fs.files == w0.fs.files[PartPath(r.job.upload, r.job.number) := r.job.body]
      && w.rows == w0.rows.(parts := w0.rows.parts[TargetPart(r.job) := Row(|r.job.body|, ContentEtag(r.job.body))])
      && r.local.etag == ContentEtag(r.job.body)
  {
    if r.failure.Some? && Clean(r) { FailedRunChangesNothing(w0, w, r); }
    if r.failure.None? && !r.past.litter {
      ReturnedRunDoesItsJob(w0, w, r);
      SameFiles(FileSystem(w0.fs.files[PartPath(r.job.upload, r.job.number) := r.job.body], {}), w.fs);
    }
  }

  /** The service: all or nothing under the part's lock; it returns the part's ETag. */
  method MultipartUpload(s: Session) returns (failure: Option<Failure>, etag: string)
    requires s.Follows() && s.request == NewRequest(s.job) && s.job.kind.UploadPart? && s.pending == NO_CHANGES
    requires s.origin == s.Here() && Startable(s.origin, s.job)
    modifies s
    ensures s.Follows() && s.request.pc.Finished? && s.request.failure == failure
    ensures PrivateRoom(old(s.fs), s.job) ==> failure == Verdict(old(s.Here()), s.job) || failure == Some(Failure.Raised)
    ensures Faultless(s.outcomes) && PrivateRoom(old(s.fs), s.job) ==>
      failure == Verdict(old(s.Here()), s.job) && (Flat(old(s.fs), s.job) ==> Clean(s.request))
    ensures failure.Some? && Clean(s.request) ==> s.rows == old(s.rows) && s.fs.files == old(s.fs.files)
    ensures failure.None? && !s.request.past.litter ==>
      && s.fs.files == old(s.fs.files)[PartPath(s.job.upload, s.job.number) := s.job.body]
      && s.rows == old(s.rows).(parts := old(s.rows).parts[TargetPart(s.job) := Row(|s.job.body|, ContentEtag(s.job.body))])
      && etag == ContentEtag(s.job.body)
  {
    failure, etag := UnderLock(s);
    ExecKeepsLedger(s.origin, s.job, s.outcomes);
    if PrivateRoom(s.origin.fs, s.job) {
      RunDecides(s.origin, s.job, s.outcomes);
      if Faultless(s.outcomes) { FaultlessRunDecides(s.origin, s.job, s.outcomes); }
    }
    Finished(s.origin, s.Here(), s.request);
  }
}
