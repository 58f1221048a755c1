/** `multipart_abort` (app/services/multipart_abort.py). */
module MultipartAbortService {
  import opened Text
  import opened Paths
  import opened Etags
  import opened FileSystems
  import opened Rows
  import opened Requests
  import opened Shapes
  import opened Footprints
  import opened Sessions
  import opened Solo
  import opened Verdicts

  /** The call is in the upload's lock with the given flag set. */
  ghost predicate Locked(s: Session, uploadMoved: bool)
    reads s
  {
    && s.Follows() && s.job.kind.Abort?
    && s.request.flags == Flags(false, false, uploadMoved, s.request.flags.verified, false, false)
  }

  /** The `try` block. */
  method RemoveUpload(s: Session) returns (failure: Option<Failure>, uploadMoved: bool)
    requires Locked(s, false) && s.request.pc.LoadUpload? && s.request.failure.None? && s.pending == s.request.local.pending
    modifies s
    ensures failure.Some? ==> Locked(s, uploadMoved) && s.request.pc.Rollback? && s.request.failure == failure
    ensures failure.None? ==> s.Follows() && s.request.pc.UnlockOuter? && s.request.failure.None?
    ensures failure.None? ==> s.request.flags == Flags(false, false, uploadMoved, s.request.flags.verified, false, true)
  {
    var j := s.job;
    var uploadPath, cleanupPath := UploadPath(j.upload), AbortedPath(j.upload, j.cleanup);
    uploadMoved := false;

    var raised, there := s.LoadMultipart();
    if raised { return Some(Failure.Raised), uploadMoved; }
    if !there { return Some(NoSuchUpload), uploadMoved; }
    raised, there := s.IsDirectory(uploadPath);
    if raised { return Some(Failure.Raised), uploadMoved; }
    if there {
      raised := s.MoveUploadAside(uploadPath, cleanupPath);
      if raised { return Some(Failure.Raised), uploadMoved; }
      uploadMoved := true;
    }
    raised := s.DeleteMultipartParts();
    if raised { return Some(Failure.Raised), uploadMoved; }
    raised := s.DeleteMultipart();
    if raised { return Some(Failure.Raised), uploadMoved; }
    raised := s.CommitTransaction();
    if raised { return Some(Failure.Raised), uploadMoved; }
    return None, uploadMoved;
  }

  /** The `except` block. */
  method Compensate(s: Session, uploadMoved: bool)
    requires Locked(s, uploadMoved) && s.request.pc.Rollback? && s.request.failure.Some?
    modifies s
    ensures s.Follows() && s.request.pc.UnlockOuter? && s.request.failure == old(s.request.failure)
  {
    s.Rollback();
    if uploadMoved {
      var raised := s.RestoreUploadDir(AbortedPath(s.job.upload, s.job.cleanup), UploadPath(s.job.upload));
    } else {
      s.Skip();
    }
  }

  method DropDirectory(s: Session, uploadMoved: bool)
    requires s.Follows() && s.job.kind.Abort? && s.request.pc.TidyUpload? && s.request.flags.moved == uploadMoved
    modifies s
    ensures s.Follows() && s.request.pc.Finished? && s.request.failure == old(s.request.failure)
  {
    if uploadMoved {
      var raised := s.RemoveTreeAt(AbortedPath(s.job.upload, s.job.cleanup));
    } else {
      s.Skip();
    }
  }

  /** Everything that happens under the upload's lock. */
  method UnderLock(s: Session) returns (failure: Option<Failure>, uploadMoved: bool)
    requires s.Follows() && s.request == NewRequest(s.job) && s.job.kind.Abort? && s.pending == NO_CHANGES
    modifies s
    ensures s.Follows() && s.request.failure == failure
    ensures failure.Some? ==> s.request.pc.Finished?
    ensures failure.None? ==> s.request.pc.TidyUpload? && s.request.flags.moved == uploadMoved
  {
    s.TakeLock();
    failure, uploadMoved := RemoveUpload(s);
    if failure.Some? { Compensate(s, uploadMoved); }
    s.GiveBackLock();
  }

  /** The files without those of one upload. */
  function Without(files: map<Path, Bytes>, upload: string): map<Path, Bytes> {
    map p | p in files && !(UploadPath(upload) <= p) :: files[p]
  }

  /** The rows without those of one upload. */
  function WithoutRows(t: Tables, upload: string): Tables {
    Tables(t.objects, t.uploads - {upload}, t.parts - PartsOf(t, upload))
  }

  /** What a finished call leaves, read off the ledger of its run. */
  lemma Finished(w0: World, w: World, r: Request)
    requires Startable(w0, r.job) && SoloLedger(w0, w, r) && r.pc.Finished? && r.job.kind.Abort?
    ensures r.failure.Some? && Clean(r) ==> w.rows == w0.rows && w.fs.files == w0.fs.files
    ensures r.failure.None? && !r.past.litter ==>
      w.fs.files == Without(w0.fs.files, r.job.upload) && w.rows == WithoutRows(w0.rows, r.job.upload)
  {
    if r.failure.Some? && Clean(r) { FailedRunChangesNothing(w0, w, r); }
    if r.failure.None? && !r.past.litter {
      ReturnedRunDoesItsJob(w0, w, r);
      SameFiles(FileSystem(Without(w0.fs.files, r.job.upload), {}), w.fs);
    }
  }

  /** The service: all or nothing under the upload's lock, then the moved directory is dropped. */
  method MultipartAbort(s: Session) returns (failure: Option<Failure>)
    requires s.Follows() && s.request == NewRequest(s.job) && s.job.kind.Abort? && s.pending == NO_CHANGES
    requires s.origin == s.Here() && Startable(s.origin, s.job)
    modifies s
    ensures s.Follows() && s.request.pc.Finished? && s.request.failure == failure
    ensures PrivateRoom(old(s.fs), s.job) ==> failure == Verdict(old(s.Here()), s.job) || failure == Some(Failure.Raised)
    ensures Faultless(s.outcomes) && PrivateRoom(old(s.fs), s.job) ==>
      failure == Verdict(old(s.Here()), s.job) && (Flat(old(s.fs), s.job) ==> Clean(s.request))
    ensures failure.Some? && Clean(s.request) ==> s.rows == old(s.rows) && s.fs.files == old(s.fs.files)
    ensures failure.None? && !s.request.past.litter ==>
      s.fs.files == Without(old(s.fs.files), s.job.upload) && s.rows == WithoutRows(old(s.rows), s.job.upload)
  {
    var uploadMoved;
    failure, uploadMoved := UnderLock(s);
    if failure.None? { DropDirectory(s, uploadMoved); }
    ExecKeepsLedger(s.origin, s.job, s.outcomes);
    if PrivateRoom(s.origin.fs, s.job) {
      RunDecides(s.origin, s.job, s.outcomes);
      if Faultless(s.outcomes) { FaultlessRunDecides(s.origin, s.job, s.outcomes); }
    }
    Finished(s.origin, s.Here(), s.request);
  }
}
