/** `multipart_create` (app/services/multipart_create.py). It takes no lock. */
module MultipartCreateService {
  import opened Text
  import opened Paths
  import opened FileSystems
  import opened Rows
  import opened Requests
  import opened Shapes
  import opened Sessions
  import opened Solo
  import opened Verdicts

  method Register(s: Session) returns (failure: Option<Failure>)
    requires s.Follows() && s.job.kind.Create? && s.request.pc.MakeDirs? && s.request.failure.None? && s.pending == s.request.local.pending
    modifies s
    ensures s.Follows() && s.request.failure == failure
    ensures failure.Some? ==> s.request.pc.Rollback?
    ensures failure.None? ==> s.request.pc.Finished?
  {
    var raised, taken := s.MakeTree(UploadPath(s.job.upload));
    if raised { return Some(if taken then KeyConflict else Failure.Raised); }
    raised := s.InsertMultipart();
    if raised { return Some(Failure.Raised); }
    raised := s.CommitTransaction();
    if raised { return Some(Failure.Raised); }
    return None;
  }

  /** What a finished call leaves, read off the ledger of its run. */
  lemma Finished(w0: World, w: World, r: Request)
    requires Startable(w0, r.job) && SoloLedger(w0, w, r) && r.pc.Finished? && r.job.kind.Create?
    ensures r.failure.Some? && Clean(r) ==> w.rows == w0.rows && w.fs.files == w0.fs.files
    ensures r.failure.None? ==>
      w.fs.files == w0.fs.files && w.rows == w0.rows.(uploads := w0.rows.uploads[r.job.upload := UploadRow(r.job.bucket, r.job.key)])
  {
    if r.failure.Some? && Clean(r) { FailedRunChangesNothing(w0, w, r); }
    if r.failure.None? {
      ReturnedRunDoesItsJob(w0, w, r);
      SameFiles(w0.fs, w.fs);
    }
  }

  /** The service: the upload's directory and its row, or neither; and no file. */
  method MultipartCreate(s: Session) returns (failure: Option<Failure>)
    requires s.Follows() && s.request == NewRequest(s.job) && s.job.kind.Create? && s.pending == NO_CHANGES
    requires s.origin == s.Here() && Startable(s.origin, s.job)
    modifies s
    ensures s.Follows() && s.request.pc.Finished? && s.request.failure == failure
    ensures PrivateRoom(old(s.fs), s.job) ==> failure == Verdict(old(s.Here()), s.job) || failure == Some(Failure.Raised)
    ensures Faultless(s.outcomes) && PrivateRoom(old(s.fs), s.job) ==>
      failure == Verdict(old(s.Here()), s.job) && (Flat(old(s.fs), s.job) ==> Clean(s.request))
    ensures failure.Some? && Clean(s.request) ==> s.rows == old(s.rows) && s.fs == old(s.fs)
    ensures failure.None? ==>
      s.fs == old(s.fs).(dirs := old(s.fs).dirs + {UploadPath(s.job.upload)})
      && s.rows == old(s.rows).(uploads := old(s.rows).uploads[s.job.upload := UploadRow(s.job.bucket, s.job.key)])
  {
    s.Begin();
    failure := Register(s);
    if failure.Some? {
      s.Rollback();
      var raised := s.RemoveTreeAt(UploadPath(s.job.upload));
    }
    ExecKeepsLedger(s.origin, s.job, s.outcomes);
    if PrivateRoom(s.origin.fs, s.job) {
      RunDecides(s.origin, s.job, s.outcomes);
      if Faultless(s.outcomes) { FaultlessRunDecides(s.origin, s.job, s.outcomes); }
    }
    ExecKeepsCreatorDirs(s.origin, s.job, s.outcomes);
    Finished(s.origin, s.Here(), s.request);
  }
}
