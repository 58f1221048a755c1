/** `multipart_complete` (app/services/multipart_complete.py) on a bucket whose versioning is Disabled. */
module MultipartCompleteService {
  import opened Text
  import opened Paths
  import opened Etags
  import opened FileSystems
  import opened Rows
  import opened PartLists
  import opened Requests
  import opened Shapes
  import opened Footprints
  import opened Records
  import opened Sessions
  import opened Solo
  import opened Verdicts

  /** The call holds the upload's lock only. */
  ghost predicate Assembling(s: Session)
    reads s
  {
    && s.Follows() && s.job.kind.Complete?
    && s.request.flags == Flags(false, false, false, s.request.flags.verified, false, false)
  }

  /** The call holds both locks, with the given flags set. */
  ghost predicate Locked(s: Session, backupCreated: bool, objectWritten: bool, uploadMoved: bool)
    reads s
  {
    && s.Follows() && s.job.kind.Complete?
    && s.request.flags == Flags(backupCreated, objectWritten, uploadMoved, s.request.flags.verified, true, false)
    && !s.request.past.targetLost
  }

  lemma LoadedShape(t: Tables, fs: FileSystem, j: Job)
    requires LoadParts(t, fs, j.upload, j.listed).Loaded?
    ensures LoadParts(t, fs, j.upload, j.listed).paths == PathsUpTo(j.upload, j.listed, |j.listed|)
    ensures |LoadParts(t, fs, j.upload, j.listed).etags| == |j.listed|
  {
    var n := LoadPartsCharacterized(t, fs, j.upload, j.listed);
  }

  lemma MatchIsEquality(listed: seq<ListedPart>, etags: seq<string>)
    ensures ListedMatch(listed, etags) <==> ListedEtags(listed) == etags
  {
  }

  /** Load and validate the parts the client listed. */
  method LoadListedParts(s: Session) returns (failure: Option<Failure>, paths: seq<Path>, storedEtags: seq<string>)
    requires Assembling(s) && s.request.pc.LoadUpload? && s.request.failure.None? && s.pending == s.request.local.pending
    modifies s
    ensures Assembling(s) && s.request.failure == failure && s.request.past == old(s.request.past)
    ensures failure.Some? ==> s.request.pc.Rollback?
    ensures failure.None? ==> s.request.pc.Assemble? && s.pending == s.request.local.pending
    ensures failure.None? ==> paths == PathsUpTo(s.job.upload, s.job.listed, |s.job.listed|)
    ensures failure.None? ==> s.request.local.etags == storedEtags && |storedEtags| == |s.job.listed|
  {
    paths, storedEtags := [], [];
    var raised, there := s.LoadMultipart();
    if raised { return Some(Failure.Raised), paths, storedEtags; }
    if !there { return Some(NoSuchUpload), paths, storedEtags; }
    var loaded;
    raised, loaded := s.LoadParts();
    if raised { return Some(Failure.Raised), paths, storedEtags; }
    if loaded.Faulty? { return Some(BadPart), paths, storedEtags; }
    LoadedShape(s.rows, s.fs, s.job);
    paths, storedEtags := loaded.paths, loaded.etags;
    MatchIsEquality(s.job.listed, storedEtags);
    var same := s.Compare(ListedEtags(s.job.listed), storedEtags);
    if !same { return Some(BadPart), paths, storedEtags; }
    return None, paths, storedEtags;
  }

  /** The first `try` block: validation and assembly, outside the bucket's lock. */
  method AssembleParts(s: Session) returns (failure: Option<Failure>, size: nat, storedEtags: seq<string>)
    requires Assembling(s) && s.request.pc.LoadUpload? && s.request.failure.None? && s.pending == s.request.local.pending
    requires !s.request.past.targetLost
    modifies s
    ensures Assembling(s) && s.request.failure == failure && !s.request.past.targetLost
    ensures failure.Some? ==> s.request.pc.Rollback?
    ensures failure.None? ==> s.request.pc.AwaitBucket? && s.pending == s.request.local.pending
    ensures failure.None? ==> s.request.local.size == size && s.request.local.etags == storedEtags
  {
    size := 0;
    var paths;
    failure, paths, storedEtags := LoadListedParts(s);
    if failure.Some? { return failure, size, storedEtags; }
    var raised, hashes := s.ConcatParts(paths, StagedPath(s.job.staged));
    if raised { return Some(Failure.Raised), size, storedEtags; }
    var same := s.Compare(storedEtags, hashes);
    if !same { return Some(BadPart), size, storedEtags; }
    raised, size := s.FileSize(StagedPath(s.job.staged));
    if raised { return Some(Failure.Raised), size, storedEtags; }
    return None, size, storedEtags;
  }

  /** The first `except` block. */
  method DiscardAssembly(s: Session)
    requires Assembling(s) && s.request.pc.Rollback? && s.request.failure.Some?
    modifies s
    ensures s.Follows() && s.request.pc.UnlockOuter? && s.request.failure == old(s.request.failure)
  {
    s.Rollback();
    s.Skip();
    s.Skip();
    s.Skip();
    var raised := s.Delete(StagedPath(s.job.staged));
  }

  lemma ComparedEtagsCombine(w: World, r: Request)
    requires Recorded(w, r) && r.job.kind.Complete? && r.pc.Upsert?
    ensures ConstructEtag(r.local.etags).Some?
  {
    ConstructedEtag(r.past.pieces);
  }

  /** The compared ETags are hexadecimal, so their combination cannot raise. */
  lemma StoredEtagsCombine(s: Session)
    requires s.Follows() && Startable(s.origin, s.job) && s.job.kind.Complete? && s.request.pc.Upsert?
    ensures ConstructEtag(s.request.local.etags).Some?
  {
    ExecKeepsLedger(s.origin, s.job, s.outcomes);
    ComparedEtagsCombine(s.Here(), s.request);
  }

  /** The second `try` block, up to the published object. */
  method PublishObject(s: Session, size: nat, storedEtags: seq<string>) returns (failure: Option<Failure>, backupCreated: bool, objectWritten: bool)
    requires Locked(s, false, false, false) && s.request.pc.CheckBucket? && s.request.failure.None? && s.pending == s.request.local.pending
    requires s.request.local.size == size && s.request.local.etags == storedEtags && Startable(s.origin, s.job)
    modifies s
    ensures Locked(s, backupCreated, objectWritten, false) && s.request.failure == failure
    ensures failure.Some? ==> s.request.pc.Rollback?
    ensures failure.None? ==> s.request.pc.MoveUpload? && objectWritten && s.pending == s.request.local.pending
  {
    var j := s.job;
    var objectPath := ObjectPath(j.bucket, j.key);
    backupCreated, objectWritten := false, false;
    var raised, there := s.IsDirectory(BucketPath(j.bucket));
    if raised { return Some(Failure.Raised), backupCreated, objectWritten; }
    if !there { return Some(NoSuchBucket), backupCreated, objectWritten; }

    raised, there := s.IsDirectory(objectPath);
    if raised { return Some(Failure.Raised), backupCreated, objectWritten; }
    if there { return Some(KeyConflict), backupCreated, objectWritten; }
    var taken;
    raised, taken := s.MakeTree(Parent(objectPath));
    if raised { return Some(if taken then KeyConflict else Failure.Raised), backupCreated, objectWritten; }

    raised, there := s.IsRegularFile(objectPath);
    if raised { return Some(Failure.Raised), backupCreated, objectWritten; }
    if there {
      raised := s.BackUpByCopy(objectPath, ObjectBackupPath(j.backup));
      if raised { return Some(Failure.Raised), backupCreated, objectWritten; }
      backupCreated := true;
    }
    StoredEtagsCombine(s);
    raised := s.UpsertObject(size, ConstructEtag(storedEtags).value);
    if raised { return Some(Failure.Raised), backupCreated, objectWritten; }
    raised, taken := s.Publish(StagedPath(j.staged), objectPath);
    if raised { return Some(if taken then KeyConflict else Failure.Raised), backupCreated, objectWritten; }
    objectWritten := true;
    return None, backupCreated, objectWritten;
  }

  /** The rest of the second `try` block: the upload goes with the commit. */
  method RemoveUpload(s: Session, backupCreated: bool) returns (failure: Option<Failure>, uploadMoved: bool)
    requires Locked(s, backupCreated, true, false) && s.request.pc.MoveUpload? && s.request.failure.None? && s.pending == s.request.local.pending
    modifies s
    ensures failure.Some? ==> Locked(s, backupCreated, true, uploadMoved) && s.request.pc.Rollback? && s.request.failure == failure
    ensures failure.None? ==> s.Follows() && s.request.pc.UnlockInner? && s.request.failure.None? && uploadMoved
    ensures failure.None? ==> s.request.flags == Flags(backupCreated, true, true, s.request.flags.verified, true, true)
  {
    var j := s.job;
    uploadMoved := false;
    var raised := s.MoveUploadAside(UploadPath(j.upload), CompletedPath(j.upload, j.cleanup));
    if raised { return Some(Failure.Raised), uploadMoved; }
    uploadMoved := true;
    raised := s.DeleteMultipartParts();
    if raised { return Some(Failure.Raised), uploadMoved; }
    raised := s.DeleteMultipart();
    if raised { return Some(Failure.Raised), uploadMoved; }
    raised := s.CommitTransaction();
    if raised { return Some(Failure.Raised), uploadMoved; }
    return None, uploadMoved;
  }

  /** The object's part of the second `except` block. */
  method RestoreObject(s: Session, backupCreated: bool, objectWritten: bool, uploadMoved: bool)
    requires Locked(s, backupCreated, objectWritten, uploadMoved) && s.request.pc.Undo?
    modifies s
    ensures s.Follows() && s.request.pc.RestoreUpload? && s.request.failure == old(s.request.failure) && s.request.flags == old(s.request.flags)
  {
    var objectPath, backupPath := ObjectPath(s.job.bucket, s.job.key), ObjectBackupPath(s.job.backup);
    var restored := true;
    if objectWritten && !backupCreated {
      var raised := s.Delete(objectPath);
    }
    if objectWritten && backupCreated {
      var raised := s.RestoreByCopy(backupPath, objectPath);
      restored := !raised;
    }
    if !objectWritten { s.Skip(); }
    if backupCreated && restored {
      var raised := s.Delete(backupPath);
    } else {
      s.Skip();
    }
  }

  /** The second `except` block. */
  method Compensate(s: Session, backupCreated: bool, objectWritten: bool, uploadMoved: bool)
    requires Locked(s, backupCreated, objectWritten, uploadMoved) && s.request.pc.Rollback? && s.request.failure.Some?
    modifies s
    ensures s.Follows() && s.request.pc.UnlockInner? && s.request.failure == old(s.request.failure) && !s.request.flags.committed
  {
    s.Rollback();
    RestoreObject(s, backupCreated, objectWritten, uploadMoved);
    if uploadMoved {
      var raised := s.RestoreUploadDir(CompletedPath(s.job.upload, s.job.cleanup), UploadPath(s.job.upload));
    } else {
      s.Skip();
    }
    var raised := s.Delete(StagedPath(s.job.staged));
  }

  /** The second `try` block. */
  method PublishAndCommit(s: Session, size: nat, storedEtags: seq<string>)
    returns (failure: Option<Failure>, backupCreated: bool, objectWritten: bool, uploadMoved: bool)
    requires Locked(s, false, false, false) && s.request.pc.CheckBucket? && s.request.failure.None? && s.pending == s.request.local.pending
    requires s.request.local.size == size && s.request.local.etags == storedEtags && Startable(s.origin, s.job)
    modifies s
    ensures failure.Some? ==> Locked(s, backupCreated, objectWritten, uploadMoved) && s.request.pc.Rollback? && s.request.failure == failure
    ensures failure.None? ==> s.Follows() && s.request.pc.UnlockInner? && s.request.failure.None?
    ensures failure.None? ==> s.request.flags == Flags(backupCreated, true, uploadMoved, s.request.flags.verified, true, true)
  {
    uploadMoved := false;
    failure, backupCreated, objectWritten := PublishObject(s, size, storedEtags);
    if failure.None? { failure, uploadMoved := RemoveUpload(s, backupCreated); }
  }

  method TakeBucketLock(s: Session)
    requires Assembling(s) && s.request.pc.AwaitBucket? && !s.request.past.targetLost
    modifies s
    ensures Locked(s, false, false, false) && s.request.pc.CheckBucket? && s.request.failure == old(s.request.failure)
    ensures s.request.local == old(s.request.local) && s.pending == old(s.pending)
  {
    s.TakeLock();
  }

  method GiveBackBucketLock(s: Session)
    requires s.Follows() && s.request.pc.UnlockInner?
    modifies s
    ensures s.Follows() && s.request == old(s.request).(pc := UnlockOuter, flags := old(s.request).flags.(inner := false))
  {
    s.GiveBackLock();
  }

  /** The second `try` and `except` blocks, inside the bucket's lock. */
  method PublishLocked(s: Session, size: nat, storedEtags: seq<string>) returns (failure: Option<Failure>, backupCreated: bool, uploadMoved: bool)
    requires Assembling(s) && s.request.pc.AwaitBucket? && s.request.failure.None? && s.pending == s.request.local.pending
    requires s.request.local.size == size && s.request.local.etags == storedEtags && Startable(s.origin, s.job) && !s.request.past.targetLost
    modifies s
    ensures s.Follows() && s.request.failure == failure && s.request.pc.UnlockOuter?
    ensures failure.None? ==> s.request.flags.backupCreated == backupCreated && s.request.flags.moved == uploadMoved
  {
    TakeBucketLock(s);
    var objectWritten;
    failure, backupCreated, objectWritten, uploadMoved := PublishAndCommit(s, size, storedEtags);
    if failure.Some? { Compensate(s, backupCreated, objectWritten, uploadMoved); }
    GiveBackBucketLock(s);
  }

  /** Everything that happens under the upload's lock. */
  method UnderLock(s: Session) returns (failure: Option<Failure>, backupCreated: bool, uploadMoved: bool)
    requires s.Follows() && s.request == NewRequest(s.job) && s.job.kind.Complete? && s.pending == NO_CHANGES
    requires Startable(s.origin, s.job)
    modifies s
    ensures s.Follows() && s.request.failure == failure
    ensures failure.Some? ==> s.request.pc.Finished?
    ensures failure.None? ==> s.request.pc.Tidy? && s.request.flags.backupCreated == backupCreated && s.request.flags.moved == uploadMoved
  {
    backupCreated, uploadMoved := false, false;
    s.TakeLock();
    var size, storedEtags;
    failure, size, storedEtags := AssembleParts(s);
    if failure.Some? {
      DiscardAssembly(s);
    } else {
      failure, backupCreated, uploadMoved := PublishLocked(s, size, storedEtags);
    }
    s.GiveBackLock();
  }

  /** The previous object's backup and the completed upload's directory are no longer needed. */
  method TidyUp(s: Session, backupCreated: bool, uploadMoved: bool)
    requires s.Follows() && s.job.kind.Complete? && s.request.pc.Tidy?
    requires s.request.flags.backupCreated == backupCreated && s.request.flags.moved == uploadMoved
    modifies s
    ensures s.Follows() && s.request.pc.Finished? && s.request.failure == old(s.request.failure)
  {
    if backupCreated {
      var raised := s.Delete(ObjectBackupPath(s.job.backup));
    } else {
      s.Skip();
    }
    if uploadMoved {
      var raised := s.RemoveTreeAt(CompletedPath(s.job.upload, s.job.cleanup));
    } else {
      s.Skip();
    }
  }

  /** What a file holds after a completion: the object the assembled payload, the upload nothing. */
  function Completed(files: FileSystem, j: Job, payload: Bytes, p: Path): Option<Bytes> {
    if p == ObjectPath(j.bucket, j.key) then Some(payload) else if UploadPath(j.upload) <= p then None else At(files, p)
  }

  /** What a finished call leaves, read off the ledger of its run. */
  lemma Finished(w0: World, w: World, r: Request)
    requires Startable(w0, r.job) && SoloLedger(w0, w, r) && r.pc.Finished? && r.job.kind.Complete?
    ensures r.failure.Some? && Clean(r) ==> w.rows == w0.rows && w.fs.files == w0.fs.files
    ensures r.failure.None? && !r.past.litter ==>
      && PiecesAt(w0.fs, r.job, UploadPath(r.job.upload), r.past.pieces) && PiecesAgree(r)
      && (forall p :: At(w.fs, p) == Completed(w0.fs, r.job, Flatten(r.past.pieces), p))
      && ConstructEtag(ContentEtags(r.past.pieces)).Some?
      && w.rows.objects == w0.rows.objects[TargetObject(r.job) :=
           Row(|Flatten(r.past.pieces)|, ConstructEtag(ContentEtags(r.past.pieces)).value)]
      && w.rows.uploads == w0.rows.uploads - {r.job.upload} && w.rows.parts == w0.rows.parts - PartsOf(w0.rows, r.job.upload)
  {
    if r.failure.Some? && Clean(r) { FailedRunChangesNothing(w0, w, r); }
    if r.failure.None? && !r.past.litter { ReturnedRunDoesItsJob(w0, w, r); }
  }

  /** The service: all or nothing under the two locks, then the leftovers are dropped. */
  method MultipartComplete(s: Session) returns (failure: Option<Failure>)
    requires s.Follows() && s.request == NewRequest(s.job) && s.job.kind.Complete? && s.pending == NO_CHANGES
    requires s.origin == s.Here() && Startable(s.origin, s.job)
    modifies s
    ensures s.Follows() && s.request.pc.Finished? && s.request.failure == failure
    ensures PrivateRoom(old(s.fs), s.job) ==> failure == Verdict(old(s.Here()), s.job) || failure == Some(Failure.Raised)
    ensures Faultless(s.outcomes) && PrivateRoom(old(s.fs), s.job) ==>
      failure == Verdict(old(s.Here()), s.job) && (Flat(old(s.fs), s.job) ==> Clean(s.request))
    ensures failure.Some? && Clean(s.request) ==> s.rows == old(s.rows) && s.fs.files == old(s.fs.files)
    ensures failure.None? && !s.request.past.litter ==>
      var pieces := s.request.past.pieces;
      && PiecesAt(old(s.fs), s.job, UploadPath(s.job.upload), pieces) && PiecesAgree(s.request)
      && (forall p :: At(s.fs, p) == Completed(old(s.fs), s.job, Flatten(pieces), p))
      && ConstructEtag(ContentEtags(pieces)).Some?
      && s.rows.objects == old(s.rows).objects[TargetObject(s.job) := Row(|Flatten(pieces)|, ConstructEtag(ContentEtags(pieces)).value)]
      && s.rows.uploads == old(s.rows).uploads - {s.job.upload} && s.rows.parts == old(s.rows).parts - PartsOf(old(s.rows), s.job.upload)
  {
    var backupCreated, uploadMoved;
    failure, backupCreated, uploadMoved := UnderLock(s);
    if failure.None? { TidyUp(s, backupCreated, uploadMoved); }
    ExecKeepsLedger(s.origin, s.job, s.outcomes);
    if PrivateRoom(s.origin.fs, s.job) {
      RunDecides(s.origin, s.job, s.outcomes);
      if Faultless(s.outcomes) { FaultlessRunDecides(s.origin, s.job, s.outcomes); }
    }
    Finished(s.origin, s.Here(), s.request);
  }
}
