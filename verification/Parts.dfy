/** Part rows and part files. They agree unless a compensation failed, and even then
    the bytes that were at a part's path when its row was last committed are still on
    disk: at that path, at a part backup beside it, or at one of those names below
    the directory a request has moved the upload to. */
module Parts {
  import opened Text
  import opened Paths
  import opened Etags
  import opened FileSystems
  import opened Rows
  import opened PartLists
  import opened Requests
  import opened Shapes
  import opened Footprints
  import opened Ownership
  import opened Separation
  import opened Records
  import opened Server
  import opened Objects
  import opened Uploads

  /** The recorded size and MD5 are those of the bytes. */
  ghost predicate FitsPart(row: Option<Row>, data: Option<Bytes>) {
    match (row, data)
    case (None, None) => true
    case (Some(r), Some(b)) => r.size == |b| && r.etag == ContentEtag(b)
    case _ => false
  }

  function FileOf(id: PartId): Path { PartPath(id.upload, id.number) }

  function AsideFile(r: Request, id: PartId): Path { CleanupDir(r.job) + [PartFile(id.number)] }

  predicate OwnsPartFile(r: Request, id: PartId) {
    r.job.kind.UploadPart? && OwnsTarget(r) && TargetPart(r.job) == id
  }

  /** The part's file is being replaced, or its upload is moved aside. */
  predicate PartBusy(r: Request, id: PartId) { OwnsPartFile(r, id) || Displacing(r, id.upload) }

  ghost predicate PartIdle(s: Server, id: PartId) {
    forall r :: r in s.requests ==> !PartBusy(r, id)
  }

  ghost predicate PartUnharmed(s: Server, id: PartId) {
    && UploadUnharmed(s, id.upload)
    && forall r :: r in s.requests && r.job.kind.UploadPart? && TargetPart(r.job) == id ==> !r.past.targetLost
  }

  ghost predicate PartAgrees(s: Server, id: PartId) {
    && (forall r :: r in s.requests && OwnsPartFile(r, id) ==> FitsPart(r.past.rowBefore, r.past.before))
    && (forall r :: r in s.requests && Displacing(r, id.upload) ==> FitsPart(PartRow(s.world.rows, id), At(s.world.fs, AsideFile(r, id))))
    && (PartIdle(s, id) ==> FitsPart(PartRow(s.world.rows, id), At(s.world.fs, FileOf(id))))
  }

  ghost predicate PartsAgree(s: Server) {
    forall id :: PartUnharmed(s, id) ==> PartAgrees(s, id)
  }

  // ---------- only one request at a time is busy with a part ----------

  lemma BusyAlone(s: Server, i: nat, k: nat, id: PartId)
    requires Sound(s) && i < |s.requests| && k < |s.requests| && i != k
    requires PartBusy(s.requests[i], id) || OwnsUploadPath(s.requests[i], FileOf(id))
    ensures !PartBusy(s.requests[k], id)
  {
    var a, b, p := s.requests[i], s.requests[k], FileOf(id);
    assert Recorded(s.world, a) && Recorded(s.world, b) && Apart(s.world.rows, a, b);
    assert OwnsPath(a, p);
    OwnershipExclusive(s.world, a, b, p);
  }

  /** Nobody but the moving request is busy with the part, before or after its step. */
  ghost predicate OthersIdle(s: Server, i: nat, id: PartId) {
    forall k :: 0 <= k < |s.requests| && k != i ==> !PartBusy(s.requests[k], id)
  }

  lemma OthersAreIdle(s: Server, i: nat, id: PartId)
    requires Sound(s) && i < |s.requests| && (PartBusy(s.requests[i], id) || OwnsUploadPath(s.requests[i], FileOf(id)))
    ensures OthersIdle(s, i, id)
  {
    forall k | 0 <= k < |s.requests| && k != i ensures !PartBusy(s.requests[k], id) {
      BusyAlone(s, i, k, id);
    }
  }

  lemma IdleWithout(s: Server, i: nat, id: PartId)
    requires OthersIdle(s, i, id) && i < |s.requests| && !PartBusy(s.requests[i], id)
    ensures PartIdle(s, id)
  {
  }

  /** Agreement after a step, from what the moving request did to the part while it or nobody was busy. */
  lemma AgreesAfterOwn(s: Server, s': Server, i: nat, id: PartId)
    requires Moved(s, s', i) && OthersIdle(s, i, id)
    requires OwnsPartFile(s'.requests[i], id) ==> FitsPart(s'.requests[i].past.rowBefore, s'.requests[i].past.before)
    requires Displacing(s'.requests[i], id.upload) ==> FitsPart(PartRow(s'.world.rows, id), At(s'.world.fs, AsideFile(s'.requests[i], id)))
    requires !PartBusy(s'.requests[i], id) ==> FitsPart(PartRow(s'.world.rows, id), At(s'.world.fs, FileOf(id)))
    ensures PartAgrees(s', id)
  {
  }

  lemma AgreesAfterOther(s: Server, s': Server, i: nat, id: PartId)
    requires Moved(s, s', i) && PartAgrees(s, id) && !PartBusy(s.requests[i], id) && !PartBusy(s'.requests[i], id)
    requires PartRow(s'.world.rows, id) == PartRow(s.world.rows, id)
    requires PartIdle(s, id) ==> At(s'.world.fs, FileOf(id)) == At(s.world.fs, FileOf(id))
    requires forall k :: 0 <= k < |s.requests| && k != i && Displacing(s.requests[k], id.upload) ==>
      At(s'.world.fs, AsideFile(s.requests[k], id)) == At(s.world.fs, AsideFile(s.requests[k], id))
    ensures PartAgrees(s', id)
  {
  }

  lemma OthersAsideStays(s: Server, i: nat, o: Outcome, id: PartId)
    requires Sound(s) && i < |s.requests|
    ensures forall k :: 0 <= k < |s.requests| && k != i && Displacing(s.requests[k], id.upload) ==>
      At(StepOf(s, i, o).world.fs, AsideFile(s.requests[k], id)) == At(s.world.fs, AsideFile(s.requests[k], id))
  {
    forall k | 0 <= k < |s.requests| && k != i && Displacing(s.requests[k], id.upload)
      ensures At(StepOf(s, i, o).world.fs, AsideFile(s.requests[k], id)) == At(s.world.fs, AsideFile(s.requests[k], id))
    {
      OneAsideStays(s, i, o, k, AsideFile(s.requests[k], id));
    }
  }

  lemma OneAsideStays(s: Server, i: nat, o: Outcome, k: nat, p: Path)
    requires Sound(s) && i < |s.requests| && k < |s.requests| && k != i && Ends(s.requests[k].job.kind) && CleanupDir(s.requests[k].job) <= p
    ensures SameAt(s.world.fs, StepOf(s, i, o).world.fs, p)
  {
    var a, b := s.requests[i], s.requests[k];
    assert Recorded(s.world, a) && Recorded(s.world, b) && Apart(s.world.rows, a, b);
    StepSparesPaths(s.world, a, b, o, p);
  }

  // ---------- a part upload ----------

  lemma PartOwnsAfter(w: World, r: Request, o: Outcome)
    requires Shape(r) && r.job.kind.UploadPart?
    ensures OwnsTarget(r) && !OwnsTarget(RequestAfter(w, r, o)) ==> r.pc.UnlockOuter?
    ensures !OwnsTarget(r) && OwnsTarget(RequestAfter(w, r, o)) ==> r.pc.LoadUpload? && Succeeds(w.fs, r, o)
  {
    if r.pc.LoadUpload? {
    } else if OnMainPath(r.pc) {
      PartKeepsTarget(w, r, o);
    } else {
      PartKeepsTarget(w, r, o);
    }
  }

  lemma PartGrabs(w: World, r: Request)
    requires Shape(r) && r.job.kind.UploadPart? && r.pc.LoadUpload? && OwnsTarget(Advance(w, r))
    ensures Advance(w, r).past.before == At(w.fs, FileOf(TargetPart(r.job)))
    ensures Advance(w, r).past.rowBefore == PartRow(w.rows, TargetPart(r.job))
  {
  }

  lemma PartLetsGo(w: World, r: Request)
    requires Recorded(w, r) && r.job.kind.UploadPart? && r.pc.UnlockOuter? && OwnsTarget(r)
    requires !r.past.targetLost && FitsPart(r.past.rowBefore, r.past.before)
    ensures FitsPart(PartRow(w.rows, TargetPart(r.job)), At(w.fs, FileOf(TargetPart(r.job))))
  {
  }

  /** A request that is busy with the part neither before nor after its step leaves row and file as they are. */
  lemma IdleStepAgrees(s: Server, i: nat, o: Outcome, id: PartId)
    requires Sound(s) && i < |s.requests| && PartAgrees(s, id)
    requires !PartBusy(s.requests[i], id) && !PartBusy(StepOf(s, i, o).requests[i], id)
    requires !OwnsPart(s.requests[i], id) && !OwnsPath(s.requests[i], FileOf(id))
    ensures PartAgrees(StepOf(s, i, o), id)
  {
    var a := s.requests[i];
    StepMoves(s, i, o);
    assert Recorded(s.world, a);
    DropsRecorded(s.world, a);
    RowsStayInside(s.world, a, o);
    StepStaysInside(s.world, a, o, FileOf(id));
    OthersAsideStays(s, i, o, id);
    AgreesAfterOther(s, StepOf(s, i, o), i, id);
  }

  lemma PartOwnerStepAgrees(s: Server, i: nat, o: Outcome, id: PartId)
    requires Sound(s) && i < |s.requests| && PartUnharmed(s, id) && PartAgrees(s, id)
    requires OwnsPartFile(s.requests[i], id)
    ensures PartAgrees(StepOf(s, i, o), id)
  {
    var s', a := StepOf(s, i, o), s.requests[i];
    StepMoves(s, i, o);
    assert Recorded(s.world, a) && a in s.requests;
    SameJob(s.world, a, o);
    PartOwnsAfter(s.world, a, o);
    OthersAreIdle(s, i, id);
    OwnerKeepsSnapshot(s.world, a, o);
    if !OwnsTarget(s'.requests[i]) {
      StepByAnswer(s.world, a, o);
      PartLetsGo(s.world, a);
    }
    AgreesAfterOwn(s, s', i, id);
  }

  lemma PartStepAgrees(s: Server, i: nat, o: Outcome, id: PartId)
    requires Sound(s) && CanStep(s, i) && Sound(StepOf(s, i, o)) && PartUnharmed(s, id) && PartAgrees(s, id)
    requires s.requests[i].job.kind.UploadPart? && TargetPart(s.requests[i].job) == id
    ensures PartAgrees(StepOf(s, i, o), id)
  {
    var s', a := StepOf(s, i, o), s.requests[i];
    assert Recorded(s.world, a);
    SameJob(s.world, a, o);
    if OwnsTarget(a) {
      PartOwnerStepAgrees(s, i, o, id);
    } else if OwnsTarget(s'.requests[i]) {
      StepMoves(s, i, o);
      StepByAnswer(s.world, a, o);
      PartOwnsAfter(s.world, a, o);
      OthersAreIdle(s', i, id);
      IdleWithout(s, i, id);
      PartGrabs(s.world, a);
      AgreesAfterOwn(s, s', i, id);
    } else {
      OwnedShape(a, FileOf(id));
      IdleStepAgrees(s, i, o, id);
    }
  }

  // ---------- a request that ends the upload ----------

  lemma AsideOrigin(fs: FileSystem, s: Path, d: Path, name: Segment)
    requires WellFormed(fs) && Possible(fs, MoveTree(s, d))
    ensures At(Perform(fs, MoveTree(s, d)), d + [name]) == At(fs, s + [name])
  {
  }

  lemma EndedPartFits(w: World, id: PartId)
    requires PartsHaveUploads(w.rows) && id.upload !in w.rows.uploads && NothingAt(w.fs, UploadPath(id.upload))
    ensures FitsPart(PartRow(w.rows, id), At(w.fs, FileOf(id)))
  {
  }

  lemma EndingStepAgrees(s: Server, s': Server, i: nat, id: PartId, move: Move)
    requires Moved(s, s', i) && WellFormed(s.world.fs) && PartAgrees(s, id) && PartsHaveUploads(s'.world.rows)
    requires Ends(s.requests[i].job.kind) && s.requests[i].job.upload == id.upload && s'.requests[i].job == s.requests[i].job
    requires MoveIs(s.world, s.requests[i], s'.world, s'.requests[i], move) && UploadUnharmed(s', id.upload)
    requires OthersIdle(s, i, id)
    ensures PartAgrees(s', id)
  {
    var a, a', up := s.requests[i], s'.requests[i], UploadPath(id.upload);
    assert a in s.requests && a' in s'.requests;
    if !Displacing(a, id.upload) { IdleWithout(s, i, id); }
    match move
    case Stays =>
      assert SameAt(s.world.fs, s'.world.fs, FileOf(id));
      assert Displacing(a, id.upload) ==> SameAt(s.world.fs, s'.world.fs, AsideFile(a, id));
      AgreesAfterOwn(s, s', i, id);
    case Aside =>
      AsideOrigin(s.world.fs, up, CleanupDir(a.job), PartFile(id.number));
      AgreesAfterOwn(s, s', i, id);
    case Back =>
      AsideOrigin(s.world.fs, CleanupDir(a.job), up, PartFile(id.number));
      AgreesAfterOwn(s, s', i, id);
    case Ending =>
      EndedPartFits(s'.world, id);
      AgreesAfterOwn(s, s', i, id);
    case Lost =>
  }

  lemma StaysElsewhere(s: Server, i: nat, o: Outcome, id: PartId, move: Move)
    requires Sound(s) && i < |s.requests| && PartAgrees(s, id)
    requires Ends(s.requests[i].job.kind) && s.requests[i].job.upload == id.upload && !OwnsUpload(s.requests[i])
    requires MoveIs(s.world, s.requests[i], StepOf(s, i, o).world, StepOf(s, i, o).requests[i], move)
    requires UploadUnharmed(StepOf(s, i, o), id.upload)
    ensures PartAgrees(StepOf(s, i, o), id)
  {
    var s', a := StepOf(s, i, o), s.requests[i];
    assert s'.requests[i] in s'.requests;
    SameJob(s.world, a, o);
    OwnedShape(a, FileOf(id));
    IdleStepAgrees(s, i, o, id);
  }

  // ---------- any step ----------

  lemma CreatorStepAgrees(s: Server, i: nat, o: Outcome, id: PartId)
    requires Sound(s) && CanStep(s, i) && PartAgrees(s, id) && PartsHaveUploads(s.world.rows)
    requires s.requests[i].job.kind.Create? && s.requests[i].job.upload == id.upload
    ensures PartAgrees(StepOf(s, i, o), id)
  {
    var s', a := StepOf(s, i, o), s.requests[i];
    StepMoves(s, i, o);
    assert Recorded(s.world, a);
    SameJob(s.world, a, o);
    CreatorAddsNoPart(s.world, a, o, id);
    OthersAreIdle(s, i, id);
    IdleWithout(s, i, id);
    AgreesAfterOwn(s, s', i, id);
  }

  lemma CreatorAddsNoPart(w: World, a: Request, o: Outcome, id: PartId)
    requires Recorded(w, a) && a.job.kind.Create? && a.job.upload == id.upload && !a.pc.Finished? && PartsHaveUploads(w.rows)
    ensures OwnsUploadPath(a, FileOf(id))
    ensures PartRow(w.rows, id) == None && PartRow(WorldAfter(w, a, o).rows, id) == None
    ensures At(w.fs, FileOf(id)) == None ==> At(WorldAfter(w, a, o).fs, FileOf(id)) == None
  {
  }

  lemma ElsewhereUnowned(r: Request, id: PartId)
    requires r.job.upload != id.upload || r.job.kind.PutObject? || (r.job.kind.UploadPart? && TargetPart(r.job) != id)
    ensures !PartBusy(r, id) && !OwnsPart(r, id) && !OwnsPath(r, FileOf(id))
  {
    OwnedShape(r, FileOf(id));
  }

  lemma EndingAgreesAfter(s: Server, i: nat, o: Outcome, id: PartId)
    requires Sound(s) && CanStep(s, i) && PartAgrees(s, id) && PartsHaveUploads(s.world.rows)
    requires Ends(s.requests[i].job.kind) && s.requests[i].job.upload == id.upload && UploadUnharmed(StepOf(s, i, o), id.upload)
    ensures PartAgrees(StepOf(s, i, o), id)
  {
    var s', a := StepOf(s, i, o), s.requests[i];
    StepMoves(s, i, o);
    assert Recorded(s.world, a);
    SameJob(s.world, a, o);
    var move := MoveOf(s.world, a, o);
    if OwnsUpload(a) {
      StepKeepsPartsHaveUploads(s.world, a, o);
      assert OwnsUploadPath(a, FileOf(id));
      OthersAreIdle(s, i, id);
      EndingStepAgrees(s, s', i, id, move);
    } else {
      StaysElsewhere(s, i, o, id, move);
    }
  }

  lemma StepKeepsPartAgrees(s: Server, i: nat, o: Outcome, id: PartId)
    requires Sound(s) && CanStep(s, i) && Sound(StepOf(s, i, o)) && PartsHaveUploads(s.world.rows)
    requires PartUnharmed(s, id) && PartUnharmed(StepOf(s, i, o), id) && PartAgrees(s, id)
    ensures PartAgrees(StepOf(s, i, o), id)
  {
    var a := s.requests[i];
    if Ends(a.job.kind) && a.job.upload == id.upload {
      EndingAgreesAfter(s, i, o, id);
    } else if a.job.kind.Create? && a.job.upload == id.upload {
      CreatorStepAgrees(s, i, o, id);
    } else if a.job.kind.UploadPart? && TargetPart(a.job) == id {
      PartStepAgrees(s, i, o, id);
    } else {
      SameJob(s.world, a, o);
      ElsewhereUnowned(a, id);
      ElsewhereUnowned(StepOf(s, i, o).requests[i], id);
      IdleStepAgrees(s, i, o, id);
    }
  }

  lemma StillPartUnharmed(s: Server, s': Server, i: nat, id: PartId)
    requires Moved(s, s', i) && PartUnharmed(s', id) && s'.requests[i].job == s.requests[i].job
    requires s.requests[i].past.targetLost ==> s'.requests[i].past.targetLost
    requires s.requests[i].past.uploadLost ==> s'.requests[i].past.uploadLost
    ensures PartUnharmed(s, id)
  {
    StillUploadUnharmed(s, s', i, id.upload);
    assert s'.requests[i] in s'.requests;
    forall r | r in s.requests && r.job.kind.UploadPart? && TargetPart(r.job) == id ensures !r.past.targetLost {
      Bystander(s, s', i, r);
    }
  }

  lemma StepKeepsPartsAgree(s: Server, i: nat, o: Outcome)
    requires Sound(s) && CanStep(s, i) && PartsHaveUploads(s.world.rows) && PartsAgree(s)
    ensures PartsAgree(StepOf(s, i, o))
  {
    var s', a := StepOf(s, i, o), s.requests[i];
    StepKeepsSound(s, i, o);
    StepMoves(s, i, o);
    assert Recorded(s.world, a);
    SameJob(s.world, a, o);
    LostStaysLost(s.world, a, o);
    LossesStay(s.world, a, o);
    forall id | PartUnharmed(s', id) ensures PartAgrees(s', id) {
      StillPartUnharmed(s, s', i, id);
      StepKeepsPartAgrees(s, i, o, id);
    }
  }

  // ---------- no part payload is lost ----------

  /** An upload's parts may be in its directory, or in one a request moved aside and has not committed. */
  predicate MovedAside(r: Request, u: string) {
    Ends(r.job.kind) && r.job.upload == u && r.past.displaced && !r.flags.committed
  }

  predicate PartOverwritten(r: Request, id: PartId) {
    OwnsPartFile(r, id) && r.past.target.New? && !r.flags.committed
  }

  /** The part's file or a backup of it. */
  predicate PartName(name: Segment, id: PartId) {
    (name.PartFile? || name.PartBackup?) && name.number == id.number
  }

  ghost predicate HeldIn(fs: FileSystem, home: Path, name: Segment, id: PartId, data: Bytes) {
    PartName(name, id) && At(fs, home + [name]) == Some(data)
  }

  ghost predicate InUpload(s: Server, id: PartId, data: Bytes, name: Segment) {
    && HeldIn(s.world.fs, UploadPath(id.upload), name, id, data)
    && (name.PartFile? ==> forall r :: r in s.requests ==> !PartOverwritten(r, id))
  }

  ghost predicate InAside(s: Server, id: PartId, data: Bytes, r: Request, name: Segment) {
    r in s.requests && MovedAside(r, id.upload) && HeldIn(s.world.fs, CleanupDir(r.job), name, id, data)
  }

  ghost predicate PartSaved(s: Server, id: PartId, data: Bytes) {
    || (exists name :: InUpload(s, id, data, name))
    || (exists r, name :: InAside(s, id, data, r, name))
  }

  /** Once a request has committed the part, its file is the payload itself, for as long as that request owns it. */
  ghost predicate CommittedInPlace(s: Server, id: PartId, data: Bytes) {
    forall r :: r in s.requests && OwnsPartFile(r, id) && r.flags.committed ==> At(s.world.fs, FileOf(id)) == Some(data)
  }

  ghost predicate PartHeld(s: Server, id: PartId, data: Bytes) { PartSaved(s, id, data) && CommittedInPlace(s, id, data) }

  lemma OverwrittenOnlyBy(s: Server, s': Server, i: nat, id: PartId)
    requires Moved(s, s', i) && (forall r :: r in s.requests ==> !PartOverwritten(r, id)) && !PartOverwritten(s'.requests[i], id)
    ensures forall r :: r in s'.requests ==> !PartOverwritten(r, id)
  {
  }

  /** Whatever was at the part's names stays there, in the upload's directory and where it was moved aside. */
  ghost predicate NamesStay(fs: FileSystem, fs': FileSystem, home: Path, id: PartId) {
    forall name :: PartName(name, id) && At(fs, home + [name]).Some? ==> At(fs', home + [name]) == At(fs, home + [name])
  }

  ghost predicate AsidesStay(s: Server, s': Server, id: PartId) {
    forall r :: r in s.requests && MovedAside(r, id.upload) ==> NamesStay(s.world.fs, s'.world.fs, CleanupDir(r.job), id)
  }

  /** A payload kept where the step changes nothing stays kept. */
  lemma UntouchedStaysSaved(s: Server, s': Server, i: nat, id: PartId, data: Bytes)
    requires Moved(s, s', i) && PartSaved(s, id, data) && AsidesStay(s, s', id)
    requires NamesStay(s.world.fs, s'.world.fs, UploadPath(id.upload), id)
    requires PartOverwritten(s'.requests[i], id) ==> PartOverwritten(s.requests[i], id) || At(s.world.fs, FileOf(id)) == None
    requires MovedAside(s.requests[i], id.upload) ==> MovedAside(s'.requests[i], id.upload) && s'.requests[i].job == s.requests[i].job
    ensures PartSaved(s', id, data)
  {
    if name :| InUpload(s, id, data, name) {
      if name.PartFile? {
        assert s.requests[i] in s.requests;
        assert UploadPath(id.upload) + [name] == FileOf(id);
        OverwrittenOnlyBy(s, s', i, id);
      }
      assert InUpload(s', id, data, name);
    } else {
      AsideStaysSaved(s, s', i, id, data);
    }
  }

  lemma AsideStaysSaved(s: Server, s': Server, i: nat, id: PartId, data: Bytes)
    requires Moved(s, s', i) && AsidesStay(s, s', id) && exists r, name :: InAside(s, id, data, r, name)
    requires MovedAside(s.requests[i], id.upload) ==> MovedAside(s'.requests[i], id.upload) && s'.requests[i].job == s.requests[i].job
    ensures PartSaved(s', id, data)
  {
    var r, name :| InAside(s, id, data, r, name);
    Bystander(s, s', i, r);
    if r in s'.requests {
      assert InAside(s', id, data, r, name);
    } else {
      assert InAside(s', id, data, s'.requests[i], name);
    }
  }

  lemma OthersAsidesStay(s: Server, i: nat, o: Outcome, id: PartId)
    requires Sound(s) && i < |s.requests| && !MovedAside(s.requests[i], id.upload)
    ensures AsidesStay(s, StepOf(s, i, o), id)
  {
    var s' := StepOf(s, i, o);
    forall r, name | r in s.requests && MovedAside(r, id.upload) && PartName(name, id)
      ensures At(s'.world.fs, CleanupDir(r.job) + [name]) == At(s.world.fs, CleanupDir(r.job) + [name])
    {
      var k :| 0 <= k < |s.requests| && s.requests[k] == r;
      OneAsideStays(s, i, o, k, CleanupDir(r.job) + [name]);
    }
  }

  // ---------- a part upload keeps it ----------

  lemma CommittedPartSaved(s: Server, i: nat, id: PartId, data: Bytes)
    requires Sound(s) && i < |s.requests| && OwnsPartFile(s.requests[i], id) && s.requests[i].flags.committed
    requires At(s.world.fs, FileOf(id)) == Some(data)
    ensures PartSaved(s, id, data)
  {
    OthersAreIdle(s, i, id);
    forall r | r in s.requests ensures !PartOverwritten(r, id) {
      var k :| 0 <= k < |s.requests| && s.requests[k] == r;
    }
    assert UploadPath(id.upload) + [PartFile(id.number)] == FileOf(id);
    assert InUpload(s, id, data, PartFile(id.number));
  }

  /** Renaming one of the part's files to another of its names. */
  lemma RenamedStaysSaved(s: Server, s': Server, i: nat, id: PartId, data: Bytes, from: Segment, to: Segment)
    requires Moved(s, s', i) && PartSaved(s, id, data) && AsidesStay(s, s', id) && OthersIdle(s, i, id)
    requires PartName(from, id) && PartName(to, id) && from != to && !InUpload(s, id, data, to)
    requires var up := UploadPath(id.upload);
      Possible(s.world.fs, Move(up + [from], up + [to])) && s'.world.fs == Perform(s.world.fs, Move(up + [from], up + [to]))
    requires !PartOverwritten(s'.requests[i], id) && !MovedAside(s.requests[i], id.upload)
    ensures PartSaved(s', id, data)
  {
    if name :| InUpload(s, id, data, name) {
      var name' := if name == from then to else name;
      forall r | r in s'.requests ensures !PartOverwritten(r, id) {
        var k :| 0 <= k < |s'.requests| && s'.requests[k] == r;
      }
      NamesApart(UploadPath(id.upload), from, to, name);
      assert InUpload(s', id, data, name');
    } else {
      AsideStaysSaved(s, s', i, id, data);
    }
  }

  lemma NamesApart(home: Path, a: Segment, b: Segment, c: Segment)
    ensures (home + [a] == home + [b] <==> a == b) && (home + [a] == home + [c] <==> a == c) && (home + [b] == home + [c] <==> b == c)
  {
    assert (home + [a])[|home|] == a && (home + [b])[|home|] == b && (home + [c])[|home|] == c;
  }

  /** Removing the part's file while its replacement is not committed. */
  lemma RemovedStaysSaved(s: Server, s': Server, i: nat, id: PartId, data: Bytes)
    requires Moved(s, s', i) && PartSaved(s, id, data) && AsidesStay(s, s', id)
    requires PartOverwritten(s.requests[i], id) && s'.world.fs == Perform(s.world.fs, Delete(FileOf(id)))
    requires !MovedAside(s.requests[i], id.upload)
    ensures PartSaved(s', id, data)
  {
    if name :| InUpload(s, id, data, name) {
      assert s.requests[i] in s.requests;
      NamesApart(UploadPath(id.upload), PartFile(id.number), name, name);
      assert InUpload(s', id, data, name);
    } else {
      AsideStaysSaved(s, s', i, id, data);
    }
  }

  /** What a part upload's primitives do below its upload's directory. */
  lemma PartNames(j: Job)
    requires j.kind.UploadPart?
    ensures TargetPath(j) == UploadPath(j.upload) + [PartFile(j.number)]
    ensures StagedFile(j) == UploadPath(j.upload) + [StagedPart(j.number, j.staged)]
    ensures BackupFile(j) == UploadPath(j.upload) + [PartBackup(j.number, j.backup)]
  {
  }

  lemma PartBackupStep(s: Server, s': Server, i: nat, id: PartId, data: Bytes)
    requires Moved(s, s', i) && PartSaved(s, id, data) && AsidesStay(s, s', id) && OthersIdle(s, i, id)
    requires Recorded(s.world, s.requests[i]) && OwnsPartFile(s.requests[i], id) && s.requests[i].pc.Backup?
    requires Possible(s.world.fs, Move(TargetPath(s.requests[i].job), BackupFile(s.requests[i].job)))
    requires s'.world == s.world.(fs := Perform(s.world.fs, Move(TargetPath(s.requests[i].job), BackupFile(s.requests[i].job))))
    requires s'.requests[i] == Advance(s.world, s.requests[i])
    ensures PartSaved(s', id, data)
  {
    var j := s.requests[i].job;
    PartNames(j);
    assert At(s.world.fs, BackupFile(j)) == None;
    RenamedStaysSaved(s, s', i, id, data, PartFile(j.number), PartBackup(j.number, j.backup));
  }

  lemma PartUndoStep(s: Server, s': Server, i: nat, id: PartId, data: Bytes, op: Operation)
    requires Moved(s, s', i) && PartSaved(s, id, data) && AsidesStay(s, s', id) && OthersIdle(s, i, id)
    requires Recorded(s.world, s.requests[i]) && OwnsPartFile(s.requests[i], id) && s.requests[i].pc.Undo?
    requires UndoTodo(s.requests[i].job, s.requests[i].flags) == Disk(op) && Possible(s.world.fs, op)
    requires s'.world == s.world.(fs := Perform(s.world.fs, op)) && s'.requests[i] == Recover(s.requests[i], false, true)
    ensures PartSaved(s', id, data)
  {
    var a, a' := s.requests[i], s'.requests[i];
    PartNames(a.job);
    assert a in s.requests && a'.past.target.Before?;
    if a.flags.backupCreated {
      assert PartOverwritten(a, id) || At(s.world.fs, FileOf(id)) == None;
      RenamedStaysSaved(s, s', i, id, data, PartBackup(a.job.number, a.job.backup), PartFile(a.job.number));
    } else {
      RemovedStaysSaved(s, s', i, id, data);
    }
  }

  /** The steps of an owning part upload that rename nothing away. */
  lemma QuietPartStep(w: World, a: Request, o: Outcome, id: PartId)
    requires Mounted(w.fs) && Recorded(w, a) && OwnsPartFile(a, id) && !a.flags.committed
    requires !(a.pc.Backup? && Succeeds(w.fs, a, o)) && !(a.pc.Undo? && TodoAt(w.fs, a).Disk? && Succeeds(w.fs, a, o))
    ensures NamesStay(w.fs, WorldAfter(w, a, o).fs, UploadPath(id.upload), id)
  {
  }

  lemma QuietPartOverwrites(w: World, a: Request, o: Outcome, id: PartId)
    requires Recorded(w, a) && OwnsPartFile(a, id)
    requires PartOverwritten(RequestAfter(w, a, o), id) && !PartOverwritten(a, id)
    ensures At(w.fs, FileOf(id)) == None
  {
    StepByAnswer(w, a, o);
    if OnMainPath(a.pc) {
      if a.pc.Publish? {
        assert SlotContent(a) == None;
      } else {
        MainKeepsSlot(w, a);
      }
    } else {
      RecoveryKeepsSlot(a, TodoAt(w.fs, a).Idle?, Succeeds(w.fs, a, o));
    }
  }

  lemma MainKeepsSlot(w: World, a: Request)
    requires OnMainPath(a.pc) && !a.pc.Publish?
    ensures Advance(w, a).past.target.New? ==> a.past.target.New?
  {
  }

  lemma RecoveryKeepsSlot(a: Request, idle: bool, ok: bool)
    ensures Recover(a, idle, ok).past.target.New? ==> a.past.target.New?
  {
  }

  lemma UncommittedPartStep(s: Server, i: nat, o: Outcome, id: PartId, data: Bytes)
    requires Sound(s) && CanStep(s, i) && PartSaved(s, id, data)
    requires OwnsPartFile(s.requests[i], id) && !s.requests[i].flags.committed
    ensures PartSaved(StepOf(s, i, o), id, data)
  {
    var s', a := StepOf(s, i, o), s.requests[i];
    StepMoves(s, i, o);
    assert Recorded(s.world, a);
    OthersAreIdle(s, i, id);
    OthersAsidesStay(s, i, o, id);
    StepByAnswer(s.world, a, o);
    var todo, ok := TodoAt(s.world.fs, a), Succeeds(s.world.fs, a, o);
    if a.pc.Backup? && ok {
      PartBackupStep(s, s', i, id, data);
    } else if a.pc.Undo? && todo.Disk? && ok {
      PartUndoStep(s, s', i, id, data, todo.op);
    } else {
      QuietPartStep(s.world, a, o, id);
      if PartOverwritten(s'.requests[i], id) && !PartOverwritten(a, id) { QuietPartOverwrites(s.world, a, o, id); }
      UntouchedStaysSaved(s, s', i, id, data);
    }
  }

  lemma OwnerAfterCommit(w: World, a: Request, o: Outcome)
    requires Shape(a) && a.job.kind.UploadPart? && OwnsTarget(a) && a.flags.committed
    ensures OwnsTarget(RequestAfter(w, a, o)) || WorldAfter(w, a, o) == w
    ensures RequestAfter(w, a, o).flags.committed && RequestAfter(w, a, o).job == a.job
  {
  }

  /** The step commits a new row for the part. */
  predicate CommitsPart(r: Request, o: Outcome, id: PartId) {
    r.job.kind.UploadPart? && TargetPart(r.job) == id && r.pc.Commit? && o.Returned?
  }

  lemma RecoverKeepsPayload(r: Request, idle: bool, ok: bool)
    ensures Recover(r, idle, ok).past.payload == r.past.payload
  {
  }

  /** A request that owns the part after its step, having committed, had committed before unless it does so now. */
  lemma CommittedOwnerWas(w: World, a: Request, o: Outcome, id: PartId)
    requires Recorded(w, a) && Recorded(WorldAfter(w, a, o), RequestAfter(w, a, o)) && !CommitsPart(a, o, id)
    requires OwnsPartFile(RequestAfter(w, a, o), id) && RequestAfter(w, a, o).flags.committed
    ensures OwnsPartFile(a, id) && a.flags.committed && At(WorldAfter(w, a, o).fs, FileOf(id)) == At(w.fs, FileOf(id))
  {
    SameJob(w, a, o);
    CommitsOnlyAtCommit(w, a, o);
    PartOwnsAfter(w, a, o);
    RecoverKeepsPayload(a, TodoAt(w.fs, a).Idle?, Succeeds(w.fs, a, o));
  }

  lemma StepKeepsCommittedInPlace(s: Server, i: nat, o: Outcome, id: PartId, data: Bytes)
    requires Sound(s) && CanStep(s, i) && Sound(StepOf(s, i, o)) && CommittedInPlace(s, id, data) && !CommitsPart(s.requests[i], o, id)
    ensures CommittedInPlace(StepOf(s, i, o), id, data)
  {
    var s', a := StepOf(s, i, o), s.requests[i];
    StepMoves(s, i, o);
    assert Recorded(s.world, a) && Recorded(s'.world, s'.requests[i]);
    forall r | r in s'.requests && OwnsPartFile(r, id) && r.flags.committed ensures At(s'.world.fs, FileOf(id)) == Some(data) {
      var k :| 0 <= k < |s'.requests| && s'.requests[k] == r;
      if k == i {
        CommittedOwnerWas(s.world, a, o, id);
      } else {
        assert Recorded(s.world, s.requests[k]) && Apart(s.world.rows, a, s.requests[k]);
        StepSparesPaths(s.world, a, s.requests[k], o, FileOf(id));
      }
    }
  }

  /** The part a request owns stays saved through each of its steps. */
  lemma PartOwnerKeeps(s: Server, i: nat, o: Outcome, id: PartId, data: Bytes)
    requires Sound(s) && CanStep(s, i) && Sound(StepOf(s, i, o)) && PartHeld(s, id, data) && OwnsPartFile(s.requests[i], id)
    requires !CommitsPart(s.requests[i], o, id)
    ensures PartSaved(StepOf(s, i, o), id, data)
  {
    var s', a := StepOf(s, i, o), s.requests[i];
    StepMoves(s, i, o);
    assert Recorded(s.world, a);
    SameJob(s.world, a, o);
    if a.flags.committed {
      OwnerAfterCommit(s.world, a, o);
      StepKeepsCommittedInPlace(s, i, o, id, data);
      if OwnsTarget(s'.requests[i]) {
        CommittedPartSaved(s', i, id, data);
      } else {
        UntouchedStaysSaved(s, s', i, id, data);
      }
    } else {
      UncommittedPartStep(s, i, o, id, data);
    }
  }

  // ---------- the other requests keep it ----------

  lemma NamesUnowned(r: Request, id: PartId, name: Segment)
    requires PartName(name, id) && !OwnsPartFile(r, id) && id.upload !in Tokens(r.job)
    requires r.job.upload == id.upload ==> !OwnsUpload(r)
    ensures !OwnsPath(r, UploadPath(id.upload) + [name])
  {
    OwnedShape(r, UploadPath(id.upload) + [name]);
  }

  /** A step that neither owns the part's file nor its upload's directory. */
  lemma ElsewhereKeeps(s: Server, i: nat, o: Outcome, id: PartId, data: Bytes)
    requires Sound(s) && CanStep(s, i) && PartSaved(s, id, data) && id.upload !in Tokens(s.requests[i].job)
    requires !OwnsPartFile(s.requests[i], id) && !OwnsPartFile(StepOf(s, i, o).requests[i], id)
    requires s.requests[i].job.upload == id.upload ==> !OwnsUpload(s.requests[i])
    requires !MovedAside(s.requests[i], id.upload)
    ensures PartSaved(StepOf(s, i, o), id, data)
  {
    var s', a := StepOf(s, i, o), s.requests[i];
    StepMoves(s, i, o);
    assert Recorded(s.world, a) && a in s.requests;
    forall name | PartName(name, id)
      ensures At(s'.world.fs, UploadPath(id.upload) + [name]) == At(s.world.fs, UploadPath(id.upload) + [name])
    {
      NamesUnowned(a, id, name);
      StepStaysInside(s.world, a, o, UploadPath(id.upload) + [name]);
    }
    OthersAsidesStay(s, i, o, id);
    UntouchedStaysSaved(s, s', i, id, data);
  }

  /** A part upload that grabs its part's file writes nothing yet. */
  lemma GrabKeeps(s: Server, i: nat, o: Outcome, id: PartId, data: Bytes)
    requires Sound(s) && CanStep(s, i) && PartSaved(s, id, data)
    requires !OwnsPartFile(s.requests[i], id) && OwnsPartFile(StepOf(s, i, o).requests[i], id)
    ensures PartSaved(StepOf(s, i, o), id, data)
  {
    var s', a := StepOf(s, i, o), s.requests[i];
    StepMoves(s, i, o);
    assert Recorded(s.world, a);
    SameJob(s.world, a, o);
    PartOwnsAfter(s.world, a, o);
    StepByAnswer(s.world, a, o);
    MainKeepsSlot(s.world, a);
    UntouchedStaysSaved(s, s', i, id, data);
  }

  /** The other requests' directories moved aside stay as they are. */
  ghost predicate OtherAsidesStay(s: Server, s': Server, a: Request, id: PartId) {
    forall r :: r in s.requests && r != a && MovedAside(r, id.upload) ==> NamesStay(s.world.fs, s'.world.fs, CleanupDir(r.job), id)
  }

  lemma SavedMovesAside(s: Server, s': Server, i: nat, id: PartId, data: Bytes)
    requires Moved(s, s', i) && PartSaved(s, id, data) && WellFormed(s.world.fs) && OtherAsidesStay(s, s', s.requests[i], id)
    requires Ends(s.requests[i].job.kind) && s.requests[i].job.upload == id.upload && s'.requests[i].job == s.requests[i].job
    requires MoveIs(s.world, s.requests[i], s'.world, s'.requests[i], Aside)
    ensures PartSaved(s', id, data)
  {
    var a, a', up, aside := s.requests[i], s'.requests[i], UploadPath(id.upload), CleanupDir(s.requests[i].job);
    assert a' in s'.requests;
    if name :| InUpload(s, id, data, name) {
      AsideOrigin(s.world.fs, up, aside, name);
      assert InAside(s', id, data, a', name);
    } else {
      var r, name :| InAside(s, id, data, r, name);
      Bystander(s, s', i, r);
      assert InAside(s', id, data, r, name);
    }
  }

  lemma NothingInUpload(s: Server, id: PartId, data: Bytes)
    requires NothingAt(s.world.fs, UploadPath(id.upload))
    ensures forall name :: !InUpload(s, id, data, name)
  {
  }

  lemma BackInUpload(s: Server, s': Server, i: nat, id: PartId, data: Bytes, name: Segment)
    requires Moved(s, s', i) && WellFormed(s.world.fs) && OthersIdle(s, i, id)
    requires Ends(s.requests[i].job.kind) && s.requests[i].job.upload == id.upload && s'.requests[i].job == s.requests[i].job
    requires MoveIs(s.world, s.requests[i], s'.world, s'.requests[i], Back)
    requires HeldIn(s.world.fs, CleanupDir(s.requests[i].job), name, id, data)
    ensures InUpload(s', id, data, name)
  {
  }

  lemma SavedMovesBack(s: Server, s': Server, i: nat, id: PartId, data: Bytes)
    requires Moved(s, s', i) && PartSaved(s, id, data) && WellFormed(s.world.fs) && OtherAsidesStay(s, s', s.requests[i], id)
    requires Ends(s.requests[i].job.kind) && s.requests[i].job.upload == id.upload && s'.requests[i].job == s.requests[i].job
    requires MoveIs(s.world, s.requests[i], s'.world, s'.requests[i], Back) && OthersIdle(s, i, id)
    requires NothingAt(s.world.fs, UploadPath(id.upload))
    ensures PartSaved(s', id, data)
  {
    NothingInUpload(s, id, data);
    var r, name :| InAside(s, id, data, r, name);
    Bystander(s, s', i, r);
    if r != s.requests[i] {
      assert InAside(s', id, data, r, name);
    } else {
      BackInUpload(s, s', i, id, data, name);
    }
  }

  lemma TheOtherAsidesStay(s: Server, i: nat, o: Outcome, id: PartId)
    requires Sound(s) && i < |s.requests|
    ensures OtherAsidesStay(s, StepOf(s, i, o), s.requests[i], id)
  {
    var s' := StepOf(s, i, o);
    forall r, name | r in s.requests && r != s.requests[i] && MovedAside(r, id.upload) && PartName(name, id)
      ensures At(s'.world.fs, CleanupDir(r.job) + [name]) == At(s.world.fs, CleanupDir(r.job) + [name])
    {
      var k :| 0 <= k < |s.requests| && s.requests[k] == r;
      OneAsideStays(s, i, o, k, CleanupDir(r.job) + [name]);
    }
  }

  /** A directory moved aside by a request that still runs is moved aside by its owner. */
  lemma RunningMover(r: Request, u: string)
    requires Shape(r) && MovedAside(r, u) && !r.pc.Finished?
    ensures Displacing(r, u)
  {
  }

  lemma EndingKeepsParts(s: Server, s': Server, i: nat, id: PartId, data: Bytes, move: Move)
    requires Moved(s, s', i) && WellFormed(s.world.fs) && PartSaved(s, id, data) && !move.Ending?
    requires Recorded(s.world, s.requests[i]) && !s.requests[i].pc.Finished? && OwnsUpload(s.requests[i])
    requires Ends(s.requests[i].job.kind) && s.requests[i].job.upload == id.upload && s'.requests[i].job == s.requests[i].job
    requires MoveIs(s.world, s.requests[i], s'.world, s'.requests[i], move) && OthersIdle(s, i, id)
    requires OtherAsidesStay(s, s', s.requests[i], id)
    ensures PartSaved(s', id, data)
  {
    var a := s.requests[i];
    if MovedAside(a, id.upload) { RunningMover(a, id.upload); }
    if move.Aside? {
      SavedMovesAside(s, s', i, id, data);
    } else if move.Back? {
      SavedMovesBack(s, s', i, id, data);
    } else {
      QuietEnding(s, s', i, id, move);
      UntouchedStaysSaved(s, s', i, id, data);
    }
  }

  lemma QuietEnding(s: Server, s': Server, i: nat, id: PartId, move: Move)
    requires Moved(s, s', i) && (move.Stays? || move.Lost?)
    requires Ends(s.requests[i].job.kind) && s.requests[i].job.upload == id.upload && s'.requests[i].job == s.requests[i].job
    requires MoveIs(s.world, s.requests[i], s'.world, s'.requests[i], move) && OtherAsidesStay(s, s', s.requests[i], id)
    requires MovedAside(s.requests[i], id.upload) ==> Displacing(s.requests[i], id.upload)
    ensures AsidesStay(s, s', id) && NamesStay(s.world.fs, s'.world.fs, UploadPath(id.upload), id)
    ensures MovedAside(s.requests[i], id.upload) ==> MovedAside(s'.requests[i], id.upload)
  {
    var a, up := s.requests[i], UploadPath(id.upload);
    forall name | PartName(name, id) ensures At(s'.world.fs, up + [name]) == At(s.world.fs, up + [name]) {
      assert up <= up + [name];
      assert move.Stays? ==> SameAt(s.world.fs, s'.world.fs, up + [name]);
    }
    forall r, name | r in s.requests && MovedAside(r, id.upload) && PartName(name, id) && At(s.world.fs, CleanupDir(r.job) + [name]).Some?
      ensures At(s'.world.fs, CleanupDir(r.job) + [name]) == At(s.world.fs, CleanupDir(r.job) + [name])
    {
      if r == a {
        assert move.Stays? ==> SameAt(s.world.fs, s'.world.fs, CleanupDir(a.job) + [name]);
      } else {
        assert NamesStay(s.world.fs, s'.world.fs, CleanupDir(r.job), id);
      }
    }
  }

  lemma EndingDropsPart(w: World, a: Request, o: Outcome, id: PartId, move: Move)
    requires Recorded(w, a) && Ends(a.job.kind) && a.job.upload == id.upload && MoveIs(w, a, WorldAfter(w, a, o), RequestAfter(w, a, o), move)
    ensures move.Ending? ==> id !in WorldAfter(w, a, o).rows.parts
  {
    DropsRecorded(w, a);
    if a.pc.Commit? { CommitPending(a); }
  }

  lemma UploadOwnerKeeps(s: Server, i: nat, o: Outcome, id: PartId, data: Bytes)
    requires Sound(s) && CanStep(s, i) && PartSaved(s, id, data)
    requires Ends(s.requests[i].job.kind) && s.requests[i].job.upload == id.upload && OwnsUpload(s.requests[i])
    ensures id in StepOf(s, i, o).world.rows.parts ==> PartSaved(StepOf(s, i, o), id, data)
  {
    var s', a := StepOf(s, i, o), s.requests[i];
    StepMoves(s, i, o);
    assert Recorded(s.world, a);
    SameJob(s.world, a, o);
    assert OwnsUploadPath(a, FileOf(id));
    OthersAreIdle(s, i, id);
    TheOtherAsidesStay(s, i, o, id);
    var move := MoveOf(s.world, a, o);
    EndingDropsPart(s.world, a, o, id, move);
    if !move.Ending? { EndingKeepsParts(s, s', i, id, data, move); }
  }

  lemma StepKeepsPartSaved(s: Server, i: nat, o: Outcome, id: PartId, data: Bytes)
    requires Sound(s) && CanStep(s, i) && Sound(StepOf(s, i, o)) && PartHeld(s, id, data) && PartsHaveUploads(s.world.rows)
    requires id in s.world.rows.parts && !CommitsPart(s.requests[i], o, id)
    ensures id in StepOf(s, i, o).world.rows.parts ==> PartSaved(StepOf(s, i, o), id, data)
  {
    var s', a := StepOf(s, i, o), s.requests[i];
    assert Recorded(s.world, a) && a in s.requests;
    SameJob(s.world, a, o);
    if OwnsPartFile(a, id) {
      PartOwnerKeeps(s, i, o, id, data);
    } else if OwnsPartFile(s'.requests[i], id) {
      GrabKeeps(s, i, o, id, data);
    } else if Ends(a.job.kind) && a.job.upload == id.upload && OwnsUpload(a) {
      UploadOwnerKeeps(s, i, o, id, data);
    } else if !(a.job.kind.Create? && a.job.upload == id.upload) {
      if MovedAside(a, id.upload) { RunningMover(a, id.upload); }
      ElsewhereKeeps(s, i, o, id, data);
    } else {
      CreatorAddsNoPart(s.world, a, o, id);
    }
  }

  lemma PartRowComesFromCommit(w: World, a: Request, o: Outcome, id: PartId)
    requires Recorded(w, a) && !CommitsPart(a, o, id) && id in WorldAfter(w, a, o).rows.parts
    ensures PartRow(w.rows, id) == PartRow(WorldAfter(w, a, o).rows, id)
  {
    if a.pc.Commit? { CommitPending(a); }
  }

  /** Away from a commit on the part, if its row stays it stays the same, and bytes that are held stay held, failed
      compensations included. */
  lemma StepKeepsPartHeld(s: Server, i: nat, o: Outcome, id: PartId, data: Bytes)
    requires Sound(s) && CanStep(s, i) && PartsHaveUploads(s.world.rows) && !CommitsPart(s.requests[i], o, id)
    requires id in StepOf(s, i, o).world.rows.parts && (id in s.world.rows.parts ==> PartHeld(s, id, data))
    ensures PartRow(StepOf(s, i, o).world.rows, id) == PartRow(s.world.rows, id) && PartHeld(StepOf(s, i, o), id, data)
  {
    StepKeepsSound(s, i, o);
    assert Recorded(s.world, s.requests[i]);
    PartRowComesFromCommit(s.world, s.requests[i], o, id);
    StepKeepsPartSaved(s, i, o, id, data);
    StepKeepsCommittedInPlace(s, i, o, id, data);
  }

  /** A commit leaves at the part's path, and holds there, bytes that its new row describes. */
  lemma PartCommitHolds(s: Server, i: nat, o: Outcome, id: PartId)
    requires Sound(s) && CanStep(s, i) && CommitsPart(s.requests[i], o, id)
    ensures var s' := StepOf(s, i, o);
      && id in s'.world.rows.parts && At(s'.world.fs, FileOf(id)).Some?
      && FitsPart(Some(s'.world.rows.parts[id]), At(s'.world.fs, FileOf(id)))
      && PartHeld(s', id, At(s'.world.fs, FileOf(id)).value)
  {
    var s', a := StepOf(s, i, o), s.requests[i];
    StepKeepsSound(s, i, o);
    StepMoves(s, i, o);
    assert Recorded(s.world, a) && Recorded(s'.world, s'.requests[i]);
    SameJob(s.world, a, o);
    PartCommitWrites(s.world, a, o);
    CommittedPartSaved(s', i, id, At(s'.world.fs, FileOf(id)).value);
  }

  lemma PartCommitWrites(w: World, a: Request, o: Outcome)
    requires Recorded(w, a) && Recorded(WorldAfter(w, a, o), RequestAfter(w, a, o)) && a.job.kind.UploadPart? && a.pc.Commit? && o.Returned?
    ensures var a', w' := RequestAfter(w, a, o), WorldAfter(w, a, o);
      && OwnsPartFile(a', TargetPart(a.job)) && a'.flags.committed && At(w'.fs, FileOf(TargetPart(a.job))).Some?
      && FitsPart(PartRow(w'.rows, TargetPart(a.job)), At(w'.fs, FileOf(TargetPart(a.job))))
  {
    SameJob(w, a, o);
    CommitPending(a);
    StepByAnswer(w, a, o);
  }
}
