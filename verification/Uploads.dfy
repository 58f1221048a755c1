/** Multipart uploads: an upload ends at most once, its parts never outlive it, and
    every upload row keeps its directory unless a compensation failed. A step of a
    request that ends an upload leaves the upload's tree alone, moves it aside, moves
    it back, ends it, or loses it. */
module Uploads {
  import opened Text
  import opened Paths
  import opened Etags
  import opened FileSystems
  import opened Rows
  import opened PartLists
  import opened Requests
  import opened Shapes
  import opened Footprints
  import opened Ownership
  import opened Separation
  import opened Records
  import opened Server
  import opened Objects

  // ---------- rows ----------

  /** No part row outlives its upload's row. */
  ghost predicate PartsHaveUploads(t: Tables) {
    forall id :: id in t.parts ==> id.upload in t.uploads
  }

  lemma StepKeepsPartsHaveUploads(w: World, r: Request, o: Outcome)
    requires Recorded(w, r) && PartsHaveUploads(w.rows)
    ensures PartsHaveUploads(WorldAfter(w, r, o).rows)
  {
    if r.pc.Commit? && o.Returned? {
      CommitPending(r);
      DropsRecorded(w, r);
    }
  }

  /** An upload is committed as completed or aborted at most once. */
  ghost predicate EndsOnce(s: Server) {
    forall i, k :: 0 <= i < |s.requests| && 0 <= k < |s.requests| && i != k && Ended(s.requests[i]) && Ended(s.requests[k]) ==>
      s.requests[i].job.upload != s.requests[k].job.upload
  }

  lemma EndedIsGone(w: World, r: Request)
    requires Recorded(w, r) && Ended(r)
    ensures r.job.upload !in w.rows.uploads && NothingAt(w.fs, UploadPath(r.job.upload))
  {
  }

  lemma StepKeepsEndsOnce(s: Server, i: nat, o: Outcome)
    requires Sound(s) && i < |s.requests| && EndsOnce(s)
    ensures EndsOnce(StepOf(s, i, o))
  {
    var s', a := StepOf(s, i, o), s.requests[i];
    StepMoves(s, i, o);
    assert Recorded(s.world, a);
    SameJob(s.world, a, o);
    forall k | 0 <= k < |s.requests| && k != i && Ended(s'.requests[i]) && Ended(s.requests[k])
      ensures s'.requests[i].job.upload != s.requests[k].job.upload
    {
      if !Ended(a) {
        NewlyEnded(s.world, a, o);
        assert Recorded(s.world, s.requests[k]);
        EndedIsGone(s.world, s.requests[k]);
      }
    }
  }

  // ---------- where an upload is ----------

  /** The upload's directory is moved aside by a request that has not finished with it. */
  predicate Displacing(r: Request, u: string) {
    Ends(r.job.kind) && r.job.upload == u && r.past.displaced && OwnsUpload(r)
  }

  predicate LosesUpload(r: Request, u: string) {
    Ends(r.job.kind) && r.job.upload == u && r.past.uploadLost
  }

  ghost predicate Displaced(s: Server, u: string) {
    exists r :: r in s.requests && Displacing(r, u)
  }

  ghost predicate UploadUnharmed(s: Server, u: string) {
    forall r :: r in s.requests ==> !LosesUpload(r, u)
  }

  ghost predicate UploadHasDir(s: Server, u: string) {
    u in s.world.rows.uploads ==> UploadPath(u) in s.world.fs.dirs || Displaced(s, u)
  }

  ghost predicate UploadsHaveDirs(s: Server) {
    forall u :: UploadUnharmed(s, u) ==> UploadHasDir(s, u)
  }

  lemma AdvanceDisplaces(w: World, r: Request)
    requires OnMainPath(r.pc) && !r.pc.Start? && !r.pc.AwaitBucket?
    ensures Advance(w, r).past.displaced == (r.past.displaced || r.pc.MoveUpload?)
    ensures Advance(w, r).past.uploadLost == r.past.uploadLost
  {
    match r.pc
    case CheckUploadDir =>
    case LoadListed =>
    case CompareListed =>
    case Assemble =>
    case CompareStored =>
    case MeasureStaged =>
    case CheckBucket =>
    case Measure =>
    case CheckKey =>
    case CheckTarget =>
    case Backup =>
    case Upsert =>
    case Publish =>
    case DropUpload =>
    case Commit =>
    case _ =>
  }

  lemma RecoverDisplaces(r: Request, idle: bool, ok: bool)
    requires Shape(r) && !OnMainPath(r.pc)
    ensures r.past.displaced && !Recover(r, idle, ok).past.displaced ==> (r.pc.RestoreUpload? || r.pc.TidyUpload?) && ok && (r.pc.TidyUpload? ==> !idle)
    ensures Recover(r, idle, ok).past.displaced ==> r.past.displaced
    ensures r.past.uploadLost ==> Recover(r, idle, ok).past.uploadLost
    ensures r.pc.RestoreUpload? && r.flags.moved && !ok ==> Recover(r, idle, ok).past.uploadLost
  {
  }

  lemma LossesStay(w: World, r: Request, o: Outcome)
    requires Shape(r)
    ensures r.past.uploadLost ==> RequestAfter(w, r, o).past.uploadLost
  {
  }

  lemma AdvanceOwnsUpload(w: World, r: Request)
    requires Shape(r) && Ends(r.job.kind) && OnMainPath(r.pc) && !r.pc.Start? && !r.pc.AwaitBucket?
    ensures OwnsUpload(r) ==> (OwnsUpload(Advance(w, r)) <==> !r.pc.Commit?)
    ensures !OwnsUpload(r) && OwnsUpload(Advance(w, r)) ==> r.pc.LoadUpload?
  {
    match r.pc
    case CheckUploadDir =>
    case LoadListed =>
    case CompareListed =>
    case Assemble =>
    case CompareStored =>
    case MeasureStaged =>
    case CheckBucket =>
    case CheckKey =>
    case CheckTarget =>
    case Upsert =>
    case DropUpload =>
    case Commit =>
    case _ =>
  }

  lemma RecoverOwnsUpload(r: Request, idle: bool, ok: bool)
    requires Shape(r) && Ends(r.job.kind) && !OnMainPath(r.pc)
    ensures OwnsUpload(r) ==> (OwnsUpload(Recover(r, idle, ok)) <==> !r.pc.UnlockOuter?)
    ensures OwnsUpload(Recover(r, idle, ok)) ==> OwnsUpload(r)
  {
  }

  /** How a step may change where the upload's directory is. */
  datatype Move = Stays | Aside | Back | Ending | Lost

  ghost predicate MoveIs(w: World, r: Request, w': World, r': Request, move: Move) {
    var u, up, aside := r.job.upload, UploadPath(r.job.upload), CleanupDir(r.job);
    match move
    case Stays =>
      && Displacing(r', u) == Displacing(r, u) && w'.rows.uploads == w.rows.uploads && w'.rows.parts == w.rows.parts
      && (forall p :: up <= p || (aside <= p && Displacing(r, u)) ==> SameAt(w.fs, w'.fs, p))
    case Aside =>
      && !r.past.displaced && Displacing(r', u) && OwnsUpload(r)
      && Possible(w.fs, MoveTree(up, aside)) && w' == w.(fs := Perform(w.fs, MoveTree(up, aside)))
    case Back =>
      && Displacing(r, u) && !r'.past.displaced && OwnsUpload(r')
      && Possible(w.fs, MoveTree(aside, up)) && w' == w.(fs := Perform(w.fs, MoveTree(aside, up)))
    case Ending => OwnsUpload(r) && Ended(r') && u !in w'.rows.uploads && NothingAt(w'.fs, up)
    case Lost => LosesUpload(r', u) && r'.past.displaced && !r'.flags.committed && w' == w
  }

  lemma QuietMove(w: World, r: Request)
    requires Mounted(w.fs) && Recorded(w, r) && Ends(r.job.kind) && OnMainPath(r.pc)
    requires !r.pc.Start? && !r.pc.AwaitBucket? && !r.pc.Commit? && !r.pc.MoveUpload?
    ensures Displacing(Advance(w, r), r.job.upload) == Displacing(r, r.job.upload)
  {
    AdvanceSameJob(w, r);
    AdvanceDisplaces(w, r);
    AdvanceOwnsUpload(w, r);
  }

  lemma FirstLockMove(w: World, r: Request)
    requires Shape(r) && Ends(r.job.kind) && (r.pc.Start? || r.pc.AwaitBucket?)
    ensures Displacing(Proceed(w, r, true), r.job.upload) == Displacing(r, r.job.upload)
  {
  }

  lemma FailingMove(r: Request, f: Failure)
    requires Shape(r) && Ends(r.job.kind) && OnMainPath(r.pc) && !r.pc.Start?
    ensures Displacing(Fail(r, f), r.job.upload) == Displacing(r, r.job.upload)
  {
  }

  lemma BeforeMove(r: Request)
    requires Shape(r) && Ends(r.job.kind) && r.pc.MoveUpload?
    ensures !r.past.displaced && OwnsUpload(r)
  {
  }

  lemma AsideMove(w: World, r: Request)
    requires Recorded(w, r) && Ends(r.job.kind) && r.pc.MoveUpload?
    requires Possible(w.fs, MoveTree(UploadPath(r.job.upload), CleanupDir(r.job)))
    ensures MoveIs(w, r, w.(fs := Perform(w.fs, MoveTree(UploadPath(r.job.upload), CleanupDir(r.job)))), Advance(w, r), Aside)
  {
    BeforeMove(r);
    AdvanceSameJob(w, r);
    AdvanceDisplaces(w, r);
    AdvanceOwnsUpload(w, r);
  }

  lemma EndingMove(w: World, r: Request)
    requires Mounted(w.fs) && Recorded(w, r) && Ends(r.job.kind) && r.pc.Commit?
    ensures MoveIs(w, r, w.(rows := CommitChanges(w.rows, r.local.pending)), Advance(w, r), Ending)
  {
    CommitPending(r);
  }

  lemma MainMove(w: World, r: Request, o: Outcome) returns (move: Move)
    requires Mounted(w.fs) && Recorded(w, r) && Ends(r.job.kind) && OnMainPath(r.pc)
    ensures MoveIs(w, r, WorldAfter(w, r, o), RequestAfter(w, r, o), move)
  {
    StepByAnswer(w, r, o);
    var todo, ok := TodoAt(w.fs, r), Succeeds(w.fs, r, o);
    move := Stays;
    if r.pc.Start? || r.pc.AwaitBucket? {
      FirstLockMove(w, r);
    } else if !ok {
      FailingMove(r, if Blocked(w.fs, r) then KeyConflict else Failure.Raised);
    } else if r.pc.Commit? {
      EndingMove(w, r);
      move := Ending;
    } else if r.pc.MoveUpload? {
      AsideMove(w, r);
      move := Aside;
    } else {
      QuietMove(w, r);
      if todo.Disk? { PublishingSpares(w.fs, r, todo.op); }
    }
  }

  lemma PublishingSpares(fs: FileSystem, r: Request, op: Operation)
    requires r.job.kind.Complete? && TodoAt(fs, r) == Disk(op) && Possible(fs, op) && !IsTreeOp(op) && ProperJob(r.job) && WellFormed(fs)
    ensures forall p :: UploadPath(r.job.upload) <= p || CleanupDir(r.job) <= p ==> SameAt(fs, Perform(fs, op), p)
  {
    forall p | UploadPath(r.job.upload) <= p || CleanupDir(r.job) <= p ensures SameAt(fs, Perform(fs, op), p) {
      PublishingSparesUpload(fs, r, op, p);
      UntouchedStays(fs, op, p);
    }
  }

  lemma QuietRecovery(r: Request, idle: bool, ok: bool)
    requires Shape(r) && Ends(r.job.kind) && !OnMainPath(r.pc)
    requires !(r.pc.RestoreUpload? && r.flags.moved) && !(r.pc.UnlockOuter? && Displacing(r, r.job.upload))
    ensures Displacing(Recover(r, idle, ok), r.job.upload) == Displacing(r, r.job.upload)
  {
  }

  lemma BackMove(w: World, r: Request)
    requires Mounted(w.fs) && Recorded(w, r) && Ends(r.job.kind) && r.pc.RestoreUpload? && r.flags.moved
    requires Possible(w.fs, MoveTree(CleanupDir(r.job), UploadPath(r.job.upload)))
    ensures MoveIs(w, r, w.(fs := Perform(w.fs, MoveTree(CleanupDir(r.job), UploadPath(r.job.upload)))), Recover(r, false, true), Back)
  {
  }

  lemma LostMove(w: World, r: Request, idle: bool, ok: bool)
    requires Shape(r) && Ends(r.job.kind)
    requires (r.pc.RestoreUpload? && r.flags.moved && !ok) || (r.pc.UnlockOuter? && Displacing(r, r.job.upload))
    ensures MoveIs(w, r, w, Recover(r, idle, ok), Lost)
  {
  }

  lemma TidyMove(w: World, r: Request, o: Outcome)
    requires Mounted(w.fs) && Recorded(w, r) && Ends(r.job.kind) && r.pc.TidyUpload?
    ensures forall p :: UploadPath(r.job.upload) <= p ==> SameAt(w.fs, WorldAfter(w, r, o).fs, p)
  {
    forall p | UploadPath(r.job.upload) <= p ensures SameAt(w.fs, WorldAfter(w, r, o).fs, p) {
      assert p[1] == Plain(r.job.upload);
      StepStaysInside(w, r, o, p);
    }
  }

  lemma RecoveryMove(w: World, r: Request, o: Outcome) returns (move: Move)
    requires Mounted(w.fs) && Recorded(w, r) && Ends(r.job.kind) && !OnMainPath(r.pc)
    ensures MoveIs(w, r, WorldAfter(w, r, o), RequestAfter(w, r, o), move)
  {
    StepByAnswer(w, r, o);
    var todo, ok := TodoAt(w.fs, r), Succeeds(w.fs, r, o);
    if r.pc.RestoreUpload? && r.flags.moved && ok {
      BackMove(w, r);
      move := Back;
    } else if (r.pc.RestoreUpload? && r.flags.moved) || (r.pc.UnlockOuter? && Displacing(r, r.job.upload)) {
      LostMove(w, r, todo.Idle?, ok);
      move := Lost;
    } else {
      QuietRecovery(r, todo.Idle?, ok);
      if r.pc.TidyUpload? {
        TidyMove(w, r, o);
      } else if todo.Disk? && ok {
        PublishingSpares(w.fs, r, todo.op);
      }
      move := Stays;
    }
  }

  /** Every step of a request that ends an upload moves the upload's directory in one of these ways. */
  lemma MoveOf(w: World, r: Request, o: Outcome) returns (move: Move)
    requires Mounted(w.fs) && Recorded(w, r) && Ends(r.job.kind)
    ensures MoveIs(w, r, WorldAfter(w, r, o), RequestAfter(w, r, o), move)
  {
    if OnMainPath(r.pc) { move := MainMove(w, r, o); } else { move := RecoveryMove(w, r, o); }
  }

  // ---------- uploads keep a directory ----------

  lemma StillUploadUnharmed(s: Server, s': Server, i: nat, u: string)
    requires Moved(s, s', i) && UploadUnharmed(s', u)
    requires s'.requests[i].job == s.requests[i].job && (s.requests[i].past.uploadLost ==> s'.requests[i].past.uploadLost)
    ensures UploadUnharmed(s, u)
  {
    assert s'.requests[i] in s'.requests;
    forall r | r in s.requests ensures !LosesUpload(r, u) {
      Bystander(s, s', i, r);
    }
  }

  lemma StillDisplaced(s: Server, s': Server, i: nat, u: string)
    requires Moved(s, s', i) && Displaced(s, u) && (Displacing(s.requests[i], u) ==> Displacing(s'.requests[i], u))
    ensures Displaced(s', u)
  {
  }

  lemma EndingKeepsDir(s: Server, s': Server, i: nat, u: string, move: Move)
    requires Moved(s, s', i) && UploadHasDir(s, u) && UploadUnharmed(s', u) && WellFormed(s.world.fs)
    requires Ends(s.requests[i].job.kind) && s.requests[i].job.upload == u
    requires MoveIs(s.world, s.requests[i], s'.world, s'.requests[i], move)
    ensures UploadHasDir(s', u)
  {
    var a, a' := s.requests[i], s'.requests[i];
    assert a' in s'.requests;
    match move
    case Stays =>
      assert SameAt(s.world.fs, s'.world.fs, UploadPath(u));
      if u in s'.world.rows.uploads && Displaced(s, u) { StillDisplaced(s, s', i, u); }
    case Aside =>
    case Back =>
      MovedTreeArrives(s.world.fs, CleanupDir(a.job), UploadPath(u));
    case Ending =>
    case Lost =>
  }

  lemma MovedTreeArrives(fs: FileSystem, s: Path, d: Path)
    requires WellFormed(fs) && Possible(fs, MoveTree(s, d))
    ensures d in Perform(fs, MoveTree(s, d)).dirs
  {
    MoveTreeAt(fs, s, d, d);
    assert Origin(d, s, d) == s;
  }

  /** A request that neither works on an upload nor drew its id as a token changes nothing below its directory. */
  lemma OtherUploadUnowned(r: Request, u: string, p: Path)
    requires UploadPath(u) <= p && u !in Tokens(r.job) && (r.job.upload != u || r.job.kind.PutObject?)
    ensures !OwnsPath(r, p)
  {
    OwnedShape(r, p);
    assert p[0] == UploadPath(u)[0] && p[1] == UploadPath(u)[1];
  }

  lemma PartSparesDir(r: Request, u: string)
    requires r.job.kind.UploadPart?
    ensures !OwnsPath(r, UploadPath(u))
  {
  }

  lemma StepKeepsUploadHasDir(s: Server, i: nat, o: Outcome, u: string)
    requires Sound(s) && CanStep(s, i) && UploadHasDir(s, u) && UploadUnharmed(StepOf(s, i, o), u)
    ensures UploadHasDir(StepOf(s, i, o), u)
  {
    var s', a := StepOf(s, i, o), s.requests[i];
    StepMoves(s, i, o);
    assert Recorded(s.world, a) && a in s.requests;
    SameJob(s.world, a, o);
    if Ends(a.job.kind) && a.job.upload == u {
      var move := MoveOf(s.world, a, o);
      EndingKeepsDir(s, s', i, u, move);
    } else if u in s'.world.rows.uploads {
      if u !in s.world.rows.uploads {
        NewUploads(s.world, a, o, u);
        CreateCommits(s.world, a, o);
      } else {
        if a.job.kind.UploadPart? { PartSparesDir(a, u); }
        else if a.job.upload != u || a.job.kind.PutObject? { OtherUploadUnowned(a, u, UploadPath(u)); }
        StepStaysInside(s.world, a, o, UploadPath(u));
        if Displaced(s, u) { StillDisplaced(s, s', i, u); }
      }
    }
  }

  lemma CreateCommits(w: World, a: Request, o: Outcome)
    requires Recorded(w, a) && a.job.kind.Create? && !a.pc.Finished?
    requires a.job.upload !in w.rows.uploads && a.job.upload in WorldAfter(w, a, o).rows.uploads
    ensures UploadPath(a.job.upload) in WorldAfter(w, a, o).fs.dirs
  {
  }

  lemma StepKeepsUploadsHaveDirs(s: Server, i: nat, o: Outcome)
    requires Sound(s) && CanStep(s, i) && UploadsHaveDirs(s)
    ensures UploadsHaveDirs(StepOf(s, i, o))
  {
    var s', a := StepOf(s, i, o), s.requests[i];
    StepMoves(s, i, o);
    assert Recorded(s.world, a);
    SameJob(s.world, a, o);
    LossesStay(s.world, a, o);
    forall u | UploadUnharmed(s', u) ensures UploadHasDir(s', u) {
      StillUploadUnharmed(s, s', i, u);
      StepKeepsUploadHasDir(s, i, o, u);
    }
  }
}
