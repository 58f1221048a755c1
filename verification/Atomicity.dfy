/** What a request has done between taking and giving back its locks: the change it was
    asked for, or nothing, whatever the other requests do meanwhile. */
module Atomicity {
  import opened Text
  import opened Paths
  import opened Etags
  import opened FileSystems
  import opened Rows
  import opened PartLists
  import opened Requests
  import opened Shapes
  import opened Footprints
  import opened Ownership
  import opened Separation
  import opened Records
  import opened Server
  import opened Objects
  import opened Uploads
  import opened Parts
  import opened Runs

  // ---------- the locked target ----------

  /** Request `i` comes to own its target in the step after state `a` and still does in state `b`. */
  ghost predicate Owned(trace: seq<Server>, choices: seq<Choice>, i: nat, a: nat, b: nat) {
    && IsServerRun(trace, choices) && a < b < |trace|
    && (forall k :: 0 <= k < |trace| ==> i < |trace[k].requests|)
    && !OwnsTarget(trace[a].requests[i])
    && (forall k :: a < k <= b ==> OwnsTarget(trace[k].requests[i]))
  }

  lemma OwnedStart(w: World, r: Request, o: Outcome)
    requires Recorded(w, r) && !OwnsTarget(r) && OwnsTarget(RequestAfter(w, r, o))
    ensures WorldAfter(w, r, o) == w
    ensures RequestAfter(w, r, o).past.before == At(w.fs, TargetPath(r.job)) && RequestAfter(w, r, o).past.rowBefore == TargetRow(w.rows, r.job)
  {
    SameJob(w, r, o);
    if r.job.kind.UploadPart? {
      PartOwnsAfter(w, r, o);
      StepByAnswer(w, r, o);
      PartGrabs(w, r);
    } else {
      TargetOwnerIsOn(w, r, o);
    }
  }

  lemma TargetOwnerIsOn(w: World, r: Request, o: Outcome)
    requires Recorded(w, r) && !OwnsTarget(r) && OwnsTarget(RequestAfter(w, r, o)) && !r.job.kind.UploadPart?
    ensures WorldAfter(w, r, o) == w
    ensures RequestAfter(w, r, o).past.before == At(w.fs, TargetPath(r.job)) && RequestAfter(w, r, o).past.rowBefore == TargetRow(w.rows, r.job)
  {
    SameJob(w, r, o);
    Grabbing(w, r, o, TargetObject(r.job));
    OwnerIsOn(r, TargetObject(r.job));
  }

  lemma SameJobNext(trace: seq<Server>, choices: seq<Choice>, i: nat, k: nat)
    requires IsServerRun(trace, choices) && k < |choices| && i < |trace[k].requests|
    ensures i < |trace[k + 1].requests| && trace[k + 1].requests[i].job == trace[k].requests[i].job
  {
    var s, who, o := trace[k], choices[k].who, choices[k].outcome;
    StepMoves(s, who, o);
    if who == i { SameJob(s.world, s.requests[i], o); }
  }

  lemma {:induction false} SameJobThroughout(trace: seq<Server>, i: nat, a: nat, b: nat)
    requires a <= b < |trace| && forall k :: a <= k <= b ==> i < |trace[k].requests|
    requires forall k :: a <= k < b ==> trace[k + 1].requests[i].job == trace[k].requests[i].job
    ensures trace[b].requests[i].job == trace[a].requests[i].job
  {
    if a < b {
      SameJobThroughout(trace, i, a, b - 1);
      assert trace[b - 1 + 1].requests[i].job == trace[b - 1].requests[i].job;
    }
  }

  lemma SameJobAlong(trace: seq<Server>, choices: seq<Choice>, i: nat, a: nat, b: nat)
    requires IsServerRun(trace, choices) && a <= b < |trace| && forall k :: 0 <= k < |trace| ==> i < |trace[k].requests|
    ensures trace[b].requests[i].job == trace[a].requests[i].job
  {
    forall k | a <= k < b ensures trace[k + 1].requests[i].job == trace[k].requests[i].job {
      SameJobNext(trace, choices, i, k);
    }
    SameJobThroughout(trace, i, a, b);
  }

  lemma FoundStep(s: Server, who: nat, o: Outcome, i: nat)
    requires Sound(s) && who < |s.requests| && i < |s.requests| && OwnsTarget(s.requests[i])
    ensures StepOf(s, who, o).requests[i].past.before == s.requests[i].past.before
    ensures StepOf(s, who, o).requests[i].past.rowBefore == s.requests[i].past.rowBefore
  {
    StepMoves(s, who, o);
    if who == i {
      assert Recorded(s.world, s.requests[i]);
      OwnerKeepsSnapshot(s.world, s.requests[i], o);
    }
  }

  lemma GrabStep(s: Server, who: nat, o: Outcome, i: nat)
    requires Sound(s) && who < |s.requests| && i < |s.requests| && !OwnsTarget(s.requests[i]) && OwnsTarget(StepOf(s, who, o).requests[i])
    ensures StepOf(s, who, o).world == s.world
    ensures StepOf(s, who, o).requests[i].past.before == At(s.world.fs, TargetPath(s.requests[i].job))
    ensures StepOf(s, who, o).requests[i].past.rowBefore == TargetRow(s.world.rows, s.requests[i].job)
  {
    StepMoves(s, who, o);
    assert Recorded(s.world, s.requests[i]);
    OwnedStart(s.world, s.requests[i], o);
  }

  /** What the request found when it came to own its target. */
  ghost predicate Found(w0: World, r: Request) {
    r.past.before == At(w0.fs, TargetPath(r.job)) && r.past.rowBefore == TargetRow(w0.rows, r.job)
  }

  lemma FoundFirst(trace: seq<Server>, choices: seq<Choice>, i: nat, a: nat)
    requires Owned(trace, choices, i, a, a + 1)
    ensures Found(trace[a].world, trace[a + 1].requests[i]) && trace[a + 1].world == trace[a].world
  {
    RunIsSound(trace, choices, a);
    SameJobAlong(trace, choices, i, a, a + 1);
    GrabStep(trace[a], choices[a].who, choices[a].outcome, i);
  }

  lemma FoundNext(trace: seq<Server>, choices: seq<Choice>, i: nat, b: nat, w0: World)
    requires IsServerRun(trace, choices) && b < |choices| && (forall k :: 0 <= k < |trace| ==> i < |trace[k].requests|)
    requires OwnsTarget(trace[b].requests[i]) && Found(w0, trace[b].requests[i])
    ensures Found(w0, trace[b + 1].requests[i])
  {
    RunIsSound(trace, choices, b);
    SameJobAlong(trace, choices, i, b, b + 1);
    FoundStep(trace[b], choices[b].who, choices[b].outcome, i);
  }

  /** What the request found at its target stays on its records while it owns the target. */
  lemma {:induction false} FoundStays(trace: seq<Server>, choices: seq<Choice>, i: nat, a: nat, b: nat)
    requires Owned(trace, choices, i, a, b)
    ensures Found(trace[a].world, trace[b].requests[i])
  {
    if a + 1 < b {
      FoundStays(trace, choices, i, a, b - 1);
      FoundNext(trace, choices, i, b - 1, trace[a].world);
    } else {
      FoundFirst(trace, choices, i, a);
    }
  }

  /** Path and row are another's than the job's target, in its bucket. */
  ghost predicate Neighbours(j: Job, p: Path, id: ObjectId) {
    && !j.kind.UploadPart? && BucketPath(j.bucket) <= p && p != TargetPath(j)
    && id.bucket == j.bucket && id != TargetObject(j)
  }

  ghost predicate SameThere(w0: World, w: World, p: Path, id: ObjectId) {
    At(w.fs, p) == At(w0.fs, p) && ObjectRow(w.rows, id) == ObjectRow(w0.rows, id)
  }

  lemma BucketNext(trace: seq<Server>, choices: seq<Choice>, i: nat, b: nat, j: Job, p: Path, id: ObjectId)
    requires IsServerRun(trace, choices) && b < |choices| && i < |trace[b].requests|
    requires OwnsTarget(trace[b].requests[i]) && trace[b].requests[i].job == j && Neighbours(j, p, id)
    ensures SameThere(trace[b].world, trace[b + 1].world, p, id)
  {
    RunIsSound(trace, choices, b);
    BucketStep(trace[b], choices[b].who, choices[b].outcome, i, p, id);
  }

  lemma {:induction false} SameThroughout(trace: seq<Server>, a: nat, b: nat, p: Path, id: ObjectId)
    requires a <= b < |trace| && forall k :: a <= k < b ==> SameThere(trace[k].world, trace[k + 1].world, p, id)
    ensures SameThere(trace[a].world, trace[b].world, p, id)
  {
    if a < b {
      SameThroughout(trace, a, b - 1, p, id);
      assert SameThere(trace[b - 1].world, trace[b].world, p, id);
    }
  }

  /** The rest of the bucket stays as it was while a request owns its target there. */
  lemma BucketStays(trace: seq<Server>, choices: seq<Choice>, i: nat, a: nat, b: nat, j: Job, p: Path, id: ObjectId)
    requires IsServerRun(trace, choices) && a <= b < |trace| && Neighbours(j, p, id)
    requires forall k :: a <= k < b ==> i < |trace[k].requests| && OwnsTarget(trace[k].requests[i]) && trace[k].requests[i].job == j
    ensures SameThere(trace[a].world, trace[b].world, p, id)
  {
    forall k | a <= k < b ensures SameThere(trace[k].world, trace[k + 1].world, p, id) {
      BucketNext(trace, choices, i, k, j, p, id);
    }
    SameThroughout(trace, a, b, p, id);
  }

  lemma OwnerSameJob(trace: seq<Server>, choices: seq<Choice>, i: nat, a: nat, b: nat)
    requires Owned(trace, choices, i, a, b)
    ensures forall k :: a <= k <= b ==> trace[k].requests[i].job == trace[b].requests[i].job
  {
    forall k | a <= k <= b ensures trace[k].requests[i].job == trace[b].requests[i].job {
      SameJobAlong(trace, choices, i, k, b);
    }
  }

  lemma BucketStep(s: Server, who: nat, o: Outcome, i: nat, p: Path, id: ObjectId)
    requires Sound(s) && who < |s.requests| && i < |s.requests| && OwnsTarget(s.requests[i]) && Neighbours(s.requests[i].job, p, id)
    ensures SameThere(s.world, StepOf(s, who, o).world, p, id)
  {
    var r := s.requests[i];
    assert Recorded(s.world, r) && Recorded(s.world, s.requests[who]);
    DropsRecorded(s.world, s.requests[who]);
    RowsStayInside(s.world, s.requests[who], o);
    if who == i {
      assert BUCKETS_DIR <= BucketPath(r.job.bucket) <= p;
      OnlyTheTarget(s.world, r, o, p);
    } else {
      assert Apart(s.world.rows, s.requests[who], r);
      StepSparesPaths(s.world, s.requests[who], r, o, p);
      TargetsApart(r, s.requests[who], BucketPath(r.job.bucket));
    }
  }

  /** About to give the target back. */
  predicate LettingGoOf(r: Request) { if r.job.kind.Complete? then r.pc.UnlockInner? else r.pc.UnlockOuter? }

  /** The request committed, and its target is what it was asked to write. */
  ghost predicate Succeeded(w: World, r: Request) {
    && r.flags.committed && r.failure.None?
    && At(w.fs, TargetPath(r.job)) == Some(r.past.payload) && TargetRow(w.rows, r.job) == Some(NewRow(r))
    && Describes(NewRow(r), r.past.payload) && (!r.job.kind.Complete? ==> r.past.payload == r.job.body)
    && At(w.fs, StagedFile(r.job)) == None
  }

  /** The request failed, and its target is what it found; nothing of it is left in tmp unless a deletion failed too. */
  ghost predicate Undone(w: World, r: Request, fs: FileSystem, t: Tables) {
    && !r.flags.committed && r.failure.Some?
    && At(w.fs, TargetPath(r.job)) == At(fs, TargetPath(r.job)) && TargetRow(w.rows, r.job) == TargetRow(t, r.job)
    && (!r.past.litter ==> At(w.fs, StagedFile(r.job)) == None && At(w.fs, BackupFile(r.job)) == None)
  }

  lemma LeavingTarget(w: World, r: Request)
    requires Recorded(w, r) && OwnsTarget(r) && LettingGoOf(r) && !r.past.targetLost
    ensures r.flags.committed ==> Succeeded(w, r)
    ensures !r.flags.committed ==>
      r.failure.Some? && At(w.fs, TargetPath(r.job)) == r.past.before && TargetRow(w.rows, r.job) == r.past.rowBefore
    ensures !r.flags.committed && !r.past.litter ==> At(w.fs, StagedFile(r.job)) == None && At(w.fs, BackupFile(r.job)) == None
  {
    if r.flags.committed { NewRowDescribes(r); }
  }

  /** All or nothing, for uploads of objects and parts and for completions: whatever steps fail and whatever other
      requests do meanwhile, a request that gives back its target has either committed exactly what it was asked
      to write or, unless its own compensation failed, left target and row as it found them; and nothing else in
      the bucket has changed. */
  lemma AllOrNothing(trace: seq<Server>, choices: seq<Choice>, i: nat, a: nat, b: nat)
    requires Owned(trace, choices, i, a, b) && LettingGoOf(trace[b].requests[i]) && !trace[b].requests[i].past.targetLost
    ensures var w0, w, r := trace[a].world, trace[b].world, trace[b].requests[i];
      && (Succeeded(w, r) || Undone(w, r, w0.fs, w0.rows))
      && (!r.job.kind.UploadPart? ==>
            && (forall p :: BucketPath(r.job.bucket) <= p && p != TargetPath(r.job) ==> At(w.fs, p) == At(w0.fs, p))
            && (forall id: ObjectId :: id.bucket == r.job.bucket && id != TargetObject(r.job) ==> ObjectRow(w.rows, id) == ObjectRow(w0.rows, id)))
  {
    var w0, w, r := trace[a].world, trace[b].world, trace[b].requests[i];
    RunIsSound(trace, choices, b);
    SameJobAlong(trace, choices, i, a, b);
    FoundStays(trace, choices, i, a, b);
    assert Recorded(w, r);
    LeavingTarget(w, r);
    if !r.job.kind.UploadPart? {
      FoundFirst(trace, choices, i, a);
      OwnerSameJob(trace, choices, i, a, b);
      var otherId := ObjectId(r.job.bucket, r.job.key + "x");
      forall p | BucketPath(r.job.bucket) <= p && p != TargetPath(r.job) ensures At(w.fs, p) == At(w0.fs, p) {
        BucketStays(trace, choices, i, a + 1, b, r.job, p, otherId);
      }
      var bucket := BucketPath(r.job.bucket);
      assert |TargetPath(r.job)| > |bucket|;
      forall id: ObjectId | id.bucket == r.job.bucket && id != TargetObject(r.job) ensures ObjectRow(w.rows, id) == ObjectRow(w0.rows, id) {
        BucketStays(trace, choices, i, a + 1, b, r.job, bucket, id);
      }
    }
  }

  // ---------- the locked upload ----------

  /** Request `i` finds its upload in the step after state `a` and still works on it in state `b`. */
  ghost predicate UploadOwned(trace: seq<Server>, choices: seq<Choice>, i: nat, a: nat, b: nat) {
    && IsServerRun(trace, choices) && a < b < |trace|
    && (forall k :: 0 <= k < |trace| ==> i < |trace[k].requests|)
    && Ends(trace[a].requests[i].job.kind) && !OwnsUpload(trace[a].requests[i])
    && (forall k :: a < k <= b ==> OwnsUpload(trace[k].requests[i]))
  }

  /** Below `home` everything is as it was below `top`. */
  ghost predicate SameTree(fs: FileSystem, top: Path, fs': FileSystem, home: Path) {
    forall rest: Path :: rest != [] ==> At(fs', home + rest) == At(fs, top + rest)
  }

  lemma TreeMoves(fs: FileSystem, s: Path, d: Path)
    requires WellFormed(fs) && Possible(fs, MoveTree(s, d))
    ensures SameTree(fs, s, Perform(fs, MoveTree(s, d)), d)
  {
  }

  lemma TreeUnmoved(fs: FileSystem, top: Path, fs1: FileSystem, fs2: FileSystem, home: Path)
    requires SameTree(fs, top, fs1, home) && forall p :: home <= p ==> SameAt(fs1, fs2, p)
    ensures SameTree(fs, top, fs2, home)
  {
    forall rest: Path | rest != [] ensures At(fs2, home + rest) == At(fs, top + rest) {
      assert SameAt(fs1, fs2, home + rest);
    }
  }

  lemma OwnHomeStep(w: World, r: Request, o: Outcome, fs: FileSystem)
    requires Mounted(w.fs) && Recorded(w, r) && Ends(r.job.kind) && OwnsUpload(r) && OwnsUpload(RequestAfter(w, r, o))
    requires SameTree(fs, UploadPath(r.job.upload), w.fs, PartsHome(r))
    ensures SameTree(fs, UploadPath(r.job.upload), WorldAfter(w, r, o).fs, PartsHome(RequestAfter(w, r, o)))
  {
    SameJob(w, r, o);
    var w', r' := WorldAfter(w, r, o), RequestAfter(w, r, o);
    var up, aside := UploadPath(r.job.upload), CleanupDir(r.job);
    var move := MoveOf(w, r, o);
    match move
    case Stays => TreeUnmoved(fs, up, w.fs, w'.fs, PartsHome(r));
    case Aside => TreeMoves(w.fs, up, aside);
    case Back => TreeMoves(w.fs, aside, up);
    case Ending =>
    case Lost => LostKeepsHome(w, r, o);
  }

  lemma LostKeepsHome(w: World, r: Request, o: Outcome)
    requires Shape(r) && Ends(r.job.kind) && RequestAfter(w, r, o).past.displaced && RequestAfter(w, r, o).past.uploadLost
    ensures r.past.displaced
  {
    if OnMainPath(r.pc) {
      if !r.pc.Start? && !r.pc.AwaitBucket? { AdvanceDisplaces(w, r); }
    } else {
      RecoverDisplaces(r, TodoAt(w.fs, r).Idle?, Succeeds(w.fs, r, o));
    }
  }

  lemma HomeStep(s: Server, who: nat, o: Outcome, i: nat, fs: FileSystem)
    requires Sound(s) && who < |s.requests| && i < |s.requests| && Ends(s.requests[i].job.kind)
    requires OwnsUpload(s.requests[i]) && OwnsUpload(StepOf(s, who, o).requests[i])
    requires SameTree(fs, UploadPath(s.requests[i].job.upload), s.world.fs, PartsHome(s.requests[i]))
    ensures SameTree(fs, UploadPath(s.requests[i].job.upload), StepOf(s, who, o).world.fs, PartsHome(StepOf(s, who, o).requests[i]))
  {
    var r := s.requests[i];
    StepMoves(s, who, o);
    assert Recorded(s.world, r) && Recorded(s.world, s.requests[who]);
    if who == i {
      OwnHomeStep(s.world, r, o, fs);
    } else {
      assert Apart(s.world.rows, s.requests[who], r);
      forall p | PartsHome(r) <= p ensures SameAt(s.world.fs, StepOf(s, who, o).world.fs, p) {
        StepSparesPaths(s.world, s.requests[who], r, o, p);
      }
      TreeUnmoved(fs, UploadPath(r.job.upload), s.world.fs, StepOf(s, who, o).world.fs, PartsHome(r));
    }
  }

  lemma HomeNext(trace: seq<Server>, choices: seq<Choice>, i: nat, b: nat, fs: FileSystem)
    requires IsServerRun(trace, choices) && b < |choices| && (forall k :: 0 <= k < |trace| ==> i < |trace[k].requests|)
    requires Ends(trace[b].requests[i].job.kind) && OwnsUpload(trace[b].requests[i]) && OwnsUpload(trace[b + 1].requests[i])
    requires SameTree(fs, UploadPath(trace[b].requests[i].job.upload), trace[b].world.fs, PartsHome(trace[b].requests[i]))
    ensures SameTree(fs, UploadPath(trace[b].requests[i].job.upload), trace[b + 1].world.fs, PartsHome(trace[b + 1].requests[i]))
  {
    RunIsSound(trace, choices, b);
    HomeStep(trace[b], choices[b].who, choices[b].outcome, i, fs);
  }

  lemma HomeFirst(trace: seq<Server>, choices: seq<Choice>, i: nat, a: nat)
    requires UploadOwned(trace, choices, i, a, a + 1)
    ensures trace[a + 1].world == trace[a].world && PartsHome(trace[a + 1].requests[i]) == UploadPath(trace[a].requests[i].job.upload)
  {
    RunIsSound(trace, choices, a);
    FindStep(trace[a], choices[a].who, choices[a].outcome, i);
  }

  /** A request that finds its upload changes nothing by looking. */
  lemma FindingUpload(w: World, r: Request, o: Outcome)
    requires Recorded(w, r) && Ends(r.job.kind) && !OwnsUpload(r) && OwnsUpload(RequestAfter(w, r, o))
    ensures WorldAfter(w, r, o) == w && RequestAfter(w, r, o).job == r.job && !RequestAfter(w, r, o).past.displaced
  {
    SameJob(w, r, o);
    StepByAnswer(w, r, o);
    if OnMainPath(r.pc) {
      if !r.pc.Start? && !r.pc.AwaitBucket? {
        AdvanceOwnsUpload(w, r);
        AdvanceDisplaces(w, r);
      }
    } else {
      RecoverOwnsUpload(r, TodoAt(w.fs, r).Idle?, Succeeds(w.fs, r, o));
    }
  }

  lemma FindStep(s: Server, who: nat, o: Outcome, i: nat)
    requires Sound(s) && who < |s.requests| && i < |s.requests| && Ends(s.requests[i].job.kind)
    requires !OwnsUpload(s.requests[i]) && OwnsUpload(StepOf(s, who, o).requests[i])
    ensures StepOf(s, who, o).world == s.world && PartsHome(StepOf(s, who, o).requests[i]) == UploadPath(s.requests[i].job.upload)
  {
    StepMoves(s, who, o);
    assert Recorded(s.world, s.requests[i]);
    FindingUpload(s.world, s.requests[i], o);
  }

  /** While a request completes or aborts an upload, the uploaded parts stay as it found them, in the upload's
      directory or where it moved that. */
  lemma {:induction false} PartsStay(trace: seq<Server>, choices: seq<Choice>, i: nat, a: nat, b: nat)
    requires UploadOwned(trace, choices, i, a, b)
    ensures SameTree(trace[a].world.fs, UploadPath(trace[a].requests[i].job.upload), trace[b].world.fs, PartsHome(trace[b].requests[i]))
  {
    if a + 1 < b {
      PartsStay(trace, choices, i, a, b - 1);
      SameJobAlong(trace, choices, i, a, b - 1);
      HomeNext(trace, choices, i, b - 1, trace[a].world.fs);
    } else {
      HomeFirst(trace, choices, i, a);
    }
  }

  /** The upload's part rows. */
  ghost predicate SameParts(t: Tables, t': Tables, u: string) {
    forall id: PartId :: id.upload == u ==> PartRow(t', id) == PartRow(t, id)
  }

  lemma OwnerCommitsNothing(w: World, r: Request, o: Outcome)
    requires Shape(r) && Ends(r.job.kind) && OwnsUpload(RequestAfter(w, r, o))
    ensures WorldAfter(w, r, o).rows == w.rows
  {
    SameJob(w, r, o);
    CommitsOnlyAtCommit(w, r, o);
  }

  lemma PartRowsStep(s: Server, who: nat, o: Outcome, i: nat)
    requires Sound(s) && who < |s.requests| && i < |s.requests| && Ends(s.requests[i].job.kind)
    requires OwnsUpload(s.requests[i]) && OwnsUpload(StepOf(s, who, o).requests[i])
    ensures SameParts(s.world.rows, StepOf(s, who, o).world.rows, s.requests[i].job.upload)
  {
    var r := s.requests[i];
    assert Recorded(s.world, r) && Recorded(s.world, s.requests[who]);
    if who == i {
      OwnerCommitsNothing(s.world, r, o);
    } else {
      assert Apart(s.world.rows, s.requests[who], r);
      StepSparesRows(s.world, s.requests[who], r, o);
    }
  }

  lemma PartRowsNext(trace: seq<Server>, choices: seq<Choice>, i: nat, b: nat)
    requires IsServerRun(trace, choices) && b < |choices| && (forall k :: 0 <= k < |trace| ==> i < |trace[k].requests|)
    requires Ends(trace[b].requests[i].job.kind) && OwnsUpload(trace[b].requests[i]) && OwnsUpload(trace[b + 1].requests[i])
    ensures SameParts(trace[b].world.rows, trace[b + 1].world.rows, trace[b].requests[i].job.upload)
  {
    RunIsSound(trace, choices, b);
    PartRowsStep(trace[b], choices[b].who, choices[b].outcome, i);
  }

  /** While a request completes or aborts an upload, and has not committed, the upload's part rows stay as it found them. */
  lemma {:induction false} PartRowsStay(trace: seq<Server>, choices: seq<Choice>, i: nat, a: nat, b: nat)
    requires UploadOwned(trace, choices, i, a, b)
    ensures SameParts(trace[a].world.rows, trace[b].world.rows, trace[a].requests[i].job.upload)
  {
    if a + 1 < b {
      PartRowsStay(trace, choices, i, a, b - 1);
      SameJobAlong(trace, choices, i, a, b - 1);
      PartRowsNext(trace, choices, i, b - 1);
    } else {
      HomeFirst(trace, choices, i, a);
    }
  }

  lemma LeavingUpload(w: World, r: Request)
    requires Recorded(w, r) && Ends(r.job.kind) && OwnsUpload(r) && r.pc.UnlockOuter? && !r.past.uploadLost
    ensures UploadKnown(w.rows, r.job) && NothingAt(w.fs, CleanupDir(r.job)) && PartsHome(r) == UploadPath(r.job.upload)
    ensures r.job.kind.Complete? && !r.past.litter ==> At(w.fs, StagedFile(r.job)) == None
    ensures r.job.kind.Complete? && !r.past.litter && !r.past.targetLost ==> At(w.fs, BackupFile(r.job)) == None
  {
  }

  /** All or nothing for the upload itself: a completion or an abort that failed after it found the upload, and whose
      own restore did not fail, gives back its lock with every uploaded part in place, the upload and its part rows
      still in the tables, and nothing left where it would have been moved; and, unless a deletion failed too, with
      nothing staged. */
  lemma FailedEndRestoresUpload(trace: seq<Server>, choices: seq<Choice>, i: nat, a: nat, b: nat)
    requires UploadOwned(trace, choices, i, a, b) && trace[b].requests[i].pc.UnlockOuter? && !trace[b].requests[i].past.uploadLost
    ensures var r, w0, w := trace[b].requests[i], trace[a].world, trace[b].world;
      && SameTree(w0.fs, UploadPath(r.job.upload), w.fs, UploadPath(r.job.upload))
      && UploadKnown(w.rows, r.job) && SameParts(w0.rows, w.rows, r.job.upload)
      && NothingAt(w.fs, CleanupDir(r.job))
      && (r.job.kind.Complete? && !r.past.litter ==> At(w.fs, StagedFile(r.job)) == None)
      && (r.job.kind.Complete? && !r.past.litter && !r.past.targetLost ==> At(w.fs, BackupFile(r.job)) == None)
  {
    RunIsSound(trace, choices, b);
    SameJobAlong(trace, choices, i, a, b);
    PartsStay(trace, choices, i, a, b);
    PartRowsStay(trace, choices, i, a, b);
    assert Recorded(trace[b].world, trace[b].requests[i]);
    LeavingUpload(trace[b].world, trace[b].requests[i]);
  }
}
