/** Any number of requests running concurrently on one filesystem and database. A
    request steps when it waits for no lock, or when no current holder conflicts with
    the lock it waits for; a step of one keeps everything the records of the others
    say. */
module Server {
  import opened Text
  import opened Paths
  import opened Etags
  import opened FileSystems
  import opened Rows
  import opened PartLists
  import opened Locks
  import opened Requests
  import opened Shapes
  import opened Footprints
  import opened Ownership
  import opened Separation
  import opened Records

  datatype Server = Server(world: World, requests: seq<Request>)

  /** The request is about to take a lock. */
  predicate Grabs(r: Request) { (r.pc.Start? && !r.job.kind.Create?) || r.pc.AwaitBucket? }

  function NextLock(r: Request): Wish
    requires Grabs(r)
  {
    if r.pc.Start? then LockPlan(r.job)[0] else BucketLock(r.job.bucket)
  }

  predicate LockFree(s: Server, wish: Wish) {
    forall r :: r in s.requests ==> forall held :: held in HeldLocks(r) ==> !Conflicts(wish, held)
  }

  /** A request that wants a lock proceeds only once no current holder conflicts with it. */
  predicate CanStep(s: Server, i: nat) {
    i < |s.requests| && !s.requests[i].pc.Finished? && (Grabs(s.requests[i]) ==> LockFree(s, NextLock(s.requests[i])))
  }

  function StepOf(s: Server, i: nat, o: Outcome): Server
    requires i < |s.requests|
  {
    Server(WorldAfter(s.world, s.requests[i], o), s.requests[i := RequestAfter(s.world, s.requests[i], o)])
  }

  /** Only request `i` differs between the two servers, besides the world. */
  ghost predicate Moved(s: Server, s': Server, i: nat) {
    && i < |s.requests| == |s'.requests|
    && forall k :: 0 <= k < |s.requests| && k != i ==> s'.requests[k] == s.requests[k]
  }

  lemma StepMoves(s: Server, i: nat, o: Outcome)
    requires i < |s.requests|
    ensures Moved(s, StepOf(s, i, o), i)
    ensures StepOf(s, i, o).requests[i] == RequestAfter(s.world, s.requests[i], o) && StepOf(s, i, o).world == WorldAfter(s.world, s.requests[i], o)
  {
  }

  lemma Bystander(s: Server, s': Server, i: nat, r: Request)
    requires Moved(s, s', i)
    ensures r in s'.requests ==> r in s.requests || r == s'.requests[i]
    ensures r in s.requests ==> r in s'.requests || r == s.requests[i]
  {
  }

  // ---------- what others rely on stays ----------

  /** What `b`'s records speak of is the same in both worlds. */
  ghost predicate SameFor(w: World, w': World, b: Request) {
    && (forall p :: Relies(b, p) ==> SameAt(w.fs, w'.fs, p))
    && (forall id :: OwnsObject(b, id) ==> ObjectRow(w'.rows, id) == ObjectRow(w.rows, id))
    && (forall id :: OwnsPart(b, id) ==> PartRow(w'.rows, id) == PartRow(w.rows, id))
    && (forall u :: ReliesOnUploadRow(b, u) ==> UploadRowAt(w'.rows, u) == UploadRowAt(w.rows, u))
  }

  lemma FrameAgrees(w: World, w': World, b: Request)
    requires SameFor(w, w', b) && Agrees(w, b)
    ensures Agrees(w', b)
  {
    TargetInside(b.job);
    if OwnsTarget(b) {
      assert Relies(b, TargetPath(b.job));
      if b.job.kind.UploadPart? { assert OwnsPart(b, TargetPart(b.job)); } else { assert OwnsObject(b, TargetObject(b.job)); }
    }
    if OwnsPrivate(b) {
      assert Relies(b, StagedFile(b.job)) && Relies(b, BackupFile(b.job));
    }
  }

  lemma FrameNothing(fs: FileSystem, fs': FileSystem, top: Path)
    requires NothingAt(fs, top) && forall p :: top <= p ==> SameAt(fs, fs', p)
    ensures NothingAt(fs', top)
  {
    forall p | top <= p ensures p !in fs'.files && p !in fs'.dirs {
      assert SameAt(fs, fs', p);
    }
  }

  lemma FramePartsOf(t: Tables, t': Tables, u: string)
    requires forall id: PartId :: id.upload == u ==> PartRow(t', id) == PartRow(t, id)
    ensures PartsOf(t', u) == PartsOf(t, u)
  {
  }

  lemma FrameEnding(w: World, w': World, b: Request)
    requires SameFor(w, w', b) && Ends(b.job.kind) && EndingAgrees(w, b)
    ensures EndingAgrees(w', b)
  {
    var up, aside := UploadPath(b.job.upload), CleanupDir(b.job);
    assert forall p :: aside <= p ==> Relies(b, p);
    if NothingAt(w.fs, aside) { FrameNothing(w.fs, w'.fs, aside); }
    assert Relies(b, aside) && SameAt(w.fs, w'.fs, aside);
    if OwnsUpload(b) || b.flags.committed {
      assert forall p :: up <= p ==> Relies(b, p);
      if NothingAt(w.fs, up) { FrameNothing(w.fs, w'.fs, up); }
      assert SameAt(w.fs, w'.fs, up);
      assert ReliesOnUploadRow(b, b.job.upload);
    }
    if OwnsUpload(b) {
      FramePartsOf(w.rows, w'.rows, b.job.upload);
    }
  }

  lemma FrameUpload(w: World, w': World, b: Request)
    requires SameFor(w, w', b) && UploadAgrees(w, b)
    ensures UploadAgrees(w', b)
  {
    if Ends(b.job.kind) {
      FrameEnding(w, w', b);
    } else if b.job.kind.UploadPart? {
      if OwnsTarget(b) { assert ReliesOnUploadRow(b, b.job.upload); }
    } else if b.job.kind.Create? && !b.flags.committed {
      assert ReliesOnUploadRow(b, b.job.upload);
      assert Relies(b, UploadPath(b.job.upload));
    }
  }

  lemma FrameAssembly(w: World, w': World, b: Request)
    requires SameFor(w, w', b) && Shape(b) && AssemblyAgrees(w, b)
    ensures AssemblyAgrees(w', b)
  {
    if b.job.kind.Complete? && OnMainPath(b.pc) && CompletePos(b.pc) > 2 {
      assert OwnsUpload(b);
      forall p | UploadPath(b.job.upload) <= p || CleanupDir(b.job) <= p ensures At(w'.fs, p) == At(w.fs, p) {
        assert Relies(b, p);
      }
      AssemblyUnmoved(w, b, w', b);
    }
  }

  lemma FrameRecords(w: World, w': World, b: Request)
    requires SameFor(w, w', b) && Recorded(w, b) && Unseen(w'.fs, b)
    ensures Recorded(w', b)
  {
    FrameAgrees(w, w', b);
    FrameUpload(w, w', b);
    FrameAssembly(w, w', b);
    if b.job.kind.Create? && (b.pc.InsertUpload? || b.pc.Commit?) {
      assert Relies(b, UploadPath(b.job.upload));
    }
  }

  // ---------- a step of `a` leaves `b` alone ----------

  lemma DropsRecorded(w: World, r: Request)
    requires Recorded(w, r)
    ensures DropsOwnParts(w.rows, r)
  {
  }

  lemma StepSparesRows(w: World, a: Request, b: Request, o: Outcome)
    requires Recorded(w, a) && UploadAgrees(w, b) && Apart(w.rows, a, b)
    ensures var t' := WorldAfter(w, a, o).rows;
      && (forall id :: OwnsObject(b, id) ==> ObjectRow(t', id) == ObjectRow(w.rows, id))
      && (forall id :: OwnsPart(b, id) ==> PartRow(t', id) == PartRow(w.rows, id))
      && (forall u :: ReliesOnUploadRow(b, u) ==> UploadRowAt(t', u) == UploadRowAt(w.rows, u))
  {
    var t' := WorldAfter(w, a, o).rows;
    DropsRecorded(w, a);
    RowsStayInside(w, a, o);
    forall id | OwnsObject(b, id) ensures ObjectRow(t', id) == ObjectRow(w.rows, id) {
      if OwnsObject(a, id) { ObjectRowExclusive(a, b, id); }
    }
    forall id | OwnsPart(b, id) ensures PartRow(t', id) == PartRow(w.rows, id) {
      if OwnsPart(a, id) { PartRowExclusive(w, a, b, id); }
    }
    forall u | ReliesOnUploadRow(b, u) ensures UploadRowAt(t', u) == UploadRowAt(w.rows, u) {
      if OwnsUploadRow(a, u) { UploadRowExclusive(w, a, b, u); }
    }
  }

  lemma StepSparesPaths(w: World, a: Request, b: Request, o: Outcome, p: Path)
    requires Mounted(w.fs) && Recorded(w, a) && UploadAgrees(w, b) && Apart(w.rows, a, b) && Relies(b, p)
    ensures SameAt(w.fs, WorldAfter(w, a, o).fs, p)
  {
    if OwnsPath(a, p) { OwnershipExclusive(w, a, b, p); }
    StepStaysInside(w, a, o, p);
  }

  lemma NewFile(fs: FileSystem, a: Request, op: Operation, p: Path)
    requires TodoAt(fs, a) == Disk(op) && !op.MoveTree? && p in Perform(fs, op).files && p !in fs.files
    ensures p == StagedFile(a.job) || p == BackupFile(a.job) || p == TargetPath(a.job)
  {
  }

  lemma NamesDiffer(a: Job, b: Job, p: Path)
    requires Names(a) !! Names(b) && b.kind.UploadPart? && p != []
    requires Publishes(a.kind) && (p == StagedFile(a) || p == BackupFile(a) || p == TargetPath(a))
    ensures !NamedFor(b, p)
  {
  }

  lemma WritersPublish(fs: FileSystem, a: Request, op: Operation, p: Path)
    requires Shape(a) && TodoAt(fs, a) == Disk(op) && !op.MoveTree? && p in Perform(fs, op).files && p !in fs.files
    ensures Publishes(a.job.kind) && p != []
  {
  }

  /** A moved file keeps the last component of its name. */
  lemma MovedName(fs: FileSystem, s: Path, d: Path, p: Path)
    requires WellFormed(fs) && Possible(fs, MoveTree(s, d)) && p in Perform(fs, MoveTree(s, d)).files && p != []
    ensures Origin(p, s, d) in fs.files && Origin(p, s, d) != [] && Origin(p, s, d)[|Origin(p, s, d)| - 1] == p[|p| - 1]
  {
    MoveTreeAt(fs, s, d, p);
    assert At(Perform(fs, MoveTree(s, d)), p).Some?;
    var q := Origin(p, s, d);
    if d <= p {
      PrefixCases(d, p);
      assert p == d ==> q == s;
    }
  }

  lemma MovedNames(fs: FileSystem, j: Job, s: Path, d: Path)
    requires WellFormed(fs) && Possible(fs, MoveTree(s, d))
    requires forall p :: p in fs.files && p != [] ==> !NamedFor(j, p)
    ensures forall p :: p in Perform(fs, MoveTree(s, d)).files && p != [] ==> !NamedFor(j, p)
  {
    forall p | p in Perform(fs, MoveTree(s, d)).files && p != [] ensures !NamedFor(j, p) {
      MovedName(fs, s, d, p);
    }
  }

  lemma StepSparesNames(w: World, a: Request, b: Request, o: Outcome)
    requires Mounted(w.fs) && Shape(a) && Names(a.job) !! Names(b.job) && Unseen(w.fs, b)
    ensures Unseen(WorldAfter(w, a, o).fs, b)
  {
    var fs' := WorldAfter(w, a, o).fs;
    StepByAnswer(w, a, o);
    var todo := TodoAt(w.fs, a);
    if b.job.kind.UploadPart? && !b.flags.verified && todo.Disk? && Succeeds(w.fs, a, o) {
      if todo.op.MoveTree? {
        MovedNames(w.fs, b.job, todo.op.source, todo.op.destination);
      } else {
        forall p | p in fs'.files && p != [] ensures !NamedFor(b.job, p) {
          if p !in w.fs.files {
            NewFile(w.fs, a, todo.op, p);
            WritersPublish(w.fs, a, todo.op, p);
            NamesDiffer(a.job, b.job, p);
          }
        }
      }
    }
  }

  /** A step of one request keeps everything another's records say. */
  lemma OthersKeepRecords(w: World, a: Request, b: Request, o: Outcome)
    requires Mounted(w.fs) && Recorded(w, a) && Recorded(w, b) && Apart(w.rows, a, b)
    ensures Recorded(WorldAfter(w, a, o), b)
  {
    var w' := WorldAfter(w, a, o);
    StepSparesRows(w, a, b, o);
    forall p | Relies(b, p) ensures SameAt(w.fs, w'.fs, p) {
      StepSparesPaths(w, a, b, o, p);
    }
    StepSparesNames(w, a, b, o);
    FrameRecords(w, w', b);
  }

  // ---------- the invariant of the server ----------

  ghost predicate AllRecorded(s: Server) {
    forall i :: 0 <= i < |s.requests| ==> Recorded(s.world, s.requests[i])
  }

  ghost predicate AllApart(s: Server) {
    forall i, k :: 0 <= i < |s.requests| && 0 <= k < |s.requests| && i != k ==> Apart(s.world.rows, s.requests[i], s.requests[k])
  }

  /** Uploads in the table have no file in their directory's place, and their ids are nobody's token. */
  ghost predicate UploadsInPlace(s: Server) {
    && (forall u :: u in s.world.rows.uploads ==> UploadPath(u) !in s.world.fs.files)
    && (forall u, r :: u in s.world.rows.uploads && r in s.requests ==> u !in Tokens(r.job))
  }

  ghost predicate Sound(s: Server) {
    Mounted(s.world.fs) && AllRecorded(s) && AllApart(s) && UploadsInPlace(s)
  }

  lemma StepKeepsMounted(w: World, r: Request, o: Outcome)
    requires Mounted(w.fs) && Shape(r) && Unseen(w.fs, r)
    ensures Mounted(WorldAfter(w, r, o).fs)
  {
    StepByAnswer(w, r, o);
    var todo := TodoAt(w.fs, r);
    if todo.Disk? && Succeeds(w.fs, r, o) { OperationKeepsWellFormed(w.fs, todo.op); }
    RootsUnowned(r);
    StepStaysInside(w, r, o, TMP_DIR);
    StepStaysInside(w, r, o, BUCKETS_DIR);
  }

  lemma RootsUnowned(r: Request)
    ensures !OwnsPath(r, TMP_DIR) && !OwnsPath(r, BUCKETS_DIR)
  {
  }

  // ---------- locks ----------

  predicate HoldsAfter(r: Request, held: Wish) {
    held in HeldLocks(r) || (Grabs(r) && held == NextLock(r))
  }

  lemma MainStepHolds(w: World, r: Request, held: Wish)
    requires OnMainPath(r.pc) && !r.pc.Start? && !r.pc.AwaitBucket? && held in HeldLocks(Advance(w, r))
    ensures held in HeldLocks(r)
  {
  }

  lemma FirstStepHolds(w: World, r: Request, held: Wish)
    requires (r.pc.Start? || r.pc.AwaitBucket?) && Shape(r) && held in HeldLocks(Proceed(w, r, true))
    ensures HoldsAfter(r, held)
  {
  }

  lemma FailingHolds(r: Request, f: Failure, held: Wish)
    requires OnMainPath(r.pc) && !r.pc.Start? && held in HeldLocks(Fail(r, f))
    ensures held in HeldLocks(r)
  {
  }

  lemma RecoveryHolds(r: Request, idle: bool, ok: bool, held: Wish)
    requires !OnMainPath(r.pc) && Shape(r) && held in HeldLocks(Recover(r, idle, ok))
    ensures held in HeldLocks(r)
  {
  }

  /** After a step a request holds what it held, and the lock it was waiting for. */
  lemma StepHolds(w: World, r: Request, o: Outcome, held: Wish)
    requires Shape(r) && held in HeldLocks(RequestAfter(w, r, o))
    ensures HoldsAfter(r, held)
  {
    if !OnMainPath(r.pc) {
      RecoveryHolds(r, TodoAt(w.fs, r).Idle?, Succeeds(w.fs, r, o), held);
    } else if r.pc.Start? || r.pc.AwaitBucket? {
      FirstStepHolds(w, r, held);
    } else if Succeeds(w.fs, r, o) {
      MainStepHolds(w, r, held);
    } else {
      FailingHolds(r, if Blocked(w.fs, r) then KeyConflict else Failure.Raised, held);
    }
  }

  lemma StepKeepsLocksApart(s: Server, i: nat, o: Outcome, k: nat)
    requires CanStep(s, i) && Shape(s.requests[i]) && k < |s.requests| && k != i
    requires LocksApart(s.requests[i], s.requests[k]) && LocksApart(s.requests[k], s.requests[i])
    ensures LocksApart(StepOf(s, i, o).requests[i], s.requests[k]) && LocksApart(s.requests[k], StepOf(s, i, o).requests[i])
  {
    var a, a', b := s.requests[i], StepOf(s, i, o).requests[i], s.requests[k];
    forall x, y | x in HeldLocks(a') && y in HeldLocks(b) ensures !Conflicts(x, y) && !Conflicts(y, x) {
      StepHolds(s.world, a, o, x);
      ConflictsSymmetric(x, y);
    }
  }

  // ---------- upload ids ----------

  lemma NewUploads(w: World, r: Request, o: Outcome, u: string)
    requires Recorded(w, r) && u in WorldAfter(w, r, o).rows.uploads && u !in w.rows.uploads
    ensures r.job.kind.Create? && u == r.job.upload && u in Names(r.job) && Tokens(r.job) == {}
  {
  }

  /** A request that ends an upload finds it in the table, and a new upload's creator does not end one. */
  lemma NewlyEnded(w: World, r: Request, o: Outcome)
    requires Recorded(w, r) && Ended(RequestAfter(w, r, o)) && !Ended(r)
    ensures r.job.upload in w.rows.uploads && OwnsUpload(r) && r.pc.Commit? && o.Returned?
  {
    CommitsOnlyAtCommit(w, r, o);
    SameJob(w, r, o);
  }

  lemma CommitsOnlyAtCommit(w: World, r: Request, o: Outcome)
    requires Shape(r)
    ensures RequestAfter(w, r, o).flags.committed <==> r.flags.committed || (r.pc.Commit? && o.Returned?)
  {
    if OnMainPath(r.pc) { AdvanceCommits(w, r); } else { RecoverCommits(r, TodoAt(w.fs, r).Idle?, Succeeds(w.fs, r, o)); }
  }

  lemma AdvanceCommits(w: World, r: Request)
    requires OnMainPath(r.pc)
    ensures Advance(w, r).flags.committed <==> r.flags.committed || r.pc.Commit?
  {
  }

  lemma RecoverCommits(r: Request, idle: bool, ok: bool)
    ensures Recover(r, idle, ok).flags.committed == r.flags.committed
  {
  }

  lemma StepKeepsForeign(s: Server, i: nat, o: Outcome, k: nat)
    requires Sound(s) && i < |s.requests| && k < |s.requests| && k != i
    ensures var s' := StepOf(s, i, o);
      UploadForeign(s'.world.rows, s'.requests[i], s'.requests[k]) && UploadForeign(s'.world.rows, s'.requests[k], s'.requests[i])
  {
    var s' := StepOf(s, i, o);
    var w, a, a', b := s.world, s.requests[i], s'.requests[i], s.requests[k];
    assert Apart(w.rows, a, b) && Recorded(w, a) && Recorded(w, b);
    assert a in s.requests && b in s.requests;
    SameJob(w, a, o);
    CommitsOnlyAtCommit(w, a, o);
    forall u | u in s'.world.rows.uploads ensures u !in Tokens(a.job) && u !in Tokens(b.job) {
      if u !in w.rows.uploads { NewUploads(w, a, o, u); }
    }
    if Ended(a') && !Ended(a) { NewlyEnded(w, a, o); }
  }

  lemma StepKeepsApart(s: Server, i: nat, o: Outcome)
    requires Sound(s) && CanStep(s, i)
    ensures AllApart(StepOf(s, i, o))
  {
    var s' := StepOf(s, i, o);
    SameJob(s.world, s.requests[i], o);
    assert Recorded(s.world, s.requests[i]);
    forall j, k | 0 <= j < |s'.requests| && 0 <= k < |s'.requests| && j != k
      ensures Apart(s'.world.rows, s'.requests[j], s'.requests[k])
    {
      assert Apart(s.world.rows, s.requests[j], s.requests[k]) && Apart(s.world.rows, s.requests[k], s.requests[j]);
      if j == i {
        StepKeepsLocksApart(s, i, o, k);
        StepKeepsForeign(s, i, o, k);
      } else if k == i {
        StepKeepsLocksApart(s, i, o, j);
        StepKeepsForeign(s, i, o, j);
      } else {
        BystandersForeign(s, i, o, s.requests[j], s.requests[k]);
        BystandersForeign(s, i, o, s.requests[k], s.requests[j]);
      }
    }
  }

  lemma BystandersForeign(s: Server, i: nat, o: Outcome, a: Request, b: Request)
    requires Sound(s) && i < |s.requests| && a in s.requests && b in s.requests && UploadForeign(s.world.rows, a, b)
    requires Names(s.requests[i].job) !! Names(b.job)
    ensures UploadForeign(StepOf(s, i, o).world.rows, a, b)
  {
    var t' := StepOf(s, i, o).world.rows;
    assert Recorded(s.world, s.requests[i]);
    if a.job.upload in t'.uploads && a.job.upload !in s.world.rows.uploads {
      NewUploads(s.world, s.requests[i], o, a.job.upload);
    }
  }

  // ---------- uploads stay in place ----------

  lemma NamesNoUpload(j: Job, u: string)
    requires u !in Tokens(j)
    ensures TargetPath(j) != UploadPath(u)
    ensures Publishes(j.kind) ==> StagedFile(j) != UploadPath(u) && BackupFile(j) != UploadPath(u)
  {
    assert UploadPath(u)[0] == Plain("tmp") && UploadPath(u)[1] == Plain(u);
    assert j.kind.UploadPart? || TargetPath(j)[0] == Plain("buckets");
    assert j.kind.UploadPart? || (StagedFile(j)[1] == Plain(j.staged) && (j.kind.Complete? || BackupFile(j)[1] == Plain(j.backup)));
    assert j.kind.Complete? ==> BackupFile(j)[1] == ObjectBackup(j.backup);
  }

  /** The files a request writes are no upload's directory. */
  lemma WritersSpareUploads(fs: FileSystem, r: Request, op: Operation, u: string)
    requires ProperJob(r.job) && Shape(r) && TodoAt(fs, r) == Disk(op) && !op.MoveTree? && u !in Tokens(r.job) && UploadPath(u) !in fs.files
    ensures UploadPath(u) !in Perform(fs, op).files
  {
    var p := UploadPath(u);
    NamesNoUpload(r.job, u);
    if p in Perform(fs, op).files {
      NewFile(fs, r, op, p);
      WritersPublish(fs, r, op, p);
    }
  }

  lemma NoFileAtUpload(w: World, r: Request, o: Outcome, u: string)
    requires Mounted(w.fs) && Recorded(w, r) && u !in Tokens(r.job)
    requires UploadPath(u) !in w.fs.files
    ensures UploadPath(u) !in WorldAfter(w, r, o).fs.files
  {
    StepByAnswer(w, r, o);
    var todo, p := TodoAt(w.fs, r), UploadPath(u);
    if todo.Disk? && Succeeds(w.fs, r, o) && p in Perform(w.fs, todo.op).files {
      if todo.op.MoveTree? {
        TreesHoldNoUploadFile(w.fs, r, todo.op, u);
      } else {
        WritersSpareUploads(w.fs, r, todo.op, u);
      }
    }
  }

  lemma TreesHoldNoUploadFile(fs: FileSystem, r: Request, op: Operation, u: string)
    requires WellFormed(fs) && TodoAt(fs, r) == Disk(op) && op.MoveTree? && Possible(fs, op) && UploadPath(u) !in fs.files
    ensures UploadPath(u) !in Perform(fs, op).files
  {
    var p := UploadPath(u);
    MoveTreeAt(fs, op.source, op.destination, p);
    if op.destination <= p {
      assert |op.destination| == |p|;
      assert p == op.destination;
      assert Origin(p, op.source, op.destination) == op.source;
    }
  }

  lemma StepKeepsUploadsInPlace(s: Server, i: nat, o: Outcome)
    requires Sound(s) && i < |s.requests|
    ensures UploadsInPlace(StepOf(s, i, o))
  {
    var s' := StepOf(s, i, o);
    var w, w', r := s.world, s'.world, s.requests[i];
    assert Recorded(w, r) && r in s.requests;
    SameJob(w, r, o);
    forall u | u in w'.rows.uploads ensures UploadPath(u) !in w'.fs.files && forall q :: q in s'.requests ==> u !in Tokens(q.job) {
      if u in w.rows.uploads {
        NoFileAtUpload(w, r, o, u);
        forall q | q in s'.requests ensures u !in Tokens(q.job) {
          SomeRequest(s, s', i, q);
        }
      } else {
        NewUploads(w, r, o, u);
        NoFileAtUpload(w, r, o, u);
        forall q | q in s'.requests ensures u !in Tokens(q.job) {
          FreshIdForeign(s, i, o, u, q);
        }
      }
    }
  }

  lemma SomeRequest(s: Server, s': Server, i: nat, q: Request)
    requires i < |s.requests| == |s'.requests| && s'.requests == s.requests[i := s'.requests[i]] && s'.requests[i].job == s.requests[i].job
    requires q in s'.requests
    ensures exists r :: r in s.requests && r.job == q.job
  {
  }

  lemma FreshIdForeign(s: Server, i: nat, o: Outcome, u: string, q: Request)
    requires Sound(s) && i < |s.requests| && u in Names(s.requests[i].job) && Tokens(s.requests[i].job) == {}
    requires q in StepOf(s, i, o).requests
    ensures u !in Tokens(q.job)
  {
    var s' := StepOf(s, i, o);
    SameJob(s.world, s.requests[i], o);
    var k :| 0 <= k < |s'.requests| && s'.requests[k] == q;
    if k != i { assert Apart(s.world.rows, s.requests[i], s.requests[k]); }
  }

  /** Every step of every request keeps the server sound. */
  lemma StepKeepsSound(s: Server, i: nat, o: Outcome)
    requires Sound(s) && CanStep(s, i)
    ensures Sound(StepOf(s, i, o))
  {
    var s' := StepOf(s, i, o);
    var r := s.requests[i];
    assert Recorded(s.world, r) && r in s.requests;
    StepKeepsMounted(s.world, r, o);
    forall k | 0 <= k < |s'.requests| ensures Recorded(s'.world, s'.requests[k]) {
      if k == i {
        OwnStepKeepsRecords(s.world, r, o);
      } else {
        assert Apart(s.world.rows, r, s.requests[k]) && Recorded(s.world, s.requests[k]);
        OthersKeepRecords(s.world, r, s.requests[k], o);
      }
    }
    StepKeepsApart(s, i, o);
    StepKeepsUploadsInPlace(s, i, o);
  }
}
