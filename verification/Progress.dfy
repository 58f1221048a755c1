/** The requests obey the lock discipline, so some request can always step, and every run ends. */
module Progress {
  import opened Text
  import opened Paths
  import opened Etags
  import opened FileSystems
  import opened Rows
  import opened PartLists
  import Locks
  import LockDiscipline
  import opened Requests
  import opened Shapes
  import opened Footprints
  import opened Ownership
  import opened Separation
  import opened Records
  import opened Server
  import opened Runs

  /** Each service takes its locks in increasing rank: the upload's or the part's first, then the bucket's. */
  lemma PlansAreOrdered(j: Job)
    ensures LockDiscipline.Ordered(LockPlan(j))
  {
  }

  /** What a request holds is always the outer part of its plan, and the lock it waits for is the next one. */
  lemma HeldIsPrefixOfPlan(r: Request)
    requires Shape(r)
    ensures HeldLocks(r) <= LockPlan(r.job)
    ensures Grabs(r) ==> |HeldLocks(r)| < |LockPlan(r.job)| && LockPlan(r.job)[|HeldLocks(r)|] == NextLock(r)
  {
  }

  /** The lock manager's list of holders, when it is the requests that hold. */
  ghost predicate HoldersAre(holders: seq<Locks.LockHolder>, s: Server) {
    forall h: Locks.LockHolder :: h in holders <==> h.owner < |s.requests| && h.wish in HeldLocks(s.requests[h.owner])
  }

  /** A request passes a lock exactly when the manager's test lets it. */
  lemma ManagerAdmits(holders: seq<Locks.LockHolder>, s: Server, wish: Locks.Wish)
    requires HoldersAre(holders, s)
    ensures LockFree(s, wish) <==> !Locks.HasConflict(holders, wish)
  {
    forall r, held | r in s.requests && held in HeldLocks(r) && Locks.Conflicts(wish, held) ensures Locks.HasConflict(holders, wish) {
      var k :| 0 <= k < |s.requests| && s.requests[k] == r;
      assert Locks.LockHolder(held, k) in holders;
    }
  }

  // ---------- who waits for whom ----------

  predicate WantsBucket(r: Request) { (r.job.kind.PutObject? && r.pc.Start?) || r.pc.AwaitBucket? }

  predicate HasBucket(r: Request) { HoldsOuter(r) && (r.job.kind.PutObject? || (r.job.kind.Complete? && r.flags.inner)) }

  /** `b` works on what `a` is about to lock: the same bucket, the same upload, or the same part of it. */
  predicate InTheWay(a: Request, b: Request) {
    if WantsBucket(a) then HasBucket(b) && b.job.bucket == a.job.bucket
    else
      && HoldsOuter(b) && b.job.upload == a.job.upload
      && match b.job.kind
         case UploadPart => a.job.kind.UploadPart? ==> a.job.number == b.job.number
         case Complete => true
         case Abort => true
         case _ => false
  }

  lemma BucketLocksConflict(a: string, b: string)
    ensures Locks.Conflicts(BucketLock(a), BucketLock(b)) <==> a == b
  {
    Locks.DescendantIsPrefix(BucketPath(a), BucketPath(b));
    Locks.DescendantIsPrefix(BucketPath(b), BucketPath(a));
  }

  lemma UploadLocksConflict(u: string, v: string)
    ensures Locks.Conflicts(UploadLock(u), UploadLock(v)) <==> u == v
  {
    Locks.DescendantIsPrefix(UploadPath(u), UploadPath(v));
    Locks.DescendantIsPrefix(UploadPath(v), UploadPath(u));
    assert UploadPath(u)[1] == Plain(u) && UploadPath(v)[1] == Plain(v);
  }

  function PartLock(u: string, n: nat): Locks.Wish {
    Locks.Wish(Locks.LockResource(UploadPath(u), Some(PartFile(n))), Locks.LockType.Write)
  }

  lemma PartLocksConflict(u: string, n: nat, v: string, m: nat)
    ensures Locks.Conflicts(PartLock(u, n), PartLock(v, m)) <==> u == v && n == m
  {
    assert UploadPath(u)[1] == Plain(u) && UploadPath(v)[1] == Plain(v);
  }

  lemma UploadAndPartLocksConflict(u: string, v: string, m: nat)
    ensures Locks.Conflicts(UploadLock(u), PartLock(v, m)) <==> u == v
    ensures Locks.Conflicts(PartLock(v, m), UploadLock(u)) <==> u == v
  {
    var file := UploadPath(v) + [PartFile(m)];
    Locks.DescendantIsPrefix(UploadPath(u), file);
    assert UploadPath(u)[1] == Plain(u) && file[1] == Plain(v);
  }

  lemma BucketAndPartLocks(b: string, u: string, n: nat)
    ensures !Locks.Conflicts(BucketLock(b), PartLock(u, n)) && !Locks.Conflicts(PartLock(u, n), BucketLock(b))
    ensures !Locks.Conflicts(BucketLock(b), UploadLock(u)) && !Locks.Conflicts(UploadLock(u), BucketLock(b))
  {
    var file := UploadPath(u) + [PartFile(n)];
    Locks.DescendantIsPrefix(BucketPath(b), file);
    Locks.DescendantIsPrefix(BucketPath(b), UploadPath(u));
    Locks.DescendantIsPrefix(UploadPath(u), BucketPath(b));
    assert BucketPath(b)[0] == Plain("buckets") && UploadPath(u)[0] == Plain("tmp") && file[0] == Plain("tmp");
  }

  predicate Holds(r: Request, held: Locks.Wish) {
    || (HasBucket(r) && held == BucketLock(r.job.bucket))
    || (HoldsOuter(r) && r.job.kind.UploadPart? && held == PartLock(r.job.upload, r.job.number))
    || (HoldsOuter(r) && (r.job.kind.Complete? || r.job.kind.Abort?) && held == UploadLock(r.job.upload))
  }

  lemma HeldAre(r: Request, held: Locks.Wish)
    ensures held in HeldLocks(r) <==> Holds(r, held)
  {
    if HoldsOuter(r) && r.job.kind.Complete? { assert LockPlan(r.job)[..1] == [UploadLock(r.job.upload)]; }
  }

  lemma NextLockIs(r: Request)
    requires Grabs(r) && Shape(r)
    ensures NextLock(r) == if WantsBucket(r) then BucketLock(r.job.bucket)
      else if r.job.kind.UploadPart? then PartLock(r.job.upload, r.job.number) else UploadLock(r.job.upload)
  {
  }

  lemma LocksInTheWay(a: Request, b: Request)
    requires Grabs(a) && Shape(a)
    ensures (exists held :: held in HeldLocks(b) && Locks.Conflicts(NextLock(a), held)) <==> InTheWay(a, b)
  {
    hide HeldLocks, NextLock, Shape, Locks.Conflicts, HoldsOuter;
    var ja, jb := a.job, b.job;
    BucketLocksConflict(ja.bucket, jb.bucket);
    UploadLocksConflict(ja.upload, jb.upload);
    PartLocksConflict(ja.upload, ja.number, jb.upload, jb.number);
    UploadAndPartLocksConflict(ja.upload, jb.upload, jb.number);
    UploadAndPartLocksConflict(jb.upload, ja.upload, ja.number);
    BucketAndPartLocks(ja.bucket, jb.upload, jb.number);
    BucketAndPartLocks(jb.bucket, ja.upload, ja.number);
    NextLockIs(a);
    forall held ensures held in HeldLocks(b) <==> Holds(b, held) { HeldAre(b, held); }
    if InTheWay(a, b) {
      var held := if WantsBucket(a) then BucketLock(jb.bucket)
        else if jb.kind.UploadPart? then PartLock(jb.upload, jb.number) else UploadLock(jb.upload);
      assert held in HeldLocks(b) && Locks.Conflicts(NextLock(a), held);
    }
  }

  /** A request waits exactly while another works on the same bucket, the same upload or the same part of it: nothing
      else holds it up, and two parts of one upload are written side by side. */
  lemma WaitsOnlyForItsOwn(s: Server, i: nat)
    requires Sound(s) && i < |s.requests| && !s.requests[i].pc.Finished?
    ensures CanStep(s, i) <==> (Grabs(s.requests[i]) ==> forall b :: b in s.requests ==> !InTheWay(s.requests[i], b))
  {
    assert Recorded(s.world, s.requests[i]);
    if Grabs(s.requests[i]) {
      forall b | b in s.requests
        ensures (exists held :: held in HeldLocks(b) && Locks.Conflicts(NextLock(s.requests[i]), held)) <==> InTheWay(s.requests[i], b)
      {
        LocksInTheWay(s.requests[i], b);
      }
    }
  }

  // ---------- some request can always step ----------

  lemma UploadLocksOnly(r: Request, held: Locks.Wish)
    requires Shape(r) && (Grabs(r) || r.pc.Finished?) && held in HeldLocks(r)
    ensures r.pc.AwaitBucket? && held == UploadLock(r.job.upload)
  {
  }

  lemma BucketVersusUpload(b: string, u: string)
    ensures !Locks.Conflicts(BucketLock(b), UploadLock(u))
  {
  }

  /** When every request waits for a lock or has finished, only upload locks are held, by completions. */
  lemma OnlyUploadLocksHeld(s: Server)
    requires Sound(s) && forall j :: 0 <= j < |s.requests| ==> s.requests[j].pc.Finished? || Grabs(s.requests[j])
    ensures forall r, held :: r in s.requests && held in HeldLocks(r) ==> r.pc.AwaitBucket? && held == UploadLock(r.job.upload)
  {
    forall r, held | r in s.requests && held in HeldLocks(r) ensures r.pc.AwaitBucket? && held == UploadLock(r.job.upload) {
      var l :| 0 <= l < |s.requests| && s.requests[l] == r;
      assert Recorded(s.world, s.requests[l]);
      UploadLocksOnly(r, held);
    }
  }

  /** Deadlock freedom: while a request has not finished, some request can step. */
  lemma ServerNeverStuck(s: Server, i: nat) returns (k: nat)
    requires Sound(s) && i < |s.requests| && !s.requests[i].pc.Finished?
    ensures CanStep(s, k)
  {
    if j :| 0 <= j < |s.requests| && !s.requests[j].pc.Finished? && !Grabs(s.requests[j]) {
      return j;
    }
    OnlyUploadLocksHeld(s);
    if j :| 0 <= j < |s.requests| && s.requests[j].pc.AwaitBucket? {
      forall r, held | r in s.requests && held in HeldLocks(r) ensures !Locks.Conflicts(NextLock(s.requests[j]), held) {
        BucketVersusUpload(s.requests[j].job.bucket, r.job.upload);
      }
      return j;
    }
    return i;
  }

  // ---------- every run ends ----------

  const LAST := 35

  /** Where a program counter is in its service's order. */
  function Position(k: Kind, pc: Pc): (n: nat)
    ensures n <= LAST && (n == LAST <==> pc.Finished?)
  {
    match pc
    case Start => 0
    case CheckUploadDir => if k.UploadPart? then 1 else 3
    case LoadUpload => 2 case LoadListed => 4 case CompareListed => 5 case Assemble => 6 case CompareStored => 7
    case MeasureStaged => 8 case AwaitBucket => 9 case CheckBucket => 10 case Stage => 11 case Measure => 12 case CheckKey => 13
    case MakeDirs => 14 case CheckTarget => 15 case Backup => 16
    case Upsert => if k.UploadPart? then 19 else 17
    case Publish => 18 case MoveUpload => 20 case DropParts => 21 case DropUpload => 22 case InsertUpload => 23 case Commit => 24
    case Rollback => 25 case Undo => 26 case DropBackup => 27 case RestoreUpload => 28 case DropStaged => 29
    case TidyLocked => 30 case UnlockInner => 31 case UnlockOuter => 32 case Tidy => 33 case TidyUpload => 34 case Finished => LAST
  }

  function StepsLeft(requests: seq<Request>): nat {
    if requests == [] then 0 else LAST - Position(requests[0].job.kind, requests[0].pc) + StepsLeft(requests[1..])
  }

  lemma {:induction false} OneFewer(requests: seq<Request>, i: nat, r: Request)
    requires i < |requests| && Position(requests[i].job.kind, requests[i].pc) < Position(r.job.kind, r.pc)
    ensures StepsLeft(requests[i := r]) < StepsLeft(requests)
  {
    if i == 0 {
      assert requests[0 := r][1..] == requests[1..];
    } else {
      OneFewer(requests[1..], i - 1, r);
      assert requests[i := r][1..] == requests[1..][i - 1 := r];
    }
  }

  lemma FailingMovesOn(r: Request, f: Failure)
    requires Shape(r) && OnMainPath(r.pc)
    ensures Position(r.job.kind, r.pc) < Position(r.job.kind, Fail(r, f).pc)
  {
  }

  lemma CheckingMovesOn(w: World, r: Request)
    requires OnMainPath(r.pc) && (r.pc.CheckUploadDir? ==> r.job.kind.UploadPart? || r.job.kind.Abort?)
    requires CheckingPc(r.pc) || PreparingPc(r.pc) || r.pc.LoadUpload?
    ensures Position(r.job.kind, r.pc) < Position(r.job.kind, Advance(w, r).pc)
  {
  }

  lemma ReplacingMovesOn(w: World, r: Request)
    requires Shape(r) && (r.pc.Backup? || r.pc.Upsert? || r.pc.Publish?)
    ensures Position(r.job.kind, r.pc) < Position(r.job.kind, Advance(w, r).pc)
  {
  }

  lemma WritingMovesOn(w: World, r: Request)
    requires Shape(r) && OnMainPath(r.pc) && !r.pc.Start? && !r.pc.AwaitBucket?
    requires !CheckingPc(r.pc) && !PreparingPc(r.pc) && !r.pc.LoadUpload? && !r.pc.Backup? && !r.pc.Upsert? && !r.pc.Publish?
    ensures Position(r.job.kind, r.pc) < Position(r.job.kind, Advance(w, r).pc)
  {
  }

  lemma AdvanceMovesOn(w: World, r: Request)
    requires Shape(r) && OnMainPath(r.pc) && !r.pc.Start? && !r.pc.AwaitBucket?
    ensures Position(r.job.kind, r.pc) < Position(r.job.kind, Advance(w, r).pc)
  {
    if CheckingPc(r.pc) || PreparingPc(r.pc) || r.pc.LoadUpload? {
      CheckingMovesOn(w, r);
    } else if r.pc.Backup? || r.pc.Upsert? || r.pc.Publish? {
      ReplacingMovesOn(w, r);
    } else {
      WritingMovesOn(w, r);
    }
  }

  lemma FirstLockMovesOn(w: World, r: Request)
    requires Shape(r) && (r.pc.Start? || r.pc.AwaitBucket?)
    ensures Position(r.job.kind, r.pc) < Position(r.job.kind, Proceed(w, r, true).pc)
  {
  }

  lemma FailedMovesOn(r: Request, idle: bool, ok: bool)
    requires RecoveryPc(r.job.kind, r.pc) && r.failure.Some? && !r.pc.Finished? && (r.pc.UnlockOuter? ==> !r.flags.inner)
    ensures Position(r.job.kind, r.pc) < Position(r.job.kind, Recover(r, idle, ok).pc)
  {
  }

  lemma DoneMovesOn(r: Request, idle: bool, ok: bool)
    requires DonePc(r.job.kind, r.pc) && !r.pc.Finished?
    ensures Position(r.job.kind, r.pc) < Position(r.job.kind, Recover(r, idle, ok).pc)
  {
  }

  /** Every step brings its request further in its service. */
  lemma StepMovesOn(w: World, r: Request, o: Outcome)
    requires Shape(r) && !r.pc.Finished?
    ensures Position(r.job.kind, r.pc) < Position(RequestAfter(w, r, o).job.kind, RequestAfter(w, r, o).pc)
  {
    SameJob(w, r, o);
    if !OnMainPath(r.pc) {
      if r.flags.committed {
        DoneMovesOn(r, TodoAt(w.fs, r).Idle?, Succeeds(w.fs, r, o));
      } else {
        FailedMovesOn(r, TodoAt(w.fs, r).Idle?, Succeeds(w.fs, r, o));
      }
    } else if r.pc.Start? || r.pc.AwaitBucket? {
      FirstLockMovesOn(w, r);
    } else if Succeeds(w.fs, r, o) {
      AdvanceMovesOn(w, r);
    } else {
      FailingMovesOn(r, if Blocked(w.fs, r) then KeyConflict else Failure.Raised);
    }
  }

  lemma StepLeavesFewer(s: Server, i: nat, o: Outcome)
    requires Sound(s) && CanStep(s, i)
    ensures StepsLeft(StepOf(s, i, o).requests) < StepsLeft(s.requests)
  {
    assert Recorded(s.world, s.requests[i]);
    StepMovesOn(s.world, s.requests[i], o);
    OneFewer(s.requests, i, RequestAfter(s.world, s.requests[i], o));
  }

  /** The steps left in state `n`. */
  function LeftAt(trace: seq<Server>, n: nat): nat
    requires n < |trace|
  {
    StepsLeft(trace[n].requests)
  }

  lemma {:induction false} CountedDown(trace: seq<Server>, n: nat)
    requires n < |trace| && forall k: nat :: 0 < k <= n ==> LeftAt(trace, k) < LeftAt(trace, k - 1)
    ensures n + LeftAt(trace, n) <= LeftAt(trace, 0)
  {
    if n > 0 { CountedDown(trace, n - 1); }
  }

  lemma RunCountsDown(trace: seq<Server>, choices: seq<Choice>, k: nat)
    requires IsServerRun(trace, choices) && 0 < k < |trace|
    ensures LeftAt(trace, k) < LeftAt(trace, k - 1)
  {
    RunIsSound(trace, choices, k - 1);
    StepLeavesFewer(trace[k - 1], choices[k - 1].who, choices[k - 1].outcome);
  }

  /** Termination: no run is longer than the steps its requests start with. */
  lemma RunsAreFinite(trace: seq<Server>, choices: seq<Choice>, n: nat)
    requires IsServerRun(trace, choices) && n < |trace|
    ensures n + LeftAt(trace, n) <= LeftAt(trace, 0)
  {
    forall k: nat | 0 < k <= n ensures LeftAt(trace, k) < LeftAt(trace, k - 1) {
      RunCountsDown(trace, choices, k);
    }
    CountedDown(trace, n);
  }
}
