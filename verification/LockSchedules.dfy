/** Every run of the server is a schedule of tasks that take and give back locks under the lock discipline. */
module LockSchedules {
  import opened Text
  import opened Paths
  import opened FileSystems
  import opened Rows
  import opened Locks
  import Discipline = LockDiscipline
  import opened Requests
  import opened Shapes
  import opened Records
  import opened Server
  import opened Runs
  import opened Progress

  // ---------- a request as a task ----------

  /** The request has done its work and is giving its locks back, or has given them back. */
  predicate Unwinds(pc: Pc) { pc.UnlockInner? || pc.UnlockOuter? || pc.Tidy? || pc.TidyUpload? || pc.Finished? }

  ghost predicate Tracks(c: Discipline.Client, r: Request) {
    && c.plan == LockPlan(r.job) && c.held == |HeldLocks(r)|
    && (c.stage.Unwinding? <==> Unwinds(r.pc))
    && (!Unwinds(r.pc) ==> c.work >= LAST - Position(r.job.kind, r.pc))
  }

  /** The manager's state and the tasks, when nobody waits and each task tracks its request. */
  ghost predicate Follows(sys: Discipline.System, s: Server) {
    && sys.locks.asleep == map[] && sys.locks.woken == map[]
    && |sys.clients| == |s.requests|
    && forall k :: 0 <= k < |s.requests| ==> Tracks(sys.clients[k], s.requests[k])
  }

  /** What a step of the request is to the lock discipline; after its locks it is nothing. */
  function ActionOf(r: Request, r': Request): Option<Discipline.Action> {
    if Grabs(r) then Some(Discipline.Take)
    else if !Unwinds(r.pc) then Some(if Unwinds(r'.pc) then Discipline.Leave else Discipline.Work)
    else if r.pc.UnlockInner? || r.pc.UnlockOuter? then Some(Discipline.GiveBack)
    else None
  }

  function HeldAfter(a: Option<Discipline.Action>, held: nat): int {
    match a
    case None => held
    case Some(action) => if action.Take? then held + 1 else if action.GiveBack? then held - 1 else held
  }

  lemma GrabHolds(w: World, r: Request)
    requires Shape(r) && (r.pc.Start? || r.pc.AwaitBucket?)
    ensures !Unwinds(Proceed(w, r, true).pc)
    ensures |HeldLocks(Proceed(w, r, true))| == if Grabs(r) then |HeldLocks(r)| + 1 else |HeldLocks(r)|
  {
  }

  lemma AdvanceHolds(w: World, r: Request)
    requires Shape(r) && OnMainPath(r.pc) && !r.pc.Start? && !r.pc.AwaitBucket?
    ensures |HeldLocks(Advance(w, r))| == |HeldLocks(r)|
  {
    match r.pc
    case CheckUploadDir => assert Advance(w, r) == AfterCheckUploadDir(w.fs, r);
    case LoadUpload => assert Advance(w, r) == AfterLoadUpload(w, r);
    case LoadListed => assert Advance(w, r) == AfterLoadListed(w, r);
    case CompareListed => assert Advance(w, r) == AfterCompareListed(r);
    case Assemble => assert Advance(w, r) == AfterAssemble(w.fs, r);
    case CompareStored => assert Advance(w, r) == AfterCompareStored(r);
    case MeasureStaged => assert Advance(w, r) == AfterMeasureStaged(w.fs, r);
    case CheckBucket => assert Advance(w, r) == AfterCheckBucket(w.fs, r);
    case Measure => assert Advance(w, r) == AfterMeasure(w.fs, r);
    case CheckKey => assert Advance(w, r) == AfterCheckKey(w.fs, r);
    case CheckTarget => assert Advance(w, r) == AfterCheckTarget(w.fs, r);
    case Backup => assert Advance(w, r) == AfterBackup(r);
    case Upsert => assert Advance(w, r) == AfterUpsert(w.rows, r);
    case Publish => assert Advance(w, r) == AfterPublish(r);
    case DropUpload => assert Advance(w, r) == AfterDropUpload(w.rows, r);
    case Commit => assert Advance(w, r) == AfterCommit(r);
    case _ =>
  }

  lemma FailHolds(r: Request, f: Failure)
    requires Shape(r) && OnMainPath(r.pc) && !r.pc.Start?
    ensures |HeldLocks(Fail(r, f))| == |HeldLocks(r)| && !Unwinds(Fail(r, f).pc)
  {
  }

  lemma RecoverHolds(r: Request, idle: bool, ok: bool)
    requires Shape(r) && !OnMainPath(r.pc) && !r.pc.Finished?
    ensures |HeldLocks(Recover(r, idle, ok))| == HeldAfter(ActionOf(r, Recover(r, idle, ok)), |HeldLocks(r)|)
    ensures Unwinds(r.pc) ==> Unwinds(Recover(r, idle, ok).pc)
  {
    match r.pc
    case Rollback =>
    case Undo =>
    case DropBackup =>
    case RestoreUpload =>
    case DropStaged =>
    case TidyLocked =>
    case UnlockInner =>
    case UnlockOuter =>
    case Tidy =>
    case TidyUpload =>
  }

  /** What a step takes or gives back is what its action says. */
  lemma LocksFollow(w: World, r: Request, o: Outcome)
    requires Shape(r) && !r.pc.Finished?
    ensures |HeldLocks(RequestAfter(w, r, o))| == HeldAfter(ActionOf(r, RequestAfter(w, r, o)), |HeldLocks(r)|)
    ensures Unwinds(r.pc) ==> Unwinds(RequestAfter(w, r, o).pc)
    ensures Grabs(r) ==> !Unwinds(RequestAfter(w, r, o).pc)
  {
    if !OnMainPath(r.pc) {
      RecoverHolds(r, TodoAt(w.fs, r).Idle?, Succeeds(w.fs, r, o));
    } else if r.pc.Start? || r.pc.AwaitBucket? {
      GrabHolds(w, r);
    } else if Succeeds(w.fs, r, o) {
      AdvanceHolds(w, r);
    } else {
      FailHolds(r, if Blocked(w.fs, r) then KeyConflict else Failure.Raised);
    }
  }

  // ---------- the manager's holders ----------

  lemma HoldersFollow(sys: Discipline.System, s: Server)
    requires Discipline.HoldersMatch(sys) && Follows(sys, s) && Sound(s)
    ensures HoldersAre(sys.locks.holders, s)
  {
    forall k, wish | 0 <= k < |s.requests| ensures Discipline.Holds(sys.clients[k], wish) <==> wish in HeldLocks(s.requests[k]) {
      assert Recorded(s.world, s.requests[k]);
      HeldIsPrefixOfPlan(s.requests[k]);
      assert sys.clients[k].plan[..sys.clients[k].held] == HeldLocks(s.requests[k]);
    }
  }

  /** A request that takes a lock is a task whose acquisition succeeds at once. */
  lemma TakeSucceeds(sys: Discipline.System, s: Server, i: nat)
    requires Discipline.Disciplined(sys) && Follows(sys, s) && Sound(s) && CanStep(s, i) && Grabs(s.requests[i])
    ensures Discipline.CanDo(sys, i, Discipline.Take)
    ensures Enter(sys.locks, sys.clients[i].plan[sys.clients[i].held], i).1.Acquired?
  {
    var r := s.requests[i];
    assert Recorded(s.world, r) && Tracks(sys.clients[i], r);
    HeldIsPrefixOfPlan(r);
    HoldersFollow(sys, s);
    ManagerAdmits(sys.locks.holders, s, NextLock(r));
  }

  /** Task `i` alone moves, and nobody waits before or after. */
  ghost predicate Quietly(sys: Discipline.System, sys': Discipline.System, i: nat, c: Discipline.Client) {
    && i < |sys.clients| && sys'.clients == sys.clients[i := c]
    && sys'.locks.asleep == map[] && sys'.locks.woken == map[]
  }

  lemma TakeQuietly(sys: Discipline.System, s: Server, i: nat)
    requires Discipline.Disciplined(sys) && Follows(sys, s) && Sound(s) && CanStep(s, i) && Grabs(s.requests[i])
    ensures Discipline.CanDo(sys, i, Discipline.Take)
    ensures var c := sys.clients[i]; Quietly(sys, Discipline.Do(sys, i, Discipline.Take), i, c.(held := c.held + 1))
  {
    TakeSucceeds(sys, s, i);
  }

  // ---------- a step of the server is a step of the discipline, or none ----------

  /** The task after a step of its request. */
  function TaskAfter(c: Discipline.Client, a: Option<Discipline.Action>): Discipline.Client {
    match a
    case None => c
    case Some(action) =>
      match action
      case Take => c.(held := c.held + 1)
      case Work => if c.work > 0 then c.(work := c.work - 1) else c
      case Leave => c.(stage := Discipline.Unwinding)
      case GiveBack => if c.held > 0 then c.(held := c.held - 1) else c
      case Retest => c
  }

  lemma OthersQuietly(sys: Discipline.System, i: nat, a: Discipline.Action)
    requires Discipline.CanDo(sys, i, a) && sys.locks.asleep == map[] && sys.locks.woken == map[] && !a.Take? && !a.Retest?
    ensures Quietly(sys, Discipline.Do(sys, i, a), i, TaskAfter(sys.clients[i], Some(a)))
  {
  }

  lemma TaskTracks(c: Discipline.Client, w: World, r: Request, o: Outcome)
    requires Tracks(c, r) && Shape(r) && !r.pc.Finished?
    ensures Tracks(TaskAfter(c, ActionOf(r, RequestAfter(w, r, o))), RequestAfter(w, r, o))
    ensures ActionOf(r, RequestAfter(w, r, o)) == Some(Discipline.Work) ==> c.work > 0
    ensures ActionOf(r, RequestAfter(w, r, o)) == Some(Discipline.GiveBack) ==> 0 < c.held <= |c.plan|
  {
    SameJob(w, r, o);
    LocksFollow(w, r, o);
    StepMovesOn(w, r, o);
    HeldIsPrefixOfPlan(r);
  }

  /** The system after a step of the server. */
  lemma SystemStep(sys: Discipline.System, s: Server, i: nat, o: Outcome) returns (a: Option<Discipline.Action>)
    requires Discipline.Disciplined(sys) && Follows(sys, s) && Sound(s) && CanStep(s, i)
    ensures a.None? ==> Follows(sys, StepOf(s, i, o))
    ensures a.Some? ==> Discipline.CanDo(sys, i, a.value) && Follows(Discipline.Do(sys, i, a.value), StepOf(s, i, o))
  {
    var r, c := s.requests[i], sys.clients[i];
    assert Recorded(s.world, r) && Tracks(c, r);
    a := ActionOf(r, RequestAfter(s.world, r, o));
    TaskTracks(c, s.world, r, o);
    StepMoves(s, i, o);
    if a.None? {
      StillFollows(sys, sys, s, StepOf(s, i, o), i, c);
    } else {
      if a == Some(Discipline.Take) { TakeQuietly(sys, s, i); } else { OthersQuietly(sys, i, a.value); }
      StillFollows(sys, Discipline.Do(sys, i, a.value), s, StepOf(s, i, o), i, TaskAfter(c, a));
    }
  }

  lemma StillFollows(sys: Discipline.System, sys': Discipline.System, s: Server, s': Server, i: nat, c: Discipline.Client)
    requires Follows(sys, s) && Moved(s, s', i) && Quietly(sys, sys', i, c) && Tracks(c, s'.requests[i])
    ensures Follows(sys', s')
  {
  }

  // ---------- runs ----------

  /** The tasks of requests that have not begun. */
  function StartingTasks(requests: seq<Request>): seq<Discipline.Client> {
    seq(|requests|, k requires 0 <= k < |requests| => Discipline.Client(LockPlan(requests[k].job), 0, LAST, Discipline.Climbing))
  }

  lemma StartFollows(s: Server)
    requires Initial(s)
    ensures var sys := Discipline.System(UNLOCKED, StartingTasks(s.requests)); Discipline.Initial(sys) && Follows(sys, s)
  {
    var sys := Discipline.System(UNLOCKED, StartingTasks(s.requests));
    forall k | 0 <= k < |s.requests| ensures Tracks(sys.clients[k], s.requests[k]) && Discipline.Fresh(sys.clients[k]) {
      assert s.requests[k] in s.requests;
      PlansAreOrdered(s.requests[k].job);
    }
  }

  lemma Extended(systems: seq<Discipline.System>, moves: seq<(Task, Discipline.Action)>, t: Task, a: Discipline.Action)
    requires Discipline.IsSchedule(systems, moves) && Discipline.CanDo(systems[|moves|], t, a)
    ensures Discipline.IsSchedule(systems + [Discipline.Do(systems[|moves|], t, a)], moves + [(t, a)])
  {
  }

  /** The lock events of every run of the server form a schedule of the lock discipline, at most as long as the run,
      whose tasks track the requests and whose holders are the requests that hold. */
  lemma {:induction false} ServerRunIsSchedule(trace: seq<Server>, choices: seq<Choice>, n: nat)
    returns (systems: seq<Discipline.System>, moves: seq<(Task, Discipline.Action)>)
    requires IsServerRun(trace, choices) && n < |trace|
    ensures Discipline.IsSchedule(systems, moves) && |moves| <= n
    ensures Follows(systems[|moves|], trace[n]) && HoldersAre(systems[|moves|].locks.holders, trace[n])
  {
    if n == 0 {
      StartFollows(trace[0]);
      systems, moves := [Discipline.System(UNLOCKED, StartingTasks(trace[0].requests))], [];
    } else {
      systems, moves := ServerRunIsSchedule(trace, choices, n - 1);
      Discipline.ScheduleIsDisciplined(systems, moves, |moves|);
      var a := RunStep(systems[|moves|], trace, choices, n - 1);
      if a.Some? {
        Extended(systems, moves, choices[n - 1].who, a.value);
        systems, moves := systems + [Discipline.Do(systems[|moves|], choices[n - 1].who, a.value)], moves + [(choices[n - 1].who, a.value)];
      }
    }
    Discipline.ScheduleIsDisciplined(systems, moves, |moves|);
    RunIsSound(trace, choices, n);
    HoldersFollow(systems[|moves|], trace[n]);
  }

  lemma RunStep(sys: Discipline.System, trace: seq<Server>, choices: seq<Choice>, n: nat) returns (a: Option<Discipline.Action>)
    requires Discipline.Disciplined(sys) && IsServerRun(trace, choices) && n < |choices| && Follows(sys, trace[n])
    ensures a.None? ==> Follows(sys, trace[n + 1])
    ensures a.Some? ==> Discipline.CanDo(sys, choices[n].who, a.value) && Follows(Discipline.Do(sys, choices[n].who, a.value), trace[n + 1])
  {
    RunIsSound(trace, choices, n);
    a := SystemStep(sys, trace[n], choices[n].who, choices[n].outcome);
  }
}
