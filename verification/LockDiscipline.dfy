/** Tasks that take locks in rank order and give them back in reverse never deadlock, and every run of them ends. */
module LockDiscipline {
  import opened Text
  import opened Paths
  import opened Locks

  datatype Stage = Climbing | Unwinding

  /** `held` locks of `plan` are held, outermost first; `work` bounds the awaits left inside. */
  datatype Client = Client(plan: seq<Wish>, held: nat, work: nat, stage: Stage)

  datatype System = System(locks: LockState, clients: seq<Client>)

  predicate Finished(c: Client) { c.stage.Unwinding? && c.held == 0 }

  // ---------- ranks ----------

  /** The path a resource names; a resource that names the root overlaps everything. */
  function Target(r: LockResource): Path {
    match r.filename
    case None => r.directory
    case Some(name) => r.directory + [name]
  }

  /** Upload and part locks lie below the tmp directory, bucket locks below the buckets directory. */
  function Rank(r: LockResource): nat {
    if Target(r) != [] && Target(r)[0] == TMP_DIR[0] then 0
    else if Target(r) != [] && Target(r)[0] == BUCKETS_DIR[0] then 1
    else 2
  }

  ghost predicate Ordered(plan: seq<Wish>) {
    && (forall i :: 0 <= i < |plan| ==> Target(plan[i].resource) != [])
    && (forall i, j :: 0 <= i < j < |plan| ==> Rank(plan[i].resource) < Rank(plan[j].resource))
  }

  lemma OverlapKeepsRank(a: LockResource, b: LockResource)
    requires Target(a) != [] && Target(b) != []
    requires ResourcesOverlap(a, b)
    ensures Rank(a) == Rank(b)
  {
    OverlapIsIntersection(a, b);
    var p :| Covers(a, p) && Covers(b, p);
    assert Target(a) <= p && Target(b) <= p;
    assert Target(a)[0] == p[0] == Target(b)[0];
  }

  // ---------- steps ----------

  datatype Action =
    | Take          // enter the acquisition of the next lock of the plan
    | Retest        // test again after a wake-up
    | Work          // one await inside the locks held
    | Leave         // stop climbing: the body ended, raised, or a wait was cancelled
    | GiveBack      // release the innermost lock

  predicate CanDo(s: System, t: Task, a: Action) {
    && t < |s.clients|
    && var c := s.clients[t];
    match a
    case Take => c.stage.Climbing? && !Waiting(s.locks, t) && c.held < |c.plan|
    case Retest => t in s.locks.woken
    case Work => c.stage.Climbing? && !Waiting(s.locks, t) && c.work > 0
    case Leave => c.stage.Climbing?
    case GiveBack => c.stage.Unwinding? && 0 < c.held <= |c.plan|
  }

  function Do(s: System, t: Task, a: Action): System
    requires CanDo(s, t, a)
  {
    var c := s.clients[t];
    match a
    case Take =>
      var (locks, entry) := Enter(s.locks, c.plan[c.held], t);
      var c' := match entry
        case Acquired => c.(held := c.held + 1)
        case Suspended => c
        case SelfConflict => c.(stage := Unwinding);
      System(locks, s.clients[t := c'])
    case Retest =>
      var (locks, acquired) := Resume(s.locks, t);
      System(locks, s.clients[t := if acquired then c.(held := c.held + 1) else c])
    case Work => s.(clients := s.clients[t := c.(work := c.work - 1)])
    case Leave => System(CancelWait(s.locks, t), s.clients[t := c.(stage := Unwinding)])
    case GiveBack => System(Release(s.locks, c.plan[c.held - 1], t).0, s.clients[t := c.(held := c.held - 1)])
  }

  /** Progress that is neither a failure nor a cancellation. */
  predicate Regular(s: System, t: Task, a: Action) {
    && CanDo(s, t, a)
    && (a.Leave? ==> !Waiting(s.locks, t) && s.clients[t].held == |s.clients[t].plan| && s.clients[t].work == 0)
  }

  // ---------- invariant ----------

  predicate Holds(c: Client, wish: Wish) {
    c.held <= |c.plan| && wish in c.plan[..c.held]
  }

  /** The manager's holders are exactly the locks the clients hold. */
  ghost predicate HoldersMatch(s: System) {
    forall h: LockHolder :: h in s.locks.holders <==> h.owner < |s.clients| && Holds(s.clients[h.owner], h.wish)
  }

  ghost predicate WaitersClimb(s: System) {
    && (forall t :: t in s.locks.asleep ==> WaitsFor(s, t, s.locks.asleep[t]))
    && (forall t :: t in s.locks.woken ==> WaitsFor(s, t, s.locks.woken[t]))
  }

  ghost predicate WaitsFor(s: System, t: Task, wish: Wish) {
    t < |s.clients| && s.clients[t].stage.Climbing? && s.clients[t].held < |s.clients[t].plan| && wish == s.clients[t].plan[s.clients[t].held]
  }

  ghost predicate NoDuplicates(holders: seq<LockHolder>) {
    forall i, j :: 0 <= i < j < |holders| ==> holders[i] != holders[j]
  }

  ghost predicate Orderly(s: System) {
    && (forall t :: 0 <= t < |s.clients| ==> Ordered(s.clients[t].plan) && s.clients[t].held <= |s.clients[t].plan|)
    && HoldersMatch(s) && WaitersClimb(s) && NoDuplicates(s.locks.holders)
  }

  ghost predicate Disciplined(s: System) { Inv(s.locks) && Orderly(s) }

  /** A request that has not started. */
  ghost predicate Fresh(c: Client) { Ordered(c.plan) && c.held == 0 && c.stage.Climbing? }

  ghost predicate Initial(s: System) {
    s.locks == UNLOCKED && forall c :: c in s.clients ==> Fresh(c)
  }

  lemma HeldLocksRankLower(c: Client, wish: Wish)
    requires Ordered(c.plan) && c.held < |c.plan| && Holds(c, wish)
    ensures Rank(wish.resource) < Rank(c.plan[c.held].resource)
    ensures Target(wish.resource) != []
  {
    var i :| 0 <= i < c.held && c.plan[i] == wish;
  }

  /** The next lock of an ordered plan never conflicts with what the task already holds. */
  lemma NextLockIsNoSelfConflict(s: System, t: Task)
    requires Disciplined(s) && t < |s.clients| && s.clients[t].held < |s.clients[t].plan|
    ensures !HasOwnerConflict(s.locks.holders, s.clients[t].plan[s.clients[t].held], t)
  {
    var c := s.clients[t];
    var wish := c.plan[c.held];
    forall h | h in s.locks.holders && h.owner == t ensures !Conflicts(wish, h.wish) {
      HeldLocksRankLower(c, h.wish);
      if Conflicts(wish, h.wish) {
        OverlapKeepsRank(wish.resource, h.wish.resource);
      }
    }
  }

  lemma HoldsAfterTake(c: Client)
    requires Ordered(c.plan) && c.held < |c.plan|
    ensures forall w :: Holds(c.(held := c.held + 1), w) <==> Holds(c, w) || w == c.plan[c.held]
    ensures !Holds(c, c.plan[c.held])
  {
    assert c.plan[..c.held + 1] == c.plan[..c.held] + [c.plan[c.held]];
    if Holds(c, c.plan[c.held]) {
      HeldLocksRankLower(c, c.plan[c.held]);
    }
  }

  lemma HoldsAfterGiveBack(c: Client)
    requires Ordered(c.plan) && 0 < c.held <= |c.plan|
    ensures forall w :: Holds(c.(held := c.held - 1), w) <==> Holds(c, w) && w != c.plan[c.held - 1]
    ensures Holds(c, c.plan[c.held - 1])
  {
    HoldsAfterTake(c.(held := c.held - 1));
  }

  lemma TakeOver(s: System, s': System, t: Task)
    requires HoldersMatch(s) && NoDuplicates(s.locks.holders) && t < |s.clients| && s.clients[t].held < |s.clients[t].plan| && Ordered(s.clients[t].plan)
    requires s'.clients == s.clients[t := s.clients[t].(held := s.clients[t].held + 1)]
    requires s'.locks.holders == s.locks.holders + [LockHolder(s.clients[t].plan[s.clients[t].held], t)]
    ensures HoldersMatch(s') && NoDuplicates(s'.locks.holders)
  {
    var c := s.clients[t];
    HoldsAfterTake(c);
    var h := LockHolder(c.plan[c.held], t);
    assert h !in s.locks.holders;
    forall k: LockHolder ensures k in s'.locks.holders <==> k.owner < |s'.clients| && Holds(s'.clients[k.owner], k.wish) {
      assert k in s'.locks.holders <==> k in s.locks.holders || k == h;
    }
  }

  /** A step of a task that is left not waiting keeps the plans in order and the other waiters in place. */
  lemma OthersStay(s: System, s': System, t: Task)
    requires WaitersClimb(s)
    requires forall u :: 0 <= u < |s.clients| ==> Ordered(s.clients[u].plan) && s.clients[u].held <= |s.clients[u].plan|
    requires t < |s.clients| && |s'.clients| == |s.clients| && !Waiting(s'.locks, t)
    requires forall u :: 0 <= u < |s.clients| && u != t ==> s'.clients[u] == s.clients[u]
    requires s'.clients[t].plan == s.clients[t].plan && s'.clients[t].held <= |s.clients[t].plan|
    requires forall u :: u in s'.locks.asleep ==> u in s.locks.asleep && s'.locks.asleep[u] == s.locks.asleep[u]
    requires forall u :: u in s'.locks.woken ==>
      (u in s.locks.woken && s'.locks.woken[u] == s.locks.woken[u]) || (u in s.locks.asleep && s'.locks.woken[u] == s.locks.asleep[u])
    ensures WaitersClimb(s')
    ensures forall u :: 0 <= u < |s'.clients| ==> Ordered(s'.clients[u].plan) && s'.clients[u].held <= |s'.clients[u].plan|
  {
    forall u | u in s'.locks.asleep ensures WaitsFor(s', u, s'.locks.asleep[u]) {
      assert WaitsFor(s, u, s.locks.asleep[u]);
    }
    forall u | u in s'.locks.woken ensures WaitsFor(s', u, s'.locks.woken[u]) {
      if u in s.locks.woken && s'.locks.woken[u] == s.locks.woken[u] {
        assert WaitsFor(s, u, s.locks.woken[u]);
      } else {
        assert WaitsFor(s, u, s.locks.asleep[u]);
      }
    }
  }

  lemma TakeKeepsOrder(s: System, t: Task)
    requires Orderly(s) && CanDo(s, t, Take)
    requires Enter(s.locks, s.clients[t].plan[s.clients[t].held], t).1 != SelfConflict
    ensures Orderly(Do(s, t, Take))
  {
    var c := s.clients[t];
    var s' := Do(s, t, Take);
    if Enter(s.locks, c.plan[c.held], t).1.Acquired? {
      TakeOver(s, s', t);
      OthersStay(s, s', t);
    } else {
      assert s'.clients == s.clients;
    }
  }

  lemma TakeKeepsDiscipline(s: System, t: Task)
    requires Disciplined(s) && CanDo(s, t, Take)
    ensures Disciplined(Do(s, t, Take))
    ensures Enter(s.locks, s.clients[t].plan[s.clients[t].held], t).1 != SelfConflict
  {
    NextLockIsNoSelfConflict(s, t);
    EnterKeepsInv(s.locks, s.clients[t].plan[s.clients[t].held], t);
    TakeKeepsOrder(s, t);
  }

  lemma RetestKeepsOrder(s: System, t: Task)
    requires Orderly(s) && CanDo(s, t, Retest) && s.locks.asleep.Keys !! s.locks.woken.Keys
    ensures Orderly(Do(s, t, Retest))
  {
    var s' := Do(s, t, Retest);
    assert WaitsFor(s, t, s.locks.woken[t]);
    if Resume(s.locks, t).1 {
      TakeOver(s, s', t);
      OthersStay(s, s', t);
    } else {
      assert s'.clients == s.clients;
    }
  }

  lemma RetestKeepsDiscipline(s: System, t: Task)
    requires Disciplined(s) && CanDo(s, t, Retest)
    ensures Disciplined(Do(s, t, Retest))
  {
    ResumeKeepsInv(s.locks, t);
    RetestKeepsOrder(s, t);
  }

  lemma RemoveFirst(holders: seq<LockHolder>, h: LockHolder)
    requires NoDuplicates(holders) && h in holders
    ensures FirstIndex(holders, h) < |holders|
    ensures var rest := holders[..FirstIndex(holders, h)] + holders[FirstIndex(holders, h) + 1..];
      NoDuplicates(rest) && forall k :: k in rest <==> k in holders && k != h
  {
    FirstIndexUnique(holders, h, FirstIndex(holders, h));
    var i := FirstIndex(holders, h);
    assert holders[..|holders|] == holders;
    var rest := holders[..i] + holders[i + 1..];
    assert forall j :: 0 <= j < |rest| ==> rest[j] == holders[if j < i then j else j + 1];
    forall k | k in holders && k != h ensures k in rest {
      var j :| 0 <= j < |holders| && holders[j] == k;
      assert rest[if j < i then j else j - 1] == k;
    }
  }

  lemma UnwindingDoesNotWait(s: System, t: Task)
    requires WaitersClimb(s) && t < |s.clients| && s.clients[t].stage.Unwinding?
    ensures !Waiting(s.locks, t)
  {
    assert t in s.locks.asleep ==> WaitsFor(s, t, s.locks.asleep[t]);
    assert t in s.locks.woken ==> WaitsFor(s, t, s.locks.woken[t]);
  }

  lemma MatchAfterGiveBack(s: System, s': System, t: Task)
    requires HoldersMatch(s) && t < |s.clients| && 0 < s.clients[t].held <= |s.clients[t].plan| && Ordered(s.clients[t].plan)
    requires s'.clients == s.clients[t := s.clients[t].(held := s.clients[t].held - 1)]
    requires forall k :: k in s'.locks.holders <==> k in s.locks.holders && k != LockHolder(s.clients[t].plan[s.clients[t].held - 1], t)
    ensures HoldersMatch(s')
  {
    HoldsAfterGiveBack(s.clients[t]);
    forall k: LockHolder ensures k in s'.locks.holders <==> k.owner < |s'.clients| && Holds(s'.clients[k.owner], k.wish) {
    }
  }

  lemma GiveBackFindsItsLock(s: System, t: Task)
    requires HoldersMatch(s) && NoDuplicates(s.locks.holders)
    requires CanDo(s, t, GiveBack) && Ordered(s.clients[t].plan)
    ensures Release(s.locks, s.clients[t].plan[s.clients[t].held - 1], t).1
    ensures HoldersMatch(Do(s, t, GiveBack)) && NoDuplicates(Do(s, t, GiveBack).locks.holders)
  {
    var c := s.clients[t];
    var h := LockHolder(c.plan[c.held - 1], t);
    HoldsAfterGiveBack(c);
    assert h in s.locks.holders;
    RemoveFirst(s.locks.holders, h);
    MatchAfterGiveBack(s, Do(s, t, GiveBack), t);
  }

  lemma GiveBackKeepsOrder(s: System, t: Task)
    requires Orderly(s) && CanDo(s, t, GiveBack)
    ensures Orderly(Do(s, t, GiveBack))
  {
    UnwindingDoesNotWait(s, t);
    GiveBackFindsItsLock(s, t);
    OthersStay(s, Do(s, t, GiveBack), t);
  }

  lemma SameHoldings(s: System, s': System)
    requires HoldersMatch(s) && |s'.clients| == |s.clients| && s'.locks.holders == s.locks.holders
    requires forall t :: 0 <= t < |s.clients| ==> s'.clients[t].plan == s.clients[t].plan && s'.clients[t].held == s.clients[t].held
    ensures HoldersMatch(s')
  {
    forall k: LockHolder ensures k in s'.locks.holders <==> k.owner < |s'.clients| && Holds(s'.clients[k.owner], k.wish) {
      assert k in s'.locks.holders <==> k in s.locks.holders;
    }
  }

  lemma LockFreeStepKeepsOrder(s: System, t: Task, a: Action)
    requires Orderly(s) && CanDo(s, t, a) && (a.Work? || a.Leave?)
    ensures Orderly(Do(s, t, a))
  {
    SameHoldings(s, Do(s, t, a));
    OthersStay(s, Do(s, t, a), t);
  }

  lemma StepKeepsDiscipline(s: System, t: Task, a: Action)
    requires Disciplined(s) && CanDo(s, t, a)
    ensures Disciplined(Do(s, t, a))
  {
    match a
    case Take => TakeKeepsDiscipline(s, t);
    case Retest => RetestKeepsDiscipline(s, t);
    case GiveBack =>
      ReleaseKeepsInv(s.locks, s.clients[t].plan[s.clients[t].held - 1], t);
      GiveBackKeepsOrder(s, t);
    case Work => LockFreeStepKeepsOrder(s, t, a);
    case Leave => LockFreeStepKeepsOrder(s, t, a);
  }

  // ---------- deadlock freedom ----------

  ghost predicate Unfinished(s: System, t: Task) { t < |s.clients| && !Finished(s.clients[t]) }

  /** A sleeping task is in the way of nobody but its own rank: the holder it waits for,
      if itself asleep, waits for a lock of higher rank. */
  lemma BlockerRanksHigher(s: System, t: Task) returns (u: Task)
    requires Disciplined(s) && t in s.locks.asleep
    ensures Unfinished(s, u)
    ensures u in s.locks.asleep ==> Rank(s.locks.asleep[t].resource) < Rank(s.locks.asleep[u].resource)
  {
    var wish := s.locks.asleep[t];
    assert WaitsFor(s, t, wish);
    var h :| h in s.locks.holders && Conflicts(wish, h.wish);
    u := h.owner;
    var c := s.clients[u];
    assert Holds(c, h.wish);
    var i :| 0 <= i < c.held && c.plan[i] == h.wish;
    OverlapKeepsRank(wish.resource, h.wish.resource);
    if u in s.locks.asleep {
      assert WaitsFor(s, u, s.locks.asleep[u]);
      HeldLocksRankLower(c, h.wish);
    }
  }

  /** Following holders from a sleeping task climbs in rank, so it ends at a task that can move. */
  lemma {:induction false} SomeoneIsAwake(s: System, t: Task) returns (u: Task)
    requires Disciplined(s) && Unfinished(s, t)
    ensures Unfinished(s, u) && u !in s.locks.asleep
    decreases if t in s.locks.asleep then 3 - Rank(s.locks.asleep[t].resource) else 0
  {
    if t !in s.locks.asleep {
      u := t;
    } else {
      var v := BlockerRanksHigher(s, t);
      u := SomeoneIsAwake(s, v);
    }
  }

  /** While any request is unfinished, some request has a regular step: no failure or cancellation is needed. */
  lemma NoDeadlock(s: System, t: Task) returns (u: Task, a: Action)
    requires Disciplined(s) && Unfinished(s, t)
    ensures Regular(s, u, a)
  {
    u := SomeoneIsAwake(s, t);
    var c := s.clients[u];
    a := if u in s.locks.woken then Retest
         else if c.stage.Unwinding? then GiveBack
         else if c.held < |c.plan| then Take
         else if c.work > 0 then Work
         else Leave;
  }

  // ---------- termination ----------

  /** Steps a client can still take, not counting failed tests. */
  function Remaining(c: Client): nat
    requires c.held <= |c.plan|
  {
    match c.stage
    case Climbing => 2 * |c.plan| - c.held + c.work + 1
    case Unwinding => c.held
  }

  function TotalRemaining(clients: seq<Client>): nat
    requires forall c :: c in clients ==> c.held <= |c.plan|
  {
    if clients == [] then 0 else Remaining(clients[0]) + TotalRemaining(clients[1..])
  }

  /** Clients that are not asleep: each failed test puts one more to sleep. */
  function AwakeUpTo(s: System, n: nat): nat
    requires n <= |s.clients|
  {
    if n == 0 then 0 else AwakeUpTo(s, n - 1) + (if n - 1 in s.locks.asleep then 0 else 1)
  }

  ghost predicate Bounded(s: System) { forall c :: c in s.clients ==> c.held <= |c.plan| }

  /** Lexicographic in (remaining program steps, tasks not asleep). */
  function Measure(s: System): nat
    requires Bounded(s)
  {
    TotalRemaining(s.clients) * (|s.clients| + 1) + AwakeUpTo(s, |s.clients|)
  }

  lemma {:induction false} UpdateTotal(clients: seq<Client>, t: nat, c: Client)
    requires t < |clients| && c.held <= |c.plan| && forall d :: d in clients ==> d.held <= |d.plan|
    ensures forall d :: d in clients[t := c] ==> d.held <= |d.plan|
    ensures TotalRemaining(clients[t := c]) == TotalRemaining(clients) - Remaining(clients[t]) + Remaining(c)
  {
    var clients' := clients[t := c];
    forall d | d in clients' ensures d.held <= |d.plan| {
      var i :| 0 <= i < |clients'| && clients'[i] == d;
    }
    if t == 0 {
      assert clients'[1..] == clients[1..];
    } else {
      UpdateTotal(clients[1..], t - 1, c);
      assert clients'[1..] == clients[1..][t - 1 := c];
    }
  }

  lemma {:induction false} AwakeBounds(s: System, s': System, n: nat, t: Task)
    requires n <= |s.clients| == |s'.clients|
    ensures AwakeUpTo(s, n) <= n
    ensures (forall u :: u < n ==> (u in s.locks.asleep <==> u in s'.locks.asleep)) ==> AwakeUpTo(s', n) == AwakeUpTo(s, n)
    ensures t < n && t !in s.locks.asleep && t in s'.locks.asleep
         && (forall u :: u < n && u != t ==> (u in s.locks.asleep <==> u in s'.locks.asleep))
         ==> AwakeUpTo(s', n) + 1 == AwakeUpTo(s, n)
  {
    if n > 0 {
      AwakeBounds(s, s', n - 1, t);
      if t == n - 1 {
        AwakeBounds(s, s', n - 1, n);
      }
    }
  }

  lemma ProgressShrinks(s: System, s': System, t: nat)
    requires Bounded(s) && Bounded(s') && |s'.clients| == |s.clients| && t < |s.clients|
    requires s'.clients == s.clients[t := s'.clients[t]]
    requires s.clients[t].held <= |s.clients[t].plan| && s'.clients[t].held <= |s'.clients[t].plan|
    requires Remaining(s'.clients[t]) < Remaining(s.clients[t])
    ensures Measure(s') < Measure(s)
  {
    var n := |s.clients|;
    UpdateTotal(s.clients, t, s'.clients[t]);
    AwakeBounds(s', s, n, t);
    Shrinks(TotalRemaining(s'.clients), TotalRemaining(s.clients), n, AwakeUpTo(s', n), AwakeUpTo(s, n));
  }

  lemma SleepingShrinks(s: System, s': System, t: nat)
    requires Bounded(s) && Bounded(s') && s'.clients == s.clients && t < |s.clients|
    requires t !in s.locks.asleep && t in s'.locks.asleep
    requires forall u :: u != t ==> (u in s.locks.asleep <==> u in s'.locks.asleep)
    ensures Measure(s') < Measure(s)
  {
    AwakeBounds(s, s', |s.clients|, t);
  }

  lemma OrderlyIsBounded(s: System)
    requires Orderly(s)
    ensures Bounded(s)
  {
    forall c | c in s.clients ensures c.held <= |c.plan| {
      var i :| 0 <= i < |s.clients| && s.clients[i] == c;
    }
  }

  lemma OnlyOneMoves(s: System, t: Task, a: Action)
    requires CanDo(s, t, a)
    ensures var s' := Do(s, t, a); |s'.clients| == |s.clients| && s'.clients == s.clients[t := s'.clients[t]]
  {
  }

  /** Every step makes the measure smaller, a fruitless wake-up included. */
  lemma StepDecreasesMeasure(s: System, t: Task, a: Action)
    requires Disciplined(s) && CanDo(s, t, a)
    ensures Bounded(s) && Bounded(Do(s, t, a)) && Measure(Do(s, t, a)) < Measure(s)
  {
    var s' := Do(s, t, a);
    StepKeepsDiscipline(s, t, a);
    OrderlyIsBounded(s);
    OrderlyIsBounded(s');
    OnlyOneMoves(s, t, a);
    assert s.clients[t] in s.clients && s'.clients[t] in s'.clients;
    if Remaining(s'.clients[t]) < Remaining(s.clients[t]) {
      ProgressShrinks(s, s', t);
    } else {
      FruitlessTest(s, t, a);
      SleepingShrinks(s, s', t);
    }
  }

  lemma Shrinks(r': nat, r: nat, n: nat, awake': nat, awake: nat)
    requires r' < r && awake' <= n
    ensures r' * (n + 1) + awake' < r * (n + 1) + awake
  {
    assert (r' + 1) * (n + 1) <= r * (n + 1);
  }

  /** A step that brings its task no further puts it to sleep and does nothing else. */
  lemma FruitlessTest(s: System, t: Task, a: Action)
    requires Disciplined(s) && CanDo(s, t, a)
    requires var c, c' := s.clients[t], Do(s, t, a).clients[t];
      c.held <= |c.plan| && c'.held <= |c'.plan| && Remaining(c') >= Remaining(c)
    ensures var s' := Do(s, t, a);
      && s'.clients == s.clients && t !in s.locks.asleep && t in s'.locks.asleep
      && forall u :: u != t ==> (u in s.locks.asleep <==> u in s'.locks.asleep)
  {
    if a.Take? {
      TakeKeepsDiscipline(s, t);
    } else if a.Retest? {
      assert WaitsFor(s, t, s.locks.woken[t]);
    }
  }

  ghost predicate IsSchedule(trace: seq<System>, moves: seq<(Task, Action)>) {
    && |trace| == |moves| + 1
    && Initial(trace[0])
    && forall i :: 0 <= i < |moves| ==>
         CanDo(trace[i], moves[i].0, moves[i].1) && trace[i + 1] == Do(trace[i], moves[i].0, moves[i].1)
  }

  lemma {:induction false} ScheduleIsDisciplined(trace: seq<System>, moves: seq<(Task, Action)>, i: nat)
    requires IsSchedule(trace, moves) && i < |trace|
    ensures Disciplined(trace[i]) && Bounded(trace[i]) && Bounded(trace[0])
    ensures i + Measure(trace[i]) <= Measure(trace[0])
  {
    if i == 0 {
      forall t | 0 <= t < |trace[0].clients| ensures Fresh(trace[0].clients[t]) {
        assert trace[0].clients[t] in trace[0].clients;
      }
    } else {
      ScheduleIsDisciplined(trace, moves, i - 1);
      var (t, a) := moves[i - 1];
      StepKeepsDiscipline(trace[i - 1], t, a);
      StepDecreasesMeasure(trace[i - 1], t, a);
    }
  }

  /** No schedule is longer than the measure of its first state, and one that cannot be
      continued by a regular step has finished every request and released every lock. */
  lemma SchedulesTerminate(trace: seq<System>, moves: seq<(Task, Action)>)
    requires IsSchedule(trace, moves)
    ensures Bounded(trace[0]) && |moves| <= Measure(trace[0])
    ensures var last := trace[|moves|];
      (forall u, a :: !Regular(last, u, a)) ==>
        (forall t :: 0 <= t < |last.clients| ==> Finished(last.clients[t])) && last.locks.holders == []
  {
    var last := trace[|moves|];
    ScheduleIsDisciplined(trace, moves, |moves|);
    if forall u, a :: !Regular(last, u, a) {
      forall t | 0 <= t < |last.clients| ensures Finished(last.clients[t]) {
        if Unfinished(last, t) {
          var u, a := NoDeadlock(last, t);
        }
      }
      if last.locks.holders != [] {
        var h := last.locks.holders[0];
        assert h in last.locks.holders;
      }
    }
  }
}
