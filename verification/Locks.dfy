/** The lock manager (app/locks.py); a coroutine suspended in its wait loop is two atomic pieces, enter and retest. */
module Locks {
  import opened Text
  import opened Paths

  type Task = nat

  datatype LockType = Read | Write

  /** A directory resource has no filename; a file resource is its parent directory and name. */
  datatype LockResource = LockResource(directory: Path, filename: Option<Segment>)

  /** What a task asks for. */
  datatype Wish = Wish(resource: LockResource, lockType: LockType)

  datatype LockHolder = LockHolder(wish: Wish, owner: Task)

  function DirectoryResource(path: Path): LockResource {
    LockResource(path, None)
  }

  // ---------- overlap ----------

  /** `os.path.commonpath` of two absolute paths: their longest common prefix of components. */
  function CommonPath(a: Path, b: Path): Path {
    if a == [] || b == [] || a[0] != b[0] then [] else [a[0]] + CommonPath(a[1..], b[1..])
  }

  predicate IsSameOrDescendant(parent: Path, child: Path) {
    CommonPath(parent, child) == parent
  }

  predicate DirectoryContainsFile(directory: Path, file: LockResource) {
    file.filename.Some? && IsSameOrDescendant(directory, file.directory + [file.filename.value])
  }

  predicate ResourcesOverlap(requested: LockResource, held: LockResource) {
    if requested.filename.None? && held.filename.None? then
      || IsSameOrDescendant(requested.directory, held.directory)
      || IsSameOrDescendant(held.directory, requested.directory)
    else if requested.filename.None? then
      DirectoryContainsFile(requested.directory, held)
    else if held.filename.None? then
      DirectoryContainsFile(held.directory, requested)
    else
      requested.directory == held.directory && requested.filename == held.filename
  }

  predicate Conflicts(requested: Wish, held: Wish) {
    ResourcesOverlap(requested.resource, held.resource) && !(requested.lockType.Read? && held.lockType.Read?)
  }

  /** A directory covers its whole subtree, a file only itself. */
  ghost predicate Covers(r: LockResource, p: Path) {
    match r.filename
    case None => r.directory <= p
    case Some(name) => p == r.directory + [name]
  }

  lemma {:induction false} DescendantIsPrefix(parent: Path, child: Path)
    ensures IsSameOrDescendant(parent, child) <==> parent <= child
    ensures |CommonPath(parent, child)| <= |parent|
  {
    if parent != [] && child != [] && parent[0] == child[0] {
      DescendantIsPrefix(parent[1..], child[1..]);
      var c := CommonPath(parent[1..], child[1..]);
      assert parent == [parent[0]] + parent[1..] && child == [child[0]] + child[1..];
      assert ([parent[0]] + c)[1..] == c;
    }
  }

  /** The overlap test is exact: two resources overlap iff some path is covered by both. */
  lemma OverlapIsIntersection(a: LockResource, b: LockResource)
    ensures ResourcesOverlap(a, b) <==> exists p :: Covers(a, p) && Covers(b, p)
  {
    DescendantIsPrefix(a.directory, b.directory);
    DescendantIsPrefix(b.directory, a.directory);
    if b.filename.Some? {
      DescendantIsPrefix(a.directory, b.directory + [b.filename.value]);
    }
    if a.filename.Some? {
      DescendantIsPrefix(b.directory, a.directory + [a.filename.value]);
    }
    if ResourcesOverlap(a, b) {
      var pa := if a.filename.Some? then a.directory + [a.filename.value] else a.directory;
      var pb := if b.filename.Some? then b.directory + [b.filename.value] else b.directory;
      assert Covers(a, if |pa| < |pb| then pb else pa) && Covers(b, if |pa| < |pb| then pb else pa);
    }
    forall p | Covers(a, p) && Covers(b, p) ensures ResourcesOverlap(a, b) {
      PrefixesOfOnePathAreOrdered(a.directory, b.directory, p);
      LastComponent(a, p);
      LastComponent(b, p);
    }
  }

  lemma LastComponent(r: LockResource, p: Path)
    requires Covers(r, p)
    ensures r.filename.Some? ==> p != [] && r.directory == Parent(p) && r.filename.value == p[|p| - 1]
  {
  }

  lemma PrefixesOfOnePathAreOrdered(a: Path, b: Path, p: Path)
    requires a <= p && b <= p
    ensures a <= b || b <= a
  {
    assert a == p[..|a|] && b == p[..|b|];
  }

  lemma ConflictsSymmetric(a: Wish, b: Wish)
    ensures Conflicts(a, b) == Conflicts(b, a)
  {
    OverlapIsIntersection(a.resource, b.resource);
    OverlapIsIntersection(b.resource, a.resource);
  }

  // ---------- the manager's state and its atomic steps ----------

  /** Current holders, tasks asleep in the condition, and tasks a release has woken. */
  datatype LockState = LockState(holders: seq<LockHolder>, asleep: map<Task, Wish>, woken: map<Task, Wish>)

  const UNLOCKED := LockState([], map[], map[])

  predicate HasConflict(holders: seq<LockHolder>, wish: Wish) {
    exists h :: h in holders && Conflicts(wish, h.wish)
  }

  predicate HasOwnerConflict(holders: seq<LockHolder>, wish: Wish, owner: Task) {
    exists h :: h in holders && h.owner == owner && Conflicts(wish, h.wish)
  }

  predicate Waiting(s: LockState, t: Task) { t in s.asleep || t in s.woken }

  datatype Entry = Acquired | Suspended | SelfConflict

  /** `_acquire` up to its first suspension. */
  function Enter(s: LockState, wish: Wish, owner: Task): (LockState, Entry) {
    if HasOwnerConflict(s.holders, wish, owner) then (s, SelfConflict)
    else if HasConflict(s.holders, wish) then (s.(asleep := s.asleep[owner := wish]), Suspended)
    else (s.(holders := s.holders + [LockHolder(wish, owner)]), Acquired)
  }

  /** `_acquire` from a wake-up to its next suspension or its end. */
  function Resume(s: LockState, owner: Task): (LockState, bool)
    requires owner in s.woken
  {
    var wish := s.woken[owner];
    var rest := s.(woken := s.woken - {owner});
    if HasConflict(s.holders, wish) then (rest.(asleep := s.asleep[owner := wish]), false)
    else (rest.(holders := s.holders + [LockHolder(wish, owner)]), true)
  }

  /** The two cover no path in common, or both are READ. */
  ghost predicate Compatible(a: Wish, b: Wish) {
    (a.lockType.Read? && b.lockType.Read?) || forall p :: Covers(a.resource, p) ==> !Covers(b.resource, p)
  }

  lemma ConflictsAreIncompatible(a: Wish, b: Wish)
    ensures Conflicts(a, b) <==> !Compatible(a, b)
  {
    OverlapIsIntersection(a.resource, b.resource);
  }

  /** A task that asks gets the lock exactly when its wish is compatible with every holder, so that readers share; it is
      refused exactly when a holder of its own is in the way; and else it falls asleep. */
  lemma EnterAdmits(s: LockState, wish: Wish, owner: Task)
    ensures var (s', e) := Enter(s, wish, owner);
      && (e.Acquired? <==> forall h :: h in s.holders ==> Compatible(wish, h.wish))
      && (e.SelfConflict? <==> exists h :: h in s.holders && h.owner == owner && !Compatible(wish, h.wish))
      && (e.Acquired? ==> s'.holders == s.holders + [LockHolder(wish, owner)] && s'.asleep == s.asleep && s'.woken == s.woken)
      && (e.Suspended? ==> s' == s.(asleep := s'.asleep) && owner in s'.asleep && s'.asleep[owner] == wish && s'.asleep - {owner} == s.asleep - {owner})
      && (e.SelfConflict? ==> s' == s)
  {
    forall h | h in s.holders ensures Conflicts(wish, h.wish) <==> !Compatible(wish, h.wish) {
      ConflictsAreIncompatible(wish, h.wish);
    }
  }

  /** A woken task gets what it asked for exactly when that is compatible with every holder; else it sleeps again. */
  lemma ResumeAdmits(s: LockState, owner: Task)
    requires owner in s.woken
    ensures var (s', acquired) := Resume(s, owner);
      && (acquired <==> forall h :: h in s.holders ==> Compatible(s.woken[owner], h.wish))
      && s'.woken == s.woken - {owner}
      && (acquired ==> s'.holders == s.holders + [LockHolder(s.woken[owner], owner)] && s'.asleep == s.asleep)
      && (!acquired ==> s'.holders == s.holders && owner in s'.asleep && s'.asleep[owner] == s.woken[owner] && s'.asleep - {owner} == s.asleep - {owner})
  {
    var wish := s.woken[owner];
    forall h | h in s.holders ensures Conflicts(wish, h.wish) <==> !Compatible(wish, h.wish) {
      ConflictsAreIncompatible(wish, h.wish);
    }
  }

  /** Index of the first occurrence of `h`, or the length. */
  function FirstIndex(holders: seq<LockHolder>, h: LockHolder): (i: nat)
    ensures i <= |holders|
    ensures i < |holders| ==> holders[i] == h
    ensures h !in holders[..i]
  {
    if holders == [] || holders[0] == h then 0
    else
      var i := 1 + FirstIndex(holders[1..], h);
      assert holders[..i] == [holders[0]] + holders[1..][..i - 1];
      i
  }

  lemma FirstIndexUnique(holders: seq<LockHolder>, h: LockHolder, i: nat)
    requires i <= |holders| && h !in holders[..i] && (i < |holders| ==> holders[i] == h)
    ensures FirstIndex(holders, h) == i
  {
    var f := FirstIndex(holders, h);
    assert forall k :: 0 <= k < f ==> holders[k] != h by {
      assert forall k :: 0 <= k < f ==> holders[k] == holders[..f][k];
    }
    assert forall k :: 0 <= k < i ==> holders[k] != h by {
      assert forall k :: 0 <= k < i ==> holders[k] == holders[..i][k];
    }
  }

  /** `_release`: one matching entry goes and every sleeper wakes; without one it raises. */
  function Release(s: LockState, wish: Wish, owner: Task): (LockState, bool) {
    var i := FirstIndex(s.holders, LockHolder(wish, owner));
    if i < |s.holders|
    then (LockState(s.holders[..i] + s.holders[i + 1..], map[], s.woken + s.asleep), true)
    else (s, false)
  }

  /** A waiting task that is cancelled leaves without becoming a holder. */
  function CancelWait(s: LockState, t: Task): LockState {
    s.(asleep := s.asleep - {t}, woken := s.woken - {t})
  }

  /** A cancelled waiter waits no more, whichever way it waited; nobody else notices. */
  lemma CancelledLeaves(s: LockState, t: Task)
    ensures !Waiting(CancelWait(s, t), t) && CancelWait(s, t).holders == s.holders
    ensures CancelWait(s, t).asleep == s.asleep - {t} && CancelWait(s, t).woken == s.woken - {t}
  {
  }

  // ---------- what every step keeps ----------

  ghost predicate Exclusive(holders: seq<LockHolder>) {
    forall i, j :: 0 <= i < j < |holders| ==> !Conflicts(holders[i].wish, holders[j].wish)
  }

  /** No lost wake-up: whoever sleeps conflicts with a current holder. */
  ghost predicate NoLostWakeup(s: LockState) {
    forall t :: t in s.asleep ==> HasConflict(s.holders, s.asleep[t])
  }

  /** Nobody waits for itself: each holder in a waiting task's way is another task. */
  ghost predicate NoSelfWait(s: LockState) {
    && (forall t :: t in s.asleep ==> !HasOwnerConflict(s.holders, s.asleep[t], t))
    && (forall t :: t in s.woken ==> !HasOwnerConflict(s.holders, s.woken[t], t))
  }

  ghost predicate Inv(s: LockState) {
    Exclusive(s.holders) && NoLostWakeup(s) && NoSelfWait(s) && s.asleep.Keys !! s.woken.Keys
  }

  lemma AppendKeepsExclusive(holders: seq<LockHolder>, h: LockHolder)
    requires Exclusive(holders) && !HasConflict(holders, h.wish)
    ensures Exclusive(holders + [h])
  {
    var all := holders + [h];
    forall i, j | 0 <= i < j < |all| ensures !Conflicts(all[i].wish, all[j].wish) {
      if j == |holders| {
        assert holders[i] in holders;
        ConflictsSymmetric(holders[i].wish, h.wish);
      }
    }
  }

  /** A holder appended for a task that is not waiting blocks no waiting task by its own hand. */
  lemma AppendKeepsWaiters(s: LockState, s': LockState, wish: Wish, owner: Task)
    requires Inv(s)
    requires s'.holders == s.holders + [LockHolder(wish, owner)] && !Waiting(s', owner)
    requires forall t :: t in s'.asleep ==> t in s.asleep && s'.asleep[t] == s.asleep[t]
    requires forall t :: t in s'.woken ==> t in s.woken && s'.woken[t] == s.woken[t]
    ensures NoLostWakeup(s') && NoSelfWait(s') && s'.asleep.Keys !! s'.woken.Keys
  {
    forall t | t in s'.asleep ensures HasConflict(s'.holders, s'.asleep[t]) {
      var h :| h in s.holders && Conflicts(s.asleep[t], h.wish);
      assert h in s'.holders;
    }
  }

  lemma EnterKeepsInv(s: LockState, wish: Wish, owner: Task)
    requires Inv(s) && !Waiting(s, owner)
    ensures Inv(Enter(s, wish, owner).0)
  {
    var (s', e) := Enter(s, wish, owner);
    if e.Acquired? {
      AppendKeepsExclusive(s.holders, LockHolder(wish, owner));
      AppendKeepsWaiters(s, s', wish, owner);
    }
  }

  lemma ResumeKeepsInv(s: LockState, owner: Task)
    requires Inv(s) && owner in s.woken
    ensures Inv(Resume(s, owner).0)
  {
    var (s', acquired) := Resume(s, owner);
    if acquired {
      AppendKeepsExclusive(s.holders, LockHolder(s.woken[owner], owner));
      AppendKeepsWaiters(s, s', s.woken[owner], owner);
    }
  }

  lemma ReleaseKeepsInv(s: LockState, wish: Wish, owner: Task)
    requires Inv(s)
    ensures Inv(Release(s, wish, owner).0)
  {
    var (s', found) := Release(s, wish, owner);
    if found {
      var i := FirstIndex(s.holders, LockHolder(wish, owner));
      forall j, k | 0 <= j < k < |s'.holders| ensures !Conflicts(s'.holders[j].wish, s'.holders[k].wish) {
        var j', k' := if j < i then j else j + 1, if k < i then k else k + 1;
        assert s'.holders[j] == s.holders[j'] && s'.holders[k] == s.holders[k'];
      }
      assert forall h :: h in s'.holders ==> h in s.holders;
    }
  }

  /** A release takes exactly one matching entry out, and fails exactly when there is none. */
  lemma ReleaseRemovesExactlyOne(s: LockState, wish: Wish, owner: Task)
    ensures var (s', found) := Release(s, wish, owner);
      && (found <==> LockHolder(wish, owner) in s.holders)
      && (found ==> multiset(s.holders) == multiset(s'.holders) + multiset{LockHolder(wish, owner)})
      && (found ==> s'.asleep == map[] && s'.woken.Keys == s.woken.Keys + s.asleep.Keys)
      && (!found ==> s' == s)
  {
    var h := LockHolder(wish, owner);
    var i := FirstIndex(s.holders, h);
    if i < |s.holders| {
      RemoveOne(s.holders, i);
    } else {
      assert s.holders[..i] == s.holders;
    }
  }

  lemma RemoveOne(holders: seq<LockHolder>, i: nat)
    requires i < |holders|
    ensures multiset(holders) == multiset(holders[..i] + holders[i + 1..]) + multiset{holders[i]}
  {
    assert holders == holders[..i] + [holders[i]] + holders[i + 1..];
  }

  // ---------- every run ----------

  datatype Event =
    | EnterEvent(wish: Wish, task: Task)
    | ResumeEvent(task: Task)
    | ReleaseEvent(wish: Wish, task: Task)
    | CancelEvent(task: Task)

  /** A task inside `_acquire` starts no second acquisition, and only a woken task tests again.
      Releases are free: they run in tasks of their own. */
  predicate Enabled(s: LockState, e: Event) {
    match e
    case EnterEvent(_, t) => !Waiting(s, t)
    case ResumeEvent(t) => t in s.woken
    case ReleaseEvent(_, _) => true
    case CancelEvent(t) => Waiting(s, t)
  }

  function Apply(s: LockState, e: Event): LockState
    requires Enabled(s, e)
  {
    match e
    case EnterEvent(wish, t) => Enter(s, wish, t).0
    case ResumeEvent(t) => Resume(s, t).0
    case ReleaseEvent(wish, t) => Release(s, wish, t).0
    case CancelEvent(t) => CancelWait(s, t)
  }

  /** `trace` is a run: it starts unlocked and each state follows from the one before. */
  ghost predicate IsRun(trace: seq<LockState>, events: seq<Event>) {
    && |trace| == |events| + 1
    && trace[0] == UNLOCKED
    && forall i :: 0 <= i < |events| ==> Enabled(trace[i], events[i]) && trace[i + 1] == Apply(trace[i], events[i])
  }

  /** In every state of every run: no two holders conflict, no wake-up was lost, nobody waits for itself. */
  lemma {:induction false} RunKeepsInv(trace: seq<LockState>, events: seq<Event>, i: nat)
    requires IsRun(trace, events) && i < |trace|
    ensures Inv(trace[i])
  {
    if i > 0 {
      RunKeepsInv(trace, events, i - 1);
      var s := trace[i - 1];
      match events[i - 1]
      case EnterEvent(wish, t) => EnterKeepsInv(s, wish, t);
      case ResumeEvent(t) => ResumeKeepsInv(s, t);
      case ReleaseEvent(wish, t) => ReleaseKeepsInv(s, wish, t);
      case CancelEvent(t) =>
    }
  }

  /** Exclusion in terms of paths: a path covered by a WRITE holder is covered by no other holder. */
  lemma WriterIsAlone(trace: seq<LockState>, events: seq<Event>, i: nat, j: nat, k: nat, p: Path)
    requires IsRun(trace, events) && i < |trace|
    requires j < |trace[i].holders| && k < |trace[i].holders| && j != k
    requires trace[i].holders[j].wish.lockType.Write? && Covers(trace[i].holders[j].wish.resource, p)
    ensures !Covers(trace[i].holders[k].wish.resource, p)
  {
    RunKeepsInv(trace, events, i);
    var hs := trace[i].holders;
    ConflictsSymmetric(hs[j].wish, hs[k].wish);
    OverlapIsIntersection(hs[j].wish.resource, hs[k].wish.resource);
  }

  // ---------- the manager ----------

  class LockManager {
    var holders: seq<LockHolder>
    var asleep: map<Task, Wish>
    var woken: map<Task, Wish>

    ghost function State(): LockState
      reads this
    {
      LockState(holders, asleep, woken)
    }

    ghost predicate Valid()
      reads this
    {
      Inv(State())
    }

    constructor ()
      ensures State() == UNLOCKED && Valid()
    {
      holders, asleep, woken := [], map[], map[];
    }

    /** Enters `_acquire`: raise, become a holder, or fall asleep. */
    method Acquire(wish: Wish, owner: Task) returns (entry: Entry)
      requires Valid() && !Waiting(State(), owner)
      modifies this
      ensures Valid()
      ensures (State(), entry) == Enter(old(State()), wish, owner)
    {
      EnterKeepsInv(State(), wish, owner);
      if HasOwnerConflict(holders, wish, owner) {
        return SelfConflict;
      }
      if HasConflict(holders, wish) {
        asleep := asleep[owner := wish];
        return Suspended;
      }
      holders := holders + [LockHolder(wish, owner)];
      return Acquired;
    }

    /** A woken task tests its condition again. */
    method Retest(owner: Task) returns (acquired: bool)
      requires Valid() && owner in woken
      modifies this
      ensures Valid()
      ensures (State(), acquired) == Resume(old(State()), owner)
    {
      ResumeKeepsInv(State(), owner);
      var wish := woken[owner];
      woken := woken - {owner};
      if HasConflict(holders, wish) {
        asleep := asleep[owner := wish];
        return false;
      }
      holders := holders + [LockHolder(wish, owner)];
      return true;
    }

    /** Searches the holders from the front, removes the first match and wakes everyone. */
    method ReleaseLock(wish: Wish, owner: Task) returns (found: bool)
      requires Valid()
      modifies this
      ensures Valid()
      ensures (State(), found) == Release(old(State()), wish, owner)
    {
      ReleaseKeepsInv(State(), wish, owner);
      var h := LockHolder(wish, owner);
      for index := 0 to |holders|
        invariant h !in holders[..index]
        invariant State() == old(State())
      {
        if holders[index] == h {
          FirstIndexUnique(holders, h, index);
          holders := holders[..index] + holders[index + 1..];
          asleep, woken := map[], woken + asleep;
          return true;
        }
      }
      assert holders[..|holders|] == holders;
      FirstIndexUnique(holders, h, |holders|);
      return false;
    }

    /** Cancellation while waiting. */
    method Cancel(task: Task)
      requires Valid()
      modifies this
      ensures Valid()
      ensures State() == CancelWait(old(State()), task)
    {
      asleep, woken := asleep - {task}, woken - {task};
    }
  }
}
