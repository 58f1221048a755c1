/** The two setters of a bucket's configuration (app/s3/object_lock.py, app/s3/versioning.py), and
    requests that load, set and write back concurrently. */
module BucketSettings {
  import opened Text
  import opened BucketRows
  import opened ObjectLockXml

  datatype Refusal = StateInvalid | XmlMalformed | IllegalVersioning

  datatype Setting = SetRow(row: Bucket) | Refuse(refusal: Refusal)

  /** `set_bucket_object_lock_configuration`. */
  function SetObjectLock(b: Bucket, p: Parsed): Setting {
    if b.status != ENABLED then Refuse(StateInvalid)
    else if !b.lockEnabled && p.enabled != Some(ENABLED) then Refuse(XmlMalformed)
    else SetRow(Bucket(b.status, true, p.retention.mode, p.retention.days, p.retention.years))
  }

  /** `set_bucket_versioning_status`. */
  function SetVersioning(b: Bucket, status: string): Setting {
    if status != ENABLED && status != SUSPENDED then Refuse(IllegalVersioning)
    else if b.lockEnabled && status == SUSPENDED then Refuse(StateInvalid)
    else SetRow(b.(status := status))
  }

  /** `get_bucket_versioning_status`. */
  function VersioningStatus(b: Bucket): Option<string> { if b.status == DISABLED then None else Some(b.status) }

  // ---------- the row object ----------

  class S3Bucket {
    var versioningStatus: string
    var objectLockEnabled: bool
    var defaultLockMode: Option<string>
    var defaultRetentionDays: Option<int>
    var defaultRetentionYears: Option<int>

    function Row(): Bucket
      reads this
    {
      Bucket(versioningStatus, objectLockEnabled, defaultLockMode, defaultRetentionDays, defaultRetentionYears)
    }

    constructor (row: Bucket)
      ensures Row() == row
    {
      versioningStatus, objectLockEnabled := row.status, row.lockEnabled;
      defaultLockMode, defaultRetentionDays, defaultRetentionYears := row.mode, row.days, row.years;
    }

    method SetObjectLockConfiguration(p: Parsed) returns (refusal: Option<Refusal>)
      modifies this
      ensures match SetObjectLock(old(Row()), p)
        case SetRow(row) => refusal.None? && Row() == row
        case Refuse(r) => refusal == Some(r) && Row() == old(Row())
    {
      if versioningStatus != ENABLED { return Some(StateInvalid); }
      if !objectLockEnabled {
        if p.enabled != Some(ENABLED) { return Some(XmlMalformed); }
        objectLockEnabled := true;
      }
      defaultLockMode := p.retention.mode;
      defaultRetentionDays := p.retention.days;
      defaultRetentionYears := p.retention.years;
      return None;
    }

    method SetVersioningStatus(status: string) returns (refusal: Option<Refusal>)
      modifies this
      ensures match SetVersioning(old(Row()), status)
        case SetRow(row) => refusal.None? && Row() == row
        case Refuse(r) => refusal == Some(r) && Row() == old(Row())
    {
      if status != ENABLED && status != SUSPENDED { return Some(IllegalVersioning); }
      if objectLockEnabled && status == SUSPENDED { return Some(StateInvalid); }
      versioningStatus := status;
      return None;
    }
  }

  // ---------- one request after another ----------

  /** A setting a client can ask for: what the parser lets through, or any versioning status. */
  datatype Ask = AskLock(config: Parsed) | AskVersioning(status: string)

  predicate Askable(a: Ask) { a.AskLock? ==> LetThrough(a.config) }

  function Set(b: Bucket, a: Ask): Setting {
    match a
    case AskLock(p) => SetObjectLock(b, p)
    case AskVersioning(status) => SetVersioning(b, status)
  }

  /** A setter takes an accepted row, with anything the parser lets through, to an accepted row; it never turns
      Object Lock off, never restores Disabled, and keeps a default retention whole; and setting Object Lock makes
      any default whole. */
  lemma SetterKeepsRow(b: Bucket, a: Ask)
    requires Accepted(b) && Askable(a) && Set(b, a).SetRow?
    ensures var b' := Set(b, a).row;
      && Accepted(b') && (b.lockEnabled ==> b'.lockEnabled) && b'.status != DISABLED
      && (WholeDefault(b) || a.AskLock? ==> WholeDefault(b'))
      && (a.AskLock? ==> b'.lockEnabled && Retention(b'.mode, b'.days, b'.years) == a.config.retention)
      && (a.AskVersioning? ==> b' == b.(status := a.status) && VersioningStatus(b') == Some(a.status))
  {
  }

  /** Exactly when a setting is carried out, and which refusal it gets otherwise. */
  lemma SetterDecides(b: Bucket, a: Ask)
    requires Accepted(b) && Askable(a)
    ensures a.AskLock? ==>
      && (Set(b, a).SetRow? <==> b.status == ENABLED && (b.lockEnabled || a.config.enabled.Some?))
      && (Set(b, a) == Refuse(StateInvalid) <==> b.status != ENABLED)
      && (Set(b, a) == Refuse(XmlMalformed) <==> b.status == ENABLED && !b.lockEnabled && a.config.enabled.None?)
    ensures a.AskVersioning? ==>
      && (Set(b, a).SetRow? <==> a.status == ENABLED || (a.status == SUSPENDED && !b.lockEnabled))
      && (Set(b, a) == Refuse(StateInvalid) <==> a.status == SUSPENDED && b.lockEnabled)
      && (Set(b, a) == Refuse(IllegalVersioning) <==> a.status !in {ENABLED, SUSPENDED})
    ensures Set(b, a).SetRow? ==> Set(b, a).row == (match a
      case AskLock(p) => Bucket(ENABLED, true, p.retention.mode, p.retention.days, p.retention.years)
      case AskVersioning(status) => b.(status := status))
  {
  }

  // ---------- requests that overlap ----------

  /** A request has loaded a row, and has perhaps set it; only the columns it changed are written back. */
  datatype Client = Idle | Loaded(snapshot: Bucket) | Ready(snapshot: Bucket, target: Bucket)

  function Column<T(==)>(current: T, snapshot: T, target: T): T { if target == snapshot then current else target }

  /** The row after writing the columns in which `target` differs from `snapshot`. */
  function Merge(current: Bucket, snapshot: Bucket, target: Bucket): Bucket {
    Bucket(Column(current.status, snapshot.status, target.status),
           Column(current.lockEnabled, snapshot.lockEnabled, target.lockEnabled),
           Column(current.mode, snapshot.mode, target.mode),
           Column(current.days, snapshot.days, target.days),
           Column(current.years, snapshot.years, target.years))
  }

  datatype Store = Store(row: Bucket, clients: seq<Client>)

  datatype Act = Load | Apply(ask: Ask) | WriteBack

  predicate CanAct(s: Store, i: nat, act: Act) {
    && i < |s.clients|
    && match act
       case Load => true
       case Apply(ask) => s.clients[i].Loaded? && Askable(ask)
       case WriteBack => s.clients[i].Ready?
  }

  /** A write that a constraint rejects changes nothing. */
  function Do(s: Store, i: nat, act: Act): Store
    requires CanAct(s, i, act)
  {
    match act
    case Load => s.(clients := s.clients[i := Loaded(s.row)])
    case Apply(ask) =>
      var snapshot := s.clients[i].snapshot;
      s.(clients := s.clients[i := match Set(snapshot, ask) case SetRow(row) => Ready(snapshot, row) case Refuse(_) => Idle])
    case WriteBack =>
      var merged := Merge(s.row, s.clients[i].snapshot, s.clients[i].target);
      Store(if Accepted(merged) then merged else s.row, s.clients[i := Idle])
  }

  /** What a client holds was accepted when it was loaded, and its target came from a setter. */
  ghost predicate ClientOk(c: Client) {
    match c
    case Idle => true
    case Loaded(b) => Accepted(b)
    case Ready(b, t) => Accepted(b) && exists ask :: Askable(ask) && Set(b, ask) == SetRow(t)
  }

  ghost predicate StoreOk(s: Store) { Accepted(s.row) && forall c :: c in s.clients ==> ClientOk(c) }

  /** Object Lock stays on with versioning Enabled, and Disabled stays left. */
  predicate NoStepBack(b: Bucket, b': Bucket) {
    (b.lockEnabled ==> b'.lockEnabled && b'.status == ENABLED) && (b.status != DISABLED ==> b'.status != DISABLED)
  }

  lemma MergeNeverStepsBack(current: Bucket, snapshot: Bucket, target: Bucket, ask: Ask)
    requires Accepted(current) && Accepted(snapshot) && Askable(ask) && Set(snapshot, ask) == SetRow(target)
    requires Accepted(Merge(current, snapshot, target))
    ensures NoStepBack(current, Merge(current, snapshot, target))
  {
  }

  lemma ActKeepsStore(s: Store, i: nat, act: Act)
    requires StoreOk(s) && CanAct(s, i, act)
    ensures StoreOk(Do(s, i, act)) && NoStepBack(s.row, Do(s, i, act).row)
  {
    AcceptedMeans(s.row);
    var s' := Do(s, i, act);
    assert s.clients[i] in s.clients && ClientOk(s.clients[i]);
    if act.WriteBack? {
      var c := s.clients[i];
      var ask :| Askable(ask) && Set(c.snapshot, ask) == SetRow(c.target);
      if Accepted(Merge(s.row, c.snapshot, c.target)) { MergeNeverStepsBack(s.row, c.snapshot, c.target, ask); }
    }
    forall c | c in s'.clients ensures ClientOk(c) {
      var k :| 0 <= k < |s'.clients| && s'.clients[k] == c;
      if k != i { assert s.clients[k] in s.clients; }
    }
  }

  datatype Move = Move(who: nat, act: Act)

  ghost predicate IsHistory(trace: seq<Store>, moves: seq<Move>) {
    && |trace| == |moves| + 1
    && Accepted(trace[0].row) && (forall c :: c in trace[0].clients ==> c.Idle?)
    && forall i :: 0 <= i < |moves| ==> CanAct(trace[i], moves[i].who, moves[i].act) && trace[i + 1] == Do(trace[i], moves[i].who, moves[i].act)
  }

  lemma {:induction false} HistoryKeepsStore(trace: seq<Store>, moves: seq<Move>, n: nat)
    requires IsHistory(trace, moves) && n < |trace|
    ensures StoreOk(trace[n])
  {
    if n > 0 {
      HistoryKeepsStore(trace, moves, n - 1);
      ActKeepsStore(trace[n - 1], moves[n - 1].who, moves[n - 1].act);
    }
  }

  /** However loads, settings and writes of any number of requests interleave: every committed row satisfies the
      constraints; Object Lock is never turned off, and while it is on versioning is Enabled; and a bucket that has
      left Disabled never returns to it. */
  lemma {:induction false} ConfigurationNeverStepsBack(trace: seq<Store>, moves: seq<Move>, m: nat, n: nat)
    requires IsHistory(trace, moves) && m <= n < |trace|
    ensures Accepted(trace[n].row) && NoStepBack(trace[m].row, trace[n].row)
  {
    HistoryKeepsStore(trace, moves, n);
    if m == n {
      AcceptedMeans(trace[n].row);
    } else {
      ConfigurationNeverStepsBack(trace, moves, m, n - 1);
      HistoryKeepsStore(trace, moves, n - 1);
      ActKeepsStore(trace[n - 1], moves[n - 1].who, moves[n - 1].act);
    }
  }

  // ---------- one request by itself ----------

  /** The states of a store with one client that loads, applies and, if it was not refused, writes back. */
  function SoloStates(b: Bucket, a: Ask): seq<Store>
    requires Askable(a)
  {
    var start := Store(b, [Idle]);
    var loaded := Do(start, 0, Load);
    var applied := Do(loaded, 0, Apply(a));
    if applied.clients[0].Ready? then [start, loaded, applied, Do(applied, 0, WriteBack)] else [start, loaded, applied]
  }

  function SoloMoves(b: Bucket, a: Ask): seq<Move> {
    [Move(0, Load), Move(0, Apply(a))] + if Set(b, a).SetRow? then [Move(0, WriteBack)] else []
  }

  lemma SoloIsHistory(b: Bucket, a: Ask)
    requires Accepted(b) && Askable(a)
    ensures IsHistory(SoloStates(b, a), SoloMoves(b, a))
  {
  }

  lemma AloneIsWritten(b: Bucket, target: Bucket)
    ensures Merge(b, b, target) == target
  {
  }

  /** A request that nobody disturbs commits exactly what it asked for, unless it is refused. On an Enabled bucket
      without Object Lock that turns Object Lock on with the default retention asked for, whenever the document enables
      it. */
  lemma SettingIsCommitted(b: Bucket, a: Ask)
    requires Accepted(b) && Askable(a)
    ensures var trace := SoloStates(b, a); IsHistory(trace, SoloMoves(b, a)) && trace[0].row == b
    ensures var row := SoloStates(b, a)[|SoloStates(b, a)| - 1].row;
      match a
      case AskLock(p) =>
        row == if b.status == ENABLED && (b.lockEnabled || p.enabled.Some?)
          then Bucket(ENABLED, true, p.retention.mode, p.retention.days, p.retention.years) else b
      case AskVersioning(status) =>
        row == if status == ENABLED || (status == SUSPENDED && !b.lockEnabled) then b.(status := status) else b
  {
    SoloIsHistory(b, a);
    SetterDecides(b, a);
    if Set(b, a).SetRow? {
      SetterKeepsRow(b, a);
      AloneIsWritten(b, Set(b, a).row);
    }
  }

  // ---------- when a default retention stays whole ----------

  /** The writer found the default retention as it loaded it. */
  predicate DefaultUnmoved(current: Bucket, snapshot: Bucket) {
    current.mode == snapshot.mode && current.days == snapshot.days && current.years == snapshot.years
  }

  /** A write that finds the default retention as it was loaded commits exactly the default that was asked for. */
  lemma UnmovedDefaultIsWritten(current: Bucket, snapshot: Bucket, target: Bucket)
    requires DefaultUnmoved(current, snapshot)
    ensures DefaultUnmoved(Merge(current, snapshot, target), target)
  {
  }

  predicate HasDefault(b: Bucket) { b.mode.Some? }

  /** The default was removed under a request that changes only its period, or is removed by a request that loaded
      it in the other unit. */
  predicate DefaultTorn(current: Bucket, snapshot: Bucket, target: Bucket) {
    || (!HasDefault(current) && HasDefault(snapshot) && target.mode == snapshot.mode && !DefaultUnmoved(target, snapshot))
    || (!HasDefault(target) && HasDefault(current) && HasDefault(snapshot) && current.days.Some? != snapshot.days.Some?)
  }

  /** Exactly when a write over whole defaults commits one that is not whole: the constraints accept a torn default,
      and reject every other mixture. */
  lemma WriteKeepsDefaultWhole(current: Bucket, snapshot: Bucket, target: Bucket)
    requires WholeDefault(current) && WholeDefault(snapshot) && WholeDefault(target)
    ensures PeriodWithoutMode(Merge(current, snapshot, target)) <==> DefaultTorn(current, snapshot, target)
    ensures Accepted(Merge(current, snapshot, target)) ==>
      (WholeDefault(Merge(current, snapshot, target)) <==> !DefaultTorn(current, snapshot, target))
  {
  }

  /** Every committed default is whole, or a period without a mode: the constraints rule out every other mixture. */
  lemma CommittedDefaults(trace: seq<Store>, moves: seq<Move>, n: nat)
    requires IsHistory(trace, moves) && n < |trace|
    ensures WholeDefault(trace[n].row) || PeriodWithoutMode(trace[n].row)
  {
    HistoryKeepsStore(trace, moves, n);
    AcceptedMeans(trace[n].row);
  }

  const LOCKED := Bucket(ENABLED, true, Some(GOVERNANCE), Some(5), None)
  const LONGER := Parsed(None, Retention(Some(GOVERNANCE), Some(7), None))
  const NO_DEFAULT := Parsed(None, NO_RETENTION)

  const LENGTHENED := LOCKED.(days := Some(7))
  const BARE := LOCKED.(mode := None, days := None)
  const BROKEN := BARE.(days := Some(7))

  /** The overlap: both requests load, both set, the removal is written, then the longer period. */
  const MOVES := [Move(0, Load), Move(1, Load), Move(0, Apply(AskLock(LONGER))), Move(1, Apply(AskLock(NO_DEFAULT))),
                  Move(1, WriteBack), Move(0, WriteBack)]

  const STATES := [
    Store(LOCKED, [Idle, Idle]),
    Store(LOCKED, [Loaded(LOCKED), Idle]),
    Store(LOCKED, [Loaded(LOCKED), Loaded(LOCKED)]),
    Store(LOCKED, [Ready(LOCKED, LENGTHENED), Loaded(LOCKED)]),
    Store(LOCKED, [Ready(LOCKED, LENGTHENED), Ready(LOCKED, BARE)]),
    Store(BARE, [Ready(LOCKED, LENGTHENED), Idle]),
    Store(BROKEN, [Idle, Idle])]

  /** Two overlapping requests, one lengthening the default and one removing it, can leave a period without a mode,
      which neither asked for and every constraint accepts. */
  lemma OverlapCanBreakDefault()
    ensures IsHistory(STATES, MOVES) && STATES[0].row == LOCKED && WholeDefault(LOCKED)
    ensures PeriodWithoutMode(STATES[6].row)
  {
  }
}
