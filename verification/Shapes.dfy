/** What a request's own fields say about each other at every program counter.
    Nothing here follows other requests: these facts are kept by `RequestAfter`
    as long as the request finds its own paths as it left them. `Shape` speaks of
    the flags and of what is left to do, `Values` of the numbers and rows computed. */
module Shapes {
  import opened Text
  import opened Paths
  import opened Etags
  import opened FileSystems
  import opened Rows
  import opened PartLists
  import opened Requests

  // ---------- the order of each main path ----------

  function PutPos(pc: Pc): int {
    match pc
    case Start => 0 case CheckBucket => 1 case Stage => 2 case Measure => 3 case CheckKey => 4 case MakeDirs => 5
    case CheckTarget => 6 case Backup => 7 case Upsert => 8 case Publish => 9 case Commit => 10
    case _ => -1
  }

  function PartPos(pc: Pc): int {
    match pc
    case Start => 0 case CheckUploadDir => 1 case LoadUpload => 2 case Stage => 3 case Measure => 4 case CheckTarget => 5
    case Backup => 6 case Publish => 7 case Upsert => 8 case Commit => 9
    case _ => -1
  }

  function CompletePos(pc: Pc): int {
    match pc
    case Start => 0 case LoadUpload => 1 case LoadListed => 2 case CompareListed => 3 case Assemble => 4 case CompareStored => 5
    case MeasureStaged => 6 case AwaitBucket => 7 case CheckBucket => 8 case CheckKey => 9 case MakeDirs => 10
    case CheckTarget => 11 case Backup => 12 case Upsert => 13 case Publish => 14 case MoveUpload => 15 case DropParts => 16
    case DropUpload => 17 case Commit => 18
    case _ => -1
  }

  function AbortPos(pc: Pc): int {
    match pc
    case Start => 0 case LoadUpload => 1 case CheckUploadDir => 2 case MoveUpload => 3 case DropParts => 4 case DropUpload => 5
    case Commit => 6
    case _ => -1
  }

  function CreatePos(pc: Pc): int {
    match pc
    case Start => 0 case MakeDirs => 1 case InsertUpload => 2 case Commit => 3
    case _ => -1
  }

  // ---------- what the records say is on disk ----------

  /** Content the request's records say is at its target, staged and backup paths. */
  function SlotContent(r: Request): Option<Bytes> {
    match r.past.target
    case Before => r.past.before
    case Gone => None
    case New => Some(r.past.payload)
  }

  function StagedContent(r: Request): Option<Bytes> { if r.past.stagedHere then Some(r.past.payload) else None }
  function BackupContent(r: Request): Option<Bytes> { if r.past.backupHere then r.past.before else None }

  function NewRow(r: Request): Row { Row(r.local.size, r.local.etag) }

  function PutChange(r: Request): Pending { NO_CHANGES.(putObjects := map[TargetObject(r.job) := NewRow(r)]) }
  function PartChange(r: Request): Pending { NO_CHANGES.(putParts := map[TargetPart(r.job) := NewRow(r)]) }
  function DropChange(p: Pending, r: Request): Pending { p.(dropParts := r.local.pending.dropParts) }
  function EndChange(p: Pending, r: Request): Pending { DropChange(p, r).(dropUploads := {r.job.upload}) }

  // ---------- the main path ----------

  ghost predicate Clean(r: Request) {
    !r.past.targetLost && !r.past.uploadLost && !r.past.litter
  }

  function UnpublishedSlot(r: Request): Slot {
    if r.flags.written then New else if r.job.kind.UploadPart? && r.flags.backupCreated then Gone else Before
  }

  /** Which flags are set, and whether the staged file is there, at each main program counter. */
  ghost predicate PutMain(r: Request) {
    var p, had := PutPos(r.pc), r.past.before.Some?;
    && p >= 0
    && r.flags == Flags(p > 7 && had, p > 9, false, false, false, false)
    && (r.past.stagedHere <==> 2 < p <= 9)
    && (p == 7 ==> had)
  }

  ghost predicate PartMain(r: Request) {
    var p, had := PartPos(r.pc), r.past.before.Some?;
    && p >= 0
    && r.flags == Flags(p > 6 && had, p > 7, false, p > 2, false, false)
    && (r.past.stagedHere <==> 3 < p <= 7)
    && (p == 6 ==> had)
  }

  ghost predicate CompleteMain(r: Request) {
    var p, had := CompletePos(r.pc), r.past.before.Some?;
    && p >= 0
    && r.flags == Flags(p > 12 && had, p > 14, p > 15, p > 1, p > 7, false)
    && (r.past.stagedHere <==> 4 < p <= 14)
    && (p == 12 ==> had)
  }

  ghost predicate AbortMain(r: Request) {
    var p := AbortPos(r.pc);
    && p >= 0
    && r.flags == Flags(false, false, r.flags.moved, p > 1, false, false)
    && (p <= 3 ==> !r.flags.moved)
    && !r.past.stagedHere
  }

  ghost predicate CreateMain(r: Request) {
    CreatePos(r.pc) >= 0 && r.flags == NO_FLAGS && !r.past.stagedHere
  }

  ghost predicate MainShape(r: Request) {
    && r.failure.None? && Clean(r)
    && r.past.target == UnpublishedSlot(r)
    && r.past.backupHere == r.flags.backupCreated
    && r.past.displaced == r.flags.moved
    && match r.job.kind
       case PutObject => PutMain(r)
       case UploadPart => PartMain(r)
       case Complete => CompleteMain(r)
       case Abort => AbortMain(r)
       case Create => CreateMain(r)
  }

  // ---------- the values computed on the way ----------

  ghost predicate SinglePayload(r: Request) {
    r.past.payload == r.job.body && NewRow(r) == Row(|r.past.payload|, ContentEtag(r.past.payload))
  }

  /** The ETags of an assembled object's pieces, once the client's, the stored and the actual ones agree. */
  ghost predicate PiecesAgree(r: Request) {
    ListedMatch(r.job.listed, r.local.etags) && r.local.etags == ContentEtags(r.past.pieces)
  }

  ghost predicate AssembledPayload(r: Request) {
    && PiecesAgree(r)
    && r.past.payload == Flatten(r.past.pieces) && r.local.size == |r.past.payload|
    && ConstructEtag(r.local.etags) == Some(r.local.etag)
  }

  ghost predicate PutValues(r: Request) {
    var p := PutPos(r.pc);
    && (p > 2 ==> r.past.payload == r.job.body)
    && (p > 3 ==> SinglePayload(r))
    && r.local.pending == (if p > 8 then PutChange(r) else NO_CHANGES)
  }

  ghost predicate PartValues(r: Request) {
    var p := PartPos(r.pc);
    && (p > 3 ==> r.past.payload == r.job.body)
    && (p > 4 ==> SinglePayload(r))
    && r.local.pending == (if p > 8 then PartChange(r) else NO_CHANGES)
  }

  ghost predicate CompleteValues(r: Request) {
    var p := CompletePos(r.pc);
    && (p > 3 ==> ListedMatch(r.job.listed, r.local.etags))
    && (p > 4 ==> r.past.payload == Flatten(r.past.pieces) && r.local.hashes == ContentEtags(r.past.pieces))
    && (p > 5 ==> PiecesAgree(r))
    && (p > 6 ==> r.local.size == |r.past.payload|)
    && (p > 13 ==> ConstructEtag(r.local.etags) == Some(r.local.etag))
    && r.local.pending == CompletePending(r, p)
  }

  function CompletePending(r: Request, p: int): Pending {
    if p > 17 then EndChange(PutChange(r), r)
    else if p > 16 then DropChange(PutChange(r), r)
    else if p > 13 then PutChange(r)
    else NO_CHANGES
  }

  ghost predicate AbortValues(r: Request) {
    var p := AbortPos(r.pc);
    r.local.pending == if p > 5 then EndChange(NO_CHANGES, r) else if p > 4 then DropChange(NO_CHANGES, r) else NO_CHANGES
  }

  ghost predicate CreateValues(r: Request) {
    r.local.pending
      == if CreatePos(r.pc) > 2 then NO_CHANGES.(putUploads := map[r.job.upload := UploadRow(r.job.bucket, r.job.key)]) else NO_CHANGES
  }

  /** Payload, size, ETag and pending rows at each program counter. */
  ghost predicate Values(r: Request) {
    if OnMainPath(r.pc) then
      match r.job.kind
      case PutObject => PutValues(r)
      case UploadPart => PartValues(r)
      case Complete => CompleteValues(r)
      case Abort => AbortValues(r)
      case Create => CreateValues(r)
    else if r.flags.committed then
      (r.job.kind.PutObject? || r.job.kind.UploadPart? ==> SinglePayload(r)) && (r.job.kind.Complete? ==> AssembledPayload(r))
    else !r.pc.Rollback? ==> r.local.pending == NO_CHANGES
  }

  // ---------- after a failure ----------

  predicate RecoveryPc(k: Kind, pc: Pc) {
    match pc
    case Rollback => true
    case Undo => k.PutObject? || k.UploadPart? || k.Complete?
    case DropBackup => k.PutObject? || k.Complete?
    case RestoreUpload => k.Complete? || k.Abort?
    case DropStaged => k.PutObject? || k.UploadPart? || k.Complete?
    case UnlockInner => k.Complete?
    case UnlockOuter => !k.Create?
    case TidyUpload => k.Create?
    case Finished => true
    case _ => false
  }

  /** The target slot follows the flags until `Undo`; afterwards it is restored or admitted lost. */
  ghost predicate TargetLedger(r: Request) {
    var undone := !r.pc.Rollback? && !r.pc.Undo?;
    && (!undone ==> !r.past.targetLost && !r.past.litter)
    && r.past.target == (if undone && !r.past.targetLost then Before else UnpublishedSlot(r))
    && (r.past.targetLost ==> r.past.target != Before)
    && (!undone || r.past.targetLost ==> r.past.backupHere == r.flags.backupCreated)
    && (r.past.backupHere ==> r.flags.backupCreated)
    && (undone && !r.past.targetLost && (r.job.kind.UploadPart? || (!r.pc.DropBackup? && !r.past.litter)) ==> !r.past.backupHere)
    && (r.pc.DropBackup? && !r.past.targetLost ==> r.past.backupHere == r.flags.backupCreated)
    && (r.flags.backupCreated ==> r.past.before.Some?)
    && (r.flags.written && !r.flags.backupCreated ==> r.past.before.None?)
    && ((r.pc.UnlockInner? || r.pc.UnlockOuter? || r.pc.Finished?) && !r.past.litter ==> !r.past.stagedHere)
  }

  ghost predicate UploadLedger(r: Request) {
    var restored := !r.pc.Rollback? && !r.pc.Undo? && !r.pc.DropBackup? && !r.pc.RestoreUpload?;
    && (!restored ==> !r.past.uploadLost && r.past.displaced == r.flags.moved)
    && (restored ==> r.past.displaced == r.past.uploadLost)
    && (r.past.displaced ==> r.flags.moved)
  }

  ghost predicate PutFailed(r: Request) {
    r.flags == Flags(r.flags.backupCreated, r.flags.written, false, false, false, false)
  }

  ghost predicate PartFailed(r: Request) {
    && r.flags == Flags(r.flags.backupCreated, r.flags.written, false, r.flags.verified, false, false)
    && (r.flags.backupCreated || r.flags.written || r.past.stagedHere ==> r.flags.verified)
  }

  ghost predicate CompleteFailed(r: Request) {
    && r.flags == Flags(r.flags.backupCreated, r.flags.written, r.flags.moved, r.flags.verified, r.flags.inner, false)
    && (r.flags.inner || r.flags.moved || r.past.stagedHere ==> r.flags.verified)
    && (r.pc.UnlockInner? ==> r.flags.inner)
    && (r.pc.UnlockOuter? || r.pc.Finished? ==> !r.flags.inner)
    && (!r.flags.inner && !r.pc.UnlockOuter? && !r.pc.Finished? ==> !r.flags.backupCreated && !r.flags.written && !r.flags.moved)
  }

  ghost predicate AbortFailed(r: Request) {
    && r.flags == Flags(false, false, r.flags.moved, r.flags.verified, false, false)
    && (r.flags.moved ==> r.flags.verified)
    && !r.past.stagedHere
  }

  ghost predicate FailedShape(r: Request) {
    && r.failure.Some? && RecoveryPc(r.job.kind, r.pc)
    && TargetLedger(r) && UploadLedger(r)
    && match r.job.kind
       case PutObject => PutFailed(r)
       case UploadPart => PartFailed(r)
       case Complete => CompleteFailed(r)
       case Abort => AbortFailed(r)
       case Create => r.flags == NO_FLAGS && !r.past.stagedHere
  }

  // ---------- after the commit ----------

  predicate DonePc(k: Kind, pc: Pc) {
    match pc
    case TidyLocked => k.UploadPart?
    case UnlockInner => k.Complete?
    case UnlockOuter => !k.Create?
    case Tidy => k.PutObject? || k.Complete?
    case TidyUpload => k.Complete? || k.Abort?
    case Finished => true
    case _ => false
  }

  ghost predicate DoneShape(r: Request) {
    var f := r.flags;
    && r.failure.None? && DonePc(r.job.kind, r.pc)
    && !r.past.targetLost && !r.past.uploadLost && !r.past.stagedHere
    && r.past.target == UnpublishedSlot(r)
    && (f.backupCreated ==> r.past.before.Some?)
    && (r.past.backupHere ==> f.backupCreated)
    && (!r.pc.Finished? ==> r.past.displaced == f.moved)
    && (r.past.displaced ==> f.moved)
    && (r.pc.Finished? && !r.past.litter ==> !r.past.displaced && !r.past.backupHere)
    && (r.pc.TidyUpload? && !r.past.litter ==> !r.past.backupHere)
    && (r.job.kind.UploadPart? && r.pc.UnlockOuter? && !r.past.litter ==> !r.past.backupHere)
    && match r.job.kind
       case PutObject => f == Flags(f.backupCreated, true, false, false, false, true)
       case UploadPart => f == Flags(f.backupCreated, true, false, true, false, true)
       case Complete => f == Flags(f.backupCreated, true, true, true, r.pc.UnlockInner?, true)
       case Abort => f == Flags(false, false, f.moved, true, false, true)
       case Create => f == Flags(false, false, false, false, false, true) && !r.past.litter
  }

  ghost predicate Shape(r: Request) {
    && (r.job.kind.UploadPart? ==> 1 <= r.job.number <= PART_NUMBER_MAX)
    && (if OnMainPath(r.pc) then MainShape(r) else if r.flags.committed then DoneShape(r) else FailedShape(r))
  }

  // ---------- a step keeps the shape ----------

  /** What the request must find when it looks: its target as recorded, its staged file as written. */
  ghost predicate Finds(fs: FileSystem, r: Request) {
    && (r.pc.CheckTarget? ==> At(fs, TargetPath(r.job)) == r.past.before)
    && (r.pc.Measure? || r.pc.MeasureStaged? ==> At(fs, StagedFile(r.job)) == Some(r.past.payload))
  }

  lemma FailShape(r: Request, f: Failure)
    requires OnMainPath(r.pc) && Shape(r)
    ensures FailedShape(Fail(r, f))
  {
  }

  lemma PutStagingShape(w: World, r: Request)
    requires r.job.kind.PutObject? && MainShape(r) && Finds(w.fs, r)
    requires 0 < PutPos(r.pc) <= 4
    ensures Shape(Advance(w, r))
  {
    match r.pc
    case CheckBucket => assert Advance(w, r) == AfterCheckBucket(w.fs, r);
    case Stage =>
    case Measure => assert Advance(w, r) == AfterMeasure(w.fs, r);
    case CheckKey => assert Advance(w, r) == AfterCheckKey(w.fs, r);
    case _ =>
  }

  lemma PutPreparingShape(w: World, r: Request)
    requires r.job.kind.PutObject? && MainShape(r) && Finds(w.fs, r)
    requires 4 < PutPos(r.pc) <= 8
    ensures Shape(Advance(w, r))
  {
    match r.pc
    case MakeDirs =>
    case CheckTarget => assert Advance(w, r) == AfterCheckTarget(w.fs, r);
    case Backup => assert Advance(w, r) == AfterBackup(r);
    case Upsert => assert Advance(w, r) == AfterUpsert(w.rows, r);
    case _ =>
  }

  lemma PutPublishingShape(w: World, r: Request)
    requires r.job.kind.PutObject? && MainShape(r) && Finds(w.fs, r)
    requires 8 < PutPos(r.pc)
    ensures Shape(Advance(w, r))
  {
    match r.pc
    case Publish => assert Advance(w, r) == AfterPublish(r);
    case Commit => assert Advance(w, r) == AfterCommit(r);
    case _ =>
  }

  lemma PutProceedShape(w: World, r: Request, ok: bool)
    requires r.job.kind.PutObject? && Shape(r) && OnMainPath(r.pc) && Finds(w.fs, r)
    ensures Shape(Proceed(w, r, ok))
  {
    var p := PutPos(r.pc);
    if p == 0 {
    } else if !ok {
      FailShape(r, if Blocked(w.fs, r) then KeyConflict else Failure.Raised);
    } else if p <= 4 {
      PutStagingShape(w, r);
    } else if p <= 8 {
      PutPreparingShape(w, r);
    } else {
      PutPublishingShape(w, r);
    }
  }

  lemma PartCheckingShape(w: World, r: Request)
    requires r.job.kind.UploadPart? && MainShape(r) && Shape(r) && Finds(w.fs, r)
    requires 0 < PartPos(r.pc) <= 2
    ensures Shape(Advance(w, r))
  {
    match r.pc
    case CheckUploadDir => assert Advance(w, r) == AfterCheckUploadDir(w.fs, r);
    case LoadUpload => assert Advance(w, r) == AfterLoadUpload(w, r);
    case _ =>
  }

  lemma PartStagingShape(w: World, r: Request)
    requires r.job.kind.UploadPart? && MainShape(r) && Shape(r) && Finds(w.fs, r)
    requires 2 < PartPos(r.pc) <= 5
    ensures Shape(Advance(w, r))
  {
    match r.pc
    case Stage =>
    case Measure => assert Advance(w, r) == AfterMeasure(w.fs, r);
    case CheckTarget => assert Advance(w, r) == AfterCheckTarget(w.fs, r);
    case _ =>
  }

  lemma PartPublishingShape(w: World, r: Request)
    requires r.job.kind.UploadPart? && MainShape(r) && Shape(r) && Finds(w.fs, r)
    requires 5 < PartPos(r.pc) <= 7
    ensures Shape(Advance(w, r))
  {
    match r.pc
    case Backup => assert Advance(w, r) == AfterBackup(r);
    case Publish => assert Advance(w, r) == AfterPublish(r);
    case _ =>
  }

  lemma PartRecordingShape(w: World, r: Request)
    requires r.job.kind.UploadPart? && MainShape(r) && Shape(r) && Finds(w.fs, r)
    requires 7 < PartPos(r.pc)
    ensures Shape(Advance(w, r))
  {
    match r.pc
    case Upsert => assert Advance(w, r) == AfterUpsert(w.rows, r);
    case Commit => assert Advance(w, r) == AfterCommit(r);
    case _ =>
  }

  lemma PartProceedShape(w: World, r: Request, ok: bool)
    requires r.job.kind.UploadPart? && Shape(r) && OnMainPath(r.pc) && Finds(w.fs, r)
    ensures Shape(Proceed(w, r, ok))
  {
    var p := PartPos(r.pc);
    if p == 0 {
    } else if !ok {
      FailShape(r, if Blocked(w.fs, r) then KeyConflict else Failure.Raised);
    } else if p <= 2 {
      PartCheckingShape(w, r);
    } else if p <= 5 {
      PartStagingShape(w, r);
    } else if p <= 7 {
      PartPublishingShape(w, r);
    } else {
      PartRecordingShape(w, r);
    }
  }

  lemma CompleteFindingShape(w: World, r: Request)
    requires r.job.kind.Complete? && MainShape(r) && Finds(w.fs, r)
    requires r.pc.LoadUpload?
    ensures Shape(AfterLoadUpload(w, r))
  {
  }

  lemma ListedShape(r: Request, etags: seq<string>)
    requires r.job.kind.Complete? && MainShape(r) && r.pc.LoadListed?
    ensures Shape(r.(pc := CompareListed, local := r.local.(etags := etags)))
  {
  }

  lemma CompleteListingShape(w: World, r: Request)
    requires r.job.kind.Complete? && Shape(r) && r.pc.LoadListed?
    ensures Shape(AfterLoadListed(w, r))
  {
    FailShape(r, BadPart);
    match LoadParts(w.rows, w.fs, r.job.upload, r.job.listed)
    case Loaded(_, etags) => ListedShape(r, etags);
    case Faulty(_) =>
  }

  lemma CompleteComparingShape(w: World, r: Request)
    requires r.job.kind.Complete? && MainShape(r) && r.pc.CompareListed?
    ensures Shape(AfterCompareListed(r))
  {
  }

  lemma CompleteAssemblingShape(w: World, r: Request)
    requires r.job.kind.Complete? && MainShape(r) && Finds(w.fs, r)
    requires 3 < CompletePos(r.pc) <= 5
    ensures Shape(Advance(w, r))
  {
    match r.pc
    case Assemble => assert Advance(w, r) == AfterAssemble(w.fs, r);
    case CompareStored => assert Advance(w, r) == AfterCompareStored(r);
    case _ =>
  }

  lemma CompleteMeasuringShape(w: World, r: Request)
    requires r.job.kind.Complete? && MainShape(r) && Finds(w.fs, r)
    requires 5 < CompletePos(r.pc) <= 7 && !r.pc.AwaitBucket?
    ensures Shape(Advance(w, r))
  {
    match r.pc
    case MeasureStaged =>
    case AwaitBucket =>
    case _ =>
  }

  lemma CompleteCheckingShape(w: World, r: Request)
    requires r.job.kind.Complete? && MainShape(r) && Finds(w.fs, r)
    requires r.pc.CheckBucket? || r.pc.CheckKey?
    ensures Shape(Advance(w, r))
  {
    match r.pc
    case CheckBucket => assert Advance(w, r) == AfterCheckBucket(w.fs, r);
    case CheckKey => assert Advance(w, r) == AfterCheckKey(w.fs, r);
  }

  lemma CompleteDirsShape(w: World, r: Request)
    requires r.job.kind.Complete? && MainShape(r) && Finds(w.fs, r)
    requires r.pc.MakeDirs?
    ensures Shape(Advance(w, r))
  {
  }

  lemma CompleteBackupShape(w: World, r: Request)
    requires r.job.kind.Complete? && MainShape(r) && Finds(w.fs, r)
    requires 10 < CompletePos(r.pc) <= 12
    ensures Shape(Advance(w, r))
  {
    match r.pc
    case CheckTarget => assert Advance(w, r) == AfterCheckTarget(w.fs, r);
    case Backup => assert Advance(w, r) == AfterBackup(r);
    case _ =>
  }

  lemma CompleteUpsertShape(w: World, r: Request)
    requires r.job.kind.Complete? && MainShape(r) && Finds(w.fs, r)
    requires r.pc.Upsert?
    ensures Shape(AfterUpsert(w.rows, r))
  {
  }

  lemma CompletePublishingShape(w: World, r: Request)
    requires r.job.kind.Complete? && MainShape(r) && Finds(w.fs, r)
    requires r.pc.Publish?
    ensures Shape(AfterPublish(r))
  {
  }

  lemma CompleteMovingShape(w: World, r: Request)
    requires r.job.kind.Complete? && MainShape(r) && Finds(w.fs, r)
    requires 14 < CompletePos(r.pc) <= 16
    ensures Shape(Advance(w, r))
  {
    match r.pc
    case MoveUpload =>
    case DropParts =>
    case _ =>
  }

  lemma CompleteEndingShape(w: World, r: Request)
    requires r.job.kind.Complete? && MainShape(r) && Finds(w.fs, r)
    requires 16 < CompletePos(r.pc)
    ensures Shape(Advance(w, r))
  {
    match r.pc
    case DropUpload => assert Advance(w, r) == AfterDropUpload(w.rows, r);
    case Commit => assert Advance(w, r) == AfterCommit(r);
    case _ =>
  }

  lemma CompleteProceedShape(w: World, r: Request, ok: bool)
    requires r.job.kind.Complete? && Shape(r) && OnMainPath(r.pc) && Finds(w.fs, r)
    ensures Shape(Proceed(w, r, ok))
  {
    var p := CompletePos(r.pc);
    if p == 0 || p == 7 {
    } else if !ok {
      FailShape(r, if Blocked(w.fs, r) then KeyConflict else Failure.Raised);
    } else if p == 1 {
      CompleteFindingShape(w, r);
    } else if p == 2 {
      CompleteListingShape(w, r);
    } else if p == 3 {
      CompleteComparingShape(w, r);
    } else if p <= 5 {
      CompleteAssemblingShape(w, r);
    } else if p <= 7 {
      CompleteMeasuringShape(w, r);
    } else if p <= 9 {
      CompleteCheckingShape(w, r);
    } else if p == 10 {
      CompleteDirsShape(w, r);
    } else if p <= 12 {
      CompleteBackupShape(w, r);
    } else if p == 13 {
      CompleteUpsertShape(w, r);
    } else if p == 14 {
      CompletePublishingShape(w, r);
    } else if p <= 16 {
      CompleteMovingShape(w, r);
    } else {
      CompleteEndingShape(w, r);
    }
  }

  lemma AbortLoadingShape(w: World, r: Request)
    requires r.job.kind.Abort? && MainShape(r) && Finds(w.fs, r)
    requires 0 < AbortPos(r.pc) <= 2
    ensures Shape(Advance(w, r))
  {
    match r.pc
    case LoadUpload => assert Advance(w, r) == AfterLoadUpload(w, r);
    case CheckUploadDir => assert Advance(w, r) == AfterCheckUploadDir(w.fs, r);
    case _ =>
  }

  lemma AbortMovingShape(w: World, r: Request)
    requires r.job.kind.Abort? && MainShape(r) && Finds(w.fs, r)
    requires 2 < AbortPos(r.pc) <= 4
    ensures Shape(Advance(w, r))
  {
    match r.pc
    case MoveUpload =>
    case DropParts =>
    case _ =>
  }

  lemma AbortEndingShape(w: World, r: Request)
    requires r.job.kind.Abort? && MainShape(r) && Finds(w.fs, r)
    requires 4 < AbortPos(r.pc)
    ensures Shape(Advance(w, r))
  {
    match r.pc
    case DropUpload => assert Advance(w, r) == AfterDropUpload(w.rows, r);
    case Commit => assert Advance(w, r) == AfterCommit(r);
    case _ =>
  }

  lemma AbortProceedShape(w: World, r: Request, ok: bool)
    requires r.job.kind.Abort? && Shape(r) && OnMainPath(r.pc) && Finds(w.fs, r)
    ensures Shape(Proceed(w, r, ok))
  {
    var p := AbortPos(r.pc);
    if p == 0 {
    } else if !ok {
      FailShape(r, if Blocked(w.fs, r) then KeyConflict else Failure.Raised);
    } else if p <= 2 {
      AbortLoadingShape(w, r);
    } else if p <= 4 {
      AbortMovingShape(w, r);
    } else {
      AbortEndingShape(w, r);
    }
  }

  lemma CreateAdvanceShape(w: World, r: Request)
    requires r.job.kind.Create? && MainShape(r) && 0 < CreatePos(r.pc)
    ensures Shape(Advance(w, r))
  {
    match r.pc
    case MakeDirs =>
    case InsertUpload =>
    case Commit => assert Advance(w, r) == AfterCommit(r);
    case _ =>
  }

  lemma CreateProceedShape(w: World, r: Request, ok: bool)
    requires r.job.kind.Create? && Shape(r) && OnMainPath(r.pc)
    ensures Shape(Proceed(w, r, ok))
  {
    if r.pc.Start? {
    } else if !ok {
      FailShape(r, if Blocked(w.fs, r) then KeyConflict else Failure.Raised);
    } else {
      CreateAdvanceShape(w, r);
    }
  }

  lemma UndoShape(fs: FileSystem, r: Request, ok: bool)
    requires !r.flags.committed && FailedShape(r) && (r.pc.Rollback? || r.pc.Undo?)
    ensures FailedShape(Recover(r, TodoAt(fs, r).Idle?, ok))
  {
  }

  lemma DropBackupShape(fs: FileSystem, r: Request, ok: bool)
    requires !r.flags.committed && FailedShape(r) && (r.pc.DropBackup?)
    ensures FailedShape(Recover(r, TodoAt(fs, r).Idle?, ok))
  {
  }

  lemma RestoreUploadShape(fs: FileSystem, r: Request, ok: bool)
    requires !r.flags.committed && FailedShape(r) && (r.pc.RestoreUpload?)
    ensures FailedShape(Recover(r, TodoAt(fs, r).Idle?, ok))
  {
  }

  lemma DropStagedShape(fs: FileSystem, r: Request, ok: bool)
    requires !r.flags.committed && FailedShape(r) && (r.pc.DropStaged?)
    ensures FailedShape(Recover(r, TodoAt(fs, r).Idle?, ok))
  {
  }

  lemma LeavingShape(fs: FileSystem, r: Request, ok: bool)
    requires !r.flags.committed && FailedShape(r) && (r.pc.UnlockInner? || r.pc.UnlockOuter? || r.pc.TidyUpload? || r.pc.Finished?)
    ensures FailedShape(Recover(r, TodoAt(fs, r).Idle?, ok))
  {
  }

  lemma FailedRecoverShape(fs: FileSystem, r: Request, ok: bool)
    requires !OnMainPath(r.pc) && !r.flags.committed && FailedShape(r)
    ensures FailedShape(Recover(r, TodoAt(fs, r).Idle?, ok))
  {
    if r.pc.Rollback? || r.pc.Undo? {
      UndoShape(fs, r, ok);
    } else if r.pc.DropBackup? {
      DropBackupShape(fs, r, ok);
    } else if r.pc.RestoreUpload? {
      RestoreUploadShape(fs, r, ok);
    } else if r.pc.DropStaged? {
      DropStagedShape(fs, r, ok);
    } else {
      LeavingShape(fs, r, ok);
    }
  }

  lemma UnlockingShape(fs: FileSystem, r: Request, ok: bool)
    requires DoneShape(r) && (r.pc.TidyLocked? || r.pc.UnlockInner? || r.pc.UnlockOuter?)
    ensures DoneShape(Recover(r, TodoAt(fs, r).Idle?, ok))
  {
  }

  lemma TidyingShape(fs: FileSystem, r: Request, ok: bool)
    requires DoneShape(r) && (r.pc.Tidy? || r.pc.TidyUpload? || r.pc.Finished?)
    ensures DoneShape(Recover(r, TodoAt(fs, r).Idle?, ok))
  {
  }

  lemma ProceedKeepsShape(w: World, r: Request, ok: bool)
    requires Shape(r) && OnMainPath(r.pc) && Finds(w.fs, r)
    ensures Shape(Proceed(w, r, ok))
  {
    match r.job.kind
    case PutObject => PutProceedShape(w, r, ok);
    case UploadPart => PartProceedShape(w, r, ok);
    case Complete => CompleteProceedShape(w, r, ok);
    case Abort => AbortProceedShape(w, r, ok);
    case Create => CreateProceedShape(w, r, ok);
  }

  lemma DoneRecoverShape(fs: FileSystem, r: Request, ok: bool)
    requires DoneShape(r)
    ensures DoneShape(Recover(r, TodoAt(fs, r).Idle?, ok))
  {
    if r.pc.TidyLocked? || r.pc.UnlockInner? || r.pc.UnlockOuter? {
      UnlockingShape(fs, r, ok);
    } else {
      TidyingShape(fs, r, ok);
    }
  }

  lemma RecoverKeepsShape(fs: FileSystem, r: Request, ok: bool)
    requires Shape(r) && !OnMainPath(r.pc)
    ensures Shape(Recover(r, TodoAt(fs, r).Idle?, ok))
  {
    if r.flags.committed {
      DoneRecoverShape(fs, r, ok);
    } else {
      FailedRecoverShape(fs, r, ok);
    }
  }

  /** A step keeps the shape of its request, whether the primitive returns or raises. */
  lemma StepKeepsShape(w: World, r: Request, o: Outcome)
    requires Shape(r) && Finds(w.fs, r)
    ensures Shape(RequestAfter(w, r, o))
  {
    if OnMainPath(r.pc) {
      ProceedKeepsShape(w, r, Succeeds(w.fs, r, o));
    } else {
      RecoverKeepsShape(w.fs, r, Succeeds(w.fs, r, o));
    }
  }

  // ---------- a step keeps the values ----------

  lemma PutStagingValues(w: World, r: Request)
    requires r.job.kind.PutObject? && PutMain(r) && PutValues(r) && Finds(w.fs, r)
    requires r.pc.CheckBucket? || r.pc.Stage? || r.pc.Measure? || r.pc.CheckKey? || r.pc.MakeDirs?
    ensures Values(Advance(w, r))
  {
    match r.pc
    case CheckBucket => assert Advance(w, r) == AfterCheckBucket(w.fs, r);
    case Stage =>
    case Measure => assert Advance(w, r) == AfterMeasure(w.fs, r);
    case CheckKey => assert Advance(w, r) == AfterCheckKey(w.fs, r);
    case MakeDirs =>
  }

  lemma PutPublishingValues(w: World, r: Request)
    requires r.job.kind.PutObject? && PutMain(r) && PutValues(r)
    requires r.pc.CheckTarget? || r.pc.Backup? || r.pc.Upsert? || r.pc.Publish? || r.pc.Commit?
    ensures Values(Advance(w, r))
  {
    match r.pc
    case CheckTarget => assert Advance(w, r) == AfterCheckTarget(w.fs, r);
    case Backup => assert Advance(w, r) == AfterBackup(r);
    case Upsert => assert Advance(w, r) == AfterUpsert(w.rows, r);
    case Publish => assert Advance(w, r) == AfterPublish(r);
    case Commit => assert Advance(w, r) == AfterCommit(r);
  }

  lemma PartValuesKept(w: World, r: Request)
    requires r.job.kind.UploadPart? && PartMain(r) && PartValues(r) && Finds(w.fs, r) && 0 < PartPos(r.pc)
    ensures Values(Advance(w, r))
  {
    match r.pc
    case CheckUploadDir => assert Advance(w, r) == AfterCheckUploadDir(w.fs, r);
    case LoadUpload => assert Advance(w, r) == AfterLoadUpload(w, r);
    case Stage =>
    case Measure => assert Advance(w, r) == AfterMeasure(w.fs, r);
    case CheckTarget => assert Advance(w, r) == AfterCheckTarget(w.fs, r);
    case Backup => assert Advance(w, r) == AfterBackup(r);
    case Publish => assert Advance(w, r) == AfterPublish(r);
    case Upsert => assert Advance(w, r) == AfterUpsert(w.rows, r);
    case Commit => assert Advance(w, r) == AfterCommit(r);
    case _ =>
  }

  lemma CompleteAssemblyValues(w: World, r: Request)
    requires r.job.kind.Complete? && CompleteMain(r) && CompleteValues(r) && Finds(w.fs, r) && 0 < CompletePos(r.pc) <= 6
    ensures Values(Advance(w, r))
  {
    match r.pc
    case LoadUpload => assert Advance(w, r) == AfterLoadUpload(w, r);
    case LoadListed => assert Advance(w, r) == AfterLoadListed(w, r);
    case CompareListed => assert Advance(w, r) == AfterCompareListed(r);
    case Assemble => assert Advance(w, r) == AfterAssemble(w.fs, r);
    case CompareStored => assert Advance(w, r) == AfterCompareStored(r);
    case MeasureStaged => assert Advance(w, r) == AfterMeasureStaged(w.fs, r);
    case _ =>
  }

  lemma CompleteKeyValues(w: World, r: Request)
    requires r.job.kind.Complete? && CompleteMain(r) && CompleteValues(r) && 7 < CompletePos(r.pc) <= 11
    ensures Values(Advance(w, r))
  {
    match r.pc
    case CheckBucket => assert Advance(w, r) == AfterCheckBucket(w.fs, r);
    case CheckKey => assert Advance(w, r) == AfterCheckKey(w.fs, r);
    case MakeDirs =>
    case CheckTarget => assert Advance(w, r) == AfterCheckTarget(w.fs, r);
    case _ =>
  }

  lemma CompleteBackupValues(w: World, r: Request)
    requires r.job.kind.Complete? && CompleteMain(r) && CompleteValues(r)
    requires r.pc.Backup?
    ensures Values(AfterBackup(r))
  {
  }

  lemma CompleteUpsertValues(w: World, r: Request)
    requires r.job.kind.Complete? && CompleteMain(r) && CompleteValues(r)
    requires r.pc.Upsert?
    ensures Values(AfterUpsert(w.rows, r))
  {
  }

  lemma CompletePublishValues(w: World, r: Request)
    requires r.job.kind.Complete? && CompleteMain(r) && CompleteValues(r)
    requires r.pc.Publish?
    ensures Values(AfterPublish(r))
  {
  }

  lemma CompleteMoveValues(w: World, r: Request)
    requires r.job.kind.Complete? && CompleteMain(r) && CompleteValues(r)
    requires r.pc.MoveUpload?
    ensures Values(Go(r.(flags := r.flags.(moved := true), past := r.past.(displaced := true)), DropParts))
  {
  }

  lemma CompleteDropPartsValues(w: World, r: Request)
    requires r.job.kind.Complete? && CompleteMain(r) && CompleteValues(r)
    requires r.pc.DropParts?
    ensures Values(Pend(r, r.local.pending.(dropParts := PartsOf(w.rows, r.job.upload)), DropUpload))
  {
  }

  lemma CompleteDropUploadValues(w: World, r: Request)
    requires r.job.kind.Complete? && CompleteMain(r) && CompleteValues(r)
    requires r.pc.DropUpload?
    ensures Values(AfterDropUpload(w.rows, r))
  {
  }

  lemma CompleteCommitValues(w: World, r: Request)
    requires r.job.kind.Complete? && CompleteMain(r) && CompleteValues(r) && 17 < CompletePos(r.pc)
    ensures Values(Advance(w, r))
  {
    match r.pc
    case Commit =>
    case _ =>
  }

  lemma AbortValuesKept(w: World, r: Request)
    requires r.job.kind.Abort? && AbortMain(r) && AbortValues(r) && 0 < AbortPos(r.pc)
    ensures Values(Advance(w, r))
  {
    match r.pc
    case LoadUpload => assert Advance(w, r) == AfterLoadUpload(w, r);
    case CheckUploadDir => assert Advance(w, r) == AfterCheckUploadDir(w.fs, r);
    case MoveUpload =>
    case DropParts =>
    case DropUpload => assert Advance(w, r) == AfterDropUpload(w.rows, r);
    case Commit => assert Advance(w, r) == AfterCommit(r);
    case _ =>
  }

  lemma CreateValuesKept(w: World, r: Request)
    requires r.job.kind.Create? && CreateMain(r) && CreateValues(r) && 0 < CreatePos(r.pc)
    ensures Values(Advance(w, r))
  {
    match r.pc
    case MakeDirs =>
    case InsertUpload =>
    case Commit =>
    case _ =>
  }

  lemma CompletePublishingValues(w: World, r: Request)
    requires r.job.kind.Complete? && CompleteMain(r) && CompleteValues(r) && 11 < CompletePos(r.pc) <= 14
    ensures Values(Advance(w, r))
  {
    match r.pc
    case Backup =>
      assert Advance(w, r) == AfterBackup(r);
      CompleteBackupValues(w, r);
    case Upsert =>
      assert Advance(w, r) == AfterUpsert(w.rows, r);
      CompleteUpsertValues(w, r);
    case Publish =>
      assert Advance(w, r) == AfterPublish(r);
      CompletePublishValues(w, r);
  }

  lemma CompleteEndingValues(w: World, r: Request)
    requires r.job.kind.Complete? && CompleteMain(r) && CompleteValues(r) && 14 < CompletePos(r.pc)
    ensures Values(Advance(w, r))
  {
    match r.pc
    case MoveUpload =>
      assert Advance(w, r) == Go(r.(flags := r.flags.(moved := true), past := r.past.(displaced := true)), DropParts);
      CompleteMoveValues(w, r);
    case DropParts =>
      assert Advance(w, r) == Pend(r, r.local.pending.(dropParts := PartsOf(w.rows, r.job.upload)), DropUpload);
      CompleteDropPartsValues(w, r);
    case DropUpload =>
      assert Advance(w, r) == AfterDropUpload(w.rows, r);
      CompleteDropUploadValues(w, r);
    case Commit => CompleteCommitValues(w, r);
  }

  lemma AdvanceKeepsValues(w: World, r: Request)
    requires OnMainPath(r.pc) && !r.pc.Start? && !r.pc.AwaitBucket? && Shape(r) && Values(r) && Finds(w.fs, r)
    ensures Values(Advance(w, r))
  {
    match r.job.kind
    case PutObject => if PutPos(r.pc) <= 5 { PutStagingValues(w, r); } else { PutPublishingValues(w, r); }
    case UploadPart => PartValuesKept(w, r);
    case Complete =>
      if CompletePos(r.pc) <= 6 {
        CompleteAssemblyValues(w, r);
      } else if CompletePos(r.pc) <= 11 {
        CompleteKeyValues(w, r);
      } else if CompletePos(r.pc) <= 14 {
        CompletePublishingValues(w, r);
      } else {
        CompleteEndingValues(w, r);
      }
    case Abort => AbortValuesKept(w, r);
    case Create => CreateValuesKept(w, r);
  }

  lemma FirstLockValues(w: World, r: Request)
    requires OnMainPath(r.pc) && (r.pc.Start? || r.pc.AwaitBucket?) && Shape(r) && Values(r)
    ensures Values(Proceed(w, r, true))
  {
  }

  lemma RecoverKeepsValues(fs: FileSystem, r: Request, ok: bool)
    requires !OnMainPath(r.pc) && Shape(r) && Values(r)
    ensures Values(Recover(r, TodoAt(fs, r).Idle?, ok))
  {
    match r.pc
    case Rollback =>
    case Undo =>
    case DropBackup =>
    case RestoreUpload =>
    case DropStaged =>
    case TidyLocked =>
    case UnlockInner =>
    case UnlockOuter =>
    case Tidy =>
    case TidyUpload =>
    case _ =>
  }

  /** The computed values stay right along every step. */
  lemma StepKeepsValues(w: World, r: Request, o: Outcome)
    requires Shape(r) && Values(r) && Finds(w.fs, r)
    ensures Values(RequestAfter(w, r, o))
  {
    if !OnMainPath(r.pc) {
      RecoverKeepsValues(w.fs, r, Succeeds(w.fs, r, o));
    } else if r.pc.Start? || r.pc.AwaitBucket? {
      FirstLockValues(w, r);
    } else if Succeeds(w.fs, r, o) {
      AdvanceKeepsValues(w, r);
    }
  }
}
