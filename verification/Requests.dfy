/** The services that change stored data, one await at a time: object_upload,
    multipart_create, multipart_upload, multipart_complete and multipart_abort
    on a bucket whose versioning is Disabled. A request is at a program counter;
    `TodoAt` is the primitive it awaits there and `RequestAfter` what it does once
    that primitive has returned or raised. */
module Requests {
  import opened Text
  import opened Paths
  import opened Etags
  import opened FileSystems
  import opened Rows
  import opened PartLists
  import opened Locks

  datatype World = World(fs: FileSystem, rows: Tables)

  datatype Kind = PutObject | UploadPart | Complete | Abort | Create

  datatype Pc =
    // main path
    | Start | CheckUploadDir | LoadUpload | LoadListed | CompareListed | Assemble | CompareStored | MeasureStaged
    | AwaitBucket | CheckBucket | Stage | Measure | CheckKey | MakeDirs | CheckTarget | Backup | Upsert | Publish
    | MoveUpload | DropParts | DropUpload | InsertUpload | Commit
    // compensation
    | Rollback | Undo | DropBackup | RestoreUpload | DropStaged
    // leaving the locks, best-effort cleanup
    | TidyLocked | UnlockInner | UnlockOuter | Tidy | TidyUpload | Finished

  datatype Failure = NoSuchUpload | NoSuchBucket | KeyConflict | BadPart | Raised

  /** What a request has left at the path it publishes to. */
  datatype Slot = Before | Gone | New

  /** What the request was called with, and the fresh names it drew. */
  datatype Job = Job(
    kind: Kind, bucket: string, key: string, upload: string, number: nat, body: Bytes, listed: seq<ListedPart>,
    staged: Token, backup: Token, cleanup: Token)

  /** The flags of the source, and which guards have been passed. */
  datatype Flags = Flags(backupCreated: bool, written: bool, moved: bool, verified: bool, inner: bool, committed: bool)

  datatype Locals = Locals(size: nat, etag: string, etags: seq<string>, hashes: seq<string>, pending: Pending)

  /** What the request found and what it left. `targetLost` also decides whether the backup is deleted, which the source
      does in the `else` of the restore's `try`; nothing else is decided on these. */
  datatype Past = Past(
    before: Option<Bytes>, rowBefore: Option<Row>, payload: Bytes, pieces: seq<Bytes>,
    target: Slot, backupHere: bool, stagedHere: bool, displaced: bool,
    targetLost: bool, uploadLost: bool, litter: bool)

  datatype Request = Request(job: Job, pc: Pc, failure: Option<Failure>, flags: Flags, local: Locals, past: Past)

  // ---------- paths and locks of a request ----------

  function TargetPath(j: Job): Path {
    if j.kind.UploadPart? then PartPath(j.upload, j.number) else ObjectPath(j.bucket, j.key)
  }

  function StagedFile(j: Job): Path {
    if j.kind.UploadPart? then StagedPartPath(j.upload, j.number, j.staged) else StagedPath(j.staged)
  }

  function BackupFile(j: Job): Path {
    match j.kind
    case UploadPart => PartBackupPath(j.upload, j.number, j.backup)
    case Complete => ObjectBackupPath(j.backup)
    case _ => StagedPath(j.backup)
  }

  function CleanupDir(j: Job): Path {
    if j.kind.Abort? then AbortedPath(j.upload, j.cleanup) else CompletedPath(j.upload, j.cleanup)
  }

  function TargetObject(j: Job): ObjectId { ObjectId(j.bucket, j.key) }
  function TargetPart(j: Job): PartId { PartId(j.upload, j.number) }

  function TargetRow(t: Tables, j: Job): Option<Row> {
    if j.kind.UploadPart? then PartRow(t, TargetPart(j)) else ObjectRow(t, TargetObject(j))
  }

  /** The locks a request takes, outermost first, all of them WRITE locks. */
  function LockPlan(j: Job): seq<Wish> {
    var bucketLock := Wish(DirectoryResource(BucketPath(j.bucket)), LockType.Write);
    var uploadLock := Wish(DirectoryResource(UploadPath(j.upload)), LockType.Write);
    match j.kind
    case PutObject => [bucketLock]
    case UploadPart => [Wish(LockResource(UploadPath(j.upload), Some(PartFile(j.number))), LockType.Write)]
    case Complete => [uploadLock, bucketLock]
    case Abort => [uploadLock]
    case Create => []
  }

  predicate HoldsOuter(r: Request) {
    !r.job.kind.Create? && !r.pc.Start? && !r.pc.Tidy? && !r.pc.TidyUpload? && !r.pc.Finished?
  }

  function HeldLocks(r: Request): seq<Wish> {
    if !HoldsOuter(r) then []
    else if r.job.kind.Complete? && !r.flags.inner then LockPlan(r.job)[..1]
    else LockPlan(r.job)
  }

  // ---------- the awaited primitive ----------

  datatype Todo = Idle | Disk(op: Operation) | CommitRows | Refused

  function ContentsOf(fs: FileSystem, paths: seq<Path>): Option<seq<Bytes>> {
    if paths == [] then Some([])
    else match (At(fs, paths[0]), ContentsOf(fs, paths[1..]))
      case (Some(data), Some(rest)) => Some([data] + rest)
      case _ => None
  }

  function ListedContents(fs: FileSystem, j: Job): Option<seq<Bytes>> {
    ContentsOf(fs, PathsUpTo(j.upload, j.listed, |j.listed|))
  }

  function AssembleTodo(fs: FileSystem, j: Job): Todo {
    match ListedContents(fs, j)
    case Some(pieces) => Disk(Operation.Write(StagedFile(j), Flatten(pieces)))
    case None => Refused
  }

  function UndoTodo(j: Job, f: Flags): Todo {
    if j.kind.UploadPart? then
      if f.backupCreated then Disk(Move(BackupFile(j), TargetPath(j)))
      else if f.written then Disk(Delete(TargetPath(j)))
      else Idle
    else
      if !f.written then Idle
      else if f.backupCreated then Disk(Copy(BackupFile(j), TargetPath(j)))
      else Disk(Delete(TargetPath(j)))
  }

  function TidyUploadTodo(j: Job, f: Flags): Todo {
    if j.kind.Create? then Disk(RemoveTree(UploadPath(j.upload)))
    else if f.moved then Disk(RemoveTree(CleanupDir(j)))
    else Idle
  }

  /** The primitive awaited at the request's program counter. */
  function TodoAt(fs: FileSystem, r: Request): Todo {
    var j, f := r.job, r.flags;
    match r.pc
    case Stage => Disk(Operation.Write(StagedFile(j), j.body))
    case Assemble => AssembleTodo(fs, j)
    case MakeDirs => Disk(MakeTree(if j.kind.Create? then UploadPath(j.upload) else Parent(ObjectPath(j.bucket, j.key))))
    case Backup => Disk(if j.kind.UploadPart? then Move(TargetPath(j), BackupFile(j)) else Copy(TargetPath(j), BackupFile(j)))
    case Publish => Disk(Move(StagedFile(j), TargetPath(j)))
    case MoveUpload => Disk(MoveTree(UploadPath(j.upload), CleanupDir(j)))
    case Commit => CommitRows
    case Undo => UndoTodo(j, f)
    case DropBackup => if f.backupCreated && !r.past.targetLost then Disk(Delete(BackupFile(j))) else Idle
    case RestoreUpload => if f.moved then Disk(MoveTree(CleanupDir(j), UploadPath(j.upload))) else Idle
    case DropStaged => Disk(Delete(StagedFile(j)))
    case TidyLocked => if f.backupCreated then Disk(Delete(BackupFile(j))) else Idle
    case Tidy => if f.backupCreated then Disk(Delete(BackupFile(j))) else Idle
    case TidyUpload => TidyUploadTodo(j, f)
    case _ => Idle
  }

  /** The environment's answer: the primitive returned, or it raised (a tree removal that raised
      may have unlinked some files first). */
  datatype Outcome = Returned | Fault(gone: set<Path>)

  predicate Succeeds(fs: FileSystem, r: Request, o: Outcome) {
    && o.Returned?
    && match TodoAt(fs, r)
       case Disk(op) => Possible(fs, op)
       case Refused => false
       case _ => true
  }

  function DiskAfter(fs: FileSystem, r: Request, o: Outcome): FileSystem {
    match TodoAt(fs, r)
    case Disk(op) =>
      if Succeeds(fs, r, o) then Perform(fs, op)
      else if op.RemoveTree? && o.Fault? then Prune(fs, op.path, o.gone)
      else fs
    case _ => fs
  }

  function RowsAfter(t: Tables, r: Request, o: Outcome): Tables {
    if r.pc.Commit? && o.Returned? then CommitChanges(t, r.local.pending) else t
  }

  function WorldAfter(w: World, r: Request, o: Outcome): World {
    World(DiskAfter(w.fs, r, o), RowsAfter(w.rows, r, o))
  }

  // ---------- what the request does next ----------

  function Fail(r: Request, f: Failure): Request { r.(pc := Rollback, failure := Some(f)) }

  function Go(r: Request, pc: Pc): Request { r.(pc := pc) }

  /** `load_multipart`. */
  predicate UploadKnown(t: Tables, j: Job) {
    j.upload in t.uploads && t.uploads[j.upload] == UploadRow(j.bucket, j.key)
  }

  /** The key's place is taken: a prefix of it is a file, or it is itself a directory. */
  predicate Blocked(fs: FileSystem, r: Request) {
    && (r.job.kind.PutObject? || r.job.kind.Complete?)
    && (match r.pc
        case MakeDirs => !Possible(fs, MakeTree(Parent(ObjectPath(r.job.bucket, r.job.key))))
        case Publish => IsDir(fs, TargetPath(r.job))
        case _ => false)
  }

  function Snapshot(w: World, r: Request): Request {
    r.(past := r.past.(before := At(w.fs, TargetPath(r.job)), rowBefore := TargetRow(w.rows, r.job)))
  }

  /** The main path: `w` is the world the primitive was awaited in, `ok` whether it returned. */
  function Proceed(w: World, r: Request, ok: bool): Request {
    if r.pc.Start? then AfterFirstLock(w, r)
    else if r.pc.AwaitBucket? then Go(Snapshot(w, r).(flags := r.flags.(inner := true)), CheckBucket)
    else if ok then Advance(w, r)
    else Fail(r, if Blocked(w.fs, r) then KeyConflict else Failure.Raised)
  }

  function AfterFirstLock(w: World, r: Request): Request {
    match r.job.kind
    case PutObject => Go(Snapshot(w, r), CheckBucket)
    case UploadPart => Go(r, CheckUploadDir)
    case Create => Go(r, MakeDirs)
    case _ => Go(r, LoadUpload)
  }

  function Advance(w: World, r: Request): Request {
    match r.pc
    case CheckUploadDir => AfterCheckUploadDir(w.fs, r)
    case LoadUpload => AfterLoadUpload(w, r)
    case LoadListed => AfterLoadListed(w, r)
    case CompareListed => AfterCompareListed(r)
    case Assemble => AfterAssemble(w.fs, r)
    case CompareStored => AfterCompareStored(r)
    case MeasureStaged => AfterMeasureStaged(w.fs, r)
    case CheckBucket => AfterCheckBucket(w.fs, r)
    case Stage => Go(r.(past := r.past.(stagedHere := true, payload := r.job.body)), Measure)
    case Measure => AfterMeasure(w.fs, r)
    case CheckKey => AfterCheckKey(w.fs, r)
    case MakeDirs => Go(r, if r.job.kind.Create? then InsertUpload else CheckTarget)
    case CheckTarget => AfterCheckTarget(w.fs, r)
    case Backup => AfterBackup(r)
    case Upsert => AfterUpsert(w.rows, r)
    case Publish => AfterPublish(r)
    case MoveUpload => Go(r.(flags := r.flags.(moved := true), past := r.past.(displaced := true)), DropParts)
    case DropParts => Pend(r, r.local.pending.(dropParts := PartsOf(w.rows, r.job.upload)), DropUpload)
    case DropUpload => AfterDropUpload(w.rows, r)
    case InsertUpload => Pend(r, r.local.pending.(putUploads := map[r.job.upload := UploadRow(r.job.bucket, r.job.key)]), Commit)
    case Commit => AfterCommit(r)
    case _ => r
  }

  function Pend(r: Request, pending: Pending, pc: Pc): Request {
    r.(pc := pc, local := r.local.(pending := pending))
  }

  function AfterCheckUploadDir(fs: FileSystem, r: Request): Request {
    if r.job.kind.UploadPart?
    then (if IsDir(fs, UploadPath(r.job.upload)) then Go(r, LoadUpload) else Fail(r, NoSuchUpload))
    else Go(r, if IsDir(fs, UploadPath(r.job.upload)) then MoveUpload else DropParts)
  }

  function AfterLoadUpload(w: World, r: Request): Request {
    if !UploadKnown(w.rows, r.job) then Fail(r, NoSuchUpload)
    else
      var r' := r.(flags := r.flags.(verified := true));
      match r.job.kind
      case UploadPart => Go(Snapshot(w, r'), Stage)
      case Complete => Go(r', LoadListed)
      case _ => Go(r', CheckUploadDir)
  }

  function AfterLoadListed(w: World, r: Request): Request {
    match LoadParts(w.rows, w.fs, r.job.upload, r.job.listed)
    case Loaded(_, etags) => r.(pc := CompareListed, local := r.local.(etags := etags))
    case Faulty(_) => Fail(r, BadPart)
  }

  predicate ListedMatch(listed: seq<ListedPart>, etags: seq<string>) {
    |etags| == |listed| && forall i :: 0 <= i < |listed| ==> listed[i].etag == etags[i]
  }

  function AfterCompareListed(r: Request): Request {
    if ListedMatch(r.job.listed, r.local.etags) then Go(r, Assemble) else Fail(r, BadPart)
  }

  function AfterAssemble(fs: FileSystem, r: Request): Request {
    match ListedContents(fs, r.job)
    case Some(pieces) =>
      r.(pc := CompareStored, local := r.local.(hashes := ContentEtags(pieces)),
         past := r.past.(stagedHere := true, pieces := pieces, payload := Flatten(pieces)))
    case None => Fail(r, Failure.Raised)
  }

  function AfterCompareStored(r: Request): Request {
    if r.local.etags == r.local.hashes then Go(r, MeasureStaged) else Fail(r, BadPart)
  }

  function AfterMeasureStaged(fs: FileSystem, r: Request): Request {
    match At(fs, StagedFile(r.job))
    case Some(data) => r.(pc := AwaitBucket, local := r.local.(size := |data|))
    case None => Fail(r, Failure.Raised)
  }

  function AfterCheckBucket(fs: FileSystem, r: Request): Request {
    if !IsDir(fs, BucketPath(r.job.bucket)) then Fail(r, NoSuchBucket)
    else Go(r, if r.job.kind.PutObject? then Stage else CheckKey)
  }

  function AfterMeasure(fs: FileSystem, r: Request): Request {
    match At(fs, StagedFile(r.job))
    case Some(data) =>
      r.(pc := if r.job.kind.UploadPart? then CheckTarget else CheckKey,
         local := r.local.(size := |data|, etag := ContentEtag(data)))
    case None => Fail(r, Failure.Raised)
  }

  function AfterCheckKey(fs: FileSystem, r: Request): Request {
    if IsDir(fs, TargetPath(r.job)) then Fail(r, KeyConflict) else Go(r, MakeDirs)
  }

  function AfterCheckTarget(fs: FileSystem, r: Request): Request {
    Go(r, if IsFile(fs, TargetPath(r.job)) then Backup else if r.job.kind.UploadPart? then Publish else Upsert)
  }

  function AfterBackup(r: Request): Request {
    var r' := r.(flags := r.flags.(backupCreated := true));
    if r.job.kind.UploadPart?
    then Go(r'.(past := r.past.(backupHere := true, target := Gone)), Publish)
    else Go(r'.(past := r.past.(backupHere := true)), Upsert)
  }

  function AfterUpsert(t: Tables, r: Request): Request {
    var l := r.local;
    match r.job.kind
    case UploadPart =>
      if r.job.upload !in t.uploads then Fail(r, Failure.Raised)
      else Pend(r, l.pending.(putParts := map[TargetPart(r.job) := Row(l.size, l.etag)]), Commit)
    case PutObject => Pend(r, l.pending.(putObjects := map[TargetObject(r.job) := Row(l.size, l.etag)]), Publish)
    case _ =>
      match ConstructEtag(l.etags)
      case Some(etag) =>
        Pend(r.(local := l.(etag := etag)), l.pending.(putObjects := map[TargetObject(r.job) := Row(l.size, etag)]), Publish)
      case None => Fail(r, Failure.Raised)
  }

  function AfterPublish(r: Request): Request {
    Go(r.(flags := r.flags.(written := true), past := r.past.(target := New, stagedHere := false)),
       match r.job.kind case UploadPart => Upsert case PutObject => Commit case _ => MoveUpload)
  }

  /** The foreign key of a part row that is still there refuses the deletion. */
  function AfterDropUpload(t: Tables, r: Request): Request {
    if PartsOf(t, r.job.upload) <= r.local.pending.dropParts
    then Pend(r, r.local.pending.(dropUploads := {r.job.upload}), Commit)
    else Fail(r, Failure.Raised)
  }

  function AfterCommit(r: Request): Request {
    Go(r.(flags := r.flags.(committed := true)),
       match r.job.kind case UploadPart => TidyLocked case Complete => UnlockInner case Create => Finished case _ => UnlockOuter)
  }

  /** Compensation, unlocking and best-effort cleanup: errors are logged and the sequence goes on. */
  function Recover(r: Request, idle: bool, ok: bool): Request {
    match r.pc
    case Rollback =>
      Pend(r, NO_CHANGES, match r.job.kind case Abort => RestoreUpload case Create => TidyUpload case _ => Undo)
    case Undo => AfterUndo(Go(r, if r.job.kind.UploadPart? then DropStaged else DropBackup), idle, ok)
    case DropBackup => AfterDroppingBackup(Go(r, if r.job.kind.Complete? then RestoreUpload else DropStaged), idle, ok)
    case RestoreUpload => AfterRestoreUpload(Go(r, if r.job.kind.Complete? then DropStaged else UnlockOuter), ok)
    case DropStaged => AfterDropStaged(Go(r, if r.flags.inner then UnlockInner else UnlockOuter), ok)
    case TidyLocked => AfterDroppingBackup(Go(r, UnlockOuter), idle, ok)
    case UnlockInner => Go(r.(flags := r.flags.(inner := false)), UnlockOuter)
    case UnlockOuter =>
      Go(r, if r.failure.Some? || r.job.kind.UploadPart? then Finished else if r.job.kind.Abort? then TidyUpload else Tidy)
    case Tidy => AfterDroppingBackup(Go(r, if r.job.kind.Complete? then TidyUpload else Finished), idle, ok)
    case TidyUpload => AfterTidyUpload(Go(r, Finished), idle, ok)
    case _ => r
  }

  function AfterUndo(r: Request, idle: bool, ok: bool): Request {
    if idle then r
    else if !ok then r.(past := r.past.(targetLost := true))
    else r.(past := r.past.(target := Before, backupHere := r.past.backupHere && !r.job.kind.UploadPart?))
  }

  function AfterDroppingBackup(r: Request, idle: bool, ok: bool): Request {
    if idle then r else if ok then r.(past := r.past.(backupHere := false)) else r.(past := r.past.(litter := true))
  }

  function AfterRestoreUpload(r: Request, ok: bool): Request {
    if !r.flags.moved then r
    else if ok then r.(flags := r.flags.(moved := !r.job.kind.Abort?), past := r.past.(displaced := false))
    else r.(past := r.past.(uploadLost := true))
  }

  function AfterDropStaged(r: Request, ok: bool): Request {
    if ok then r.(past := r.past.(stagedHere := false)) else r.(past := r.past.(litter := true))
  }

  function AfterTidyUpload(r: Request, idle: bool, ok: bool): Request {
    if idle then r else if ok then r.(past := r.past.(displaced := false)) else r.(past := r.past.(litter := true))
  }

  predicate OnMainPath(pc: Pc) {
    !pc.Rollback? && !pc.Undo? && !pc.DropBackup? && !pc.RestoreUpload? && !pc.DropStaged?
    && !pc.TidyLocked? && !pc.UnlockInner? && !pc.UnlockOuter? && !pc.Tidy? && !pc.TidyUpload? && !pc.Finished?
  }

  function RequestAfter(w: World, r: Request, o: Outcome): Request {
    if OnMainPath(r.pc) then Proceed(w, r, Succeeds(w.fs, r, o))
    else Recover(r, TodoAt(w.fs, r).Idle?, Succeeds(w.fs, r, o))
  }

  function Step(w: World, r: Request, o: Outcome): (World, Request) {
    (WorldAfter(w, r, o), RequestAfter(w, r, o))
  }

  const NO_FLAGS := Flags(false, false, false, false, false, false)
  const NOTHING_DONE := Past(None, None, [], [], Before, false, false, false, false, false, false)

  /** A request as it enters its service. */
  function NewRequest(j: Job): Request {
    Request(j, Start, None, NO_FLAGS, Locals(0, "", [], [], NO_CHANGES), NOTHING_DONE)
  }
}
