/** Everything a request's records say about the world, at every program counter: its
    shape and values, its target, its private files, its upload's directory and rows,
    and the parts it has listed and assembled. Each of its own steps keeps all of it
    true. */
module Records {
  import opened Text
  import opened Paths
  import opened Etags
  import opened FileSystems
  import opened Rows
  import opened PartLists
  import opened Requests
  import opened Shapes
  import opened Footprints
  import opened Ownership

  ghost predicate CreateHasDir(fs: FileSystem, r: Request) {
    r.job.kind.Create? && (r.pc.InsertUpload? || r.pc.Commit?) ==> UploadPath(r.job.upload) in fs.dirs
  }

  /** Where the parts of a completing upload are: in its directory until that is moved aside. */
  function PartsHome(r: Request): Path { if r.past.displaced then CleanupDir(r.job) else UploadPath(r.job.upload) }

  function NumberAt(j: Job, i: nat): nat
    requires i < |j.listed|
  {
    ListedId(j.upload, j.listed[i]).number
  }

  /** The listed parts are in order, known, large enough, and `etags` are their stored ETags. */
  ghost predicate ListedRows(t: Tables, j: Job, etags: seq<string>) {
    && |etags| == |j.listed|
    && forall i :: 0 <= i < |j.listed| ==> ListedRow(t, j, etags, i)
  }

  ghost predicate ListedRow(t: Tables, j: Job, etags: seq<string>, i: nat)
    requires i < |j.listed| && |etags| == |j.listed|
  {
    && 0 <= Previous(j.listed, i) < j.listed[i].number <= PART_NUMBER_MAX
    && match PartRow(t, PartId(j.upload, NumberAt(j, i)))
       case None => false
       case Some(row) => etags[i] == row.etag && (i < |j.listed| - 1 ==> row.size >= PART_SIZE_MIN_BYTES)
  }

  /** `pieces` are the contents of the listed parts' files below `home`. */
  ghost predicate PiecesAt(fs: FileSystem, j: Job, home: Path, pieces: seq<Bytes>) {
    |pieces| == |j.listed| && forall i :: 0 <= i < |pieces| ==> At(fs, home + [PartFile(NumberAt(j, i))]) == Some(pieces[i])
  }

  ghost predicate AssemblyAgrees(w: World, r: Request) {
    r.job.kind.Complete? && OnMainPath(r.pc) ==>
      && (CompletePos(r.pc) > 2 ==> ListedRows(w.rows, r.job, r.local.etags))
      && (CompletePos(r.pc) > 4 ==> PiecesAt(w.fs, r.job, PartsHome(r), r.past.pieces))
  }

  ghost predicate Recorded(w: World, r: Request) {
    && ProperJob(r.job) && Shape(r) && Values(r) && Agrees(w, r) && UploadAgrees(w, r)
    && Unseen(w.fs, r) && CreateHasDir(w.fs, r) && AssemblyAgrees(w, r)
  }

  // ---------- the pieces and the listed rows ----------

  lemma {:induction false} ContentsAre(fs: FileSystem, paths: seq<Path>, pieces: seq<Bytes>)
    requires ContentsOf(fs, paths) == Some(pieces)
    ensures |pieces| == |paths| && forall i :: 0 <= i < |pieces| ==> At(fs, paths[i]) == Some(pieces[i])
  {
    if paths != [] {
      ContentsAre(fs, paths[1..], pieces[1..]);
      assert forall i :: 0 < i < |pieces| ==> paths[i] == paths[1..][i - 1] && pieces[i] == pieces[1..][i - 1];
    }
  }

  lemma AssembledPieces(fs: FileSystem, j: Job, pieces: seq<Bytes>)
    requires ListedContents(fs, j) == Some(pieces)
    ensures PiecesAt(fs, j, UploadPath(j.upload), pieces)
  {
    var paths := PathsUpTo(j.upload, j.listed, |j.listed|);
    ContentsAre(fs, paths, pieces);
    forall i | 0 <= i < |pieces| ensures At(fs, UploadPath(j.upload) + [PartFile(NumberAt(j, i))]) == Some(pieces[i]) {
      assert paths[i] == PartPath(j.upload, NumberAt(j, i));
    }
  }

  lemma LoadedRows(w: World, j: Job, etags: seq<string>)
    requires LoadParts(w.rows, w.fs, j.upload, j.listed).Loaded? && etags == LoadParts(w.rows, w.fs, j.upload, j.listed).etags
    ensures ListedRows(w.rows, j, etags)
  {
    var n := LoadPartsCharacterized(w.rows, w.fs, j.upload, j.listed);
    forall i | 0 <= i < |j.listed| ensures ListedRow(w.rows, j, etags, i) {
      assert GoodAt(w.rows, w.fs, j.upload, j.listed, i);
      assert etags[i] == StoredRow(w.rows, j.upload, j.listed[i]).etag;
    }
  }

  lemma PiecesUntouched(fs: FileSystem, fs': FileSystem, j: Job, home: Path, pieces: seq<Bytes>)
    requires PiecesAt(fs, j, home, pieces)
    requires forall p :: home <= p ==> At(fs', p) == At(fs, p)
    ensures PiecesAt(fs', j, home, pieces)
  {
  }

  lemma PiecesMoved(fs: FileSystem, j: Job, s: Path, d: Path, pieces: seq<Bytes>)
    requires WellFormed(fs) && Possible(fs, MoveTree(s, d)) && PiecesAt(fs, j, s, pieces)
    ensures PiecesAt(Perform(fs, MoveTree(s, d)), j, d, pieces)
  {
  }

  lemma ListedRowsKept(t: Tables, t': Tables, j: Job, etags: seq<string>)
    requires ListedRows(t, j, etags)
    requires forall id: PartId :: id.upload == j.upload ==> PartRow(t', id) == PartRow(t, id)
    ensures ListedRows(t', j, etags)
  {
    forall i | 0 <= i < |j.listed| ensures ListedRow(t', j, etags, i) {
      assert ListedRow(t, j, etags, i);
      assert PartId(j.upload, NumberAt(j, i)).upload == j.upload;
    }
  }

  /** The facts about the assembly speak of these fields only. */
  ghost predicate SameAssembly(r: Request, r': Request) {
    && r'.job == r.job
    && (r.job.kind.Complete? && OnMainPath(r'.pc) ==>
          && OnMainPath(r.pc) && r'.past.displaced == r.past.displaced
          && (CompletePos(r'.pc) > 2 ==> CompletePos(r.pc) > 2 && r'.local.etags == r.local.etags)
          && (CompletePos(r'.pc) > 4 ==> CompletePos(r.pc) > 4 && r'.past.pieces == r.past.pieces))
  }

  lemma AssemblyUnmoved(w: World, r: Request, w': World, r': Request)
    requires AssemblyAgrees(w, r) && SameAssembly(r, r')
    requires forall p :: UploadPath(r.job.upload) <= p || CleanupDir(r.job) <= p ==> At(w'.fs, p) == At(w.fs, p)
    requires forall id: PartId :: id.upload == r.job.upload ==> PartRow(w'.rows, id) == PartRow(w.rows, id)
    ensures AssemblyAgrees(w', r')
  {
    if r.job.kind.Complete? && OnMainPath(r'.pc) {
      if CompletePos(r'.pc) > 2 { ListedRowsKept(w.rows, w'.rows, r.job, r.local.etags); }
      if CompletePos(r'.pc) > 4 { PiecesUntouched(w.fs, w'.fs, r.job, PartsHome(r), r.past.pieces); }
    }
  }

  lemma EarlyAssemblyKept(w: World, r: Request)
    requires r.job.kind.Complete? && CompleteMain(r) && 0 < CompletePos(r.pc) <= 6 && !r.pc.LoadListed? && !r.pc.Assemble?
    ensures SameAssembly(r, Advance(w, r))
  {
  }

  lemma LateAssemblyKept(w: World, r: Request)
    requires r.job.kind.Complete? && CompleteMain(r) && 7 < CompletePos(r.pc) && !r.pc.MoveUpload? && !r.pc.Commit?
    ensures SameAssembly(r, Advance(w, r))
  {
  }

  lemma FirstLockAssemblyKept(w: World, r: Request)
    requires r.job.kind.Complete? && CompleteMain(r) && (r.pc.Start? || r.pc.AwaitBucket?)
    ensures SameAssembly(r, Proceed(w, r, true))
  {
  }

  lemma QuietAssembly(w: World, r: Request)
    requires r.job.kind.Complete? && Shape(r) && AssemblyAgrees(w, r) && OnMainPath(r.pc)
    requires 0 < CompletePos(r.pc) && !r.pc.AwaitBucket? && !r.pc.MoveUpload? && !r.pc.Commit? && !r.pc.Assemble?
    ensures AssemblyAgrees(w, Advance(w, r))
  {
    if r.pc.LoadListed? {
      var loaded := LoadParts(w.rows, w.fs, r.job.upload, r.job.listed);
      if loaded.Loaded? { LoadedRows(w, r.job, loaded.etags); }
    } else {
      if CompletePos(r.pc) <= 6 { EarlyAssemblyKept(w, r); } else { LateAssemblyKept(w, r); }
      AssemblyUnmoved(w, r, w, Advance(w, r));
    }
  }

  lemma PublishingAssembly(w: World, r: Request, op: Operation)
    requires r.job.kind.Complete? && ProperJob(r.job) && Shape(r) && AssemblyAgrees(w, r) && OnMainPath(r.pc) && WellFormed(w.fs)
    requires TodoAt(w.fs, r) == Disk(op) && Possible(w.fs, op) && !IsTreeOp(op)
    ensures AssemblyAgrees(w.(fs := Perform(w.fs, op)), Advance(w, r))
  {
    var w' := w.(fs := Perform(w.fs, op));
    forall p | UploadPath(r.job.upload) <= p || CleanupDir(r.job) <= p ensures At(w'.fs, p) == At(w.fs, p) {
      PublishingSparesUpload(w.fs, r, op, p);
      UntouchedStays(w.fs, op, p);
    }
    if r.pc.Assemble? {
      var pieces := ListedContents(w.fs, r.job).value;
      AssembledPieces(w.fs, r.job, pieces);
      PiecesUntouched(w.fs, w'.fs, r.job, UploadPath(r.job.upload), pieces);
    } else {
      LateAssemblyKept(w, r);
      AssemblyUnmoved(w, r, w', Advance(w, r));
    }
  }

  lemma MovingAssembly(w: World, r: Request)
    requires r.job.kind.Complete? && Shape(r) && AssemblyAgrees(w, r) && r.pc.MoveUpload? && WellFormed(w.fs)
    requires Possible(w.fs, MoveTree(UploadPath(r.job.upload), CleanupDir(r.job)))
    ensures AssemblyAgrees(w.(fs := Perform(w.fs, MoveTree(UploadPath(r.job.upload), CleanupDir(r.job)))), Advance(w, r))
  {
    PiecesMoved(w.fs, r.job, UploadPath(r.job.upload), CleanupDir(r.job), r.past.pieces);
  }

  lemma OffMainPathStays(w: World, r: Request, ok: bool, idle: bool)
    requires r.job.kind.Complete? && Shape(r)
    ensures !OnMainPath(r.pc) ==> !OnMainPath(Recover(r, idle, ok).pc)
    ensures r.pc.Commit? ==> !OnMainPath(Advance(w, r).pc)
  {
  }

  lemma MainAssemblyAgrees(w: World, r: Request, o: Outcome)
    requires WellFormed(w.fs) && ProperJob(r.job) && Shape(r) && AssemblyAgrees(w, r)
    requires r.job.kind.Complete? && OnMainPath(r.pc) && !r.pc.Commit?
    ensures AssemblyAgrees(WorldAfter(w, r, o), RequestAfter(w, r, o))
  {
    StepByAnswer(w, r, o);
    var todo := TodoAt(w.fs, r);
    if r.pc.Start? || r.pc.AwaitBucket? {
      FirstLockAssemblyKept(w, r);
      AssemblyUnmoved(w, r, w, Proceed(w, r, true));
    } else if !Succeeds(w.fs, r, o) {
    } else if r.pc.MoveUpload? {
      MovingAssembly(w, r);
    } else if todo.Disk? {
      PublishingAssembly(w, r, todo.op);
    } else {
      QuietAssembly(w, r);
    }
  }

  /** Completing keeps the listed rows and the pieces in step with the database and the part files. */
  lemma OwnAssemblyAgrees(w: World, r: Request, o: Outcome)
    requires WellFormed(w.fs) && ProperJob(r.job) && Shape(r) && AssemblyAgrees(w, r)
    ensures AssemblyAgrees(WorldAfter(w, r, o), RequestAfter(w, r, o))
  {
    if r.job.kind.Complete? {
      StepByAnswer(w, r, o);
      OffMainPathStays(w, r, Succeeds(w.fs, r, o), TodoAt(w.fs, r).Idle?);
      if OnMainPath(r.pc) && !r.pc.Commit? {
        MainAssemblyAgrees(w, r, o);
      }
    }
  }

  // ---------- part uploads and new uploads ----------

  lemma AdvanceSameJob(w: World, r: Request)
    ensures Advance(w, r).job == r.job
  {
  }

  lemma RecoverSameJob(r: Request, idle: bool, ok: bool)
    ensures Recover(r, idle, ok).job == r.job
  {
  }

  lemma SameJob(w: World, r: Request, o: Outcome)
    ensures RequestAfter(w, r, o).job == r.job
  {
    AdvanceSameJob(w, r);
    RecoverSameJob(r, TodoAt(w.fs, r).Idle?, Succeeds(w.fs, r, o));
  }

  lemma PartKeepsTarget(w: World, r: Request, o: Outcome)
    requires r.job.kind.UploadPart? && Shape(r) && !r.pc.LoadUpload?
    ensures OwnsTarget(RequestAfter(w, r, o)) ==> OwnsTarget(r)
  {
  }

  lemma PartFindsUpload(w: World, r: Request)
    requires r.job.kind.UploadPart? && r.pc.LoadUpload? && PartMain(r)
    ensures UploadAgrees(w, Advance(w, r))
  {
  }

  lemma PartRecordsUpload(w: World, r: Request, o: Outcome)
    requires r.job.kind.UploadPart? && Shape(r) && Values(r) && UploadAgrees(w, r)
    ensures UploadAgrees(WorldAfter(w, r, o), RequestAfter(w, r, o))
  {
    SameJob(w, r, o);
    if r.pc.Commit? { CommitPending(r); }
    if r.pc.LoadUpload? {
      StepByAnswer(w, r, o);
      PartFindsUpload(w, r);
      assert Shape(r) && MainShape(r);
    } else {
      PartKeepsTarget(w, r, o);
    }
  }

  lemma CreateRecordsUpload(w: World, r: Request, o: Outcome)
    requires r.job.kind.Create? && Shape(r) && Values(r) && UploadAgrees(w, r) && CreateHasDir(w.fs, r)
    ensures UploadAgrees(WorldAfter(w, r, o), RequestAfter(w, r, o))
    ensures CreateHasDir(WorldAfter(w, r, o).fs, RequestAfter(w, r, o))
  {
  }

  lemma UnverifiedWritesNothing(w: World, r: Request, o: Outcome)
    requires r.job.kind.UploadPart? && Shape(r)
    ensures !RequestAfter(w, r, o).flags.verified ==> !r.flags.verified && WorldAfter(w, r, o).fs.files.Keys <= w.fs.files.Keys
  {
  }

  lemma UnseenNames(fs: FileSystem, r: Request)
    requires Unseen(fs, r)
    ensures Undisturbed(fs, r) || r.flags.verified
  {
  }

  /** What the request finds is what its records say. */
  lemma RecordedFinds(w: World, r: Request)
    requires Recorded(w, r)
    ensures Finds(w.fs, r) && Undisturbed(w.fs, r)
  {
    UnseenNames(w.fs, r);
  }

  /** A request's own step keeps everything its records say. */
  lemma OwnStepKeepsRecords(w: World, r: Request, o: Outcome)
    requires WellFormed(w.fs) && Recorded(w, r)
    requires Ends(r.job.kind) && r.pc.LoadUpload? && UploadKnown(w.rows, r.job) ==> UploadPath(r.job.upload) !in w.fs.files
    ensures Recorded(WorldAfter(w, r, o), RequestAfter(w, r, o))
  {
    var w', r' := WorldAfter(w, r, o), RequestAfter(w, r, o);
    RecordedFinds(w, r);
    SameJob(w, r, o);
    StepKeepsShape(w, r, o);
    StepKeepsValues(w, r, o);
    OwnStepAgrees(w, r, o);
    OwnAssemblyAgrees(w, r, o);
    match r.job.kind
    case PutObject =>
    case UploadPart =>
      PartRecordsUpload(w, r, o);
      UnverifiedWritesNothing(w, r, o);
    case Create => CreateRecordsUpload(w, r, o);
    case _ => OwnEndingAgrees(w, r, o);
  }

}
