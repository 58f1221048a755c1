/** What a request comes to when no primitive raises, read off the state it starts in. */
module Verdicts {
  import opened Text
  import opened Paths
  import opened Etags
  import opened FileSystems
  import opened Rows
  import opened PartLists
  import opened Requests
  import opened Shapes
  import opened Footprints
  import opened Ownership
  import opened Records
  import opened Server
  import opened Uploads
  import opened Runs
  import opened Atomicity
  import opened Progress
  import opened Solo

  // ---------- what a starting state says ----------

  /** The upload is there, and was started for this bucket and key. */
  predicate Started(t: Tables, j: Job) {
    j.upload in t.uploads && t.uploads[j.upload].bucket == j.bucket && t.uploads[j.upload].key == j.key
  }

  /** A part is listed with the ETag recorded for it. */
  predicate ListedAsRecorded(t: Tables, j: Job, i: nat)
    requires i < |j.listed|
  {
    var id := ListedId(j.upload, j.listed[i]);
    id in t.parts && j.listed[i].etag == t.parts[id].etag
  }

  /** A part is listed with the ETag of its bytes. */
  ghost predicate ListedAsStored(fs: FileSystem, j: Job, i: nat)
    requires i < |j.listed|
  {
    var p := PartPath(j.upload, ListedId(j.upload, j.listed[i]).number);
    p in fs.files && j.listed[i].etag == ContentEtag(fs.files[p])
  }

  /** The listed parts are in order, there, large enough, and listed with their recorded and actual ETags. */
  ghost predicate GoodList(w: World, j: Job) {
    && GoodUpTo(w.rows, w.fs, j.upload, j.listed, |j.listed|)
    && forall i :: 0 <= i < |j.listed| ==> ListedAsRecorded(w.rows, j, i) && ListedAsStored(w.fs, j, i)
  }

  /** A stored object has a directory's place on the way to the key. */
  ghost predicate Obstructed(fs: FileSystem, j: Job) {
    exists p :: p in fs.files && BucketPath(j.bucket) < p < ObjectPath(j.bucket, j.key)
  }

  /** Why an object cannot be put at its key. */
  ghost function PlaceVerdict(fs: FileSystem, j: Job): Option<Failure> {
    if BucketPath(j.bucket) !in fs.dirs then Some(NoSuchBucket)
    else if ObjectPath(j.bucket, j.key) in fs.dirs || Obstructed(fs, j) then Some(KeyConflict)
    else None
  }

  /** What the service fails with, if it does. */
  ghost function Verdict(w: World, j: Job): Option<Failure> {
    match j.kind
    case PutObject => PlaceVerdict(w.fs, j)
    case UploadPart =>
      if UploadPath(j.upload) !in w.fs.dirs || !Started(w.rows, j) then Some(NoSuchUpload)
      else if PartPath(j.upload, j.number) in w.fs.dirs then Some(Failure.Raised)
      else None
    case Complete =>
      if !Started(w.rows, j) then Some(NoSuchUpload)
      else if !GoodList(w, j) then Some(BadPart)
      else if PlaceVerdict(w.fs, j).Some? then PlaceVerdict(w.fs, j)
      else if UploadPath(j.upload) !in w.fs.dirs then Some(Failure.Raised)
      else None
    case Abort => if Started(w.rows, j) then None else Some(NoSuchUpload)
    case Create => None
  }

  /** The staged and backup names are not taken by directories. */
  ghost predicate PrivateRoom(fs: FileSystem, j: Job) {
    Publishes(j.kind) ==> StagedFile(j) !in fs.dirs && BackupFile(j) !in fs.dirs
  }

  /** The ended upload holds no directory, so that the removal of its files leaves it empty. */
  ghost predicate Flat(fs: FileSystem, j: Job) {
    Ends(j.kind) ==> forall p :: p in fs.dirs ==> !(UploadPath(j.upload) < p)
  }

  // ---------- the guards that have been passed ----------

  ghost predicate PlacePassed(fs: FileSystem, j: Job, bucket: bool, key: bool, tree: bool) {
    && (bucket ==> BucketPath(j.bucket) in fs.dirs)
    && (key ==> ObjectPath(j.bucket, j.key) !in fs.dirs)
    && (tree ==> !Obstructed(fs, j))
  }

  ghost predicate ListPassed(w: World, j: Job, loaded: bool, compared: bool, assembled: bool) {
    && (loaded ==> GoodUpTo(w.rows, w.fs, j.upload, j.listed, |j.listed|))
    && (compared ==> forall i :: 0 <= i < |j.listed| ==> ListedAsRecorded(w.rows, j, i))
    && (assembled ==> forall i :: 0 <= i < |j.listed| ==> ListedAsStored(w.fs, j, i))
  }

  ghost predicate Passed(w0: World, r: Request) {
    var j := r.job;
    match j.kind
    case PutObject => var p := PutPos(r.pc); PlacePassed(w0.fs, j, p > 1, p > 4, p > 5)
    case UploadPart =>
      var p := PartPos(r.pc);
      && (p > 1 ==> UploadPath(j.upload) in w0.fs.dirs) && (p > 2 ==> Started(w0.rows, j))
      && (p > 7 ==> PartPath(j.upload, j.number) !in w0.fs.dirs)
    case Complete =>
      var p := CompletePos(r.pc);
      && (p > 1 ==> Started(w0.rows, j)) && ListPassed(w0, j, p > 2, p > 3, p > 5)
      && PlacePassed(w0.fs, j, p > 8, p > 9, p > 10) && (p > 15 ==> UploadPath(j.upload) in w0.fs.dirs)
    case Abort => (AbortPos(r.pc) > 1 ==> Started(w0.rows, j)) && (r.pc.MoveUpload? ==> UploadPath(j.upload) in w0.fs.dirs)
    case Create => true
  }

  /** The guards passed so far hold of the starting state, and a failure is its verdict. */
  ghost predicate Decided(w0: World, r: Request) {
    if OnMainPath(r.pc) then Passed(w0, r) else r.failure == Verdict(w0, r.job)
  }

  // ---------- the directories on the way ----------

  predicate BeforeTree(r: Request) {
    OnMainPath(r.pc) && (r.job.kind.PutObject? ==> PutPos(r.pc) <= 5) && (r.job.kind.Complete? ==> CompletePos(r.pc) <= 10)
  }

  ghost predicate SameDirs(fs0: FileSystem, fs: FileSystem, top: Path) {
    forall p :: top <= p ==> (p in fs.dirs <==> p in fs0.dirs)
  }

  ghost predicate ObjectRoom(fs0: FileSystem, fs: FileSystem, r: Request) {
    && (BeforeTree(r) ==> SameDirs(fs0, fs, BUCKETS_DIR))
    && (OnMainPath(r.pc) && !BeforeTree(r) ==> TargetPath(r.job) !in fs.dirs && Parent(TargetPath(r.job)) in fs.dirs)
  }

  /** Where the upload's directories are. */
  ghost predicate UploadRoom(fs0: FileSystem, fs: FileSystem, r: Request) {
    var up, aside := UploadPath(r.job.upload), CleanupDir(r.job);
    if r.past.displaced then forall p :: aside <= p ==> (p in fs.dirs <==> up + p[|aside|..] in fs0.dirs)
    else !r.flags.committed ==> SameDirs(fs0, fs, up)
  }

  ghost predicate Room(w0: World, w: World, r: Request) {
    && PrivateRoom(w.fs, r.job)
    && (r.job.kind.PutObject? || r.job.kind.Complete? ==> ObjectRoom(w0.fs, w.fs, r))
    && (r.job.kind.UploadPart? ==> w.fs.dirs == w0.fs.dirs)
    && (Ends(r.job.kind) ==> UploadRoom(w0.fs, w.fs, r))
    && (r.failure.Some? ==> !r.flags.moved)
  }

  // ---------- what is possible on the main path ----------

  lemma ProperPrefix(p: Path, q: Path)
    requires p < q
    ensures p <= Parent(q)
  {
  }

  lemma BelowTheBucket(fs: FileSystem, j: Job, q: Path)
    requires WellFormed(fs) && BucketPath(j.bucket) in fs.dirs && q in fs.files && q <= Parent(ObjectPath(j.bucket, j.key))
    ensures BucketPath(j.bucket) < q < ObjectPath(j.bucket, j.key)
  {
    var b := BucketPath(j.bucket);
    if |q| <= |b| {
      assert q == ObjectPath(j.bucket, j.key)[..|q|] == b[..|q|];
      if |q| < |b| { PrefixOfEntry(fs, b, |q|); }
    }
  }

  lemma TreePossible(fs0: FileSystem, fs: FileSystem, j: Job)
    requires WellFormed(fs) && BucketPath(j.bucket) in fs.dirs
    requires forall p :: BUCKETS_DIR <= p && p != ObjectPath(j.bucket, j.key) ==> At(fs, p) == At(fs0, p)
    ensures Possible(fs, MakeTree(Parent(ObjectPath(j.bucket, j.key)))) <==> !Obstructed(fs0, j)
  {
    var target := ObjectPath(j.bucket, j.key);
    if Obstructed(fs0, j) {
      var p :| p in fs0.files && BucketPath(j.bucket) < p < target;
      ProperPrefix(p, target);
      assert BUCKETS_DIR <= BucketPath(j.bucket) <= p;
      assert At(fs, p) == At(fs0, p);
    }
    forall q | q in fs.files && q <= Parent(target) ensures Obstructed(fs0, j) {
      BelowTheBucket(fs, j, q);
      assert BUCKETS_DIR <= BucketPath(j.bucket) <= q;
      assert At(fs, q) == At(fs0, q);
    }
  }

  /** A staged or backup file of an object can be written: its directory is the tmp directory. */
  lemma PrivatePlaced(fs: FileSystem, j: Job)
    requires Mounted(fs) && PrivateRoom(fs, j) && (j.kind.PutObject? || j.kind.Complete?)
    ensures CanPlace(fs, StagedFile(j)) && CanPlace(fs, BackupFile(j))
  {
    assert Parent(StagedFile(j)) == TMP_DIR && Parent(BackupFile(j)) == TMP_DIR;
  }

  lemma RestBelowBuckets(w0: World, w: World, r: Request)
    requires RestNow(w0, w, r) && (r.job.kind.PutObject? || r.job.kind.Complete?)
    ensures forall p :: BUCKETS_DIR <= p && p != TargetPath(r.job) ==> At(w.fs, p) == At(w0.fs, p)
  {
    forall p | BUCKETS_DIR <= p && p != TargetPath(r.job) ensures At(w.fs, p) == At(w0.fs, p) {
      assert p[0] == Plain("buckets");
      assert !Reaches(r.job, p);
    }
  }

  /** The file about to be backed up or published is there. */
  lemma SourceIsThere(w: World, r: Request)
    requires Recorded(w, r) && Publishes(r.job.kind)
    ensures r.pc.Backup? ==> TargetPath(r.job) in w.fs.files
    ensures r.pc.Publish? ==> StagedFile(r.job) in w.fs.files
  {
  }

  /** On the way to its target, an object's request is only stopped by an object in the place of a directory. */
  lemma ObjectPossible(w0: World, w: World, r: Request)
    requires SoloLedger(w0, w, r) && Room(w0, w, r) && Passed(w0, r) && (r.job.kind.PutObject? || r.job.kind.Complete?)
    requires r.pc.Stage? || r.pc.MakeDirs? || r.pc.Backup? || r.pc.Publish?
    ensures Succeeds(w.fs, r, Returned) <==> !(r.pc.MakeDirs? && Obstructed(w0.fs, r.job))
  {
    if r.pc.MakeDirs? {
      RestBelowBuckets(w0, w, r);
      TreeSucceeds(w0, w, r);
    } else {
      SourceIsThere(w, r);
      FileSucceeds(w0.fs, w.fs, r);
    }
  }

  lemma FileSucceeds(fs0: FileSystem, fs: FileSystem, r: Request)
    requires Mounted(fs) && PrivateRoom(fs, r.job) && ObjectRoom(fs0, fs, r) && (r.job.kind.PutObject? || r.job.kind.Complete?)
    requires r.pc.Stage? || (r.pc.Backup? && TargetPath(r.job) in fs.files) || (r.pc.Publish? && StagedFile(r.job) in fs.files)
    ensures Succeeds(fs, r, Returned)
  {
    PrivatePlaced(fs, r.job);
  }

  lemma TreeSucceeds(w0: World, w: World, r: Request)
    requires Mounted(w.fs) && ObjectRoom(w0.fs, w.fs, r) && Passed(w0, r) && (r.job.kind.PutObject? || r.job.kind.Complete?)
    requires forall p :: BUCKETS_DIR <= p && p != TargetPath(r.job) ==> At(w.fs, p) == At(w0.fs, p)
    requires r.pc.MakeDirs?
    ensures Succeeds(w.fs, r, Returned) <==> !Obstructed(w0.fs, r.job)
  {
    assert BUCKETS_DIR <= BucketPath(r.job.bucket);
    TreePossible(w0.fs, w.fs, r.job);
  }

  // ---------- a step decides as the verdict does ----------

  /** The isdir checks, which see the directories as they were at the start. */
  lemma ObjectCheckDecides(w0: World, w: World, r: Request)
    requires ObjectRoom(w0.fs, w.fs, r) && Passed(w0, r) && (r.job.kind.PutObject? || r.job.kind.Complete?)
    requires r.pc.CheckBucket? || r.pc.CheckKey?
    ensures Decided(w0, Advance(w, r))
  {
    assert BUCKETS_DIR <= BucketPath(r.job.bucket) <= TargetPath(r.job);
    if r.pc.CheckBucket? {
      assert Advance(w, r) == AfterCheckBucket(w.fs, r);
    } else {
      assert Advance(w, r) == AfterCheckKey(w.fs, r);
    }
  }

  lemma ObjectTreeDecides(w0: World, w: World, r: Request, ok: bool)
    requires Passed(w0, r) && (r.job.kind.PutObject? || r.job.kind.Complete?) && r.pc.MakeDirs?
    requires ok <==> !Obstructed(w0.fs, r.job)
    requires ok <==> Possible(w.fs, MakeTree(Parent(ObjectPath(r.job.bucket, r.job.key))))
    ensures Decided(w0, Proceed(w, r, ok))
  {
  }

  /** The steps that pass no guard. */
  lemma PutGoesOn(w0: World, w: World, r: Request)
    requires r.failure.None? && Passed(w0, r) && r.job.kind.PutObject?
    requires r.pc.Stage? || r.pc.Measure? || r.pc.CheckTarget? || r.pc.Backup? || r.pc.Upsert? || r.pc.Publish? || r.pc.Commit?
    requires r.pc.Measure? ==> StagedFile(r.job) in w.fs.files
    ensures Decided(w0, Advance(w, r))
  {
    match r.pc
    case Stage =>
    case Measure => assert Advance(w, r) == AfterMeasure(w.fs, r);
    case CheckTarget => assert Advance(w, r) == AfterCheckTarget(w.fs, r);
    case Backup => assert Advance(w, r) == AfterBackup(r);
    case Upsert => assert Advance(w, r) == AfterUpsert(w.rows, r);
    case Publish => assert Advance(w, r) == AfterPublish(r);
    case Commit => assert Advance(w, r) == AfterCommit(r);
  }

  lemma UncommittedRows(w0: World, w: World, r: Request)
    requires SoloLedger(w0, w, r) && OnMainPath(r.pc)
    ensures w.rows == w0.rows
  {
  }

  lemma StagedIsThere(w: World, r: Request)
    requires Recorded(w, r)
    ensures r.pc.Measure? || r.pc.MeasureStaged? ==> StagedFile(r.job) in w.fs.files
  {
    RecordedFinds(w, r);
  }

  lemma NotYetFailed(r: Request)
    requires Shape(r) && OnMainPath(r.pc)
    ensures r.failure.None?
  {
  }

  lemma PutDecides(w0: World, w: World, r: Request)
    requires SoloLedger(w0, w, r) && Room(w0, w, r) && Passed(w0, r) && r.job.kind.PutObject? && OnMainPath(r.pc)
    ensures Decided(w0, RequestAfter(w, r, Returned))
  {
    hide SoloLedger, Recorded, Verdict;
    SoloFacts(w0, w, r);
    NotYetFailed(r);
    if r.pc.Start? {
    } else if r.pc.CheckBucket? || r.pc.CheckKey? {
      ObjectCheckDecides(w0, w, r);
    } else if r.pc.MakeDirs? {
      ObjectPossible(w0, w, r);
      ObjectTreeDecides(w0, w, r, Succeeds(w.fs, r, Returned));
    } else {
      StagedIsThere(w, r);
      if r.pc.Stage? || r.pc.Backup? || r.pc.Publish? { ObjectPossible(w0, w, r); }
      PutGoesOn(w0, w, r);
    }
  }

  lemma SoloFacts(w0: World, w: World, r: Request)
    requires SoloLedger(w0, w, r)
    ensures Mounted(w.fs) && Recorded(w, r) && Shape(r) && ProperJob(r.job)
  {
  }

  // ---------- part uploads ----------

  lemma PartFilesPlaced(fs: FileSystem, j: Job)
    requires j.kind.UploadPart? && PrivateRoom(fs, j) && UploadPath(j.upload) in fs.dirs
    ensures CanPlace(fs, StagedFile(j)) && CanPlace(fs, BackupFile(j)) && (CanPlace(fs, TargetPath(j)) <==> TargetPath(j) !in fs.dirs)
  {
    var up := UploadPath(j.upload);
    assert Parent(StagedFile(j)) == up && Parent(BackupFile(j)) == up && Parent(TargetPath(j)) == up;
  }

  lemma PartPossible(w: World, r: Request)
    requires Mounted(w.fs) && Recorded(w, r) && PrivateRoom(w.fs, r.job) && r.job.kind.UploadPart? && UploadPath(r.job.upload) in w.fs.dirs
    requires r.pc.Stage? || r.pc.Backup? || r.pc.Publish?
    ensures Succeeds(w.fs, r, Returned) <==> !(r.pc.Publish? && TargetPath(r.job) in w.fs.dirs)
  {
    SourceIsThere(w, r);
    PartFilesPlaced(w.fs, r.job);
  }

  lemma PartLooks(w0: World, w: World, r: Request)
    requires Passed(w0, r) && r.job.kind.UploadPart? && w.rows == w0.rows && w.fs.dirs == w0.fs.dirs
    requires r.pc.CheckUploadDir? || r.pc.LoadUpload?
    ensures Decided(w0, Advance(w, r))
  {
    if r.pc.CheckUploadDir? {
      assert Advance(w, r) == AfterCheckUploadDir(w.fs, r);
    } else {
      assert Advance(w, r) == AfterLoadUpload(w, r);
    }
  }

  lemma PartGoesOn(w0: World, w: World, r: Request)
    requires r.failure.None? && Passed(w0, r) && r.job.kind.UploadPart? && w.rows == w0.rows
    requires r.pc.Stage? || r.pc.Measure? || r.pc.CheckTarget? || r.pc.Backup? || r.pc.Upsert? || r.pc.Publish? || r.pc.Commit?
    requires r.pc.Measure? ==> StagedFile(r.job) in w.fs.files
    requires r.pc.Publish? ==> PartPath(r.job.upload, r.job.number) !in w0.fs.dirs
    ensures Decided(w0, Advance(w, r))
  {
    match r.pc
    case Stage =>
    case Measure => assert Advance(w, r) == AfterMeasure(w.fs, r);
    case CheckTarget => assert Advance(w, r) == AfterCheckTarget(w.fs, r);
    case Backup => assert Advance(w, r) == AfterBackup(r);
    case Upsert => assert Advance(w, r) == AfterUpsert(w.rows, r);
    case Publish => assert Advance(w, r) == AfterPublish(r);
    case Commit => assert Advance(w, r) == AfterCommit(r);
  }

  lemma PartDecides(w0: World, w: World, r: Request)
    requires SoloLedger(w0, w, r) && Room(w0, w, r) && Passed(w0, r) && r.job.kind.UploadPart? && OnMainPath(r.pc)
    ensures Decided(w0, RequestAfter(w, r, Returned))
  {
    hide SoloLedger, Recorded;
    SoloFacts(w0, w, r);
    NotYetFailed(r);
    UncommittedRows(w0, w, r);
    if r.pc.Start? {
    } else if r.pc.CheckUploadDir? || r.pc.LoadUpload? {
      PartLooks(w0, w, r);
    } else {
      StagedIsThere(w, r);
      if r.pc.Stage? || r.pc.Backup? || r.pc.Publish? { PartPossible(w, r); }
      if Succeeds(w.fs, r, Returned) { PartGoesOn(w0, w, r); }
    }
  }

  // ---------- completions: the list ----------

  /** The upload's files are where they were at the start, until it is moved aside. */
  ghost predicate SameParts(fs0: FileSystem, fs: FileSystem, j: Job) {
    forall n: nat :: At(fs, PartPath(j.upload, n)) == At(fs0, PartPath(j.upload, n))
  }

  lemma PartsUnmoved(w0: World, w: World, r: Request)
    requires SoloLedger(w0, w, r) && Ends(r.job.kind) && !r.flags.committed && !r.past.displaced
    ensures SameParts(w0.fs, w.fs, r.job)
  {
    forall n: nat ensures At(w.fs, PartPath(r.job.upload, n)) == At(w0.fs, PartPath(r.job.upload, n)) {
      assert PartPath(r.job.upload, n) == UploadPath(r.job.upload) + [PartFile(n)];
    }
  }

  lemma GoodUpToSame(t: Tables, fs0: FileSystem, fs: FileSystem, j: Job)
    requires SameParts(fs0, fs, j)
    ensures GoodUpTo(t, fs, j.upload, j.listed, |j.listed|) <==> GoodUpTo(t, fs0, j.upload, j.listed, |j.listed|)
  {
    forall i | 0 <= i < |j.listed| ensures GoodAt(t, fs, j.upload, j.listed, i) <==> GoodAt(t, fs0, j.upload, j.listed, i) {
      var n := j.listed[i].number;
      if n >= 0 { assert At(fs, PartPath(j.upload, n)) == At(fs0, PartPath(j.upload, n)); }
    }
  }

  lemma LoadingDecides(w0: World, w: World, r: Request)
    requires Passed(w0, r) && r.job.kind.Complete? && r.pc.LoadListed? && w.rows == w0.rows && SameParts(w0.fs, w.fs, r.job)
    ensures Decided(w0, AfterLoadListed(w, r))
  {
    var n := LoadPartsCharacterized(w.rows, w.fs, r.job.upload, r.job.listed);
    GoodUpToSame(w.rows, w0.fs, w.fs, r.job);
  }

  lemma ListedRowIs(t: Tables, j: Job, etags: seq<string>, i: nat)
    requires ListedRows(t, j, etags) && i < |j.listed|
    ensures ListedAsRecorded(t, j, i) <==> j.listed[i].etag == etags[i]
  {
    assert ListedRow(t, j, etags, i);
  }

  lemma ComparingDecides(w0: World, r: Request)
    requires Passed(w0, r) && r.job.kind.Complete? && r.pc.CompareListed? && ListedRows(w0.rows, r.job, r.local.etags)
    ensures Decided(w0, AfterCompareListed(r))
  {
    forall i | 0 <= i < |r.job.listed| ensures ListedAsRecorded(w0.rows, r.job, i) <==> r.job.listed[i].etag == r.local.etags[i] {
      ListedRowIs(w0.rows, r.job, r.local.etags, i);
    }
  }

  lemma {:induction false} ContentsThere(fs: FileSystem, paths: seq<Path>)
    requires forall p :: p in paths ==> p in fs.files
    ensures ContentsOf(fs, paths).Some?
  {
    if paths != [] { ContentsThere(fs, paths[1..]); }
  }

  lemma ListedContentsThere(t: Tables, fs0: FileSystem, fs: FileSystem, j: Job)
    requires GoodUpTo(t, fs0, j.upload, j.listed, |j.listed|) && SameParts(fs0, fs, j)
    ensures ListedContents(fs, j).Some?
  {
    var paths := PathsUpTo(j.upload, j.listed, |j.listed|);
    forall p | p in paths ensures p in fs.files {
      var i :| 0 <= i < |paths| && paths[i] == p;
      assert GoodAt(t, fs0, j.upload, j.listed, i);
      assert At(fs, PartPath(j.upload, j.listed[i].number)) == At(fs0, PartPath(j.upload, j.listed[i].number));
    }
    ContentsThere(fs, paths);
  }

  lemma AssemblingDecides(w0: World, w: World, r: Request)
    requires Mounted(w.fs) && PrivateRoom(w.fs, r.job) && Passed(w0, r) && r.job.kind.Complete? && r.pc.Assemble?
    requires SameParts(w0.fs, w.fs, r.job)
    ensures Succeeds(w.fs, r, Returned) && Decided(w0, AfterAssemble(w.fs, r))
  {
    ListedContentsThere(w0.rows, w0.fs, w.fs, r.job);
    PrivatePlaced(w.fs, r.job);
  }

  lemma PieceIsStored(fs: FileSystem, j: Job, pieces: seq<Bytes>, i: nat)
    requires PiecesAt(fs, j, UploadPath(j.upload), pieces) && i < |j.listed|
    ensures ListedAsStored(fs, j, i) <==> j.listed[i].etag == ContentEtags(pieces)[i]
  {
    var p := UploadPath(j.upload) + [PartFile(NumberAt(j, i))];
    assert p == PartPath(j.upload, NumberAt(j, i));
    assert At(fs, p) == Some(pieces[i]);
  }

  lemma VerifyingDecides(w0: World, r: Request)
    requires Passed(w0, r) && r.job.kind.Complete? && r.pc.CompareStored? && ListedMatch(r.job.listed, r.local.etags)
    requires PiecesAt(w0.fs, r.job, UploadPath(r.job.upload), r.past.pieces) && r.local.hashes == ContentEtags(r.past.pieces)
    ensures Decided(w0, AfterCompareStored(r))
  {
    forall i | 0 <= i < |r.job.listed| ensures ListedAsStored(w0.fs, r.job, i) <==> r.local.etags[i] == r.local.hashes[i] {
      PieceIsStored(w0.fs, r.job, r.past.pieces, i);
    }
  }

  // ---------- completions: the whole path ----------

  lemma CompleteFacts(w: World, r: Request)
    requires Recorded(w, r) && r.job.kind.Complete?
    ensures r.pc.CompareListed? ==> ListedRows(w.rows, r.job, r.local.etags)
    ensures r.pc.CompareStored? ==> ListedMatch(r.job.listed, r.local.etags) && r.local.hashes == ContentEtags(r.past.pieces)
    ensures r.pc.CompareStored? ==> PiecesAt(w.fs, r.job, PartsHome(r), r.past.pieces)
    ensures r.pc.Upsert? ==> r.local.etags == ContentEtags(r.past.pieces)
    ensures r.pc.DropUpload? ==> r.local.pending.dropParts == PartsOf(w.rows, r.job.upload)
  {
  }

  lemma NotYetMoved(w: World, r: Request)
    requires Recorded(w, r) && Ends(r.job.kind) && OnMainPath(r.pc)
    ensures r.job.kind.Complete? && CompletePos(r.pc) <= 15 ==> !r.past.displaced
    ensures r.job.kind.Abort? && AbortPos(r.pc) <= 3 ==> !r.past.displaced
    ensures !r.flags.committed && (!r.past.displaced ==> NothingAt(w.fs, CleanupDir(r.job)))
  {
  }

  lemma PiecesAsFound(w0: World, w: World, r: Request)
    requires SoloLedger(w0, w, r) && r.job.kind.Complete? && r.pc.CompareStored?
    ensures PiecesAt(w0.fs, r.job, UploadPath(r.job.upload), r.past.pieces)
  {
    NotYetMoved(w, r);
    CompleteFacts(w, r);
    PiecesFromHome(w0.fs, w.fs, r.job, UploadPath(r.job.upload), r.past.pieces);
  }

  lemma CompleteListDecides(w0: World, w: World, r: Request)
    requires SoloLedger(w0, w, r) && Room(w0, w, r) && Passed(w0, r) && r.job.kind.Complete?
    requires r.pc.LoadListed? || r.pc.CompareListed? || r.pc.Assemble? || r.pc.CompareStored?
    ensures Decided(w0, RequestAfter(w, r, Returned))
  {
    hide SoloLedger, Recorded, Verdict, Passed, GoodUpTo;
    SoloFacts(w0, w, r);
    UncommittedRows(w0, w, r);
    NotYetMoved(w, r);
    CompleteFacts(w, r);
    if r.pc.LoadListed? {
      PartsUnmoved(w0, w, r);
      LoadingDecides(w0, w, r);
    } else if r.pc.CompareListed? {
      ComparingDecides(w0, r);
    } else if r.pc.Assemble? {
      PartsUnmoved(w0, w, r);
      AssemblingDecides(w0, w, r);
    } else {
      PiecesAsFound(w0, w, r);
      VerifyingDecides(w0, r);
    }
  }

  /** The upload's directory can be moved aside exactly when it is there. */
  lemma MovePossible(fs: FileSystem, j: Job)
    requires Mounted(fs) && Ends(j.kind) && NothingAt(fs, CleanupDir(j))
    ensures Possible(fs, MoveTree(UploadPath(j.upload), CleanupDir(j))) <==> UploadPath(j.upload) in fs.dirs
  {
    UploadAndAsideApart(j);
    assert Parent(CleanupDir(j)) == TMP_DIR;
    assert CleanupDir(j) <= CleanupDir(j);
  }

  lemma CompleteMoveDecides(w0: World, w: World, r: Request)
    requires Mounted(w.fs) && Passed(w0, r) && r.job.kind.Complete? && r.pc.MoveUpload?
    requires NothingAt(w.fs, CleanupDir(r.job)) && SameDirs(w0.fs, w.fs, UploadPath(r.job.upload))
    ensures Decided(w0, RequestAfter(w, r, Returned))
  {
    MovePossible(w.fs, r.job);
    assert UploadPath(r.job.upload) <= UploadPath(r.job.upload);
  }

  lemma CompleteLooksOn(w0: World, w: World, r: Request)
    requires r.failure.None? && Passed(w0, r) && r.job.kind.Complete? && w.rows == w0.rows
    requires r.pc.LoadUpload? || r.pc.MeasureStaged? || r.pc.CheckTarget?
    requires r.pc.MeasureStaged? ==> StagedFile(r.job) in w.fs.files
    ensures Decided(w0, Advance(w, r))
  {
    match r.pc
    case LoadUpload => assert Advance(w, r) == AfterLoadUpload(w, r);
    case MeasureStaged => assert Advance(w, r) == AfterMeasureStaged(w.fs, r);
    case CheckTarget => assert Advance(w, r) == AfterCheckTarget(w.fs, r);
  }

  lemma CompleteGoesOn(w0: World, w: World, r: Request)
    requires r.failure.None? && Passed(w0, r) && r.job.kind.Complete? && (r.pc.Backup? || r.pc.Upsert? || r.pc.Publish?)
    requires r.pc.Upsert? ==> ConstructEtag(r.local.etags).Some?
    ensures Decided(w0, Advance(w, r))
  {
    hide GoodUpTo, ListPassed, PlacePassed, Verdict;
    match r.pc
    case Backup => assert Advance(w, r) == AfterBackup(r);
    case Upsert => assert Advance(w, r) == AfterUpsert(w.rows, r);
    case Publish => assert Advance(w, r) == AfterPublish(r);
  }

  lemma CompleteEnds(w0: World, w: World, r: Request)
    requires r.failure.None? && Passed(w0, r) && r.job.kind.Complete? && (r.pc.DropParts? || r.pc.DropUpload? || r.pc.Commit?)
    requires r.pc.DropUpload? ==> r.local.pending.dropParts == PartsOf(w.rows, r.job.upload)
    ensures Decided(w0, Advance(w, r))
  {
    match r.pc
    case DropParts =>
    case DropUpload => assert Advance(w, r) == AfterDropUpload(w.rows, r);
    case Commit => assert Advance(w, r) == AfterCommit(r);
  }

  lemma CompleteLooksDecide(w0: World, w: World, r: Request)
    requires SoloLedger(w0, w, r) && Room(w0, w, r) && Passed(w0, r) && r.job.kind.Complete?
    requires r.pc.LoadUpload? || r.pc.MeasureStaged? || r.pc.AwaitBucket? || r.pc.CheckBucket? || r.pc.CheckKey? || r.pc.CheckTarget?
    ensures Decided(w0, RequestAfter(w, r, Returned))
  {
    hide SoloLedger, Recorded, Verdict, GoodUpTo;
    SoloFacts(w0, w, r);
    NotYetFailed(r);
    UncommittedRows(w0, w, r);
    if r.pc.AwaitBucket? {
    } else if r.pc.CheckBucket? || r.pc.CheckKey? {
      ObjectCheckDecides(w0, w, r);
    } else {
      StagedIsThere(w, r);
      CompleteLooksOn(w0, w, r);
    }
  }

  lemma CompletePublishDecides(w0: World, w: World, r: Request)
    requires SoloLedger(w0, w, r) && Room(w0, w, r) && Passed(w0, r) && r.job.kind.Complete?
    requires r.pc.MakeDirs? || r.pc.Backup? || r.pc.Upsert? || r.pc.Publish?
    ensures Decided(w0, RequestAfter(w, r, Returned))
  {
    hide SoloLedger, Recorded, Verdict, GoodUpTo;
    SoloFacts(w0, w, r);
    NotYetFailed(r);
    if !r.pc.Upsert? { ObjectPossible(w0, w, r); }
    if r.pc.MakeDirs? {
      ObjectTreeDecides(w0, w, r, Succeeds(w.fs, r, Returned));
    } else {
      CompleteFacts(w, r);
      ConstructedEtag(r.past.pieces);
      CompleteGoesOn(w0, w, r);
    }
  }

  lemma CompleteDecides(w0: World, w: World, r: Request)
    requires SoloLedger(w0, w, r) && Room(w0, w, r) && Passed(w0, r) && r.job.kind.Complete? && OnMainPath(r.pc)
    ensures Decided(w0, RequestAfter(w, r, Returned))
  {
    hide SoloLedger, Recorded, Verdict, GoodUpTo;
    SoloFacts(w0, w, r);
    NotYetFailed(r);
    if r.pc.Start? {
    } else if r.pc.LoadListed? || r.pc.CompareListed? || r.pc.Assemble? || r.pc.CompareStored? {
      CompleteListDecides(w0, w, r);
    } else if r.pc.MakeDirs? || r.pc.Backup? || r.pc.Upsert? || r.pc.Publish? {
      CompletePublishDecides(w0, w, r);
    } else if CompletePos(r.pc) <= 14 {
      CompleteLooksDecide(w0, w, r);
    } else if r.pc.MoveUpload? {
      NotYetMoved(w, r);
      CompleteMoveDecides(w0, w, r);
    } else {
      CompleteFacts(w, r);
      CompleteEnds(w0, w, r);
    }
  }

  // ---------- aborts and creations ----------

  lemma AbortGoesOn(w0: World, w: World, r: Request)
    requires Shape(r) && Passed(w0, r) && r.job.kind.Abort? && OnMainPath(r.pc) && !r.pc.Start?
    requires r.pc.LoadUpload? ==> w.rows == w0.rows
    requires r.pc.CheckUploadDir? ==> SameDirs(w0.fs, w.fs, UploadPath(r.job.upload))
    requires r.pc.DropUpload? ==> r.local.pending.dropParts == PartsOf(w.rows, r.job.upload)
    ensures Decided(w0, Advance(w, r))
  {
    assert UploadPath(r.job.upload) <= UploadPath(r.job.upload);
    match r.pc
    case LoadUpload => assert Advance(w, r) == AfterLoadUpload(w, r);
    case CheckUploadDir => assert Advance(w, r) == AfterCheckUploadDir(w.fs, r);
    case MoveUpload =>
    case DropParts =>
    case DropUpload => assert Advance(w, r) == AfterDropUpload(w.rows, r);
    case Commit => assert Advance(w, r) == AfterCommit(r);
    case _ =>
  }

  lemma AbortFacts(w: World, r: Request)
    requires Recorded(w, r) && r.job.kind.Abort?
    ensures r.pc.DropUpload? ==> r.local.pending.dropParts == PartsOf(w.rows, r.job.upload)
  {
  }

  lemma AbortMoveSucceeds(w0: World, w: World, r: Request)
    requires Mounted(w.fs) && Passed(w0, r) && r.job.kind.Abort? && r.pc.MoveUpload?
    requires NothingAt(w.fs, CleanupDir(r.job)) && SameDirs(w0.fs, w.fs, UploadPath(r.job.upload))
    ensures Succeeds(w.fs, r, Returned)
  {
    MovePossible(w.fs, r.job);
    assert UploadPath(r.job.upload) <= UploadPath(r.job.upload);
  }

  lemma AbortDecides(w0: World, w: World, r: Request)
    requires SoloLedger(w0, w, r) && Room(w0, w, r) && Passed(w0, r) && r.job.kind.Abort? && OnMainPath(r.pc)
    ensures Decided(w0, RequestAfter(w, r, Returned))
  {
    hide SoloLedger, Recorded, Verdict;
    SoloFacts(w0, w, r);
    NotYetFailed(r);
    UncommittedRows(w0, w, r);
    if !r.pc.Start? {
      NotYetMoved(w, r);
      AbortFacts(w, r);
      if r.pc.MoveUpload? { AbortMoveSucceeds(w0, w, r); }
      AbortGoesOn(w0, w, r);
    }
  }

  lemma PrefixOfUpload(u: string, q: Path)
    requires q <= UploadPath(u)
    ensures q == [] || q == TMP_DIR || q == UploadPath(u)
  {
    assert q == UploadPath(u)[..|q|] && UploadPath(u)[..1] == TMP_DIR;
  }

  /** Nothing is in the way of a new upload's directory. */
  lemma NewDirSucceeds(w: World, r: Request)
    requires Mounted(w.fs) && Recorded(w, r) && r.job.kind.Create? && r.pc.MakeDirs?
    ensures Succeeds(w.fs, r, Returned)
  {
    if q :| q in w.fs.files && q <= UploadPath(r.job.upload) { PrefixOfUpload(r.job.upload, q); }
  }

  lemma CreateDecides(w0: World, w: World, r: Request)
    requires SoloLedger(w0, w, r) && r.job.kind.Create? && OnMainPath(r.pc)
    ensures Decided(w0, RequestAfter(w, r, Returned))
  {
    hide SoloLedger, Recorded;
    SoloFacts(w0, w, r);
    if r.pc.MakeDirs? { NewDirSucceeds(w, r); }
  }

  lemma RecoveryKeepsFailure(w: World, r: Request, o: Outcome)
    requires !OnMainPath(r.pc)
    ensures RequestAfter(w, r, o).failure == r.failure && RequestAfter(w, r, o).job == r.job && !OnMainPath(RequestAfter(w, r, o).pc)
  {
  }

  /** A step in which nothing raises decides as the verdict on the starting state does. */
  lemma StepDecides(w0: World, w: World, r: Request)
    requires SoloLedger(w0, w, r) && Room(w0, w, r) && Decided(w0, r)
    ensures Decided(w0, RequestAfter(w, r, Returned))
  {
    hide SoloLedger, Room, Verdict, Passed, RequestAfter;
    if !OnMainPath(r.pc) {
      RecoveryKeepsFailure(w, r, Returned);
    } else {
      match r.job.kind
      case PutObject => PutDecides(w0, w, r);
      case UploadPart => PartDecides(w0, w, r);
      case Complete => CompleteDecides(w0, w, r);
      case Abort => AbortDecides(w0, w, r);
      case Create => CreateDecides(w0, w, r);
    }
  }

  // ---------- a step keeps the directories in their places ----------

  lemma RoomFollows(w0: World, w: World, r: Request, w': World, r': Request)
    requires Room(w0, w, r) && w'.fs.dirs == w.fs.dirs && r'.job == r.job
    requires r'.past.displaced == r.past.displaced && (r.flags.committed ==> r'.flags.committed)
    requires BeforeTree(r') ==> BeforeTree(r)
    requires OnMainPath(r'.pc) && !BeforeTree(r') && (r.job.kind.PutObject? || r.job.kind.Complete?) ==> OnMainPath(r.pc) && !BeforeTree(r)
    requires r'.failure.Some? ==> !r'.flags.moved
    ensures Room(w0, w', r')
  {
  }

  predicate MakesOrMoves(r: Request) { r.pc.MakeDirs? || r.pc.MoveUpload? || r.pc.RestoreUpload? || r.pc.TidyUpload? }

  lemma FilesOnly(w: World, r: Request, o: Outcome)
    requires !MakesOrMoves(r)
    ensures WorldAfter(w, r, o).fs.dirs == w.fs.dirs
  {
  }

  lemma AdvanceOrderOfTree(w: World, r: Request)
    requires Shape(r) && OnMainPath(r.pc) && !r.pc.Start? && !r.pc.AwaitBucket? && !r.pc.MakeDirs?
    ensures var r' := Advance(w, r);
      && (BeforeTree(r') ==> BeforeTree(r))
      && (OnMainPath(r'.pc) && !BeforeTree(r') && (r.job.kind.PutObject? || r.job.kind.Complete?) ==> !BeforeTree(r))
  {
  }

  lemma MainOrderOfTree(w: World, r: Request, ok: bool)
    requires Shape(r) && OnMainPath(r.pc) && (r.pc.MakeDirs? ==> !ok)
    ensures var r' := Proceed(w, r, ok);
      && (BeforeTree(r') ==> BeforeTree(r))
      && (OnMainPath(r'.pc) && !BeforeTree(r') && (r.job.kind.PutObject? || r.job.kind.Complete?) ==> !BeforeTree(r))
  {
    hide Shape, Advance;
    if r.pc.Start? {
    } else if r.pc.AwaitBucket? {
      AwaitsAsCompletion(r);
    } else if ok {
      AdvanceOrderOfTree(w, r);
    }
  }

  lemma AwaitsAsCompletion(r: Request)
    requires Shape(r) && r.pc.AwaitBucket?
    ensures r.job.kind.Complete?
  {
  }

  lemma OrderOfTree(w: World, r: Request, o: Outcome)
    requires Shape(r) && (r.pc.MakeDirs? ==> !Succeeds(w.fs, r, o))
    ensures var r' := RequestAfter(w, r, o);
      && (BeforeTree(r') ==> BeforeTree(r))
      && (OnMainPath(r'.pc) && !BeforeTree(r') && (r.job.kind.PutObject? || r.job.kind.Complete?) ==> OnMainPath(r.pc) && !BeforeTree(r))
  {
    hide Proceed, Shape;
    if OnMainPath(r.pc) { MainOrderOfTree(w, r, Succeeds(w.fs, r, o)); }
  }

  /** A request that has moved its upload aside goes on to its commit. */
  lemma MovedGoesOn(w: World, r: Request)
    requires Recorded(w, r) && Ends(r.job.kind) && OnMainPath(r.pc)
    ensures RequestAfter(w, r, Returned).failure.Some? ==> !RequestAfter(w, r, Returned).flags.moved
  {
    hide Recorded, EndingAgrees;
    MovedFacts(w, r);
    if r.job.kind.Complete? {
      CompleteMovedGoesOn(w, r, Succeeds(w.fs, r, Returned));
    } else {
      AbortMovedGoesOn(w, r, Succeeds(w.fs, r, Returned));
    }
  }

  lemma MovedFacts(w: World, r: Request)
    requires Recorded(w, r) && Ends(r.job.kind)
    ensures Shape(r) && (r.pc.DropUpload? ==> r.local.pending.dropParts == PartsOf(w.rows, r.job.upload))
  {
  }

  lemma CompleteMovedGoesOn(w: World, r: Request, ok: bool)
    requires Shape(r) && r.job.kind.Complete? && OnMainPath(r.pc) && (r.pc.DropParts? || r.pc.DropUpload? || r.pc.Commit? ==> ok)
    requires r.pc.DropUpload? ==> r.local.pending.dropParts == PartsOf(w.rows, r.job.upload)
    ensures Proceed(w, r, ok).failure.Some? ==> !Proceed(w, r, ok).flags.moved
  {
  }

  lemma AbortMovedGoesOn(w: World, r: Request, ok: bool)
    requires Shape(r) && r.job.kind.Abort? && OnMainPath(r.pc) && (r.pc.DropParts? || r.pc.DropUpload? || r.pc.Commit? ==> ok)
    requires r.pc.DropUpload? ==> r.local.pending.dropParts == PartsOf(w.rows, r.job.upload)
    ensures Proceed(w, r, ok).failure.Some? ==> !Proceed(w, r, ok).flags.moved
  {
  }

  lemma NeverMoved(w: World, r: Request, o: Outcome)
    requires Shape(r) && !Ends(r.job.kind)
    ensures !RequestAfter(w, r, o).flags.moved
  {
  }

  lemma RecoveryUnmoved(w: World, r: Request, o: Outcome)
    requires !OnMainPath(r.pc) && !r.flags.moved
    ensures !RequestAfter(w, r, o).flags.moved
  {
  }

  lemma StaysUnmoved(w: World, r: Request)
    requires Recorded(w, r) && (r.failure.Some? ==> !r.flags.moved)
    ensures RequestAfter(w, r, Returned).failure.Some? ==> !RequestAfter(w, r, Returned).flags.moved
  {
    hide Recorded, RequestAfter;
    if !OnMainPath(r.pc) {
      RecoveryKeepsFailure(w, r, Returned);
      if r.failure.Some? { RecoveryUnmoved(w, r, Returned); }
    } else if Ends(r.job.kind) {
      MovedGoesOn(w, r);
    } else {
      assert Shape(r) by { ShapeIsRecorded(w, r); }
      NeverMoved(w, r, Returned);
    }
  }

  lemma ShapeIsRecorded(w: World, r: Request)
    requires Recorded(w, r)
    ensures Shape(r)
  {
  }

  // ---------- the steps that make, move or remove directories ----------

  lemma TreeKeepsPrivate(fs: FileSystem, j: Job)
    requires PrivateRoom(fs, j)
    ensures PrivateRoom(Perform(fs, MakeTree(Parent(ObjectPath(j.bucket, j.key)))), j)
  {
    assert StagedFile(j)[0] == Plain("tmp") && BackupFile(j)[0] == Plain("tmp");
  }

  lemma TreeKeepsUpload(fs: FileSystem, j: Job, top: Path)
    requires top != [] && top[0] == Plain("tmp")
    ensures SameDirs(fs, Perform(fs, MakeTree(Parent(ObjectPath(j.bucket, j.key)))), top)
  {
  }

  lemma TreeMakesPlace(fs0: FileSystem, fs: FileSystem, j: Job)
    requires SameDirs(fs0, fs, BUCKETS_DIR) && ObjectPath(j.bucket, j.key) !in fs0.dirs
    ensures var fs' := Perform(fs, MakeTree(Parent(ObjectPath(j.bucket, j.key))));
      ObjectPath(j.bucket, j.key) !in fs'.dirs && Parent(ObjectPath(j.bucket, j.key)) in fs'.dirs
  {
    var target := ObjectPath(j.bucket, j.key);
    assert BUCKETS_DIR <= BucketPath(j.bucket) <= target;
    assert Parent(target) in Prefixes(Parent(target));
  }

  lemma MakeDirsKeepsRoom(w0: World, w: World, r: Request)
    requires Shape(r) && Room(w0, w, r) && Passed(w0, r) && (r.job.kind.PutObject? || r.job.kind.Complete?) && r.pc.MakeDirs?
    requires Succeeds(w.fs, r, Returned)
    ensures Room(w0, WorldAfter(w, r, Returned), RequestAfter(w, r, Returned))
  {
    TreeKeepsPrivate(w.fs, r.job);
    TreeKeepsUpload(w.fs, r.job, UploadPath(r.job.upload));
    TreeMakesPlace(w0.fs, w.fs, r.job);
  }

  lemma MoveKeepsPlaces(fs: FileSystem, j: Job)
    requires Mounted(fs) && j.kind.Complete? && ProperJob(j) && Possible(fs, MoveTree(UploadPath(j.upload), CleanupDir(j)))
    ensures var fs' := Perform(fs, MoveTree(UploadPath(j.upload), CleanupDir(j)));
      && (StagedFile(j) in fs'.dirs <==> StagedFile(j) in fs.dirs) && (BackupFile(j) in fs'.dirs <==> BackupFile(j) in fs.dirs)
      && (TargetPath(j) in fs'.dirs <==> TargetPath(j) in fs.dirs)
      && (Parent(TargetPath(j)) in fs'.dirs <==> Parent(TargetPath(j)) in fs.dirs)
  {
    var op := MoveTree(UploadPath(j.upload), CleanupDir(j));
    assert StagedFile(j)[1] == Plain(j.staged) && BackupFile(j)[1] == ObjectBackup(j.backup);
    assert TargetPath(j)[0] == Plain("buckets") && Parent(TargetPath(j))[0] == Plain("buckets");
    UntouchedStays(fs, op, StagedFile(j));
    UntouchedStays(fs, op, BackupFile(j));
    UntouchedStays(fs, op, TargetPath(j));
    UntouchedStays(fs, op, Parent(TargetPath(j)));
  }

  lemma MoveMovesDirs(fs0: FileSystem, fs: FileSystem, up: Path, aside: Path)
    requires WellFormed(fs) && Possible(fs, MoveTree(up, aside)) && SameDirs(fs0, fs, up)
    ensures forall p :: aside <= p ==> (p in Perform(fs, MoveTree(up, aside)).dirs <==> up + p[|aside|..] in fs0.dirs)
  {
    forall p | aside <= p ensures p in Perform(fs, MoveTree(up, aside)).dirs <==> up + p[|aside|..] in fs0.dirs {
      MoveTreeAt(fs, up, aside, p);
    }
  }

  lemma MoveUploadKeepsRoom(w0: World, w: World, r: Request)
    requires Mounted(w.fs) && Shape(r) && ProperJob(r.job) && Room(w0, w, r) && Ends(r.job.kind) && r.pc.MoveUpload?
    requires Succeeds(w.fs, r, Returned)
    ensures Room(w0, WorldAfter(w, r, Returned), RequestAfter(w, r, Returned))
  {
    MoveMovesDirs(w0.fs, w.fs, UploadPath(r.job.upload), CleanupDir(r.job));
    if r.job.kind.Complete? { MoveKeepsPlaces(w.fs, r.job); }
  }

  lemma RemoveKeepsPrivate(fs: FileSystem, j: Job)
    requires PrivateRoom(fs, j)
    ensures PrivateRoom(Perform(fs, RemoveTree(CleanupDir(j))), j)
  {
  }

  lemma CreateKeepsRoom(w0: World, w: World, r: Request, w': World, r': Request)
    requires r.job.kind.Create? && r'.job == r.job && (r'.failure.Some? ==> !r'.flags.moved)
    ensures Room(w0, w', r')
  {
  }

  /** The best-effort removal of the directory moved aside. */
  lemma TidyKeepsRoom(w0: World, w: World, r: Request)
    requires Shape(r) && Room(w0, w, r) && Ends(r.job.kind) && r.pc.TidyUpload?
    ensures Room(w0, WorldAfter(w, r, Returned), RequestAfter(w, r, Returned))
  {
    RemoveKeepsPrivate(w.fs, r.job);
  }

  lemma RecoveryStaysDisplaced(r: Request, idle: bool, ok: bool)
    requires (r.pc.RestoreUpload? ==> !r.flags.moved) && !r.pc.TidyUpload?
    ensures Recover(r, idle, ok).past.displaced == r.past.displaced
  {
  }

  lemma MainStaysDisplaced(w: World, r: Request, ok: bool)
    requires OnMainPath(r.pc) && (r.pc.MoveUpload? ==> !ok)
    ensures Proceed(w, r, ok).past.displaced == r.past.displaced
  {
    hide Advance;
    if !r.pc.Start? && !r.pc.AwaitBucket? { AdvanceDisplaces(w, r); }
  }

  /** The steps that leave the upload's directory where it is. */
  lemma StaysDisplaced(w: World, r: Request, o: Outcome)
    requires Shape(r) && (r.failure.Some? ==> !r.flags.moved) && !r.pc.TidyUpload? && (r.pc.MoveUpload? ==> !Succeeds(w.fs, r, o))
    ensures RequestAfter(w, r, o).past.displaced == r.past.displaced
  {
    hide Proceed, Recover;
    if OnMainPath(r.pc) {
      MainStaysDisplaced(w, r, Succeeds(w.fs, r, o));
    } else {
      RecoveryStaysDisplaced(r, TodoAt(w.fs, r).Idle?, Succeeds(w.fs, r, o));
    }
  }

  lemma DirsStay(w: World, r: Request)
    requires Shape(r) && (r.failure.Some? ==> !r.flags.moved) && !r.pc.TidyUpload?
    requires r.pc.MakeDirs? || r.pc.MoveUpload? ==> !Succeeds(w.fs, r, Returned)
    ensures WorldAfter(w, r, Returned).fs.dirs == w.fs.dirs
  {
    if !MakesOrMoves(r) { FilesOnly(w, r, Returned); }
  }

  lemma QuietKeepsRoom(w0: World, w: World, r: Request)
    requires Recorded(w, r) && Room(w0, w, r) && !r.pc.TidyUpload?
    requires r.pc.MakeDirs? || r.pc.MoveUpload? ==> !Succeeds(w.fs, r, Returned)
    ensures Room(w0, WorldAfter(w, r, Returned), RequestAfter(w, r, Returned))
  {
    hide Recorded, RequestAfter, Shape, WorldAfter;
    ShapeIsRecorded(w, r);
    SameJob(w, r, Returned);
    assert r.failure.Some? ==> !r.flags.moved;
    StaysUnmoved(w, r);
    StaysDisplaced(w, r, Returned);
    CommitsOnlyAtCommit(w, r, Returned);
    DirsStay(w, r);
    OrderOfTree(w, r, Returned);
    RoomFollows(w0, w, r, WorldAfter(w, r, Returned), RequestAfter(w, r, Returned));
  }

  /** A step in which nothing raises keeps the directories in their places. */
  lemma StepKeepsRoom(w0: World, w: World, r: Request)
    requires SoloLedger(w0, w, r) && Room(w0, w, r) && Decided(w0, r)
    ensures Room(w0, WorldAfter(w, r, Returned), RequestAfter(w, r, Returned))
  {
    hide SoloLedger, Recorded, Room, Verdict, Passed, WorldAfter, RequestAfter, Shape;
    SoloFacts(w0, w, r);
    if r.job.kind.Create? {
      SameJob(w, r, Returned);
      assert r.failure.Some? ==> !r.flags.moved by { RoomMoved(w0, w, r); }
      StaysUnmoved(w, r);
      CreateKeepsRoom(w0, w, r, WorldAfter(w, r, Returned), RequestAfter(w, r, Returned));
    } else if r.pc.TidyUpload? {
      TidyEnds(r);
      TidyKeepsRoom(w0, w, r);
    } else if r.pc.MakeDirs? && Succeeds(w.fs, r, Returned) {
      DirsMade(r);
      MakeDirsKeepsRoom(w0, w, r);
    } else if r.pc.MoveUpload? && Succeeds(w.fs, r, Returned) {
      UploadMoves(r);
      MoveUploadKeepsRoom(w0, w, r);
    } else {
      QuietKeepsRoom(w0, w, r);
    }
  }

  lemma RoomMoved(w0: World, w: World, r: Request)
    requires Room(w0, w, r)
    ensures r.failure.Some? ==> !r.flags.moved
  {
  }

  lemma TidyEnds(r: Request)
    requires Shape(r) && !r.job.kind.Create? && r.pc.TidyUpload?
    ensures Ends(r.job.kind)
  {
  }

  lemma DirsMade(r: Request)
    requires Shape(r) && !r.job.kind.Create? && r.pc.MakeDirs?
    ensures r.job.kind.PutObject? || r.job.kind.Complete?
  {
  }

  lemma UploadMoves(r: Request)
    requires Shape(r) && r.pc.MoveUpload?
    ensures Ends(r.job.kind)
  {
  }

  // ---------- no compensation or deletion fails ----------

  /** A target that is to be put back or taken away is not a directory, and what it is put back from is there. */
  lemma UndoFacts(w0: World, w: World, r: Request)
    requires SoloLedger(w0, w, r) && WellFormed(w0.fs) && Publishes(r.job.kind) && r.pc.Undo?
    ensures r.flags.written ==> TargetPath(r.job) in w.fs.files
    ensures r.flags.backupCreated ==> BackupFile(r.job) in w.fs.files && TargetPath(r.job) in w0.fs.files
  {
  }

  lemma UndoSucceeds(w0: World, w: World, r: Request)
    requires Mounted(w.fs) && WellFormed(w0.fs) && Room(w0, w, r) && Publishes(r.job.kind) && r.pc.Undo?
    requires r.flags.written ==> TargetPath(r.job) in w.fs.files
    requires r.flags.backupCreated ==> BackupFile(r.job) in w.fs.files && TargetPath(r.job) in w0.fs.files
    ensures Succeeds(w.fs, r, Returned)
  {
    if r.job.kind.UploadPart? { assert Parent(BackupFile(r.job)) == Parent(TargetPath(r.job)); }
  }

  lemma DeletionSucceeds(w0: World, w: World, r: Request)
    requires Room(w0, w, r) && Publishes(r.job.kind) && (r.pc.DropBackup? || r.pc.DropStaged? || r.pc.TidyLocked? || r.pc.Tidy?)
    ensures Succeeds(w.fs, r, Returned)
  {
  }

  lemma RemovalSucceeds(w0: World, w: World, r: Request)
    requires Shape(r) && Room(w0, w, r) && Ends(r.job.kind) && r.pc.TidyUpload? && Flat(w0.fs, r.job)
    ensures Succeeds(w.fs, r, Returned)
  {
    var up, aside := UploadPath(r.job.upload), CleanupDir(r.job);
    if r.flags.moved {
      forall q | q in w.fs.dirs && aside <= q ensures !Below(aside, q) { Rebased(up, aside, q); }
    }
  }

  lemma Rebased(top: Path, aside: Path, q: Path)
    requires aside <= q
    ensures aside < q <==> top < top + q[|aside|..]
  {
  }

  lemma CleanAfter(r: Request, idle: bool, ok: bool)
    requires Clean(r) && (idle || ok) && (r.pc.RestoreUpload? || r.pc.DropStaged? ==> ok)
    ensures Clean(Recover(r, idle, ok))
  {
  }

  lemma MainStaysClean(w: World, r: Request, o: Outcome)
    requires Clean(r) && OnMainPath(r.pc)
    ensures Clean(RequestAfter(w, r, o))
  {
  }

  lemma RecoverySucceeds(w0: World, w: World, r: Request)
    requires SoloLedger(w0, w, r) && WellFormed(w0.fs) && Room(w0, w, r) && Flat(w0.fs, r.job) && !OnMainPath(r.pc)
    requires r.job.kind.Create? ==> r.failure.None?
    ensures TodoAt(w.fs, r).Disk? ==> Succeeds(w.fs, r, Returned)
  {
    hide SoloLedger, Recorded, Room, Flat;
    SoloFacts(w0, w, r);
    RoomMoved(w0, w, r);
    RecoveryKinds(r);
    if r.pc.Undo? {
      UndoFacts(w0, w, r);
      UndoSucceeds(w0, w, r);
    } else if r.pc.DropBackup? || r.pc.DropStaged? || r.pc.TidyLocked? || r.pc.Tidy? {
      DeletionSucceeds(w0, w, r);
    } else if r.pc.TidyUpload? {
      RemovalSucceeds(w0, w, r);
    }
  }

  lemma RecoveryKinds(r: Request)
    requires Shape(r) && !OnMainPath(r.pc) && (r.job.kind.Create? ==> r.failure.None?)
    ensures r.pc.Undo? || r.pc.DropBackup? || r.pc.DropStaged? || r.pc.TidyLocked? || r.pc.Tidy? ==> Publishes(r.job.kind)
    ensures r.pc.TidyUpload? ==> Ends(r.job.kind)
    ensures r.pc.RestoreUpload? ==> r.failure.Some?
  {
  }

  /** A step in which nothing raises leaves no compensation or deletion undone. */
  lemma StepStaysClean(w0: World, w: World, r: Request)
    requires SoloLedger(w0, w, r) && WellFormed(w0.fs) && Room(w0, w, r) && Decided(w0, r) && Flat(w0.fs, r.job) && Clean(r)
    ensures Clean(RequestAfter(w, r, Returned))
  {
    hide SoloLedger, Recorded, Room, Flat, Clean;
    if OnMainPath(r.pc) {
      MainStaysClean(w, r, Returned);
    } else {
      RecoverySucceeds(w0, w, r);
      CleanAfter(r, TodoAt(w.fs, r).Idle?, Succeeds(w.fs, r, Returned));
    }
  }

  // ---------- the whole run ----------

  ghost predicate Course(w0: World, w: World, r: Request) {
    Room(w0, w, r) && Decided(w0, r) && (Flat(w0.fs, r.job) ==> Clean(r))
  }

  lemma CourseStarts(w: World, j: Job)
    requires Startable(w, j) && PrivateRoom(w.fs, j)
    ensures Course(w, w, NewRequest(j))
  {
  }

  lemma StepKeepsCourse(w0: World, w: World, r: Request)
    requires SoloLedger(w0, w, r) && WellFormed(w0.fs) && Course(w0, w, r)
    ensures Course(w0, WorldAfter(w, r, Returned), RequestAfter(w, r, Returned))
  {
    hide SoloLedger, Room, Decided, Flat, Clean, WorldAfter, RequestAfter;
    StepKeepsRoom(w0, w, r);
    StepDecides(w0, w, r);
    SameJob(w, r, Returned);
    if Flat(w0.fs, r.job) { StepStaysClean(w0, w, r); }
  }

  ghost predicate Faultless(outcomes: seq<Outcome>) { forall o :: o in outcomes ==> o.Returned? }

  lemma {:induction false} ExecKeepsCourse(w0: World, j: Job, outcomes: seq<Outcome>)
    requires Startable(w0, j) && PrivateRoom(w0.fs, j) && Faultless(outcomes)
    ensures Course(w0, Exec(w0, j, outcomes).0, Exec(w0, j, outcomes).1)
  {
    hide Course, Startable, SoloLedger;
    if outcomes == [] {
      CourseStarts(w0, j);
    } else {
      var rest, o := outcomes[..|outcomes| - 1], outcomes[|outcomes| - 1];
      assert o in outcomes;
      ExecKeepsCourse(w0, j, rest);
      ExecKeepsLedger(w0, j, rest);
      var (w, r) := Exec(w0, j, rest);
      assert WellFormed(w0.fs) by { StartsMounted(w0, j); }
      if !r.pc.Finished? { StepKeepsCourse(w0, w, r); }
    }
  }

  lemma StartsMounted(w: World, j: Job)
    requires Startable(w, j)
    ensures Mounted(w.fs)
  {
  }

  /** Every step brings the run further, so that a run of as many steps as a service has is at its end. */
  lemma {:induction false} ExecMovesOn(w0: World, j: Job, outcomes: seq<Outcome>)
    requires Startable(w0, j)
    ensures var r := Exec(w0, j, outcomes).1; r.pc.Finished? || |outcomes| <= Position(j.kind, r.pc)
  {
    hide Startable, SoloLedger, Recorded, Shape;
    if outcomes != [] {
      var rest, o := outcomes[..|outcomes| - 1], outcomes[|outcomes| - 1];
      ExecMovesOn(w0, j, rest);
      ExecKeepsLedger(w0, j, rest);
      var (w, r) := Exec(w0, j, rest);
      SoloFacts(w0, w, r);
      SameJob(w, r, o);
      if !r.pc.Finished? { StepMovesOn(w, r, o); }
    }
  }

  /** A call in which no primitive raises fails exactly as the verdict on its starting state says, and otherwise returns;
      after as many steps as a service has at most it has finished; and unless an ended upload held a directory, it has
      left nothing undone. */
  lemma FaultlessRunDecides(w0: World, j: Job, outcomes: seq<Outcome>)
    requires Startable(w0, j) && PrivateRoom(w0.fs, j) && Faultless(outcomes)
    ensures var r := Exec(w0, j, outcomes).1;
      && (|outcomes| >= LAST ==> r.pc.Finished?)
      && (r.pc.Finished? ==> r.failure == Verdict(w0, j))
      && (Flat(w0.fs, j) ==> Clean(r))
  {
    hide Startable, SoloLedger, Verdict, PrivateRoom, Flat, Clean, Room;
    ExecKeepsLedger(w0, j, outcomes);
    ExecKeepsCourse(w0, j, outcomes);
    ExecMovesOn(w0, j, outcomes);
  }

  // ---------- when primitives raise ----------

  /** So far nothing has raised on the main path, or the failure is the verdict's or a fault's. */
  ghost predicate DecidedSoFar(w0: World, w: World, r: Request, outcomes: seq<Outcome>) {
    if OnMainPath(r.pc) then Room(w0, w, r) && Passed(w0, r)
    else r.failure == Verdict(w0, r.job) || (r.failure == Some(Failure.Raised) && exists o :: o in outcomes && o.Fault?)
  }

  /** A lock that is taken, or values that are compared, raise nothing. */
  lemma TakingDoesNotRaise(w: World, r: Request, o: Outcome)
    requires r.pc.Start? || r.pc.AwaitBucket?
    ensures WorldAfter(w, r, o) == WorldAfter(w, r, Returned) && RequestAfter(w, r, o) == RequestAfter(w, r, Returned)
  {
  }

  lemma KeyConflictIsVerdict(w0: World, w: World, r: Request)
    requires SoloLedger(w0, w, r) && Room(w0, w, r) && Passed(w0, r) && OnMainPath(r.pc) && Blocked(w.fs, r)
    ensures Verdict(w0, r.job) == Some(KeyConflict)
  {
    hide SoloLedger, Recorded;
    SoloFacts(w0, w, r);
    if r.pc.MakeDirs? {
      ObjectPossible(w0, w, r);
      ObjectTreeDecides(w0, w, r, Succeeds(w.fs, r, Returned));
    }
  }

  lemma FaultDecides(w0: World, w: World, r: Request, o: Outcome, outcomes: seq<Outcome>)
    requires SoloLedger(w0, w, r) && Room(w0, w, r) && Passed(w0, r) && OnMainPath(r.pc) && !r.pc.Start? && !r.pc.AwaitBucket?
    requires o.Fault? && o in outcomes
    ensures DecidedSoFar(w0, WorldAfter(w, r, o), RequestAfter(w, r, o), outcomes)
  {
    hide SoloLedger, Recorded, Room, Passed, Verdict;
    if Blocked(w.fs, r) { KeyConflictIsVerdict(w0, w, r); }
  }

  lemma StepDecidesSoFar(w0: World, w: World, r: Request, o: Outcome, outcomes: seq<Outcome>)
    requires SoloLedger(w0, w, r) && DecidedSoFar(w0, w, r, outcomes)
    ensures DecidedSoFar(w0, WorldAfter(w, r, o), RequestAfter(w, r, o), outcomes + [o])
  {
    hide SoloLedger, Recorded, Room, Passed, Verdict, WorldAfter, RequestAfter;
    if !OnMainPath(r.pc) {
      RecoveryKeepsFailure(w, r, o);
      assert forall a :: a in outcomes ==> a in outcomes + [o];
    } else if o.Fault? && !r.pc.Start? && !r.pc.AwaitBucket? {
      FaultDecides(w0, w, r, o, outcomes + [o]);
    } else {
      if o.Fault? { TakingDoesNotRaise(w, r, o); }
      StepKeepsRoom(w0, w, r);
      StepDecides(w0, w, r);
    }
  }

  lemma {:induction false} ExecDecidesSoFar(w0: World, j: Job, outcomes: seq<Outcome>)
    requires Startable(w0, j) && PrivateRoom(w0.fs, j)
    ensures DecidedSoFar(w0, Exec(w0, j, outcomes).0, Exec(w0, j, outcomes).1, outcomes)
  {
    hide Startable, SoloLedger, DecidedSoFar;
    if outcomes == [] {
      CourseStarts(w0, j);
      SoFarAtStart(w0, j);
    } else {
      var rest, o := outcomes[..|outcomes| - 1], outcomes[|outcomes| - 1];
      assert outcomes == rest + [o];
      ExecDecidesSoFar(w0, j, rest);
      ExecKeepsLedger(w0, j, rest);
      var (w, r) := Exec(w0, j, rest);
      if r.pc.Finished? { SoFarLonger(w0, w, r, rest, o); } else { StepDecidesSoFar(w0, w, r, o, rest); }
    }
  }

  lemma SoFarAtStart(w0: World, j: Job)
    requires Course(w0, w0, NewRequest(j))
    ensures DecidedSoFar(w0, w0, NewRequest(j), [])
  {
  }

  lemma SoFarLonger(w0: World, w: World, r: Request, outcomes: seq<Outcome>, o: Outcome)
    requires r.pc.Finished? && DecidedSoFar(w0, w, r, outcomes)
    ensures DecidedSoFar(w0, w, r, outcomes + [o])
  {
    assert forall a :: a in outcomes ==> a in outcomes + [o];
  }

  /** Whatever raises, a call that has finished failed as the verdict on its starting state says, or because something
      raised; so one that returned was not to be refused, and one that was refused says why. */
  lemma RunDecides(w0: World, j: Job, outcomes: seq<Outcome>)
    requires Startable(w0, j) && PrivateRoom(w0.fs, j) && Exec(w0, j, outcomes).1.pc.Finished?
    ensures var failure := Exec(w0, j, outcomes).1.failure;
      failure == Verdict(w0, j) || (failure == Some(Failure.Raised) && exists o :: o in outcomes && o.Fault?)
  {
    hide Startable, SoloLedger, Verdict, PrivateRoom;
    ExecKeepsLedger(w0, j, outcomes);
    ExecDecidesSoFar(w0, j, outcomes);
  }
}
