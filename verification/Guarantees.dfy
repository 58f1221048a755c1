/** What the services promise about stored data, in every state of every run. */
module Guarantees {
  import opened Text
  import opened Paths
  import opened Etags
  import opened FileSystems
  import opened Rows
  import opened PartLists
  import opened Locks
  import opened Requests
  import opened Shapes
  import opened Footprints
  import opened Ownership
  import opened Separation
  import opened Records
  import opened Server
  import opened Objects
  import opened Uploads
  import opened Parts
  import opened Runs

  // ---------- no payload is lost ----------

  /** The object's own path, and the backup of a request on it that has not committed. */
  ghost predicate ObjectPlace(s: Server, id: ObjectId, p: Path) {
    p == PathOf(id) || exists r :: r in s.requests && OnObject(r, id) && !r.flags.committed && p == BackupFile(r.job)
  }

  /** The part's file or a backup of it, in the upload's directory or where that was moved aside. */
  ghost predicate PartPlace(s: Server, id: PartId, p: Path) {
    && |p| > 0 && PartName(p[|p| - 1], id)
    && (Parent(p) == UploadPath(id.upload) || exists r :: r in s.requests && MovedAside(r, id.upload) && Parent(p) == CleanupDir(r.job))
  }

  /** Each choice is of one of the requests. */
  ghost predicate Indexed(trace: seq<Server>, choices: seq<Choice>) {
    |trace| == |choices| + 1 && forall k :: 0 <= k < |choices| ==> choices[k].who < |trace[k].requests|
  }

  /** The state right after the last commit of the object's row before state `n`; the first state if there was none. */
  ghost function ObjectCommitted(trace: seq<Server>, choices: seq<Choice>, n: nat, id: ObjectId): (m: nat)
    requires Indexed(trace, choices) && n < |trace|
    ensures m <= n
  {
    if n == 0 || CommitsObject(trace[n - 1].requests[choices[n - 1].who], choices[n - 1].outcome, id) then n
    else ObjectCommitted(trace, choices, n - 1, id)
  }

  ghost function PartCommitted(trace: seq<Server>, choices: seq<Choice>, n: nat, id: PartId): (m: nat)
    requires Indexed(trace, choices) && n < |trace|
    ensures m <= n
  {
    if n == 0 || CommitsPart(trace[n - 1].requests[choices[n - 1].who], choices[n - 1].outcome, id) then n
    else PartCommitted(trace, choices, n - 1, id)
  }

  /** The object's row is the one in `origin`, it describes the file there, and those bytes are held. */
  ghost predicate ObjectHeldSince(origin: Server, s: Server, id: ObjectId) {
    && ObjectRow(s.world.rows, id) == ObjectRow(origin.world.rows, id) && At(origin.world.fs, PathOf(id)).Some?
    && Fits(ObjectRow(s.world.rows, id), At(origin.world.fs, PathOf(id))) && Held(s, id, At(origin.world.fs, PathOf(id)).value)
  }

  ghost predicate PartHeldSince(origin: Server, s: Server, id: PartId) {
    && PartRow(s.world.rows, id) == PartRow(origin.world.rows, id) && At(origin.world.fs, FileOf(id)).Some?
    && FitsPart(PartRow(s.world.rows, id), At(origin.world.fs, FileOf(id))) && PartHeld(s, id, At(origin.world.fs, FileOf(id)).value)
  }

  lemma InitiallyHeld(s: Server)
    requires Initial(s)
    ensures forall id :: id in s.world.rows.objects ==> ObjectHeldSince(s, s, id)
    ensures forall id :: id in s.world.rows.parts ==> PartHeldSince(s, s, id)
  {
    forall r, id, pid | r in s.requests ensures !OwnsObject(r, id) && !PartBusy(r, pid) {
      NewOwnsNothing(r.job, [], id, pid);
    }
    forall id | id in s.world.rows.objects ensures ObjectHeldSince(s, s, id) {
      assert Fits(ObjectRow(s.world.rows, id), At(s.world.fs, PathOf(id)));
    }
    forall id | id in s.world.rows.parts ensures PartHeldSince(s, s, id) {
      assert FitsPart(PartRow(s.world.rows, id), At(s.world.fs, FileOf(id)));
      assert UploadPath(id.upload) + [PartFile(id.number)] == FileOf(id);
      assert InUpload(s, id, At(s.world.fs, FileOf(id)).value, PartFile(id.number));
    }
  }

  lemma ObjectHeldNext(origin: Server, s: Server, c: Choice, id: ObjectId)
    requires Sound(s) && CanStep(s, c.who) && id in StepOf(s, c.who, c.outcome).world.rows.objects
    ensures var s' := StepOf(s, c.who, c.outcome);
      if CommitsObject(s.requests[c.who], c.outcome, id) then ObjectHeldSince(s', s', id)
      else id in s.world.rows.objects && (ObjectHeldSince(origin, s, id) ==> ObjectHeldSince(origin, s', id))
  {
    if CommitsObject(s.requests[c.who], c.outcome, id) {
      CommitHolds(s, c.who, c.outcome, id);
    } else {
      assert Recorded(s.world, s.requests[c.who]);
      CommitterOwns(s.requests[c.who], id);
      UncommittedRowStays(s.world, s.requests[c.who], c.outcome, id);
      if ObjectHeldSince(origin, s, id) { StepKeepsHeld(s, c.who, c.outcome, id, At(origin.world.fs, PathOf(id)).value); }
    }
  }

  lemma PartHeldNext(origin: Server, s: Server, c: Choice, id: PartId)
    requires Sound(s) && CanStep(s, c.who) && PartsHaveUploads(s.world.rows) && id in StepOf(s, c.who, c.outcome).world.rows.parts
    ensures var s' := StepOf(s, c.who, c.outcome);
      if CommitsPart(s.requests[c.who], c.outcome, id) then PartHeldSince(s', s', id)
      else id in s.world.rows.parts && (PartHeldSince(origin, s, id) ==> PartHeldSince(origin, s', id))
  {
    if CommitsPart(s.requests[c.who], c.outcome, id) {
      PartCommitHolds(s, c.who, c.outcome, id);
    } else {
      assert Recorded(s.world, s.requests[c.who]);
      PartRowComesFromCommit(s.world, s.requests[c.who], c.outcome, id);
      if PartHeldSince(origin, s, id) { StepKeepsPartHeld(s, c.who, c.outcome, id, At(origin.world.fs, FileOf(id)).value); }
    }
  }

  lemma RunSteps(trace: seq<Server>, choices: seq<Choice>, n: nat)
    requires IsServerRun(trace, choices) && n < |choices|
    ensures Sound(trace[n]) && PartsHaveUploads(trace[n].world.rows) && CanStep(trace[n], choices[n].who)
    ensures trace[n + 1] == StepOf(trace[n], choices[n].who, choices[n].outcome)
  {
    RunKeepsConsistent(trace, choices, n);
  }

  lemma RunIsIndexed(trace: seq<Server>, choices: seq<Choice>)
    requires IsServerRun(trace, choices)
    ensures Indexed(trace, choices)
  {
  }

  /** Step `k` commits the object, or its row was there before and bytes held since an earlier state are held still. */
  ghost predicate ObjectCarried(trace: seq<Server>, choices: seq<Choice>, k: nat, id: ObjectId)
    requires Indexed(trace, choices) && 0 < k <= |choices|
  {
    if CommitsObject(trace[k - 1].requests[choices[k - 1].who], choices[k - 1].outcome, id) then ObjectHeldSince(trace[k], trace[k], id)
    else
      && id in trace[k - 1].world.rows.objects
      && forall m: nat :: m < k && ObjectHeldSince(trace[m], trace[k - 1], id) ==> ObjectHeldSince(trace[m], trace[k], id)
  }

  lemma ObjectIsCarried(trace: seq<Server>, choices: seq<Choice>, k: nat, id: ObjectId)
    requires IsServerRun(trace, choices) && Indexed(trace, choices) && 0 < k <= |choices| && id in trace[k].world.rows.objects
    ensures ObjectCarried(trace, choices, k, id)
  {
    hide IsServerRun, Sound, StepOf, ObjectHeldSince, CommitsObject;
    RunSteps(trace, choices, k - 1);
    forall m: nat | m < k && ObjectHeldSince(trace[m], trace[k - 1], id) && !CommitsObject(trace[k - 1].requests[choices[k - 1].who], choices[k - 1].outcome, id)
      ensures ObjectHeldSince(trace[m], trace[k], id)
    {
      ObjectHeldNext(trace[m], trace[k - 1], choices[k - 1], id);
    }
    ObjectHeldNext(trace[0], trace[k - 1], choices[k - 1], id);
  }

  lemma {:induction false} ObjectHeldThroughout(trace: seq<Server>, choices: seq<Choice>, n: nat, id: ObjectId)
    requires Indexed(trace, choices) && n < |trace| && id in trace[n].world.rows.objects
    requires id in trace[0].world.rows.objects ==> ObjectHeldSince(trace[0], trace[0], id)
    requires forall k :: 0 < k <= n && id in trace[k].world.rows.objects ==> ObjectCarried(trace, choices, k, id)
    ensures ObjectHeldSince(trace[ObjectCommitted(trace, choices, n, id)], trace[n], id)
  {
    if n > 0 {
      assert ObjectCarried(trace, choices, n, id);
      if id in trace[n - 1].world.rows.objects { ObjectHeldThroughout(trace, choices, n - 1, id); }
    }
  }

  lemma ObjectHeldAt(trace: seq<Server>, choices: seq<Choice>, n: nat, id: ObjectId)
    requires IsServerRun(trace, choices) && Indexed(trace, choices) && n < |trace| && id in trace[n].world.rows.objects
    ensures ObjectHeldSince(trace[ObjectCommitted(trace, choices, n, id)], trace[n], id)
  {
    InitiallyHeld(trace[0]);
    forall k | 0 < k <= n && id in trace[k].world.rows.objects ensures ObjectCarried(trace, choices, k, id) {
      ObjectIsCarried(trace, choices, k, id);
    }
    ObjectHeldThroughout(trace, choices, n, id);
  }

  /** Step `k` commits the part, or its row was there before and bytes held since an earlier state are held still. */
  ghost predicate PartCarried(trace: seq<Server>, choices: seq<Choice>, k: nat, id: PartId)
    requires Indexed(trace, choices) && 0 < k <= |choices|
  {
    if CommitsPart(trace[k - 1].requests[choices[k - 1].who], choices[k - 1].outcome, id) then PartHeldSince(trace[k], trace[k], id)
    else
      && id in trace[k - 1].world.rows.parts
      && forall m: nat :: m < k && PartHeldSince(trace[m], trace[k - 1], id) ==> PartHeldSince(trace[m], trace[k], id)
  }

  lemma PartIsCarried(trace: seq<Server>, choices: seq<Choice>, k: nat, id: PartId)
    requires IsServerRun(trace, choices) && Indexed(trace, choices) && 0 < k <= |choices| && id in trace[k].world.rows.parts
    ensures PartCarried(trace, choices, k, id)
  {
    hide IsServerRun, Sound, StepOf, PartHeldSince, CommitsPart;
    RunSteps(trace, choices, k - 1);
    forall m: nat | m < k && PartHeldSince(trace[m], trace[k - 1], id) && !CommitsPart(trace[k - 1].requests[choices[k - 1].who], choices[k - 1].outcome, id)
      ensures PartHeldSince(trace[m], trace[k], id)
    {
      PartHeldNext(trace[m], trace[k - 1], choices[k - 1], id);
    }
    PartHeldNext(trace[0], trace[k - 1], choices[k - 1], id);
  }

  lemma {:induction false} PartHeldThroughout(trace: seq<Server>, choices: seq<Choice>, n: nat, id: PartId)
    requires Indexed(trace, choices) && n < |trace| && id in trace[n].world.rows.parts
    requires id in trace[0].world.rows.parts ==> PartHeldSince(trace[0], trace[0], id)
    requires forall k :: 0 < k <= n && id in trace[k].world.rows.parts ==> PartCarried(trace, choices, k, id)
    ensures PartHeldSince(trace[PartCommitted(trace, choices, n, id)], trace[n], id)
  {
    if n > 0 {
      assert PartCarried(trace, choices, n, id);
      if id in trace[n - 1].world.rows.parts { PartHeldThroughout(trace, choices, n - 1, id); }
    }
  }

  lemma PartHeldAt(trace: seq<Server>, choices: seq<Choice>, n: nat, id: PartId)
    requires IsServerRun(trace, choices) && Indexed(trace, choices) && n < |trace| && id in trace[n].world.rows.parts
    ensures PartHeldSince(trace[PartCommitted(trace, choices, n, id)], trace[n], id)
  {
    InitiallyHeld(trace[0]);
    forall k | 0 < k <= n && id in trace[k].world.rows.parts ensures PartCarried(trace, choices, k, id) {
      PartIsCarried(trace, choices, k, id);
    }
    PartHeldThroughout(trace, choices, n, id);
  }

  /** The very bytes that were at the object's path in `origin` are at one of its places, and its row describes them. */
  ghost predicate ObjectSurvives(origin: Server, s: Server, id: ObjectId) {
    && Fits(ObjectRow(s.world.rows, id), At(origin.world.fs, PathOf(id)))
    && exists p :: ObjectPlace(s, id, p) && At(s.world.fs, p) == At(origin.world.fs, PathOf(id))
  }

  ghost predicate PartSurvives(origin: Server, s: Server, id: PartId) {
    && FitsPart(PartRow(s.world.rows, id), At(origin.world.fs, FileOf(id)))
    && exists p :: PartPlace(s, id, p) && At(s.world.fs, p) == At(origin.world.fs, FileOf(id))
  }

  lemma BackupOnDisk(w: World, r: Request, id: ObjectId, data: Bytes)
    requires Recorded(w, r) && KeptInBackup(r, id, data)
    ensures At(w.fs, BackupFile(r.job)) == Some(data)
  {
  }

  lemma HeldObjectSurvives(origin: Server, s: Server, id: ObjectId)
    requires Sound(s) && ObjectHeldSince(origin, s, id)
    ensures ObjectSurvives(origin, s, id)
  {
    var data := At(origin.world.fs, PathOf(id)).value;
    if InBackup(s, id, data) {
      var r :| r in s.requests && KeptInBackup(r, id, data);
      BackupOnDisk(s.world, r, id, data);
      assert ObjectPlace(s, id, BackupFile(r.job));
    } else {
      assert ObjectPlace(s, id, PathOf(id));
    }
  }

  lemma HeldPartSurvives(origin: Server, s: Server, id: PartId)
    requires PartHeldSince(origin, s, id)
    ensures PartSurvives(origin, s, id)
  {
    var data := At(origin.world.fs, FileOf(id)).value;
    if name :| InUpload(s, id, data, name) {
      assert PartPlace(s, id, UploadPath(id.upload) + [name]);
    } else {
      var r, name :| InAside(s, id, data, r, name);
      assert PartPlace(s, id, CleanupDir(r.job) + [name]);
    }
  }

  /** No payload loss: wherever a run is stopped, and whichever main or compensation steps failed in it, the very bytes
      that were at a committed row's path when the row was last committed are on disk, at that path or at a backup of
      it; and they are the bytes the row describes. */
  lemma NoPayloadLoss(trace: seq<Server>, choices: seq<Choice>, n: nat)
    requires IsServerRun(trace, choices) && n < |trace|
    ensures Indexed(trace, choices)
    ensures forall id :: id in trace[n].world.rows.objects ==>
      ObjectSurvives(trace[ObjectCommitted(trace, choices, n, id)], trace[n], id)
    ensures forall id :: id in trace[n].world.rows.parts ==>
      PartSurvives(trace[PartCommitted(trace, choices, n, id)], trace[n], id)
  {
    RunIsIndexed(trace, choices);
    RunIsSound(trace, choices, n);
    forall id | id in trace[n].world.rows.objects ensures ObjectSurvives(trace[ObjectCommitted(trace, choices, n, id)], trace[n], id) {
      ObjectHeldAt(trace, choices, n, id);
      HeldObjectSurvives(trace[ObjectCommitted(trace, choices, n, id)], trace[n], id);
    }
    forall id | id in trace[n].world.rows.parts ensures PartSurvives(trace[PartCommitted(trace, choices, n, id)], trace[n], id) {
      PartHeldAt(trace, choices, n, id);
      HeldPartSurvives(trace[PartCommitted(trace, choices, n, id)], trace[n], id);
    }
  }

  // ---------- rows agree with files ----------

  /** Nobody holds a lock covering the path. */
  ghost predicate Unlocked(s: Server, p: Path) {
    forall r :: r in s.requests ==> forall held :: held in HeldLocks(r) ==> !Covers(held.resource, p)
  }

  lemma UnlockedObject(s: Server, id: ObjectId, r: Request)
    requires Unlocked(s, PathOf(id)) && r in s.requests
    ensures !OwnsObject(r, id)
  {
    if OwnsObject(r, id) {
      BucketLockHeld(r);
    }
  }

  lemma UnlockedPart(s: Server, id: PartId, r: Request)
    requires Unlocked(s, FileOf(id)) && r in s.requests
    ensures !PartBusy(r, id)
  {
    if OwnsPartFile(r, id) {
      PartLockHeld(r);
    } else if Displacing(r, id.upload) {
      UploadLockHeld(r);
    }
  }

  lemma UnlockedUpload(s: Server, u: string, r: Request)
    requires Unlocked(s, UploadPath(u)) && r in s.requests
    ensures !Displacing(r, u)
  {
    if Displacing(r, u) {
      UploadLockHeld(r);
      assert Covers(UploadLock(r.job.upload).resource, UploadPath(u));
    }
  }

  /** Outside the locks rows and files agree: an object row and its file exist together, and so do a part row
      and its file, each with the recorded size and ETag; every upload row has its directory; and no part row
      outlives its upload row. The only exceptions are objects and uploads a failed compensation has harmed. */
  lemma RowsAgreeWithFiles(trace: seq<Server>, choices: seq<Choice>, n: nat)
    requires IsServerRun(trace, choices) && n < |trace|
    ensures var s := trace[n];
      && (forall id :: Unharmed(s, id) && Unlocked(s, PathOf(id)) ==> Fits(ObjectRow(s.world.rows, id), At(s.world.fs, PathOf(id))))
      && (forall id :: PartUnharmed(s, id) && Unlocked(s, FileOf(id)) ==> FitsPart(PartRow(s.world.rows, id), At(s.world.fs, FileOf(id))))
      && (forall u :: UploadUnharmed(s, u) && Unlocked(s, UploadPath(u)) && u in s.world.rows.uploads ==> UploadPath(u) in s.world.fs.dirs)
      && (forall id :: id in s.world.rows.parts ==> id.upload in s.world.rows.uploads)
  {
    var s := trace[n];
    RunKeepsConsistent(trace, choices, n);
    forall id | Unharmed(s, id) && Unlocked(s, PathOf(id)) ensures Fits(ObjectRow(s.world.rows, id), At(s.world.fs, PathOf(id))) {
      assert ObjectAgrees(s, id);
      forall r | r in s.requests ensures !OwnsObject(r, id) { UnlockedObject(s, id, r); }
    }
    forall id | PartUnharmed(s, id) && Unlocked(s, FileOf(id)) ensures FitsPart(PartRow(s.world.rows, id), At(s.world.fs, FileOf(id))) {
      assert PartAgrees(s, id);
      forall r | r in s.requests ensures !PartBusy(r, id) { UnlockedPart(s, id, r); }
    }
    forall u | UploadUnharmed(s, u) && Unlocked(s, UploadPath(u)) && u in s.world.rows.uploads ensures UploadPath(u) in s.world.fs.dirs {
      assert UploadHasDir(s, u);
      forall r | r in s.requests ensures !Displacing(r, u) { UnlockedUpload(s, u, r); }
    }
  }

  // ---------- the namespace ----------

  /** No locks held and no compensation failed. */
  ghost predicate AtRest(s: Server) {
    forall r :: r in s.requests ==> HeldLocks(r) == [] && !r.past.targetLost
  }

  lemma StoredKeysDoNotNest(fs: FileSystem, a: ObjectId, b: ObjectId)
    requires WellFormed(fs) && PathOf(a) in fs.files && PathOf(b) in fs.files && a.bucket == b.bucket
    ensures !(Split(a.key, '/') < Split(b.key, '/'))
  {
    var x, y := Split(a.key, '/'), Split(b.key, '/');
    var p, q := PathOf(a), PathOf(b);
    if x < y {
      assert q[..|p|] == p by {
        assert forall k :: 0 <= k < |x| ==> p[k + 2] == Plain(x[k]) && q[k + 2] == Plain(y[k]) && x[k] == y[k];
      }
      PrefixOfEntry(fs, q, |p|);
    }
  }

  /** At rest object rows and bucket files correspond one to one: each row has exactly one file, at its key's path
      and at no other key's; each file below the buckets directory is the file of a row with a valid key; and no
      stored key is a proper segment-prefix of another. */
  lemma NamespaceAgrees(trace: seq<Server>, choices: seq<Choice>, n: nat)
    requires IsServerRun(trace, choices) && n < |trace| && AtRest(trace[n])
    ensures var s := trace[n];
      && (forall id :: id in s.world.rows.objects <==> PathOf(id) in s.world.fs.files)
      && (forall a, b :: a in s.world.rows.objects && b in s.world.rows.objects && PathOf(a) == PathOf(b) ==> a == b)
      && (forall p :: p in s.world.fs.files && BUCKETS_DIR <= p ==>
            exists id :: PathOf(id) == p && id in s.world.rows.objects && ValidObjectKey(id.key))
      && (forall a, b :: a in s.world.rows.objects && b in s.world.rows.objects && a.bucket == b.bucket ==>
            !(Split(a.key, '/') < Split(b.key, '/')))
  {
    var s := trace[n];
    RunKeepsConsistent(trace, choices, n);
    forall id ensures id in s.world.rows.objects <==> PathOf(id) in s.world.fs.files {
      assert ObjectAgrees(s, id);
      forall r | r in s.requests ensures !OwnsObject(r, id) {
        if OwnsObject(r, id) { BucketLockHeld(r); }
      }
    }
    forall a, b | a in s.world.rows.objects && b in s.world.rows.objects && PathOf(a) == PathOf(b) ensures a == b {
      ObjectPathInjective(a.bucket, a.key, b.bucket, b.key);
    }
    forall a, b | a in s.world.rows.objects && b in s.world.rows.objects && a.bucket == b.bucket
      ensures !(Split(a.key, '/') < Split(b.key, '/'))
    {
      StoredKeysDoNotNest(s.world.fs, a, b);
    }
    forall p | p in s.world.fs.files && BUCKETS_DIR <= p
      ensures exists id :: PathOf(id) == p && id in s.world.rows.objects && ValidObjectKey(id.key)
    {
      var id :| PathOf(id) == p && ValidObjectKey(id.key);
      assert id in s.world.rows.objects;
    }
  }

  // ---------- an upload ends at most once ----------

  /** A request that works on a given upload and has not found it. */
  predicate Seeking(r: Request, u: string) {
    (Ends(r.job.kind) || r.job.kind.UploadPart?) && r.job.upload == u && !r.flags.verified
  }

  /** In no run is an upload id committed twice, as completed or as aborted; once it is, its rows and its directory
      are gone, and no other request holds or finds it any more. */
  lemma UploadEndsAtMostOnce(trace: seq<Server>, choices: seq<Choice>, n: nat, i: nat)
    requires IsServerRun(trace, choices) && n < |trace| && i < |trace[n].requests| && Ended(trace[n].requests[i])
    ensures var s, u := trace[n], trace[n].requests[i].job.upload;
      && (forall k :: 0 <= k < |s.requests| && k != i && Ended(s.requests[k]) ==> s.requests[k].job.upload != u)
      && u !in s.world.rows.uploads && PartsOf(s.world.rows, u) == {} && NothingAt(s.world.fs, UploadPath(u))
      && (forall r :: r in s.requests && r.job.upload == u ==> (r.job.kind.UploadPart? ==> !OwnsTarget(r)) && (Ends(r.job.kind) ==> !OwnsUpload(r)))
  {
    RunKeepsConsistent(trace, choices, n);
    var s := trace[n];
    assert Recorded(s.world, s.requests[i]);
    EndedIsGone(s.world, s.requests[i]);
    forall r | r in s.requests && r.job.upload == s.requests[i].job.upload
      ensures (r.job.kind.UploadPart? ==> !OwnsTarget(r)) && (Ends(r.job.kind) ==> !OwnsUpload(r))
    {
      assert Recorded(s.world, r);
    }
  }

  /** Once an upload has ended, every step of a request still looking for it leaves the committed rows alone and the
      request still without it; and when it looks, it fails with NoSuchUpload. */
  lemma EndedUploadIsRefused(trace: seq<Server>, choices: seq<Choice>, n: nat, i: nat, k: nat)
    requires IsServerRun(trace, choices) && n < |choices| && i < |trace[n].requests| && Ended(trace[n].requests[i])
    requires k == choices[n].who && Seeking(trace[n].requests[k], trace[n].requests[i].job.upload)
    ensures trace[n + 1].world.rows == trace[n].world.rows
    ensures Seeking(trace[n + 1].requests[k], trace[n].requests[i].job.upload)
    ensures var r, r' := trace[n].requests[k], trace[n + 1].requests[k];
      (r.pc.LoadUpload? || (r.pc.CheckUploadDir? && r.job.kind.UploadPart?)) && choices[n].outcome.Returned? ==> r'.failure == Some(NoSuchUpload)
  {
    RunKeepsConsistent(trace, choices, n);
    var s, r, o := trace[n], trace[n].requests[k], choices[n].outcome;
    assert Recorded(s.world, s.requests[i]) && Recorded(s.world, r);
    EndedIsGone(s.world, s.requests[i]);
    SameJob(s.world, r, o);
    StepMoves(s, k, o);
    SeekerFindsNothing(s.world, r, o);
  }

  lemma SeekerFindsNothing(w: World, r: Request, o: Outcome)
    requires Recorded(w, r) && Seeking(r, r.job.upload) && r.job.upload !in w.rows.uploads && NothingAt(w.fs, UploadPath(r.job.upload))
    ensures WorldAfter(w, r, o).rows == w.rows && !RequestAfter(w, r, o).flags.verified
    ensures (r.pc.LoadUpload? || (r.pc.CheckUploadDir? && r.job.kind.UploadPart?)) && o.Returned? ==> RequestAfter(w, r, o).failure == Some(NoSuchUpload)
  {
    StepByAnswer(w, r, o);
    if OnMainPath(r.pc) {
      SeekerBeforeLookup(r);
    } else {
      RecoverStaysUnverified(r, TodoAt(w.fs, r).Idle?, Succeeds(w.fs, r, o));
    }
  }

  lemma SeekerBeforeLookup(r: Request)
    requires Shape(r) && OnMainPath(r.pc) && Seeking(r, r.job.upload)
    ensures r.pc.Start? || r.pc.LoadUpload? || (r.pc.CheckUploadDir? && r.job.kind.UploadPart?)
  {
  }

  lemma RecoverStaysUnverified(r: Request, idle: bool, ok: bool)
    ensures Recover(r, idle, ok).flags.verified == r.flags.verified
  {
  }

  // ---------- and stays refused ----------

  lemma {:induction false} SameCount(trace: seq<Server>, choices: seq<Choice>, n: nat, m: nat)
    requires IsServerRun(trace, choices) && n <= m < |trace|
    ensures |trace[m].requests| == |trace[n].requests|
  {
    if n < m {
      SameCount(trace, choices, n, m - 1);
      RunSteps(trace, choices, m - 1);
    }
  }

  /** Of one step: what request `k` has come to in the next state. */
  lemma NextRequest(trace: seq<Server>, choices: seq<Choice>, n: nat, k: nat)
    requires IsServerRun(trace, choices) && n < |choices| && k < |trace[n].requests|
    ensures k < |trace[n + 1].requests| && choices[n].who < |trace[n].requests|
    ensures trace[n + 1].requests[k] ==
      if choices[n].who == k then RequestAfter(trace[n].world, trace[n].requests[k], choices[n].outcome) else trace[n].requests[k]
    ensures Recorded(trace[n].world, trace[n].requests[k])
  {
    RunSteps(trace, choices, n);
    StepMoves(trace[n], choices[n].who, choices[n].outcome);
  }

  lemma EndedStays(w: World, r: Request, o: Outcome)
    requires Shape(r) && Ended(r)
    ensures Ended(RequestAfter(w, r, o)) && RequestAfter(w, r, o).job == r.job
  {
    SameJob(w, r, o);
    CommitsOnlyAtCommit(w, r, o);
  }

  lemma {:induction false} EndedThroughout(trace: seq<Server>, choices: seq<Choice>, n: nat, m: nat, i: nat)
    requires IsServerRun(trace, choices) && n <= m < |trace| && i < |trace[n].requests| && Ended(trace[n].requests[i])
    ensures i < |trace[m].requests| && Ended(trace[m].requests[i]) && trace[m].requests[i].job == trace[n].requests[i].job
  {
    if n < m {
      EndedThroughout(trace, choices, n, m - 1, i);
      NextRequest(trace, choices, m - 1, i);
      EndedStays(trace[m - 1].world, trace[m - 1].requests[i], choices[m - 1].outcome);
    }
  }

  /** One of the request's own primitives has raised. */
  ghost predicate Raised(choices: seq<Choice>, n: nat, k: nat) {
    exists j :: 0 <= j < n && j < |choices| && choices[j].who == k && choices[j].outcome.Fault?
  }

  lemma AdvanceStaysVerified(w: World, r: Request)
    ensures r.flags.verified ==> Advance(w, r).flags.verified
  {
    match r.pc
    case CheckUploadDir => assert Advance(w, r) == AfterCheckUploadDir(w.fs, r);
    case LoadUpload => assert Advance(w, r) == AfterLoadUpload(w, r);
    case LoadListed => assert Advance(w, r) == AfterLoadListed(w, r);
    case CompareListed => assert Advance(w, r) == AfterCompareListed(r);
    case Assemble => assert Advance(w, r) == AfterAssemble(w.fs, r);
    case CompareStored => assert Advance(w, r) == AfterCompareStored(r);
    case MeasureStaged => assert Advance(w, r) == AfterMeasureStaged(w.fs, r);
    case CheckBucket => assert Advance(w, r) == AfterCheckBucket(w.fs, r);
    case Measure => assert Advance(w, r) == AfterMeasure(w.fs, r);
    case CheckKey => assert Advance(w, r) == AfterCheckKey(w.fs, r);
    case CheckTarget => assert Advance(w, r) == AfterCheckTarget(w.fs, r);
    case Backup => assert Advance(w, r) == AfterBackup(r);
    case Upsert => assert Advance(w, r) == AfterUpsert(w.rows, r);
    case Publish => assert Advance(w, r) == AfterPublish(r);
    case DropUpload => assert Advance(w, r) == AfterDropUpload(w.rows, r);
    case Commit => assert Advance(w, r) == AfterCommit(r);
    case _ =>
  }

  lemma RecoverKeepsFailure(r: Request, idle: bool, ok: bool)
    ensures Recover(r, idle, ok).failure == r.failure
  {
  }

  /** A request that has still not found its upload had not before, and fails only because of that or of a fault. */
  lemma SeekerFails(w: World, r: Request, o: Outcome)
    requires Shape(r) && (Ends(r.job.kind) || r.job.kind.UploadPart?) && !RequestAfter(w, r, o).flags.verified
    ensures !r.flags.verified
    ensures RequestAfter(w, r, o).failure == r.failure || RequestAfter(w, r, o).failure == Some(NoSuchUpload) || o.Fault?
  {
    if !OnMainPath(r.pc) {
      RecoverStaysUnverified(r, TodoAt(w.fs, r).Idle?, Succeeds(w.fs, r, o));
      RecoverKeepsFailure(r, TodoAt(w.fs, r).Idle?, Succeeds(w.fs, r, o));
    } else {
      if !r.pc.Start? && !r.pc.AwaitBucket? { AdvanceStaysVerified(w, r); }
      if !r.flags.verified { SeekerBeforeLookup(r); }
    }
  }

  lemma StartsUnfailed(trace: seq<Server>, choices: seq<Choice>, k: nat)
    requires IsServerRun(trace, choices) && k < |trace[0].requests|
    ensures trace[0].requests[k].failure == None
  {
    assert trace[0].requests[k] in trace[0].requests;
  }

  lemma ShapeOf(w: World, r: Request)
    requires Recorded(w, r)
    ensures Shape(r)
  {
  }

  /** Backwards over one step: what is still looking was looking, and a failure it has gained is the lookup's or a fault's. */
  lemma SeekerBefore(trace: seq<Server>, choices: seq<Choice>, n: nat, k: nat)
    requires IsServerRun(trace, choices) && n < |choices| && k < |trace[n].requests| && k < |trace[n + 1].requests|
    requires Seeking(trace[n + 1].requests[k], trace[n + 1].requests[k].job.upload)
    ensures Seeking(trace[n].requests[k], trace[n].requests[k].job.upload)
    ensures var f := trace[n + 1].requests[k].failure;
      f == trace[n].requests[k].failure || f == Some(NoSuchUpload) || (choices[n].who == k && choices[n].outcome.Fault?)
  {
    hide IsServerRun, RequestAfter, Recorded, StepOf;
    RunIsIndexed(trace, choices);
    NextRequest(trace, choices, n, k);
    if choices[n].who == k {
      var w, r, o := trace[n].world, trace[n].requests[k], choices[n].outcome;
      ShapeOf(w, r);
      SameJob(w, r, o);
      SeekerFails(w, r, o);
    }
  }

  lemma {:induction false} SeekerFailure(trace: seq<Server>, choices: seq<Choice>, n: nat, k: nat)
    requires IsServerRun(trace, choices) && n < |trace| && k < |trace[n].requests|
    requires Seeking(trace[n].requests[k], trace[n].requests[k].job.upload)
    ensures var f := trace[n].requests[k].failure; f == None || f == Some(NoSuchUpload) || Raised(choices, n, k)
  {
    hide IsServerRun, Seeking;
    RunIsIndexed(trace, choices);
    if n == 0 {
      StartsUnfailed(trace, choices, k);
    } else {
      SameCount(trace, choices, n - 1, n);
      SeekerBefore(trace, choices, n - 1, k);
      SeekerFailure(trace, choices, n - 1, k);
    }
  }

  lemma SeekingStays(trace: seq<Server>, choices: seq<Choice>, n: nat, i: nat, k: nat)
    requires IsServerRun(trace, choices) && n < |choices| && i < |trace[n].requests| && k < |trace[n].requests|
    requires Ended(trace[n].requests[i]) && Seeking(trace[n].requests[k], trace[n].requests[i].job.upload)
    ensures k < |trace[n + 1].requests| && Seeking(trace[n + 1].requests[k], trace[n].requests[i].job.upload)
    ensures choices[n].who == k ==> trace[n + 1].world.rows == trace[n].world.rows
  {
    NextRequest(trace, choices, n, k);
    if choices[n].who == k { EndedUploadIsRefused(trace, choices, n, i, k); }
  }

  lemma {:induction false} SeekingThroughout(trace: seq<Server>, choices: seq<Choice>, n: nat, m: nat, i: nat, k: nat)
    requires IsServerRun(trace, choices) && n <= m < |trace| && i < |trace[n].requests| && k < |trace[n].requests|
    requires Ended(trace[n].requests[i]) && Seeking(trace[n].requests[k], trace[n].requests[i].job.upload)
    ensures k < |trace[m].requests| && Seeking(trace[m].requests[k], trace[n].requests[i].job.upload)
    ensures forall j :: n <= j < m && choices[j].who == k ==> trace[j + 1].world.rows == trace[j].world.rows
  {
    if n < m {
      SeekingThroughout(trace, choices, n, m - 1, i, k);
      EndedThroughout(trace, choices, n, m - 1, i);
      SeekingStays(trace, choices, m - 1, i, k);
    }
  }

  lemma FinishedSeekerFailed(r: Request)
    requires Shape(r) && Seeking(r, r.job.upload) && r.pc.Finished?
    ensures r.failure.Some? && !r.flags.committed
  {
  }

  /** Once an upload has ended, a request that has not found it by then never does: none of its steps changes a committed
      row, and when it has finished it has failed and committed nothing, with NoSuchUpload unless one of its primitives
      raised. */
  lemma EndedUploadStaysRefused(trace: seq<Server>, choices: seq<Choice>, n: nat, m: nat, i: nat, k: nat)
    requires IsServerRun(trace, choices) && n <= m < |trace| && i < |trace[n].requests| && k < |trace[n].requests|
    requires Ended(trace[n].requests[i]) && Seeking(trace[n].requests[k], trace[n].requests[i].job.upload)
    ensures k < |trace[m].requests| && Seeking(trace[m].requests[k], trace[n].requests[i].job.upload)
    ensures forall j :: n <= j < m && choices[j].who == k ==> trace[j + 1].world.rows == trace[j].world.rows
    ensures var r := trace[m].requests[k]; r.pc.Finished? ==>
      r.failure.Some? && !r.flags.committed && (r.failure == Some(NoSuchUpload) || Raised(choices, m, k))
  {
    SeekingThroughout(trace, choices, n, m, i, k);
    SeekerFailure(trace, choices, m, k);
    RunIsSound(trace, choices, m);
    assert Recorded(trace[m].world, trace[m].requests[k]);
    if trace[m].requests[k].pc.Finished? { FinishedSeekerFailed(trace[m].requests[k]); }
  }
}
