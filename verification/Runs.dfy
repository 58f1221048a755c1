/** Runs of the server: what holds in every state any interleaving of requests can reach,
    whichever primitives and compensations fail and wherever a crash stops the run. */
module Runs {
  import opened Text
  import opened Paths
  import opened Etags
  import opened FileSystems
  import opened Rows
  import opened PartLists
  import opened Locks
  import opened Requests
  import opened Shapes
  import opened Footprints
  import opened Ownership
  import opened Separation
  import opened Records
  import opened Server
  import opened Objects
  import opened Uploads
  import opened Parts

  // ---------- where runs start ----------

  /** The request's names are fresh: nothing on disk or in the uploads table carries them yet. */
  ghost predicate FreshNames(w: World, j: Job) {
    && (j.kind.PutObject? || j.kind.Complete? ==> At(w.fs, StagedFile(j)) == None && At(w.fs, BackupFile(j)) == None)
    && (j.kind.UploadPart? ==> forall p :: p in w.fs.files && p != [] ==> !NamedFor(j, p))
    && (Ends(j.kind) ==> NothingAt(w.fs, CleanupDir(j)))
    && (j.kind.Create? ==> j.upload !in w.rows.uploads && NothingAt(w.fs, UploadPath(j.upload)))
    && (forall u :: u in w.rows.uploads ==> u !in Tokens(j))
  }

  /** Rows and files agree, every upload has its directory, and bucket files belong to valid keys. */
  ghost predicate Settled(w: World) {
    && Mounted(w.fs) && PartsHaveUploads(w.rows)
    && (forall u :: u in w.rows.uploads ==> UploadPath(u) in w.fs.dirs)
    && (forall id :: Fits(ObjectRow(w.rows, id), At(w.fs, PathOf(id))))
    && (forall id :: FitsPart(PartRow(w.rows, id), At(w.fs, FileOf(id))))
    && (forall p :: p in w.fs.files && BUCKETS_DIR <= p ==> IsObjectFile(p))
  }

  ghost predicate Unstarted(s: Server) {
    && (forall r :: r in s.requests ==> r == NewRequest(r.job) && ProperJob(r.job) && ValidObjectKey(r.job.key) && FreshNames(s.world, r.job))
    && (forall i, k :: 0 <= i < |s.requests| && 0 <= k < |s.requests| && i != k ==> Names(s.requests[i].job) !! Names(s.requests[k].job))
  }

  /** Any settled world and any number of requests that have not begun. */
  ghost predicate Initial(s: Server) { Settled(s.world) && Unstarted(s) }

  datatype Choice = Choice(who: nat, outcome: Outcome)

  ghost predicate IsServerRun(trace: seq<Server>, choices: seq<Choice>) {
    && |trace| == |choices| + 1
    && Initial(trace[0])
    && forall i :: 0 <= i < |choices| ==> CanStep(trace[i], choices[i].who) && trace[i + 1] == StepOf(trace[i], choices[i].who, choices[i].outcome)
  }

  ghost predicate Consistent(s: Server) {
    && Sound(s)
    && ObjectsAgree(s)
    && ValidKeys(s) && BucketFilesAreObjects(s)
    && PartsHaveUploads(s.world.rows) && EndsOnce(s) && UploadsHaveDirs(s)
    && PartsAgree(s)
  }

  lemma NewRecorded(w: World, j: Job)
    requires ProperJob(j) && FreshNames(w, j)
    ensures Recorded(w, NewRequest(j))
  {
  }

  lemma NewOwnsNothing(j: Job, p: Path, id: ObjectId, pid: PartId)
    ensures HeldLocks(NewRequest(j)) == [] && !OwnsObject(NewRequest(j), id) && !PartBusy(NewRequest(j), pid) && !Ended(NewRequest(j))
  {
  }

  lemma InitialSound(s: Server)
    requires Initial(s)
    ensures Sound(s)
  {
    forall i | 0 <= i < |s.requests| ensures Recorded(s.world, s.requests[i]) {
      assert s.requests[i] in s.requests;
      NewRecorded(s.world, s.requests[i].job);
    }
    forall i, k | 0 <= i < |s.requests| && 0 <= k < |s.requests| && i != k
      ensures Apart(s.world.rows, s.requests[i], s.requests[k])
    {
      assert s.requests[i] in s.requests && s.requests[k] in s.requests;
      NewOwnsNothing(s.requests[i].job, [], ObjectId("", ""), PartId("", 0));
      NewOwnsNothing(s.requests[k].job, [], ObjectId("", ""), PartId("", 0));
    }
  }

  lemma InitialConsistent(s: Server)
    requires Initial(s)
    ensures Consistent(s)
  {
    InitialSound(s);
    forall r, id, pid | r in s.requests ensures !OwnsObject(r, id) && !PartBusy(r, pid) && !Ended(r) {
      NewOwnsNothing(r.job, [], id, pid);
    }
    forall id ensures ObjectAgrees(s, id) {
      assert Fits(ObjectRow(s.world.rows, id), At(s.world.fs, PathOf(id)));
    }
    forall id ensures PartAgrees(s, id) {
      assert FitsPart(PartRow(s.world.rows, id), At(s.world.fs, FileOf(id)));
    }
    forall i | 0 <= i < |s.requests| ensures !Ended(s.requests[i]) {
      assert s.requests[i] in s.requests;
    }
  }

  lemma StepKeepsConsistent(s: Server, i: nat, o: Outcome)
    requires Consistent(s) && CanStep(s, i)
    ensures Consistent(StepOf(s, i, o))
  {
    StepKeepsSound(s, i, o);
    StepKeepsObjectsAgree(s, i, o);
    StepKeepsBucketFiles(s, i, o);
    assert Recorded(s.world, s.requests[i]);
    StepKeepsPartsHaveUploads(s.world, s.requests[i], o);
    StepKeepsEndsOnce(s, i, o);
    StepKeepsUploadsHaveDirs(s, i, o);
    StepKeepsPartsAgree(s, i, o);
  }

  lemma NextIsConsistent(trace: seq<Server>, choices: seq<Choice>, n: nat)
    requires IsServerRun(trace, choices) && n < |choices| && Consistent(trace[n])
    ensures Consistent(trace[n + 1])
  {
    StepKeepsConsistent(trace[n], choices[n].who, choices[n].outcome);
  }

  lemma {:induction false} RunKeepsConsistent(trace: seq<Server>, choices: seq<Choice>, n: nat)
    requires IsServerRun(trace, choices) && n < |trace|
    ensures Consistent(trace[n])
  {
    if n == 0 {
      InitialConsistent(trace[0]);
    } else {
      RunKeepsConsistent(trace, choices, n - 1);
      NextIsConsistent(trace, choices, n - 1);
    }
  }

  lemma RunIsSound(trace: seq<Server>, choices: seq<Choice>, n: nat)
    requires IsServerRun(trace, choices) && n < |trace|
    ensures Sound(trace[n])
    ensures n < |choices| ==> choices[n].who < |trace[n].requests| && trace[n + 1] == StepOf(trace[n], choices[n].who, choices[n].outcome)
  {
    RunKeepsConsistent(trace, choices, n);
  }

  const EMPTY_WORLD := World(FileSystem(map[], {[], TMP_DIR, BUCKETS_DIR}), Tables(map[], map[], map[]))

  /** Runs start from an empty store, with any requests whose names are apart. */
  lemma EmptyStoreStartsRuns(jobs: seq<Job>, requests: seq<Request>)
    requires |requests| == |jobs| && forall i :: 0 <= i < |jobs| ==> requests[i] == NewRequest(jobs[i])
    requires forall i :: 0 <= i < |jobs| ==> ProperJob(jobs[i]) && ValidObjectKey(jobs[i].key)
    requires forall i, k :: 0 <= i < |jobs| && 0 <= k < |jobs| && i != k ==> Names(jobs[i]) !! Names(jobs[k])
    ensures Initial(Server(EMPTY_WORLD, requests))
  {
  }
}
