/** What a completion publishes when it commits. */
module Publishing {
  import opened Text
  import opened Paths
  import opened Etags
  import opened FileSystems
  import opened Rows
  import opened PartLists
  import opened Requests
  import opened Shapes
  import opened Footprints
  import opened Ownership
  import opened Separation
  import opened Records
  import opened Server
  import opened Objects
  import opened Uploads
  import opened Parts
  import opened Runs

  function TotalSize(pieces: seq<Bytes>): nat {
    if pieces == [] then 0 else |pieces[0]| + TotalSize(pieces[1..])
  }

  lemma {:induction false} FlattenSize(pieces: seq<Bytes>)
    ensures |Flatten(pieces)| == TotalSize(pieces)
  {
    if pieces != [] { FlattenSize(pieces[1..]); }
  }

  /** The listed numbers ascend strictly within 1..10000. */
  ghost predicate AscendingNumbers(j: Job) {
    && (forall k :: 0 <= k < |j.listed| ==> 1 <= j.listed[k].number <= PART_NUMBER_MAX)
    && (forall k, l :: 0 <= k < l < |j.listed| ==> j.listed[k].number < j.listed[l].number)
  }

  lemma {:induction false} ListedAscend(t: Tables, j: Job, etags: seq<string>, k: nat, l: nat)
    requires ListedRows(t, j, etags) && k < l < |j.listed|
    ensures 1 <= j.listed[k].number < j.listed[l].number
  {
    assert ListedRow(t, j, etags, l) && ListedRow(t, j, etags, l - 1);
    if k < l - 1 { ListedAscend(t, j, etags, k, l - 1); }
  }

  lemma ListedNumbers(t: Tables, j: Job, etags: seq<string>)
    requires ListedRows(t, j, etags)
    ensures AscendingNumbers(j)
    ensures forall k :: 0 <= k < |j.listed| ==> NumberAt(j, k) == j.listed[k].number
  {
    forall k | 0 <= k < |j.listed| ensures 1 <= j.listed[k].number <= PART_NUMBER_MAX && NumberAt(j, k) == j.listed[k].number {
      assert ListedRow(t, j, etags, k);
    }
    forall k, l | 0 <= k < l < |j.listed| ensures j.listed[k].number < j.listed[l].number {
      ListedAscend(t, j, etags, k, l);
    }
  }

  /** The listed part `k` has the given bytes, on disk and as the client, the stored row and MD5 describe them. */
  ghost predicate PublishedPart(s: Server, r: Request, k: nat, piece: Bytes)
    requires k < |r.job.listed|
  {
    var id := PartId(r.job.upload, NumberAt(r.job, k));
    && NumberAt(r.job, k) == r.job.listed[k].number
    && At(s.world.fs, AsideFile(r, id)) == Some(piece)
    && r.job.listed[k].etag == ContentEtag(piece)
    && match PartRow(s.world.rows, id)
       case None => false
       case Some(row) => row.etag == ContentEtag(piece) && (PartUnharmed(s, id) ==> row.size == |piece|)
  }

  lemma ReadyToCommit(w: World, r: Request)
    requires Recorded(w, r) && r.job.kind.Complete? && r.pc.Commit?
    ensures Displacing(r, r.job.upload) && ListedRows(w.rows, r.job, r.local.etags) && PiecesAt(w.fs, r.job, CleanupDir(r.job), r.past.pieces)
    ensures AssembledPayload(r) && At(w.fs, TargetPath(r.job)) == Some(r.past.payload)
  {
  }

  lemma PublishedParts(s: Server, i: nat, k: nat)
    requires Sound(s) && PartsAgree(s) && i < |s.requests| && s.requests[i].job.kind.Complete? && s.requests[i].pc.Commit?
    requires k < |s.requests[i].job.listed| == |s.requests[i].past.pieces|
    ensures PublishedPart(s, s.requests[i], k, s.requests[i].past.pieces[k])
  {
    var r := s.requests[i];
    var id := PartId(r.job.upload, NumberAt(r.job, k));
    assert Recorded(s.world, r) && r in s.requests;
    ReadyToCommit(s.world, r);
    ListedNumbers(s.world.rows, r.job, r.local.etags);
    assert ListedRow(s.world.rows, r.job, r.local.etags, k);
    assert r.local.etags[k] == ContentEtag(r.past.pieces[k]);
    if PartUnharmed(s, id) { assert PartAgrees(s, id); }
  }

  /** A completion that commits publishes the right object: its bytes are the listed parts' bytes, in strictly ascending
      part order; its size is theirs together; its ETag is the MD5 of their digests with their count; each part's ETag
      is the one the client named, the one stored in its row, and its MD5. The upload and its part rows are gone. */
  lemma CompletePublishesRightObject(trace: seq<Server>, choices: seq<Choice>, n: nat)
    requires IsServerRun(trace, choices) && n < |choices| && choices[n].outcome.Returned?
    requires choices[n].who < |trace[n].requests|
    requires trace[n].requests[choices[n].who].job.kind.Complete? && trace[n].requests[choices[n].who].pc.Commit?
    ensures var r, pieces, w' := trace[n].requests[choices[n].who], trace[n].requests[choices[n].who].past.pieces, trace[n + 1].world;
      && AscendingNumbers(r.job) && |pieces| == |r.job.listed|
      && (forall k :: 0 <= k < |pieces| ==> PublishedPart(trace[n], r, k, pieces[k]))
      && At(w'.fs, TargetPath(r.job)) == Some(Flatten(pieces))
      && ObjectRow(w'.rows, TargetObject(r.job))
           == Some(Row(TotalSize(pieces), Hex(Md5(Flatten(Digests(pieces)))) + "-" + Decimal(|pieces|)))
      && r.job.upload !in w'.rows.uploads && PartsOf(w'.rows, r.job.upload) == {}
  {
    var s, i, o := trace[n], choices[n].who, choices[n].outcome;
    RunKeepsConsistent(trace, choices, n);
    var r := s.requests[i];
    assert Recorded(s.world, r);
    ReadyToCommit(s.world, r);
    ListedNumbers(s.world.rows, r.job, r.local.etags);
    forall k | 0 <= k < |r.past.pieces| ensures PublishedPart(s, r, k, r.past.pieces[k]) {
      PublishedParts(s, i, k);
    }
    CommittedObject(s.world, r, o);
    CommittedUploadGone(s.world, r, o);
  }

  lemma CommittedObject(w: World, r: Request, o: Outcome)
    requires Recorded(w, r) && r.job.kind.Complete? && r.pc.Commit? && o.Returned?
    ensures var w', pieces := WorldAfter(w, r, o), r.past.pieces;
      && At(w'.fs, TargetPath(r.job)) == Some(Flatten(pieces))
      && ObjectRow(w'.rows, TargetObject(r.job)) == Some(Row(TotalSize(pieces), Hex(Md5(Flatten(Digests(pieces)))) + "-" + Decimal(|pieces|)))
  {
    ReadyToCommit(w, r);
    CommitPending(r);
    ConstructedEtag(r.past.pieces);
    FlattenSize(r.past.pieces);
  }

  lemma CommittedUploadGone(w: World, r: Request, o: Outcome)
    requires Recorded(w, r) && r.job.kind.Complete? && r.pc.Commit? && o.Returned?
    ensures r.job.upload !in WorldAfter(w, r, o).rows.uploads && PartsOf(WorldAfter(w, r, o).rows, r.job.upload) == {}
  {
    CommitPending(r);
    DropsRecorded(w, r);
  }
}
