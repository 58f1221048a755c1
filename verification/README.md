# Verified model of the object store's transactions, locks and body readers

A Dafny 4.11 model of the parts of the store where one mistake loses data: the
services that overwrite objects and parts while compensating for failures, the
lock manager that keeps concurrent requests apart, the readers that turn a
request body into stored bytes, the canonical query of a signed request, and the
bucket configuration. `dafny verify dfyconfig.toml` checks the whole project.

## What is modelled

**Services** (`Requests`, `Server`, `Runs`, `Verdicts`, and the five `*Service` files).
`object_upload`, `multipart_create`, `multipart_upload`, `multipart_complete` and
`multipart_abort` act on a bucket whose versioning is Disabled. A request has a
program counter at every await of its service. There the awaited primitive either
returns or raises, as the environment chooses, and `RequestAfter` says what the
service does next: the flags `backup_created`, `object_written` or `part_written`,
and `upload_moved`, the compensation blocks, the release of the locks, the
best-effort cleanup. A server is a filesystem, the committed rows and any number
of requests; a run interleaves their steps in any order the locks allow, and may
stop between any two of them, as a crash there would stop it. Each service is also
a method over a mutable session (`Sessions`), written in the source's own order of
statements and proved to follow the step model, so that what is proved about runs
applies to that code.

**Locks** (`Locks`, `LockDiscipline`). The holder list, the owner check made once
before waiting, the wait loop and the wake-up of all waiters on release. Paths are
compared by prefix, as `_resources_overlap` does. `Progress` and
`LockSchedules` connect the models: what a request holds is a prefix of its lock
plan, the server admits a request exactly when the manager would, and every run of
the server is a schedule of tasks under the lock discipline.

**Bodies** (`FrameLines`, `BodyReaders`, `ChunkedFraming`, `ChunkedReaders`,
`ChunkedDecoding`, `BodyCuts`, `CutDecoding`, `Uploading`, `BodyDelivery`).
`RequestBodyReader` over an arbitrary list of network chunks, `AwsChunkedReader` over any source that answers
in slices of its own choosing, the reading loop of `upload`, and the composition of
all three, from the chunks and headers of a request to the stored file.

**Canonical query** (`CanonicalQuery`) and **bucket configuration** (`BucketRows`,
`ObjectLockXml`, `BucketSettings`): encoding, sorting and joining; the parser over
an element tree, the two setters, the six CHECK constraints, and concurrent
requests that load a row, set it and write back only the columns they changed.

## Main results

- No payload is lost (`Guarantees.NoPayloadLoss`). Whenever a run stops and
  whichever main and compensation steps failed, the very bytes that were at the path
  of an object or part row when it was last committed are on disk, at that path or at
  a backup of it.
- All or nothing (`Atomicity.AllOrNothing`, `Atomicity.FailedEndRestoresUpload`,
  `Solo.FailedRunChangesNothing`). Under any interleaving a request that gives its
  lock back has committed exactly its change or left what it found.
- When a call succeeds (`Verdicts.FaultlessRunDecides`, `Verdicts.RunDecides`). For
  each service the state a call starts in decides whether it returns, and otherwise
  with which error it fails; only a primitive that raises can change that. A request
  waits only for one on the same bucket, upload or part
  (`Progress.WaitsOnlyForItsOwn`).
- Rows agree with files, the namespace is a bijection, and an upload ends at most
  once and is refused from then on (`Guarantees`). A committed completion holds the
  listed parts' bytes in order with the right size and ETag (`Publishing`).
- Readers share (`Locks.EnterAdmits`); exclusion, no lost wake-up, no self-wait, no deadlock and no infinite schedule
  (`Locks`, `LockDiscipline`, `Progress`); the lock events of every run of the server
  are such a schedule (`LockSchedules.ServerRunIsSchedule`).
- The framing reader refines a one-shot decoder, inverts an encoder, and is
  independent of slicing under an exact condition on its lines (`ChunkedDecoding`).
  Over a body cut every 65536 bytes it is, for every body, a decoder of bytes and
  positions (`CutDecoding.CutReader`). A body that fits comes to the same however the
  network cuts it; for one over the limit the exact condition is on its bytes
  (`BodyDelivery.NetworkIndependence`).
- What numbers, size lines, keys, ETags and configuration documents are read, and as
  what, is characterized in both directions (`Integers`, `FrameLines`, `Paths`,
  `Etags`, `ObjectLockXml`).
- The canonical query lists the encoded parameters in order, and determines them up to
  order, for code points below a bound, exactly when that bound is at most 256
  (`CanonicalQuery`).
- Object Lock can be turned on, never turns off, and Disabled never returns, under every
  interleaving (`BucketSettings`).

"Unharmed" in the statements means that no compensation of a request on that
object, part or upload has itself failed; the payload theorem needs no such
condition.

## Modelling assumptions

- A filesystem primitive or a commit that raises had no effect, except that a
  failing tree removal may have unlinked any of the files below it.
- MD5 is an uninterpreted function of bytes. A byte is a number below 256.
- Paths are normalized absolute segment sequences. An upload id is one path
  segment. `Paths.RenderInjective` shows that the names built below the tmp
  directory never coincide as long as ids and tokens hold no dot.
- Tokens and new upload ids are fresh: no two requests draw the same one, and
  nothing on disk carries one before it is drawn.
- Reading, copying and concatenating files, and writing a staged file, are single
  steps of the server model. The locks, or the staged file's fresh name, keep other
  requests away from them (`Separation.OwnershipExclusive`); their chunk loops are
  modelled in `Io` and `Uploading`.
- A session's changes take effect together, at its commit.
- A cancelled lock waiter leaves without becoming a holder.
- The body of a request arrives as a finite list of chunks, any of them empty.
- Dafny characters exclude surrogates; strings are not normalized. Which characters
  beyond ASCII are decimal digits is an uninterpreted function (`Integers`).

## Where the code differs from what its documentation or its names suggest

- `AwsChunkedReader` compares the line limit with the bytes buffered, which may
  already hold the line's end (`app/streams.py:215-234`). Over an arbitrary source a
  line of 8192 bytes or more is therefore refused or accepted depending on the
  source's slices; `ChunkedDecoding.SlicingIndependence` gives the exact condition.
  The source the application stacks it on answers in slices of 65536 bytes, however
  the network cut the body, so there only the place of the line matters: it is
  refused exactly when one of those cuts leaves more than 8192 of its bytes buffered
  without its end (`BodyDelivery.FramedBodyDelivered`, with bodies on both sides in
  `BodyDelivery.LongLineWitness`).
- The fate of a framed body over the size limit depends on the network: chunks are
  counted as they arrive (`app/streams.py:101-116`), so one large chunk is refused
  before its beginning is read, while slices may end or break the body first. It is
  refused as too large whatever the network does exactly when the bytes that the limit
  allows in slices of 65536 run out, that is, no line and no frame among them ends or
  breaks the body (`CutDecoding.RunsOut`, `BodyDelivery.NetworkIndependence`).
  `BodyDelivery.OverlongBodyDepends` gives a family of bodies for which they do not.
- `int(header, 16)` accepts signs, a `0x` prefix and underscores
  (`app/streams.py:198-205`). The model accepts them too; a negative size slices
  the buffer from its end, as in Python, so that two slicings of one body can both end
  it with different payloads (`ChunkedDecoding.NegativeSizeDependsOnSlicing`). All
  slicings show the same frame exactly when no more bytes follow its size line than
  that size names (`ChunkedDecoding.NegativeFrameDetermined`). Statements that compare
  the reader with the one-shot decoder ask for sizes that are not negative;
  `CutDecoding.CutReader` and what is built on it do not.
- `uri_encode` formats a code point from 256 on with more than two hexadecimal
  digits (`app/security/sigv4.py:76-84`), so different parameters can share a
  canonical string. `CanonicalQuery.FaithfulUpTo256` gives the exact bound.
- The CHECK constraint on the default retention is unknown, and so accepts the row,
  when a period is set without a mode (`app/models/bucket.py:181-202`). Two
  overlapping requests can commit such a row
  (`BucketSettings.OverlapCanBreakDefault`); `BucketSettings.WriteKeepsDefaultWhole`
  says exactly which writes do.
- A malformed declared length is said to be ignored (`app/streams.py:118-134`), but
  `int` raises on some headers that pass `str.isdigit`: those with superscript
  digits, and those with more than 4300 digits, Python's limit.
  `BodyReaders.LengthRaises` says exactly which headers do, and
  `BodyReaders.MalformedLengthIsNotIgnored` shows one of each kind.

## Model

| member | source | states |
|---|---|---|
| `Locks.OverlapIsIntersection` | app/locks.py:281-353 | `_resources_overlap` holds iff some path is covered by both resources: a directory covers its subtree, a file itself |
| `Locks.ConflictsSymmetric` | app/locks.py:246-262 | whether two requests conflict does not depend on which of them holds |
| `Locks.EnterAdmits` | app/locks.py:147-181 | a task that asks gets the lock iff no holder covers a path of its wish except READ with READ, so readers share; it is refused iff a holder of its own fails that; else it sleeps |
| `Locks.ResumeAdmits` | app/locks.py:171-181 | a woken task gets what it asked for iff every holder is compatible with it, and else sleeps again |
| `Locks.CancelledLeaves` | app/locks.py:171-181 | a cancelled waiter is neither asleep nor woken, and holders and other waiters are as before |
| `Locks.ReleaseRemovesExactlyOne` | app/locks.py:183-209 | a release takes exactly one matching entry out of the multiset of holders and wakes every sleeper, or raises and changes nothing when there is none |
| `Locks.RunKeepsInv` | app/locks.py:162-202 | in every state of every run no two holders conflict, every sleeping task conflicts with a current holder, and no holder in a waiting task's way is that task |
| `Locks.WriterIsAlone` | app/locks.py:41-66 | a path covered by a WRITE holder is covered by no other holder |
| `Locks.LockManager.Acquire` | app/locks.py:147-181 | entering an acquisition raises, suspends or appends a holder as the transition says, and keeps the invariant |
| `Locks.LockManager.Retest` | app/locks.py:171-181 | a woken task tests again and becomes a holder or sleeps again, and keeps the invariant |
| `Locks.LockManager.ReleaseLock` | app/locks.py:183-209 | the search from the front removes the first match and notifies everyone, and keeps the invariant |
| `LockDiscipline.NextLockIsNoSelfConflict` | app/locks.py:162-170 | taking locks in rank order never conflicts with what the same task holds, so the owner check never raises |
| `LockDiscipline.NoDeadlock` | app/locks.py:147-209 | for tasks that take locks in rank order and give them back in reverse, while one is unfinished some task has a step that is neither a failure nor a cancellation |
| `LockDiscipline.StepDecreasesMeasure` | app/locks.py:171-172 | every step, a fruitless wake-up included, decreases a measure lexicographic in remaining program steps and tasks not asleep |
| `LockDiscipline.SchedulesTerminate` | app/locks.py:147-209 | no schedule, however unfair, is longer than the measure of its first state, and one without a regular continuation has finished every task and released every lock |
| `Progress.ManagerAdmits` | app/locks.py:231-244 | a request passes a lock in the server model exactly when the manager's conflict test lets it |
| `Progress.WaitsOnlyForItsOwn` | app/services/multipart_complete.py:148-210 | a request can step iff it takes no lock next or no request works on the same bucket, the same upload or the same part of it; so two parts of one upload are written side by side |
| `LockSchedules.ServerRunIsSchedule` | app/services/multipart_complete.py:148-384 | the lock events of every run of the server form a schedule of the lock discipline, at most as long as the run, whose tasks track the requests and whose holders are the requests that hold |
| `LockSchedules.LocksFollow` | app/services/multipart_complete.py:148-384 | each step of a service takes one lock, gives one back, or leaves the locks alone, as the discipline's action for it says |
| `Progress.ServerNeverStuck` | app/services/multipart_complete.py:210 | while any request is unfinished some request can step |
| `Progress.RunsAreFinite` | app/services/multipart_complete.py:148-411 | every run of the server is at most as long as the steps its requests start with |
| `Paths.RenderInjective` | app/s3/paths.py:43-155 | no two components built below the tmp directory share a name on disk |
| `Paths.ObjectPathInjective` | app/s3/paths.py:17-40 | bucket and key can be read back off an object's path |
| `Paths.ValidKeyStaysInside` | app/s3/validation.py:75-99 | a validated key resolves, strictly inside its bucket, to ordinary components joined by slashes |
| `Paths.ValidKeysAre` | app/s3/validation.py:75-99 | a key is valid iff its UTF-8 encoding has at most 1024 bytes, it holds no NUL, and it is one or more names other than the empty one, `.` and `..` joined by slashes |
| `Paths.Utf8ReadsBack` | app/s3/validation.py:82-90 | the encoding whose bytes are counted can be undone, and its first bytes tell how many follow |
| `Text.SplitJoin` | app/s3/validation.py:98-99 | splitting on a separator undoes joining |
| `Text.JoinSplit` | app/s3/validation.py:98-99 | joining undoes splitting, and no piece holds the separator |
| `Etags.FromHexHex` | app/s3/etag.py:17-27 | `bytes.fromhex` inverts `bytes.hex` |
| `Etags.FromHexAccepts` | app/s3/etag.py:17-27 | `bytes.fromhex` takes pairs of hexadecimal digits of either case and nothing else |
| `Etags.HexFromHex` | app/s3/etag.py:17-27 | encoding what was decoded gives the digits back in lower case |
| `Etags.DigestsJoin` | app/s3/etag.py:17-27 | part ETags can be combined iff each is hexadecimal |
| `Etags.ConstructedEtag` | app/s3/etag.py:17-27 | the ETag of an assembled object is the MD5 of its parts' binary digests followed by their count |
| `Etags.EchoedEtagMatches` | app/s3/etag.py:7-14 | however a client pads, quotes or capitalizes a stored hash, normalization gives the hash back |
| `Etags.OnlyEchoesMatch` | app/s3/etag.py:7-14 | what normalizes to a hash is padding, quotes and the hash in some capitalization |
| `FileSystems.MoveTreeAt` | app/repositories/io.py:247-261 | renaming a directory moves every entry below it and nothing else |
| `FileSystems.UntouchedStays` | app/repositories/io.py:97-261 | a primitive changes only the paths it names |
| `FileSystems.OperationKeepsWellFormed` | app/repositories/io.py:97-261 | primitives keep every entry inside a directory and files apart from directories |
| `DirectoryTrees.MakeDirectories` | app/repositories/io.py:312-331 | the climb to the first existing ancestor lists exactly the directories that creating the tree adds, deepest first |
| `Io.FileHash` | app/repositories/io.py:65-72 | feeding a digest chunk by chunk gives the MD5 of the whole file |
| `Io.Concat` | app/repositories/io.py:223-244 | one chunked pass yields the sources' bytes in order and the MD5 of each source |
| `PartLists.LoadMultipartParts` | app/s3/multipart.py:124-176 | the validation loop computes the first fault, or the paths and stored ETags in client order |
| `PartLists.LoadPartsCharacterized` | app/s3/multipart.py:139-176 | validation succeeds iff every listed number is in order and in range and every row and file exists and every part but the last is large enough; otherwise it names the first part's fault |
| `PartLists.FirstFaultDecides` | app/s3/multipart.py:139-176 | a refused list has a first part that is not good, and the fault names the first check it fails: order, range, row and file, size |
| `PartLists.AcceptedListBounds` | app/s3/multipart.py:139-176 | an accepted list has strictly ascending numbers in 1..10000, at most 10000 parts, and recorded sizes of at least (n-1) times 5 MiB |
| `Shapes.StepKeepsShape` | app/services/multipart_complete.py:149-384 | at every await the flags, the staged file, the backup and the failure state are as the service's order of steps says, whether the primitive returns or raises |
| `Shapes.StepKeepsValues` | app/services/multipart_complete.py:162-256 | payload, size, ETags and pending rows are those computed so far |
| `Footprints.OwnStepAgrees` | app/services/object_upload.py:140-301 | a request's step leaves its target, staged and backup files and its row as its flags say |
| `Footprints.OwnEndingAgrees` | app/services/multipart_abort.py:76-126 | a completion's or abort's step leaves the upload's directory, cleanup directory and rows as its flags say |
| `Ownership.StepStaysInside` | app/services/multipart_complete.py:148-411 | a step changes no path outside those its request owns at that point |
| `Separation.OwnershipExclusive` | app/locks.py:41-66 | what one running request may change no other running request relies on: locks, fresh names and the uploads table keep them apart |
| `Records.OwnStepKeepsRecords` | app/services/multipart_complete.py:149-384 | a request's own step keeps everything its records say, including the listed rows and the assembled pieces |
| `Server.OthersKeepRecords` | app/locks.py:41-66 | a step of one request keeps everything another request's records say |
| `Server.StepKeepsSound` | app/services/multipart_complete.py:148-411 | every step of every request keeps the server's invariant: records, lock exclusion, fresh names |
| `Objects.StepKeepsObjectsAgree` | app/services/object_upload.py:141-301 | object rows and files stay in agreement through every step, except for objects a failed compensation harmed |
| `Objects.StepKeepsHeld` | app/services/object_upload.py:166-301 | away from a commit on the object its row stays, and given bytes at its path or in an uncommitted request's backup stay so held through every step, failed compensations included |
| `Objects.CommitHolds` | app/services/object_upload.py:166-187 | a commit leaves at the object's path bytes that its new row describes, and holds them there |
| `Parts.StepKeepsPartsAgree` | app/services/multipart_upload.py:111-200 | part rows and files stay in agreement through every step, in the upload's directory or where it was moved aside |
| `Parts.StepKeepsPartHeld` | app/services/multipart_upload.py:130-200 | away from a commit on the part its row does not change while it stays, and given bytes held at a part or part-backup name stay held through every step, failed compensations included |
| `Parts.PartCommitHolds` | app/services/multipart_upload.py:130-144 | a commit leaves at the part's path bytes that its new row describes, and holds them there |
| `Uploads.StepKeepsPartsHaveUploads` | app/s3/multipart.py:109-121 | no part row outlives its upload's row |
| `Uploads.StepKeepsEndsOnce` | app/services/multipart_complete.py:249-256 | no upload id is committed as ended twice |
| `Uploads.StepKeepsUploadsHaveDirs` | app/services/multipart_abort.py:89-117 | every upload row keeps its directory, or a running request has it moved aside |
| `Runs.RunKeepsConsistent` | app/services/multipart_complete.py:148-411 | the server's whole invariant holds in every state of every run |
| `Guarantees.NoPayloadLoss` | app/services/multipart_complete.py:228-382 | wherever a run stops, and whichever main and compensation steps failed, the very bytes that were at a committed object or part row's path when the row was last committed are on disk at that path or at a backup or moved-aside place, and are the bytes the row describes |
| `Guarantees.RowsAgreeWithFiles` | app/services/multipart_upload.py:111-200 | outside overlapping locks each row has its file with the recorded size and ETag and each file its row, every upload row has its directory, and no part row outlives its upload, unless a compensation failed there |
| `Guarantees.NamespaceAgrees` | app/s3/object.py:43-55 | at rest rows and bucket files correspond one to one, every bucket file belongs to a valid key, and no stored key is a proper segment-prefix of another |
| `Guarantees.UploadEndsAtMostOnce` | app/services/multipart_abort.py:89-95 | an upload is committed as completed or aborted at most once, after which its rows and directory are gone and no other request holds it |
| `Guarantees.EndedUploadIsRefused` | app/s3/multipart.py:39-48 | every later step of a part upload, completion or abort on an ended upload leaves committed rows alone, and its lookup fails with NoSuchUpload |
| `Guarantees.EndedUploadStaysRefused` | app/s3/multipart.py:39-48 | a part upload, completion or abort that has not found its upload when it ends never does: its steps change no committed row, and if it finishes it has failed and committed nothing, with NoSuchUpload unless one of its primitives raised |
| `Atomicity.AllOrNothing` | app/services/object_upload.py:141-301 | between taking and giving back its lock a request has either committed exactly its change or, unless its own compensation failed, left target and row as it found them with nothing staged; the rest of the bucket is unchanged, whatever other requests do |
| `Atomicity.PartsStay` | app/services/multipart_complete.py:148-384 | while a request completes or aborts an upload, the uploaded parts stay as found, in place or moved aside |
| `Atomicity.PartRowsStay` | app/services/multipart_complete.py:148-384 | until a request that completes or aborts an upload commits, the upload's part rows stay as it found them, whatever other requests do |
| `Atomicity.FailedEndRestoresUpload` | app/services/multipart_complete.py:359-382 | a failed completion or abort whose restore did not fail gives back the upload with every part in place, its row and all its part rows in the tables, nothing moved aside and, unless a deletion failed too, nothing staged |
| `Publishing.CompletePublishesRightObject` | app/services/multipart_complete.py:162-256 | a completion that commits stores the listed parts' bytes in ascending order, with their total size and the ETag built from digests equal to the client's, the stored and the actual ones, and removes the upload |
| `Solo.FailedRunChangesNothing` | app/services/object_upload.py:227-301 | run alone, a failed service whose compensations succeeded leaves every file and every row as it found them |
| `Solo.ReturnedRunDoesItsJob` | app/services/multipart_complete.py:231-411 | run alone, a service that returned has changed exactly its target, its rows and its ended upload |
| `Verdicts.FaultlessRunDecides` | app/services/multipart_complete.py:148-411 | for each of the five services, a call in which no primitive raises ends within 35 steps; it returns iff the state it started in has what it needs (upload row and directory, a good list of parts with recorded and actual ETags, bucket, free place for the key), and otherwise fails with NoSuchUpload, BadPart (any fault of the list), NoSuchBucket or KeyConflict as that state says, or Raised if an upload has no directory or a part's name is one; no compensation or deletion is left undone |
| `Verdicts.RunDecides` | app/services/object_upload.py:128-301 | whatever raises, a finished call has the verdict of its starting state, or Raised because a primitive raised |
| `Solo.ExecKeepsCreatorDirs` | app/services/multipart_create.py:67-96 | all along a creation only the upload's own directory comes or goes: it is there once made, and gone after a cleanup that succeeded |
| `ObjectUploadService.ObjectUpload` | app/services/object_upload.py:73-316 | the imperative service follows the step model to its end; on return exactly the addressed file and row hold the body, its size and MD5, on a compensated failure nothing changed; without faults it returns or fails exactly as its starting state says |
| `MultipartUploadService.MultipartUpload` | app/services/multipart_upload.py:41-214 | the imperative service follows the step model; on return exactly the part's file and row hold the body and the returned ETag is its MD5, on a compensated failure nothing changed; without faults it returns or fails exactly as its starting state says |
| `MultipartCompleteService.MultipartComplete` | app/services/multipart_complete.py:56-411 | the imperative service follows the step model; on return the object holds the listed parts' bytes, the upload is gone and nothing else changed, on a compensated failure nothing changed; without faults it returns or fails exactly as its starting state says |
| `MultipartAbortService.MultipartAbort` | app/services/multipart_abort.py:25-138 | the imperative service follows the step model; on return exactly the upload's files and rows are gone, on a compensated failure nothing changed; without faults it returns or fails exactly as its starting state says |
| `MultipartCreateService.MultipartCreate` | app/services/multipart_create.py:22-98 | the imperative service follows the step model; on return exactly the upload's directory and row are added, on a compensated failure every file, directory and row is as before; without faults it returns or fails exactly as its starting state says |
| `Sessions.Session.DeleteMultipartParts` | app/s3/multipart.py:109-121 | the loop over the part rows flushes the deletion of exactly the upload's parts |
| `Sessions.Session.Compare` | app/services/multipart_complete.py:171-179 | the comparison loop over the zipped lists accepts exactly equal lists |
| `BodyReaders.DeclaredLengthDecides` | app/streams.py:118-134 | a plain declared length of at most 4300 digits is refused exactly when it exceeds the maximum; a longer one raises |
| `BodyReaders.PlainLengthDecides` | app/streams.py:118-134 | the same of any ASCII digits, leading zeros included, by the number they stand for |
| `BodyReaders.OtherLengthsPass` | app/streams.py:118-134 | no header, an empty one, and one with a character that is no digit are let through |
| `BodyReaders.LengthRaises` | app/streams.py:118-134 | the check raises exactly when the chosen header passes `isdigit` and holds a superscript digit or more than 4300 digits; every other malformed header is ignored |
| `BodyReaders.MalformedLengthIsNotIgnored` | app/streams.py:118-134 | one header of each kind that raises |
| `BodyReaders.ReadIsExact` | app/streams.py:80-116 | a read returns the next bytes of the body, fewer than asked only at its end; it fails only if the body is too large; returned plus buffered bytes add up to received bytes |
| `BodyReaders.AnswersAreTheBody` | app/streams.py:80-116 | repeated reads return the body in full slices iff it fits, and otherwise a prefix within the limit followed by a failure |
| `BodyReaders.RequestBodyReader.Read` | app/streams.py:80-99 | the buffered loop computes the specified reply and new state |
| `BodyReaders.RequestBodyReader.Receive` | app/streams.py:101-116 | one chunk is buffered and counted, or the stream is exhausted, or the limit is exceeded |
| `FrameLines.HeaderReadsBack` | app/streams.py:198-205 | a hexadecimal size with any extension after a semicolon reads back as the size |
| `FrameLines.SpelledSizeReads` | app/streams.py:198-205 | a size spelled with digits of either case, a sign, a base prefix, single underscores, blanks around or an extension is read as that size |
| `FrameLines.ReadSizeIsSpelled` | app/streams.py:198-205 | a line that is read as a size is such a spelling of it |
| `ChunkedFraming.FrameAdvances` | app/streams.py:178-196 | every frame that neither ends nor breaks the body strictly decreases the bytes buffered and unread |
| `ChunkedReaders.AwsChunkedReader.DecodeNext` | app/streams.py:178-196 | decoding a frame appends its payload, finishes, or raises as the cursor model says |
| `ChunkedReaders.AwsChunkedReader.NextLine` | app/streams.py:215-234 | the next line, the end, or the failure of the cursor model, with the limit tested on the buffer |
| `ChunkedReaders.AwsChunkedReader.TakeExact` | app/streams.py:236-245 | exactly the bytes asked for, or the failure of the cursor model |
| `ChunkedReaders.AwsChunkedReader.Read` | app/streams.py:157-176 | a read gives as many bytes as asked for if the body owes so many, the rest of a complete body, or its failure |
| `ChunkedDecoding.ReaderIsSound` | app/streams.py:178-234 | whatever the slicing and however the source ends, a reader that finishes has returned exactly the one-shot decoder's payload, and one that fails a prefix of it |
| `ChunkedDecoding.ReaderRefinesDecoder` | app/streams.py:178-245 | with no negative size and no line over 8191 bytes the reader yields the payload or the failure exactly as the one-shot decoder does |
| `ChunkedDecoding.SlicingIndependence` | app/streams.py:215-234 | over a source that slices as it likes, without negative sizes, the result is independent of the slicing iff no terminated line has more than 8191 bytes or the body breaks there with nothing more to give; for a complete body, iff the lines are that short |
| `ChunkedDecoding.NegativeSizeDependsOnSlicing` | app/streams.py:178-245 | two slicings of one body with a negative frame size both end, with different payloads |
| `ChunkedDecoding.NegativeFrameDetermined` | app/streams.py:198-245 | every slicing shows the same first frame of size -n, its line under 8192 bytes, iff at most n bytes follow that line |
| `BodyCuts.FittingAnswers` | app/streams.py:80-116 | the answers to file-sized reads of a body that fits are its slices of 65536 bytes, whatever its chunks |
| `BodyCuts.OversizeAnswers` | app/streams.py:80-116 | the answers for a body that does not fit are full slices of it within the limit, and then the failure |
| `CutDecoding.CutReader` | app/streams.py:157-263 | over slices cut every 65536 bytes the framing reader gives, for every body, line and size, and whether the source ends or fails, what a decoder of bytes and positions gives that has neither slices nor a buffer |
| `CutDecoding.MeetsFailure` | app/streams.py:178-263 | over a source that fails, the reader fails as the source does exactly when the bytes run out: no line and no frame among them ends or breaks the body |
| `CutDecoding.CutsMatterToLines` | app/streams.py:215-234 | without negative sizes the slices give what the one-shot decoder gives if no cut leaves more than 8192 bytes of a line buffered without its end, and otherwise the body breaks |
| `ChunkedDecoding.DecodeEncode` | app/streams.py:178-213 | the one-shot decoder inverts the encoder |
| `ChunkedDecoding.ChunkedRoundTrip` | app/streams.py:157-245 | for every frames, extensions and trailers, every slicing of their encoding and every sequence of read sizes, the reads return the frames' bytes one after the other |
| `Uploading.FramingIsAnnounced` | app/streams.py:47-54 | a body is unframed iff the Content-Encoding names `aws-chunked` somewhere, in any capitalization, or the payload hash begins with `STREAMING-` |
| `Uploading.BuildBodyReader` | app/streams.py:26-54 | an oversized declaration is refused; otherwise the reader promises the body's payload, unframed iff the headers announce framing, in any capitalization and whatever else they hold |
| `Uploading.Upload` | app/repositories/io.py:140-157 | the destination gets the whole promised payload at once, or no file changes |
| `Uploading.Drain` | app/repositories/io.py:150-155 | the reading loop ends and has written exactly the promised payload, or fails as the reader does |
| `BodyDelivery.PlainBodyDelivered` | app/streams.py:80-116 | an unframed body is delivered whole iff it fits, whatever its chunks and whichever are empty |
| `BodyDelivery.FramedBodyDelivered` | app/streams.py:157-263 | a framed body that fits is decoded as if cut every 65536 bytes, whatever its chunks; without negative sizes it is delivered as the one-shot decoder says if no such cut interrupts a line too late, as none does when lines are short, and breaks otherwise; never more than the allowed bytes are accepted |
| `BodyDelivery.NetworkCutsDoNotMatter` | app/streams.py:80-116 | two ways the network cuts one body that fits come to the same payload and end, framed or not, whatever its lines and sizes |
| `BodyDelivery.NetworkIndependence` | app/streams.py:101-116 | the fate of a framed body is independent of the network iff it fits, or the bytes that the limit allows in full slices run out: no line and no frame among them ends or breaks the body |
| `BodyDelivery.FinalFrameLines` | app/streams.py:215-234 | for a body of one final frame with an extension: complete, short up to 8191 bytes, and read in one go up to the first 65536-byte cut |
| `BodyDelivery.LongLineWitness` | app/streams.py:215-263 | a complete body with a line of 8192 bytes depends on an arbitrary source's slices and is delivered by the stack; one with a line of 65535 bytes is refused by it, however the network cuts either |
| `BodyDelivery.OverlongBodyDepends` | app/streams.py:101-116 | every body that begins with its final frame and goes on past a limit of at least 65536 bytes is stored in slices and refused in one piece |
| `BodyDelivery.SentBodyDelivered` | app/streams.py:157-263 | what a client sends in frames is delivered without them, whatever its extensions, trailers and the network's chunks |
| `BodyDelivery.StoreBody` | app/repositories/io.py:281-309 | from chunks and headers to the stored file: refused, or stored whole (the bytes themselves unless the headers announce framing, the decoded payload if they do), or aborted with every file as it was |
| `CanonicalQuery.UriEncode` | app/security/sigv4.py:76-84 | the loop computes the percent-encoding |
| `CanonicalQuery.DecodeEncode` | app/security/sigv4.py:76-84 | below code point 256 the encoding can be undone |
| `CanonicalQuery.EncodedAlphabet` | app/security/sigv4.py:76-84 | an encoding holds only unreserved characters and percent signs, so neither `&` nor `=` |
| `CanonicalQuery.CharactersEncoded` | app/security/sigv4.py:76-84 | exactly letters, digits, `-._~` stand for themselves; every other character becomes a percent sign and its code point in upper-case hexadecimal, in at least two digits |
| `CanonicalQuery.CanonicalQueryString` | app/security/sigv4.py:371-385 | the loop, the sort and the join compute the canonical string |
| `CanonicalQuery.CanonicalListsParameters` | app/security/sigv4.py:371-385 | the canonical string lists all parameters but the signature of query authorization, encoded, as name=value joined by `&`, ascending by code point of encoded name and then value |
| `CanonicalQuery.CanonicalIgnoresOrder` | app/security/sigv4.py:384 | any permutation of the parameters gives the same canonical string |
| `CanonicalQuery.CanonicalDeterminesParameters` | app/security/sigv4.py:371-385 | below code point 256 equal canonical strings mean equal parameters up to order, after dropping the signature for query authorization |
| `CanonicalQuery.FaithfulUpTo256` | app/security/sigv4.py:83 | the canonical form determines parameters below code point n up to order iff n is at most 256 |
| `BucketRows.AcceptedMeans` | app/models/bucket.py:163-215 | what the six CHECK constraints accept under three-valued logic: a known status, Enabled while locked, defaults only while locked, and a whole default or a period without a mode |
| `ObjectLockXml.ParseDefaultRetention` | app/xml/parse_bucket_object_lock.py:78-135 | the loop over the children computes the parsed retention or a ValueError |
| `ObjectLockXml.ParseBucketObjectLock` | app/xml/parse_bucket_object_lock.py:7-60 | the loop over the root's children computes the parsed configuration or a ValueError |
| `ObjectLockXml.ParserLetsThrough` | app/xml/parse_bucket_object_lock.py:123-135 | a configuration is let through iff it enables or says nothing and has no default retention or a mode with exactly one positive period of at most 4300 digits |
| `ObjectLockXml.DocumentIsSaid` | app/xml/parse_bucket_object_lock.py:7-60 | a document is read iff its root is a configuration each of whose children can be read, in any order, and then as they say together: enabled if one says so, and the last Rule |
| `ObjectLockXml.DefaultIsSaid` | app/xml/parse_bucket_object_lock.py:78-135 | a default retention is what its children say together, the last of each name, if that is a mode and exactly one positive period |
| `ObjectLockXml.ParserIgnoresNamespace` | app/xml/parse_bucket_object_lock.py:138-140 | a document in any XML namespace is read as the same document in none |
| `ObjectLockXml.QualifiedDocumentReadsBack` | app/xml/parse_bucket_object_lock.py:7-60 | every configuration the parser lets through has a document in every namespace that is read as it |
| `Integers.DecimalParses` | app/xml/parse_bucket_object_lock.py:103-114 | a decimal numeral reads back exactly when it has at most 4300 digits |
| `Integers.IntegersRead` | app/xml/parse_bucket_object_lock.py:103-114 | `int` reads exactly the numerals of at most 4300 digits, single underscores allowed, with or without a sign, as the number they stand for |
| `Integers.ParsedIsShort` | app/xml/parse_bucket_object_lock.py:103-114 | no non-negative number of more than 4300 digits is ever read, however it is written |
| `BucketSettings.S3Bucket.SetObjectLockConfiguration` | app/s3/object_lock.py:9-36 | assigns the row's lock and retention fields, or raises and changes nothing |
| `BucketSettings.S3Bucket.SetVersioningStatus` | app/s3/versioning.py:30-54 | assigns the row's versioning status, or raises and changes nothing |
| `BucketSettings.SetterKeepsRow` | app/s3/object_lock.py:25-36 | the setters take an accepted row, with anything the parser lets through, to an accepted row, never turning Object Lock off nor restoring Disabled |
| `BucketSettings.SetterDecides` | app/s3/object_lock.py:25-36 | exactly when each setter carries a setting out on an accepted row, what the row is then, and which refusal it gives otherwise: a first configuration that does not enable is malformed, suspending a locked bucket is a state error |
| `BucketSettings.SettingIsCommitted` | app/s3/object_lock.py:9-36 | a request that loads, sets and writes undisturbed commits exactly what it asked for unless it is refused; so Object Lock can be turned on with any default retention the parser lets through |
| `BucketSettings.ConfigurationNeverStepsBack` | app/models/bucket.py:163-215 | however loads, settings and column-wise writes interleave, Object Lock never turns off, versioning stays Enabled once it is on, and Disabled never returns |
| `BucketSettings.WriteKeepsDefaultWhole` | app/models/bucket.py:181-202 | exactly when a column-wise write over whole defaults commits a default that is not whole |
| `BucketSettings.CommittedDefaults` | app/models/bucket.py:163-215 | in every history each committed default retention is none, a mode with one period, or a period without a mode |
| `BucketSettings.OverlapCanBreakDefault` | app/models/bucket.py:181-202 | two overlapping requests can leave a retention period without a mode, which every constraint accepts |

## Left out

- Versioning Enabled and Suspended: these branches of the services are placeholders in the source (`app/services/object_upload.py:189-217`), and `create_object_version` has no caller.
- Failure after effect: `rename` may raise from the fsync that follows the move (`app/repositories/io.py:247-261`), and durability after a power loss depends on fsync order; neither is modelled.
- Recovery after a crash: the source has none, so a crash is the end of a run.
- A crash inside an atomic write: the temporary file of `_atomic_write_stream` (`app/repositories/io.py:281-309`) then stays beside its destination, during a copy-back even in a bucket directory, and no state of a run has it; a run writes a file in one step and stops before or after it.
- Task cancellation inside a service: its handlers catch `Exception` only, so a cancelled task unwinds without compensation; only the cancellation of a lock waiter is modelled.
- Concurrency inside the session methods: each of the five service methods is verified for one call on a session of its own; interleaving is the business of `Server`, whose steps these methods take.
- `load_multipart_parts` awaits a row and a file for each part; the server model takes its reads in one step, which the completion's lock on the upload justifies.
- Fields of rows that nothing here depends on: content type, user, timestamps, and the object's own lock mode and retention.
- `bucket_create`: it compensates with one flag, in the pattern proved for `multipart_create`. Buckets therefore do not appear during a run, but the services' check for a missing bucket is modelled.
- Prefix listing: its meaning rests on the SQL dialect's LIKE and escape rules.
- Splitting a raw query string into parameters: `parse_qsl` is a library function; the canonical query starts from the parameter list.
- HMAC, SHA-256, the canonical request around the query, clocks, date parsing, MIME detection, the XML library, the ORM, routers, hooks, logging, gocryptfs processes and encryption: foreign code or thin wrappers.
- Letters beyond ASCII: `Etags.NormalizeEtag` lowers ASCII letters only, which is all a stored hash holds.
- Directories, in the postconditions of the services that publish or end: they speak of files and rows, and a failed upload may leave empty key-prefix directories. `MultipartCreateService.MultipartCreate` says what becomes of every directory.
- BodyReaders.AnswersAreTheBody: a connection that breaks in the middle of a body raises out of the chunk stream, and is not among these chunk lists; to the framing reader it is a failing source, which `ChunkedDecoding.ReaderIsSound` covers.
- ChunkedDecoding.ReaderRefinesDecoder: negative frame sizes are excluded, because the decoder of the whole has no buffer whose end such a size could slice from; `ChunkedDecoding.NegativeFrameDetermined` says which frames of such a size show the same in every slicing, and `CutDecoding.CutReader` what they are in the slices the application reads.
- ChunkedDecoding.SlicingIndependence: negative frame sizes are excluded for the same reason; which bodies depend on the slicing because of one is said of the frame (`ChunkedDecoding.NegativeFrameDetermined`), not of all that may follow it.
