# GPBeam, modelled and proved in Dafny

GPBeam moves camera footage to disk, then to a cloud server, and may delete the
original. This project models the four parts whose failure would lose footage,
and proves what they guarantee under crashes, retries, partial transfers and
any interleaving:

1. the persisted cloud queue, the drains that work on it, and the bytes on the server and
   the card (`Tables`, `LedgerModule`, `CloudQueue`, `QueueSafety`, `CloudStore`,
   `StoreSafety`, `DeleteSafety`, `QueueSteps`, `Backoff`, `Drain`);
2. resumable transfers in both directions (`Download`, `Chunks`, `Encode`, `Digits`);
3. the two offload loops, from an SD card and over USB (`Storage`, `Naming`, `Transfer`,
   `SdOffload`, `SdRun`, `SdRecovery`, `SdSafety`, `Wired`, `WiredRun`, `WiredSafety`);
4. state derived from them: UI counters, the camera detector and its retry budget, the
   progress throttle (`AppStateModule`, `CloudUi`, `RunTrace`, `Rearm`, `Throttle`).

SQLite is three tables of rows with one function per statement; the same functions
specify the methods of the `Ledger` class and drive the state machine of `CloudQueue`. A
disk is a map from names to bytes whose writes may be damaged, a card or camera a map that
may be swapped, a server a map from remote paths to bytes, BLAKE3 an injective function, the
clock an integer that never goes back. Objects the program mutates are classes; where several
processes interleave, each committed statement is one event of a state machine and a crash
may fall between any two. `CloudStore` puts the bytes beside the tables: what each job's
local file holds, what pre-flight checks and transfers do to the server, and what a drain
removes from the card. The two views are one: every method that touches the ledger (drain,
SD run, wired run, reap) carries a ghost history of `CloudStore` and proves that its tables
are those of the history (`QueueSteps.Records`), so what holds of all histories holds of
the code, whatever other processes did before. `dafny verify dfyconfig.toml` checks everything.

## What the proofs found

Stronger claims than these are false of the code. For each, a lemma shows the case, and its
exact condition is stated with it or by another.

- Remote paths. Wired jobs take theirs from the name before collision numbering, so two files
  that render alike are kept apart on disk and share one remote path
  (`WiredSafety.RemotePathsOfTwoJobs`). With equal sizes the second upload is skipped as already
  present, with unequal sizes it overwrites the first; both jobs end Done, both camera originals
  are deleted, and one file's bytes are stored nowhere (`StoreSafety.TwoFilesOneObject`). Every
  Done job has its own bytes at its remote path, for good, if and only if no two jobs with
  different bytes share a path (`StoreSafety.StoredForGoodIff`); then an original goes only
  after its file is stored (`StoreSafety.OriginalsAreStored`).
- The card file of a mirrored job. After an upload the drain removes whatever lies at the job's
  card path and checks no identity. If another card is mounted there by then, a file goes that
  was never uploaded (`StoreSafety.SwappedCardLosesAFile`). What goes equals the stored object if
  and only if the card path still holds what was committed (`StoreSafety.FreesTheUploadedFileIff`,
  for the jobs of a run `SdSafety.FreesWhatWasUploadedIff`).
- Shared ledger rows. Two files of one card with equal name, size and capture time in different
  directories share one `imported` row, whose status an upsert keeps. The reap can then delete
  the second file although its upload has not started (`QueueSafety.SharedKeyDeletesEarly`). In
  any reachable state, and short of new commits, an uncleared marker's delete can go out with an upload of
  its row unfinished if and only if two of them are, or one is and the row is stamped, is about
  to be, or has been read by a reap (`DeleteSafety.GoesEarlyIff`); if no commit re-records a key
  it never does (`QueueSafety.DistinctKeysNeverDeleteEarly`).
- Crashes on the card path. A canonical name that is the first free number of a file listed
  before it is taken by that file's second copy after a crash, and a second crash then leaves two
  copies of one source (`SdRecovery.BumpedNameDuplicates`, with a history from the start). Any
  number of crashes and one complete run recover everything if and only if there is no such
  pair (`SdRecovery.RecoversIff`).
- Crashes on the wired path. It never adopts: a file renamed but not committed is fetched again
  under a number, and the first copy stays (`WiredSafety.WiredCrashRecopies`).
- Left-over `.part` files are named after the destination. One that stems from another recording
  which rendered alike is resumed by an honest camera, passes size check and verify, and is
  committed (`WiredSafety.PartOfAnotherRecording`). Any prefix that is not the file's has this
  effect (`Download.ForeignPrefixCorrupts`), and over any sequence of connects nothing else can go
  wrong: if each `.part` found is planned for the recording it stems from, every download yields
  the camera's file (`WiredSafety.VisitsYieldTheFiles`).
- A drain can hand back with a job that is already due. The comment at
  `crates/gpbeam-core/src/cloud/worker.rs:392-398` calls this unreachable; it happens exactly when
  no job has left the queue in a pass and by the second look at the clock everything pending has
  become due (`Drain.NoneParkedIffAllDue`, `Drain.CloudWorker.Turn`, and as a run of the drain
  `Drain.BackstopDespiteDueWork`).
- A row is stranded, its uploads over and its camera delete waiting for good, exactly by a crash
  between storing Done and stamping the row when no other job of the row is left
  (`QueueSafety.StrandsExactlyWhen`, `QueueSafety.StrandedForGood`).
- The startup reclaim takes no lock: a job in flight is stored as Queued exactly when one has run
  since it was claimed (`QueueSafety.FlippedExactlyWhen`). Nothing is uploaded twice all the same,
  because only the lock holder claims (`QueueSafety.OneUploader`).
- The re-arm budget. A fresh one is meant for a camera plugged in anew. A replug can go without
  (`Rearm.ReplugWithoutGrant`) and a mere re-arm can get one (`Rearm.GrantWithoutReplug`). Fresh
  budgets and plain detections coincide over a whole history if and only if no re-arm is taken up
  while the camera does not answer, or granted while another detection of it is queued, before a
  later detection (`Rearm.FreshExactlyOnEdges`).
- With verify off, a stray file of the right name and length is adopted for any source
  (`SdSafety.LengthIsNotEnough`); `SdOffload.TryAdopt` has the condition.
- A 206 reply to a request from offset 0 is accepted whatever start it declares
  (`Download.UncheckedStartCorrupts`); a download is right exactly if the accepted body continues
  the bytes before it as the file does (`Download.Attempt`).
- If the cloud events of a job reach the UI before its `CloudQueued`, the pending count is off
  by one for good exactly when nothing else was pending (`CloudUi.LateQueuedDrifts`).
- A file adopted from an earlier crashed run is never deleted from the card inline, although
  delete-after-verify is on (`SdOffload.OffloadItem`).

Where comments and code disagree the model follows the code: a full-length `.part` is
discarded and fetched again (`crates/gpbeam-core/src/wired/client.rs:347-350`), although
lines 298-300 there and `crates/gpbeam-core/src/wired/offload.rs:199-202` say it is only
hashed again.

## Model

| member | source | states |
|---|---|---|
| CloudQueue.Kept | crates/gpbeam-core/src/cloud/worker.rs:334-429 | each of the 22 events keeps the invariant: lock held exactly by the drain under way, rows in flight untouched by others, every Done job confirmed, every done status backed by such a job, every marker and every sent delete justified |
| CloudQueue.Reachable | crates/gpbeam-core/src/ledger.rs:441-571 | the invariant holds in every state reachable by any interleaving |
| QueueSafety.OneUploader | crates/gpbeam-core/src/cloud/worker.rs:334-429 | over all histories no job is in flight in two drains; while one drain passes, every other is idle |
| QueueSafety.PassLeavesNothingUploading | crates/gpbeam-core/src/cloud/worker.rs:184-331 | when a pass returns Ok no row at all is in state Uploading |
| QueueSafety.ReclaimHitsOnlyOrphans | crates/gpbeam-core/src/ledger.rs:563-571 | when a drain reclaims under the lock, no process is uploading anything |
| QueueSafety.RetryDecisionIsCurrent | crates/gpbeam-core/src/cloud/worker.rs:278-300 | the attempt count snapshotted at the claim equals the stored one when the failure is recorded, in spite of requeues and the lockless reclaim |
| QueueSafety.FlippedExactlyWhen | src-tauri/src/lib.rs:414-423 | for every history: a job in flight is stored as Queued if and only if a startup reclaim has run since its claim, else as Uploading |
| QueueSafety.NoJobLost | crates/gpbeam-core/src/ledger.rs:378-405 | Done + pending + given up equals the number of enqueuing commits of the history; every row committed under Auto or Manual has a job |
| QueueSafety.DoneForever | crates/gpbeam-core/src/ledger.rs:501-571 | no continuation of any history takes a job out of Done |
| QueueSafety.CameraDeletesAreBacked | crates/gpbeam-core/src/wired/offload.rs:391-430 | every delete the reap ever sent names a listed file with the size and capture time of its marker, whose key is that of an imported row with a Done, confirmed job |
| QueueSafety.ReapReadsBackedRows | crates/gpbeam-core/src/ledger.rs:319-339 | after any history the reap reads exactly the undeleted markers of its camera whose row is marked done, and each names its recording's row, which has a Done job the uploader confirmed |
| QueueSafety.DistinctKeysNeverDeleteEarly | crates/gpbeam-core/src/wired/offload.rs:391-430 | if no commit re-records a key, every job of the deleted recording's row is Done and confirmed when the delete is sent |
| QueueSafety.SharedKeyDeletesEarly | crates/gpbeam-core/src/ledger.rs:205-219 | for any key shared by two directories there is a history that deletes the second file while its own job is still Queued |
| DeleteSafety.GoesEarlyIff | crates/gpbeam-core/src/wired/offload.rs:391-430 | for any marker of any reachable state: some continuation without new commits sends its delete while an upload of its row is unfinished if and only if two of them are unfinished and it is undeleted, or one is and a reap has read the marker or the row is stamped or about to be |
| QueueSafety.StrandsExactlyWhen | crates/gpbeam-core/src/cloud/worker.rs:231-258 | in any reachable state an event strands a row if and only if it is a crash of a drain that has stored Done for the row and not stamped it, with every job of the row Done and the row not yet marked |
| QueueSafety.StrandedForGood | crates/gpbeam-core/src/cloud/worker.rs:231-258 | a stranded row stays stranded along every history that does not re-record its key |
| CloudStore.TablesFollowQueue | crates/gpbeam-core/src/cloud/worker.rs:100-258 | a history with bytes is, in its tables, a history of the queue, so every law of the queue holds of it |
| CloudStore.StoreReachable | crates/gpbeam-core/src/cloud/worker.rs:100-280 | in every reachable state each stored object is the file of some job that goes to its path, the path of every job whose upload has been confirmed holds an object, and every card file freed belongs to a Done, confirmed job |
| StoreSafety.StoredForGoodIff | crates/gpbeam-core/src/cloud/nextcloud.rs:346-384 | after any history: however it continues without new commits every Done job has its own bytes at its remote path, if and only if no two jobs with different bytes share a path |
| StoreSafety.EveryDoneJobIsStored | crates/gpbeam-core/src/cloud/worker.rs:119-133 | in a history that ends without such a pair, every Done job had its bytes stored at every moment |
| StoreSafety.OriginalsAreStored | crates/gpbeam-core/src/wired/offload.rs:391-430 | then, and if no key is re-recorded, whenever a camera delete has been sent every job of that recording's row has its own bytes in the cloud |
| StoreSafety.TwoFilesOneObject | crates/gpbeam-core/src/wired/offload.rs:265-276 | for any two different files with one remote path there is a history in which both are Done, both originals are deleted and the server holds only one of them: the first if the sizes are equal, else the second |
| StoreSafety.FreesTheUploadedFileIff | crates/gpbeam-core/src/cloud/worker.rs:262-280 | for every history and every removal of a card file after an upload: the job is Done, exactly that file goes, and it equals the stored object if and only if the path holds what it held at the commit |
| StoreSafety.SameCardFreesTheSource | crates/gpbeam-core/src/cloud/worker.rs:262-280 | as long as no card with something else at that path is mounted, the file removed is the committed one |
| StoreSafety.SwappedCardLosesAFile | crates/gpbeam-core/src/cloud/worker.rs:262-280 | for any two different files there is a history that uploads one and deletes the other |
| QueueSteps.ClaimStep | crates/gpbeam-core/src/cloud/worker.rs:86-98 | a claim of the imperative drain is one event of the shared queue, with the attempt counts it hands to the uploads |
| QueueSteps.SettleStep | crates/gpbeam-core/src/cloud/worker.rs:100-317 | one upload from the look at the server to the removal of its card file is a sequence of steps of the shared queue with the same tables, server and card |
| QueueSteps.CommitStep | crates/gpbeam-core/src/transfer.rs:107-149 | a commit is one event of the shared queue; the job's bytes are those of the file committed, and under deferral it owes the marker of that recording and row |
| QueueSteps.ReapOne | crates/gpbeam-core/src/wired/offload.rs:404-428 | handling one due marker is one or two events, and the queue logs a delete exactly if one was sent |
| QueueSteps.TablesAreSafe | crates/gpbeam-core/src/ledger.rs:205-571 | whatever drains, offloads and reaps have done since the ledger was created: markers name rows of their key, rows marked done have a Done job, no job is lost |
| LedgerModule.Ledger.ClaimDueCloudJobs | crates/gpbeam-core/src/ledger.rs:441-498 | claims exactly the first due ids in order, flips exactly those rows, returns them as re-read |
| LedgerModule.Ledger.RequeueFailedCloudJobs | crates/gpbeam-core/src/ledger.rs:547-562 | moves exactly the given-up jobs to pending: the pending count grows by the returned number and none stays given up |
| Tables.Upsert | crates/gpbeam-core/src/ledger.rs:603-628 | keys stay unique, a known key keeps its id and its cloud status, other rows are untouched |
| Tables.UpsertFinds | crates/gpbeam-core/src/ledger.rs:603-628 | looking a key up after recording finds the recorded row, whose id is the old one if there was one and else the next free, and no other lookup changes |
| Tables.DueIds | crates/gpbeam-core/src/ledger.rs:441-470 | strictly ascending due ids, at most the limit, and no earlier due row is passed over |
| Tables.CountsPartition | crates/gpbeam-core/src/ledger.rs:378-405 | done, pending and given-up jobs partition the job table |
| Tables.RequeueCounts | crates/gpbeam-core/src/ledger.rs:547-562 | effect of a requeue on all three counts |
| Tables.ReclaimFrees | crates/gpbeam-core/src/ledger.rs:563-571 | after a reclaim every pending job is due or parked for a later retry, no count has moved, and a second reclaim changes nothing |
| Drain.CloudWorker.Finish | crates/gpbeam-core/src/cloud/worker.rs:220-317 | one result: the job, the status of its row and the event sent agree with the result and with what is retryable; a retry lies at least two seconds ahead; under delete-after-verify a landed upload removes whatever the card then has at the job's card path, and says whether that worked |
| Drain.SettledFacts | crates/gpbeam-core/src/cloud/worker.rs:283-317 | recording any result lowers the termination measure, and the job leaves the queue exactly unless it is to be retried |
| Drain.CloudWorker.RunOnce | crates/gpbeam-core/src/cloud/worker.rs:78-331 | attempts exactly the due jobs up to the limit, each once and no other, leaves none uploading, touches no finished job, sends one event per job that left the queue; the budget falls by at least one per upload; card files are freed only for uploads that landed, and none without delete-after-verify |
| Drain.CloudWorker.SecsUntilNextRetry | crates/gpbeam-core/src/cloud/worker.rs:433-442 | the distance to the nearest retry still ahead, none exactly if there is none |
| Drain.NoneParkedIffAllDue | crates/gpbeam-core/src/cloud/worker.rs:433-442 | no retry lies ahead if and only if everything pending is already due |
| Drain.CloudWorker.Turn | crates/gpbeam-core/src/cloud/worker.rs:360-407 | a turn of the drain loop takes the backstop if and only if no job left the queue and everything pending is due at the second clock reading, after an empty pass or not; an empty turn that goes on has slept until something is due |
| Drain.CloudWorker.RunUntilDrained | crates/gpbeam-core/src/cloud/worker.rs:334-409 | terminates for every uploader, card and forward clock; is a legal history of the shared queue from lock to release; ends with jobs pending if and only if its last turn took the backstop, and no earlier turn qualified for it; uploads are bounded by the sum over pending jobs of max(1, max_attempts - attempts); no two passes in a row claim nothing; every status it changed is that of a finished job of the row |
| Drain.BackstopDespiteDueWork | crates/gpbeam-core/src/cloud/worker.rs:392-407 | a run of the drain, for every retry time and job, that ends in the backstop with the job due |
| Drain.MirroredMeansStored | crates/gpbeam-core/src/cloud/worker.rs:220-258 | if no two jobs with different bytes share a remote path, whatever a drain leaves marked Done has its file on the server |
| Backoff.DelayBounds | crates/gpbeam-core/src/backoff.rs:10-30 | delays are between 2 s and 64 s, double per attempt and saturate |
| Download.Connect | crates/gpbeam-core/src/wired/client.rs:318-427 | the reply that is accepted continues the `.part` at exactly its length or starts the file; with an honest camera its body is what the file has there; one restart at most; a 206 to a request from 0 is accepted whatever start it declares |
| Download.Attempt | crates/gpbeam-core/src/wired/client.rs:310-504 | for every camera: the `.part` stays, goes, or is the seed with the accepted body behind it; success reports the length and hash of what is on disk, which is a prefix of the camera's file if and only if the body continues the seed as the file does; with an honest camera and a usable `.part` it is |
| Download.DownloadResumable | crates/gpbeam-core/src/wired/client.rs:258-284 | the same over any sequence of attempts; a retryable failure is reported only when all attempts are spent |
| Download.LandsRightIff | crates/gpbeam-core/src/wired/client.rs:389-427 | seed and body form a prefix of the file if and only if the seed is one and the body what follows; the step from a reply to what Attempt reports |
| Download.UncheckedStartCorrupts | crates/gpbeam-core/src/wired/client.rs:389-427 | through the retry loop: a 206 that declares another start ends in success with other bytes |
| Download.ForeignPrefixCorrupts | crates/gpbeam-core/src/wired/client.rs:318-427 | through the retry loop: any shorter `.part` that is no prefix of the file is resumed by an honest camera into a file of the right length and the wrong bytes |
| Download.ContentRangeRoundTrip | crates/gpbeam-core/src/wired/client.rs:565-571 | the start of every Content-Range of a satisfied range is read back exactly, for every u64 |
| Chunks.PickChunkSize | crates/gpbeam-core/src/cloud/nextcloud.rs:198-204 | for every u64 size: terminates without overflow with the least doubling of 5 MiB that gives at most 10000 parts |
| Chunks.LeastSizeIsLeast | crates/gpbeam-core/src/cloud/nextcloud.rs:198-204 | no admissible doubling is smaller than the size picked |
| Chunks.LeastSizeUnique | crates/gpbeam-core/src/cloud/nextcloud.rs:198-204 | that size is unique, so every attempt cuts the file the same way |
| Chunks.PartsTile | crates/gpbeam-core/src/cloud/nextcloud.rs:547-553 | the parts lie in the file, each starts where the one before ends, the last ends the file |
| Chunks.AssembleIsFile | crates/gpbeam-core/src/cloud/nextcloud.rs:566-566 | full parts 1..n concatenate to exactly the file |
| Chunks.ChunkNames | crates/gpbeam-core/src/cloud/nextcloud.rs:193-195 | part names parse back to their number and sort as strings in numeric order |
| Chunks.SendPart | crates/gpbeam-core/src/cloud/nextcloud.rs:551-564 | skipping a listed part and sending it leave the same full prefix of parts |
| Chunks.PutChunked | crates/gpbeam-core/src/cloud/nextcloud.rs:515-572 | from whatever earlier attempts left, the assembled object is nothing new or exactly the file; progress strictly increases to the total |
| Chunks.UploadWithRetries | crates/gpbeam-core/src/cloud/nextcloud.rs:515-572 | over any number of interrupted attempts on one upload id the remote object is absent or the file |
| Encode.EncodeSegment | crates/gpbeam-core/src/cloud/nextcloud.rs:216-229 | the loop computes the per-byte encoding |
| Encode.EncodeRoundTrip | crates/gpbeam-core/src/cloud/nextcloud.rs:208-236 | percent-decoding (section 2.1 of RFC 3986) the encoded path gives the path back |
| Encode.EncodeInjective | crates/gpbeam-core/src/cloud/nextcloud.rs:208-236 | distinct remote paths never share a URL path |
| Encode.UrlAlphabet | crates/gpbeam-core/src/cloud/nextcloud.rs:208-236 | only unreserved characters, percent signs and exactly the slashes of the path |
| Digits.LexIsNumeric | crates/gpbeam-core/src/cloud/nextcloud.rs:193-195 | among numerals of one width lexicographic order is numeric order |
| Naming.SanitizeFixes | crates/gpbeam-core/src/naming.rs:34-49 | sanitising changes exactly the names that are no single safe component, and is idempotent |
| Naming.NumberedInjective | crates/gpbeam-core/src/naming.rs:59-69 | different numbers give different names |
| Naming.ResolveCollision | crates/gpbeam-core/src/naming.rs:54-70 | terminates within one more try than there are taken names, with the name itself if free and else its first free number, and stays one safe component |
| Transfer.CommitImported | crates/gpbeam-core/src/transfer.rs:107-149 | records the file and, under Auto or Manual only, queues exactly one upload of it for its row, in one step |
| Transfer.RemotePathInjective | crates/gpbeam-core/src/orchestrator.rs:87-95 | under one root, different file names have different remote paths |
| SdOffload.Scan | crates/gpbeam-core/src/scanner.rs:68-123 | plans exactly the wanted unknown files in order, counts the wanted known ones, and gives each the first free name: pairwise distinct and free on disk |
| SdOffload.VerifyDestHash | crates/gpbeam-core/src/copy.rs:19-31 | Ok under verify means the bytes on disk are those hashed; a mismatch at most removes that one file |
| SdOffload.CopyVerified | crates/gpbeam-core/src/copy.rs:39-95 | success under verify means the destination equals the source on a disk that may corrupt; no other file changes |
| SdOffload.MatchingHash | crates/gpbeam-core/src/orchestrator.rs:101-110 | a hash is returned only for equal files, and for all equal files that can be read |
| SdOffload.TryAdopt | crates/gpbeam-core/src/orchestrator.rs:222-244 | adoption under verify means equal bytes; otherwise equal length |
| SdOffload.OffloadItem | crates/gpbeam-core/src/orchestrator.rs:215-376 | one item, crash included: only its destination may change, a commit means its file holds the source, the job queued is for that file, row and card path, and its card file goes only after a copy and never under Auto; its commit is one event of the shared queue with the file's bytes |
| SdOffload.RunInvStep | crates/gpbeam-core/src/orchestrator.rs:215-376 | one item keeps: all files from before the run, all files committed so far (adopted ones too), and the row of every key leading to its last commit |
| SdRun.RunItems | crates/gpbeam-core/src/orchestrator.rs:215-376 | the whole loop keeps all of it on faulty storage, counts what happened, its events say what happened to each file, and each job queued holds the bytes of its source; on sound storage it is a session, crash or not |
| SdRun.RunOffload | crates/gpbeam-core/src/orchestrator.rs:146-405 | scan, loop and summary as one run; a complete run knows every wanted file of the card |
| SdSafety.LedgerLeadsToSource | crates/gpbeam-core/src/orchestrator.rs:215-327 | with verify on every committed file equals its source at the end of the run, and its ledger row leads to those bytes exactly when the last file committed under its key has them |
| SdSafety.DistinctKeysLeadHome | crates/gpbeam-core/src/orchestrator.rs:215-327 | with distinct keys every row of the run leads to its own source bytes |
| SdSafety.NothingLost | crates/gpbeam-core/src/orchestrator.rs:348-371 | with verify on, a card file that is gone after the run is on disk byte for byte, under a name that was free before, and in the ledger |
| SdSafety.FreesWhatWasUploadedIff | crates/gpbeam-core/src/cloud/worker.rs:262-280 | for a job of a verified run and whatever happens after the run: when a drain removes its card file, that file equals what is stored in the cloud if and only if the card still has there what it had before the run |
| SdSafety.LengthIsNotEnough | crates/gpbeam-core/src/orchestrator.rs:240-243 | without verify any stray file of equal length passes as the source; with verify it does not |
| SdRecovery.RecoversAlways | crates/gpbeam-core/src/orchestrator.rs:215-327 | any number of runs, each cut short anywhere or not, and then a complete one: exactly one file and one row per source, its own bytes at its canonical name, nothing besides |
| SdRecovery.RecoversIff | crates/gpbeam-core/src/orchestrator.rs:215-327 | that holds of every such history if and only if no canonical name is the first free number of a file listed before it, given what is on disk and the names up to that file |
| SdRecovery.BumpedNameDuplicates | crates/gpbeam-core/src/naming.rs:54-70 | for every card with such a pair: a history from the start with two crashes and a complete run that leaves two copies of one source |
| SdSafety.InsertUntilDone | crates/gpbeam-core/src/orchestrator.rs:215-327 | the loop over insertions with inline deletes and crashes anywhere: what it does is such a history, so on completion everything is recovered under that condition; files from before stay in any case |
| SdSafety.FurtherRunCopiesNothing | crates/gpbeam-core/src/scanner.rs:98-101 | a further run plans nothing if and only if everything wanted is known |
| SdSafety.RecoveredCopiesNothing | crates/gpbeam-core/src/scanner.rs:98-101 | after such a history a further run plans nothing |
| Wired.PlanWired | crates/gpbeam-core/src/wired/offload.rs:40-76 | plans as the card scan does, and every listed file is planned or counted as skipped |
| Wired.Fetch | crates/gpbeam-core/src/wired/offload.rs:156-198 | what passes the size check from a `.part` fit to resume is exactly as many bytes of the camera's file as the listing announced, with their hash; an accepted answer is what ends up behind the seed |
| Wired.Settle | crates/gpbeam-core/src/wired/offload.rs:199-318 | rename, verify, commit and delete-or-defer, with a crash before the commit: one file may change, a commit means it holds the downloaded bytes, the marker is left exactly under Auto with delete-after-verify |
| Wired.ReapCameraDeletes | crates/gpbeam-core/src/wired/offload.rs:391-430 | sends a delete for exactly the due markers whose recording is still listed, clears those gone or replaced or answered 200 or 404, keeps the rest and every other row; every delete sent is backed by a Done, confirmed job of the row |
| WiredRun.StreakCounts | crates/gpbeam-core/src/wired/offload.rs:336-357 | the running counter is at least n exactly when the last n downloads failed retryably |
| WiredRun.RunWired | crates/gpbeam-core/src/wired/offload.rs:156-375 | the loop: breaker, counters, events, files, rows, jobs, markers and `.part` files, for every camera, disk, failure and crash, and whatever the `.part` files hold |
| WiredRun.AbortsExactlyWhen | crates/gpbeam-core/src/wired/offload.rs:336-357 | the run aborts exactly when some three downloads in a row fail retryably and the third is not the last of the plan, and stops at the first such place |
| WiredRun.OffloadWired | crates/gpbeam-core/src/wired/offload.rs:96-375 | one connect as a whole, with any `.part` files: reap, plan (every listed file planned or skipped), loop, and an event stream whose summary comes exactly if the run was neither aborted nor cut short; all of it a history of the shared queue |
| WiredRun.RetryIffUnfinished | src-tauri/src/lib.rs:117-119 | a run asks for a re-arm exactly when some planned file was not committed |
| WiredRun.WiredFilesAreTheCameras | crates/gpbeam-core/src/wired/offload.rs:156-375 | with verify on each committed file has the bytes downloaded, which are the camera's if its `.part` was fit to resume; a file leaves the camera in the run only if committed, and never under Auto |
| WiredSafety.VisitsYieldTheFiles | crates/gpbeam-core/src/wired/offload.rs:30-34 | over any sequence of connects, as long as each left-over `.part` that can be resumed is planned for the recording it stems from, every download yields the camera's file |
| WiredSafety.PartOfAnotherRecording | crates/gpbeam-core/src/wired/offload.rs:30-34 | through the download and the commit: a `.part` of one recording, planned for another, ends as a file with the beginning of the one and the rest of the other, verified |
| WiredSafety.WiredCrashRecopies | crates/gpbeam-core/src/wired/offload.rs:199-276 | whatever is on disk at a wanted, unknown file's canonical name stays as it is, and the file is fetched again under its first free number |
| WiredSafety.CrashLeavesUnknown | crates/gpbeam-core/src/wired/offload.rs:199-276 | a crash before the commit leaves the file unknown, unqueued, unmarked and on the camera |
| WiredSafety.WiredMarkersFit | crates/gpbeam-core/src/wired/offload.rs:307-316 | every marker of a run names the row of its key and is found again in a listing of the card as exactly the recording it was made for, also when directories share a name |
| WiredSafety.RemotePathsOfTwoJobs | crates/gpbeam-core/src/wired/offload.rs:265-276 | two wired jobs share a remote path exactly when their files render alike, with different local files; two SD jobs exactly when they upload the same file |
| WiredSafety.WiredOriginalsAreStored | crates/gpbeam-core/src/wired/offload.rs:391-430 | a job of the run, whatever happens later: without shared paths and re-recorded keys, by the time its original is deleted the run's file lies at its remote path |
| CloudUi.FoldAgrees | src-tauri/src/app_state.rs:219-304 | each ledger write and its event change the UI counts and the ledger counts alike, and the saturating subtraction never meets zero |
| CloudUi.UiAgreesFromStart | src-tauri/src/app_state.rs:219-304 | along every history of the queue the UI's pending and failed equal the ledger's |
| Drain.SettledEventFolds | crates/gpbeam-core/src/cloud/worker.rs:220-317 | the one event sent for a result has on the UI exactly the effect that the agreement theorem assumes for the statements recording it |
| CloudUi.LateQueuedDrifts | src-tauri/src/app_state.rs:219-304 | folding in the other order drifts exactly when nothing else is pending |
| RunTrace.CountersExactThroughout | src-tauri/src/app_state.rs:141-218 | at every moment of every SD or wired run the completed bytes are those of the files verified so far, none of a failed file, and files done never exceed the total |
| RunTrace.SummaryMatchesCounters | crates/gpbeam-core/src/orchestrator.rs:379-391 | the bytes of RunComplete equal the UI's final completed bytes |
| RunTrace.CloudEventsDoNotDisturb | src-tauri/src/app_state.rs:251-304 | cloud events in between leave the run counters alone |
| Rearm.Detector.Tick | crates/gpbeam-core/src/wired/detect.rs:101-213 | one poll fires exactly the answering cameras that were absent or re-armed and gave their info, each once |
| Rearm.PluggedInCameraIsBounded | src-tauri/src/lib.rs:131-171 | under any schedule with any other cameras, a camera that keeps answering is offloaded at most, and in the end exactly, min(first clean run, 1 + MAX_WIRED_REARMS) times |
| Rearm.OneMoreTickFires | crates/gpbeam-core/src/wired/detect.rs:101-213 | until it is settled a tick leaves it queued, so the bound is reached |
| Rearm.GrantsAreBounded | src-tauri/src/lib.rs:131-171 | however cameras flap, at most 1 + MAX_WIRED_REARMS runs lie between two fresh grants |
| Rearm.FreshExactlyOnEdges | src-tauri/src/lib.rs:131-171 | over a whole history of ticks and runs fresh budgets go exactly to detections no re-arm caused, if and only if no re-arm is wasted or overtaken before a later detection of the camera |
| Rearm.PluggedInNeverSlips | crates/gpbeam-core/src/wired/detect.rs:101-213 | for a camera that keeps answering that never happens |
| Rearm.ReplugWithoutGrant | src-tauri/src/lib.rs:146-150 | for every camera a history in which a replug gets no fresh budget |
| Rearm.GrantWithoutReplug | src-tauri/src/lib.rs:146-150 | for every camera a history in which a re-arm gets a fresh budget |
| Throttle.PercentFacts | crates/gpbeam-core/src/progress.rs:33-45 | the percentage never falls and is 100 exactly at or past the total, saturation included |
| Throttle.ThrottleGuarantee | crates/gpbeam-core/src/progress.rs:33-45 | strictly increasing percentages, at most 101, the final one exactly when the total is reached |
| Throttle.Watch | crates/gpbeam-core/src/progress.rs:33-45 | the object admits exactly the specified percentages |

## Left out

- HTTP, TLS, SQLite, flock, fsync and keychain calls: only their results, as free replies, atomic steps and a lock bit.
- Ledger I/O errors inside a drain or an offload loop, which end the pass or the run: a crash at the same place is covered.
- Writes abandoned by a timeout that land later; temporary and `.part` file names that collide with footage; case-insensitive file systems.
- CloudStore.Next: a transfer stores a whole local file or nothing (Chunks has the parts); objects that others put on or take off the server, and local files edited between the commit and the upload, are not modelled; a file is identified with its bytes.
- SdOffload.CopyVerified: the two temporary-file steps before the rename are not separate states, since a crash there leaves no file under a planned name.
- SdRecovery.RecoversIff: speaks of cards whose wanted files have distinct keys and distinct canonical names that are free at the start, on storage that keeps what it is given; faulty storage is the matter of SdRun.RunItems.
- WiredRun.OffloadWired: the listing is an input; the info request and the free-space guard are not modelled; a crash in the middle of a download is not a separate state, since it leaves the same `.part` as a download that breaks off.
- Drain.CloudWorker.RunOnce: uploads of one pass touch the server one after another, in any order of finishing; uploads that overlap are covered by the histories of CloudStore, the Uploading event is not modelled.
- Download.Attempt: sleeps between attempts and the idle timeout are not modelled; a stalled body is a body that stops short.
- Chunks.PutChunked: MKCOL, checksums and the random upload id of a call without resume state are not modelled, nor is the single-request upload of small files.
- RunTrace.CountersExactThroughout: any throttled subset of ticks is allowed, so the throttle and the loops are proved apart.
- AppStateModule.ApplyRun: sequence numbers, timestamps, the remaining-time estimate, the skip and queue counts of the summary and the wording of two messages.
- CloudUi.Fold: assumes each event is folded in the order of its ledger write; delivery order is not modelled.
- Rearm.Advance: the live wired toggle, pausing during an offload and a closed channel are not modelled.
- `stream_hash_to_part`, which only its own tests call, resume_state JSON, migrations and history queries.
- EXIF and date rendering, media classification, JSON and XML tokenising: rendered names, kinds and listings are inputs.
- Auto-eject, credentials, configuration, tray, notifications and all of `ui/`.
