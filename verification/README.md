# Chunked uploads and their conversion: a verified model

The service receives a video in numbered blocks, stores each block in a file, joins the files when all blocks
have come, and hands the result to a queue of conversions. This project models that pipeline and proves what it
keeps: that nothing is lost, duplicated or mixed up, under which conditions, and what happens outside them.

| module | models |
|---|---|
| `Decimal`, `Names` | block file names, when two sessions share one |
| `Storage`, `BlockStore` | files, digests, the block store as functions |
| `FileBuilding` | the builder of one session, as a class over a digest array and a byte buffer |
| `Tasks` | one upload task, as atomic steps and as one transition |
| `UploadControl` | the table of builders, as a class |
| `Views`, `Interleaving` | any number of tasks of any number of uids, step by step; reduction to serial runs |
| `Sessions` | the small account per uid that table and directory implement |
| `SharedUid`, `Builds` | several tasks of one uid at once, from the opening of a session to its deletion; overlapping builds |
| `Retries`, `Changes` | the same block pushed twice at once; blocks pushed again with other bytes |
| `Runs`, `Deletion`, `LastChunks` | the deletion beside other tasks of the uid: when it goes wrong, and when not |
| `ConvertQueue`, `ConvertConfig` | queue with condition variable and destructor; command line of a conversion |
| `UploadRequests`, `Pipeline` | numbers and ids read by the handler; uploads and conversions together |
| `Delivery` | from the callback to the conversion: nothing forgotten, nothing stuck |
| `Outputs`, `Overtaken` | the finished file while later uploads go on; a conversion overtaken by one |

How the parts fit: the class methods are proved equal to the transition `Tasks.Serve`; `Tasks.FinishIsServe`
proves that transition equal to the step machine run alone; `Interleaving.Reduction` proves every interleaving
equal to a serial run; `Sessions.SessionRefinement` proves what the serial run means. For tasks of one uid that
overlap, `Deletion.OverlapSpoilsIff` says when the session can go wrong and `Deletion.CleanRound` what holds when
it cannot. `Delivery.CallbacksDelivered` and `Delivery.AnnouncedCanBeConverted` take each callback on to its
conversion.

What the results rest on:

- Failing operations are inputs. A request carries the environment's answers: whether a builder can be
  constructed, whether the block file opens, whether the output opens. An output that does not open swallows its
  writes silently, as in the code, and the callback is made all the same. How many bytes the output stream holds
  back after each block is an input as well.
- The digest is an arbitrary function that never returns the empty string. The code uses SHA-256 (section 6.2 of
  FIPS 180-4); no property of it is used except where a lemma says so.
- `Undefined` marks what the code leaves undefined: a block number outside 1..total, which it only asserts, or
  the use of a builder that was deleted. The handler refuses 0 but does not compare the number with the total.
  A run in which a task ends `Undefined` has no meaning after that task; in serial runs `Sessions.UndefinedIff`
  gives exactly those requests.
- Totals lie between 1 and 2^32 - 1: the handler refuses 0; above the bound `clear` does not end
  (`FileBuilding.LoopEndsIff`) and `build` ends by an exception unless a file with the wrapped number 0 exists
  (`FileBuilding.BuildEndsIff`).
- No uid is a block name of another (`Names.SeparatedIff`); `Interleaving.IsolationIff` shows that this is needed.
- The serial reading of a run (`Interleaving`, `Sessions`, `Pipeline`) asks that tasks of one uid do not overlap.
  `SharedUid`, `Builds` and `Deletion` allow overlap. There a builder has an identity, its number among those made
  for the uid, and using one that is no longer in the table is `Undefined`. That is earlier than in the code, where
  the object lives until the deleting task has removed its block files; every run shown to go wrong uses it later.
- The destructor of the queue notifies without the lock, so a stop can go unnoticed until the next wakeup;
  `ConvertQueue.StopWakeupLostIff` says exactly when.

## Model

| member | source | states |
|---|---|---|
| Decimal.DecReadsBack | src/logic/upload/controller/impl/builder/FileBuilder.cpp:50 | std::to_string of a block number prints a numeral that reads back as the number, without leading zeros |
| Decimal.DecInjective | src/logic/upload/controller/impl/builder/FileBuilder.cpp:83 | different numbers print differently |
| Decimal.SignedDecInjective | src/components/http/post/upload/UploadHandler.cpp:57 | different signed video ids give different uids |
| Decimal.DecPrefix | src/logic/upload/controller/impl/builder/FileBuilder.cpp:96 | a non-empty leading part of the numeral of i is the numeral of i / 10^k |
| Names.BlockNameInjective | src/logic/upload/controller/impl/builder/FileBuilder.cpp:50 | the block files of a uid have different names, and none is named like the finished file |
| Names.SharedBlockName | src/logic/upload/controller/impl/builder/FileBuilder.cpp:96-97 | if two uids share a block file name, the longer uid is the shorter one followed by a block number in range |
| Names.OverlapIff | src/logic/upload/controller/impl/builder/FileBuilder.hpp:18-32 | blocks and outputs share a directory: two sessions can touch a common file if and only if one uid is the name of a block file of the other |
| Names.SeparatedIff | src/logic/upload/controller/impl/builder/FileBuilder.hpp:18-32 | all uids of a system are separated if and only if no uid is a block name of another |
| UploadRequests.VideoIdsOverlapIff | src/components/http/post/upload/UploadHandler.cpp:57 | the same for the uids the handler makes: sessions of videos a and b overlap if and only if one id is the other, non-zero and of the same sign, with a block number appended |
| UploadRequests.LeadingDigits | src/components/http/post/upload/UploadHandler.cpp:84-88 | from_chars takes the longest run of leading digits |
| UploadRequests.ParsePrint | src/components/http/post/upload/UploadHandler.cpp:84-88 | parsing undoes printing below 2^64, whatever non-digit text follows |
| UploadRequests.ReadsIff | src/components/http/post/upload/UploadHandler.cpp:84-88 | a string reads as n > 0 if and only if it is the numeral of n < 2^64 after any zeros and before any non-digit text; all else reads as 0 |
| UploadRequests.AdmitsIff | src/components/http/post/upload/UploadHandler.cpp:38-45 | the handler goes on if and only if both numbers are spelled out, positive and below 2^64 |
| Storage.WriteAt | src/logic/upload/controller/impl/builder/FileBuilder.cpp:95-103 | a stream positioned at an offset overwrites there, keeps the rest, and fills a gap with zeros |
| Storage.BlockSpan | src/logic/upload/controller/impl/builder/FileBuilder.cpp:49-60 | block k lies in the output right after the blocks before it |
| BlockStore.CountIsTotalIff | src/logic/upload/controller/impl/builder/FileBuilder.cpp:25-31 | the count of non-empty digests equals the total if and only if no digest is missing |
| BlockStore.PushCounts | src/logic/upload/controller/impl/builder/FileBuilder.cpp:35-42 | a push raises that count by one if and only if it succeeds on a block without a digest, and never lowers it |
| BlockStore.GatherIsConcat | src/logic/upload/controller/impl/builder/FileBuilder.cpp:49-60 | over complete block files the build loop writes exactly their concatenation, in order |
| BlockStore.Reassembly | src/logic/upload/controller/impl/builder/FileBuilder.cpp:25-61 | blocks of any string pushed in any order with any repetitions: ready if and only if 1..n were all pushed, and then build yields the string |
| FileBuilding.LoopEndsIff | src/logic/upload/controller/impl/builder/FileBuilder.cpp:80-93 | the loop of clear, a 32-bit counter against a 64-bit total, ends if and only if the total is at most 2^32 - 1 |
| FileBuilding.BuildEndsIff | src/logic/upload/controller/impl/builder/FileBuilder.cpp:49-53 | the loop of build also leaves by an exception at a missing file: beyond 2^32 - 1 blocks it ends if and only if one of the names u0 .. u4294967295 is missing, u0 being no block's name |
| FileBuilding.LoopVisitsInOrder | src/logic/upload/controller/impl/builder/FileBuilder.cpp:81-84 | until then the loop visits 1..n once each in order, without wrapping |
| FileBuilding.FileBuilder.constructor | src/logic/upload/controller/impl/builder/FileBuilder.cpp:13-18 | a new builder has one empty digest per block |
| FileBuilding.FileBuilder.IsReady | src/logic/upload/controller/impl/builder/FileBuilder.cpp:25-31 | true if and only if every digest is recorded |
| FileBuilding.FileBuilder.GetHashIfNeedWrite | src/logic/upload/controller/impl/builder/FileBuilder.cpp:63-78 | a write is needed if and only if the stored digest differs; the new digest is returned |
| FileBuilding.FileBuilder.WriteBlock | src/logic/upload/controller/impl/builder/FileBuilder.cpp:95-103 | the block file holds exactly the value, other files are untouched; if it does not open, nothing changes |
| FileBuilding.FileBuilder.UpdateBlockHash | src/logic/upload/controller/impl/builder/FileBuilder.cpp:105-111 | exactly that digest is replaced |
| FileBuilding.FileBuilder.PushBlock | src/logic/upload/controller/impl/builder/FileBuilder.cpp:35-42 | in place, the store transition; a push that throws changes neither digests nor directory |
| FileBuilding.FileBuilder.CopyBlock | src/logic/upload/controller/impl/builder/FileBuilder.cpp:53-59 | through one grow-only buffer exactly the bytes of the block are appended, no stale ones |
| FileBuilding.FileBuilder.Enlarged | src/logic/upload/controller/impl/builder/FileBuilder.cpp:54 | resize keeps the bytes and appends zeros |
| FileBuilding.FileBuilder.ReadInto | src/logic/upload/controller/impl/builder/FileBuilder.cpp:56-57 | reading fills the front of the buffer and leaves the stale rest |
| FileBuilding.FileBuilder.Build | src/logic/upload/controller/impl/builder/FileBuilder.cpp:44-61 | the output is the blocks up to the first missing one; it succeeds if and only if all are there; no other file changes |
| FileBuilding.FileBuilder.Clear | src/logic/upload/controller/impl/builder/FileBuilder.cpp:80-93 | removes exactly the block files 1..n |
| Tasks.GetStep | src/logic/upload/controller/impl/UploadControllerImpl.cpp:58-68 | after the lookup the task holds the builder that is in the table, or has ended by an exception because there was none and none could be made |
| Tasks.BuilderStep | src/logic/upload/controller/impl/builder/FileBuilder.cpp:63-78 | digest comparison, recording and readiness test are separate critical sections; they change nothing but the table, keep the builder there, and a task that finds its session incomplete returns |
| Tasks.WriteStep | src/logic/upload/controller/impl/builder/FileBuilder.cpp:95-103 | truncating and filling a block file are separate steps that change no other file |
| Tasks.BuildStep | src/logic/upload/controller/impl/builder/FileBuilder.cpp:44-61 | build in one step per file operation, closing of the stream included: no other file than the finished one changes, and every read fits the buffer |
| Tasks.Step | src/logic/upload/controller/impl/UploadControllerImpl.cpp:38-54 | every step brings the task strictly closer to its end and keeps its counters and reads within bounds |
| Tasks.UndefinedStepIff | src/logic/upload/controller/impl/builder/FileBuilder.cpp:66 | a step is undefined if and only if it uses a builder that has left the table, or a block number outside 1..total |
| Tasks.StepKeepsOwn | src/logic/upload/controller/impl/UploadControllerImpl.cpp:38-54 | a task keeps the builder it looked up |
| Tasks.AnyPartReleased | src/logic/upload/controller/impl/builder/FileBuilder.cpp:59 | with each block any part of the bytes written so far may reach the file, as the environment chooses |
| Runs.FinishRuns | src/logic/upload/controller/impl/UploadControllerImpl.cpp:38-54 | a task in flight can run to its end by its own steps, in any state |
| Outputs.FinishFromClose | src/logic/upload/controller/impl/builder/FileBuilder.cpp:60-61 | a task that has written all blocks puts what its stream holds and comes to its callback, whether or not its builder is still there |
| Tasks.FinishClear | src/logic/upload/controller/impl/builder/FileBuilder.cpp:80-93 | the removal steps remove exactly the remaining block names |
| Tasks.FinishBuild | src/logic/upload/controller/impl/builder/FileBuilder.cpp:48-60 | from any buffer content, and however the output stream holds bytes back, the build steps append exactly what it held and the remaining blocks, up to a missing one, where they throw |
| Tasks.FinishReady | src/logic/upload/controller/impl/UploadControllerImpl.cpp:48-53 | once ready: output, removal of blocks, deletion, one callback, or an exception at a missing block |
| Tasks.FinishIsServe | src/logic/upload/controller/impl/UploadControllerImpl.cpp:38-54 | the task run step by step is the same function as the one-transition task |
| UploadControl.UploadController.GetFileBuilder | src/logic/upload/controller/impl/UploadControllerImpl.cpp:58-68 | the entry of the uid becomes the old builder, a new blank one, or an empty pointer; nothing else changes |
| UploadControl.UploadController.DeleteFileBuilder | src/logic/upload/controller/impl/UploadControllerImpl.cpp:70-78 | the entry is gone, its block files are gone, nothing else changes |
| UploadControl.UploadController.BuildAndDelete | src/logic/upload/controller/impl/UploadControllerImpl.cpp:48-53 | state and outcome once every block is there |
| UploadControl.UploadController.PushBlock | src/logic/upload/controller/impl/UploadControllerImpl.cpp:34-56 | the controller's heap state after a request, and its outcome, are those of the transition proved equal to the step machine |
| Views.StepOnlyOwn | src/logic/upload/controller/impl/UploadControllerImpl.cpp:42-53 | a step changes nothing but the files, table entry and callbacks of its own uid |
| Views.StepCongruent | src/logic/upload/controller/impl/UploadControllerImpl.cpp:42-53 | a step depends on nothing but the files, table entry and callbacks of its own uid |
| Views.FinishOnlyOwn | src/logic/upload/controller/impl/UploadControllerImpl.cpp:42-53 | the same for a whole task |
| Views.FinishCongruent | src/logic/upload/controller/impl/UploadControllerImpl.cpp:42-53 | a whole task carries equal views to equal views and ends the same way |
| Interleaving.ServeViews | src/logic/upload/controller/impl/UploadControllerImpl.cpp:34-56 | a whole request leaves what every other separated uid sees unchanged |
| Interleaving.SerialViews | src/logic/upload/controller/impl/UploadControllerImpl.cpp:34-56 | in a serial run each uid sees what its own requests produce alone |
| Interleaving.StartReduces | src/logic/upload/controller/impl/UploadControllerImpl.cpp:34-56 | starting a task of an idle uid keeps the reduction invariant |
| Interleaving.AdvanceReduces | src/logic/upload/controller/impl/UploadControllerImpl.cpp:34-56 | every step of every task keeps the reduction invariant |
| Interleaving.Reduction | src/logic/upload/controller/impl/UploadControllerImpl.cpp:34-78 | every step-level interleaving, same-uid tasks serialised and uids separated, ends with the directory and table of the serial run, the same callbacks per uid, and for each uid what its tasks give alone |
| Interleaving.OutcomeReduces | src/logic/upload/controller/impl/UploadControllerImpl.cpp:34-56 | a task in flight is the last of its uid to have started and will end as it does in the serial run, whatever the others do |
| Interleaving.MoveAllowedIff | src/logic/upload/controller/impl/UploadControllerImpl.cpp:34-56 | in every state exactly these moves are possible: a new request within its cap, and the next step of any task in flight; a serialised start waits for tasks of its own uid only |
| Interleaving.HistoryIff | src/logic/upload/controller/impl/UploadControllerImpl.cpp:48-53 | the recorded history is exactly what the run did: who deleted, who became undefined, how often who called back |
| Interleaving.SharedNameOverwritten | src/logic/upload/controller/impl/builder/FileBuilder.cpp:45-46 | separation is needed: an upload whose uid is a block name of another replaces that block |
| Interleaving.IsolationIff | src/logic/upload/controller/impl/builder/FileBuilder.hpp:18-32 | whole requests leave the other uids alone, in every state, if and only if no uid is a block name of another |
| Sessions.StayRepresents | src/logic/upload/controller/impl/builder/FileBuilder.cpp:25-31 | the count of recorded digests equals the total if and only if every number 1..total was pushed successfully in this session; otherwise the session stays open with exactly its last values |
| Sessions.ServeRepresents | src/logic/upload/controller/impl/UploadControllerImpl.cpp:42-53 | one request moves the state as the small per-uid account moves: total fixed by the first push, value per block, emit and start over when full |
| Sessions.BuildAndClear | src/logic/upload/controller/impl/builder/FileBuilder.cpp:44-61 | after build and clear the output is the concatenation and no block file is left |
| Sessions.UndefinedIff | src/logic/upload/controller/impl/builder/FileBuilder.cpp:66 | a request violates the asserted range if and only if its number is outside 1..total of the open session, later totals being ignored |
| Sessions.OutcomeIff | src/logic/upload/controller/impl/UploadControllerImpl.cpp:34-56 | a request ends by an exception if and only if no builder can be made, or its block is in range, not held with that digest, and the file does not open; undefined if and only if out of range; otherwise it returns, complete or not; if it does not return, files, callbacks and an open session are unchanged |
| Sessions.ReturnedRecords | src/logic/upload/controller/impl/builder/FileBuilder.cpp:35-42 | a request that returns and leaves the session open has recorded its block's digest beside a file with that digest, and no other block changed |
| Sessions.NullLeftIff | src/logic/upload/controller/impl/UploadControllerImpl.cpp:63-65 | an empty entry stays in the table if and only if there was no builder and construction failed |
| Sessions.SessionRefinement | src/logic/upload/controller/impl/UploadControllerImpl.cpp:34-78 | in every state of every interleaving, each uid without a task in flight has the builder, blocks, output and callback count of its account; no builder is ready |
| Sessions.InFlightUndefinedIff | src/logic/upload/controller/impl/UploadControllerImpl.cpp:34-56 | a task in flight will end undefined if and only if its block number lies outside 1..total of the session it meets; tasks of one uid that do not overlap never use a deleted builder |
| Sessions.InFlightOutcomeIff | src/logic/upload/controller/impl/UploadControllerImpl.cpp:34-56 | the same outcomes for a task in flight, whatever tasks of other uids do |
| Sessions.DirectoryExact | src/logic/upload/controller/impl/builder/FileBuilder.cpp:80-93 | at every quiet point the directory holds the finished outputs and the blocks of open sessions, and no other file |
| Sessions.PostAlike | src/logic/upload/controller/impl/builder/FileBuilder.cpp:74-77 | skipping a known digest keeps the account equal to the plain last-value account up to values with equal digests |
| Sessions.SkipRefinesPlain | src/logic/upload/controller/impl/builder/FileBuilder.cpp:35-42 | over any requests the digest-skipping store is the plain last-value map up to equal digests, and exactly when no two values of a block collide |
| Sessions.SkipLosesIff | src/logic/upload/controller/impl/builder/FileBuilder.cpp:74-77 | one request loses the pushed value if and only if the block is in range and holds other bytes with the same digest |
| Sessions.PartialUpload | src/logic/upload/controller/impl/builder/FileBuilder.cpp:35-42 | after any earlier uploads and whatever fails in between, until the last block comes the session holds exactly the blocks that came |
| Sessions.UploadRoundTrip | src/logic/upload/controller/impl/UploadControllerImpl.cpp:42-53 | after any earlier uploads and whatever failed in between, the push that completes the cover of 1..n emits the original blocks in order, for any digest function |
| SharedUid.AdvanceSound | src/logic/upload/controller/impl/builder/FileBuilder.cpp:35-42 | with clients that upload one file and send a block again, while it is in flight, only when it is recorded: every step before the deletion keeps digests and disk in agreement and every task's builder in the table |
| SharedUid.RecordedIsComplete | src/logic/upload/controller/impl/builder/FileBuilder.cpp:35-42 | in every such state from the opening of a session to its deletion a recorded digest means a complete, correct block file, even with the write split and with retries of recorded blocks |
| SharedUid.RecordedNeverRewritten | src/logic/upload/controller/impl/builder/FileBuilder.cpp:95-111 | a block being opened or filled has no recorded digest; every task holds the builder in the table, and none is undefined |
| SharedUid.ReadinessNeverLost | src/logic/upload/controller/impl/UploadControllerImpl.cpp:44-48 | in every reachable state, whatever is pushed: if all digests are recorded and no task that holds the builder is about to look, some move of the run was a look that found this builder ready |
| SharedUid.FindsComplete | src/logic/upload/controller/impl/builder/FileBuilder.cpp:25-31 | a look finds ready only a builder that is still in the table and complete |
| Retries.TearRuns | src/logic/upload/controller/impl/builder/FileBuilder.cpp:35-42 | of two requests with the same unrecorded block, the one still to look up the builder can empty the file after the other has recorded it |
| Retries.TearsIff | src/logic/upload/controller/impl/builder/FileBuilder.cpp:35-42 | when a request for a block starts, some continuation before the deletion leaves a recorded digest beside a wrong file if and only if another task is in flight with that block, the block is not recorded, and its file opens for both |
| Changes.RecordedMatches | src/logic/upload/controller/impl/builder/FileBuilder.cpp:35-42 | whatever bytes clients push, if no block is pushed twice at a time: a recorded digest is the digest of the block file unless a task stands between opening and recording it |
| Builds.PartRight | src/logic/upload/controller/impl/builder/FileBuilder.cpp:59 | what a build puts into the finished file, at whatever moment the stream lets it go, are the bytes of the uploaded file that belong there |
| Builds.WriteRight | src/logic/upload/controller/impl/builder/FileBuilder.cpp:59 | overlapping builds write at their own places: every byte is right unless a build that emptied the file is still to come to it |
| Builds.BuildExact | src/logic/upload/controller/impl/builder/FileBuilder.cpp:44-61 | if some builds empty the finished file and all of those have closed it, the file is exactly the uploaded file, whatever other builds are doing |
| Builds.LoneBuildExact | src/logic/upload/controller/impl/builder/FileBuilder.cpp:44-61 | a build finishes with exactly the uploaded file if no other emptied it since it opened it |
| Builds.StaysExactIff | src/logic/upload/controller/impl/builder/FileBuilder.cpp:46 | a right finished file stays right in every state up to the deletion if and only if no later build opens it |
| Deletion.DeletionRuns | src/logic/upload/controller/impl/UploadControllerImpl.cpp:70-78 | a task that deletes, whether it finds a builder or not, comes to its callback and changes no finished file |
| Deletion.OverlapSpoilsIff | src/logic/upload/controller/impl/UploadControllerImpl.cpp:48-54 | once a task deletes the builder, some continuation uses the deleted builder or calls back twice for the session if and only if another task still holds it |
| Deletion.CleanRound | src/logic/upload/controller/impl/UploadControllerImpl.cpp:48-54 | if no other task holds the builder and none of the uid moves meanwhile: the finished file is the uploaded file, nothing is undefined, and once the callback is made builder and block files are gone and there was exactly one callback |
| Deletion.RoundReopens | src/logic/upload/controller/impl/UploadControllerImpl.cpp:58-78 | and then the next session of the uid can open, so that all of the above holds of it, if and only if no two tasks wait with the same block |
| Deletion.ClearRobsIff | src/logic/upload/controller/impl/UploadControllerImpl.cpp:70-78 | while the block files of a deleted builder are being removed, a run in which the next session loses a recorded block exists if and only if the removal is not finished |
| LastChunks.LookUndefined | src/logic/upload/controller/impl/UploadControllerImpl.cpp:44-48 | two chunks of a two-chunk file in parallel: a run in which one task deletes, clears and calls back while the other stands between recording its digest and testing readiness, and then uses the destroyed builder |
| LastChunks.TwoCallbacks | src/logic/upload/controller/impl/UploadControllerImpl.cpp:48-52 | a run of the same two requests with two callbacks |
| LastChunks.EmptiedOutput | src/logic/upload/controller/impl/builder/FileBuilder.cpp:46 | a run of the same two requests in which the callback announces a file that the second build has emptied |
| LastChunks.RetryTearsBlock | src/logic/upload/controller/impl/builder/FileBuilder.cpp:95-103 | the smallest such damage: a run of a chunk and its retry, sent before the answer came |
| LastChunks.BuiltDuringChange | src/logic/upload/controller/impl/builder/FileBuilder.cpp:95-103 | a run that builds and announces a file without its first block, because that block, recorded, is just being rewritten with other bytes |
| ConvertQueue.StepKeepsInvariant | src/logic/convert/controller/impl/ConvertControllerImpl.cpp:27-71 | every step of producers, consumer and destructor keeps conservation, wakeup and stop invariants |
| ConvertQueue.FifoConservation | src/logic/convert/controller/impl/ConvertControllerImpl.cpp:29-71 | handed ++ in hand ++ queue is, in every reachable state, the sequence of jobs that producers called with, in the order of their emplacements |
| ConvertQueue.NoLostWakeup | src/logic/convert/controller/impl/ConvertControllerImpl.cpp:65-71 | asleep beside a non-empty queue implies a producer between its unlock and its notification |
| ConvertQueue.HandsNext | src/logic/convert/controller/impl/ConvertControllerImpl.cpp:34-55 | from every reachable state before the exit, notifications already due and the consumer's own moves can hand over the first job of the queue |
| ConvertQueue.ProducerFinishes | src/logic/convert/controller/impl/ConvertControllerImpl.cpp:65-71 | a producer that has called can come to its end by the consumer's moves and its own, its job then being the last enqueued |
| ConvertQueue.SpuriousHarmless | src/logic/convert/controller/impl/ConvertControllerImpl.cpp:34-41 | a spurious wakeup beside an empty queue ends where it began |
| ConvertQueue.HandedIff | src/logic/convert/controller/impl/ConvertControllerImpl.cpp:29-56 | progress, stopped or not: the job at place k of the queue has been handed over if and only if the awake consumer has made the computed number of steps, whatever the producers do |
| ConvertQueue.DrainsBeforeExit | src/logic/convert/controller/impl/ConvertControllerImpl.cpp:43 | the consumer returns only when stopped and with every enqueued job converted |
| ConvertQueue.StopDrains | src/logic/convert/controller/impl/ConvertControllerImpl.cpp:29-56 | stopped and awake: the distance to the exit shrinks by one with each consumer step and grows by four with each job that still arrives, whatever else producers and destructor do |
| ConvertQueue.StopExitsIff | src/logic/convert/controller/impl/ConvertControllerImpl.cpp:29-56 | so it has exited if and only if it has made that many steps, having handed over every job enqueued before and every job that arrived in time, in order |
| ConvertQueue.StaysAwake | src/logic/convert/controller/impl/ConvertControllerImpl.cpp:34-41 | once stop is set an awake consumer never sleeps again |
| ConvertQueue.StopWakeupLostIff | src/logic/convert/controller/impl/ConvertControllerImpl.cpp:59-63 | the destructor's notification is lost if and only if it falls between the consumer's test and its sleep |
| ConvertQueue.JoinIff | src/logic/convert/controller/impl/ConvertControllerImpl.cpp:59-63 | the destructor can come to its end by its own moves and the consumer's if and only if its notification was not spent on a consumer about to sleep |
| ConvertConfig.Filled | src/logic/convert/controller/impl/ConvertConfig.cpp:252-258 | only index 3 and the last entry differ from the template |
| ConvertConfig.ArgumentVector.Apply | src/logic/convert/controller/impl/ConvertConfig.cpp:252-258 | the overwritten vector is the template filled for this job, whatever jobs came before |
| ConvertConfig.Stem | src/logic/convert/controller/impl/ConvertControllerImpl.cpp:76-77 | everything before the last dot, or the whole name |
| ConvertConfig.ArgumentsOf | src/logic/convert/controller/impl/ConvertControllerImpl.cpp:73-83 | the input is the finished file of the job, the last argument the manifest inside the directory named by the file name up to its last dot, all else the template |
| ConvertConfig.Converter.Convertion | src/logic/convert/controller/impl/ConvertControllerImpl.cpp:73-83 | that directory is made and one process started, with the job's own input and manifest |
| ConvertConfig.Converter.ConvertAll | src/logic/convert/controller/impl/ConvertControllerImpl.cpp:29-56 | over any sequence of jobs each execution depends on its own job only |
| Pipeline.UploadKeepsJobs | src/components/convert/DashConvertComponent.cpp:25-29 | every job in the queue was announced by a callback, kept by upload steps |
| Pipeline.GuardHolds | src/components/convert/DashConvertComponent.cpp:25-29 | the queue accepts every callback: the task that makes it has not called before |
| Pipeline.Projects | src/components/convert/DashConvertComponent.cpp:25-29 | uploads running beside the consumer are a run of the upload machine |
| Outputs.OutputIsARound | src/logic/upload/controller/impl/UploadControllerImpl.cpp:48-52 | the output of the account is a completed round, the latest one if outputs opened |
| Outputs.OutputBetweenOpens | src/logic/upload/controller/impl/builder/FileBuilder.cpp:44-61 | uploads of a uid one after the other: in every state in which no task of it has the finished file open, the file is that of the requests served so far, those before a task that has not opened it yet |
| Outputs.FileStaysIff | src/logic/upload/controller/impl/builder/FileBuilder.cpp:46 | a finished file that nobody has open stays as it is in every state of a run if and only if no task of its uid opens it |
| Outputs.AnnouncedStaysIff | src/logic/upload/controller/impl/UploadControllerImpl.cpp:48-52 | an announced file is a completed upload whenever no task has it open, and stays so exactly while none of its uid opens it |
| Pipeline.SystemPipeline | src/logic/convert/controller/impl/ConvertControllerImpl.cpp:73-83 | in every state each converted job has the input and manifest path of its uid; while no task of that uid has the finished file open, the file is a completed upload, the latest one if outputs opened |
| Overtaken.HandedOverEmpty | src/logic/upload/controller/impl/builder/FileBuilder.cpp:46 | a run in which the conversion of a first upload is handed over while a second one of the same video, strictly later, has emptied the file |
| Pipeline.DirectoriesDistinct | src/logic/convert/controller/impl/ConvertControllerImpl.cpp:76-78 | different video ids are converted into different directories |
| Pipeline.ManifestsDistinct | src/logic/convert/controller/impl/ConvertControllerImpl.cpp:76-81 | the manifest of a video lies in the directory named by its id, and different videos have different manifests |
| Delivery.CallbacksDelivered | src/components/convert/DashConvertComponent.cpp:25-29 | in every reachable state each callback's job, counted with repetitions, is handed over, in hand, queued, or still to be emplaced, exactly once |
| Delivery.AnnouncedCanBeConverted | src/components/convert/DashConvertComponent.cpp:25-29 | in every reachable state not told to stop, the conversion side by itself can go on until the job of any announced uid is handed over |
| Delivery.SystemMoveIff | src/components/convert/DashConvertComponent.cpp:25-29 | in every reachable state exactly the moves of the uploads and those of the queue but a call are possible |

## Left out

- FileBuilding.FileBuilder.constructor: that the workspace directory exists is the flag `constructs` of a request; the constructor itself does not throw.
- Tasks.UndefinedStepIff: counts a builder as gone from its removal from the table, a little earlier than the code destroys it.
- SharedUid.RecordedIsComplete: two pushes of one unrecorded block at once are outside; Retries.TearsIff says exactly when they do damage.
- Changes.RecordedMatches: with changed bytes only digest and file are compared; which of the values a build takes is not said.
- Deletion.CleanRound: speaks of the deletion by a task whose output opened.
- Interleaving.Reduction: says nothing about runs in which tasks of one uid overlap.
- Pipeline.SystemPipeline: claims nothing of a finished file while a task has it open; Overtaken.HandedOverEmpty shows it empty then.
- Tasks.WriteStep: a block file removed and created again while a task has it open takes that task's bytes here; such a task lost its builder and is undefined at its next step.
- ExpirationFileBuilder only forwards to the builder and stores a clock reading that nothing uses; garbage collection has an empty body.
- The consumer loop, the producers and the destructor are a state machine on values, since their meaning is their interleaving; `Convertion` and the argument vector are classes.
- A block is filled in one step after its truncation, and one read or one write of `build` is one step; system calls inside them are not split.
- Block names are plain names in one directory: path separators in a uid, which the handler cannot produce, are not modelled.
- Disk-full and short writes, a block file that disappears between measuring and reading it, and read errors: unchecked by the code.
- A conversion that throws would end the consumer in the code; here conversions do not fail.
- The internals of the digest, of locks and condition variables, and task cancellation inside the wait loop.
- The semaphore around a conversion is new for each job and limits nothing; processes are recorded, not awaited.
- HTTP, CORS, JSON and multipart parsing, component registration, configuration schemas, database handlers and the streaming handler.
