# Corti: verification of the filing pipeline, the quality record, the credential resolver and the live transcript

Corti records calls, transcribes them and files notes. This project models its crash-safe core in Dafny and proves
what that core promises. It has five parts; each part is a group of modules, one file per module.

**The filing pipeline.** `RecordingState` is everything durable about one recording: queue row, retry job, filing
checkpoint, cloud-staging marker, raw audio. `RetryPolicy` holds the pure decisions of the retry worker.
`FilingPipeline` is the worker itself, a class whose methods follow the source step by step. Every durable write is
one call of `Commit`, which may be interrupted before or after it takes effect and may report failure although it took
effect (an atomic replacement does so when only the directory sync fails). Interruption is the outcome `Crashed`,
which every operation passes on at once. Every load of the checkpoint and every other read may fail although what it
reads is intact. The worker keeps a ghost history of all durable writes, of failed loads, and of all effects outside
the disk: calls of the note command and its answers, backend calls with what they may leave in the cloud, deletions.
`FilingHistory` says which effect may follow which state (`Allowed`) and what must hold after every single effect
(`Sound`), and derives the promises about whole runs: no second note and no second transcription once either is on
record, one final note whose path stays on record, an answered note owned by something durable when the claim ends,
decodes bounded by the armed budget and bound to the recorded backend, an AWS call only with its owner on record,
remote objects named by a local file, jobs parked only with their budget spent, no armed recording without an active
job. A ghost counter of failures and interruptions lets contracts say what is left if nothing goes wrong, and how many
failures a success may have tolerated on the way. `Run` accepts any messages in any order with crashes and restarts at
any point. `ReopenedRecording`, `UnreadCheckpoint` and `DroppedLiveNote` treat the exceptions below. `PrivateFile` is
the atomic file replacement underneath, `CheckpointReconcile` the stored form of the checkpoint, and `Retention` the
files of a whole cache directory, under sweeps, completions, cleanings and captures.

**The quality record.** `QualityActivity` is the echo-activity evidence, `QualityEpochs` the capture epochs with their
two clocks, `QualitySpans` the positioned loss spans, their coalescing and their order; `QualityRecord` is the bounded
record and `QualityMerge` the union of two snapshots; `QualityOverlay` imports a transient history into the retained
baseline, `QualityProjection` is the part that fits a note's front matter, and `QualityReading` what a record says of
completeness and of the far reference; `QualityRecovery` settles the processing losses after a whole-file decode.
Records are read frame by frame (`Says`), and by class (`Owes`).

**The credential resolver.** `CredentialState` has one method for each region under the lock; `CredentialProtocol`
interleaves any number of threads, one locked region a step.

**The live transcript.** `LiveTypes`, `LiveReplica` (the window's fold of the store's events), `LiveStore` (the
bounded store, and the two put together), `Utf8`, `BoundedDeque`, and the log ring `ConsoleRing`.

**Evidence names.** `EvidenceNames` pairs the printers of evidence file names with the recogniser that deletes by
them.

## Findings

- *A duplicate delivery can reopen a finished recording.* When arming the retry job fails, `process_live_result`
  (app/src/pipeline.rs:821-831) calls `fail_with_note`, whose update (app/src/pipeline.rs:2019-2031) writes `Failed` over
  any row, a `Done` one included. After a manual retry the note can then be filed a second time.
  `ReopenedRecording.ReopeningForgets` says exactly when the note is forgotten, and
  `ReopenedRecording.ReopenedRecordingIsFiledTwice` is the concrete run.
- *An intact checkpoint that fails to load twice is transcribed again.* `retry_transcription` treats a checkpoint that
  does not load as absent (app/src/jobs.rs:406-416), and so does `with_filing_checkpoint` right before the backend
  (app/src/pipeline.rs:1464-1467). If both loads of one claim fail, there is audio, the row waits and no payload owns a
  final note, then a claim within its budget (app/src/jobs.rs:242-255) asks the recorded backend again if that is the
  configured one, and files an empty transcript if it is not (app/src/pipeline.rs:1376-1382); either way the new
  checkpoint (app/src/pipeline.rs:1674-1757) forgets a canonical note and a staging that only the old one named. The
  condition for the backend is `UnreadCheckpoint.DecodedAgainExactly`, the concrete run
  `UnreadCheckpoint.UnreadCheckpointIsDecodedAgain`; the promises about notes, transcripts and remote objects are proved
  up to it. A single failed load loses nothing unless the audio is gone: then the recording fails
  (app/src/jobs.rs:500-506) although its transcript is stored.
- *A note that was filed live can be filed again.* If the row was made during the call, enqueuing the finished recording
  still runs an update that can fail (crates/corti-queue/src/lib.rs:483-491). The error branch of `Process`
  (app/src/pipeline.rs:336-365) takes the row to be missing and drops the live outcome, which alone knows that the note
  is final. The next start revives the recording without an origin (app/src/pipeline.rs:1170-1187), so its attempt is
  refused and filed with the note as a partial one, or, if that was moved, with a second note:
  `DroppedLiveNote.RevivedIsRefused` and the concrete run `DroppedLiveNote.DroppedLiveNoteIsFiledAgain`. When the
  enqueuing succeeds, no checkpoint names a note yet and no error is reported, `FilingPipeline.Worker.Process` keeps the
  note as final or the recording fails.
- *A late live note can hide the final one.* `live_note_created` replaces the path of any existing row
  (app/src/pipeline.rs:965-973), a Done one included. `FilingHistory.LateNoteForgets` says exactly when the old path is
  then on record nowhere; `FilingHistory.FinalNoteStays` is proved up to it.
- *Two recordings can share a file name.* The cleaned sibling of the stem `S` is the raw audio of the stem `S-clean`
  (crates/corti-capture/src/lib.rs:291-299). Completing `S` removes that file at once (app/src/pipeline.rs:1976-1995), the
  offline cleaner writes over it (app/src/transcribe.rs:717-724), and the sweep removes it when `S` expires
  (app/src/jobs.rs:623-635). `Retention.AudioAtRisk` says exactly which steps reach which audio, and
  `Retention.CleanSiblingCollides` is an example. It takes two kept recordings that start in the same second of local time
  and whose app names differ by "clean": one recorder runs at a time and drops spans under three seconds
  (crates/corti-detect/src/lib.rs:36), so either the local clock shows a second twice (the end of summer time, a clock
  set back), or the other recording is the manual webinar capture, started in the second in which a call of an app named
  "Webinar clean" is detected (app/src/main.rs:712, which is refused only while the detector already records).
- Ownership of a note survives a manual retry although the new payload carries none (app/src/jobs.rs:214-221), because
  re-arming merges it into the parked payload (crates/corti-queue/src/lib.rs:633-659): `FilingPipeline.ManualRetryRemembers`.

## Model

| member | source | states |
|---|---|---|
| RetryPolicy.DecodesOnlyUnownedWork | app/src/jobs.rs:352-380 | at dispatch the worker turns to the backend if and only if there is audio, the row waits for a transcript or a note, no checkpoint was loaded, and the retry payload names no canonical note |
| RetryPolicy.CanonicalNoteWins | app/src/jobs.rs:268-280 | a canonical note in the loaded checkpoint or in the payload is the owned note, and is filed from the checkpoint that names it or completed with the payload's path |
| RetryPolicy.NoteOrder | app/src/jobs.rs:268-280 | of several notes the final one wins, and of two final ones the checkpoint's; among partial notes the checkpoint's goes before the payload's and the row's comes last |
| RetryPolicy.RetryNoteOrder | app/src/pipeline.rs:664-735 | after a failure on the live path the note that came with the error goes before the checkpoint's, and that before the live one |
| RetryPolicy.DispatchTable | app/src/jobs.rs:352-445 | each action of the worker has its own condition on status, checkpoint, payload note and audio, and exactly one of them holds |
| RetryPolicy.SelectedIsRecorded | app/src/transcribe.rs:357-370 | a backend may be used if and only if it is the configured one and the origin of the attempt names it |
| RetryPolicy.ClaimCarriesOrigin | app/src/jobs.rs:225-235 | a claim carries the recorded origin, and first-batch authority only as claim number one |
| RetryPolicy.MergeGrows | crates/corti-jobs/src/lib.rs:122-156 | merging payloads never loses a canonical note, never touches the origin or the flags, and is idempotent |
| RetryPolicy.MergeOrder | crates/corti-jobs/src/lib.rs:122-156 | the merged payload is independent of the order of two deliveries if and only if they do not compete: different notes, both canonical or both partial with none owned before, over no canonical note |
| FilingHistory.OnRecordUntilReleased | app/src/pipeline.rs:1871-1970 | between two points of a lawful history without a release, a recording that is Done, or of which the checkpoint or the payload names a canonical note, stays such a recording, and a transcript on record stays on record |
| FilingHistory.FinalNoteStays | app/src/pipeline.rs:1871-1970 | as long as no two final notes are named at the start, and up to a release or a late live note of another path on a Done row, the path of the final note itself stays on record |
| FilingHistory.OneFinalNote | app/src/pipeline.rs:871-931 | up to a late live note of another path on a Done row, the Done row, the checkpoint and the payload never come to name two different final notes |
| FilingHistory.LateNoteForgets | app/src/pipeline.rs:965-973 | a late live note on a Done row forgets the path that the row showed if and only if it is another one and neither checkpoint nor payload names the old one |
| FilingHistory.NoSecondNote | app/src/pipeline.rs:1871-1970 | once a canonical note is on record in the checkpoint, the Done row or the retry payload, a call of the note command is preceded by a release: the sweep's expiry, a failure written over a Done row, or a checkpoint written over one that could not be loaded |
| FilingHistory.NoSecondDecode | app/src/pipeline.rs:1440-1468 | once a checkpoint or a canonical note is on record, a backend call is preceded by such a release, or two loads of the intact checkpoint failed within the claim that makes it |
| FilingHistory.TwoMisreads | app/src/pipeline.rs:1458-1468 | a checkpoint is written over another, and a backend asked about a transcribed recording, only if at least two loads of an intact checkpoint failed since any claim before it |
| FilingHistory.AnsweredNoteIsOwned | app/src/pipeline.rs:1929-1965 | when the note command has answered with a path and ordinary work ends the claim without a restart in between, that path is named as final by the Done row, the checkpoint or the retry payload |
| FilingHistory.AnsweredOncePerClaim | app/src/pipeline.rs:1871-1927 | after the note command has answered it is not called again before the job is claimed anew or taken back by a restart |
| FilingHistory.NoOrphans | app/src/pipeline.rs:1300-1343 | as long as no checkpoint is written over one that could not be loaded, no remote staging is forgotten |
| FilingHistory.DecodesWithinBudget | app/src/jobs.rs:225-255 | between two armings, over all claims and crashes, backend calls never exceed the armed maximum and all use the recorded origin |
| FilingHistory.EveryCallIsOwned | app/src/pipeline.rs:1540-1568 | before every AWS call the marker names the attempt that is on the row and the configured place, and what the call leaves in the cloud is what the marker names; a local call happens without a marker and leaves nothing |
| FilingHistory.RemoteWasOwned | app/src/pipeline.rs:1563-1568 | over a whole run nothing is in the cloud that was not there at the start and that no such call left under the marker it had |
| FilingHistory.AttemptNameStays | app/src/pipeline.rs:1540-1554 | over a whole run the name of an attempt, once on the row, stays until the expiry, unless a running job of a recording that waits for its note gives it the other name |
| FilingHistory.ParkedIsSpent | crates/corti-jobs/src/lib.rs:453-490 | over a whole run a job that is parked was parked by a write of a running claim whose attempts had reached the maximum, when the recording was terminal |
| FilingHistory.FirstBatchIsFirst | app/src/pipeline.rs:768-807 | between two backend calls of which the second has first-batch authority lies a write of the retention sweep |
| FilingHistory.AtEveryPoint | app/src/pipeline.rs:1272-1343 | at every point of a run every remote object is named by the marker or the checkpoint, or was forgotten with an overwritten checkpoint; and an armed recording that still waits has an active job |
| FilingHistory.NothingRemoteWhenFiled | app/src/pipeline.rs:1822-1825 | when a note is requested, or a recording becomes Done, no remote object is left that any local file ever named, except those forgotten with an overwritten checkpoint |
| FilingHistory.DoneShowsAWrittenNote | app/src/pipeline.rs:1929-1951 | a recording becomes Done only with a note whose final body was written before |
| FilingHistory.RetentionIsOrderly | app/src/jobs.rs:586-621 | raw audio disappears only from a terminal recording without unresolved staging or by the act of another recording that shares its file name; a row only after its audio, checkpoint, marker and job |
| FilingHistory.StepAt | app/src/pipeline.rs:446-466 | every effect of a lawful history was allowed in the state before it, and the states before and after it are sound |
| RecordingState.ResolvedExactly | app/src/checkpoint.rs:366-380 | staging counts as unresolved if and only if the checkpoint cannot be read or some owner is named |
| FilingPipeline.Worker.Commit | app/src/private_file.rs:111-158 | a durable write takes effect or not, may be interrupted either way, and success means that it took effect |
| FilingPipeline.Worker.DeleteRemote | app/src/transcribe.rs:209-232 | a reported deletion means that the objects are gone |
| FilingPipeline.Worker.CleanupAwsStaging | app/src/pipeline.rs:1300-1343 | all owners are deleted before any of them is forgotten; success leaves no owner and nothing remote but orphans; a checkpoint or a marker that does not load stops it |
| FilingPipeline.Worker.PrepareAwsStaging | app/src/pipeline.rs:1272-1296 | success leaves exactly the wanted owner in the marker, after a different one was deleted and removed, and no failure on the way is ignored; only the marker changes |
| FilingPipeline.Worker.FailWithNote | app/src/pipeline.rs:2000-2049 | only the row changes: it is Failed with the note of the checkpoint as far as that loads, else the preferred one, else its own; and it is so if nothing goes wrong |
| FilingPipeline.Worker.CompleteWithNote | app/src/jobs.rs:168-187 | path and Done are written together or not at all |
| FilingPipeline.Worker.RewriteCheckpointNote | app/src/pipeline.rs:1838-1866 | a canonical path is returned as it is; the checkpoint's partial note, or else the row's, is rewritten and returned if and only if its file is there, and otherwise there is none |
| FilingPipeline.Worker.AddNote | app/src/pipeline.rs:1895-1922 | the note command can be called only with a stored checkpoint, no canonical note on record, no named remote object, and no answer yet in this claim; a path is reported exactly if nothing failed, and has its final body |
| FilingPipeline.Worker.OwnAndComplete | app/src/pipeline.rs:1932-1964 | if nothing goes wrong the checkpoint names the path as final in one write and the row is Done with it in the next; only the first write may fail on the way to a success; after a failure the path is canonical in the checkpoint, or, if that write failed as well, the error carries it |
| FilingPipeline.Worker.FileAndDone | app/src/pipeline.rs:1871-1971 | success means Done with the path the note command answered with, or else the owned note, the checkpoint's before the row's; the command answered if and only if that note is neither final nor there when looked at; after a failure an answered path is in the checkpoint or in the error |
| FilingPipeline.Worker.FileCheckpoint | app/src/pipeline.rs:1811-1834 | success means Done with that note, no marker, nothing remote but orphans, and no failed load; if nothing goes wrong the checkpoint is gone, too; after a failure an answered path is in the checkpoint or in the error |
| FilingPipeline.Worker.CleanupCompletedArtifacts | app/src/pipeline.rs:1976-1995 | called only on a Done recording with nothing remote, it removes the checkpoint and nothing else; a failed removal is tolerated |
| FilingPipeline.Worker.CompleteCanonicalNote | app/src/pipeline.rs:871-931 | success means Done with exactly this path, no marker and nothing remote but orphans, and no checkpoint if nothing goes wrong; a failure that changed the row leaves a canonical note in the checkpoint or in the error; the checkpoint keeps its origin as far as it loads |
| FilingPipeline.Worker.FileRefusedRecovery | app/src/pipeline.rs:1360-1438 | success means Done without a marker, with the path that the note command answered with, or else the partial note that was owned before; the command answered if and only if there is no such note or its file is gone |
| FilingPipeline.Worker.PromoteAndFile | app/src/pipeline.rs:1470-1506 | the recording is filed from its stored checkpoint without a backend call and with the note that filing uses, keeps its note and its attempt until it is Done, and keeps the checkpoint's origin |
| FilingPipeline.Worker.AskBackend | app/src/pipeline.rs:1599-1613 | a backend can be asked only within the authority and budget of the claim, with nothing loaded that says the recording was transcribed, the attempt named on the row, and the marker naming that attempt and the configured place for AWS, and nothing for a local one; it is exactly one call, of the configured backend |
| FilingPipeline.Worker.PrepareAttempt | app/src/pipeline.rs:1540-1568 | the row gets status Transcribing and the name it has, or else the ordinary one; then the marker names that attempt and the configured place for AWS, and nothing for a local backend; no failure is ignored |
| FilingPipeline.Worker.PublishTranscript | app/src/pipeline.rs:1674-1770 | success means that exactly the checkpoint of this attempt is stored: the owned note, the owner of the cloud objects and the origin; no failure is ignored |
| FilingPipeline.Worker.TranscribeWithoutCheckpoint | app/src/pipeline.rs:1508-1791 | at most one backend call, none unless the configured backend is the recorded one, and on success exactly then; the call was made under the name that the row had, or else the ordinary one; success means Done without a marker, with the note that was owned or answered; until then the row keeps its note |
| FilingPipeline.Worker.CheckpointAndFile | app/src/pipeline.rs:1674-1790 | the row changes only once a checkpoint with the origin of this attempt is stored, or is Done; this holds also where the run is cut; success means Done with the note that was owned or answered |
| FilingPipeline.Worker.TranscribeAndFile | app/src/pipeline.rs:1440-1468 | with a checkpoint that loads no backend is asked; with an intact one a backend is asked only after its load failed; without one it is asked, on success, exactly if it may be |
| FilingPipeline.Worker.RetryTranscription | app/src/jobs.rs:389-508 | a claimed job that succeeds may be forgotten; a waiting recording then is Done if there is audio, a canonical payload note, or a checkpoint all of whose loads worked, and Failed otherwise; if nothing goes wrong it is Done with the owned or the answered note and without checkpoint and marker, or Failed with the owned note; a backend is asked only if it may be, and without a checkpoint, on success, exactly then; a terminal row stays as it is, and a row fails only without audio; an answered path is in the Done row, the checkpoint or the error; a success tolerated at most two failures besides checkpoints that did not load |
| FilingPipeline.Worker.ActOnClaim | app/src/jobs.rs:404-445 | the action follows from what loads; whenever a claim that is not stale changes anything, the row shows the note owned before, or is Done, or failed with the note of its checkpoint; an attempt that asks a backend for a recording that waits for its note has the other name, any other keeps its name or gets the ordinary one |
| FilingPipeline.Worker.Act | app/src/jobs.rs:446-507 | every action has its own final state: stale leaves all as it is, missing audio fails the row with the owned note, everything else ends Done with the owned or the answered note; only the two transcribing actions ask a backend or name an attempt |
| FilingPipeline.Worker.ClaimDue | crates/corti-jobs/src/lib.rs:386-426 | a claim counts one attempt durably, leaves room for one backend call, and starts with no answered note and no failed load |
| FilingPipeline.Worker.SettleJob | crates/corti-jobs/src/lib.rs:502-559 | the job gets its phase and the merged payload in one write; it can be parked only when its attempts have reached the maximum and the row is terminal, and settled only when the checkpoint or that payload names an answered path |
| FilingPipeline.Worker.OnExhausted | app/src/jobs.rs:302-340 | success means that the row is absent or terminal; only the row changes, and only to Failed with a note of the checkpoint, the payload or the row; if nothing goes wrong a row that was not terminal has failed with the checkpoint's note, else the payload's, else its own |
| FilingPipeline.Worker.RecordRetryBackoff | app/src/pipeline.rs:558-591 | a row that is absent or terminal stays as it is; of any other only the status changes, and if nothing goes wrong it waits for its note if it did so before or has a checkpoint, and else for a transcript |
| FilingPipeline.Worker.FinishJob | app/src/pipeline.rs:468-545 | a failed job with budget left is never parked and its row not made terminal, whatever else fails; if nothing goes wrong it is pending again with its attempts counted and its row waits; a failed job without budget is parked only with a terminal row, and if nothing goes wrong it is, with the row failed unless it was terminal; the payload takes over the note that only the error names; when the job is no longer running, an answered path is named by the Done row, the checkpoint or that payload |
| FilingPipeline.Worker.SettleFailure | app/src/pipeline.rs:490-522 | the same for the failure alone: budget decides between another attempt and parking, and a recording that cannot be made terminal keeps a pending job |
| FilingPipeline.Worker.DrainDueJob | app/src/pipeline.rs:446-464 | a due job with budget left, of a recording that can be filed, ends Done with the owned or answered note and is deleted, with neither checkpoint nor marker left, unless something failed or was interrupted; a round parks a job, or fails a recording that has audio, only if it spends the last attempt; a job that is not due is left alone; after an uninterrupted round that settled the job an answered path is durably named |
| FilingPipeline.Worker.EnqueueRecording | crates/corti-jobs/src/lib.rs:278-341 | a new job is armed as asked; an existing one keeps phase, attempts, budget and origin and only takes over the note |
| FilingPipeline.Worker.ScheduleRetry | app/src/pipeline.rs:664-735 | if nothing goes wrong the retry job owns, with the local origin and the plain budget, the returned note, else the checkpoint's, else the live one, and the row shows it and waits; if the row changed and did not fail, the payload owns what it shows |
| FilingPipeline.Worker.InsertRow | crates/corti-queue/src/lib.rs:445-496 | a tracked recording keeps its row as it is, and enqueuing it fails at most when the capture's processing is attached; another one gets a waiting row or, on a failure, perhaps not |
| FilingPipeline.Worker.Process | app/src/pipeline.rs:287-384 | what an untroubled first delivery leaves, for every live outcome; if the recording cannot be enqueued the outcome is dropped and nothing but the row can change; if it can, no note was in the checkpoint and no error is reported, a note that was filed live is named as final or the recording failed |
| FilingPipeline.Worker.ProcessLiveResult | app/src/pipeline.rs:738-834 | without an error, and with no note in the checkpoint, a filed live note is named as final or the recording failed; any other outcome, untroubled, arms one job with its origin, partial note and budget |
| FilingPipeline.Worker.LiveNoteCreated | app/src/pipeline.rs:941-990 | if nothing goes wrong the row shows the note, whatever its status, and a missing row is created with status Recording exactly if the session is owned; nothing else changes, and a failed read changes nothing |
| FilingPipeline.Worker.ManualRetry | app/src/pipeline.rs:596-651 | row and job are reset together, and only for a Failed recording whose inputs survive and whose checkpoint is not unreadable; without trouble exactly these are reset |
| FilingPipeline.ManualRetryRemembers | crates/corti-queue/src/lib.rs:633-659 | a manual retry keeps the note, the origin and the transcript that are on record |
| FilingPipeline.ManualRetryArms | app/src/pipeline.rs:596-651 | what the reset arms: a full budget if nothing was active, no first-batch authority, the note and the origin of the old job or else the origin of the checkpoint; the row waits for its note exactly if the checkpoint was loaded |
| FilingPipeline.Worker.Restart | app/src/pipeline.rs:223-271 | only a process that is down starts; without trouble the durable state becomes exactly what startup takes up; at any interruption the state is sound |
| FilingPipeline.RestartTakesUp | app/src/pipeline.rs:1096-1187 | what startup makes of every durable state: a running job is pending with its attempts, a stored transcript waits for its note, a recording that was cut off waits for its transcript or has failed without audio; what is newly armed has a full budget and no origin; nothing else changes |
| FilingPipeline.Worker.RecoverRunning | crates/corti-jobs/src/lib.rs:563-572 | an orphaned claim becomes pending with its attempts and payload kept |
| FilingPipeline.Worker.Rearm | app/src/pipeline.rs:1096-1140 | the row changes only when a job is active; without trouble both are as wanted |
| FilingPipeline.Worker.CloudCleanup | app/src/jobs.rs:533-545 | a recording that is not terminal is left as it is; otherwise only owners are forgotten, and if nothing goes wrong and the checkpoint is readable none is left and nothing remote but orphans |
| FilingPipeline.Worker.Sweep | app/src/jobs.rs:586-621 | young, nonterminal and cloud-owning recordings are untouched; any other, if nothing goes wrong, is without audio, checkpoint and job, and without its row if and only if it is ancient; whatever fails, a job goes only after the files and a row that is gone left no audio, checkpoint, marker or job |
| FilingPipeline.Worker.RemoveArtifacts | app/src/jobs.rs:623-661 | audio and checkpoint are gone exactly if nothing fails, and the answer says so |
| FilingPipeline.Worker.FileNewRecording | app/src/pipeline.rs:738-834 | a new recording with audio is Done, its job, checkpoint and marker gone, after delivery and one job run, unless something failed or was interrupted |
| FilingPipeline.Worker.Handle | app/src/pipeline.rs:285-396 | after every message, interrupted or not, the durable state is the end of a lawful history; each message, if nothing goes wrong, has its own effect on the durable state; the process is down afterwards exactly if it was interrupted |
| FilingPipeline.Worker.Run | app/src/pipeline.rs:184-397 | any messages in any order, with crashes at any point and restarts that may crash again, keep the history lawful; a message reaches only a process that is up, and a restart only one that is down |
| ReopenedRecording.ReopeningForgets | app/src/pipeline.rs:821-831 | a failure over a Done row forgets the note unless checkpoint or payload names it; the first claim after a manual retry dispatches a transcription if and only if there is audio and neither is left, and asks a backend if and only if, besides, the old job is still there with the configured backend as its origin and is parked or has budget |
| ReopenedRecording.ReopenedRecordingIsFiledTwice | app/src/pipeline.rs:821-831 | a concrete lawful run, whose claim may use no configured backend, in which a completed recording is filed a second time |
| UnreadCheckpoint.DecodedAgainExactly | app/src/jobs.rs:242-445 | a claimed job of a recording whose transcript is on record comes to ask a backend, unless a step before the call fails, if and only if both loads of the intact checkpoint fail, no payload owns a canonical note, there is audio, the row waits, the budget is not spent, and the configured backend is the recorded one |
| UnreadCheckpoint.UnreadCheckpointIsDecodedAgain | app/src/pipeline.rs:1458-1468 | a concrete lawful run in which two loads fail, the recording is transcribed again, and the note command is called although a final note was on record |
| DroppedLiveNote.RevivedIsRefused | app/src/pipeline.rs:1156-1187 | a cut-off recording that a start revives without a job is dispatched as untranscribed exactly if it has no checkpoint, knows no final note but the checkpoint's, and may use no backend |
| DroppedLiveNote.DroppedLiveNoteIsFiledAgain | app/src/pipeline.rs:336-365 | a concrete lawful run that begins with a note that was filed live and ends with the note command being called for the same recording |
| PrivateFile.Directory.AtomicWritePrivate | app/src/private_file.rs:120-158 | whatever fails, the destination is old or completely new and synced, and only one new temporary sibling can be left, and only after an interruption or a second failure; it is replaced and success reported if nothing fails and a temporary name is free |
| PrivateFile.Directory.CreateTemporary | app/src/private_file.rs:160-183 | an existing file is never opened as a temporary, and one is created unless the file system refuses or all 1024 names are taken |
| PrivateFile.Directory.WriteTemporary | app/src/private_file.rs:130-143 | success means complete and synced content, exactly if nothing fails; otherwise any prefix |
| PrivateFile.Directory.Publish | app/src/private_file.rs:143-158 | success means that the temporary took the place of the destination, exactly if nothing fails; an interrupted process removes nothing, and a failed one leaves the temporary only if its removal fails as well |
| PrivateFile.Directory.UniqueTemporaryPath | app/src/private_file.rs:185-190 | every call prints the next sequence number |
| PrivateFile.LeftoversAreRecognised | app/src/evidence.rs:438-472 | every temporary that a crash can leave of an evidence file is recognised and decoded |
| CheckpointReconcile.AecProjectionIsIdempotent | app/src/provenance.rs:583-630 | projecting echo activity twice is projecting it once |
| CheckpointReconcile.AttachIsIdempotent | app/src/provenance.rs:38-76 | attaching quality twice is attaching it once |
| CheckpointReconcile.AttachedShows | app/src/provenance.rs:38-90 | what is shown under each key: source and text are called complete exactly if they read so and the storage, if known, is durable, incomplete exactly if they read so, and unknown otherwise; the projection, whether it is truncated, the full span count and the storage; every other key but the canceller's stays |
| CheckpointReconcile.AecReads | app/src/provenance.rs:583-606 | a remembered execution goes before the outcome, what is not a text is unknown, and the evidence is that of the one named scope |
| CheckpointReconcile.FormsAreExact | app/src/checkpoint.rs:261-313 | a backend or storage is read from the configuration exactly if it is the form of one, and as that one |
| CheckpointReconcile.AecShows | app/src/provenance.rs:583-630 | the recorded execution stays; where the canceller was applied the outcome and the label say which far reference is known, and where it was not the outcome is the execution; suspicion and uncertainty are those of the observed scope |
| CheckpointReconcile.NoFarReferenceIsProved | app/src/provenance.rs:583-630 | a note says that there was no far reference only if some scope has a complete traversal without contradiction that found nothing but silence |
| CheckpointReconcile.OriginIsSettled | app/src/checkpoint.rs:261-275 | a record that passed the origin step passes it again unchanged |
| CheckpointReconcile.QualityIsSettled | app/src/checkpoint.rs:276-313 | a record that passed the quality step passes it again unchanged, also when a truncated projection is shown |
| CheckpointReconcile.ReconcileIsIdempotent | app/src/checkpoint.rs:260-342 | a reconciled checkpoint reconciles to itself |
| CheckpointReconcile.ReconcilesExactly | app/src/checkpoint.rs:260-342 | a checkpoint reconciles if and only if nothing in it contradicts its provenance, its quality is valid and fits a note, both post-processing records are well formed and, if both are there, equal, and there are at most 64 final calls |
| CheckpointReconcile.RefusalNamesADefect | app/src/checkpoint.rs:260-342 | each error of a refused checkpoint names a defect that is there |
| CheckpointReconcile.ReconciledShows | app/src/checkpoint.rs:260-342 | what a reconciled checkpoint is: both post-processing records are one, the configuration shows origin, quality and completeness, and everything else stays |
| CheckpointReconcile.StoreThenLoad | app/src/checkpoint.rs:225-257 | every checkpoint that validates is loaded again as its reconciled value at version 2 |
| CheckpointReconcile.LoadIsStable | app/src/checkpoint.rs:239-257 | a file of either version loads as one value that storing and loading keep |
| CheckpointReconcile.SetProvenanceAgrees | app/src/checkpoint.rs:180-189 | new provenance is taken as it is and filled with the recorded post-processing if it brings none; reconciliation then never reports a post-processing conflict |
| CheckpointReconcile.FilingCheckpoint.ValidateAndReconcile | app/src/checkpoint.rs:260-342 | the in-place pass yields the specified record, or the specified error and, in memory, exactly what the steps before the refusal left |
| CheckpointReconcile.FilingCheckpoint.ReconcileOrigin | app/src/checkpoint.rs:261-275 | the origin is written into the configuration in place, or refused with the record unchanged if another one or an unreadable one is there |
| CheckpointReconcile.FilingCheckpoint.ReconcileQuality | app/src/checkpoint.rs:276-313 | quality and storage are checked against what is shown and attached in place; a refusal leaves the record unchanged, or with the echo activity projected if the projection itself exceeds its budget |
| CheckpointReconcile.RefusalTouchesTheConfiguration | app/src/checkpoint.rs:260-342 | a refused reconciliation leaves everything but the provenance configuration as it was |
| CheckpointReconcile.CheckpointFile.Store | app/src/checkpoint.rs:225-237 | a checkpoint that does not reconcile or is too big is refused and nothing written; any other is written in its reconciled form and loads back, and success is reported exactly if the write does not fail; the file holds its old value or that one |
| CheckpointReconcile.CheckpointFile.Load | app/src/checkpoint.rs:239-257 | loading accepts exactly versions 1 and 2 that reconcile |
| Retention.SharedNames | app/src/jobs.rs:623-635 | two recordings share a registered name if and only if one stem is the other with "-clean" appended |
| Retention.UnresolvedNames | app/src/checkpoint.rs:366-380 | staging of a stem counts as unresolved if and only if its marker file exists, or its checkpoint file exists and names staging or cannot be read |
| Retention.AudioRegisteredBy | crates/corti-capture/src/lib.rs:293-299 | the files registered for a stem include the raw audio of that stem and of the stem that extends it by "-clean", and of no other |
| Retention.AudioAtRisk | app/src/pipeline.rs:1976-1995 | a sweep, a completion, an offline cleaning or a new capture may touch a raw audio file if and only if: a sweep finds an expired terminal recording of that stem or of the stem that it extends by "-clean"; a waiting recording of the stem that it extends is completed or cleaned, at any age; or the capture has the same stem |
| Retention.CleanSiblingCollides | crates/corti-capture/src/lib.rs:273-299 | two concrete recordings of one second, of the apps "x" and "x-clean": completing the first one endangers the audio of the second |
| Retention.Cache.Complete | app/src/pipeline.rs:1976-1995 | the row becomes Done, and at most its clean sibling and its checkpoint go; both are gone if nothing fails |
| Retention.Cache.Clean | crates/corti-capture/src/lib.rs:646-653 | the offline cleaner writes exactly the clean sibling, over whatever has that name |
| Retention.Cache.Run | app/src/jobs.rs:586-661 | over any run of sweeps, completions, cleanings, captures and row changes, raw audio that no step endangers by these conditions stays on disk as it was recorded; the rows change exactly as the steps say |
| Retention.Cache.Take | app/src/jobs.rs:586-661 | one step: raw audio that it does not endanger stays; its effect on the rows is settled, and on the files, too, if nothing fails |
| Retention.Cache.RemovePaths | app/src/jobs.rs:699-719 | every path is tried; the answer says whether all are gone, and is positive exactly if no removal fails |
| Retention.Cache.RemoveArtifacts | app/src/jobs.rs:623-661 | only registered names go; a positive answer means that none is left, and is given exactly if nothing fails |
| Retention.Cache.RemoveStaleTemps | app/src/jobs.rs:684-697 | only stale temporaries go, and all of them if nothing fails |
| Retention.Cache.SweepRow | app/src/jobs.rs:596-619 | per row: what may go, that a young row and unresolved staging keep everything, and what is gone if nothing fails: all registered files and the jobs of an old terminal row, and the row itself exactly if it is old enough |
| Retention.Cache.Sweep | app/src/jobs.rs:586-621 | a row that is gone was terminal and old and left no registered file; every missing file was one that a swept row may take; if nothing fails every listed row is swept as its age, phase and staging want it |
| QualitySpans.Coalesce | crates/corti-core/src/quality.rs:896-914 | frame by frame nothing changes, nothing left joins the widened span, and the list shrinks if and only if some span joined the new one |
| QualitySpans.LossesAreClassified | crates/corti-core/src/quality.rs:165-200 | the causes, stages and resolutions that each class of loss may have, and no others |
| QualitySpans.SeparateAreRuns | crates/corti-core/src/quality.rs:896-914 | spans of which no two join are exactly the maximal runs of what they state |
| QualitySpans.RunsAreUnique | crates/corti-core/src/quality.rs:152-163 | what spans state determines the sorted list of their maximal runs |
| QualityActivity.MergeIsASemilattice | crates/corti-core/src/quality_activity.rs:176-204 | merging activity evidence is idempotent, commutative and associative on valid evidence |
| QualityActivity.MergeAddsUp | crates/corti-core/src/quality_activity.rs:176-204 | every observation is sticky and none made up, conflicts arise only from two inputs, two extents or silence beside sound, input and extent are the least of both sides |
| QualityActivity.MergeIsValid | crates/corti-core/src/quality_activity.rs:151-204 | valid evidence merges into valid evidence |
| QualityEpochs.EarlierFits | crates/corti-core/src/quality.rs:63-91 | a frame before one that both clocks of an epoch reach, and that is not after the next known start, is such a frame too |
| QualityEpochs.PlacedApart | crates/corti-core/src/quality.rs:389-412 | spans of different epochs never overlap on the clock of the recording if both epochs and the one after the earlier say where they start |
| QualityEpochs.UnknownStartOverlaps | crates/corti-core/src/quality.rs:403-406 | they may overlap if the epoch after the earlier one does not say where it starts |
| QualityEpochs.ValidateEpochs | crates/corti-core/src/quality.rs:863-894 | the one-pass test of neighbours and of the last known start accepts exactly the lists in which every epoch is valid and precedes all later ones on both clocks |
| QualityEpochs.UnionEpochs | crates/corti-core/src/quality.rs:620-632 | two ordered lists unite if and only if any two of their epochs are equal or one precedes the other; a different epoch of the same id is the conflict error, anything else the order error |
| QualityEpochs.UnionIsUnique | crates/corti-core/src/quality.rs:620-632 | there is only one list by id of the epochs of two lists |
| QualitySpans.Split | app/src/jobs.rs:108-159 | the pieces tile an outstanding live loss, each recovered exactly where a known recovery of its kind covers it, overlaps included; there are at most two per recovery and one more |
| QualityRecord.InsertSpan | crates/corti-core/src/quality.rs:389-482 | accepted if and only if the record and the span are valid; retained, with everything else unchanged frame by frame, if and only if the list is not full or a span joins it; otherwise it is the only thing left out, and exactly the counters of its class go up by one, a full counter being recorded in the overflow or, for a silent far reference, in the activity |
| QualityMerge.MergeSnapshot | crates/corti-core/src/quality.rs:617-700 | accepted if and only if both records are valid, their epochs agree, and every listed run ends before the next listed epoch is known to start; that holds if it holds of every span of both, and within the span cap only if; the result is the listed epochs, the first runs in order and counters for the rest: it invents nothing, counts what it loses, and owes a class exactly if one side did; in every scope each activity observation holds exactly if it holds on one side, conflicts are never lost and new only between different inputs or extents or silence and sound, and input and extent come from one side |
| QualityMerge.MergedCounts | crates/corti-core/src/quality.rs:640-697 | every counter of a merged record is the larger one of both sides, of the runs of its class that the caps left out, and for degraded facts of all omitted activity runs together |
| QualityMerge.MergedSilences | crates/corti-core/src/quality.rs:652-690 | the omitted runs of a scope are the larger of both sides and of the silent far references of its stage that the caps left out, counted only where the scope has an input |
| QualityMerge.MergeCommutes | crates/corti-core/src/quality.rs:617-700 | two snapshots merge into the same record in either order |
| QualityMerge.MergeIsIdempotent | crates/corti-core/src/quality.rs:617-700 | a record whose spans are its runs in order merges with itself into itself |
| QualityMerge.FittingIsExact | crates/corti-core/src/quality.rs:617-700 | within both caps all epochs and all runs are listed, and the counters are the larger ones of both sides, the degraded one at least the omitted activity runs of all stages together |
| QualityMerge.MergedIsValid | crates/corti-core/src/quality.rs:697-699 | the validation at the end of a merge is exactly the test of the listed runs against the listed epochs |
| QualityOverlay.PiecesSay | app/src/jobs.rs:131-159 | the pieces of a split live loss state exactly what importing it adds, frame by frame |
| QualityOverlay.ImportSpans | app/src/jobs.rs:106-160 | the import states what it should and nothing else, or counts it; with room for every piece it counts nothing |
| QualityOverlay.MergeHistoricalQuality | app/src/jobs.rs:99-164 | accepted if and only if both records are valid, their epochs agree, and every listed run of the baseline and the import fits its epoch; that holds if every span of the two records fits, and with room for all pieces only if; the result is the baseline and the import frame by frame, with live debts that the baseline recovered shown as recovered |
| QualityOverlay.ReimportAddsNothing | app/src/jobs.rs:96-98 | importing the same history into its own overlay states nothing new, except in a class of which the first import counted an omission |
| QualityOverlay.NothingElseIsResolved | app/src/jobs.rs:96-98 | only live debts that the baseline recovered at that frame change; batch and capture losses never do |
| QualityOverlay.PaidExactlyByRecoveries | app/src/jobs.rs:96-98 | no processing loss is owed afterwards if and only if the baseline owes none, the import counts none, and each outstanding one that the import positions is a live debt that the baseline recovered at that very frame |
| QualityProjection.ProjectionConserves | app/src/provenance.rs:20-35 | retained plus counted spans are conserved per class and resolution, up to saturation |
| QualityProjection.ProjectionOwesTheSame | app/src/provenance.rs:20-35 | outstanding loss of a class is neither hidden nor invented |
| QualityProjection.ProjectionIsValid | app/src/provenance.rs:20-35 | every projection is a valid record |
| QualityProjection.ProjectionIsLongest | app/src/provenance.rs:20-35 | the projection is the longest prefix of spans that fits, all epochs kept, or an error exactly if none fits |
| QualityProjection.QualityFrontmatterProjection | app/src/provenance.rs:20-35 | the popping loop computes that projection |
| QualityRecovery.ResolveProcessingAfterBatch | crates/corti-core/src/quality.rs:702-727 | only a verified whole-file decode resolves anything; then frame by frame every processing loss is recovered and every other fact as it was, the spans are the maximal runs of that, and of the counters only that of outstanding processing losses changes |
| QualityRecovery.RecoveredReadsAsSource | crates/corti-core/src/quality.rs:702-758 | afterwards no processing loss is owed, every other class is owed as before, the source reads as before, and the text reads as the source |
| QualityReading.SourceReadingIsExact | crates/corti-core/src/quality.rs:729-758 | a source reads incomplete exactly if a loss is owed, and complete exactly if it was observed, nothing is owed, no epoch was left out, no counter is saturated and every epoch says where it starts |
| QualityReading.MergeReadsNoBetter | crates/corti-core/src/quality.rs:729-758 | a union reads incomplete exactly if one side does, and complete only if both do, for the source and for the text |
| QualityReading.ProjectionReadsNoBetter | app/src/provenance.rs:20-35 | the part of a record that a note shows reads like the record, or unknown instead of complete once a counter is saturated |
| QualityReading.ReferenceIsProved | crates/corti-core/src/quality_activity.rs:135-150 | an absent far reference is read exactly off a complete traversal that found only silence, a present one exactly off an observation, an intermittent one exactly if silence or a missing layout was seen too, and none after a conflict |
| QualityReading.MergedReference | crates/corti-core/src/quality_activity.rs:120-204 | merging never takes uncertainty away, and never turns a far reference that was there into one that was not |
| CredentialState.BedrockCredentialResolver.Admit | app/src/bedrock_creds.rs:216-264 | the region up to the backend call computes the specified admission and state; what that decides is `CredentialProtocol.LockDecides` |
| CredentialState.BedrockCredentialResolver.Commit | app/src/bedrock_creds.rs:266-296 | the region after the backend call computes the specified state and answer; what that delivers is `CredentialProtocol.SettleDelivers` |
| CredentialState.BedrockCredentialResolver.Invalidate | app/src/bedrock_creds.rs:195-203 | a new generation with nothing kept |
| CredentialState.BedrockCredentialResolver.MarkRejected | app/src/bedrock_creds.rs:205-214 | a new generation that remembers the rejected configuration |
| CredentialProtocol.StepKeepsInv | app/src/bedrock_creds.rs:195-296 | every enabled step of any thread keeps: at most one outcome is kept, each for the adopted configuration; a lease is of the current generation and from a call begun after the latest reset; generations commit at most one success each |
| CredentialProtocol.RunsKeepInv | app/src/bedrock_creds.rs:195-296 | every interleaving of any number of threads keeps the invariant |
| CredentialProtocol.ReachableInv | app/src/bedrock_creds.rs:195-296 | every state reachable from the initial one satisfies the invariant |
| CredentialProtocol.SingleFlighted | app/src/bedrock_creds.rs:216-264 | at most one backend call is in flight, one per demand, for that demand's configuration |
| CredentialProtocol.LockDecides | app/src/bedrock_creds.rs:229-264 | in every reachable state a demand at the lock is refused exactly if its configuration was rejected, gets the lease exactly if that is for its configuration and stays valid for more than five minutes, waits exactly if neither holds and a call is in flight, and else makes the one call; only the last two change the shared state |
| CredentialProtocol.LockRemembers | app/src/bedrock_creds.rs:229-256 | another configuration, or a lease that expires soon, starts a new generation with nothing on record; otherwise the record stays |
| CredentialProtocol.CompareDecides | app/src/bedrock_creds.rs:223-228 | a demand whose configuration is no longer the live one gives up, and only such a demand does |
| CredentialProtocol.SettleDelivers | app/src/bedrock_creds.rs:266-296 | in every reachable state a call of the current generation whose configuration was live delivers exactly what the backend answered and puts it on record; any other delivers nothing and leaves the record; either way everybody who waits is told |
| CredentialProtocol.CallDelivers | app/src/bedrock_creds.rs:216-296 | over any run without a reset and without another configuration at the lock, a call whose configuration is live at its end gives its demand the backend's answer, and the credentials go to the next demand of that configuration without a call as long as they stay valid |
| CredentialProtocol.ResetDiscards | app/src/bedrock_creds.rs:195-214 | a reset leaves nothing on record but a rejection, makes every call in flight stale, and wakes everybody who waits |
| CredentialProtocol.GenerationNamesOneAccount | app/src/bedrock_creds.rs:181-193 | a generation never names two accounts over a whole run |
| CredentialProtocol.SomeoneCanMove | app/src/bedrock_creds.rs:257-264 | no wake-up is lost: while a demand is unfinished some thread can move |
| CredentialProtocol.ProjectionIsDecisive | app/src/bedrock_creds.rs:125-193 | what Settings shows agrees with the lease, the rejection, the last error and the cache identity; ready is shown exactly for a lease that stays valid |
| LiveStore.LiveTranscriptStore.Begin | app/src/live_view.rs:302-332 | a reset event that clears rows and counters; sequence numbers go on |
| LiveStore.LiveTranscriptStore.EnsureUnavailableCall | app/src/live_view.rs:280-300 | called alone: a matching session is left as it is, any other gets a readable state |
| LiveStore.LiveTranscriptStore.SetStatus | app/src/live_view.rs:366-387 | only the matching session changes, with one event |
| LiveStore.LiveTranscriptStore.AppendSegments | app/src/live_view.rs:404-471 | exactly the newest rows that fit are kept, the newest one always, and the envelopes describe the rows |
| LiveStore.MintedTellOf | app/src/live_view.rs:414-446 | one row for each segment with text, in order and numbered without a gap, with its speaker and text, shortened at most to their budgets, and its times, finite, not negative and in order |
| LiveStore.MillisAreNearest | app/src/live_view.rs:558-577 | times are rounded to the nearest millisecond within the field |
| LiveStore.LiveTranscriptStore.ApplyHostedRows | app/src/live_view.rs:478-543 | all or nothing under missing and duplicate targets; stale exactly if a target is not retained; otherwise every retained row has the text of the last request for it as its clean text, under the given epoch, and a row without a request is unchanged |
| LiveStore.RewritesAreExact | app/src/live_view.rs:506-519 | row by row, what any sequence of requests makes of the retained rows |
| LiveStore.MatchesItsEnvelope | app/src/live_view.rs:494-503 | a request fits a row exactly if it is the envelope of that row but for the text |
| LiveStore.LiveTranscriptStore.Snapshot | app/src/live_view.rs:175-191 | a snapshot is the fold of everything published |
| LiveStore.Evict | app/src/live_view.rs:449-457 | the eviction loop keeps the longest suffix that fits and counts the rest |
| LiveStore.NewestFits | app/src/live_view.rs:446-457 | a row that fits on its own survives its own append |
| LiveStore.CapsCountBytes | app/src/live_view.rs:572-577 | rows fit exactly if there are at most 2000 and their speakers, texts and rewrites, with 64 bytes more for each row, fill at most one mebibyte |
| LiveStore.EnvelopeFindsItsRow | app/src/live_view.rs:439-445 | the envelope minted with a row finds exactly that row as long as it is retained |
| LiveStore.RetainedRowsKeepRawText | app/src/live_view.rs:473-543 | over any run of one session a retained row keeps its raw fields; a row that is gone was trimmed |
| LiveReplica.RowsKeepRaw | app/src/live_view.rs:473-477 | within a session a row keeps its raw fields until it is trimmed, and never comes back |
| LiveReplica.ListeningBuildsPartialCopy | app/ui/src/lib/liveTranscript.ts:41-107 | a window that only listens agrees with the store and lacks only what every snapshot since holds |
| LiveReplica.SubscribeThenSnapshot | app/ui/src/lib/liveTranscript.ts:15-36 | subscribing first and then taking a snapshot gives exactly the newer of the two states |
| LiveReplica.OlderSnapshotIsHarmless | app/ui/src/lib/liveTranscript.ts:15-36 | an older snapshot under a newer state changes nothing |
| LiveReplica.DeliveryKeepsUiExact | app/ui/src/lib/liveTranscript.ts:15-107 | after any delivery, lost, repeated, reordered or stale, the window equals the store at its own revision |
| LiveReplica.UiIsAlwaysExact | app/ui/src/lib/liveTranscript.ts:15-107 | after any sequence of deliveries a window that once equalled the store at its own revision still does, and its revision never goes back |
| LiveReplica.ReplicaCatchesUp | app/ui/src/lib/liveTranscript.ts:41-67 | delivering the rest in order brings the window to the present |
| LiveReplica.ReduceDecides | app/ui/src/lib/liveTranscript.ts:41-67 | an event is folded exactly if it is the first, or newer, gap-free and of this session or a reset; anything else leaves the window as it is under the outcome that names what is missing |
| LiveReplica.SnapshotDecides | app/ui/src/lib/liveTranscript.ts:15-36 | a snapshot replaces the window unless it is older and of the same process; an older one of the same session only brings retained rows that the window lacks, one of another session nothing |
| LiveReplica.RestartsKeepUiExact | app/ui/src/lib/liveTranscript.ts:15-107 | whatever reaches a window from before or after restarts of the program, it shows a state that one process had and never mixes two |
| LiveStore.WindowShowsTheStore | app/ui/src/lib/liveTranscript.ts:15-107 | from end to end: a window that subscribes, takes a snapshot and then receives anything published or fetched, in any order and number, equals the store at its own revision, and at the store's revision equals the store |
| LiveStore.WindowCatchesUp | app/ui/src/lib/liveTranscript.ts:41-67 | a window at any state of the store that receives the rest of the events in order equals the store |
| LiveReplica.MergeThenFold | app/ui/src/lib/liveTranscript.ts:109-138 | laying rows over an older snapshot commutes with folding in one more |
| Utf8.CapUtf8 | app/src/live_view.rs:579-588 | a text within the budget stays; of any other the longest prefix of whole characters within the budget is kept and marked, which is well formed and gives up at most three bytes |
| Utf8.CutIsNear | app/src/live_view.rs:583-586 | at most three bytes are given up |
| Utf8.WellFormedIsEncoded | app/src/live_view.rs:579-588 | every well-formed text is the encoding of a sequence of characters |
| Utf8.EncodedIsWellFormed | app/src/live_view.rs:579-588 | every encoding of a sequence of characters is well formed |
| BoundedDeque.KeptIsLongest | app/src/console.rs:106-112 | no longer suffix fits |
| BoundedDeque.KeptIsSuffix | app/src/console.rs:106-112 | what eviction keeps is a suffix that fits |
| BoundedDeque.KeptAfterKept | app/src/console.rs:100-113 | earlier evictions do not change what is kept in the end |
| ConsoleRing.ConsoleBuffer.Push | app/src/console.rs:100-113 | the ring is the longest suffix of everything ever pushed that fits, with the right total |
| EvidenceNames.PrintThenDecode | app/src/evidence.rs:370-372 | every printed name is accepted and stands for what was printed |
| EvidenceNames.DecodeThenPrint | app/src/evidence.rs:438-472 | an accepted name is exactly what its decoding prints |
| EvidenceNames.RecogniserIsExact | app/src/evidence.rs:438-472 | the recogniser accepts exactly the printed names |
| EvidenceNames.PrintIsInjective | app/src/private_file.rs:185-190 | no two stems, processes and sequence numbers print alike |
| EvidenceNames.DecimalRoundTrip | app/src/evidence.rs:444-453 | a printed number parses as itself |
| EvidenceNames.StemsAreExact | app/src/evidence.rs:459-473 | the recogniser accepts a stem if and only if it is that of some date, time and app name |
| EvidenceNames.RecordingStemIsValid | crates/corti-capture/src/lib.rs:273-289 | whatever the app is called, its stem is one that the recogniser knows |

## Left out

- FilingHistory.NoSecondNote: holds up to the sweep's expiry, up to a failure written over a Done row, and up to a checkpoint written over one that could not be loaded, because the code forgets the note there; `ReopenedRecording` and `UnreadCheckpoint` give the exact conditions.
- FilingHistory.OnRecordUntilReleased: of a Done row only the status; that its path stays as well is `FilingHistory.FinalNoteStays`, up to a late live note, because the code replaces the path there.
- FilingHistory.NoSecondDecode: besides these, up to two failed loads of the intact checkpoint within one claim; `UnreadCheckpoint.DecodedAgainExactly` is the exact condition.
- FilingHistory.AnsweredNoteIsOwned: nothing is promised when the process dies between the answer of the note command and the next durable write; only the note command could tell.
- FilingPipeline.Worker.CleanupCompletedArtifacts: only the checkpoint; the clean WAV that goes with it is in `Retention.Cache.Complete`.
- Reads of a queue row that does not exist succeed in `FilingPipeline`; only reads of what is there may fail.
- Discarded live sessions (`live_discarded`, `live_discard_cleanup`): they end recordings that are never delivered.
- Time: when a job is due, the backoff, and the age limits of the sweep are choices of the environment.
- More than one retry job for one recording, and payloads or rows that do not parse; the periodic collection of parked jobs, which keeps every job whose row exists.
- The cleanup job's own row in the jobs table: cleanup may simply happen at any time.
- The capture's processing record on the row; attaching it is a step of the delivery that may fail.
- Hosted post-processing, evidence publication and quality persistence inside the pipeline are steps that may fail.
- Redoing a recording from the command line, which writes through its own path; the clean sibling that a redo of a terminal recording may write (app/src/cli.rs:918) is outside `Retention.AudioAtRisk` and `Retention.Cache.Run`.
- Quality records: the schema number, which error of a refused record comes first, and the operations `insert_epoch`, `merge_activity_snapshot` and `retained_source_loss_intervals`.
- The serialised size of a quality record is a parameter; JSON is lossless.
- Times in the live store are real numbers with one non-finite value; the row id is its number; text arrives trimmed; `u64` counters do not overflow.
- LiveStore.LiveTranscriptStore.EnsureUnavailableCall: sequential only, since its check and its `begin` are two locked regions.
- The window sorts rows by time for display; the replica is compared by sequence number.
- The resolver's generation does not wrap, backends do not panic, and which error a backend gives is arbitrary.
- Stems are those of four-digit years; file names are ASCII; the retention model has one flat directory, and captures do not fail.
- File modes, descriptor checks and directory creation of private files.
- Tray, windows, settings, audio capture, echo cancellation, speech recognition, the AWS clients and the note command itself.
