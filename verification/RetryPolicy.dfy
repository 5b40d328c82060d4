/** The pure decisions of the retry worker: which note is owned, what a claimed job may do, with which
    backend, and how two payloads for one recording merge. */
module RetryPolicy {
  import opened Wrappers
  import opened RecordingState

  const RETRY_MAX_ATTEMPTS: nat := 5

  function InitialBatchAttempts(freshBatch: bool, hadLiveSession: bool): nat {
    RETRY_MAX_ATTEMPTS + if freshBatch || hadLiveSession then 1 else 0
  }

  /** One attempt more than the retries where a first one is still to come: after a live session, or with first-batch
      authority. */
  lemma FirstAttemptIsExtra(freshBatch: bool, hadLiveSession: bool)
    ensures InitialBatchAttempts(freshBatch, hadLiveSession) == 6 <==> freshBatch || hadLiveSession
    ensures InitialBatchAttempts(freshBatch, hadLiveSession) == 5 <==> !freshBatch && !hadLiveSession
  {}

  // ---- which note ----

  function Partial(path: Option<Path>): Option<OwnedNote> {
    if path.Some? then Some(OwnedNote(path.value, false)) else None
  }

  function OrElse<T>(first: Option<T>, second: Option<T>): Option<T> {
    if first.Some? then first else second
  }

  function AuthoritativeNote(checkpoint: Option<OwnedNote>, payload: Option<OwnedNote>, row: Option<Path>)
    : Option<OwnedNote>
  {
    if CanonicalNote(checkpoint) then checkpoint
    else if CanonicalNote(payload) then payload
    else if checkpoint.Some? then checkpoint
    else if payload.Some? then payload
    else Partial(row)
  }

  /** Of several notes the final one wins, and of two final ones the checkpoint's; among partial notes the checkpoint's
      goes before the payload's, and the row's, which is only a path, comes last. */
  lemma NoteOrder(checkpoint: Option<OwnedNote>, payload: Option<OwnedNote>, row: Option<Path>)
    ensures var owned := AuthoritativeNote(checkpoint, payload, row);
      && (checkpoint.Some? && (checkpoint.value.canonical || payload.None? || !payload.value.canonical) ==>
            owned == checkpoint)
      && (payload.Some? && (checkpoint.None? || (payload.value.canonical && !checkpoint.value.canonical)) ==>
            owned == payload)
      && (checkpoint.None? && payload.None? ==>
            if row.Some? then owned == Some(OwnedNote(row.value, false)) else owned.None?)
  {}

  /** The live path's choice after a failure: whatever was just returned, then the checkpoint, canonical or not. */
  function RetryOwnedNote(error: Option<OwnedNote>, checkpoint: Option<OwnedNote>, preferred: Option<OwnedNote>)
    : Option<OwnedNote>
  {
    OrElse(error, OrElse(checkpoint, preferred))
  }

  /** The note that came with the error is the newest one; the preferred one is used only if nothing else is known. */
  lemma RetryNoteOrder(error: Option<OwnedNote>, checkpoint: Option<OwnedNote>, preferred: Option<OwnedNote>)
    ensures var note := RetryOwnedNote(error, checkpoint, preferred);
      && (error.Some? ==> note == error) && (error.None? && checkpoint.Some? ==> note == checkpoint)
      && (error.None? && checkpoint.None? ==> note == preferred)
  {}

  // ---- which action ----

  datatype Action = Stale | FileCheckpoint | CompleteCanonicalNote | Transcribe | TranscribeLegacyPendingNote | MissingAudio

  function RetryAction(status: Status, checkpointValid: bool, canonicalCompletion: bool, audioExists: bool): Action {
    if status.Done? || status.Failed? then Stale
    else if checkpointValid then FileCheckpoint
    else if canonicalCompletion then CompleteCanonicalNote
    else if status.Recording? then Stale
    else if !audioExists then MissingAudio
    else if status.PendingNote? then TranscribeLegacyPendingNote
    else Transcribe
  }

  predicate Decodes(action: Action) {
    action.Transcribe? || action.TranscribeLegacyPendingNote?
  }

  /** The action chosen for a claimed job, from the durable state. */
  function Dispatch(status: Status, checkpoint: CheckpointFile, payload: Option<OwnedNote>, row: Option<Path>, audio: bool)
    : Action
  {
    var owned := AuthoritativeNote(CheckpointNote(checkpoint), payload, row);
    var canonicalCompletion := CanonicalNote(owned) && !CanonicalNote(CheckpointNote(checkpoint));
    RetryAction(status, checkpoint.Stored? && !canonicalCompletion, canonicalCompletion, audio)
  }

  predicate WithinBudget(action: Action, attempts: nat, max: nat) {
    !Decodes(action) || attempts <= max
  }

  /** Backend work is chosen exactly when nothing durable says that it was done: no loadable checkpoint, no
      canonical note, and a row that still wants a transcript. */
  lemma DecodesOnlyUnownedWork(status: Status, checkpoint: CheckpointFile, payload: Option<OwnedNote>,
                               row: Option<Path>, audio: bool)
    ensures Decodes(Dispatch(status, checkpoint, payload, row, audio)) <==>
      audio && (status.PendingTranscription? || status.Transcribing? || status.PendingNote?) &&
      !checkpoint.Stored? && !CanonicalNote(payload)
  {}

  /** Each action has its own condition, and exactly one of them holds. */
  lemma DispatchTable(status: Status, checkpoint: CheckpointFile, payload: Option<OwnedNote>, row: Option<Path>,
                      audio: bool)
    ensures var action := Dispatch(status, checkpoint, payload, row, audio);
      var final, filed := CanonicalNote(payload), checkpoint.Stored? && CanonicalNote(checkpoint.value.note);
      var unknown := !checkpoint.Stored? && !final;
      && (action.Stale? <==> status in {Done, Failed} || (status.Recording? && unknown))
      && (action.FileCheckpoint? <==> status !in {Done, Failed} && checkpoint.Stored? && (filed || !final))
      && (action.CompleteCanonicalNote? <==> status !in {Done, Failed} && final && !filed)
      && (action.MissingAudio? <==>
            status in {PendingTranscription, Transcribing, PendingNote} && unknown && !audio)
      && (action.Transcribe? <==> status in {PendingTranscription, Transcribing} && unknown && audio)
      && (action.TranscribeLegacyPendingNote? <==> status.PendingNote? && unknown && audio)
  {}

  /** A canonical note in either authority is never decoded nor filed anew: the recording is filed from the
      checkpoint that names it, or completed with the payload's path. */
  lemma CanonicalNoteWins(status: Status, checkpoint: CheckpointFile, payload: Option<OwnedNote>,
                          row: Option<Path>, audio: bool)
    requires !status.Terminal()
    requires CanonicalNote(CheckpointNote(checkpoint)) || CanonicalNote(payload)
    ensures var owned := AuthoritativeNote(CheckpointNote(checkpoint), payload, row);
      && CanonicalNote(owned)
      && Dispatch(status, checkpoint, payload, row, audio)
           == (if owned == CheckpointNote(checkpoint) && CanonicalNote(CheckpointNote(checkpoint)) then FileCheckpoint
               else CompleteCanonicalNote)
  {}

  // ---- which backend ----

  datatype RetryOrigin = Fresh | RecordedFirst(first: Backend) | Retry(recorded: Option<Backend>)

  function FirstBackend(origin: RetryOrigin, configured: Backend): Option<Backend> {
    match origin
    case Fresh => Some(configured)
    case RecordedFirst(first) => Some(first)
    case Retry(recorded) => recorded
  }

  function SelectedBackend(origin: RetryOrigin, configured: Backend): Result<Backend, string> {
    match (origin, configured)
    case (Fresh, backend) => Ok(backend)
    case (RecordedFirst(first), backend) => if first == backend then Ok(backend) else Err("retry_backend_not_authorized")
    case (Retry(Some(Local)), Local) => Ok(Local)
    case (Retry(Some(Aws)), Aws) => Ok(Aws)
    case _ => Err("retry_backend_not_authorized")
  }

  function ClaimedOrigin(payload: Payload, attempts: nat): RetryOrigin {
    if attempts == 1 && payload.firstBatch && payload.origin.Some? then RecordedFirst(payload.origin.value)
    else Retry(payload.origin)
  }

  /** Dispatch is refused unless the configured backend is the one on record; it never falls over to another. */
  lemma SelectedIsRecorded(origin: RetryOrigin, configured: Backend)
    ensures SelectedBackend(origin, configured).Ok? <==> FirstBackend(origin, configured) == Some(configured)
    ensures SelectedBackend(origin, configured).Ok? ==> SelectedBackend(origin, configured).value == configured
  {}

  /** A claim carries exactly the recorded origin, and first-batch authority only as claim number one. */
  lemma ClaimCarriesOrigin(payload: Payload, attempts: nat, configured: Backend)
    ensures FirstBackend(ClaimedOrigin(payload, attempts), configured) == payload.origin
    ensures ClaimedOrigin(payload, attempts).RecordedFirst? <==> attempts == 1 && payload.firstBatch && payload.origin.Some?
  {}

  /** The claimed job asks the configured backend, given what its two loads of the checkpoint find, and unless some
      step before the call fails: the first load decides the dispatch, the budget is checked, the second load comes
      right before the backend is selected. */
  predicate Asks(d: Disk, job: Job, first: CheckpointFile, second: CheckpointFile, configured: Backend)
    requires d.row.Some?
  {
    var row := d.row.value;
    var action := Dispatch(row.status, first, job.payload.note, row.note, d.audio);
    && Decodes(action) && WithinBudget(action, job.attempts, job.max)
    && !second.Stored?
    && SelectedBackend(ClaimedOrigin(job.payload, job.attempts), configured).Ok?
  }

  /** That is so exactly if neither load finds a checkpoint, no payload owns a final note, there is audio, the row
      waits for a transcript or a note, the budget is not spent, and the configured backend is the one on record. */
  lemma AsksExactly(d: Disk, job: Job, first: CheckpointFile, second: CheckpointFile, configured: Backend)
    requires d.row.Some?
    ensures Asks(d, job, first, second, configured) <==>
      && !first.Stored? && !second.Stored?
      && !CanonicalNote(job.payload.note) && d.audio
      && (d.RowIs(PendingTranscription) || d.RowIs(Transcribing) || d.RowIs(PendingNote))
      && job.attempts <= job.max && job.payload.origin == Some(configured)
  {
    var row := d.row.value;
    DecodesOnlyUnownedWork(row.status, first, job.payload.note, row.note, d.audio);
    ClaimCarriesOrigin(job.payload, job.attempts, configured);
    SelectedIsRecorded(ClaimedOrigin(job.payload, job.attempts), configured);
  }

  // ---- merging payloads ----

  /** Note ownership grows, everything else stays as it was first armed. */
  function MergePayload(existing: Payload, incoming: Payload): Payload {
    var promote := incoming.note.Some? &&
                   (existing.note.None? || (incoming.note.value.canonical && !existing.note.value.canonical));
    if promote then existing.(note := incoming.note) else existing
  }

  /** Merging never loses or replaces a canonical note, never touches the origin, and delivering the same
      payload again changes nothing. */
  lemma MergeGrows(existing: Payload, incoming: Payload)
    ensures var merged := MergePayload(existing, incoming);
      && merged.(note := existing.note) == existing
      && (CanonicalNote(merged.note) <==> CanonicalNote(existing.note) || CanonicalNote(incoming.note))
      && (merged.note.Some? <==> existing.note.Some? || incoming.note.Some?)
      && (merged.note == existing.note || merged.note == incoming.note)
      && (CanonicalNote(existing.note) ==> merged.note == existing.note)
      && MergePayload(merged, incoming) == merged
  {}

  /** Two deliveries compete if they name different notes, and each would be taken over if it came first and would
      not be if it came second. */
  predicate Compete(existing: Payload, a: Payload, b: Payload) {
    && a.note.Some? && b.note.Some? && a.note != b.note && !CanonicalNote(existing.note)
    && (if a.note.value.canonical then b.note.value.canonical
        else !b.note.value.canonical && existing.note.None?)
  }

  /** The merged payload is independent of the order of two deliveries exactly if they do not compete; whether a note,
      and whether a canonical note is owned, never depends on it. */
  lemma MergeOrder(existing: Payload, a: Payload, b: Payload)
    ensures var ab, ba := MergePayload(MergePayload(existing, a), b), MergePayload(MergePayload(existing, b), a);
      && (ab == ba <==> !Compete(existing, a, b))
      && CanonicalNote(ab.note) == CanonicalNote(ba.note) && ab.note.Some? == ba.note.Some?
  {}
}
