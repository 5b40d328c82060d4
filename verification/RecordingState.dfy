/** Everything durable about one recording: its queue row, its retry job, its filing checkpoint, the marker of
    its cloud staging and its raw audio. One recording at a time is enough: the only thing that another one can
    change is the raw audio, when the two share a file name (module Retention). */
module RecordingState {
  import opened Wrappers

  type Path = string

  datatype Backend = Local | Aws

  datatype Status = Recording | PendingTranscription | Transcribing | PendingNote | Done | Failed
  {
    predicate Terminal() { Done? || Failed? }

    /** Nothing durable promises further work while the row is here. */
    predicate AtRest() { Done? || Failed? || Recording? }
  }

  /** A partial live note may be rewritten or replaced; the body of a canonical one is final. */
  datatype OwnedNote = OwnedNote(path: Path, canonical: bool)

  /** The stable name of a transcription attempt: the recording's id, or its `-checkpoint-v1` variant. */
  datatype AttemptName = Ordinary | Compatibility

  /** Where an attempt may have put remote objects; `place` stands for bucket, prefix and region. */
  datatype Staging = Staging(name: AttemptName, place: nat)

  datatype Row = Row(status: Status, note: Option<Path>, attempt: Option<AttemptName>)

  datatype Payload = Payload(
    note: Option<OwnedNote>,
    origin: Option<Backend>,
    firstBatch: bool,
    captureFinished: bool)

  datatype Phase = Pending | Running | Parked

  datatype Job = Job(phase: Phase, payload: Payload, attempts: nat, max: nat)

  datatype Checkpoint = Checkpoint(note: Option<OwnedNote>, staging: Option<Staging>, origin: Option<Backend>)

  datatype CheckpointFile = Absent | Unreadable | Stored(value: Checkpoint)

  datatype Disk = Disk(
    row: Option<Row>,
    job: Option<Job>,
    checkpoint: CheckpointFile,
    marker: Option<Staging>,
    audio: bool)
  {
    predicate RowIs(status: Status) { row.Some? && row.value.status == status }

    predicate RowTerminal() { row.Some? && row.value.status.Terminal() }

    predicate JobActive() { job.Some? && !job.value.phase.Parked? }

    predicate JobRunning() { job.Some? && job.value.phase.Running? }
  }

  predicate CanonicalNote(note: Option<OwnedNote>) {
    note.Some? && note.value.canonical
  }

  function CheckpointNote(file: CheckpointFile): Option<OwnedNote> {
    if file.Stored? then file.value.note else None
  }

  // ---- the final note ----

  function RowFinal(d: Disk): Option<Path> {
    if d.RowIs(Done) then d.row.value.note else None
  }

  function CanonicalPath(note: Option<OwnedNote>): Option<Path> {
    if CanonicalNote(note) then Some(note.value.path) else None
  }

  predicate Same(a: Option<Path>, b: Option<Path>) {
    a.Some? && b.Some? ==> a == b
  }

  /** Done row, checkpoint and payload do not name two different final notes, and a Done row names one. */
  predicate Coherent(d: Disk) {
    var checkpoint, payload := CanonicalPath(CheckpointNote(d.checkpoint)), CanonicalPath(PayloadNote(d.job));
    && (d.RowIs(Done) ==> d.row.value.note.Some?)
    && Same(RowFinal(d), checkpoint) && Same(RowFinal(d), payload) && Same(checkpoint, payload)
  }

  /** Nothing names another final note than this one. */
  predicate Free(d: Disk, path: Path) {
    && Same(RowFinal(d), Some(path)) && Same(CanonicalPath(CheckpointNote(d.checkpoint)), Some(path))
    && Same(CanonicalPath(PayloadNote(d.job)), Some(path))
  }

  /** The final note of the recording that is on record. */
  function FinalPath(d: Disk): Option<Path> {
    var checkpoint := CanonicalPath(CheckpointNote(d.checkpoint));
    if d.row.None? then None
    else if RowFinal(d).Some? then RowFinal(d)
    else if checkpoint.Some? then checkpoint else CanonicalPath(PayloadNote(d.job))
  }

  /** Something durable names the path as that of a final note: a Done row, the checkpoint or the retry payload. */
  predicate Names(d: Disk, path: Path) {
    || (d.RowIs(Done) && d.row.value.note == Some(path))
    || CheckpointNote(d.checkpoint) == Some(OwnedNote(path, true))
    || PayloadNote(d.job) == Some(OwnedNote(path, true))
  }

  function PayloadNote(job: Option<Job>): Option<OwnedNote> {
    if job.Some? then job.value.payload.note else None
  }

  /** A canonical note is on record: in a Done row, in the checkpoint or in the retry payload. */
  predicate Secured(d: Disk) {
    d.row.Some? &&
    (d.row.value.status.Done? || CanonicalNote(CheckpointNote(d.checkpoint)) || CanonicalNote(PayloadNote(d.job)))
  }

  /** The transcript is on record: a loadable checkpoint, or a canonical note. */
  predicate Transcribed(d: Disk) {
    d.checkpoint.Stored? || Secured(d)
  }

  /** The remote staging that local files still name. */
  function Owners(d: Disk): set<Staging> {
    (if d.marker.Some? then {d.marker.value} else {}) +
    (if d.checkpoint.Stored? && d.checkpoint.value.staging.Some? then {d.checkpoint.value.staging.value} else {})
  }

  /** `has_unresolved_aws_staging`: an unreadable checkpoint may be the last copy of an owner. */
  predicate UnresolvedStaging(d: Disk) {
    d.marker.Some? ||
    match d.checkpoint
    case Stored(value) => value.staging.Some?
    case Unreadable => true
    case Absent => false
  }

  /** Only a readable state without any owner is resolved. */
  lemma ResolvedExactly(d: Disk)
    ensures UnresolvedStaging(d) <==> d.checkpoint.Unreadable? || Owners(d) != {}
  {
    if d.marker.Some? {
      assert d.marker.value in Owners(d);
    }
    if d.checkpoint.Stored? && d.checkpoint.value.staging.Some? {
      assert d.checkpoint.value.staging.value in Owners(d);
    }
  }
}
