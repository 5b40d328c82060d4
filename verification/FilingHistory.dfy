/** The history of one recording: every durable write and every effect outside the local disk, in order.

    `Allowed` says which effect may follow which state, `Sound` what holds after every single effect. The
    worker (`FilingPipeline`) proves that it only ever extends a lawful history, so both hold at every point
    where a run can be cut short. The theorems at the end read properties of whole runs off lawful histories. */
module FilingHistory {
  import opened Wrappers
  import opened RecordingState

  /** Why a write may forget what was on record. */
  datatype Cause =
    | Work        // ordinary pipeline work: never
    | Recovery    // a restart takes a running job back: only what was in memory
    | Relabelling // a late live note on a Done row: only the path that the row shows
    | Sibling     // another recording with a file of the same name: only the raw audio
    | Expiry      // the retention sweep of a terminal recording
    | Reopening   // a terminal failure written over a Done row
    | Overwriting // a new checkpoint written over one that could not be loaded

  datatype Effect =
    | Wrote(after: Disk, cause: Cause)
    | Misread                                // a load of an intact checkpoint failed
    | NoteRequested                          // the note command was called, whether or not it answered
    | NoteAnswered(path: Path)               // it answered: a note with this path has the final body
    | NoteWritten(path: Path)                // a note with this path now has the final body
    | Decoded(backend: Backend, place: nat, first: bool) // a backend, configured with a place, was asked for a transcript
    | Deleted(staging: Staging)              // the remote objects of a staging are gone

  /** One arming of the retry job: from its insertion, or its manual rearming, on. */
  datatype Arm = Arm(origin: Option<Backend>, max: nat, first: bool, claims: nat, decodes: nat)

  /** `answer` is the path with which the note command answered since the last claim of the job, `missed` how many
      loads of an intact checkpoint failed since then, and `orphans` the remote staging that no local file names
      any more. */
  datatype Verdict = Verdict(
    disk: Disk,
    arm: Option<Arm>,
    written: set<Path>,
    remote: set<Staging>,
    answer: Option<Path>,
    missed: nat,
    orphans: set<Staging>)

  /** A write that arms: the job appears, or a parked one becomes pending again. */
  predicate Arms(before: Option<Job>, after: Option<Job>) {
    after.Some? && (before.None? || (before.value.phase.Parked? && !after.value.phase.Parked?))
  }

  function NextArm(v: Verdict, after: Disk): Option<Arm> {
    if after.job.None? then (if after.row.None? then None else v.arm)
    else if Arms(v.disk.job, after.job) || v.arm.None? then
      Some(Arm(after.job.value.payload.origin, after.job.value.max, after.job.value.payload.firstBatch,
               after.job.value.attempts, 0))
    else Some(v.arm.value.(claims := after.job.value.attempts))
  }

  /** A write that claims the job. */
  predicate Claims(before: Disk, after: Disk) {
    after.JobRunning() && !before.JobRunning()
  }

  function AfterWrite(v: Verdict, after: Disk, cause: Cause): Verdict {
    var again := Claims(v.disk, after);
    Verdict(after, NextArm(v, after), v.written, v.remote,
            if again || cause.Recovery? then None else v.answer,
            if again then 0 else v.missed,
            if cause.Overwriting? then v.orphans + (v.remote - Owners(after)) else v.orphans)
  }

  /** Whatever the local files say, an AWS call may leave objects under the name of the attempt that is on the row. */
  function Uploads(d: Disk, backend: Backend, place: nat): set<Staging> {
    if backend.Aws? && d.row.Some? && d.row.value.attempt.Some? then {Staging(d.row.value.attempt.value, place)} else {}
  }

  function Advance(v: Verdict, e: Effect): Verdict {
    match e
    case Wrote(after, cause) => AfterWrite(v, after, cause)
    case Misread => v.(missed := v.missed + 1)
    case NoteRequested => v
    case NoteAnswered(path) => v.(written := v.written + {path}, answer := Some(path))
    case NoteWritten(path) => v.(written := v.written + {path})
    case Decoded(backend, place, _) =>
      v.(arm := if v.arm.Some? then Some(v.arm.value.(decodes := v.arm.value.decodes + 1)) else None,
         remote := v.remote + Uploads(v.disk, backend, place))
    case Deleted(staging) => v.(remote := v.remote - {staging})
  }

  // ---- what each effect may do ----

  /** Nothing that could be loaded says that the recording was transcribed: it takes two failed loads of an intact
      checkpoint to get here with one. */
  predicate LooksUntranscribed(d: Disk, missed: nat) {
    !d.RowIs(Done) && !CanonicalNote(PayloadNote(d.job)) && (d.checkpoint.Stored? ==> missed >= 2)
  }

  predicate Recovers(before: Disk, after: Disk) {
    before.JobRunning() && after == before.(job := Some(before.job.value.(phase := Pending)))
  }

  predicate Overwrites(before: Disk, after: Disk) {
    before.checkpoint.Stored? && after.checkpoint.Stored? && after == before.(checkpoint := after.checkpoint)
  }

  predicate Relabels(before: Disk, after: Disk) {
    && before.RowIs(Done) && after.RowIs(Done) && after.row.value.note.Some?
    && after == before.(row := Some(before.row.value.(note := after.row.value.note)))
  }

  /** A recording with one final note keeps it, and gets no second one. */
  predicate KeepsFinal(before: Disk, after: Disk) {
    Coherent(before) ==> Coherent(after) && (FinalPath(before).Some? ==> FinalPath(after) == FinalPath(before))
  }

  /** Ordinary work never forgets: not a canonical note, not a transcript, not the audio, not the recording, not the
      origin of the job. */
  predicate Remembers(before: Disk, after: Disk) {
    && (Secured(before) ==> Secured(after))
    && (Transcribed(before) ==> Transcribed(after))
    && after.audio == before.audio
    && (before.row.Some? ==> after.row.Some?)
    && (before.job.Some? && after.job.Some? ==> after.job.value.payload.origin == before.job.value.payload.origin)
  }

  /** A recording becomes Done only with a note whose final body was written, and with no remote object left
      to name. First-batch authority is granted only before any backend attempt. An arming starts from
      attempt zero; otherwise attempts are only counted up, one claim at a time. A job is parked only when its budget
      is spent, and an attempt keeps its name. */
  predicate HonestWrite(v: Verdict, after: Disk) {
    && (after.RowIs(Done) && !v.disk.RowIs(Done) ==>
          after.row.value.note.Some? && after.row.value.note.value in v.written && Owners(after) == {})
    && (after.job.Some? && Arms(v.disk.job, after.job) ==>
          after.job.value.attempts == 0 &&
          (after.job.value.payload.firstBatch ==> v.disk.row.Some? && v.disk.row.value.attempt.None?))
    && (after.job.Some? && v.disk.job.Some? && !Arms(v.disk.job, after.job) ==>
          && after.job.value.max == v.disk.job.value.max
          && (after.job.value.attempts == v.disk.job.value.attempts
              || (after.job.value.attempts == v.disk.job.value.attempts + 1 && after.job.value.phase.Running?)))
    && (Parks(v.disk, after) ==> MayPark(v.disk))
    && (after.row.Some? ==>
          if v.disk.row.Some? then NamesAttempt(v.disk, v.missed, after.row.value) else after.row.value.attempt.None?)
  }

  /** The sweep touches terminal recordings without remote objects, one artifact at a time, and the row last. */
  predicate Expires(before: Disk, after: Disk) {
    && before.RowTerminal() && !UnresolvedStaging(before)
    && after.marker == before.marker
    && (after.checkpoint == before.checkpoint || after.checkpoint.Absent?)
    && (after.job == before.job || (after.job.None? && !before.audio && before.checkpoint.Absent?))
    && (after.audio ==> before.audio)
    && (after.row == before.row ||
        (after.row.None? && before.job.None? && !before.audio && before.checkpoint.Absent?))
  }

  predicate Reopens(before: Disk, after: Disk) {
    before.RowIs(Done) && after.RowIs(Failed) && after == before.(row := after.row)
  }

  /** Ordinary work ends a claim only when something durable names the path with which the note command answered. */
  predicate Settles(v: Verdict, after: Disk) {
    v.answer.Some? && v.disk.JobRunning() && !after.JobRunning() ==> Names(after, v.answer.value)
  }

  /** What the marker says while a backend works on an attempt: the place and the attempt's name if objects may go to
      the cloud, and nothing if not. */
  function AttemptOwner(name: AttemptName, backend: Backend, place: nat): Option<Staging> {
    match backend
    case Aws => Some(Staging(name, place))
    case Local => None
  }

  /** The name of an attempt, once on the row, stays; the first is the ordinary one. Only a recording that waits for its
      note, and whose transcript does not load, is given the other name by its running job. */
  predicate NamesAttempt(d: Disk, missed: nat, after: Row)
    requires d.row.Some?
  {
    var before := d.row.value;
    || after.attempt == before.attempt
    || (before.attempt.None? && after.attempt == Some(Ordinary))
    || (after.attempt == Some(Compatibility) && before.status.PendingNote? && d.JobRunning() &&
        !CanonicalNote(PayloadNote(d.job)) && (d.checkpoint.Stored? ==> missed >= 1))
  }

  /** A job is parked only by the claim that spends its budget, when the recording has failed or is done. */
  predicate MayPark(d: Disk) {
    d.JobRunning() && d.job.value.attempts >= d.job.value.max && d.RowTerminal()
  }

  predicate Parks(before: Disk, after: Disk) {
    after.job.Some? && after.job.value.phase.Parked? && !(before.job.Some? && before.job.value.phase.Parked?)
  }

  predicate Allowed(v: Verdict, e: Effect) {
    match e
    case Wrote(after, cause) =>
      && HonestWrite(v, after)
      && (cause.Work? ==> Remembers(v.disk, after) && Settles(v, after) && KeepsFinal(v.disk, after))
      && (cause.Recovery? ==> Recovers(v.disk, after))
      && (cause.Relabelling? ==> Relabels(v.disk, after))
      && (cause.Sibling? ==> after == v.disk.(audio := after.audio))
      && (cause.Overwriting? ==> Overwrites(v.disk, after) && LooksUntranscribed(v.disk, v.missed))
      && (cause.Expiry? ==> Expires(v.disk, after))
      && (cause.Reopening? ==> Reopens(v.disk, after))
    case Misread => v.disk.checkpoint.Stored?
    case NoteRequested =>
      !Secured(v.disk) && v.disk.checkpoint.Stored? && Owners(v.disk) == {} && v.answer.None?
    case NoteAnswered(_) => v.disk.row.Some? && v.answer.None?
    case NoteWritten(_) => v.disk.row.Some?
    case Decoded(backend, place, first) =>
      && LooksUntranscribed(v.disk, v.missed)
      && v.disk.row.Some? && v.disk.row.value.attempt.Some?
      && v.arm.Some? && v.arm.value.origin == Some(backend)
      && v.arm.value.decodes < v.arm.value.claims <= v.arm.value.max
      && (first ==> v.arm.value.claims == 1 && v.arm.value.first)
      && v.disk.marker == AttemptOwner(v.disk.row.value.attempt.value, backend, place)
    case Deleted(_) => true
  }

  // ---- what holds after every effect ----

  predicate ArmFits(d: Disk, arm: Option<Arm>) {
    && (d.job.Some? ==>
          && arm.Some? && arm.value.origin == d.job.value.payload.origin && arm.value.max == d.job.value.max
          && arm.value.claims == d.job.value.attempts && (d.job.value.payload.firstBatch ==> arm.value.first))
    && (arm.Some? ==> arm.value.decodes <= arm.value.claims && arm.value.decodes <= arm.value.max)
  }

  /** An armed recording that still wants work has an active job, and a job is parked only when the row is
      terminal. */
  predicate NeverStranded(d: Disk, arm: Option<Arm>) {
    && (arm.Some? ==> d.JobActive() || (d.row.Some? && d.row.value.status.AtRest()))
    && (d.job.Some? && d.job.value.phase.Parked? ==> d.RowTerminal())
  }

  /** Whatever is called canonical has its final body. */
  predicate CanonicalIsWritten(d: Disk, written: set<Path>) {
    && (CanonicalNote(CheckpointNote(d.checkpoint)) ==> CheckpointNote(d.checkpoint).value.path in written)
    && (CanonicalNote(PayloadNote(d.job)) ==> PayloadNote(d.job).value.path in written)
  }

  predicate Sound(v: Verdict) {
    && ArmFits(v.disk, v.arm)
    && NeverStranded(v.disk, v.arm)
    && CanonicalIsWritten(v.disk, v.written)
    && v.remote <= Owners(v.disk) + v.orphans
  }

  // ---- histories ----

  ghost function Judge(start: Verdict, history: seq<Effect>): Verdict {
    if history == [] then start else Advance(Judge(start, history[..|history| - 1]), history[|history| - 1])
  }

  ghost predicate Lawful(start: Verdict, history: seq<Effect>) {
    Sound(Judge(start, history)) &&
    (history == [] ||
     (Lawful(start, history[..|history| - 1]) &&
      Allowed(Judge(start, history[..|history| - 1]), history[|history| - 1])))
  }

  ghost function At(start: Verdict, history: seq<Effect>, i: nat): Verdict
    requires i <= |history|
  {
    Judge(start, history[..i])
  }

  lemma Extends(start: Verdict, history: seq<Effect>, e: Effect)
    requires Lawful(start, history) && Allowed(Judge(start, history), e) && Sound(Advance(Judge(start, history), e))
    ensures Lawful(start, history + [e])
    ensures Judge(start, history + [e]) == Advance(Judge(start, history), e)
  {
    assert (history + [e])[..|history|] == history;
  }

  /** One step of a lawful history, by index. */
  lemma {:induction false} StepAt(start: Verdict, history: seq<Effect>, i: nat)
    requires Lawful(start, history) && i < |history|
    ensures Allowed(At(start, history, i), history[i])
    ensures At(start, history, i + 1) == Advance(At(start, history, i), history[i])
    ensures Sound(At(start, history, i)) && Sound(At(start, history, i + 1))
  {
    var n := |history| - 1;
    if i < n {
      StepAt(start, history[..n], i);
      assert history[..n][..i] == history[..i] && history[..n][..i + 1] == history[..i + 1];
    } else {
      assert history[..n + 1] == history;
    }
  }

  lemma Advances(start: Verdict, history: seq<Effect>, i: nat)
    requires i < |history|
    ensures At(start, history, i + 1) == Advance(At(start, history, i), history[i])
  {
    assert history[..i + 1][..i] == history[..i];
  }

  // ---- what lawful histories promise ----

  /** The writes that may forget: expiry, the reopening of a Done row, and a checkpoint written over another. */
  predicate Releases(e: Effect) {
    e.Wrote? && (e.cause.Expiry? || e.cause.Reopening? || e.cause.Overwriting?)
  }

  /** Ordinary work, retries, restarts and crashes never lose a canonical note or a transcript on record, nor
      that a backend attempt was made. */
  lemma {:induction false} OnRecordUntilReleased(start: Verdict, history: seq<Effect>, i: nat, j: nat)
    requires Lawful(start, history) && i <= j <= |history|
    requires forall k :: i <= k < j ==> !Releases(history[k])
    ensures Secured(At(start, history, i).disk) ==> Secured(At(start, history, j).disk)
    ensures Transcribed(At(start, history, i).disk) ==> Transcribed(At(start, history, j).disk)
  {
    if i < j {
      OnRecordUntilReleased(start, history, i, j - 1);
      StepAt(start, history, j - 1);
    }
  }

  /** The write at `k` puts another path on a Done row. */
  ghost predicate RelabelsOther(start: Verdict, history: seq<Effect>, k: nat)
    requires k < |history|
  {
    history[k].Wrote? && history[k].cause.Relabelling? &&
    RowFinal(history[k].after) != RowFinal(At(start, history, k).disk)
  }

  lemma StepKeepsFinal(start: Verdict, history: seq<Effect>, k: nat)
    requires Lawful(start, history) && k < |history|
    requires Coherent(At(start, history, k).disk) && !RelabelsOther(start, history, k)
    ensures var before, after := At(start, history, k).disk, At(start, history, k + 1).disk;
      Coherent(after) && (FinalPath(before).Some? && !Releases(history[k]) ==> FinalPath(after) == FinalPath(before))
  {
    StepAt(start, history, k);
    hide At, Lawful, Sound, Remembers, Settles, HonestWrite;
  }

  /** Whatever else happens, Done row, checkpoint and payload never come to name two different final notes, as long
      as no late live note puts another path on a Done row. */
  lemma {:induction false} OneFinalNote(start: Verdict, history: seq<Effect>, i: nat, j: nat)
    requires Lawful(start, history) && i <= j <= |history| && Coherent(At(start, history, i).disk)
    requires forall k :: i <= k < j ==> !RelabelsOther(start, history, k)
    ensures Coherent(At(start, history, j).disk)
  {
    hide At, Lawful, Coherent, RelabelsOther;
    if i < j {
      OneFinalNote(start, history, i, j - 1);
      StepKeepsFinal(start, history, j - 1);
    }
  }

  /** And then the path of the final note itself stays on record until it is released. */
  lemma {:induction false} FinalNoteStays(start: Verdict, history: seq<Effect>, i: nat, j: nat, path: Path)
    requires Lawful(start, history) && i <= j <= |history| && Coherent(At(start, history, i).disk)
    requires At(start, history, i).disk.row.Some? && Names(At(start, history, i).disk, path)
    requires forall k :: i <= k < j ==> !Releases(history[k]) && !RelabelsOther(start, history, k)
    ensures Names(At(start, history, j).disk, path) && FinalPath(At(start, history, j).disk) == Some(path)
  {
    hide At, Lawful, RelabelsOther;
    if i < j {
      FinalNoteStays(start, history, i, j - 1, path);
      OneFinalNote(start, history, i, j - 1);
      StepKeepsFinal(start, history, j - 1);
    }
  }

  /** A late live note on a Done row forgets the path that the row showed exactly if it is another one and neither the
      checkpoint nor the payload names the old one. */
  lemma LateNoteForgets(v: Verdict, after: Disk, path: Path)
    requires Allowed(v, Wrote(after, Relabelling)) && RowFinal(v.disk) == Some(path)
    ensures !Names(after, path) <==>
      && RowFinal(after) != Some(path)
      && CanonicalPath(CheckpointNote(v.disk.checkpoint)) != Some(path)
      && CanonicalPath(PayloadNote(v.disk.job)) != Some(path)
  {}

  /** Once a canonical note is on record, the note command is never called again before the sweep expires the
      recording, a Done row is reopened, or a checkpoint is written over one that could not be loaded. */
  lemma NoSecondNote(start: Verdict, history: seq<Effect>, i: nat, j: nat)
    requires Lawful(start, history) && i <= j < |history|
    requires Secured(At(start, history, i).disk) && history[j] == NoteRequested
    ensures exists k :: i <= k < j && Releases(history[k])
  {
    if forall k :: i <= k < j ==> !Releases(history[k]) {
      OnRecordUntilReleased(start, history, i, j);
      StepAt(start, history, j);
    }
  }

  /** Once a transcript is on record, no backend is asked again before such a release, unless two loads of the
      intact checkpoint failed within the claim that asks. */
  lemma NoSecondDecode(start: Verdict, history: seq<Effect>, i: nat, j: nat)
    requires Lawful(start, history) && i <= j < |history|
    requires Transcribed(At(start, history, i).disk) && history[j].Decoded?
    ensures (exists k :: i <= k < j && Releases(history[k])) || At(start, history, j).missed >= 2
  {
    if forall k :: i <= k < j ==> !Releases(history[k]) {
      OnRecordUntilReleased(start, history, i, j);
      StepAt(start, history, j);
    }
  }

  function Misreads(history: seq<Effect>): nat {
    if history == [] then 0
    else Misreads(history[..|history| - 1]) + if history[|history| - 1].Misread? then 1 else 0
  }

  /** `missed` counts failed loads and nothing else. */
  lemma {:induction false} MissedAreMisreads(start: Verdict, history: seq<Effect>, i: nat, j: nat)
    requires i <= j <= |history|
    ensures At(start, history, j).missed <= At(start, history, i).missed + Misreads(history[i..j])
  {
    if i < j {
      MissedAreMisreads(start, history, i, j - 1);
      Advances(start, history, j - 1);
      hide At;
      assert history[i..j][..j - 1 - i] == history[i..j - 1];
    } else {
      assert history[i..j] == [];
    }
  }

  /** A checkpoint is written over another, and a transcribed recording decoded again, only if two loads failed
      since whatever claim came before. */
  lemma TwoMisreads(start: Verdict, history: seq<Effect>, claim: nat, k: nat)
    requires Lawful(start, history) && claim < k < |history|
    requires history[claim].Wrote? && Claims(At(start, history, claim).disk, history[claim].after)
    requires (history[k].Wrote? && history[k].cause.Overwriting?) ||
             (history[k].Decoded? && Transcribed(At(start, history, k).disk))
    ensures Misreads(history[claim + 1..k]) >= 2
  {
    StepAt(start, history, claim);
    StepAt(start, history, k);
    MissedAreMisreads(start, history, claim + 1, k);
  }

  /** The write at `k` claims the job, or takes it back at a restart. */
  ghost predicate Reclaims(start: Verdict, history: seq<Effect>, k: nat)
    requires k < |history|
  {
    history[k].Wrote? && (history[k].cause.Recovery? || Claims(At(start, history, k).disk, history[k].after))
  }

  lemma {:induction false} AnswerStays(start: Verdict, history: seq<Effect>, i: nat, j: nat)
    requires Lawful(start, history) && i <= j <= |history| && At(start, history, i).answer.Some?
    requires forall k :: i <= k < j ==> !Reclaims(start, history, k)
    ensures At(start, history, j).answer == At(start, history, i).answer
  {
    if i < j {
      AnswerStays(start, history, i, j - 1);
      StepAt(start, history, j - 1);
      assert !Reclaims(start, history, j - 1);
    }
  }

  /** Once the note command has answered and ordinary work ends the claim, the answered path is owned: by the Done
      row, by the checkpoint or by the payload of the job. */
  lemma AnsweredNoteIsOwned(start: Verdict, history: seq<Effect>, i: nat, j: nat, path: Path)
    requires Lawful(start, history) && i < j < |history| && history[i] == NoteAnswered(path)
    requires forall k :: i < k < j ==> !Reclaims(start, history, k)
    requires history[j].Wrote? && history[j].cause.Work?
    requires At(start, history, j).disk.JobRunning() && !history[j].after.JobRunning()
    ensures Names(history[j].after, path)
  {
    StepAt(start, history, i);
    AnswerStays(start, history, i + 1, j);
    StepAt(start, history, j);
  }

  /** Within one claim the note command is not called again after it has answered. */
  lemma AnsweredOncePerClaim(start: Verdict, history: seq<Effect>, i: nat, j: nat)
    requires Lawful(start, history) && i < j < |history| && history[i].NoteAnswered? && history[j] == NoteRequested
    ensures exists k :: i < k < j && Reclaims(start, history, k)
  {
    StepAt(start, history, i);
    if forall k :: i < k < j ==> !Reclaims(start, history, k) {
      AnswerStays(start, history, i + 1, j);
      StepAt(start, history, j);
    }
  }

  function Decodings(history: seq<Effect>): nat {
    if history == [] then 0
    else Decodings(history[..|history| - 1]) + if history[|history| - 1].Decoded? then 1 else 0
  }

  /** The effect at `k` starts another arming, or forgets the recording altogether. */
  ghost predicate Rearms(start: Verdict, history: seq<Effect>, k: nat)
    requires k < |history|
  {
    history[k].Wrote? &&
    (Arms(At(start, history, k).disk.job, history[k].after.job) ||
     (history[k].after.job.None? && history[k].after.row.None?))
  }

  lemma ArmStep(start: Verdict, history: seq<Effect>, k: nat)
    requires Lawful(start, history) && k < |history| && At(start, history, k).arm.Some? && !Rearms(start, history, k)
    ensures var a, b := At(start, history, k).arm.value, At(start, history, k + 1).arm;
      && b.Some? && b.value.origin == a.origin && b.value.max == a.max && b.value.first == a.first
      && b.value.decodes == a.decodes + (if history[k].Decoded? then 1 else 0) <= a.max
      && (history[k].Decoded? ==> a.origin == Some(history[k].backend))
  {
    StepAt(start, history, k);
    hide Settles, Remembers, LooksUntranscribed, CanonicalIsWritten, NeverStranded, Claims, At;
  }

  /** Between two armings every backend call uses the origin recorded at arming time, and over all claims,
      crashes and recoveries there are never more of them than the armed budget. */
  lemma {:induction false} DecodesWithinBudget(start: Verdict, history: seq<Effect>, i: nat, j: nat)
    requires Lawful(start, history) && i <= j <= |history| && At(start, history, i).arm.Some?
    requires forall k :: i <= k < j ==> !Rearms(start, history, k)
    ensures var a, b := At(start, history, i).arm.value, At(start, history, j).arm;
      && b.Some? && b.value.origin == a.origin && b.value.max == a.max && b.value.first == a.first
      && a.decodes + Decodings(history[i..j]) == b.value.decodes <= a.max
      && forall k :: i <= k < j && history[k].Decoded? ==> a.origin == Some(history[k].backend)
  {
    hide Lawful, At, Rearms;
    if i < j {
      DecodesWithinBudget(start, history, i, j - 1);
      assert history[i..j][..j - 1 - i] == history[i..j - 1];
      assert !Rearms(start, history, j - 1);
      ArmStep(start, history, j - 1);
    } else {
      assert history[i..j] == [];
      BudgetAt(start, history, i);
    }
  }

  lemma BudgetAt(start: Verdict, history: seq<Effect>, i: nat)
    requires Lawful(start, history) && i <= |history|
    ensures var arm := At(start, history, i).arm; arm.Some? ==> arm.value.decodes <= arm.value.max
  {
    SoundAt(start, history, i);
  }

  lemma SoundAt(start: Verdict, history: seq<Effect>, i: nat)
    requires Lawful(start, history) && i <= |history|
    ensures Sound(At(start, history, i))
  {
    if i < |history| {
      StepAt(start, history, i);
    } else {
      assert history[..i] == history;
    }
  }

  /** A backend attempt is on the row, and if the arming had first-batch authority, it was used. */
  ghost predicate FirstBatchSpent(v: Verdict) {
    && v.disk.row.Some? && v.disk.row.value.attempt.Some?
    && (v.arm.Some? && v.arm.value.first ==> v.arm.value.decodes >= 1)
  }

  predicate Expired(e: Effect) {
    e.Wrote? && e.cause.Expiry?
  }

  lemma {:induction false} FirstBatchStaysSpent(start: Verdict, history: seq<Effect>, i: nat, j: nat)
    requires Lawful(start, history) && i <= j <= |history|
    requires FirstBatchSpent(At(start, history, i))
    requires forall k :: i <= k < j ==> !Expired(history[k])
    ensures FirstBatchSpent(At(start, history, j))
  {
    if i < j {
      FirstBatchStaysSpent(start, history, i, j - 1);
      StepAt(start, history, j - 1);
      StaysSpent(At(start, history, j - 1), history[j - 1]);
      hide FirstBatchSpent, Allowed, Sound, Advance, At;
    }
  }

  lemma StaysSpent(v: Verdict, e: Effect)
    requires Allowed(v, e) && Sound(v) && FirstBatchSpent(v) && !Expired(e)
    ensures FirstBatchSpent(Advance(v, e))
  {
    hide NeverStranded, CanonicalIsWritten, Settles, KeepsFinal, LooksUntranscribed, Secured, Transcribed;
    hide MayPark, AttemptOwner, Uploads;
  }

  /** No delivery, retry or restart after a backend call earns first-batch authority again, only an expiry. */
  lemma FirstBatchIsFirst(start: Verdict, history: seq<Effect>, i: nat, j: nat)
    requires Lawful(start, history) && i < j < |history|
    requires history[i].Decoded? && history[j].Decoded? && history[j].first
    ensures exists k :: i < k < j && Expired(history[k])
  {
    StepAt(start, history, i);
    if forall k :: i + 1 <= k < j ==> !Expired(history[k]) {
      FirstBatchStaysSpent(start, history, i + 1, j);
      StepAt(start, history, j);
      assert false;
    }
  }

  /** At every point where a run can be cut: remote objects that may exist are named by a local file, or were
      forgotten when a checkpoint was written over one that could not be loaded; and an armed recording that still
      wants a transcript or a note has an active job. */
  lemma AtEveryPoint(start: Verdict, history: seq<Effect>, i: nat)
    requires Lawful(start, history) && i <= |history|
    ensures var v := At(start, history, i);
      && v.remote <= Owners(v.disk) + v.orphans
      && (v.arm.Some? && v.disk.row.Some? && !v.disk.row.value.status.AtRest() ==> v.disk.JobActive())
  {
    SoundAt(start, history, i);
  }

  /** Every AWS call happens with its owner on record: before the call the marker names the attempt that is on the row,
      and the configured place, and whatever the call leaves in the cloud is what the marker names. A local call leaves
      nothing, and happens when no marker is left. */
  lemma EveryCallIsOwned(start: Verdict, history: seq<Effect>, i: nat)
    requires Lawful(start, history) && i < |history| && history[i].Decoded?
    ensures var before, after := At(start, history, i), At(start, history, i + 1);
      && before.disk.row.Some? && before.disk.row.value.attempt.Some?
      && (history[i].backend.Aws? ==>
            var owner := Staging(before.disk.row.value.attempt.value, history[i].place);
            before.disk.marker == Some(owner) && after.remote == before.remote + {owner} && owner in Owners(after.disk))
      && (history[i].backend.Local? ==> before.disk.marker.None? && after.remote == before.remote)
  {
    StepAt(start, history, i);
  }

  /** The AWS call at `k` may have left the objects of a staging. */
  ghost predicate Leaves(start: Verdict, history: seq<Effect>, k: nat, s: Staging)
    requires k < |history|
  {
    history[k].Decoded? && history[k].backend.Aws? && At(start, history, k).disk.marker == Some(s)
  }

  /** Nothing is in the cloud that was not there at the start and that no such call left. */
  lemma {:induction false} RemoteWasOwned(start: Verdict, history: seq<Effect>, i: nat, s: Staging)
    requires Lawful(start, history) && i <= |history| && s in At(start, history, i).remote
    ensures s in start.remote || exists k :: 0 <= k < i && Leaves(start, history, k, s)
  {
    if i > 0 {
      StepAt(start, history, i - 1);
      if s in At(start, history, i - 1).remote {
        RemoteWasOwned(start, history, i - 1, s);
      } else {
        EveryCallIsOwned(start, history, i - 1);
        assert Leaves(start, history, i - 1, s);
      }
    }
  }

  /** A job that is parked was parked by a claim that had spent the budget of its arming, when its recording was
      terminal. */
  lemma {:induction false} ParkedIsSpent(start: Verdict, history: seq<Effect>, i: nat, j: nat)
    requires Lawful(start, history) && i <= j <= |history|
    requires Parks(At(start, history, i).disk, At(start, history, j).disk)
    ensures exists k :: i <= k < j && history[k].Wrote? && Parks(At(start, history, k).disk, history[k].after) &&
                        MayPark(At(start, history, k).disk)
  {
    if i < j {
      StepAt(start, history, j - 1);
      if Parks(At(start, history, i).disk, At(start, history, j - 1).disk) {
        ParkedIsSpent(start, history, i, j - 1);
      }
    }
  }

  /** The write at `k` gives the attempt its other name. */
  ghost predicate Renames(start: Verdict, history: seq<Effect>, k: nat)
    requires k < |history|
  {
    && history[k].Wrote? && history[k].after.row.Some? && history[k].after.row.value.attempt == Some(Compatibility)
    && At(start, history, k).disk.RowIs(PendingNote) && At(start, history, k).disk.JobRunning()
  }

  /** Whatever happens, until its expiry a recording keeps the name of its attempt, unless it waits for its note and
      its running job gives it the other name. */
  lemma {:induction false} AttemptNameStays(start: Verdict, history: seq<Effect>, i: nat, j: nat)
    requires Lawful(start, history) && i <= j <= |history|
    requires At(start, history, i).disk.row.Some? && At(start, history, i).disk.row.value.attempt.Some?
    requires forall k :: i <= k < j ==> !Expired(history[k]) && !Renames(start, history, k)
    ensures At(start, history, j).disk.row.Some?
    ensures At(start, history, j).disk.row.value.attempt == At(start, history, i).disk.row.value.attempt
  {
    if i < j {
      AttemptNameStays(start, history, i, j - 1);
      StepAt(start, history, j - 1);
      assert !Renames(start, history, j - 1);
    }
  }

  /** Notes are requested, and recordings completed, only when nothing is left in the cloud. */
  lemma NothingRemoteWhenFiled(start: Verdict, history: seq<Effect>, i: nat)
    requires Lawful(start, history) && i < |history|
    requires history[i].NoteRequested? ||
             (history[i].Wrote? && history[i].after.RowIs(Done) && !At(start, history, i).disk.RowIs(Done))
    ensures At(start, history, i + 1).remote <= At(start, history, i + 1).orphans
  {
    StepAt(start, history, i);
  }

  /** Nothing is forgotten in the cloud as long as no checkpoint is written over another. */
  lemma {:induction false} NoOrphans(start: Verdict, history: seq<Effect>, i: nat)
    requires i <= |history|
    requires forall k :: 0 <= k < i && history[k].Wrote? ==> !history[k].cause.Overwriting?
    ensures At(start, history, i).orphans == start.orphans
  {
    if i > 0 {
      assert history[..i][..i - 1] == history[..i - 1];
      NoOrphans(start, history, i - 1);
    }
  }

  predicate Writes(e: Effect, path: Path) {
    e == NoteWritten(path) || e == NoteAnswered(path)
  }

  /** Every path that counts as written was so at the start, or some effect wrote it. */
  lemma {:induction false} WrittenBefore(start: Verdict, history: seq<Effect>, i: nat, path: Path)
    requires i <= |history| && path in At(start, history, i).written
    ensures path in start.written || exists k :: 0 <= k < i && Writes(history[k], path)
  {
    if i > 0 {
      assert history[..i][..i - 1] == history[..i - 1];
      if path in At(start, history, i - 1).written {
        WrittenBefore(start, history, i - 1, path);
      } else {
        assert Writes(history[i - 1], path);
      }
    }
  }

  /** A Done row shows a note whose final body was written before. */
  lemma DoneShowsAWrittenNote(start: Verdict, history: seq<Effect>, i: nat)
    requires Lawful(start, history) && i < |history|
    requires history[i].Wrote? && history[i].after.RowIs(Done) && !At(start, history, i).disk.RowIs(Done)
    ensures history[i].after.row.value.note.Some?
    ensures var path := history[i].after.row.value.note.value;
      path in start.written || exists k :: 0 <= k < i && Writes(history[k], path)
  {
    StepAt(start, history, i);
    WrittenBefore(start, history, i, history[i].after.row.value.note.value);
  }

  /** Raw audio and rows disappear only from terminal recordings without remote objects, and the row goes when
      nothing that it names is left; except that another recording may take the audio if the two share its name. */
  lemma RetentionIsOrderly(start: Verdict, history: seq<Effect>, i: nat)
    requires Lawful(start, history) && i < |history|
    ensures var before, after := At(start, history, i).disk, At(start, history, i + 1).disk;
      && (before.audio && !after.audio ==>
            history[i].Wrote? && (history[i].cause.Sibling? || (before.RowTerminal() && !UnresolvedStaging(before))))
      && (before.row.Some? && after.row.None? ==>
            before.RowTerminal() && !before.audio && before.checkpoint.Absent? && before.marker.None? &&
            before.job.None? && At(start, history, i).remote <= At(start, history, i).orphans)
  {
    StepAt(start, history, i);
  }
}
