/** The filing worker: one thread that pushes a recording through transcription, checkpoint, note and Done,
    with retries, manual retries, restart recovery and the retention sweep.

    Every durable write goes through `Commit`, which may be interrupted before or after it takes effect and may
    report failure although it took effect. Interruption is an outcome (`Crashed`) that every operation passes
    on at once; only the durable state survives it. A load of an intact checkpoint, like any other read of what
    is there, may fail at any time. */
module FilingPipeline {
  import opened Wrappers
  import opened RecordingState
  import opened RetryPolicy
  import opened FilingHistory

  datatype Exec<+T> = Crashed | Ran(value: T)
  {
    predicate IsFailure() { Crashed? }

    function PropagateFailure<U>(): Exec<U>
      requires Crashed?
    { Crashed }

    function Extract(): T
      requires Ran?
    { value }
  }

  /** `Result<()>`; an error may carry the note that was just returned and that nothing durable owns yet. */
  datatype Outcome = Fine | Fails(note: Option<OwnedNote>)

  datatype LiveOutcome = Filed(notePath: Path) | Fallback(partialPath: Option<Path>) | NoNote

  /** The part of the settings that the worker mirrors. */
  datatype Config = Config(backend: Backend, place: nat)

  const BROKEN: Outcome := Fails(None)

  /** What has happened so far, and what it adds up to. */
  datatype Past = Past(history: seq<Effect>, seen: Verdict)

  /** It went well, or there is new trouble. Where success tolerates failures on the way, a contract says how many. */
  predicate OrTrouble(before: nat, after: nat, ok: bool) {
    before <= after && (ok || before < after)
  }

  /** It went well exactly if there is no new trouble: no failure on the way is ignored. */
  predicate Strict(before: nat, after: nat, ok: bool) {
    before <= after && (ok <==> before == after)
  }

  class Worker {
    var disk: Disk
    /** The note files that were there when last looked at; anyone may move them. */
    var notes: set<Path>
    var live: Option<LiveOutcome>
    var config: Config
    /** Whether the process runs. */
    var up: bool

    ghost const start: Verdict
    ghost var past: Past

    /** How often something was interrupted or reported a failure so far. */
    ghost var trouble: nat

    /** The durable state is the end of a lawful history. */
    ghost predicate Valid()
      reads `disk, `past
    {
      disk == past.seen.disk && past.seen == Judge(start, past.history) && Lawful(start, past.history) && Sound(past.seen)
    }

    constructor (disk: Disk, live: Option<LiveOutcome>, config: Config, ghost start: Verdict)
      requires Sound(start) && start.disk == disk && LiveFresh(live, start)
      ensures Valid() && LiveFresh(this.live, past.seen) && past.history == [] && this.start == start && this.disk == disk
      ensures trouble == 0 && up && this.live == live && this.config == config
    {
      this.disk, this.live, this.config, notes, up := disk, live, config, {}, true;
      this.start, past, trouble := start, Past([], start), 0;
    }

    /** What a valid state says without its history. */
    lemma Facts()
      requires Valid()
      ensures past.seen.disk == disk && past.seen.remote <= Owners(disk) + past.seen.orphans
      ensures CanonicalIsWritten(disk, past.seen.written)
      ensures ArmFits(disk, past.seen.arm) && NeverStranded(disk, past.seen.arm)
    {}

    // ---- durable writes and outside effects ----

    method Commit(next: Disk, ghost cause: Cause := Work) returns (r: Exec<bool>)
      requires Valid() && Allowed(past.seen, Wrote(next, cause)) && Sound(Advance(past.seen, Wrote(next, cause)))
      modifies `disk, `past, `trouble
      ensures Valid() && old(past).history <= past.history
      ensures r == Ran(true) ==> disk == next && past.history == old(past).history + [Wrote(next, cause)]
      ensures (disk == next && past.seen == Advance(old(past).seen, Wrote(next, cause))) ||
              (disk == old(disk) && past.seen == old(past).seen)
      ensures trouble == old(trouble) + if r == Ran(true) then 0 else 1
    {
      var applied: bool, reported: bool, interrupted: bool := *, *, *;
      if applied {
        Extends(start, past.history, Wrote(next, cause));
        disk := next;
        past := Past(past.history + [Wrote(next, cause)], Advance(past.seen, Wrote(next, cause)));
      }
      r := if interrupted then Crashed else Ran(applied && reported);
      trouble := trouble + if r == Ran(true) then 0 else 1;
    }

    ghost method Happen(e: Effect)
      requires Valid() && !e.Wrote? && Allowed(past.seen, e) && Sound(Advance(past.seen, e))
      modifies `past
      ensures Valid() && past.history == old(past).history + [e] && past.seen == Advance(old(past).seen, e)
    {
      Extends(start, past.history, e);
      past := Past(past.history + [e], Advance(past.seen, e));
    }

    /** Something outside the durable state: it may work, fail, or never return. */
    method Outside() returns (r: Exec<bool>)
      modifies `trouble
      ensures trouble == old(trouble) + if r == Ran(true) then 0 else 1
    {
      var interrupted: bool, ok: bool := *, *;
      r := if interrupted then Crashed else Ran(ok);
      trouble := trouble + if r == Ran(true) then 0 else 1;
    }

    /** Whether a note file is still there. */
    method Look(path: Path) returns (there: bool)
      modifies `notes
      ensures there <==> path in notes
    {
      notes := *;
      there := path in notes;
    }

    /** A queue read of a row that is there; it may fail. */
    method ReadRow() returns (ok: bool)
      modifies `trouble
      ensures trouble == old(trouble) + if ok then 0 else 1
    {
      ok := *;
      trouble := trouble + if ok then 0 else 1;
    }

    /** A load of the checkpoint: even an intact one may fail to load. */
    method LoadCheckpoint() returns (loaded: CheckpointFile)
      requires Valid()
      modifies `past, `trouble
      ensures Valid() && MayLoad(disk.checkpoint, loaded)
      ensures past.seen == old(past).seen.(missed := old(past).seen.missed + if loaded == disk.checkpoint then 0 else 1)
      ensures trouble == old(trouble) + if loaded == disk.checkpoint then 0 else 1
    {
      hide Judge, Lawful;
      loaded := disk.checkpoint;
      var failed: bool := *;
      if failed && disk.checkpoint.Stored? {
        Happen(Misread);
        loaded, trouble := Unreadable, trouble + 1;
      }
    }

    // ---- one file or row at a time ----

    /** `queue.update`: it overwrites whatever status the row has. */
    method UpdateRow(next: Row) returns (r: Exec<bool>)
      requires Valid() && disk.row.Some? && MayBe(disk, past.seen.arm, next.status)
      requires NamesAttempt(disk, past.seen.missed, next)
      requires disk.RowIs(Done) ==> Secured(disk.(row := Some(next))) && KeepsFinal(disk, disk.(row := Some(next)))
      modifies `disk, `past, `trouble
      ensures Valid() && SameVerdict(old(past).seen, past.seen)
      ensures disk == old(disk) || disk == old(disk).(row := Some(next))
      ensures r == Ran(true) ==> disk.row == Some(next)
      ensures trouble == old(trouble) + if r == Ran(true) then 0 else 1
    {
      hide Judge, Lawful;
      r := Commit(disk.(row := Some(next)));
    }

    method StoreCheckpoint(next: Checkpoint) returns (r: Exec<bool>)
      requires Valid() && past.seen.remote <= Owners(disk.(checkpoint := Stored(next))) + past.seen.orphans
      requires Secured(disk) ==> Secured(disk.(checkpoint := Stored(next)))
      requires KeepsFinal(disk, disk.(checkpoint := Stored(next)))
      requires CanonicalNote(next.note) ==> next.note.value.path in past.seen.written
      modifies `disk, `past, `trouble
      ensures Valid() && SameVerdict(old(past).seen, past.seen)
      ensures disk == old(disk) || disk == old(disk).(checkpoint := Stored(next))
      ensures r == Ran(true) ==>
        disk.checkpoint == Stored(next) && past.history == old(past).history + [Wrote(disk, Work)]
      ensures trouble == old(trouble) + if r == Ran(true) then 0 else 1
    {
      hide Judge, Lawful;
      r := Commit(disk.(checkpoint := Stored(next)));
    }

    /** The checkpoint of a new transcript. If there is one already, then it could not be loaded and is lost. */
    method PublishCheckpoint(next: Checkpoint) returns (r: Exec<bool>)
      requires Valid() && disk.row.Some? && LooksUntranscribed(disk, past.seen.missed)
      requires CanonicalNote(next.note) ==> next.note.value.path in past.seen.written
      modifies `disk, `past, `trouble
      ensures Valid() && SameButOrphans(old(past).seen, past.seen)
      ensures disk == old(disk) || disk == old(disk).(checkpoint := Stored(next))
      ensures r == Ran(true) ==> disk.checkpoint == Stored(next)
      ensures past.seen.orphans == old(past).seen.orphans ||
              (old(disk).checkpoint.Stored? &&
               past.seen.orphans == old(past).seen.orphans + (past.seen.remote - Owners(disk)))
      ensures trouble == old(trouble) + if r == Ran(true) then 0 else 1
    {
      hide Judge, Lawful;
      r := Commit(disk.(checkpoint := Stored(next)), if disk.checkpoint.Stored? then Overwriting else Work);
    }

    /** The checkpoint of a completed recording is removed on a best-effort basis. */
    method CleanupCompletedArtifacts() returns (r: Exec<Outcome>)
      requires Valid() && disk.RowIs(Done) && disk.row.value.note.Some? && past.seen.remote <= past.seen.orphans
      modifies `disk, `past, `trouble
      ensures Valid() && SameVerdict(old(past).seen, past.seen)
      ensures disk == old(disk) || disk == old(disk).(checkpoint := Absent)
      ensures r.Ran? ==> r.value == Fine
      ensures OrTrouble(old(trouble), trouble, r == Ran(Fine) && disk.checkpoint.Absent?)
      ensures r.Ran? ==> trouble <= old(trouble) + 1
    {
      hide Judge, Lawful;
      if !disk.checkpoint.Absent? {
        var _ :- Commit(disk.(checkpoint := Absent));
      }
      return Ran(Fine);
    }

    method StoreMarker(next: Option<Staging>) returns (r: Exec<bool>)
      requires Valid() && past.seen.remote <= Owners(disk.(marker := next)) + past.seen.orphans
      modifies `disk, `past, `trouble
      ensures Valid() && SameVerdict(old(past).seen, past.seen)
      ensures disk == old(disk) || disk == old(disk).(marker := next)
      ensures r == Ran(true) ==> disk.marker == next
      ensures trouble == old(trouble) + if r == Ran(true) then 0 else 1
    {
      hide Judge, Lawful;
      r := Commit(disk.(marker := next));
    }

    // ---- cloud staging ----

    /** Asks the cloud to delete one staging; success means that its objects are gone. */
    method DeleteRemote(staging: Staging) returns (r: Exec<bool>)
      requires Valid()
      modifies `past, `trouble
      ensures Valid()
      ensures past.seen == old(past).seen || past.seen == Advance(old(past).seen, Deleted(staging))
      ensures r == Ran(true) ==> staging !in past.seen.remote
      ensures Strict(old(trouble), trouble, r == Ran(true))
    {
      hide Judge, Lawful;
      var done :- Outside();
      if done {
        Happen(Deleted(staging));
      }
      var reported :- Outside();
      return Ran(done && reported);
    }

    method DeleteAll(owners: seq<Staging>) returns (r: Exec<bool>)
      requires Valid()
      modifies `past, `trouble
      ensures Valid()
      ensures past.seen == old(past).seen.(remote := past.seen.remote) && past.seen.remote <= old(past).seen.remote
      ensures r == Ran(true) ==> forall s :: s in owners ==> s !in past.seen.remote
      ensures Strict(old(trouble), trouble, r == Ran(true))
    {
      hide Valid, Allowed;
      for i := 0 to |owners|
        invariant Valid() && trouble == old(trouble)
        invariant past.seen == old(past).seen.(remote := past.seen.remote) && past.seen.remote <= old(past).seen.remote
        invariant forall k :: 0 <= k < i ==> owners[k] !in past.seen.remote
      {
        var ok :- DeleteRemote(owners[i]);
        if !ok {
          return Ran(false);
        }
      }
      return Ran(true);
    }

    method RemoveMarker() returns (r: Exec<bool>)
      requires Valid() && past.seen.remote <= Owners(disk.(marker := None)) + past.seen.orphans
      modifies `disk, `past, `trouble
      ensures Valid() && SameVerdict(old(past).seen, past.seen)
      ensures disk == old(disk) || disk == old(disk).(marker := None)
      ensures r == Ran(true) ==> disk.marker.None?
      ensures Strict(old(trouble), trouble, r == Ran(true))
    {
      if disk.marker.None? {
        return Ran(true);
      }
      r := StoreMarker(None);
    }

    /** The owners named beside the recording: every one of them if it reads the files, and none at all if not. */
    method ReadOwners() returns (owners: Option<seq<Staging>>)
      requires Valid()
      modifies `past, `trouble
      ensures Valid() && SameButMissed(old(past).seen, past.seen)
      ensures owners.Some? ==> past.seen == old(past).seen && !disk.checkpoint.Unreadable?
      ensures owners.Some? ==> forall s :: s in Owners(disk) ==> s in owners.value
      ensures OrTrouble(old(trouble), trouble, owners.Some? || disk.checkpoint.Unreadable?)
      ensures owners.Some? ==> trouble <= old(trouble)
    {
      var loaded := LoadCheckpoint();
      if loaded.Unreadable? {
        return None;
      }
      var found: seq<Staging> := [];
      if loaded.Stored? && loaded.value.staging.Some? {
        found := found + [loaded.value.staging.value];
      }
      if disk.marker.Some? {
        var readable := ReadRow();
        if !readable {
          return None;
        }
        if disk.marker.value !in found {
          found := found + [disk.marker.value];
        }
      }
      return Some(found);
    }

    /** Every owner named beside the recording is cleaned, and only then forgotten. */
    method CleanupAwsStaging() returns (r: Exec<Outcome>)
      requires Valid()
      modifies `disk, `past, `trouble
      ensures Valid() && SameButRemote(old(past).seen, past.seen) && SameButStaging(old(disk), disk)
      ensures r == Ran(Fine) ==>
        Owners(disk) == {} && past.seen.remote <= past.seen.orphans && !disk.checkpoint.Unreadable?
      ensures r == Ran(Fine) ==> past.seen.missed == old(past).seen.missed
      ensures r.Ran? && r.value.Fails? ==> r.value == BROKEN
      ensures OrTrouble(old(trouble), trouble, r == Ran(Fine) || (r.Ran? && old(disk).checkpoint.Unreadable?))
      ensures r == Ran(Fine) ==> trouble <= old(trouble)
    {
      hide Valid, Allowed, Transcribed, Secured;
      Facts();
      var owners := ReadOwners();
      if owners.None? {
        return Ran(BROKEN);
      }
      Facts();
      var deleted :- DeleteAll(owners.value);
      if !deleted {
        return Ran(BROKEN);
      }
      r := ForgetOwners();
    }

    /** What names remote objects that are gone by now is cleared: the checkpoint first, the marker second. */
    method ForgetOwners() returns (r: Exec<Outcome>)
      requires Valid() && past.seen.remote <= past.seen.orphans && !disk.checkpoint.Unreadable?
      modifies `disk, `past, `trouble
      ensures Valid() && SameVerdict(old(past).seen, past.seen) && SameButStaging(old(disk), disk)
      ensures r == Ran(Fine) ==> Owners(disk) == {} && !disk.checkpoint.Unreadable?
      ensures r.Ran? && r.value.Fails? ==> r.value == BROKEN
      ensures Strict(old(trouble), trouble, r == Ran(Fine))
    {
      hide Valid, Allowed, Transcribed, Secured;
      if disk.checkpoint.Stored? && disk.checkpoint.value.staging.Some? {
        Facts();
        SecuredIgnoresStaging(disk);
        var ok :- StoreCheckpoint(disk.checkpoint.value.(staging := None));
        if !ok {
          return Ran(BROKEN);
        }
      }
      var ok :- RemoveMarker();
      return Ran(if ok then Fine else BROKEN);
    }

    /** The owner of this attempt is on record before anything can be uploaded; another owner is cleaned first. */
    method PrepareAwsStaging(desired: Option<Staging>) returns (r: Exec<Outcome>)
      requires Valid()
      modifies `disk, `past, `trouble
      ensures Valid() && SameButRemote(old(past).seen, past.seen) && past.seen.missed == old(past).seen.missed
      ensures disk == old(disk).(marker := disk.marker)
      ensures r == Ran(Fine) ==> disk.marker == desired
      ensures r.Ran? && r.value.Fails? ==> r.value == BROKEN
      ensures Strict(old(trouble), trouble, r == Ran(Fine))
    {
      hide Valid, Allowed;
      var existing := disk.marker;
      if existing.Some? {
        var readable := ReadRow();
        if !readable {
          return Ran(BROKEN);
        }
        if existing != desired {
          var ok :- DropOwner(existing.value);
          if !ok {
            return Ran(BROKEN);
          }
        }
      }
      if desired.Some? && existing != desired {
        Facts();
        var ok :- StoreMarker(desired);
        if !ok {
          return Ran(BROKEN);
        }
      }
      return Ran(Fine);
    }

    /** The objects that the marker names are deleted, and only then is it removed. */
    method DropOwner(owner: Staging) returns (r: Exec<bool>)
      requires Valid() && disk.marker == Some(owner)
      modifies `disk, `past, `trouble
      ensures Valid() && SameButRemote(old(past).seen, past.seen) && past.seen.missed == old(past).seen.missed
      ensures disk == old(disk) || disk == old(disk).(marker := None)
      ensures r == Ran(true) ==> disk.marker.None?
      ensures Strict(old(trouble), trouble, r == Ran(true))
    {
      hide Valid, Allowed;
      Facts();
      var deleted :- DeleteRemote(owner);
      if !deleted {
        return Ran(false);
      }
      r := RemoveMarker();
    }

    // ---- terminal failure ----

    /** The checkpoint's note, as far as it loads, goes before the preferred one, and that before the row's. */
    method FailWithNote(preferred: Option<OwnedNote>) returns (r: Exec<Outcome>)
      requires Valid()
      modifies `disk, `past, `trouble
      ensures Valid() && SameButMissed(old(past).seen, past.seen)
      ensures disk == old(disk) || FailedAs(old(disk), preferred, disk)
      ensures r == Ran(Fine) ==> disk.RowIs(Failed)
      ensures r.Ran? && r.value.Fails? ==> r.value == BROKEN
      ensures OrTrouble(old(trouble), trouble,
                        (Well(r, old(past).seen, past.seen) && FailedShowing(old(disk), preferred, disk)) ||
                        (r.Ran? && old(disk).row.None?))
      ensures r == Ran(Fine) ==> trouble <= old(trouble) + 1
    {
      hide Valid, Allowed;
      var loaded := LoadCheckpoint();
      if disk.row.None? {
        return Ran(BROKEN);
      }
      var ok :- FailRow(CheckpointNote(loaded), preferred);
      return Ran(if ok then Fine else BROKEN);
    }

    method FailRow(known: Option<OwnedNote>, preferred: Option<OwnedNote>) returns (r: Exec<bool>)
      requires Valid() && disk.row.Some?
      modifies `disk, `past, `trouble
      ensures Valid() && SameVerdict(old(past).seen, past.seen)
      ensures disk == old(disk) || disk == AfterFailure(old(disk), known, preferred)
      ensures r == Ran(true) ==> disk == AfterFailure(old(disk), known, preferred)
      ensures trouble == old(trouble) + if r == Ran(true) then 0 else 1
    {
      hide Judge, Lawful;
      r := Commit(AfterFailure(disk, known, preferred), if disk.RowIs(Done) then Reopening else Work);
    }

    // ---- filing ----

    /** `complete_with_retained_quality`: the path and Done in one write. */
    method CompleteWithNote(path: Path) returns (r: Exec<bool>)
      requires Valid() && path in past.seen.written && Owners(disk) == {}
      requires Coherent(disk) ==> Free(disk, path)
      modifies `disk, `past, `trouble
      ensures Valid() && SameVerdict(old(past).seen, past.seen)
      ensures disk == old(disk) ||
              (old(disk).row.Some? &&
               disk == old(disk).(row := Some(old(disk).row.value.(status := Done, note := Some(path)))))
      ensures r == Ran(true) ==>
        && disk.RowIs(Done) && disk.row.value.note == Some(path)
        && past.history == old(past).history + [Wrote(disk, Work)]
      ensures Coherent(disk) ==> Free(disk, path)
      ensures OrTrouble(old(trouble), trouble, r == Ran(true) || (r.Ran? && old(disk).row.None?))
      ensures r == Ran(true) ==> trouble <= old(trouble)
    {
      hide Judge, Lawful, Coherent, Free, KeepsFinal;
      var retained :- Outside();
      if !retained || disk.row.None? {
        return Ran(false);
      }
      CompletedStaysFree(disk, path);
      r := Commit(disk.(row := Some(disk.row.value.(status := Done, note := Some(path)))));
    }

    /** `rewrite_checkpoint_note`: the note that the checkpoint owns, its body now final; a partial one is used
        exactly if its file still exists, and a canonical one in any case. */
    method RewriteCheckpointNote(checkpoint: Checkpoint, queued: Option<Path>)
      returns (r: Exec<Option<Option<Path>>>)
      requires Valid() && disk.row.Some? && disk.checkpoint == Stored(checkpoint)
      modifies `past, `trouble, `notes
      ensures Valid()
      ensures past.seen == old(past).seen.(written := past.seen.written) && old(past).seen.written <= past.seen.written
      ensures r.Ran? && r.value.Some? && r.value.value.Some? ==>
        r.value.value == Candidate(checkpoint, queued) && r.value.value.value in past.seen.written
      ensures r.Ran? && r.value.Some? ==>
        (r.value.value.Some? <==>
           CanonicalNote(checkpoint.note) ||
           (Candidate(checkpoint, queued).Some? && Candidate(checkpoint, queued).value in notes))
      ensures CanonicalNote(checkpoint.note) ==> notes == old(notes)
      ensures Strict(old(trouble), trouble, r.Ran? && r.value.Some?)
    {
      hide Judge, Lawful;
      if CanonicalNote(checkpoint.note) {
        return Ran(Some(Some(checkpoint.note.value.path)));
      }
      var candidate := Candidate(checkpoint, queued);
      if candidate.None? {
        return Ran(Some(None));
      }
      var there := Look(candidate.value);
      if !there {
        return Ran(Some(None));
      }
      var rewritten :- Outside();
      if !rewritten {
        return Ran(None);
      }
      Happen(NoteWritten(candidate.value));
      return Ran(Some(candidate));
    }

    /** `vagus add-note`: the call may create the note and still fail to answer. */
    method AddNote() returns (r: Exec<Option<Path>>)
      requires Valid() && disk.row.Some? && disk.checkpoint.Stored? && !Secured(disk) && Owners(disk) == {}
      requires past.seen.answer.None?
      modifies `past, `trouble
      ensures Valid()
      ensures past.seen == old(past).seen.(written := past.seen.written, answer := past.seen.answer)
      ensures old(past).seen.written <= past.seen.written
      ensures r.Ran? ==> r.value == past.seen.answer
      ensures past.history in {old(past).history, old(past).history + [NoteRequested]} || past.seen.answer.Some?
      ensures past.seen.answer.Some? ==>
        past.history == old(past).history + [NoteRequested, NoteAnswered(past.seen.answer.value)]
      ensures r.Ran? && r.value.Some? ==> r.value.value in past.seen.written
      ensures Strict(old(trouble), trouble, r.Ran? && r.value.Some?)
    {
      hide Judge, Lawful;
      var available :- Outside();
      if !available {
        return Ran(None);
      }
      Happen(NoteRequested);
      var answered :- Outside();
      if !answered {
        return Ran(None);
      }
      var path: Path := *;
      Happen(NoteAnswered(path));
      return Ran(Some(path));
    }

    /** Files the checkpointed transcript. A note that was just returned is kept by the checkpoint, by the Done
        row, or by the error. */
    method FileAndDone() returns (r: Exec<Outcome>)
      requires Valid() && disk.row.Some? && disk.checkpoint.Stored? && Owners(disk) == {} && past.seen.answer.None?
      requires Secured(disk) ==> CanonicalNote(disk.checkpoint.value.note)
      modifies `disk, `past, `trouble, `notes
      ensures Valid() && Filing(old(past).seen, past.seen) && past.seen.missed == old(past).seen.missed
      ensures SameButFiling(old(disk), disk) && disk.checkpoint.Stored? && KeepsOrigin(old(disk), disk)
      ensures r == Ran(Fine) ==> disk.RowIs(Done) && Owners(disk) == {} && past.seen.remote <= past.seen.orphans
      ensures r == Ran(Fine) ==> NoteUsed(FiledNote(old(disk)), past.seen.answer, notes, disk)
      ensures CanonicalNote(FiledNote(old(disk))) ==> notes == old(notes)
      ensures Kept(past.seen.answer, r, disk) && Reports(r, past.seen.written, disk)
      ensures OrTrouble(old(trouble), trouble, r == Ran(Fine)) && (r == Ran(Fine) ==> trouble <= old(trouble) + 1)
    {
      hide Valid, Allowed, Transcribed, Coherent, Free;
      Facts();
      var checkpoint := disk.checkpoint.value;
      var found := ReadRow();
      if !found {
        return Ran(BROKEN);
      }
      var existing :- RewriteCheckpointNote(checkpoint, disk.row.value.note);
      if existing.None? {
        return Ran(BROKEN);
      }
      var note := existing.value;
      if note.None? {
        note :- AddNote();
        if note.None? {
          return Ran(BROKEN);
        }
      }
      Facts();
      FiledIsFree(disk, note.value);
      r := OwnAndComplete(checkpoint, note.value);
    }

    /** The path is owned by the checkpoint, by the Done row, or by the error that is returned. */
    method OwnAndComplete(checkpoint: Checkpoint, path: Path) returns (r: Exec<Outcome>)
      requires Valid() && path in past.seen.written && Owners(disk) == {} && checkpoint.staging.None?
      requires Coherent(disk) ==> Free(disk, path)
      modifies `disk, `past, `trouble
      ensures Coherent(disk) ==> Free(disk, path)
      ensures Valid() && SameVerdict(old(past).seen, past.seen)
      ensures SameButFiling(old(disk), disk) && Owners(disk) == {}
      ensures disk.checkpoint == old(disk).checkpoint ||
              disk.checkpoint == Stored(checkpoint.(note := Some(OwnedNote(path, true))))
      ensures r == Ran(Fine) ==> disk.RowIs(Done) && disk.row.value.note == Some(path)
      ensures r.Ran? && r.value.Fails? ==> r.value.note in {None, Some(OwnedNote(path, true))}
      ensures r.Ran? && r.value.Fails? ==>
        r.value.note == Some(OwnedNote(path, true)) || CheckpointNote(disk.checkpoint) == Some(OwnedNote(path, true))
      ensures r.Ran? && r.value.Fails? && r.value.note.Some? && old(disk).row.Some? ==> old(trouble) + 2 <= trouble
      ensures OrTrouble(old(trouble), trouble,
                        (r == Ran(Fine) &&
                         OwnedThenDone(old(disk), checkpoint.(note := Some(OwnedNote(path, true))), disk,
                                       old(past).history, past.history)) ||
                        (r.Ran? && r.value.Fails? && old(disk).row.None?))
      ensures r == Ran(Fine) ==> trouble <= old(trouble) + 1
    {
      hide Valid, Allowed, Transcribed, Coherent, Free, KeepsFinal, Secured;
      var owned := OwnedNote(path, true);
      var stored :- StoreOwned(checkpoint, path);
      var completed :- CompleteWithNote(path);
      if completed {
        return Ran(Fine);
      }
      return Ran(if stored then BROKEN else Fails(Some(owned)));
    }

    /** The checkpoint names the path as that of the final note. */
    method StoreOwned(checkpoint: Checkpoint, path: Path) returns (r: Exec<bool>)
      requires Valid() && path in past.seen.written && Owners(disk) == {} && checkpoint.staging.None?
      requires Coherent(disk) ==> Free(disk, path)
      modifies `disk, `past, `trouble
      ensures Valid() && SameVerdict(old(past).seen, past.seen)
      ensures disk == old(disk) ||
              disk == old(disk).(checkpoint := Stored(checkpoint.(note := Some(OwnedNote(path, true)))))
      ensures r == Ran(true) ==>
        && disk.checkpoint == Stored(checkpoint.(note := Some(OwnedNote(path, true))))
        && past.history == old(past).history + [Wrote(disk, Work)]
      ensures Owners(disk) == {} && (Coherent(disk) ==> Free(disk, path))
      ensures trouble == old(trouble) + if r == Ran(true) then 0 else 1
    {
      hide Valid, Allowed, Transcribed, Coherent, Free, KeepsFinal;
      Facts();
      var owned := checkpoint.(note := Some(OwnedNote(path, true)));
      StoredStaysFree(disk, owned, path);
      r := StoreCheckpoint(owned);
    }

    /** Files the stored checkpoint: first the cloud is cleaned, then the note is filed or completed. */
    method FileCheckpoint() returns (r: Exec<Outcome>)
      requires Valid() && disk.row.Some? && past.seen.answer.None?
      requires disk.checkpoint.Stored? && Secured(disk) ==> CanonicalNote(disk.checkpoint.value.note)
      modifies `disk, `past, `trouble, `notes
      ensures Valid() && Filing(old(past).seen, past.seen)
      ensures SameButFiling(old(disk), disk)
      ensures r == Ran(Fine) ==> disk.RowIs(Done) && disk.marker.None? && past.seen.remote <= past.seen.orphans
      ensures r == Ran(Fine) ==> NoteUsed(FiledNote(old(disk)), past.seen.answer, notes, disk)
      ensures CanonicalNote(FiledNote(old(disk))) ==> notes == old(notes)
      ensures r == Ran(Fine) ==> past.seen.missed == old(past).seen.missed
      ensures KeepsOrigin(old(disk), disk)
      ensures Kept(past.seen.answer, r, disk) && Reports(r, past.seen.written, disk)
      ensures OrTrouble(old(trouble), trouble,
                        (r == Ran(Fine) && disk.checkpoint.Absent?) || (r.Ran? && !old(disk).checkpoint.Stored?))
      ensures r == Ran(Fine) ==> trouble <= old(trouble) + 2
    {
      hide Valid, Allowed, Transcribed, Secured;
      var loaded := LoadCheckpoint();
      if !loaded.Stored? {
        return Ran(BROKEN);
      }
      ghost var before := disk;
      var cleaned :- CleanupAwsStaging();
      if cleaned.Fails? {
        return Ran(cleaned);
      }
      SecuredAfterCleanup(before, disk);
      loaded := LoadCheckpoint();
      if !loaded.Stored? {
        return Ran(BROKEN);
      }
      var filed :- FileAndDone();
      if filed.Fails? {
        return Ran(filed);
      }
      var swept :- CleanupCompletedArtifacts();
      return Ran(filed);
    }

    /** Completes a note whose canonical body exists; its path is trusted even when the file was moved. */
    method CompleteCanonicalNote(path: Path) returns (r: Exec<Outcome>)
      requires Valid() && path in past.seen.written && (Coherent(disk) ==> Free(disk, path))
      modifies `disk, `past, `trouble
      ensures Valid() && SameButRemote(old(past).seen, past.seen)
      ensures r.Ran? && r.value.Fails? && Coherent(disk) ==> Free(disk, path)
      ensures SameButFiling(old(disk), disk)
      ensures r == Ran(Fine) ==>
        disk.RowIs(Done) && disk.row.value.note == Some(path) && disk.marker.None? &&
        past.seen.remote <= past.seen.orphans
      ensures r.Ran? && r.value.Fails? && disk.row != old(disk).row ==>
        CanonicalNote(r.value.note) || CanonicalNote(CheckpointNote(disk.checkpoint))
      ensures r.Ran? && r.value.Fails? ==> r.value.note in {None, Some(OwnedNote(path, true))}
      ensures r.Ran? && r.value.Fails? ==>
        PathOf(CheckpointNote(disk.checkpoint)) in {PathOf(CheckpointNote(old(disk).checkpoint)), Some(path)} &&
        (CheckpointNote(old(disk).checkpoint).None? ==>
           CheckpointNote(disk.checkpoint) in {None, Some(OwnedNote(path, true))})
      ensures disk.checkpoint.Stored? && old(disk).checkpoint.Stored? && past.seen.missed == old(past).seen.missed ==>
        disk.checkpoint.value.origin == old(disk).checkpoint.value.origin
      ensures Reports(r, past.seen.written, disk)
      ensures OrTrouble(old(trouble), trouble,
                        (Well(r, old(past).seen, past.seen) && disk.checkpoint.Absent?) ||
                        (r.Ran? && r.value.Fails? && (old(disk).row.None? || old(disk).checkpoint.Unreadable?)))
      ensures r == Ran(Fine) ==> trouble <= old(trouble) + 2 + (past.seen.missed - old(past).seen.missed)
    {
      hide Valid, Lawful, Allowed, Transcribed, Coherent, Free, KeepsFinal;
      ghost var before := disk;
      var cleaned :- CleanupAwsStaging();
      CleanupKeepsFree(before, disk, path);
      if cleaned.Fails? {
        return Ran(cleaned);
      }
      var loaded := LoadCheckpoint();
      var checkpoint := if loaded.Stored? then loaded.value else Checkpoint(None, None, None);
      var merged :- Outside();
      if !merged {
        return Ran(BROKEN);
      }
      NoStagingLeft(disk, loaded);
      var completed :- OwnAndComplete(checkpoint, path);
      if completed.Fails? {
        return Ran(completed);
      }
      Facts();
      var swept :- CleanupCompletedArtifacts();
      return Ran(Fine);
    }

    // ---- transcription ----

    /** Keeps a partial transcript when the original backend may not be used. The partial note, if there is one and
        nothing newer came of filing, is the note of the Done row. */
    method FileRefusedRecovery(preferred: Option<OwnedNote>, original: Option<Backend>) returns (r: Exec<Outcome>)
      requires Valid() && ReadyToTranscribe(disk, past.seen.missed) && past.seen.answer.None?
      requires OwnsWritten(preferred, past.seen.written)
      modifies `disk, `past, `trouble, `notes
      ensures Valid() && Publishing(old(past).seen, past.seen)
      ensures WorkedOn(old(disk), disk) && KeepsNote(old(disk), disk) && KeepsName(old(disk), disk)
      ensures r == Ran(Fine) ==> disk.RowIs(Done) && disk.marker.None?
      ensures var owned := PathOf(OrElse(preferred, Partial(old(disk).row.value.note)));
        r == Ran(Fine) ==>
          && disk.row.value.note.Some? && disk.row.value.note == OrElse(past.seen.answer, owned)
          && (past.seen.answer.None? <==> owned.Some? && owned.value in notes)
      ensures disk.row != old(disk).row ==>
        disk.RowIs(Done) || (disk.checkpoint.Stored? && disk.checkpoint.value.origin == original)
      ensures Kept(past.seen.answer, r, disk) && Reports(r, past.seen.written, disk)
      ensures OrTrouble(old(trouble), trouble, Well(r, old(past).seen, past.seen) && disk.checkpoint.Absent?)
      ensures r == Ran(Fine) ==> trouble <= old(trouble) + 2
    {
      hide Valid, Allowed, Transcribed;
      var owned := OrElse(preferred, Partial(disk.row.value.note));
      var prepared :- Outside();
      if !prepared {
        return Ran(BROKEN);
      }
      var note :- CloseOutPartial(PathOf(owned));
      if note.None? {
        return Ran(BROKEN);
      }
      hide LooksUntranscribed, ReadyToTranscribe, OwnsWritten, Reports;
      r := PublishAndFile(Checkpoint(note.value, None, original));
    }

    method PublishAndFile(checkpoint: Checkpoint) returns (r: Exec<Outcome>)
      requires Valid() && ReadyToTranscribe(disk, past.seen.missed) && past.seen.answer.None?
      requires OwnsWritten(checkpoint.note, past.seen.written)
      modifies `disk, `past, `trouble, `notes
      ensures Valid() && Publishing(old(past).seen, past.seen)
      ensures WorkedOn(old(disk), disk) && KeepsNote(old(disk), disk) && KeepsName(old(disk), disk)
      ensures disk.row != old(disk).row ==>
        disk.RowIs(Done) || (disk.checkpoint.Stored? && disk.checkpoint.value.origin == checkpoint.origin)
      ensures var owned := OrElse(checkpoint.note, Partial(old(disk).row.value.note));
        && (r == Ran(Fine) ==>
              disk.RowIs(Done) && disk.marker.None? && NoteUsed(owned, past.seen.answer, notes, disk))
        && (CanonicalNote(owned) ==> notes == old(notes))
      ensures Kept(past.seen.answer, r, disk) && Reports(r, past.seen.written, disk)
      ensures OrTrouble(old(trouble), trouble, Well(r, old(past).seen, past.seen) && disk.checkpoint.Absent?)
      ensures r == Ran(Fine) ==> trouble <= old(trouble) + 2
    {
      hide Valid, Allowed, Transcribed;
      var stored :- PublishCheckpoint(checkpoint);
      if !stored {
        return Ran(BROKEN);
      }
      r := PromoteAndFile();
    }

    /** A partial note whose file still exists is closed out, and final from then on. */
    method CloseOutPartial(path: Option<Path>) returns (r: Exec<Option<Option<OwnedNote>>>)
      requires Valid() && disk.row.Some?
      modifies `past, `trouble, `notes
      ensures Valid()
      ensures past.seen == old(past).seen.(written := past.seen.written) && old(past).seen.written <= past.seen.written
      ensures r.Ran? && r.value.Some? ==> PathOf(r.value.value) == path && OwnsWritten(r.value.value, past.seen.written)
      ensures r.Ran? && r.value.Some? && path.Some? ==> (CanonicalNote(r.value.value) <==> path.value in notes)
      ensures Strict(old(trouble), trouble, r.Ran? && r.value.Some?)
    {
      if path.None? {
        return Ran(Some(None));
      }
      var present := Look(path.value);
      if !present {
        return Ran(Some(Some(OwnedNote(path.value, false))));
      }
      var flipped :- Outside();
      if !flipped {
        return Ran(None);
      }
      HappenWritten(path.value);
      return Ran(Some(Some(OwnedNote(path.value, true))));
    }

    /** The row is promoted and the stored checkpoint is filed. */
    method PromoteAndFile() returns (r: Exec<Outcome>)
      requires Valid() && disk.row.Some? && !disk.RowTerminal() && disk.JobActive() && past.seen.answer.None?
      requires disk.checkpoint.Stored? && Secured(disk) ==> CanonicalNote(disk.checkpoint.value.note)
      modifies `disk, `past, `trouble, `notes
      ensures Valid() && Filing(old(past).seen, past.seen)
      ensures WorkedOn(old(disk), disk) && KeepsNote(old(disk), disk) && KeepsName(old(disk), disk)
      ensures KeepsOrigin(old(disk), disk)
      ensures disk == old(disk) || disk.RowIs(PendingNote) || disk.RowIs(Done)
      ensures r == Ran(Fine) ==> disk.RowIs(Done) && disk.marker.None? && past.seen.missed == old(past).seen.missed
      ensures r == Ran(Fine) ==> NoteUsed(FiledNote(old(disk)), past.seen.answer, notes, disk)
      ensures CanonicalNote(FiledNote(old(disk))) ==> notes == old(notes)
      ensures Kept(past.seen.answer, r, disk) && Reports(r, past.seen.written, disk)
      ensures OrTrouble(old(trouble), trouble,
                        (r == Ran(Fine) && disk.checkpoint.Absent?) || (r.Ran? && !old(disk).checkpoint.Stored?))
      ensures r == Ran(Fine) ==> trouble <= old(trouble) + 2
    {
      hide Valid, Allowed, Transcribed;
      var promoted :- UpdateRow(disk.row.value.(status := PendingNote));
      if !promoted {
        return Ran(BROKEN);
      }
      r := FileCheckpoint();
    }

    ghost method HappenWritten(path: Path)
      requires Valid() && disk.row.Some?
      modifies `past
      ensures Valid()
      ensures past.seen == old(past).seen.(written := old(past).seen.written + {path})
    {
      hide Judge, Lawful;
      Happen(NoteWritten(path));
    }

    /** The backend call of an attempt: the owner of whatever it may upload is on record. */
    method AskBackend(origin: RetryOrigin) returns (r: Exec<bool>)
      requires Valid() && ReadyToTranscribe(disk, past.seen.missed) && disk.row.value.attempt.Some?
      requires MayDecode(past.seen.arm, origin) && SelectedBackend(origin, config.backend).Ok?
      requires disk.marker == AttemptOwner(disk.row.value.attempt.value, config.backend, config.place)
      modifies `past, `trouble
      ensures Valid()
      ensures past.history == old(past).history + [Decoded(config.backend, config.place, origin.RecordedFirst?)]
      ensures past.seen == old(past).seen.(arm := OneMoreDecode(old(past).seen.arm), remote := past.seen.remote)
      ensures Strict(old(trouble), trouble, r == Ran(true))
    {
      hide Judge, Lawful;
      SelectedIsRecorded(origin, config.backend);
      Happen(Decoded(config.backend, config.place, origin.RecordedFirst?));
      r := Outside();
    }

    /** At most one backend call, and none if the backend on record may not be used. */
    method TranscribeWithoutCheckpoint(preferred: Option<OwnedNote>, origin: RetryOrigin) returns (r: Exec<Outcome>)
      requires Valid() && ReadyToTranscribe(disk, past.seen.missed) && past.seen.answer.None?
      requires OwnsWritten(preferred, past.seen.written) && MayDecode(past.seen.arm, origin)
      modifies `disk, `past, `trouble, `notes
      ensures Valid() && Working(old(past).seen, past.seen)
      ensures past.seen.arm == old(past).seen.arm ||
              (past.seen.arm == OneMoreDecode(old(past).seen.arm) && SelectedBackend(origin, config.backend).Ok?)
      ensures r == Ran(Fine) && SelectedBackend(origin, config.backend).Ok? ==>
        past.seen.arm == OneMoreDecode(old(past).seen.arm)
      ensures WorkedOn(old(disk), disk) && KeepsNote(old(disk), disk)
      ensures Renamed(old(disk), disk, NameFor(old(disk)), past.seen.arm != old(past).seen.arm)
      ensures r == Ran(Fine) ==> disk.RowIs(Done) && disk.marker.None?
      ensures r == Ran(Fine) && !CanonicalNote(preferred) ==>
        NoteUsed(OrElse(preferred, Partial(old(disk).row.value.note)), past.seen.answer, notes, disk)
      ensures Kept(past.seen.answer, r, disk) && Reports(r, past.seen.written, disk)
      ensures OrTrouble(old(trouble), trouble, Well(r, old(past).seen, past.seen) && disk.checkpoint.Absent?)
      ensures r == Ran(Fine) ==> trouble <= old(trouble) + 2
    {
      hide Valid, Allowed, Transcribed;
      var read :- Outside();
      if !read {
        return Ran(BROKEN);
      }
      var original := FirstBackend(origin, config.backend);
      if SelectedBackend(origin, config.backend).Err? {
        r := FileRefusedRecovery(preferred, original);
        return;
      }
      r := TranscribeWithSelected(preferred, origin, original);
    }

    /** The backend call of this claim, with everything that has to be on record before it. */
    method TranscribeWithSelected(preferred: Option<OwnedNote>, origin: RetryOrigin, original: Option<Backend>)
      returns (r: Exec<Outcome>)
      requires Valid() && ReadyToTranscribe(disk, past.seen.missed) && past.seen.answer.None?
      requires OwnsWritten(preferred, past.seen.written) && MayDecode(past.seen.arm, origin)
      requires SelectedBackend(origin, config.backend).Ok?
      modifies `disk, `past, `trouble, `notes
      ensures Valid() && Working(old(past).seen, past.seen)
      ensures past.seen.arm == old(past).seen.arm || past.seen.arm == OneMoreDecode(old(past).seen.arm)
      ensures WorkedOn(old(disk), disk) && KeepsNote(old(disk), disk)
      ensures Renamed(old(disk), disk, NameFor(old(disk)), past.seen.arm != old(past).seen.arm)
      ensures r == Ran(Fine) ==>
        disk.RowIs(Done) && disk.marker.None? && past.seen.arm == OneMoreDecode(old(past).seen.arm)
      ensures r == Ran(Fine) ==>
        NoteUsed(OrElse(preferred, Partial(old(disk).row.value.note)), past.seen.answer, notes, disk)
      ensures Kept(past.seen.answer, r, disk) && Reports(r, past.seen.written, disk)
      ensures OrTrouble(old(trouble), trouble, Well(r, old(past).seen, past.seen) && disk.checkpoint.Absent?)
      ensures r == Ran(Fine) ==> trouble <= old(trouble) + 2
    {
      hide Valid, Allowed, Transcribed;
      var prepared, staging :- PrepareAttempt();
      if prepared.Fails? {
        return Ran(prepared);
      }
      var decoded :- AskBackend(origin);
      if !decoded {
        return Ran(BROKEN);
      }
      r := CheckpointAndFile(preferred, staging, original);
    }

    /** The name of the attempt goes on the row, and the owner of what it may upload into the marker. */
    method PrepareAttempt() returns (r: Exec<Outcome>, staging: Option<Staging>)
      requires Valid() && ReadyToTranscribe(disk, past.seen.missed)
      modifies `disk, `past, `trouble
      ensures Valid() && SameButRemote(old(past).seen, past.seen) && past.seen.missed == old(past).seen.missed
      ensures disk == old(disk).(row := disk.row, marker := disk.marker)
      ensures disk.row == old(disk).row || disk.row == Some(Named(old(disk).row.value).(status := Transcribing))
      ensures r == Ran(Fine) ==>
        && disk.row == Some(Named(old(disk).row.value).(status := Transcribing))
        && disk.marker == staging == AttemptOwner(disk.row.value.attempt.value, config.backend, config.place)
      ensures r.Ran? && r.value.Fails? ==> r.value == BROKEN
      ensures Strict(old(trouble), trouble, r == Ran(Fine))
    {
      hide Valid, Allowed, Transcribed;
      staging := None;
      var name := if disk.row.value.attempt.Some? then disk.row.value.attempt.value else Ordinary;
      var marked :- UpdateRow(disk.row.value.(status := Transcribing, attempt := Some(name)));
      if !marked {
        return Ran(BROKEN), staging;
      }
      var described :- Outside();
      if !described {
        return Ran(BROKEN), staging;
      }
      staging := if config.backend.Aws? then Some(Staging(name, config.place)) else None;
      r := PrepareAwsStaging(staging);
    }

    /** The checkpoint of the new transcript: the owned note, the owner of the cloud objects and the origin. */
    method PublishTranscript(preferred: Option<OwnedNote>, staging: Option<Staging>, original: Option<Backend>)
      returns (r: Exec<Outcome>)
      requires Valid() && ReadyToTranscribe(disk, past.seen.missed) && OwnsWritten(preferred, past.seen.written)
      modifies `disk, `past, `trouble
      ensures Valid() && SameButOrphans(old(past).seen, past.seen)
      ensures var transcript := Checkpoint(OrElse(preferred, Partial(old(disk).row.value.note)), staging, original);
        && (disk == old(disk) || disk == old(disk).(checkpoint := Stored(transcript)))
        && (r == Ran(Fine) ==> disk.checkpoint == Stored(transcript))
      ensures r.Ran? && r.value.Fails? ==> r.value == BROKEN
      ensures Strict(old(trouble), trouble, r == Ran(Fine))
    {
      hide Valid, Allowed, Transcribed;
      var settled :- Outside();
      if !settled {
        return Ran(BROKEN);
      }
      var owned := OrElse(preferred, Partial(disk.row.value.note));
      var stored :- PublishCheckpoint(Checkpoint(owned, staging, original));
      if !stored {
        return Ran(BROKEN);
      }
      var acknowledged :- Outside();
      return Ran(if acknowledged then Fine else BROKEN);
    }

    /** The durable boundary: the row moves on only when the checkpoint of this attempt is stored. */
    method CheckpointAndFile(preferred: Option<OwnedNote>, staging: Option<Staging>, original: Option<Backend>)
      returns (r: Exec<Outcome>)
      requires Valid() && ReadyToTranscribe(disk, past.seen.missed) && past.seen.answer.None?
      requires OwnsWritten(preferred, past.seen.written)
      modifies `disk, `past, `trouble, `notes
      ensures Valid() && Publishing(old(past).seen, past.seen)
      ensures WorkedOn(old(disk), disk) && KeepsNote(old(disk), disk) && KeepsName(old(disk), disk)
      ensures disk.row != old(disk).row ==>
        disk.RowIs(Done) || (disk.checkpoint.Stored? && disk.checkpoint.value.origin == original)
      ensures r == Ran(Fine) ==> disk.RowIs(Done) && disk.marker.None?
      ensures r == Ran(Fine) ==>
        NoteUsed(OrElse(preferred, Partial(old(disk).row.value.note)), past.seen.answer, notes, disk)
      ensures Kept(past.seen.answer, r, disk) && Reports(r, past.seen.written, disk)
      ensures OrTrouble(old(trouble), trouble, Well(r, old(past).seen, past.seen) && disk.checkpoint.Absent?)
      ensures r == Ran(Fine) ==> trouble <= old(trouble) + 2
    {
      hide Valid, Allowed, Transcribed;
      var published :- PublishTranscript(preferred, staging, original);
      if published.Fails? {
        return Ran(published);
      }
      r := PromoteAndFile();
    }

    /** A checkpoint that loads bypasses the backend altogether. */
    method TranscribeAndFile(preferred: Option<OwnedNote>, origin: RetryOrigin) returns (r: Exec<Outcome>)
      requires Valid() && disk.row.Some? && !disk.RowTerminal() && disk.JobActive() && past.seen.answer.None?
      requires !CanonicalNote(PayloadNote(disk.job)) && (disk.checkpoint.Stored? ==> past.seen.missed >= 1)
      requires OwnsWritten(preferred, past.seen.written) && MayDecode(past.seen.arm, origin)
      modifies `disk, `past, `trouble, `notes
      ensures Valid() && Working(old(past).seen, past.seen)
      ensures past.seen.arm == old(past).seen.arm ||
              (past.seen.arm == OneMoreDecode(old(past).seen.arm) && SelectedBackend(origin, config.backend).Ok?)
      ensures past.seen.arm != old(past).seen.arm && old(disk).checkpoint.Stored? ==>
        past.seen.missed > old(past).seen.missed
      ensures r == Ran(Fine) && !old(disk).checkpoint.Stored? && SelectedBackend(origin, config.backend).Ok? ==>
        past.seen.arm == OneMoreDecode(old(past).seen.arm)
      ensures WorkedOn(old(disk), disk) && KeepsNote(old(disk), disk)
      ensures Renamed(old(disk), disk, NameFor(old(disk)), past.seen.arm != old(past).seen.arm)
      ensures r == Ran(Fine) ==> disk.RowIs(Done) && disk.marker.None?
      ensures r == Ran(Fine) && !old(disk).checkpoint.Stored? && !CanonicalNote(preferred) ==>
        NoteUsed(OrElse(preferred, Partial(old(disk).row.value.note)), past.seen.answer, notes, disk)
      ensures Kept(past.seen.answer, r, disk) && Reports(r, past.seen.written, disk)
      ensures OrTrouble(old(trouble), trouble, Well(r, old(past).seen, past.seen) && disk.checkpoint.Absent?)
      ensures r == Ran(Fine) ==> trouble <= old(trouble) + 2 + (past.seen.missed - old(past).seen.missed)
    {
      hide Valid, Allowed, Transcribed;
      var loaded := LoadCheckpoint();
      if loaded.Stored? {
        var acknowledged :- Outside();
        if !acknowledged {
          return Ran(BROKEN);
        }
        r := PromoteAndFile();
      } else {
        r := TranscribeWithoutCheckpoint(preferred, origin);
      }
    }

    // ---- the retry job ----

    /** One claimed job: it moves the recording on from whatever state a failure or a crash left it in. */
    method RetryTranscription(job: Job) returns (r: Exec<Outcome>)
      requires Valid() && disk.job == Some(job) && job.phase.Running? && JustClaimed(past.seen)
      modifies `disk, `past, `trouble, `notes
      ensures Valid() && old(past).seen.written <= past.seen.written
      ensures WorkedOn(old(disk), disk)
      ensures r == Ran(Fine) ==> JobSettled(disk)
      ensures r == Ran(Fine) && Waiting(old(disk), job) ==>
        if Salvageable(old(disk), past.seen.missed) then disk.RowIs(Done) else disk.RowIs(Failed)
      ensures old(disk).RowTerminal() ==> disk == old(disk)
      ensures disk.RowIs(Failed) && !old(disk).RowIs(Failed) ==> !disk.audio
      ensures r.Ran? && r.value.Fails? ==> disk.row.Some?
      ensures old(disk).row.Some? ==>
        AskedAs(Repaired(old(disk), job), job, config.backend, old(past).seen, past.seen, r) &&
        ClaimNamed(old(disk), disk, past.seen.arm != old(past).seen.arm)
      ensures Kept(past.seen.answer, r, disk) && Reports(r, past.seen.written, disk)
      ensures OrTrouble(old(trouble), trouble,
                        Well(r, old(past).seen, past.seen) || (r.Ran? && CannotGoOn(old(disk), job)))
      ensures OrTrouble(old(trouble), trouble,
                        r == Ran(Fine) && Waiting(old(disk), job) ==>
                          FiledOrFailed(old(disk), job, past.seen.answer, notes, disk))
      ensures r == Ran(Fine) ==> trouble <= old(trouble) + 2 + (past.seen.missed - old(past).seen.missed)
    {
      hide Valid, Allowed, Transcribed;
      Facts();
      if disk.row.None? {
        return Ran(Fine);
      }
      var found := ReadRow();
      if !found || disk.RowIs(Failed) {
        return Ran(BROKEN);
      }
      if disk.RowIs(Recording) && job.payload.captureFinished {
        var repaired :- UpdateRow(disk.row.value.(status := PendingTranscription));
        if !repaired {
          return Ran(BROKEN);
        }
      }
      ghost var loaded;
      r, loaded := ActOnClaim(job);
    }

    /** Chooses the action by what loads, and repairs the row's note before every exit path. */
    method ActOnClaim(job: Job) returns (r: Exec<Outcome>, ghost loaded: CheckpointFile)
      requires Valid() && disk.job == Some(job) && job.phase.Running? && JustClaimed(past.seen)
      requires disk.row.Some? && !disk.RowIs(Failed)
      modifies `disk, `past, `trouble, `notes
      ensures Valid() && old(past).seen.written <= past.seen.written
      ensures WorkedOn(old(disk), disk) && MayLoad(old(disk).checkpoint, loaded)
      ensures disk != old(disk) ==> ShowsOwned(old(disk), job, loaded, disk)
      ensures r == Ran(Fine) ==> JobSettled(disk)
      ensures r == Ran(Fine) && !old(disk).RowTerminal() && !old(disk).RowIs(Recording) ==>
        if Salvageable(old(disk), past.seen.missed) then disk.RowIs(Done) else disk.RowIs(Failed)
      ensures old(disk).RowTerminal() ==> disk == old(disk)
      ensures disk.RowIs(Failed) ==> !disk.audio
      ensures AskedAs(old(disk), job, config.backend, old(past).seen, past.seen, r)
      ensures ClaimNamed(old(disk), disk, past.seen.arm != old(past).seen.arm)
      ensures Kept(past.seen.answer, r, disk) && Reports(r, past.seen.written, disk)
      ensures OrTrouble(old(trouble), trouble,
                        Well(r, old(past).seen, past.seen) || (r.Ran? && CannotGoOn(old(disk), job)))
      ensures OrTrouble(old(trouble), trouble,
                        r == Ran(Fine) && !old(disk).RowTerminal() && !old(disk).RowIs(Recording) ==>
                          FiledOrFailed(old(disk), job, past.seen.answer, notes, disk))
      ensures r == Ran(Fine) ==> trouble <= old(trouble) + 2 + (past.seen.missed - old(past).seen.missed)
    {
      hide Valid, Allowed, Transcribed;
      Facts();
      var row := disk.row.value;
      var read := LoadCheckpoint();
      loaded := read;
      var owned := AuthoritativeNote(CheckpointNote(read), job.payload.note, row.note);
      var action := Dispatch(row.status, read, job.payload.note, row.note, disk.audio);
      DispatchFacts(disk, job, read, past.seen.written);
      hide AuthoritativeNote, Dispatch, CanonicalIsWritten, OwnsWritten, Secured, Kept, Reports, JobSettled, Shows;
      if !WithinBudget(action, job.attempts, job.max) {
        return Ran(BROKEN), loaded;
      }
      r := RepairAndAct(action, owned, job, read);
    }

    /** Whatever the action does, and wherever it ends: if it changes anything, the row shows the owned note. */
    method RepairAndAct(action: Action, owned: Option<OwnedNote>, job: Job, ghost loaded: CheckpointFile)
      returns (r: Exec<Outcome>)
      requires Valid() && disk.job == Some(job) && job.phase.Running? && MayLoad(disk.checkpoint, loaded)
      requires past.seen.answer.None? && past.seen.missed == (if loaded == disk.checkpoint then 0 else 1)
      requires past.seen.arm.Some? && past.seen.arm.value.decodes < past.seen.arm.value.claims
      requires disk.row.Some? && !disk.RowIs(Failed) && OwnsWritten(owned, past.seen.written)
      requires action == Dispatch(disk.row.value.status, loaded, job.payload.note, disk.row.value.note, disk.audio)
      requires owned == AuthoritativeNote(CheckpointNote(loaded), job.payload.note, disk.row.value.note)
      requires disk.RowTerminal() ==> action.Stale?
      requires WithinBudget(action, job.attempts, job.max)
      modifies `disk, `past, `trouble, `notes
      ensures Valid() && Acted(action, job, config.backend, old(disk), old(past).seen, disk, past.seen, r)
      ensures !action.Stale? && owned.Some? && disk != old(disk) ==> Shows(disk, owned.value.path)
      ensures OrTrouble(old(trouble), trouble,
                        r == Ran(Fine) && !action.Stale? && loaded == old(disk).checkpoint ==>
                          FiledWith(action, owned, old(disk), past.seen.answer, notes, disk))
      ensures OrTrouble(old(trouble), trouble,
                        Well(r, old(past).seen, past.seen) || (r.Ran? && old(disk).checkpoint.Unreadable?))
      ensures r == Ran(Fine) ==> trouble <= old(trouble) + 2 + (past.seen.missed - old(past).seen.missed)
    {
      hide Valid, Allowed, Transcribed, AuthoritativeNote, Dispatch, Secured, Acted;
      hide KeepsFinal, JobSettled, OwnsWritten, Unopposed, FiledWith;
      ghost var before, was, noted := disk, past.seen, disk.row.value.note;
      var shown :- ShowOwned(action, owned, job);
      if !shown {
        return Ran(BROKEN);
      }
      ghost var mid, seen := disk, past.seen;
      r := Act(action, owned, job, loaded, noted);
      RepairIsNoAct(action, owned, job, config.backend, before, was, mid, seen, disk, past.seen, r);
    }

    /** The row's note is repaired before anything else happens, whatever the action, unless the claim is stale. */
    method ShowOwned(action: Action, owned: Option<OwnedNote>, ghost job: Job) returns (r: Exec<bool>)
      requires Valid() && disk.row.Some? && disk.job == Some(job) && job.phase.Running? && past.seen.answer.None?
      requires !disk.RowIs(Failed) && (disk.RowTerminal() ==> action.Stale?)
      modifies `disk, `past, `trouble
      ensures Valid() && SameVerdict(old(past).seen, past.seen)
      ensures var shown := old(disk).(row := Some(old(disk).row.value.(note := PathOf(owned))));
        && (disk == old(disk) || (!action.Stale? && owned.Some? && disk == shown))
        && (r == Ran(true) ==> disk == if !action.Stale? && owned.Some? then shown else old(disk))
      ensures r != Ran(true) ==>
        forall broken: Exec<Outcome> :: broken in {Crashed, Ran(BROKEN)} ==>
          Acted(action, job, config.backend, old(disk), old(past).seen, disk, past.seen, broken)
      ensures Strict(old(trouble), trouble, r == Ran(true))
    {
      hide Valid, Allowed, Transcribed, Secured, KeepsFinal;
      if action.Stale? || owned.None? {
        return Ran(true);
      }
      r := UpdateRow(disk.row.value.(note := Some(owned.value.path)));
    }

    /** The dispatched action, once the row shows the owned note. */
    method Act(action: Action, owned: Option<OwnedNote>, job: Job,
               ghost loaded: CheckpointFile, ghost noted: Option<Path>)
      returns (r: Exec<Outcome>)
      requires Valid() && disk.job == Some(job) && job.phase.Running? && MayLoad(disk.checkpoint, loaded)
      requires past.seen.answer.None? && past.seen.missed == (if loaded == disk.checkpoint then 0 else 1)
      requires past.seen.arm.Some? && past.seen.arm.value.decodes < past.seen.arm.value.claims
      requires disk.row.Some? && !disk.RowIs(Failed) && OwnsWritten(owned, past.seen.written)
      requires action == Dispatch(disk.row.value.status, loaded, job.payload.note, noted, disk.audio)
      requires owned == AuthoritativeNote(CheckpointNote(loaded), job.payload.note, noted)
      requires disk.row.value.note == if !action.Stale? && owned.Some? then Some(owned.value.path) else noted
      requires WithinBudget(action, job.attempts, job.max)
      modifies `disk, `past, `trouble, `notes
      ensures Valid() && Acted(action, job, config.backend, old(disk), old(past).seen, disk, past.seen, r)
      ensures !action.Stale? && owned.Some? ==> Shows(disk, owned.value.path)
      ensures OrTrouble(old(trouble), trouble,
                        r == Ran(Fine) && !action.Stale? && loaded == old(disk).checkpoint ==>
                          FiledWith(action, owned, old(disk), past.seen.answer, notes, disk))
      ensures OrTrouble(old(trouble), trouble,
                        Well(r, old(past).seen, past.seen) || (r.Ran? && old(disk).checkpoint.Unreadable?))
      ensures r == Ran(Fine) ==> trouble <= old(trouble) + 2 + (past.seen.missed - old(past).seen.missed)
    {
      hide Valid, Allowed, Transcribed, KeepsFinal, KeepsOrigin, Dispatch, AuthoritativeNote, Names, NamesAttempt;
      Facts();
      ActionFacts(disk, job, loaded, noted, owned, action);
      ClaimCarriesOrigin(job.payload, job.attempts, Local);
      match action {
        case Stale =>
          return Ran(Fine);
        case FileCheckpoint =>
          r := FileRecovered();
        case CompleteCanonicalNote =>
          r := CompleteCanonicalNote(owned.value.path);
        case TranscribeLegacyPendingNote =>
          r := TranscribeLegacy(owned, ClaimedOrigin(job.payload, job.attempts));
        case Transcribe =>
          r := TranscribeAndFile(owned, ClaimedOrigin(job.payload, job.attempts));
        case MissingAudio =>
          r := FailWithNote(owned);
      }
    }

    /** A checkpoint that is there is filed; the row is promoted first, unless it was. */
    method FileRecovered() returns (r: Exec<Outcome>)
      requires Valid() && disk.row.Some? && !disk.RowTerminal() && disk.JobActive() && past.seen.answer.None?
      requires disk.checkpoint.Stored? && (Secured(disk) ==> CanonicalNote(disk.checkpoint.value.note))
      modifies `disk, `past, `trouble, `notes
      ensures Valid() && Filing(old(past).seen, past.seen)
      ensures WorkedOn(old(disk), disk) && KeepsNote(old(disk), disk) && KeepsName(old(disk), disk)
      ensures disk == old(disk) || disk.RowIs(PendingNote) || disk.RowIs(Done)
      ensures r == Ran(Fine) ==> disk.RowIs(Done) && disk.marker.None? && past.seen.missed == old(past).seen.missed
      ensures r == Ran(Fine) ==> NoteUsed(FiledNote(old(disk)), past.seen.answer, notes, disk)
      ensures Kept(past.seen.answer, r, disk) && Reports(r, past.seen.written, disk)
      ensures OrTrouble(old(trouble), trouble, r == Ran(Fine) && disk.checkpoint.Absent?)
      ensures r == Ran(Fine) ==> trouble <= old(trouble) + 2
    {
      hide Valid, Allowed, Transcribed;
      if !disk.RowIs(PendingNote) {
        var promoted :- UpdateRow(disk.row.value.(status := PendingNote));
        if !promoted {
          return Ran(BROKEN);
        }
      }
      r := FileCheckpoint();
    }

    /** A row from before checkpoints: its attempt gets another stable name first. */
    method TranscribeLegacy(preferred: Option<OwnedNote>, origin: RetryOrigin) returns (r: Exec<Outcome>)
      requires Valid() && disk.RowIs(PendingNote) && disk.JobRunning() && past.seen.answer.None?
      requires !CanonicalNote(PayloadNote(disk.job)) && (disk.checkpoint.Stored? ==> past.seen.missed >= 1)
      requires OwnsWritten(preferred, past.seen.written) && MayDecode(past.seen.arm, origin)
      modifies `disk, `past, `trouble, `notes
      ensures Valid() && Working(old(past).seen, past.seen)
      ensures past.seen.arm == old(past).seen.arm ||
              (past.seen.arm == OneMoreDecode(old(past).seen.arm) && SelectedBackend(origin, config.backend).Ok?)
      ensures r == Ran(Fine) && !old(disk).checkpoint.Stored? && SelectedBackend(origin, config.backend).Ok? ==>
        past.seen.arm == OneMoreDecode(old(past).seen.arm)
      ensures WorkedOn(old(disk), disk) && KeepsNote(old(disk), disk)
      ensures Renamed(old(disk), disk, Some(Compatibility), r == Ran(Fine) || past.seen.arm != old(past).seen.arm)
      ensures r == Ran(Fine) ==> disk.RowIs(Done) && disk.marker.None?
      ensures r == Ran(Fine) && !old(disk).checkpoint.Stored? && !CanonicalNote(preferred) ==>
        NoteUsed(OrElse(preferred, Partial(old(disk).row.value.note)), past.seen.answer, notes, disk)
      ensures Kept(past.seen.answer, r, disk) && Reports(r, past.seen.written, disk)
      ensures OrTrouble(old(trouble), trouble, Well(r, old(past).seen, past.seen) && disk.checkpoint.Absent?)
      ensures r == Ran(Fine) ==> trouble <= old(trouble) + 2 + (past.seen.missed - old(past).seen.missed)
    {
      hide Valid, Allowed, Transcribed;
      var renamed :- UpdateRow(disk.row.value.(attempt := Some(Compatibility)));
      if !renamed {
        return Ran(BROKEN);
      }
      r := TranscribeAndFile(preferred, origin);
    }

    // ---- job bookkeeping ----

    /** The claim starts the count of attempts, of failed loads and of answers anew. */
    method ClaimDue() returns (r: Exec<bool>)
      requires Valid() && disk.job.Some? && disk.job.value.phase.Pending?
      modifies `disk, `past, `trouble
      ensures Valid() && past.seen.written == old(past).seen.written
      ensures var claimed := old(disk).job.value.(phase := Running, attempts := old(disk).job.value.attempts + 1);
        && (disk == old(disk) || disk == old(disk).(job := Some(claimed)))
        && (r == Ran(true) ==> disk.job == Some(claimed) && JustClaimed(past.seen))
      ensures trouble == old(trouble) + if r == Ran(true) then 0 else 1
    {
      hide Judge, Lawful;
      var job := disk.job.value;
      r := Commit(disk.(job := Some(job.(phase := Running, attempts := job.attempts + 1))));
    }

    method DeleteJob() returns (r: Exec<bool>)
      requires Valid() && disk.job.Some? && JobSettled(disk)
      requires past.seen.answer.Some? ==> disk.RowIs(Done) && disk.row.value.note == past.seen.answer
      modifies `disk, `past, `trouble
      ensures Valid() && past.seen.written == old(past).seen.written && past.seen.answer == old(past).seen.answer
      ensures disk == old(disk) || disk == old(disk).(job := None)
      ensures r == Ran(true) ==> disk.job.None?
      ensures trouble == old(trouble) + if r == Ran(true) then 0 else 1
    {
      hide Judge, Lawful;
      r := Commit(disk.(job := None));
    }

    /** A claimed job goes back to pending, or is parked; the settled payload is persisted with it. */
    method SettleJob(payload: Payload, phase: Phase) returns (r: Exec<bool>)
      requires Valid() && disk.job.Some? && disk.job.value.phase.Running? && !phase.Running?
      requires phase.Parked? ==> MayPark(disk)
      requires OwnsWritten(payload.note, past.seen.written) && Unopposed(payload.note, disk)
      requires NamedBy(disk.checkpoint, Some(Settled(disk.job.value, payload, phase)), past.seen.answer)
      modifies `disk, `past, `trouble
      ensures Valid() && SameVerdict(old(past).seen, past.seen)
      ensures var settled := Settled(old(disk).job.value, payload, phase);
        && (disk == old(disk) || disk == old(disk).(job := Some(settled)))
        && (r == Ran(true) ==> disk.job == Some(settled))
      ensures trouble == old(trouble) + if r == Ran(true) then 0 else 1
    {
      hide Judge, Lawful, KeepsFinal, Unopposed;
      var job := disk.job.value;
      MergeGrows(job.payload, payload);
      MergedKeepsFinal(disk, payload, Settled(job, payload, phase));
      r := Commit(disk.(job := Some(Settled(job, payload, phase))));
    }

    /** The recording becomes terminal before its only job is parked. */
    method OnExhausted(payload: Payload) returns (r: Exec<Outcome>)
      requires Valid()
      modifies `disk, `past, `trouble
      ensures Valid() && SameButMissed(old(past).seen, past.seen)
      ensures disk == old(disk).(row := disk.row) && (disk.row.Some? <==> old(disk).row.Some?)
      ensures (old(disk).RowTerminal() ==> disk == old(disk)) && (disk.RowIs(Done) ==> disk == old(disk))
      ensures r == Ran(Fine) ==> disk.row.None? || disk.RowTerminal()
      ensures disk.row != old(disk).row ==>
        && disk.row == Some(old(disk).row.value.(status := Failed, note := disk.row.value.note))
        && disk.row.value.note in
             {PathOf(CheckpointNote(disk.checkpoint)), PathOf(payload.note), old(disk).row.value.note}
      ensures OrTrouble(old(trouble), trouble,
                        Well(r, old(past).seen, past.seen) &&
                        (old(disk).row.Some? && !old(disk).RowTerminal() ==> FailedShowing(old(disk), payload.note, disk)))
      ensures r == Ran(Fine) ==> trouble <= old(trouble) + 2
    {
      hide Valid;
      if disk.row.None? {
        return Ran(Fine);
      }
      var found := ReadRow();
      if !found {
        return Ran(BROKEN);
      }
      if disk.RowTerminal() {
        return Ran(Fine);
      }
      var loaded := LoadCheckpoint();
      r := FailWithNote(AuthoritativeNote(CheckpointNote(loaded), payload.note, disk.row.value.note));
    }

    /** `retry_status` of the row that is there. */
    method StatusForRetry() returns (status: Status)
      requires Valid() && disk.row.Some?
      modifies `past, `trouble
      ensures Valid() && SameButMissed(old(past).seen, past.seen)
      ensures status == RetryStatus(disk) || (disk.checkpoint.Stored? && status == PendingTranscription)
      ensures OrTrouble(old(trouble), trouble, status == RetryStatus(disk) && past.seen.missed == old(past).seen.missed)
    {
      if disk.RowIs(PendingNote) {
        return PendingNote;
      }
      var loaded := LoadCheckpoint();
      return if loaded.Stored? then PendingNote else PendingTranscription;
    }

    /** A row that still waits goes back to the status of its phase; any other row stays as it is. */
    method RecordRetryBackoff() returns (r: Exec<Outcome>)
      requires Valid() && disk.JobActive()
      modifies `disk, `past, `trouble
      ensures Valid() && SameButMissed(old(past).seen, past.seen)
      ensures disk == old(disk).(row := disk.row)
      ensures old(disk).row.None? || old(disk).RowTerminal() ==> disk == old(disk)
      ensures disk == old(disk) ||
              (disk.row.Some? && disk.row.value.status in {RetryStatus(old(disk)), PendingTranscription} &&
               disk.row == Some(old(disk).row.value.(status := disk.row.value.status)))
      ensures r.Ran? ==> r.value == Fine
      ensures OrTrouble(old(trouble), trouble, Well(r, old(past).seen, past.seen) && BackedOff(old(disk), disk))
    {
      hide Valid;
      if disk.row.None? {
        return Ran(Fine);
      }
      var found := ReadRow();
      if !found || disk.RowTerminal() {
        return Ran(Fine);
      }
      var status := StatusForRetry();
      var updated :- UpdateRow(disk.row.value.(status := status));
      return Ran(Fine);
    }

    /** A failed job waits for its next attempt, and so does its row. */
    method Reschedule(job: Job, payload: Payload) returns (r: Exec<Outcome>)
      requires Valid() && disk.job == Some(job) && job.phase.Running?
      requires OwnsWritten(payload.note, past.seen.written) && Unopposed(payload.note, disk)
      requires NamedBy(disk.checkpoint, Some(Settled(job, payload, Pending)), past.seen.answer)
      modifies `disk, `past, `trouble
      ensures Valid() && SameButMissed(old(past).seen, past.seen)
      ensures disk == old(disk).(row := disk.row, job := disk.job)
      ensures disk.job in {Some(job), Some(Settled(job, payload, Pending))}
      ensures disk.row != old(disk).row ==> disk.job == Some(Settled(job, payload, Pending))
      ensures disk.row.Some? <==> old(disk).row.Some?
      ensures old(disk).RowTerminal() || disk.RowTerminal() ==> disk.row == old(disk).row
      ensures r.Ran? ==> r.value == Fine
      ensures OrTrouble(old(trouble), trouble,
                        r == Ran(Fine) && disk.job == Some(Settled(job, payload, Pending)) && BackedOff(old(disk), disk))
    {
      hide Valid, Allowed, Unopposed, MergePayload, Coherent, Secured, Transcribed;
      var rescheduled :- SettleJob(payload, Pending);
      if !rescheduled {
        return Ran(Fine);
      }
      r := RecordRetryBackoff();
    }

    /** Settles a finished job. A note that only the error names becomes part of the persisted payload, so once the
        job is settled something durable names whatever the note command answered. */
    method FinishJob(job: Job, outcome: Outcome) returns (r: Exec<Outcome>)
      requires Valid() && disk.job == Some(job) && job.phase.Running?
      requires outcome.Fine? ==> JobSettled(disk)
      requires outcome.Fails? ==>
        disk.row.Some? && OwnsWritten(outcome.note, past.seen.written) && Unopposed(outcome.note, disk)
      requires Kept(past.seen.answer, Ran(outcome), disk)
      modifies `disk, `past, `trouble
      ensures Valid() && past.seen.answer == old(past).seen.answer
      ensures disk == old(disk).(row := disk.row, job := disk.job)
      ensures old(past).seen.written <= past.seen.written
      ensures r.Ran? ==> r.value == Fine
      ensures Answered(past.seen.answer, disk)
      ensures outcome.Fine? ==> disk.row == old(disk).row && disk.job in {old(disk).job, None}
      ensures outcome.Fails? ==> FailureKeeps(old(disk), job, outcome, disk)
      ensures OrTrouble(old(trouble), trouble,
                        if outcome.Fine? then disk.job.None? else FailureSettled(old(disk), job, outcome, disk))
    {
      hide Valid, Allowed;
      if outcome.Fine? {
        var _ :- DeleteJob();
        return Ran(Fine);
      }
      Facts();
      KeptIsNamed(disk, job, outcome, past.seen.answer);
      PayloadIsUnopposed(disk, job, outcome);
      hide Kept, JobSettled, Unopposed;
      var payload := if outcome.note.Some? then job.payload.(note := outcome.note) else job.payload;
      r := SettleFailure(job, outcome, payload);
    }

    /** The budget decides whether a failed job waits for another attempt. Without budget the recording becomes terminal
        before its only job is parked; if it cannot, the job goes on. */
    method SettleFailure(job: Job, ghost outcome: Outcome, payload: Payload) returns (r: Exec<Outcome>)
      requires Valid() && disk.job == Some(job) && job.phase.Running? && disk.row.Some? && outcome.Fails?
      requires payload == if outcome.note.Some? then job.payload.(note := outcome.note) else job.payload
      requires OwnsWritten(payload.note, past.seen.written) && Unopposed(payload.note, disk)
      requires forall phase :: NamedBy(disk.checkpoint, Some(Settled(job, payload, phase)), past.seen.answer)
      modifies `disk, `past, `trouble
      ensures Valid() && SameButMissed(old(past).seen, past.seen)
      ensures disk == old(disk).(row := disk.row, job := disk.job)
      ensures r.Ran? ==> r.value == Fine
      ensures FailureKeeps(old(disk), job, outcome, disk)
      ensures OrTrouble(old(trouble), trouble, FailureSettled(old(disk), job, outcome, disk))
      ensures disk.JobRunning() || NamedBy(disk.checkpoint, disk.job, past.seen.answer)
    {
      hide Valid, Allowed, Unopposed, FailedShowing, Coherent, Free, KeepsFinal, Secured, Transcribed;
      MergeGrows(job.payload, payload);
      if job.attempts >= job.max {
        ghost var before := disk;
        var terminal :- OnExhausted(payload);
        UnopposedBeyondRow(before, disk, payload.note);
        if terminal.Fine? {
          var _ :- SettleJob(payload, Parked);
          return Ran(Fine);
        }
      }
      r := Reschedule(job, payload);
    }

    /** One round of the drain loop: the job is claimed if it is due, run, and settled. */
    method DrainDueJob(due: bool) returns (r: Exec<Outcome>)
      requires Valid()
      modifies `disk, `past, `trouble, `notes
      ensures Valid() && old(past).seen.written <= past.seen.written
      ensures old(disk).job.None? ==> disk == old(disk) && past.seen == old(past).seen
      ensures disk != old(disk) && r.Ran? ==> Answered(past.seen.answer, disk)
      ensures r.Ran? ==> r.value == Fine
      ensures !due || old(disk).job.None? || !old(disk).job.value.phase.Pending? ==> disk == old(disk)
      ensures Parks(old(disk), disk) || (disk.RowIs(Failed) && !old(disk).RowIs(Failed) && old(disk).audio) ==>
        old(disk).job.value.attempts + 1 >= old(disk).job.value.max
      ensures OrTrouble(old(trouble), trouble,
                        due && WillFinish(old(disk)) ==>
                          disk.job.None? && FiledNow(old(disk), old(disk).job.value, past.seen.answer, notes, disk))
    {
      hide Judge, Lawful, Sound, Allowed;
      if !due || disk.job.None? || !disk.job.value.phase.Pending? {
        return Ran(Fine);
      }
      var claimed :- ClaimDue();
      if !claimed {
        return Ran(Fine);
      }
      var job := disk.job.value;
      var outcome :- RetryTranscription(job);
      r := FinishJob(job, outcome);
    }

    // ---- arming ----

    /** `enqueue_recording`: an existing job, parked or not, only takes over the note. */
    method EnqueueRecording(payload: Payload, max: nat) returns (r: Exec<bool>)
      requires Valid() && OwnsWritten(payload.note, past.seen.written) && Unopposed(payload.note, disk)
      requires disk.job.None? && payload.firstBatch ==> disk.row.Some? && disk.row.value.attempt.None?
      modifies `disk, `past, `trouble
      ensures Valid() && past.seen.written == old(past).seen.written
      ensures var armed := if old(disk).job.None? then Job(Pending, payload, 0, max)
                           else old(disk).job.value.(payload := MergePayload(old(disk).job.value.payload, payload));
        && (disk == old(disk) || disk == old(disk).(job := Some(armed)))
        && (r == Ran(true) ==> disk.job == Some(armed))
        && (old(disk).job == Some(armed) ==> r == Ran(true))
      ensures Strict(old(trouble), trouble, r == Ran(true))
    {
      hide Judge, Lawful;
      if disk.job.None? {
        r := Commit(disk.(job := Some(Job(Pending, payload, 0, max))));
        return;
      }
      var job := disk.job.value;
      var merged := MergePayload(job.payload, payload);
      MergeGrows(job.payload, payload);
      if merged == job.payload {
        return Ran(true);
      }
      r := Commit(disk.(job := Some(job.(payload := merged))));
    }

    /** A failure on the live path: the retry owns the note before any row is updated. */
    method ScheduleRetry(error: Option<OwnedNote>, preferred: OwnedNote) returns (r: Exec<Outcome>)
      requires Valid() && disk.row.Some? && disk.job.None?
      requires OwnsWritten(error, past.seen.written) && OwnsWritten(Some(preferred), past.seen.written)
      requires Unopposed(error, disk) && Unopposed(Some(preferred), disk)
      requires error.Some? ==> error.value.canonical
      requires disk.RowIs(Done) ==> preferred.canonical && (error.Some? || CanonicalNote(CheckpointNote(disk.checkpoint)))
      modifies `disk, `past, `trouble
      ensures Valid()
      ensures disk.row != old(disk).row && !disk.RowIs(Failed) ==> disk.row.Some? && disk.job.Some?
      ensures disk.row != old(disk).row && !disk.RowIs(Failed) ==>
        && PathOf(PayloadNote(disk.job)) == disk.row.value.note
        && PayloadNote(disk.job) in {RetryOwnedNote(error, CheckpointNote(old(disk).checkpoint), Some(preferred)),
                                     RetryOwnedNote(error, None, Some(preferred))}
      ensures r == Ran(Fine) && !disk.RowIs(Failed) ==>
        PayloadNote(disk.job) in {RetryOwnedNote(error, CheckpointNote(old(disk).checkpoint), Some(preferred)),
                                  RetryOwnedNote(error, None, Some(preferred))}
      ensures disk.row != old(disk).row && disk.RowIs(PendingNote) ==>
        old(disk).RowIs(PendingNote) || old(disk).checkpoint.Stored?
      ensures r == Ran(Fine) ==> disk.JobActive() || disk.RowIs(Failed)
      ensures var known := RetryOwnedNote(error, CheckpointNote(old(disk).checkpoint), Some(preferred));
        OrTrouble(old(trouble), trouble, r == Ran(Fine) && disk == Retrying(old(disk), known, RetryStatus(old(disk))))
    {
      hide Valid, Allowed, Transcribed, Secured;
      Facts();
      var loaded := LoadCheckpoint();
      var note := RetryOwnedNote(error, CheckpointNote(loaded), Some(preferred));
      var found := ReadRow();
      var status;
      if found {
        status := StatusForRetry();
      } else {
        loaded := LoadCheckpoint();
        status := if loaded.Stored? then PendingNote else PendingTranscription;
      }
      r := ArmThenShow(note, status);
    }

    method ArmThenShow(note: Option<OwnedNote>, status: Status) returns (r: Exec<Outcome>)
      requires Valid() && disk.row.Some? && disk.job.None? && note.Some? && OwnsWritten(note, past.seen.written)
      requires status.PendingNote? || status.PendingTranscription?
      requires Unopposed(note, disk) && (disk.RowIs(Done) ==> CanonicalNote(note))
      modifies `disk, `past, `trouble
      ensures Valid()
      ensures disk.row != old(disk).row && !disk.RowIs(Failed) ==>
        PayloadNote(disk.job) == note && disk.row.Some? && disk.row.value.note == PathOf(note)
      ensures disk.row != old(disk).row && !disk.RowIs(Failed) ==> disk.row.value.status == status
      ensures disk.job in {None, Some(RetryJob(note))}
      ensures r == Ran(Fine) && !disk.RowIs(Failed) ==> PayloadNote(disk.job) == note
      ensures r == Ran(Fine) ==> disk.JobActive() || disk.RowIs(Failed)
      ensures OrTrouble(old(trouble), trouble, r == Ran(Fine) && disk == Retrying(old(disk), note, status))
    {
      hide Valid, Allowed, Transcribed;
      var armed :- EnqueueRecording(Payload(note, Some(Local), false, false), RETRY_MAX_ATTEMPTS);
      if !armed {
        r := FailWithNote(note);
        return;
      }
      var updated :- UpdateRow(disk.row.value.(status := status, note := PathOf(note)));
      return Ran(Fine);
    }

    // ---- messages ----

    ghost predicate Ready()
      reads `disk, `past, `live
    {
      Valid() && LiveFresh(live, past.seen)
    }

    /** `enqueue_with_capture_processing`: a row that already exists is left alone, but for the capture's processing,
        which is not part of this model; attaching it may fail. */
    method InsertRow(capture: bool) returns (r: Exec<bool>)
      requires Valid()
      modifies `disk, `past, `trouble
      ensures Valid() && SameVerdict(old(past).seen, past.seen)
      ensures var added := old(disk).(row := Some(Row(PendingTranscription, None, None)));
        if old(disk).row.Some? then disk == old(disk) && (!capture ==> r == Ran(true))
        else (disk == old(disk) || disk == added) && (r == Ran(true) ==> disk == added)
      ensures trouble == old(trouble) + if r == Ran(true) then 0 else 1
    {
      hide Judge, Lawful;
      if disk.row.Some? {
        if capture {
          r := Outside();
          return;
        }
        return Ran(true);
      }
      r := Commit(disk.(row := Some(Row(PendingTranscription, None, None))));
    }

    /** A finished recording is delivered, possibly again. If it cannot be enqueued, the live outcome is dropped and
        nothing is armed: at most the row is there. */
    method Process() returns (r: Exec<Outcome>, ghost enqueued: bool)
      requires Ready()
      modifies `disk, `live, `past, `trouble
      ensures Ready() && live in {old(live), None} && (r.Ran? ==> live.None?)
      ensures r.Ran? && !enqueued ==>
        r == Ran(Fine) && old(trouble) < trouble && (disk == old(disk) ||
                    (old(disk).row.None? && disk == old(disk).(row := Some(Row(PendingTranscription, None, None)))))
      ensures r == Ran(Fine) && enqueued && (old(disk).job.None? || !old(disk).job.value.phase.Parked?) ==>
        disk.JobActive() || disk.RowTerminal()
      ensures r == Ran(Fine) && enqueued && CheckpointNote(old(disk).checkpoint).None? ==> LiveNoteOwned(old(live), disk)
      ensures old(disk).row.None? && old(disk).job.None? && !old(disk).checkpoint.Unreadable? ==>
        old(trouble) < trouble ||
        DeliveredAs(old(disk).(row := Some(Row(PendingTranscription, None, None))), old(live), config.backend, disk)
      ensures OrTrouble(old(trouble), trouble, r == Ran(Fine))
    {
      hide Judge, Lawful, Sound, Allowed;
      enqueued := false;
      var added := InsertRow(true);
      if added.Crashed? {
        return Crashed, enqueued;
      }
      var outcome := live;
      live := None;
      if !added.value {
        return Ran(Fine), enqueued;
      }
      enqueued := true;
      r := ProcessLiveResult(outcome);
    }

    method ProcessLiveResult(outcome: Option<LiveOutcome>) returns (r: Exec<Outcome>)
      requires Valid() && disk.row.Some? && LiveFresh(outcome, past.seen) && live.None?
      modifies `disk, `past, `trouble
      ensures Valid()
      ensures r == Ran(Fine) && CheckpointNote(old(disk).checkpoint).None? ==> LiveNoteOwned(outcome, disk)
      ensures r == Ran(Fine) && (old(disk).job.None? || !old(disk).job.value.phase.Parked?) ==>
        disk.JobActive() || disk.RowTerminal()
      ensures outcome.None? && old(disk).job.Some? ==> disk == old(disk)
      ensures old(disk).job.None? && !old(disk).checkpoint.Unreadable? ==>
        old(trouble) < trouble || DeliveredAs(old(disk), outcome, config.backend, disk)
      ensures OrTrouble(old(trouble), trouble, r == Ran(Fine))
    {
      hide Judge, Lawful, Sound, Allowed, Transcribed;
      if outcome.Some? && outcome.value.Filed? {
        var path := outcome.value.notePath;
        var completed :- CompleteCanonicalNote(path);
        if completed.Fails? {
          r := ScheduleRetry(completed.note, OwnedNote(path, true));
          return;
        }
        return Ran(Fine);
      }
      var found := ReadRow();
      var origin := if outcome.Some? then Retry(Some(Local))
                    else if found && disk.row.value.attempt.None? then Fresh else Retry(None);
      var note := if outcome.Some? && outcome.value.Fallback? then Partial(outcome.value.partialPath) else None;
      var payload := Payload(note, FirstBackend(origin, config.backend), origin.Fresh?, true);
      var armed :- EnqueueRecording(payload, InitialBatchAttempts(origin.Fresh?, outcome.Some?));
      if !armed {
        r := FailWithNote(note);
        return;
      }
      return Ran(Fine);
    }

    /** The live thread created a note: its path is put on the row, which is created if the session is owned. */
    method LiveNoteCreated(path: Path) returns (r: Exec<Outcome>)
      requires Ready()
      modifies `disk, `past, `trouble
      ensures Ready()
      ensures old(disk).row.Some? ==>
        disk == old(disk) || disk == old(disk).(row := Some(old(disk).row.value.(note := Some(path))))
      ensures old(disk).row.None? ==>
        || disk == old(disk)
        || (live.Some? && disk == old(disk).(row := Some(Row(PendingTranscription, None, None))))
        || (live.Some? && disk == old(disk).(row := Some(Row(Recording, Some(path), None))))
      ensures r.Ran? ==> r.value == Fine
      ensures disk != old(disk) ==> trouble <= old(trouble) + 1
      ensures OrTrouble(old(trouble), trouble, r == Ran(Fine) && disk == WithLiveNote(old(disk), live.Some?, path))
    {
      hide Judge, Lawful, Sound, Allowed;
      Facts();
      if disk.row.Some? {
        var found := ReadRow();
        if found {
          var _ :- ShowLateNote(path);
        }
        return Ran(Fine);
      }
      if live.None? {
        return Ran(Fine);
      }
      var added :- InsertRow(false);
      if added {
        var _ :- UpdateRow(Row(Recording, Some(path), None));
      }
      return Ran(Fine);
    }

    /** `queue.update` of the note alone; on a Done row it may replace the path of the final note. */
    method ShowLateNote(path: Path) returns (r: Exec<bool>)
      requires Valid() && disk.row.Some?
      modifies `disk, `past, `trouble
      ensures Valid() && SameVerdict(old(past).seen, past.seen)
      ensures disk == old(disk) || disk == old(disk).(row := Some(old(disk).row.value.(note := Some(path))))
      ensures r == Ran(true) ==> disk.row.Some? && disk.row.value.note == Some(path)
      ensures trouble == old(trouble) + if r == Ran(true) then 0 else 1
    {
      hide Judge, Lawful;
      r := Commit(disk.(row := Some(disk.row.value.(note := Some(path)))),
                  if disk.RowIs(Done) then Relabelling else Work);
    }

    /** The Retry button: the row and its job are reset in one transaction. The checkpoint is loaded twice: it picks
        the phase, and, unless it is absent, it has to load once more for its origin. */
    method ManualRetry() returns (r: Exec<Outcome>)
      requires Ready()
      modifies `disk, `past, `trouble
      ensures Ready()
      ensures disk == old(disk) ||
              (Retryable(old(disk)) &&
               (disk == AfterManualRetry(old(disk), old(disk).checkpoint) ||
                (old(disk).audio && disk == AfterManualRetry(old(disk), Unreadable))))
      ensures OrTrouble(old(trouble), trouble,
                        r == Ran(Fine) &&
                        disk == if !Retryable(old(disk)) then old(disk)
                                else AfterManualRetry(old(disk), old(disk).checkpoint))
      ensures r.Ran? ==> r.value == Fine
    {
      hide Judge, Lawful;
      if disk.row.None? {
        return Ran(Fine);
      }
      var found := ReadRow();
      if !found || !disk.RowIs(Failed) {
        return Ran(Fine);
      }
      var first := LoadCheckpoint();
      if !disk.audio && !first.Stored? {
        return Ran(Fine);
      }
      var second := LoadCheckpoint();
      if second.Unreadable? {
        return Ran(Fine);
      }
      r := Reset(first);
    }

    method Reset(first: CheckpointFile) returns (r: Exec<Outcome>)
      requires Ready() && Retryable(disk) && MayLoad(disk.checkpoint, first)
      modifies `disk, `past, `trouble
      ensures Ready() && (disk == old(disk) || disk == AfterManualRetry(old(disk), first)) && (r.Ran? ==> r.value == Fine)
      ensures OrTrouble(old(trouble), trouble, r == Ran(Fine) && disk == AfterManualRetry(old(disk), first))
    {
      hide Judge, Lawful, Remembers, KeepsFinal;
      ManualRetryRemembers(disk, first);
      var _ :- Commit(AfterManualRetry(disk, first));
      return Ran(Fine);
    }

    /** The settings changed; they take effect between messages. */
    method ReloadConfig(config': Config)
      modifies `config
      ensures config == config'
    {
      config := config';
    }

    // ---- startup, cleanup and retention ----

    /** The process starts again: only the durable state is left, and what it promises is taken up. */
    method Restart() returns (r: Exec<Outcome>)
      requires Valid() && !up
      modifies `disk, `live, `past, `trouble, `up
      ensures Ready() && live.None? && (up <==> r.Ran?)
      ensures OrTrouble(old(trouble), trouble, r == Ran(Fine) && disk == AfterRestart(old(disk)))
    {
      hide Judge, Lawful, Sound, Allowed, Recovered, Rearmed, Resumed, Reaped;
      live := None;
      if disk.JobRunning() {
        var _ :- RecoverRunning();
      }
      var resumed :- ResumeFiling();
      r := ReapRecording();
      up := r.Ran?;
    }

    /** A recording that is not terminal and has a transcript is armed for filing. */
    method ResumeFiling() returns (r: Exec<Outcome>)
      requires Valid()
      modifies `disk, `past, `trouble
      ensures Valid() && OrTrouble(old(trouble), trouble, r == Ran(Fine) && disk == Resumed(old(disk)))
    {
      hide Judge, Lawful, Sound, Allowed;
      if disk.row.Some? && !disk.RowTerminal() {
        var loaded := LoadCheckpoint();
        if loaded.Stored? {
          var _ :- Rearm(PendingNote);
        }
      }
      return Ran(Fine);
    }

    /** A recording that was cut off is armed if there is audio, and has failed if not. */
    method ReapRecording() returns (r: Exec<Outcome>)
      requires Valid()
      modifies `disk, `past, `trouble
      ensures Valid() && OrTrouble(old(trouble), trouble, r == Ran(Fine) && disk == Reaped(old(disk)))
    {
      hide Judge, Lawful, Sound, Allowed;
      if disk.RowIs(Recording) {
        if disk.audio {
          var _ :- Rearm(PendingTranscription);
        } else {
          Facts();
          var _ :- UpdateRow(disk.row.value.(status := Failed));
        }
      }
      return Ran(Fine);
    }

    method RecoverRunning() returns (r: Exec<bool>)
      requires Valid() && disk.job.Some? && disk.job.value.phase.Running?
      modifies `disk, `past, `trouble
      ensures Valid()
      ensures disk == old(disk) || disk == Recovered(old(disk))
      ensures OrTrouble(old(trouble), trouble, r == Ran(true) && disk == Recovered(old(disk)))
    {
      hide Judge, Lawful;
      r := Commit(Recovered(disk), Recovery);
    }

    /** Startup arms the recording first and repairs its row second. */
    method Rearm(status: Status) returns (r: Exec<Outcome>)
      requires Valid() && disk.row.Some? && !disk.RowTerminal() && !status.Terminal()
      modifies `disk, `past, `trouble
      ensures Valid()
      ensures r == Ran(Fine) ==> disk.JobActive() && disk.RowIs(status)
      ensures disk == old(disk).(row := disk.row, job := disk.job)
      ensures disk.row != old(disk).row ==> disk.JobActive()
      ensures OrTrouble(old(trouble), trouble, r == Ran(Fine) && disk == Rearmed(old(disk), status))
    {
      hide Valid, Allowed;
      Facts();
      var armed :- EnqueueRecording(NOTHING_KNOWN, RETRY_MAX_ATTEMPTS);
      if !armed {
        return Ran(BROKEN);
      }
      var promoted :- UpdateRow(disk.row.value.(status := status));
      return Ran(if promoted then Fine else BROKEN);
    }

    /** The cleanup job of a terminal recording; a manual retry takes the owner back. */
    method CloudCleanup() returns (r: Exec<Outcome>)
      requires Ready()
      modifies `disk, `past, `trouble
      ensures Ready() && SameButStaging(old(disk), disk)
      ensures old(disk).row.Some? && !old(disk).RowTerminal() ==> disk == old(disk)
      ensures OrTrouble(old(trouble), trouble,
                        old(disk).checkpoint.Unreadable? ||
                        (r == Ran(Fine) &&
                         ((old(disk).row.Some? && !old(disk).RowTerminal()) ||
                          (Owners(disk) == {} && past.seen.remote <= past.seen.orphans))))
      ensures r == Ran(Fine) ==> trouble == old(trouble)
    {
      hide Judge, Lawful, Sound, Allowed;
      if disk.row.Some? {
        var found := ReadRow();
        if !found {
          return Ran(BROKEN);
        }
        if !disk.RowTerminal() {
          return Ran(Fine);
        }
      }
      r := CleanupAwsStaging();
    }

    /** Another recording whose clean sibling has the name of this raw audio removes it, or writes over it. */
    method SiblingTakes(audio: bool) returns (r: Exec<Outcome>)
      requires Ready()
      modifies `disk, `past, `trouble
      ensures Ready() && (disk == old(disk) || disk == old(disk).(audio := audio))
      ensures OrTrouble(old(trouble), trouble, r == Ran(Fine) && disk == old(disk).(audio := audio))
    {
      hide Judge, Lawful;
      var _ :- Commit(disk.(audio := audio), Sibling);
      return Ran(Fine);
    }

    /** The retention sweep of this recording: `expired` and `ancient` are the two age limits. */
    method Sweep(expired: bool, ancient: bool) returns (r: Exec<Outcome>)
      requires Ready() && (ancient ==> expired)
      modifies `disk, `past, `trouble
      ensures Ready()
      ensures !expired || !old(disk).RowTerminal() || UnresolvedStaging(old(disk)) ==> disk == old(disk)
      ensures disk.row in {old(disk).row, None} && disk.job in {old(disk).job, None} && disk.marker == old(disk).marker
      ensures disk.checkpoint in {old(disk).checkpoint, Absent} && (disk.audio ==> old(disk).audio)
      ensures disk.job != old(disk).job ==> !disk.audio && disk.checkpoint.Absent?
      ensures old(disk).row.Some? && disk.row.None? ==>
        ancient && !disk.audio && disk.checkpoint.Absent? && disk.marker.None? && disk.job.None?
      ensures OrTrouble(old(trouble), trouble,
                        r == Ran(Fine) && Swept(old(disk), expired, ancient, disk))
    {
      hide Judge, Lawful, Sound, Allowed;
      if !expired || !disk.RowTerminal() {
        return Ran(Fine);
      }
      var loaded := LoadCheckpoint();
      hide LiveFresh;
      if UnresolvedStaging(disk.(checkpoint := loaded)) {
        return Ran(Fine);
      }
      var absent :- RemoveArtifacts();
      if absent && disk.job.Some? {
        var deleted :- Expire(disk.(job := None));
        if !deleted {
          return Ran(BROKEN);
        }
      }
      if absent && ancient {
        var _ :- Expire(disk.(row := None));
      }
      return Ran(Fine);
    }

    method Expire(next: Disk) returns (r: Exec<bool>)
      requires Ready() && Expires(disk, next)
      modifies `disk, `past, `trouble
      ensures Ready() && (disk == next || disk == old(disk))
      ensures trouble == (old(trouble) + if r == Ran(true) then 0 else 1) && (r == Ran(true) ==> disk == next)
    {
      hide Judge, Lawful;
      r := Commit(next, Expiry);
    }

    /** Every registered artifact is tried; the answer is whether all of them are gone. */
    method RemoveArtifacts() returns (r: Exec<bool>)
      requires Ready() && disk.RowTerminal() && !UnresolvedStaging(disk)
      modifies `disk, `past, `trouble
      ensures Ready()
      ensures disk == old(disk).(audio := disk.audio, checkpoint := disk.checkpoint) && !UnresolvedStaging(disk)
      ensures disk.checkpoint in {old(disk).checkpoint, Absent} && (disk.audio ==> old(disk).audio)
      ensures r == Ran(true) ==> !disk.audio && disk.checkpoint.Absent?
      ensures Strict(old(trouble), trouble, r == Ran(true))
    {
      hide Judge, Lawful, Sound, Allowed, LiveFresh;
      var absent := true;
      if disk.audio {
        absent :- Expire(disk.(audio := false));
      }
      if !disk.checkpoint.Absent? {
        var removed :- Expire(disk.(checkpoint := Absent));
        absent := absent && removed;
      }
      return Ran(absent);
    }

    // ---- whole runs ----

    /** One message to the running process. */
    method Handle(message: Message) returns (r: Exec<Outcome>)
      requires Ready() && up && (message.SweepDue? && message.ancient ==> message.expired)
      modifies this
      ensures Ready() && (up <==> r.Ran?) && (message.PowerLoss? ==> r == Crashed)
      ensures config == if message.SettingsSaved? then message.config else old(config)
      ensures live in {old(live), None} && (message.Deliver? && r.Ran? ==> live.None?)
      ensures OrTrouble(old(trouble), trouble, Handled(message, old(disk), old(live), old(config), disk))
    {
      hide Judge, Lawful, Sound, Allowed;
      match message {
        case Deliver =>
          ghost var enqueued;
          r, enqueued := Process();
        case RetryPressed => r := ManualRetry();
        case LiveNote(path) => r := LiveNoteCreated(path);
        case SettingsSaved(config') =>
          ReloadConfig(config');
          r := Ran(Fine);
        case JobDue(due) => r := DrainDueJob(due);
        case CleanupDue => r := CloudCleanup();
        case SweepDue(expired, ancient) => r := Sweep(expired, ancient);
        case SiblingActs(audio) => r := SiblingTakes(audio);
        case PowerLoss => r := Crashed;
      }
      up := r.Ran?;
    }

    /** A recording delivered for the first time is done after one job run, unless something was interrupted
        or failed. */
    method FileNewRecording() returns (r: Exec<Outcome>)
      requires Ready() && disk.row.None? && disk.job.None? && disk.audio && !disk.checkpoint.Unreadable?
      modifies `disk, `live, `past, `trouble, `notes
      ensures Ready()
      ensures OrTrouble(old(trouble), trouble,
                        disk.RowIs(Done) && disk.job.None? && disk.checkpoint.Absent? && disk.marker.None?)
    {
      hide Judge, Lawful, Sound, Allowed;
      var delivered, enqueued :- Process();
      r := DrainDueJob(true);
    }

    /** Any messages in any order, a crash at any point of any of them, and restarts that may crash again: the
        history stays lawful. */
    method Run(messages: seq<Message>)
      requires Ready() && up && forall m :: m in messages ==> (m.SweepDue? && m.ancient ==> m.expired)
      modifies this
      ensures Ready() && Lawful(start, past.history)
    {
      hide Judge, Lawful, Sound, Allowed;
      for i := 0 to |messages|
        invariant Ready()
      {
        if up {
          var outcome := Handle(messages[i]);
        } else {
          var outcome := Restart();
        }
      }
    }
  }

  /** A failure on the live path arms the retries with the local backend, and no first batch attempt. */
  function RetryJob(note: Option<OwnedNote>): Job {
    Job(Pending, Payload(note, Some(Local), false, false), 0, RETRY_MAX_ATTEMPTS)
  }

  /** The job owns the note, and the row shows it. */
  function Retrying(d: Disk, note: Option<OwnedNote>, status: Status): Disk
    requires d.row.Some?
  {
    d.(job := Some(RetryJob(note)), row := Some(d.row.value.(status := status, note := PathOf(note))))
  }

  /** The first batch attempt and the five retries. */
  function FirstJob(payload: Payload): Job {
    Job(Pending, payload, 0, RETRY_MAX_ATTEMPTS + 1)
  }

  /** What an untroubled first delivery leaves: a live note that was filed completes the recording; anything
      else is one pending job that carries the origin, the partial note and the first-batch permission. */
  predicate DeliveredAs(before: Disk, outcome: Option<LiveOutcome>, configured: Backend, after: Disk) {
    match outcome
    case Some(Filed(path)) =>
      && after.RowIs(Done) && after.row.value.note == Some(path) && after.job.None?
      && after.checkpoint.Absent? && after.marker.None? && after.audio == before.audio
    case Some(Fallback(partial)) =>
      after == before.(job := Some(FirstJob(Payload(Partial(partial), Some(Local), false, true))))
    case Some(NoNote) =>
      after == before.(job := Some(FirstJob(Payload(None, Some(Local), false, true))))
    case None =>
      before.row.Some? ==>
        after == before.(job := Some(
          if before.row.value.attempt.None? then FirstJob(Payload(None, Some(configured), true, true))
          else Job(Pending, Payload(None, None, false, true), 0, RETRY_MAX_ATTEMPTS)))
  }

  /** What handling a message without trouble does to the durable state. */
  predicate Handled(message: Message, before: Disk, live: Option<LiveOutcome>, config: Config, after: Disk) {
    match message
    case Deliver =>
      before.row.None? && before.job.None? && !before.checkpoint.Unreadable? ==>
        DeliveredAs(before.(row := Some(Row(PendingTranscription, None, None))), live, config.backend, after)
    case RetryPressed => after == if Retryable(before) then AfterManualRetry(before, before.checkpoint) else before
    case LiveNote(path) => after == WithLiveNote(before, live.Some?, path)
    case SettingsSaved(_) => after == before
    case JobDue(due) =>
      if !due then after == before
      else WillFinish(before) ==>
             after.RowIs(Done) && after.job.None? && after.checkpoint.Absent? && after.marker.None?
    case CleanupDue => before.RowTerminal() && !before.checkpoint.Unreadable? ==> Owners(after) == {}
    case SweepDue(expired, ancient) => Swept(before, expired, ancient, after)
    case SiblingActs(audio) => after == before.(audio := audio)
    case PowerLoss => after == before
  }

  /** A recording that is expired, terminal and has nothing in the cloud loses its files and its job, and once it is
      ancient its row; any other stays as it is. */
  predicate Swept(before: Disk, expired: bool, ancient: bool, after: Disk) {
    if !expired || !before.RowTerminal() || UnresolvedStaging(before) then after == before
    else after == before.(audio := false, checkpoint := Absent, job := None, row := if ancient then None else before.row)
  }

  /** A live note is shown by the row, which is made for it if the session is owned. */
  function WithLiveNote(d: Disk, owned: bool, path: Path): Disk {
    if d.row.Some? then d.(row := Some(d.row.value.(note := Some(path))))
    else if owned then d.(row := Some(Row(Recording, Some(path), None)))
    else d
  }

  /** A live note that was filed is on record as final, or its recording has failed. */
  predicate LiveNoteOwned(outcome: Option<LiveOutcome>, d: Disk) {
    outcome.Some? && outcome.value.Filed? ==> Names(d, outcome.value.notePath) || d.RowIs(Failed)
  }

  datatype Message =
    | Deliver | RetryPressed | LiveNote(path: Path) | SettingsSaved(config: Config)
    | JobDue(due: bool) | CleanupDue | SweepDue(expired: bool, ancient: bool) | SiblingActs(audio: bool) | PowerLoss

  /** `manual_retry`: only a Failed recording whose recovery inputs survive; an unreadable checkpoint could
      hide another origin, so it refuses. */
  predicate Retryable(d: Disk) {
    d.RowIs(Failed) && (d.audio || d.checkpoint.Stored?) && !d.checkpoint.Unreadable?
  }

  /** `first` is what the first load of the checkpoint found. */
  function AfterManualRetry(d: Disk, first: CheckpointFile): Disk
    requires Retryable(d)
  {
    var status := if first.Stored? then PendingNote else PendingTranscription;
    var origin := if d.checkpoint.Stored? then d.checkpoint.value.origin
                  else if d.job.Some? then d.job.value.payload.origin else None;
    var payload := Payload(None, origin, false, false);
    var job :=
      if d.job.None? then Job(Pending, payload, 0, RETRY_MAX_ATTEMPTS)
      else
        var merged := MergePayload(d.job.value.payload, payload).(firstBatch := false);
        if d.job.value.phase.Parked? then Job(Pending, merged, 0, RETRY_MAX_ATTEMPTS)
        else d.job.value.(payload := merged);
    d.(row := Some(d.row.value.(status := status)), job := Some(job))
  }

  /** A manual retry keeps the note, the origin and the transcript that are on record. */
  lemma ManualRetryRemembers(d: Disk, first: CheckpointFile)
    requires Retryable(d)
    ensures Remembers(d, AfterManualRetry(d, first))
    ensures Secured(AfterManualRetry(d, first)) == Secured(d)
    ensures KeepsFinal(d, AfterManualRetry(d, first))
  {}

  /** What the retry arms: a new budget if nothing was active, and no first batch attempt. An old job keeps its note and
      its origin; a new one has the checkpoint's. The row waits for a note if the checkpoint was loaded, and else for a
      transcript. */
  lemma ManualRetryArms(d: Disk, first: CheckpointFile)
    requires Retryable(d)
    ensures var after := AfterManualRetry(d, first);
      && after == d.(row := after.row, job := after.job) && after.job.Some?
      && after.row == Some(d.row.value.(status := after.row.value.status))
      && (after.RowIs(PendingNote) <==> first.Stored?) && (after.RowIs(PendingTranscription) <==> !first.Stored?)
      && !after.job.value.payload.firstBatch && PayloadNote(after.job) == PayloadNote(d.job)
      && (d.JobActive() ==> after.job == Some(d.job.value.(payload := after.job.value.payload)))
      && (!d.JobActive() ==> after.job.value.phase.Pending? && after.job.value.attempts == 0 && after.job.value.max == 5)
      && after.job.value.payload.origin ==
           (if d.job.Some? then d.job.value.payload.origin
            else if d.checkpoint.Stored? then d.checkpoint.value.origin else None)
      && after.job.value.payload.captureFinished == (d.job.Some? && d.job.value.payload.captureFinished)
  {}

  // ---- startup ----

  const NOTHING_KNOWN: Payload := Payload(None, None, false, false)

  /** A running job is pending again, with the attempts it had. */
  function Recovered(d: Disk): Disk
    requires d.job.Some?
  {
    d.(job := Some(d.job.value.(phase := Pending)))
  }

  function Rearmed(d: Disk, status: Status): Disk
    requires d.row.Some?
  {
    d.(job := if d.job.None? then Some(Job(Pending, NOTHING_KNOWN, 0, RETRY_MAX_ATTEMPTS)) else d.job,
       row := Some(d.row.value.(status := status)))
  }

  function Resumed(d: Disk): Disk {
    if d.row.Some? && !d.RowTerminal() && d.checkpoint.Stored? then Rearmed(d, PendingNote) else d
  }

  function Reaped(d: Disk): Disk {
    if !d.RowIs(Recording) then d
    else if d.audio then Rearmed(d, PendingTranscription)
    else d.(row := Some(d.row.value.(status := Failed)))
  }

  /** What an untroubled start takes up: the running job, then a stored transcript of a recording that is not
      terminal, and then a recording that was cut off. */
  function AfterRestart(d: Disk): Disk {
    Reaped(Resumed(if d.JobRunning() then Recovered(d) else d))
  }

  /** Nothing that was running is lost, a stored transcript waits for its note, and a recording that was cut off waits for
      its transcript, or has failed if its audio is gone. What is newly armed has a full budget and no origin; everything
      else stays. */
  lemma RestartTakesUp(d: Disk)
    ensures var after := AfterRestart(d);
      var live := d.row.Some? && !d.RowTerminal();
      var revived := live && (d.checkpoint.Stored? || (d.RowIs(Recording) && d.audio));
      && after == d.(row := after.row, job := after.job)
      && (d.job.Some? ==>
            after.job == Some(d.job.value.(phase := if d.JobRunning() then Pending else d.job.value.phase)))
      && (d.job.None? ==>
            after.job == if revived then Some(Job(Pending, Payload(None, None, false, false), 0, 5)) else None)
      && (after.row.Some? <==> d.row.Some?)
      && (d.row.Some? ==>
            after.row == Some(d.row.value.(status :=
              if live && d.checkpoint.Stored? then PendingNote
              else if d.RowIs(Recording) then (if d.audio then PendingTranscription else Failed)
              else d.row.value.status)))
  {}

  // ---- rows and notes ----

  /** What a load of the checkpoint may find. */
  predicate MayLoad(file: CheckpointFile, loaded: CheckpointFile) {
    loaded == file || (file.Stored? && loaded.Unreadable?)
  }

  function PathOf(note: Option<OwnedNote>): Option<Path> {
    if note.Some? then Some(note.value.path) else None
  }

  /** The note that filing would use: the checkpoint's, or else the row's. */
  function Candidate(checkpoint: Checkpoint, queued: Option<Path>): Option<Path> {
    if checkpoint.note.Some? then Some(checkpoint.note.value.path) else queued
  }

  /** Two writes: the checkpoint names the final note before the row is Done. */
  predicate OwnedThenDone(before: Disk, owned: Checkpoint, after: Disk, was: seq<Effect>, now: seq<Effect>) {
    var middle := before.(checkpoint := Stored(owned));
    now == was + [Wrote(middle, Work), Wrote(after, Work)] && after == middle.(row := after.row)
  }

  /** The note that filing starts from: the checkpoint's, or else the row's as a partial one. */
  function FiledNote(d: Disk): Option<OwnedNote> {
    OrElse(CheckpointNote(d.checkpoint), if d.row.Some? then Partial(d.row.value.note) else None)
  }

  /** The row shows the note that the command answered with, or else the owned one; and the command was called exactly
      if the owned note is neither final nor, when last looked at, there. */
  predicate NoteUsed(owned: Option<OwnedNote>, answer: Option<Path>, notes: set<Path>, d: Disk) {
    && d.row.Some? && d.row.value.note.Some? && d.row.value.note == OrElse(answer, PathOf(owned))
    && (answer.None? <==> CanonicalNote(owned) || (owned.Some? && owned.value.path in notes))
  }

  // ---- names of attempts ----

  /** The name that an attempt has, or gets. */
  function NameFor(d: Disk): Option<AttemptName> {
    if d.row.None? then None else Named(d.row.value).attempt
  }

  function Named(row: Row): Row {
    if row.attempt.Some? then row else row.(attempt := Some(Ordinary))
  }

  predicate KeepsName(before: Disk, after: Disk) {
    before.row.Some? && after.row.Some? ==> after.row.value.attempt == before.row.value.attempt
  }

  /** The attempt has the name it had, or the given one; and that one for certain if so required. */
  predicate Renamed(before: Disk, after: Disk, name: Option<AttemptName>, certain: bool) {
    before.row.Some? && after.row.Some? ==>
      && after.row.value.attempt in {before.row.value.attempt, name}
      && (certain ==> after.row.value.attempt == name)
  }

  /** A claim that asks a backend for a recording that waits for its note does so under the other name, and for any
      other recording under the name that is there, or else the ordinary one. */
  predicate ClaimNamed(before: Disk, after: Disk, asked: bool) {
    Renamed(before, after, if before.RowIs(PendingNote) then Some(Compatibility) else NameFor(before), asked)
  }

  predicate ActionNamed(action: Action, before: Disk, after: Disk, asked: bool) {
    if !Decodes(action) then KeepsName(before, after)
    else Renamed(before, after, if action.Transcribe? then NameFor(before) else Some(Compatibility), asked)
  }

  // ---- what a claim did ----

  /** A capture that finished, but whose row still says that it is recording, waits for its transcript. */
  function Repaired(d: Disk, job: Job): Disk {
    if d.RowIs(Recording) && job.payload.captureFinished
    then d.(row := Some(d.row.value.(status := PendingTranscription))) else d
  }

  /** A backend was asked at most once, and only if it may be when no load finds a checkpoint; and if all went well
      without a checkpoint, then exactly if it may be. */
  ghost predicate AskedAs(d: Disk, job: Job, configured: Backend, before: Verdict, after: Verdict, r: Exec<Outcome>)
    requires d.row.Some?
  {
    var asked := after.arm != before.arm;
    && (asked ==> after.arm == OneMoreDecode(before.arm) && Asks(d, job, Unreadable, Unreadable, configured))
    && (r == Ran(Fine) && !d.checkpoint.Stored? ==> (asked <==> Asks(d, job, d.checkpoint, d.checkpoint, configured)))
  }

  ghost predicate ActedAs(action: Action, job: Job, configured: Backend, d: Disk, before: Verdict, after: Verdict,
                          r: Exec<Outcome>) {
    var asked := after.arm != before.arm;
    var may := Decodes(action) && SelectedBackend(ClaimedOrigin(job.payload, job.attempts), configured).Ok?;
    && (asked ==> after.arm == OneMoreDecode(before.arm) && may)
    && (r == Ran(Fine) && !d.checkpoint.Stored? && may ==> asked)
  }

  /** The recording is filed, with the owned note or the answered one, and nothing of the work is left. */
  predicate FiledWith(action: Action, owned: Option<OwnedNote>, before: Disk, answer: Option<Path>, notes: set<Path>,
                      after: Disk) {
    if action.MissingAudio? then
      before.row.Some? && after == before.(row := Some(before.row.value.(
        status := Failed, note := OrElse(PathOf(owned), before.row.value.note))))
    else
      && after.RowIs(Done) && NoteUsed(owned, answer, notes, after) && after.checkpoint.Absent? && after.marker.None?
      && after.audio == before.audio && after.job == before.job
  }

  /** What an action may do to a claimed recording, and how it ends. */
  ghost predicate Acted(action: Action, job: Job, configured: Backend, before: Disk, was: Verdict,
                        after: Disk, now: Verdict, r: Exec<Outcome>) {
    && WorkedOn(before, after) && was.written <= now.written && was.missed <= now.missed
    && (r == Ran(Fine) ==> JobSettled(after))
    && (action.Stale? ==> after == before)
    && (after.RowIs(Failed) ==> action.MissingAudio?)
    && (r == Ran(Fine) && !action.Stale? ==> if action.MissingAudio? then after.RowIs(Failed) else after.RowIs(Done))
    && (r == Ran(Fine) && action.FileCheckpoint? ==> now.missed == was.missed)
    && ActedAs(action, job, configured, before, was, now, r)
    && ActionNamed(action, before, after, now.arm != was.arm)
    && Kept(now.answer, r, after) && Reports(r, now.written, after)
  }

  /** Showing the owned note on the row is no part of any action. */
  lemma RepairIsNoAct(action: Action, owned: Option<OwnedNote>, job: Job, configured: Backend, before: Disk, was: Verdict,
                      mid: Disk, seen: Verdict, after: Disk, now: Verdict, r: Exec<Outcome>)
    requires before.row.Some? && SameVerdict(was, seen) && (action.Stale? ==> mid == before)
    requires mid == before || (owned.Some? && mid == before.(row := Some(before.row.value.(note := PathOf(owned)))))
    requires Acted(action, job, configured, mid, seen, after, now, r)
    ensures Acted(action, job, configured, before, was, after, now, r)
    ensures forall answer, notes ::
      FiledWith(action, owned, mid, answer, notes, after) ==> FiledWith(action, owned, before, answer, notes, after)
  {
    hide JobSettled, Kept, Reports;
  }

  /** Done with the note that is owned or was answered, and neither a checkpoint nor a marker is left. */
  predicate FiledNow(before: Disk, job: Job, answer: Option<Path>, notes: set<Path>, after: Disk)
    requires before.row.Some?
  {
    var owned := AuthoritativeNote(CheckpointNote(before.checkpoint), job.payload.note, before.row.value.note);
    && after.RowIs(Done) && NoteUsed(owned, answer, notes, after) && after.checkpoint.Absent? && after.marker.None?
    && after.audio == before.audio
  }

  /** What a smooth claim of a recording that waits leaves: a filed recording, or, with nothing to file, a failed one. */
  predicate FiledOrFailed(before: Disk, job: Job, answer: Option<Path>, notes: set<Path>, after: Disk)
    requires before.row.Some?
  {
    var owned := AuthoritativeNote(CheckpointNote(before.checkpoint), job.payload.note, before.row.value.note);
    FiledWith(if Recoverable(before) then FileCheckpoint else MissingAudio, owned, before, answer, notes, after)
  }

  /** Whatever the note command answered with is owned: by the Done row after a success, by the checkpoint or the
      error after a failure. */
  predicate Kept(answer: Option<Path>, r: Exec<Outcome>, d: Disk) {
    answer.Some? ==>
      && !CanonicalNote(PayloadNote(d.job))
      && (r == Ran(Fine) ==> d.RowIs(Done) && d.row.value.note == answer)
      && (r.Ran? && r.value.Fails? ==>
            r.value.note == Some(OwnedNote(answer.value, true)) ||
            CheckpointNote(d.checkpoint) == Some(OwnedNote(answer.value, true)))
  }

  /** Once the job is settled, something durable names what the note command answered with. */
  predicate Answered(answer: Option<Path>, d: Disk) {
    answer.Some? && !d.JobRunning() ==> Names(d, answer.value)
  }

  /** The checkpoint or the payload names the answer. */
  predicate NamedBy(file: CheckpointFile, job: Option<Job>, answer: Option<Path>) {
    answer.Some? ==>
      || CheckpointNote(file) == Some(OwnedNote(answer.value, true))
      || PayloadNote(job) == Some(OwnedNote(answer.value, true))
  }

  function Settled(job: Job, payload: Payload, phase: Phase): Job {
    job.(phase := phase, payload := MergePayload(job.payload, payload))
  }

  lemma KeptIsNamed(d: Disk, job: Job, outcome: Outcome, answer: Option<Path>)
    requires d.job == Some(job) && outcome.Fails? && Kept(answer, Ran(outcome), d)
    ensures var payload := if outcome.note.Some? then job.payload.(note := outcome.note) else job.payload;
      forall phase :: NamedBy(d.checkpoint, Some(Settled(job, payload, phase)), answer)
  {}

  /** The row ends Done, or its note stays; it does not fail. */
  predicate KeepsNote(before: Disk, after: Disk) {
    && (before.row.Some? && after.row.Some? ==> after.RowIs(Done) || after.row.value.note == before.row.value.note)
    && (after.RowIs(Failed) ==> before.RowIs(Failed))
  }

  /** The checkpoint's origin stays, unless the recording is done. */
  predicate KeepsOrigin(before: Disk, after: Disk) {
    before.checkpoint.Stored? ==>
      after.RowIs(Done) || (after.checkpoint.Stored? && after.checkpoint.value.origin == before.checkpoint.value.origin)
  }

  /** The row shows the path, or it is Done, or it failed and shows the note of the checkpoint. */
  predicate Shows(d: Disk, path: Path) {
    d.row.Some? &&
    (d.RowIs(Done) || d.row.value.note == Some(path) ||
     (d.RowIs(Failed) && CheckpointNote(d.checkpoint).Some? && d.row.value.note == PathOf(CheckpointNote(d.checkpoint))))
  }

  /** After a change by a claim that is not stale, the row shows the note that was owned before, if any. */
  predicate ShowsOwned(before: Disk, job: Job, loaded: CheckpointFile, after: Disk)
    requires before.row.Some?
  {
    var row := before.row.value;
    var owned := AuthoritativeNote(CheckpointNote(loaded), job.payload.note, row.note);
    var action := Dispatch(row.status, loaded, job.payload.note, row.note, before.audio);
    owned.Some? && !action.Stale? ==> Shows(after, owned.value.path)
  }

  /** `fail_with_note`: the row fails, keeping the note that is known, the checkpoint's first. */
  function AfterFailure(d: Disk, known: Option<OwnedNote>, preferred: Option<OwnedNote>): Disk
    requires d.row.Some?
  {
    var row := d.row.value;
    var note := OrElse(known, OrElse(preferred, Partial(row.note)));
    d.(row := Some(row.(status := Failed, note := if note.Some? then Some(note.value.path) else row.note)))
  }

  /** The row has failed, and shows the note of the checkpoint, or else the preferred one, or else its own. */
  predicate FailedShowing(before: Disk, preferred: Option<OwnedNote>, after: Disk) {
    before.row.Some? &&
    after == before.(row := Some(before.row.value.(
      status := Failed,
      note := OrElse(PathOf(CheckpointNote(before.checkpoint)), OrElse(PathOf(preferred), before.row.value.note)))))
  }

  /** The failure with the checkpoint's note, or, if its load failed, without it. */
  predicate FailedAs(before: Disk, preferred: Option<OwnedNote>, after: Disk) {
    before.row.Some? && after.row.Some? &&
    var own, note := OrElse(PathOf(preferred), before.row.value.note), after.row.value.note;
    && after == before.(row := Some(before.row.value.(status := Failed, note := note)))
    && (note == OrElse(PathOf(CheckpointNote(before.checkpoint)), own) || (before.checkpoint.Stored? && note == own))
  }

  /** `retry_status`: a filing failure stays PendingNote, anything else goes back to transcription. */
  function RetryStatus(d: Disk): Status {
    if d.RowIs(PendingNote) || d.checkpoint.Stored? then PendingNote else PendingTranscription
  }

  /** A row that waits says for what: for its note, if it did so before or has a transcript, and else for a transcript. */
  predicate BackedOff(before: Disk, after: Disk) {
    if before.row.None? || before.RowTerminal() then after.row == before.row
    else
      var status := if before.RowIs(PendingNote) || before.checkpoint.Stored? then PendingNote else PendingTranscription;
      after.row == Some(before.row.value.(status := status))
  }

  /** The payload with which a failed job is settled: it takes over the note that only the error names. */
  function SettledPayload(job: Job, outcome: Outcome): Payload
    requires outcome.Fails?
  {
    if outcome.note.Some? then MergePayload(job.payload, job.payload.(note := outcome.note)) else job.payload
  }

  /** Whatever went wrong besides: a failed job with budget left is neither parked nor ends its recording, and one
      without is parked only when its recording is terminal. Its attempts stay counted. */
  predicate FailureKeeps(before: Disk, job: Job, outcome: Outcome, after: Disk)
    requires outcome.Fails?
  {
    && after.job.Some?
    && (after.job.value == job || after.job.value == job.(phase := after.job.value.phase,
                                                         payload := SettledPayload(job, outcome)))
    && (job.attempts < job.max ==>
          !after.job.value.phase.Parked? && (before.RowTerminal() || after.RowTerminal() ==> after.row == before.row))
    && (after.job.value.phase.Parked? ==> after.RowTerminal())
  }

  /** How a failed job is settled: with budget left it is pending again and its row waits; without, its recording has
      failed, unless it was terminal, and the job is parked. */
  predicate FailureSettled(before: Disk, job: Job, outcome: Outcome, after: Disk)
    requires outcome.Fails?
  {
    var phase := if job.attempts < job.max then Pending else Parked;
    && after.job == Some(job.(phase := phase, payload := SettledPayload(job, outcome)))
    && (if job.attempts < job.max then BackedOff(before, after)
        else if before.RowTerminal() then after.row == before.row
        else before.row.Some? &&
             FailedShowing(before, if outcome.note.Some? then outcome.note else job.payload.note, after.(job := before.job)))
  }

  /** A pending job with budget left, for a recording that can be filed. */
  predicate WillFinish(d: Disk) {
    d.job.Some? && d.job.value.phase.Pending? && d.job.value.attempts < d.job.value.max &&
    !d.checkpoint.Unreadable? && Waiting(d, d.job.value) && Recoverable(d)
  }

  /** What stops a claimed job without any trouble: a row that failed meanwhile, a checkpoint that cannot be
      read, or a spent budget. */
  predicate CannotGoOn(d: Disk, job: Job) {
    d.RowIs(Failed) || d.checkpoint.Unreadable? || job.attempts > job.max
  }

  /** The row still waits for a transcript or a note, or its capture finished without having been delivered. */
  predicate Waiting(d: Disk, job: Job) {
    d.row.Some? && !d.RowTerminal() && (d.RowIs(Recording) ==> job.payload.captureFinished)
  }

  /** Something is left to make a note from. */
  predicate Recoverable(d: Disk) {
    d.audio || d.checkpoint.Stored? || CanonicalNote(PayloadNote(d.job))
  }

  /** The same for a claim during which so many loads failed: a checkpoint alone must load every time. */
  predicate Salvageable(d: Disk, missed: nat) {
    d.audio || CanonicalNote(PayloadNote(d.job)) || (d.checkpoint.Stored? && missed == 0)
  }

  /** What the choice of the action says about the recording. */
  lemma ActionFacts(d: Disk, job: Job, loaded: CheckpointFile, noted: Option<Path>, owned: Option<OwnedNote>,
                    action: Action)
    requires d.row.Some? && d.job == Some(job) && !d.RowIs(Failed) && MayLoad(d.checkpoint, loaded)
    requires action == Dispatch(d.row.value.status, loaded, job.payload.note, noted, d.audio)
    requires owned == AuthoritativeNote(CheckpointNote(loaded), job.payload.note, noted)
    ensures !action.Stale? ==> !d.RowIs(Done)
    ensures action.Stale? ==> d.RowIs(Done) || (d.RowIs(Recording) && !CanonicalNote(job.payload.note))
    ensures owned.None? ==> noted.None?
    ensures action.FileCheckpoint? ==>
      && loaded == d.checkpoint && d.checkpoint.Stored? && (CanonicalNote(job.payload.note) ==> CanonicalNote(owned))
      && (if d.checkpoint.value.note.Some? then owned == d.checkpoint.value.note else !CanonicalNote(owned))
    ensures action.CompleteCanonicalNote? ==>
      CanonicalNote(owned) && owned == job.payload.note && !CanonicalNote(CheckpointNote(loaded))
    ensures Decodes(action) || action.MissingAudio? ==>
      !loaded.Stored? && !CanonicalNote(job.payload.note) && !CanonicalNote(owned)
    ensures action.TranscribeLegacyPendingNote? ==> d.RowIs(PendingNote)
    ensures action.MissingAudio? ==> !d.audio
  {}

  lemma DispatchFacts(d: Disk, job: Job, loaded: CheckpointFile, written: set<Path>)
    requires d.row.Some? && d.job == Some(job) && CanonicalIsWritten(d, written) && MayLoad(d.checkpoint, loaded)
    ensures var row := d.row.value;
      var action := Dispatch(row.status, loaded, job.payload.note, row.note, d.audio);
      && OwnsWritten(AuthoritativeNote(CheckpointNote(loaded), job.payload.note, row.note), written)
      && (d.RowTerminal() ==> action.Stale?)
      && (!d.RowTerminal() && !row.status.Recording? ==>
            !action.Stale? && (action.MissingAudio? <==> !Recoverable(d.(checkpoint := loaded))))
      && (!d.audio && !CanonicalNote(PayloadNote(d.job)) ==>
            action.FileCheckpoint? || action.MissingAudio? || action.Stale?)
      && (row.status.Recording? ==> !action.MissingAudio?)
  {}

  /** A claim that has neither called a backend, nor filed a note, nor failed to load a checkpoint yet. */
  predicate JustClaimed(v: Verdict) {
    v.arm.Some? && v.arm.value.decodes < v.arm.value.claims && v.answer.None? && v.missed == 0
  }

  /** The job may be deleted: nothing waits for it, and it is not the only place that names a canonical note. */
  predicate JobSettled(d: Disk) {
    d.row.None? || (d.row.value.status.AtRest() && (Secured(d) ==> Secured(d.(job := None))))
  }

  /** An error names a note only if its final body was written, and no other final note is on record. */
  predicate Reports(r: Exec<Outcome>, written: set<Path>, d: Disk) {
    r.Ran? && r.value.Fails? && r.value.note.Some? ==>
      r.value.note.value.canonical && r.value.note.value.path in written && Unopposed(r.value.note, d)
  }

  lemma StoredStaysFree(d: Disk, c: Checkpoint, path: Path)
    requires (Coherent(d) ==> Free(d, path)) && c.note == Some(OwnedNote(path, true))
    ensures KeepsFinal(d, d.(checkpoint := Stored(c)))
    ensures var after := d.(checkpoint := Stored(c)); Coherent(after) ==> Free(after, path)
  {}

  lemma CompletedStaysFree(d: Disk, path: Path)
    requires (Coherent(d) ==> Free(d, path)) && d.row.Some?
    ensures var after := d.(row := Some(d.row.value.(status := Done, note := Some(path))));
      KeepsFinal(d, after) && (Coherent(after) ==> Free(after, path))
  {}

  lemma CleanupKeepsFree(before: Disk, after: Disk, path: Path)
    requires SameButStaging(before, after) && (Coherent(before) ==> Free(before, path))
    ensures Coherent(after) ==> Free(after, path)
  {}

  /** The checkpoint's own final note, and any note at all if none is on record, may be filed. */
  lemma FiledIsFree(d: Disk, path: Path)
    requires d.row.Some? && d.checkpoint.Stored?
    requires Secured(d) ==> CanonicalNote(d.checkpoint.value.note)
    requires CanonicalNote(d.checkpoint.value.note) ==> path == d.checkpoint.value.note.value.path
    ensures Coherent(d) ==> Free(d, path)
  {}

  lemma PayloadIsUnopposed(d: Disk, job: Job, outcome: Outcome)
    requires d.job == Some(job) && outcome.Fails? && Unopposed(outcome.note, d)
    ensures Unopposed(if outcome.note.Some? then outcome.note else job.payload.note, d)
  {}

  lemma UnopposedBeyondRow(before: Disk, after: Disk, note: Option<OwnedNote>)
    requires after == before.(row := after.row) && (before.RowTerminal() || after.RowIs(Done) ==> after == before)
    requires Unopposed(note, before)
    ensures Unopposed(note, after)
  {}

  lemma MergedKeepsFinal(d: Disk, payload: Payload, merged: Job)
    requires d.job.Some? && merged.payload == MergePayload(d.job.value.payload, payload) && Unopposed(payload.note, d)
    ensures KeepsFinal(d, d.(job := Some(merged)))
  {}

  /** A final note may go on record: in a coherent state it is the only one. */
  predicate Unopposed(note: Option<OwnedNote>, d: Disk) {
    CanonicalNote(note) && Coherent(d) ==> Free(d, note.value.path)
  }

  predicate OwnsWritten(note: Option<OwnedNote>, written: set<Path>) {
    CanonicalNote(note) ==> note.value.path in written
  }

  /** Nothing that loads says that this recording was transcribed or filed, and its job is running. */
  predicate ReadyToTranscribe(d: Disk, missed: nat) {
    d.row.Some? && !d.RowTerminal() && d.JobActive() && LooksUntranscribed(d, missed)
  }

  function OneMoreDecode(arm: Option<Arm>): Option<Arm> {
    if arm.Some? then Some(arm.value.(decodes := arm.value.decodes + 1)) else None
  }

  /** The claim behind `origin` still has its one backend call. */
  predicate MayDecode(arm: Option<Arm>, origin: RetryOrigin) {
    && arm.Some? && !origin.Fresh? && arm.value.origin == FirstBackend(origin, Local)
    && arm.value.decodes < arm.value.claims <= arm.value.max
    && (origin.RecordedFirst? ==> arm.value.claims == 1 && arm.value.first)
  }

  /** A job run touches the row, the checkpoint and the marker; the row ends done, failed or waiting. */
  predicate WorkedOn(before: Disk, after: Disk) {
    && after == before.(checkpoint := after.checkpoint, row := after.row, marker := after.marker)
    && (after.row.Some? <==> before.row.Some?)
  }

  lemma SecuredAfterCleanup(before: Disk, after: Disk)
    requires SameButStaging(before, after) && before.checkpoint.Stored?
    ensures after.checkpoint.Stored? && after.checkpoint.value.note == before.checkpoint.value.note
    ensures Secured(after) == Secured(before)
  {}

  lemma SecuredIgnoresStaging(d: Disk)
    requires d.checkpoint.Stored?
    ensures Secured(d.(checkpoint := Stored(d.checkpoint.value.(staging := None)))) == Secured(d)
    ensures CanonicalNote(d.checkpoint.value.note) ==> CanonicalNote(CheckpointNote(d.checkpoint))
  {}

  /** The row may take a status: no parked or missing job is left behind by work that needs one. */
  predicate MayBe(d: Disk, arm: Option<Arm>, status: Status) {
    && (status.Done? ==> d.RowIs(Done))
    && (arm.Some? && !status.AtRest() ==> d.JobActive())
    && (d.job.Some? && d.job.value.phase.Parked? ==> status.Terminal())
  }

  /** Only the disk part of the verdict differs. */
  ghost predicate SameVerdict(before: Verdict, after: Verdict) {
    after == before.(disk := after.disk)
  }

  /** Besides, loads may have failed. */
  ghost predicate SameButMissed(before: Verdict, after: Verdict) {
    after == before.(disk := after.disk, missed := after.missed) && before.missed <= after.missed
  }

  /** Besides, remote objects may be gone. */
  ghost predicate SameButRemote(before: Verdict, after: Verdict) {
    && after == before.(disk := after.disk, missed := after.missed, remote := after.remote)
    && before.missed <= after.missed && after.remote <= before.remote
  }

  /** Besides the disk, only orphans may have been added. */
  ghost predicate SameButOrphans(before: Verdict, after: Verdict) {
    after == before.(disk := after.disk, orphans := after.orphans) && before.orphans <= after.orphans
  }

  /** Filing: notes were written, remote objects removed, and loads may have failed. */
  ghost predicate Filing(before: Verdict, after: Verdict) {
    && after.arm == before.arm && after.orphans == before.orphans
    && before.written <= after.written && before.missed <= after.missed && after.remote <= before.remote
  }

  /** Besides, a checkpoint that could not be loaded may have been lost. */
  ghost predicate Publishing(before: Verdict, after: Verdict) {
    && after.arm == before.arm && before.orphans <= after.orphans
    && before.written <= after.written && before.missed <= after.missed && after.remote <= before.remote
  }

  /** Besides, a backend may have been asked. */
  ghost predicate Working(before: Verdict, after: Verdict) {
    before.orphans <= after.orphans && before.written <= after.written && before.missed <= after.missed
  }

  /** It went well, and no load failed. */
  ghost predicate Well(r: Exec<Outcome>, before: Verdict, after: Verdict) {
    r == Ran(Fine) && after.missed == before.missed
  }

  /** Right after its cleanup, no load of the checkpoint shows any staging. */
  lemma NoStagingLeft(d: Disk, loaded: CheckpointFile)
    requires MayLoad(d.checkpoint, loaded)
    ensures Owners(d) == {} && loaded.Stored? ==> loaded.value.staging.None?
  {
    if loaded.Stored? && loaded.value.staging.Some? {
      assert loaded.value.staging.value in Owners(d);
    }
  }

  /** Only owners were forgotten. */
  predicate SameButStaging(before: Disk, after: Disk) {
    && after == before.(checkpoint := after.checkpoint, marker := after.marker)
    && (after.marker == before.marker || after.marker.None?)
    && (after.checkpoint == before.checkpoint ||
        (before.checkpoint.Stored? && after.checkpoint == Stored(before.checkpoint.value.(staging := None))))
  }

  /** Only the row's note and Done, and the checkpoint, changed. */
  predicate SameButFiling(before: Disk, after: Disk) {
    && after == before.(checkpoint := after.checkpoint, row := after.row, marker := after.marker)
    && (after.row == before.row ||
        (before.row.Some? && after.RowIs(Done) &&
         after.row == Some(before.row.value.(status := Done, note := after.row.value.note))))
  }

  /** A live outcome exists only before the first delivery of its recording, when no other final note is on record. */
  ghost predicate LiveFresh(live: Option<LiveOutcome>, v: Verdict) {
    live.Some? ==>
      && v.disk.job.None? && v.arm.None?
      && (v.disk.row.Some? ==> v.disk.RowIs(Recording) || v.disk.RowIs(PendingTranscription))
      && (live.value.Filed? ==> live.value.notePath in v.written && Free(v.disk, live.value.notePath))
  }
}
