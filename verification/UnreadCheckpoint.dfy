/** The one way to transcribe a recording again whose transcript is on record: its checkpoint is intact, but two
    loads of it fail within one claim, the one that chooses the action and the one right before the backend. */
module UnreadCheckpoint {
  import opened Wrappers
  import opened RecordingState
  import opened RetryPolicy
  import opened FilingHistory
  import opened FilingPipeline

  /** With a transcript on record a backend is asked exactly if both loads fail, no retry payload owns a final note,
      there is audio, the row waits for a transcript or a note, the budget is not spent, and the configured backend is
      the one on record. */
  lemma DecodedAgainExactly(d: Disk, job: Job, first: CheckpointFile, second: CheckpointFile, configured: Backend)
    requires d.row.Some? && d.job == Some(job) && Transcribed(d)
    requires MayLoad(d.checkpoint, first) && MayLoad(d.checkpoint, second)
    ensures Asks(d, job, first, second, configured) <==>
      && first.Unreadable? && second.Unreadable? && d.checkpoint.Stored?
      && !CanonicalNote(job.payload.note) && d.audio
      && (d.RowIs(PendingTranscription) || d.RowIs(Transcribing) || d.RowIs(PendingNote))
      && job.attempts <= job.max && job.payload.origin == Some(configured)
  {
    AsksExactly(d, job, first, second, configured);
  }

  // A recording whose canonical note "n" only the checkpoint names, claimed by its second attempt.

  const PAYLOAD: Payload := Payload(None, Some(Local), false, true)
  const FILED: Checkpoint := Checkpoint(Some(OwnedNote("n", true)), None, Some(Local))
  const CLAIMED: Disk :=
    Disk(Some(Row(PendingNote, Some("n"), Some(Ordinary))), Some(Job(Running, PAYLOAD, 2, 6)), Stored(FILED), None, true)
  const RENAMED: Disk := CLAIMED.(row := Some(Row(PendingNote, Some("n"), Some(Compatibility))))
  const ASKING: Disk := CLAIMED.(row := Some(Row(Transcribing, Some("n"), Some(Compatibility))))
  const AGAIN: Disk := ASKING.(checkpoint := Stored(Checkpoint(Some(OwnedNote("n", false)), None, Some(Local))))
  const PROMOTED: Disk := AGAIN.(row := RENAMED.row)

  /** The first load fails, the row's note is repaired and the attempt renamed, the second load fails, the backend is
      asked, the new checkpoint is stored and the row promoted. */
  const RUN: seq<Effect> := [
    Misread, Wrote(CLAIMED, Work), Wrote(RENAMED, Work), Misread, Wrote(ASKING, Work), Decoded(Local, 0, false),
    Wrote(AGAIN, Overwriting), Wrote(PROMOTED, Work), NoteRequested]

  function Seen(d: Disk, decodes: nat, missed: nat): Verdict {
    Verdict(d, Some(Arm(Some(Local), 6, false, 2, decodes)), {"n"}, {}, None, missed, {})
  }

  const V0: Verdict := Seen(CLAIMED, 1, 0)

  /** The verdict before each effect, and at the end. */
  const VERDICTS: seq<Verdict> := [
    V0, Seen(CLAIMED, 1, 1), Seen(CLAIMED, 1, 1), Seen(RENAMED, 1, 1), Seen(RENAMED, 1, 2), Seen(ASKING, 1, 2),
    Seen(ASKING, 2, 2), Seen(AGAIN, 2, 2), Seen(PROMOTED, 2, 2), Seen(PROMOTED, 2, 2)]

  predicate Step(n: nat)
    requires n < 9
  {
    && Allowed(VERDICTS[n], RUN[n]) && Advance(VERDICTS[n], RUN[n]) == VERDICTS[n + 1]
    && Sound(VERDICTS[n + 1])
  }

  lemma FirstLoad()
    ensures Sound(V0) && Step(0) && Step(1)
  {}

  lemma SecondLoad()
    ensures Step(2) && Step(3)
  {}

  lemma Asking()
    ensures Step(4) && Step(5)
  {}

  lemma Overwritten()
    ensures Step(6)
  {}

  lemma FiledAgain()
    ensures Step(7) && Step(8)
  {}

  lemma {:induction false} RunIsLawful(n: nat)
    requires n <= 9 && Sound(V0) && forall k :: 0 <= k < 9 ==> Step(k)
    ensures Lawful(V0, RUN[..n]) && Judge(V0, RUN[..n]) == VERDICTS[n]
  {
    hide Allowed, Sound, Advance;
    if n == 0 {
      assert RUN[..0] == [];
    } else {
      RunIsLawful(n - 1);
      var before := RUN[..n - 1];
      assert before + [RUN[n - 1]] == RUN[..n];
      assert Step(n - 1);
      Extends(V0, before, RUN[n - 1]);
    }
  }

  /** The concrete run: the transcript is made again, the new checkpoint knows "n" only as a partial note, and since
      "n" was moved meanwhile the note command is called for a recording that has a final note. */
  lemma UnreadCheckpointIsDecodedAgain()
    ensures Transcribed(V0.disk) && Secured(V0.disk) && Lawful(V0, RUN)
    ensures Asks(CLAIMED, CLAIMED.job.value, Unreadable, Unreadable, Local)
  {
    FirstLoad();
    SecondLoad();
    Asking();
    Overwritten();
    FiledAgain();
    hide Step, Sound;
    RunIsLawful(9);
    assert RUN[..9] == RUN;
  }
}
