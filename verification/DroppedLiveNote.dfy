/** How a note that the live session filed can be filed again: the delivery of its recording cannot be enqueued, and
    the live outcome, the only thing that knows that the note is final, is dropped.

    The row is there already, because the live note was put on it during the recording; the next start revives it as
    a recording of which only a partial note is known. */
module DroppedLiveNote {
  import opened Wrappers
  import opened RecordingState
  import opened RetryPolicy
  import opened FilingHistory
  import opened FilingPipeline

  /** What the next start arms, claimed. */
  function Revived(d: Disk): Disk
    requires d.RowIs(Recording) && d.audio && d.job.None?
  {
    var armed := AfterRestart(d);
    armed.(job := Some(armed.job.value.(phase := Running, attempts := armed.job.value.attempts + 1)))
  }

  /** The revived recording is dispatched as one without any transcript or final note, exactly if its checkpoint says
      nothing else, and no configured backend may be asked: no origin is on record. */
  lemma RevivedIsRefused(d: Disk, configured: Backend)
    requires d.RowIs(Recording) && d.audio && d.job.None?
    ensures var again := Revived(d);
      var action := Dispatch(again.row.value.status, d.checkpoint, PayloadNote(again.job), again.row.value.note, true);
      && (Decodes(action) <==> !d.checkpoint.Stored?)
      && FinalPath(again) == CanonicalPath(CheckpointNote(d.checkpoint))
      && SelectedBackend(ClaimedOrigin(again.job.value.payload, 1), configured).Err?
  {}

  // A recording whose live note "n" has its final body, right after its outcome was dropped.

  const DROPPED: Disk := Disk(Some(Row(Recording, Some("n"), None)), None, Absent, None, true)
  const ARMED: Disk := DROPPED.(job := Some(Job(Pending, NOTHING_KNOWN, 0, RETRY_MAX_ATTEMPTS)))
  const WAITING: Disk := ARMED.(row := Some(Row(PendingTranscription, Some("n"), None)))
  const CLAIMED: Disk := Revived(DROPPED)
  const REFUSED: Disk := CLAIMED.(checkpoint := Stored(Checkpoint(Some(OwnedNote("n", false)), None, None)))
  const PROMOTED: Disk := REFUSED.(row := Some(Row(PendingNote, Some("n"), None)))

  /** The start arms the recording and repairs its row, the job is claimed and the row's note repaired, the attempt is
      refused with the note as a partial one, the row is promoted, and the checkpoint is filed. */
  const RUN: seq<Effect> := [
    Wrote(ARMED, Work), Wrote(WAITING, Work), Wrote(CLAIMED, Work), Wrote(CLAIMED, Work), Wrote(REFUSED, Work),
    Wrote(PROMOTED, Work), NoteRequested]

  function Seen(d: Disk, claims: nat): Verdict {
    Verdict(d, Some(Arm(None, RETRY_MAX_ATTEMPTS, false, claims, 0)), {"n"}, {}, None, 0, {})
  }

  const V0: Verdict := Verdict(DROPPED, None, {"n"}, {}, None, 0, {})

  /** The verdict before each effect, and at the end. */
  const VERDICTS: seq<Verdict> := [
    V0, Seen(ARMED, 0), Seen(WAITING, 0), Seen(CLAIMED, 1), Seen(CLAIMED, 1), Seen(REFUSED, 1), Seen(PROMOTED, 1),
    Seen(PROMOTED, 1)]

  predicate Step(n: nat)
    requires n < 7
  {
    && Allowed(VERDICTS[n], RUN[n]) && Advance(VERDICTS[n], RUN[n]) == VERDICTS[n + 1]
    && Sound(VERDICTS[n + 1])
  }

  lemma Arming()
    ensures Sound(V0) && Step(0) && Step(1)
  {}

  lemma Claiming()
    ensures Step(2) && Step(3)
  {}

  lemma Refusing()
    ensures Step(4)
  {}

  lemma Filing()
    ensures Step(5) && Step(6)
  {}

  lemma {:induction false} RunIsLawful(n: nat)
    requires n <= 7 && Sound(V0) && forall k :: 0 <= k < 7 ==> Step(k)
    ensures Lawful(V0, RUN[..n]) && Judge(V0, RUN[..n]) == VERDICTS[n]
  {
    hide Allowed, Sound, Advance;
    if n == 0 {
      assert RUN[..0] == [];
    } else {
      RunIsLawful(n - 1);
      var before := RUN[..n - 1];
      assert before + [RUN[n - 1]] == RUN[..n];
      assert Step(n - 1);
      Extends(V0, before, RUN[n - 1]);
    }
  }

  /** The concrete run: a lawful history at the start of which "n" has its final body, and at the end of which, "n"
      having been moved, the note command is called for the same recording. */
  lemma DroppedLiveNoteIsFiledAgain()
    ensures "n" in V0.written && LiveFresh(Some(Filed("n")), V0) && Lawful(V0, RUN) && RUN[6] == NoteRequested
  {
    Arming();
    Claiming();
    Refusing();
    Filing();
    hide Step, Sound;
    RunIsLawful(7);
    assert RUN[..7] == RUN;
  }
}
