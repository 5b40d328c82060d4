/** How a completed note can be lost: a terminal failure written over a Done row.

    A delivery whose arming fails marks its recording Failed whatever the row says. For a recording that was
    already done this forgets the note, so the promise that no second note is requested holds for it exactly
    when a checkpoint or a retry payload still names the note. */
module ReopenedRecording {
  import opened Wrappers
  import opened RecordingState
  import opened RetryPolicy
  import opened FilingHistory
  import opened FilingPipeline

  /** What the retried job would do. */
  function NextAction(d: Disk): Action
    requires d.row.Some?
  {
    Dispatch(d.row.value.status, d.checkpoint, PayloadNote(d.job), d.row.value.note, d.audio)
  }

  /** The next claim of the job. */
  function Claimed(job: Job): Job { job.(phase := Running, attempts := job.attempts + 1) }

  /** After the failure exactly the checkpoint and the retry payload still own the note, and completion has removed
      both; a manual retry brings nothing back. Its first claim then dispatches a transcription exactly if there is
      audio and neither owner is left, and it asks a backend exactly if, besides, the old job is still there with the
      configured backend as its origin and, unless it was parked, with budget. */
  lemma ReopeningForgets(d: Disk, known: Option<OwnedNote>, preferred: Option<OwnedNote>, configured: Backend)
    requires d.RowIs(Done)
    ensures Reopens(d, AfterFailure(d, known, preferred))
    ensures Secured(AfterFailure(d, known, preferred)) <==>
      (CanonicalNote(CheckpointNote(d.checkpoint)) || CanonicalNote(PayloadNote(d.job)))
    ensures Retryable(AfterFailure(d, known, preferred)) ==>
      var again := AfterManualRetry(AfterFailure(d, known, preferred), d.checkpoint);
      var unowned := d.audio && !d.checkpoint.Stored? && !CanonicalNote(PayloadNote(d.job));
      && Secured(again) == Secured(AfterFailure(d, known, preferred))
      && (Decodes(NextAction(again)) <==> unowned)
      && (Asks(again, Claimed(again.job.value), d.checkpoint, d.checkpoint, configured) <==>
            && unowned && d.job.Some? && d.job.value.payload.origin == Some(configured)
            && (d.job.value.phase.Parked? || d.job.value.attempts < d.job.value.max))
  {
    var failed := AfterFailure(d, known, preferred);
    if Retryable(failed) {
      var again := AfterManualRetry(failed, d.checkpoint);
      AsksExactly(again, Claimed(again.job.value), d.checkpoint, d.checkpoint, configured);
    }
  }

  // A recording that was completed with note "n" and cleaned up, and what becomes of it.

  const COMPLETED: Disk := Disk(Some(Row(Done, Some("n"), Some(Ordinary))), None, Absent, None, true)
  const FAILED: Disk := AfterFailure(COMPLETED, None, None)
  const RETRIED: Disk := AfterManualRetry(FAILED, Absent)
  const CLAIMED: Disk := RETRIED.(job := Some(RETRIED.job.value.(phase := Running, attempts := 1)))
  const REFUSED: Disk := CLAIMED.(checkpoint := Stored(Checkpoint(Some(OwnedNote("n", false)), None, None)))
  const PROMOTED: Disk := REFUSED.(row := Some(REFUSED.row.value.(status := PendingNote)))

  /** Every decision on the way is forced: the retry is allowed, the job transcribes, and because the origin
      went with the job, no configured backend may be used. */
  lemma ReopenedDecisions(configured: Backend)
    ensures Retryable(FAILED)
    ensures NextAction(CLAIMED) == Transcribe && !Asks(CLAIMED, CLAIMED.job.value, Absent, Absent, configured)
    ensures SelectedBackend(ClaimedOrigin(CLAIMED.job.value.payload, 1), configured).Err?
    ensures !Secured(PROMOTED)
  {}

  const V0: Verdict := Verdict(COMPLETED, None, {"n"}, {}, None, 0, {})
  const V1: Verdict := Advance(V0, Wrote(FAILED, Reopening))
  const V2: Verdict := Advance(V1, Wrote(RETRIED, Work))
  const V3: Verdict := Advance(V2, Wrote(CLAIMED, Work))
  const V4: Verdict := Advance(V3, Wrote(REFUSED, Work))
  const V5: Verdict := Advance(V4, Wrote(PROMOTED, Work))

  lemma FailureAndRetry()
    ensures Sound(V0) && Allowed(V0, Wrote(FAILED, Reopening)) && Sound(V1)
    ensures Allowed(V1, Wrote(RETRIED, Work)) && Sound(V2)
  {}

  lemma ClaimAndRefusal()
    ensures Allowed(V2, Wrote(CLAIMED, Work)) && Sound(V3)
    ensures Allowed(V3, Wrote(REFUSED, Work)) && Sound(V4)
  {}

  lemma PromotionAndFiling()
    ensures Allowed(V4, Wrote(PROMOTED, Work)) && Sound(V5)
    ensures Allowed(V5, NoteRequested) && Sound(Advance(V5, NoteRequested))
  {}

  /** The concrete run: a duplicate delivery fails to arm, the user retries, the attempt is refused, and since
      "n" was moved meanwhile the note command is called again for a recording that had been done. */
  lemma ReopenedRecordingIsFiledTwice()
    ensures Secured(V0.disk) && Retryable(FAILED)
    ensures forall configured :: SelectedBackend(ClaimedOrigin(CLAIMED.job.value.payload, 1), configured).Err?
    ensures Lawful(V0, [Wrote(FAILED, Reopening), Wrote(RETRIED, Work), Wrote(CLAIMED, Work), Wrote(REFUSED, Work),
                        Wrote(PROMOTED, Work), NoteRequested])
  {
    var e0, e1, e2 := Wrote(FAILED, Reopening), Wrote(RETRIED, Work), Wrote(CLAIMED, Work);
    var e3, e4 := Wrote(REFUSED, Work), Wrote(PROMOTED, Work);
    forall configured {
      ReopenedDecisions(configured);
    }
    FailureAndRetry();
    ClaimAndRefusal();
    PromotionAndFiling();
    assert Lawful(V0, []) && Judge(V0, []) == V0;
    hide Lawful, Judge, Allowed, Sound, Advance;
    Extends(V0, [], e0);
    assert [] + [e0] == [e0];
    Extends(V0, [e0], e1);
    assert [e0] + [e1] == [e0, e1];
    Extends(V0, [e0, e1], e2);
    assert [e0, e1] + [e2] == [e0, e1, e2];
    Extends(V0, [e0, e1, e2], e3);
    assert [e0, e1, e2] + [e3] == [e0, e1, e2, e3];
    Extends(V0, [e0, e1, e2, e3], e4);
    assert [e0, e1, e2, e3] + [e4] == [e0, e1, e2, e3, e4];
    Extends(V0, [e0, e1, e2, e3, e4], NoteRequested);
    assert [e0, e1, e2, e3, e4] + [NoteRequested] == [e0, e1, e2, e3, e4, NoteRequested];
  }
}
