/** The recovery of processing losses by a whole-file decode: every one of them becomes recovered, the list is coalesced
    and ordered again, and nothing else changes. */
module QualityRecovery {
  import opened Wrappers
  import opened QualityActivity
  import opened QualityEpochs
  import opened QualitySpans
  import opened QualityRecord
  import opened QualityMerge
  import opened QualityReading

  datatype Outcome = SameBackendWholeFileSuccess | ExplicitLocalWholeFileSuccess | NotRecovered

  function Repaid(s: Span): Span {
    if s.kind.loss.ProcessingLoss? then s.(kind := s.kind.Recovered()) else s
  }

  function AllRepaid(spans: seq<Span>): (r: seq<Span>)
    ensures |r| == |spans| && forall i :: 0 <= i < |spans| ==> r[i] == Repaid(spans[i])
  {
    seq(|spans|, i requires 0 <= i < |spans| => Repaid(spans[i]))
  }

  /** The same statement about the same frame, as it was before: recovered already, or still outstanding. */
  ghost predicate SaidBefore(r: Record, m: Mark) {
    if m.kind.loss.ProcessingLoss? then
      m.kind.resolution.RecoveredByBatch? && (Says(r, m) || Says(r, Mark(m.kind.(resolution := Outstanding), m.frame)))
    else Says(r, m)
  }

  /** Frame by frame every processing loss is recovered and every other fact is as it was, none is owed any more, and of
      the counters only that of outstanding processing losses changes. The list is that of the maximal runs. */
  ghost predicate Resolves(before: Record, after: Record) {
    && Valid(after)
    && after == before.(spans := after.spans,
                        overflow := before.overflow.(outstanding := before.overflow.outstanding.(processing := 0)))
    && (forall m :: Says(after, m) <==> SaidBefore(before, m))
    && (exists all :: RunsOf(all, after.spans) && all == AllRepaid(before.spans))
  }

  /** Only a verified decode of the whole file recovers anything. */
  method ResolveProcessingAfterBatch(r: Record, outcome: Outcome) returns (result: Result<Record, Error>, resolved: bool)
    ensures result.Ok? <==> Valid(r)
    ensures resolved <==> result.Ok? && !outcome.NotRecovered?
    ensures result.Ok? ==> if resolved then Resolves(r, result.value) else result.value == r
  {
    if !Valid(r) {
      return Err(Invalid), false;
    }
    if outcome.NotRecovered? {
      return Ok(r), false;
    }
    ProperSpans(r);
    var spans: seq<Span> := [];
    for i := 0 to |r.spans|
      invariant AllProper(spans) && Separate(spans) && |spans| <= i
      invariant forall m :: Marked(spans, m) <==> Marked(AllRepaid(r.spans)[..i], m)
    {
      var span := Repaid(r.spans[i]);
      assert r.spans[i] in r.spans;
      var rest, widened := Coalesce(spans, span);
      var all := AllRepaid(r.spans);
      assert all[..i + 1] == all[..i] + [span];
      forall m ensures Marked(rest + [widened], m) <==> Marked(all[..i + 1], m) {
        MarkedPush(rest, widened, m);
        MarkedPush(all[..i], span, m);
      }
      spans := rest + [widened];
    }
    assert AllRepaid(r.spans)[..|r.spans|] == AllRepaid(r.spans);
    var sorted := SortSpans(spans);
    var overflow := r.overflow.(outstanding := r.overflow.outstanding.(processing := 0));
    RepaidResolves(r, spans, sorted);
    return Ok(r.(spans := sorted, overflow := overflow)), true;
  }

  lemma RepaidResolves(r: Record, spans: seq<Span>, sorted: seq<Span>)
    requires Valid(r) && AllProper(spans) && Separate(spans) && |spans| <= |r.spans|
    requires forall m :: Marked(spans, m) <==> Marked(AllRepaid(r.spans), m)
    requires Sorted(sorted) && multiset(sorted) == multiset(spans)
    ensures Resolves(r, r.(spans := sorted,
                           overflow := r.overflow.(outstanding := r.overflow.outstanding.(processing := 0))))
  {
    SortedRuns(AllRepaid(r.spans), spans, sorted);
    SameElements(sorted, spans);
    assert |sorted| == |spans| by { assert |multiset(sorted)| == |multiset(spans)|; }
    RepaidRunsAreValid(r, sorted);
    forall m ensures Marked(sorted, m) <==> SaidBefore(r, m) {
      SameElementsSayTheSame(sorted, spans, m);
      RepaidSays(r, m);
    }
    hide AllValid, EpochsInOrder, RunsOf, Sorted, Separate, SaidBefore, CountsActivity;
  }

  lemma RepaidSays(r: Record, m: Mark)
    ensures Marked(AllRepaid(r.spans), m) <==> SaidBefore(r, m)
  {
    var all := AllRepaid(r.spans);
    if Marked(all, m) {
      var s :| s in all && Has(s, m);
      var i :| 0 <= i < |all| && all[i] == s;
      var was := r.spans[i];
      assert s == Repaid(was) && Has(was, Mark(was.kind, m.frame));
      assert was.kind == if was.kind.resolution.Outstanding? then m.kind.(resolution := Outstanding) else m.kind;
    }
    if SaidBefore(r, m) {
      var was := if Says(r, m) then m else Mark(m.kind.(resolution := Outstanding), m.frame);
      var s :| s in r.spans && Has(s, was);
      var i :| 0 <= i < |r.spans| && r.spans[i] == s;
      assert all[i] in all && Has(all[i], m);
    }
  }

  lemma RepaidRunsAreValid(r: Record, runs: seq<Span>)
    requires Valid(r) && RunsOf(AllRepaid(r.spans), runs)
    ensures AllValid(r.epochs, runs)
  {
    var all := AllRepaid(r.spans);
    forall s | s in all ensures ValidSpan(r.epochs, s) {
      var i :| 0 <= i < |all| && all[i] == s;
      assert r.spans[i] in r.spans && ValidSpan(r.epochs, r.spans[i]);
    }
    forall run | run in runs ensures ValidSpan(r.epochs, run) {
      assert Run(all, run);
      var first, last := RunEnds(all, run);
      RunIsPlaced(r.epochs, first, last, run);
    }
  }

  /** Afterwards the text is as complete as the source, what the source reads is what it read before, and any other class
      is owed as before. */
  lemma RecoveredReadsAsSource(before: Record, after: Record)
    requires Valid(before) && Resolves(before, after)
    ensures !Owes(after, ProcessingLoss)
    ensures forall c: Loss :: !c.ProcessingLoss? ==> (Owes(after, c) <==> Owes(before, c))
    ensures SourceReading(after) == SourceReading(before) && TextReading(after) == SourceReading(after)
  {
    ProperSpans(before);
    ProperSpans(after);
    forall c: Loss ensures Owes(after, c) <==> !c.ProcessingLoss? && Owes(before, c) {
      OwesSomewhere(after.spans, c);
      OwesSomewhere(before.spans, c);
      assert forall m :: Says(after, m) && OwedAt(m, c) <==> !c.ProcessingLoss? && Says(before, m) && OwedAt(m, c);
    }
    hide Owes, Valid, SaidBefore;
  }
}
