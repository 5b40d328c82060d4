/** What a quality record tells a reader: whether the recording and its text are complete, and whether the echo
    canceller had a far reference. Merging and shortening records never make them read better than they are. */
module QualityReading {
  import opened Wrappers
  import opened QualityActivity
  import opened QualityEpochs
  import opened QualitySpans
  import opened QualityRecord
  import opened QualityMerge
  import opened QualityProjection

  datatype Completeness = Complete | Incomplete | Unknown

  /** `source_completeness` of a record that validates. */
  function SourceReading(q: Record): Completeness {
    if Owes(q, SourceLoss) then Incomplete
    else if !q.observed || q.overflow.epochs != 0 || q.overflow.saturated || UnknownStart(q.epochs) then Unknown
    else Complete
  }

  predicate UnknownStart(epochs: seq<Epoch>) {
    exists e :: e in epochs && e.sourceStart.None?
  }

  /** `completeness`: degraded facts alone do not make a text incomplete. */
  function TextReading(q: Record): Completeness {
    if Owes(q, SourceLoss) || Owes(q, ProcessingLoss) then Incomplete else SourceReading(q)
  }

  /** Incomplete exactly when a loss of source is outstanding, positioned or counted; complete exactly when none is, the
      recording was observed, no epoch was left out, no counter is saturated, and every epoch says where it starts. */
  lemma SourceReadingIsExact(q: Record)
    ensures var owed := q.overflow.outstanding.source > 0 ||
        exists s :: s in q.spans && s.kind.loss == SourceLoss && s.kind.resolution.Outstanding?;
      && (SourceReading(q).Incomplete? <==> owed)
      && (SourceReading(q).Complete? <==>
            && !owed && q.observed && q.overflow.epochs == 0 && !q.overflow.saturated
            && (forall e :: e in q.epochs ==> e.sourceStart.Some?))
  {}

  /** A text reads complete only where its source does. */
  lemma TextNeedsSource(q: Record)
    ensures TextReading(q).Complete? <==> SourceReading(q).Complete? && !Owes(q, ProcessingLoss)
    ensures SourceReading(q).Incomplete? ==> TextReading(q).Incomplete?
  {}

  /** A known loss on one side is a known loss of the union, and the union is complete only if both sides are. */
  lemma MergeReadsNoBetter(a: Record, b: Record, r: Record)
    requires Merges(a, b, r)
    ensures SourceReading(r).Incomplete? <==> SourceReading(a).Incomplete? || SourceReading(b).Incomplete?
    ensures TextReading(r).Incomplete? <==> TextReading(a).Incomplete? || TextReading(b).Incomplete?
    ensures SourceReading(r).Complete? ==> SourceReading(a).Complete? && SourceReading(b).Complete?
    ensures TextReading(r).Complete? ==> TextReading(a).Complete? && TextReading(b).Complete?
  {
    assert Owes(r, SourceLoss) <==> Owes(a, SourceLoss) || Owes(b, SourceLoss);
    assert Owes(r, ProcessingLoss) <==> Owes(a, ProcessingLoss) || Owes(b, ProcessingLoss);
    assert r.overflow.epochs >= a.overflow.epochs && r.overflow.epochs >= b.overflow.epochs;
    if r.overflow.epochs == 0 && !UnknownStart(r.epochs) {
      assert forall e :: e in a.epochs || e in b.epochs ==> e in r.epochs && e.sourceStart.Some?;
    }
    hide Valid, Says, Owes, Overflow.Covers, Counted, AllAddUp;
  }

  /** The part of a record that a note shows reads like the record, except that it reads unknown instead of complete
      when counting what is not shown saturates a counter. */
  lemma ProjectionReadsNoBetter(q: Record, n: nat)
    requires Valid(q) && n <= |q.spans|
    ensures var p := Projected(q, n);
      && (SourceReading(p) == SourceReading(q) ||
          (SourceReading(q).Complete? && SourceReading(p).Unknown? && p.overflow.saturated))
      && (TextReading(p) == TextReading(q) ||
          (TextReading(q).Complete? && TextReading(p).Unknown? && p.overflow.saturated))
  {
    ProjectionOwesTheSame(q, n, SourceLoss);
    ProjectionOwesTheSame(q, n, ProcessingLoss);
    ProjectionIsValid(q, n);
    ProjectionKeepsEpochs(q, n);
    hide Valid, Owes, Projected;
  }

  lemma {:induction false} ProjectionKeepsEpochs(q: Record, n: nat)
    requires n <= |q.spans|
    ensures Projected(q, n).overflow.epochs == q.overflow.epochs
    decreases |q.spans| - n
  {
    if n < |q.spans| {
      ProjectionKeepsEpochs(q, n + 1);
      ProjectedStep(q, n);
    }
  }

  // ---- the far reference ----

  datatype FarReference = UnknownReference | Present | Intermittent | AbsentReference

  predicate Conflicting(e: Evidence) { e.bindingConflict || e.proofConflict }

  /** `far_reference`. */
  function ReferenceOf(e: Evidence): FarReference {
    if Conflicting(e) then UnknownReference
    else if e.nonzero then if e.sustainedZero || e.absentLayout then Intermittent else Present
    else if e.complete.Some? then AbsentReference
    else UnknownReference
  }

  /** `uncertain`: a conflict makes the evidence uncertain, too. */
  predicate UncertainOf(e: Evidence) { e.uncertain || Conflicting(e) }

  /** That there was no far reference is said only after one complete traversal that found nothing but silence; that
      there was one, only after an observation of it; and neither after a conflict. */
  lemma ReferenceIsProved(e: Evidence)
    requires e.Valid()
    ensures ReferenceOf(e).AbsentReference? <==>
      !Conflicting(e) && !e.nonzero && e.complete.Some? && e.complete.value.allZero
    ensures ReferenceOf(e).Present? || ReferenceOf(e).Intermittent? <==> !Conflicting(e) && e.nonzero
    ensures ReferenceOf(e).Intermittent? <==>
      !Conflicting(e) && e.nonzero && (e.sustainedZero || e.absentLayout)
    ensures Conflicting(e) ==> UncertainOf(e)
  {}

  /** More traversals never take doubt away, and never turn a reference that was there into one that was not. */
  lemma MergedReference(a: Evidence, b: Evidence, r: Evidence)
    requires AddsUp(a, b, r)
    ensures UncertainOf(a) || UncertainOf(b) ==> UncertainOf(r)
    ensures UncertainOf(r) ==>
      UncertainOf(a) || UncertainOf(b) || Differ(a.input, b.input) || Differ(a.complete, b.complete) ||
      (r.complete.Some? && r.complete.value.allZero && r.nonzero)
    ensures Conflicting(a) || Conflicting(b) ==> ReferenceOf(r).UnknownReference?
    ensures ReferenceOf(a).Present? || ReferenceOf(a).Intermittent? ==> !ReferenceOf(r).AbsentReference?
    ensures ReferenceOf(a).Intermittent? ==> !ReferenceOf(r).Present?
  {}
}
