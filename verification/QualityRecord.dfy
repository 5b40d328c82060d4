/** The bounded quality record: positioned spans under a cap, and counters for what the caps left out.

    `Says` reads a record frame by frame and `Owes` asks whether it admits an outstanding loss of a class,
    positioned or only counted. The merges are proved against these two readings: they never invent a fact,
    and whatever a cap drops stays owed. */
module QualityRecord {
  import opened Wrappers
  import opened QualityActivity
  import opened QualityEpochs
  import opened QualitySpans

  const MAX_QUALITY_EPOCHS: nat := 64
  const MAX_QUALITY_SPANS: nat := 256

  /** One counter per class of loss. */
  datatype Counts = Counts(source: Counter, processing: Counter, degraded: Counter)
  {
    function Get(loss: Loss): Counter {
      match loss
      case SourceLoss => source
      case ProcessingLoss => processing
      case DegradedOnly => degraded
    }

    /** `saturating_count` on one counter. */
    function Add(loss: Loss, count: nat): Counts {
      match loss
      case SourceLoss => this.(source := SaturatingAdd(source, count))
      case ProcessingLoss => this.(processing := SaturatingAdd(processing, count))
      case DegradedOnly => this.(degraded := SaturatingAdd(degraded, count))
    }

    function Max(other: Counts): Counts {
      Counts(MaxOf(source, other.source), MaxOf(processing, other.processing), MaxOf(degraded, other.degraded))
    }
  }

  const NONE: Counts := Counts(0, 0, 0)

  datatype Overflow = Overflow(omitted: Counts, outstanding: Counts, epochs: Counter, saturated: bool)
  {
    predicate Full(k: Kind) {
      omitted.Get(k.loss) == U64_MAX || (k.resolution.Outstanding? && outstanding.Get(k.loss) == U64_MAX)
    }

    /** `omit_span`, for one span; the flag tells whether saturation is recorded here. */
    function Omit(k: Kind, flag: bool): Overflow {
      this.(omitted := omitted.Add(k.loss, 1),
            outstanding := if k.resolution.Outstanding? then outstanding.Add(k.loss, 1) else outstanding,
            saturated := saturated || (flag && Full(k)))
    }

    /** `merge_lower_bounds`. */
    function LowerBounds(other: Overflow): Overflow {
      Overflow(omitted.Max(other.omitted), outstanding.Max(other.outstanding), MaxOf(epochs, other.epochs),
               saturated || other.saturated)
    }

    predicate Consistent() {
      && outstanding.processing <= omitted.processing
      && outstanding.source == omitted.source && outstanding.degraded == omitted.degraded
    }

    /** The counters only grew. */
    predicate Covers(other: Overflow) {
      && (forall c :: omitted.Get(c) >= other.omitted.Get(c) && outstanding.Get(c) >= other.outstanding.Get(c))
      && epochs >= other.epochs && (other.saturated ==> saturated)
    }
  }

  datatype Record =
    Record(observed: bool, epochs: seq<Epoch>, spans: seq<Span>, overflow: Overflow, activity: Activity)

  // ---- validity ----

  predicate ValidSpan(epochs: seq<Epoch>, s: Span) {
    s.Proper() && Classified(s.kind) && Placed(epochs, s.kind.epoch, s.start, s.end)
  }

  predicate AllValid(epochs: seq<Epoch>, spans: seq<Span>) {
    forall s :: s in spans ==> ValidSpan(epochs, s)
  }

  /** The degraded counter covers the omitted activity runs, and their saturation is recorded. */
  predicate CountsActivity(o: Overflow, a: Activity) {
    a.Valid() && o.omitted.degraded >= a.OmissionSum() && (a.SumSaturates() ==> a.omissionsSaturated)
  }

  predicate Valid(r: Record) {
    && |r.epochs| <= MAX_QUALITY_EPOCHS && |r.spans| <= MAX_QUALITY_SPANS
    && EpochsInOrder(r.epochs) && AllValid(r.epochs, r.spans)
    && r.overflow.Consistent() && CountsActivity(r.overflow, r.activity)
  }

  // ---- what a record says ----

  ghost predicate Says(r: Record, m: Mark) {
    Marked(r.spans, m)
  }

  /** `has_outstanding` for a valid record: an outstanding loss is positioned, or at least counted. */
  predicate Owes(r: Record, loss: Loss) {
    r.overflow.outstanding.Get(loss) > 0 || OwesPositioned(r.spans, loss)
  }

  predicate OwesPositioned(spans: seq<Span>, loss: Loss) {
    exists s :: s in spans && s.kind.loss == loss && s.kind.resolution.Outstanding?
  }

  lemma OwesPush(spans: seq<Span>, s: Span, loss: Loss)
    ensures OwesPositioned(spans + [s], loss) <==>
      OwesPositioned(spans, loss) || (s.kind.loss == loss && s.kind.resolution.Outstanding?)
  {
    assert s in spans + [s];
    if OwesPositioned(spans, loss) {
      var t :| t in spans && t.kind.loss == loss && t.kind.resolution.Outstanding?;
      assert t in spans + [s];
    }
  }

  /** An outstanding loss of the class at some frame. */
  ghost predicate OwedAt(m: Mark, loss: Loss) {
    m.kind.loss == loss && m.kind.resolution.Outstanding?
  }

  lemma OwesSomewhere(spans: seq<Span>, loss: Loss)
    requires AllProper(spans)
    ensures OwesPositioned(spans, loss) <==> exists m :: Marked(spans, m) && OwedAt(m, loss)
  {
    if OwesPositioned(spans, loss) {
      var s :| s in spans && s.kind.loss == loss && s.kind.resolution.Outstanding?;
      assert Has(s, Mark(s.kind, s.start));
      assert Marked(spans, Mark(s.kind, s.start)) && OwedAt(Mark(s.kind, s.start), loss);
    }
    if m :| Marked(spans, m) && OwedAt(m, loss) {
      var s :| s in spans && Has(s, m);
    }
  }

  // ---- inserting ----

  /** A span that is counted only. A silent far reference saturates the activity's flag and not the record's. */
  function CountSpan(r: Record, k: Kind): Record {
    var silent := k.cause.FarReferenceSilent?;
    r.(overflow := r.overflow.Omit(k, !silent),
       activity := r.activity.(omissionsSaturated := r.activity.omissionsSaturated || (silent && r.overflow.Full(k))))
  }

  /** One more fact. It is retained with everything else unless the list is full and none of its spans joins it;
      then it is the only thing left out, and is counted. Spans that did not join stay that way. */
  method InsertSpan(r: Record, span: Span) returns (result: Result<Record, Error>, retained: bool)
    ensures result.Ok? <==> Valid(r) && ValidSpan(r.epochs, span)
    ensures if result.Ok? then Valid(result.value) else !retained
    ensures result.Ok? ==> (retained <==> |r.spans| < MAX_QUALITY_SPANS || JoinsSome(r.spans, span))
    ensures result.Ok? && !retained ==> result.value == CountSpan(r, span.kind) && CountsOne(r, span.kind, result.value)
    ensures result.Ok? && retained ==>
      result.value == r.(spans := result.value.spans) && Sorted(result.value.spans) && |result.value.spans| <= |r.spans| + 1
    ensures result.Ok? && retained ==> forall m :: Says(result.value, m) <==> Says(r, m) || Has(span, m)
    ensures result.Ok? && retained && Separate(r.spans) ==> RunsOf(r.spans + [span], result.value.spans)
  {
    if !Valid(r) || !ValidSpan(r.epochs, span) {
      return Err(Invalid), false;
    }
    ProperSpans(r);
    var rest, widened := Coalesce(r.spans, span);
    if |rest| == MAX_QUALITY_SPANS {
      CountSpanIsValid(r, span.kind);
      CountSpanCountsOne(r, span.kind);
      return Ok(CountSpan(r, span.kind)), false;
    }
    var sorted := SortSpans(rest + [widened]);
    SameElements(sorted, rest + [widened]);
    Inserted(r, span, rest, widened, sorted);
    result, retained := Ok(r.(spans := sorted)), true;
  }

  /** One loss of the class more is counted, one outstanding loss more if it is outstanding, and nothing else changes;
      a counter that was full already stays so, and that is recorded: in the activity for a silent far reference, and
      in the overflow for anything else. */
  predicate CountsOne(r: Record, k: Kind, after: Record) {
    var full := r.overflow.omitted.Get(k.loss) == U64_MAX ||
                (k.resolution.Outstanding? && r.overflow.outstanding.Get(k.loss) == U64_MAX);
    && after == r.(overflow := after.overflow, activity := after.activity)
    && after.overflow.epochs == r.overflow.epochs
    && after.activity == r.activity.(omissionsSaturated := after.activity.omissionsSaturated)
    && (forall c :: after.overflow.omitted.Get(c) ==
          if c == k.loss && r.overflow.omitted.Get(c) < U64_MAX then r.overflow.omitted.Get(c) + 1
          else r.overflow.omitted.Get(c))
    && (forall c :: after.overflow.outstanding.Get(c) ==
          if c == k.loss && k.resolution.Outstanding? && r.overflow.outstanding.Get(c) < U64_MAX
          then r.overflow.outstanding.Get(c) + 1 else r.overflow.outstanding.Get(c))
    && (after.overflow.saturated <==> r.overflow.saturated || (full && !k.cause.FarReferenceSilent?))
    && (after.activity.omissionsSaturated <==>
          r.activity.omissionsSaturated || (full && k.cause.FarReferenceSilent?))
  }

  lemma CountSpanCountsOne(r: Record, k: Kind)
    ensures CountsOne(r, k, CountSpan(r, k))
  {}

  lemma Inserted(r: Record, span: Span, rest: seq<Span>, widened: Span, sorted: seq<Span>)
    requires Valid(r) && ValidSpan(r.epochs, span) && widened.kind == span.kind && |rest| < MAX_QUALITY_SPANS
    requires widened.start <= span.start && span.end <= widened.end
    requires StartsLike(r.spans, span, widened) && EndsLike(r.spans, span, widened)
    requires forall m :: Marked(rest, m) || Has(widened, m) <==> Says(r, m) || Has(span, m)
    requires forall s :: s in rest ==> s in r.spans && !Joins(s, widened)
    requires Separate(r.spans) ==> Separate(rest)
    requires Sorted(sorted) && multiset(sorted) == multiset(rest + [widened])
    ensures Valid(r.(spans := sorted))
    ensures forall m :: Marked(sorted, m) <==> Says(r, m) || Has(span, m)
    ensures Separate(r.spans) ==> RunsOf(r.spans + [span], sorted)
  {
    WidenedIsValid(r.epochs, r.spans, span, widened);
    var all := rest + [widened];
    SameElements(sorted, all);
    assert AllValid(r.epochs, sorted);
    hide ValidSpan, EpochsInOrder, CountsActivity, Overflow.Consistent;
    forall m ensures Marked(sorted, m) <==> Says(r, m) || Has(span, m) {
      SameElementsSayTheSame(sorted, all, m);
      MarkedPush(rest, widened, m);
    }
    if Separate(r.spans) {
      forall m ensures Marked(all, m) <==> Marked(r.spans + [span], m) {
        SameElementsSayTheSame(sorted, all, m);
        MarkedPush(r.spans, span, m);
      }
      ProperSpans(r);
      SortedRuns(r.spans + [span], all, sorted);
    }
  }

  lemma SameElementsSayTheSame(a: seq<Span>, b: seq<Span>, m: Mark)
    requires forall s :: s in a <==> s in b
    ensures Marked(a, m) <==> Marked(b, m)
  {}

  lemma ProperSpans(r: Record)
    requires Valid(r)
    ensures AllProper(r.spans)
  {
    forall s | s in r.spans ensures s.Proper() {
      assert ValidSpan(r.epochs, s);
    }
  }

  lemma WidenedIsValid(epochs: seq<Epoch>, spans: seq<Span>, span: Span, widened: Span)
    requires EpochsInOrder(epochs) && AllValid(epochs, spans) && ValidSpan(epochs, span)
    requires widened.kind == span.kind && widened.start <= span.start && span.end <= widened.end
    requires StartsLike(spans, span, widened) && EndsLike(spans, span, widened)
    ensures ValidSpan(epochs, widened)
  {
    var id := span.kind.epoch;
    var i :| 0 <= i < |epochs| && epochs[i].id == id;
    hide EndFits, EpochsInOrder;
    PlacedIn(epochs, i, span.start, span.end);
    if widened.start != span.start {
      var s :| s in spans && s.kind == span.kind && s.start == widened.start;
      assert ValidSpan(epochs, s);
      PlacedIn(epochs, i, s.start, s.end);
    }
    if widened.end != span.end {
      var s :| s in spans && s.kind == span.kind && s.end == widened.end;
      assert ValidSpan(epochs, s);
      PlacedIn(epochs, i, s.start, s.end);
    }
  }

  lemma CountSpanIsValid(r: Record, k: Kind)
    requires Valid(r) && Classified(k)
    ensures Valid(CountSpan(r, k))
  {
    OmitKeepsConsistent(r.overflow, k, !k.cause.FarReferenceSilent?);
    hide EpochsInOrder, AllValid;
  }

  /** One more of its class, as long as the counter has room. */
  lemma OmitCounts(o: Overflow, k: Kind, loss: Loss)
    ensures var r := o.Omit(k, true);
      && r.omitted.Get(loss) == SaturatingAdd(o.omitted.Get(loss), if k.loss == loss then 1 else 0)
      && r.outstanding.Get(loss) ==
           SaturatingAdd(o.outstanding.Get(loss), if k.loss == loss && k.resolution.Outstanding? then 1 else 0)
      && r.epochs == o.epochs
  {}

  lemma OmitKeepsConsistent(o: Overflow, k: Kind, flag: bool)
    requires o.Consistent() && Classified(k)
    ensures o.Omit(k, flag).Consistent() && o.Omit(k, flag).Covers(o)
    ensures o.Omit(k, flag).omitted.Get(k.loss) > 0
    ensures k.resolution.Outstanding? ==> o.Omit(k, flag).outstanding.Get(k.loss) > 0
    ensures forall c :: o.Omit(k, flag).outstanding.Get(c) > 0 ==>
      o.outstanding.Get(c) > 0 || (k.loss == c && k.resolution.Outstanding?)
  {}
}
