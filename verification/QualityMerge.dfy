/** The union of two snapshots of one recording's quality: every epoch and every maximal run of both up to the
    caps, counters for the rest, and the exact condition under which the two are refused. */
module QualityMerge {
  import opened Wrappers
  import opened QualityActivity
  import opened QualityEpochs
  import opened QualitySpans
  import opened QualityRecord

  // ---- what the caps leave ----

  /** All spans coalesced, before any cap. */
  method UnionSpans(spans: seq<Span>) returns (r: seq<Span>)
    requires AllProper(spans)
    ensures AllProper(r) && Separate(r) && |r| <= |spans|
    ensures forall m :: Marked(r, m) <==> Marked(spans, m)
  {
    r := [];
    for i := 0 to |spans|
      invariant AllProper(r) && Separate(r) && |r| <= i
      invariant forall m :: Marked(r, m) <==> Marked(spans[..i], m)
    {
      var rest, widened := Coalesce(r, spans[i]);
      assert spans[..i + 1] == spans[..i] + [spans[i]];
      forall m ensures Marked(rest + [widened], m) <==> Marked(spans[..i + 1], m) {
        MarkedPush(rest, widened, m);
        MarkedPush(spans[..i], spans[i], m);
      }
      r := rest + [widened];
    }
    assert spans[..|spans|] == spans;
  }

  predicate EpochListed(epochs: seq<Epoch>, s: Span) {
    exists e :: e in epochs && e.id == s.kind.epoch
  }

  function ScopeOf(stage: Stage): Scope {
    match stage
    case Capture => CaptureScope
    case Batch => OfflineScope
    case Live => LiveScope
  }

  /** The spans that are listed, and counters for the others: the record's, and how many silent far references
      each stage lost. */
  datatype Filling = Filling(kept: seq<Span>, overflow: Overflow, silent: map<Scope, nat>)

  const SCOPES: set<Scope> := {CaptureScope, OfflineScope, LiveScope}

  lemma AllScopes(scope: Scope)
    ensures scope in SCOPES
  {
    match scope { case CaptureScope => case OfflineScope => case LiveScope => }
  }

  function Nothing(omittedEpochs: Counter): Filling {
    Filling([], Overflow(NONE, NONE, omittedEpochs, false), map s | s in SCOPES :: 0)
  }

  /** One span more: listed if there is room and its epoch is listed, and else counted. */
  function FillOne(epochs: seq<Epoch>, f: Filling, s: Span): Filling
    requires f.silent.Keys == SCOPES
  {
    if |f.kept| < MAX_QUALITY_SPANS && EpochListed(epochs, s) then f.(kept := f.kept + [s])
    else
      var counted := f.(overflow := f.overflow.Omit(s.kind, true));
      if !s.kind.cause.FarReferenceSilent? then counted
      else
        var scope := ScopeOf(s.kind.stage);
        counted.(silent := f.silent[scope := f.silent[scope] + 1])
  }

  function Filled(epochs: seq<Epoch>, spans: seq<Span>, omittedEpochs: Counter): (f: Filling)
    ensures f.silent.Keys == SCOPES
  {
    if spans == [] then Nothing(omittedEpochs)
    else FillOne(epochs, Filled(epochs, spans[..|spans| - 1], omittedEpochs), spans[|spans| - 1])
  }

  method Fill(epochs: seq<Epoch>, spans: seq<Span>, omittedEpochs: Counter) returns (f: Filling)
    ensures f == Filled(epochs, spans, omittedEpochs)
  {
    f := Nothing(omittedEpochs);
    assert spans[..0] == [];
    for i := 0 to |spans|
      invariant f == Filled(epochs, spans[..i], omittedEpochs)
    {
      assert spans[..i + 1][..i] == spans[..i];
      f := FillOne(epochs, f, spans[i]);
    }
    assert spans[..|spans|] == spans;
  }

  predicate Counted(o: Overflow, k: Kind) {
    o.omitted.Get(k.loss) > 0 && (k.resolution.Outstanding? ==> o.outstanding.Get(k.loss) > 0)
  }

  /** Everything is listed or counted, and nothing is counted as outstanding that was not an outstanding span. */
  ghost predicate Accounts(epochs: seq<Epoch>, spans: seq<Span>, f: Filling) {
    && |f.kept| <= MAX_QUALITY_SPANS && |f.kept| <= |spans| && f.overflow.Consistent() && f.silent.Keys == SCOPES
    && (forall s :: s in f.kept ==> s in spans && EpochListed(epochs, s))
    && (forall s :: s in spans ==> s in f.kept || Counted(f.overflow, s.kind))
    && (forall c :: f.overflow.outstanding.Get(c) > 0 ==> OwesPositioned(spans, c))
    && (forall scope :: scope in SCOPES && f.silent[scope] > 0 ==> OwesPositioned(spans, DegradedOnly))
    && (forall scope :: scope in SCOPES ==> f.silent[scope] <= |spans|)
  }

  lemma {:induction false} FillAccounts(epochs: seq<Epoch>, spans: seq<Span>, omittedEpochs: Counter)
    requires forall s :: s in spans ==> Classified(s.kind)
    ensures Accounts(epochs, spans, Filled(epochs, spans, omittedEpochs))
  {
    if spans != [] {
      var before, last := spans[..|spans| - 1], spans[|spans| - 1];
      assert spans == before + [last];
      FillAccounts(epochs, before, omittedEpochs);
      AccountsOne(epochs, before, last, Filled(epochs, before, omittedEpochs));
    }
  }

  lemma AccountsOne(epochs: seq<Epoch>, before: seq<Span>, last: Span, f: Filling)
    requires Classified(last.kind) && Accounts(epochs, before, f)
    ensures Accounts(epochs, before + [last], FillOne(epochs, f, last))
  {
    OmitKeepsConsistent(f.overflow, last.kind, true);
    CountedStays(f.overflow, last.kind, true);
    forall c {
      OwesPush(before, last, c);
    }
    var spans := before + [last];
    assert forall s :: s in spans <==> s in before || s == last;
    hide OwesPositioned, EpochListed, Overflow.Omit, Overflow.Consistent, Overflow.Covers, Counted;
  }

  lemma CountedStays(o: Overflow, k: Kind, flag: bool)
    ensures forall other :: Counted(o, other) ==> Counted(o.Omit(k, flag), other)
    ensures Counted(o.Omit(k, flag), k)
  {}

  /** How many of the spans are losses of the class; of those, how many are outstanding; and how many are silent far
      references of the stage that a scope stands for. */
  function Losses(spans: seq<Span>, c: Loss): nat {
    if spans == [] then 0
    else Losses(spans[..|spans| - 1], c) + if spans[|spans| - 1].kind.loss == c then 1 else 0
  }

  function Debts(spans: seq<Span>, c: Loss): nat {
    if spans == [] then 0
    else
      var last := spans[|spans| - 1].kind;
      Debts(spans[..|spans| - 1], c) + if last.loss == c && last.resolution.Outstanding? then 1 else 0
  }

  function StageOf(scope: Scope): Stage {
    match scope
    case CaptureScope => Capture
    case OfflineScope => Batch
    case LiveScope => Live
  }

  function Silences(spans: seq<Span>, scope: Scope): nat {
    if spans == [] then 0
    else
      var last := spans[|spans| - 1].kind;
      Silences(spans[..|spans| - 1], scope) +
      if last.cause.FarReferenceSilent? && last.stage == StageOf(scope) then 1 else 0
  }

  function Capped(n: nat): Counter { if n > U64_MAX then U64_MAX else n }

  /** Nothing is lost between the list and the counters: whatever is not listed is counted once. */
  predicate Conserves(spans: seq<Span>, f: Filling, c: Loss) {
    && Losses(f.kept, c) <= Losses(spans, c) && Debts(f.kept, c) <= Debts(spans, c)
    && f.overflow.omitted.Get(c) == Capped(Losses(spans, c) - Losses(f.kept, c))
    && f.overflow.outstanding.Get(c) == Capped(Debts(spans, c) - Debts(f.kept, c))
  }

  lemma {:induction false} FillConserves(epochs: seq<Epoch>, spans: seq<Span>, omittedEpochs: Counter, c: Loss)
    ensures Conserves(spans, Filled(epochs, spans, omittedEpochs), c)
    ensures Filled(epochs, spans, omittedEpochs).overflow.epochs == omittedEpochs
  {
    if spans != [] {
      var before, last := spans[..|spans| - 1], spans[|spans| - 1];
      assert spans == before + [last];
      FillConserves(epochs, before, omittedEpochs, c);
      OneConserves(epochs, before, last, Filled(epochs, before, omittedEpochs), c);
      hide Conserves;
    }
  }

  lemma OneConserves(epochs: seq<Epoch>, before: seq<Span>, last: Span, f: Filling, c: Loss)
    requires f.silent.Keys == SCOPES && Conserves(before, f, c)
    ensures Conserves(before + [last], FillOne(epochs, f, last), c)
    ensures FillOne(epochs, f, last).overflow.epochs == f.overflow.epochs
  {
    hide Overflow.Omit, EpochListed, Losses, Debts, Counts.Get;
    OneMore(before, last, c);
    OneMore(f.kept, last, c);
    OmitCounts(f.overflow, last.kind, c);
  }

  lemma {:induction false} FillKeepsSilences(epochs: seq<Epoch>, spans: seq<Span>, omittedEpochs: Counter, scope: Scope)
    requires scope in SCOPES
    ensures var f := Filled(epochs, spans, omittedEpochs);
      Silences(f.kept, scope) + f.silent[scope] == Silences(spans, scope)
  {
    if spans != [] {
      var before, last := spans[..|spans| - 1], spans[|spans| - 1];
      FillKeepsSilences(epochs, before, omittedEpochs, scope);
      OneMoreSilence(Filled(epochs, before, omittedEpochs).kept, last, scope);
      hide EpochListed;
    }
  }

  lemma OneMore(spans: seq<Span>, s: Span, c: Loss)
    ensures Losses(spans + [s], c) == Losses(spans, c) + if s.kind.loss == c then 1 else 0
    ensures Debts(spans + [s], c) ==
      Debts(spans, c) + if s.kind.loss == c && s.kind.resolution.Outstanding? then 1 else 0
  {
    assert (spans + [s])[..|spans|] == spans;
  }

  lemma OneMoreSilence(spans: seq<Span>, s: Span, scope: Scope)
    ensures Silences(spans + [s], scope) ==
      Silences(spans, scope) + if s.kind.cause.FarReferenceSilent? && s.kind.stage == StageOf(scope) then 1 else 0
  {
    assert (spans + [s])[..|spans|] == spans;
  }

  /** Without a cap in the way everything is listed and nothing is counted. */
  lemma {:induction false} FillAll(epochs: seq<Epoch>, spans: seq<Span>, omittedEpochs: Counter)
    requires |spans| <= MAX_QUALITY_SPANS && forall s :: s in spans ==> EpochListed(epochs, s)
    ensures Filled(epochs, spans, omittedEpochs) == Nothing(omittedEpochs).(kept := spans)
  {
    if spans != [] {
      var before, last := spans[..|spans| - 1], spans[|spans| - 1];
      assert spans == before + [last];
      FillAll(epochs, before, omittedEpochs);
    }
  }

  /** With room for all spans, those of listed epochs are listed. */
  lemma {:induction false} FillListed(epochs: seq<Epoch>, spans: seq<Span>, omittedEpochs: Counter, s: Span)
    requires |spans| <= MAX_QUALITY_SPANS && s in spans && EpochListed(epochs, s)
    ensures s in Filled(epochs, spans, omittedEpochs).kept
  {
    var before, last := spans[..|spans| - 1], spans[|spans| - 1];
    assert spans == before + [last];
    KeptIsShort(epochs, before, omittedEpochs);
    if s in before {
      FillListed(epochs, before, omittedEpochs, s);
    }
  }

  lemma {:induction false} KeptIsShort(epochs: seq<Epoch>, spans: seq<Span>, omittedEpochs: Counter)
    ensures |Filled(epochs, spans, omittedEpochs).kept| <= |spans|
  {
    if spans != [] {
      KeptIsShort(epochs, spans[..|spans| - 1], omittedEpochs);
    }
  }

  // ---- the merged record ----

  /** The epochs that stay listed. */
  function Listing(all: seq<Epoch>): seq<Epoch> {
    if |all| > MAX_QUALITY_EPOCHS then all[..MAX_QUALITY_EPOCHS] else all
  }

  function Unlisted(all: seq<Epoch>): Counter {
    var n := |all| - |Listing(all)|;
    if n > U64_MAX then U64_MAX else n
  }

  /** The larger counters of both sides and of what was left out here; omitted activity runs of different stages
      add up. */
  function Bounds(own: Overflow, a: Overflow, b: Overflow, runs: Counter): Overflow {
    var bounds := own.LowerBounds(a).LowerBounds(b);
    var degraded := MaxOf(bounds.omitted.degraded, runs);
    bounds.(omitted := bounds.omitted.(degraded := degraded), outstanding := bounds.outstanding.(degraded := degraded))
  }

  function Runs(f: Filling, scope: Scope): Counter
    requires f.silent.Keys == SCOPES
  {
    AllScopes(scope);
    if f.silent[scope] > U64_MAX then U64_MAX else f.silent[scope]
  }

  function MergedActivity(a: Record, b: Record, f: Filling): Activity
    requires f.silent.Keys == SCOPES
  {
    var counted := a.activity.Merge(b.activity)
                   .CountRuns(Runs(f, CaptureScope), Runs(f, OfflineScope), Runs(f, LiveScope));
    counted.(omissionsSaturated := counted.omissionsSaturated || counted.SumSaturates())
  }

  function Merged(a: Record, b: Record, all: seq<Epoch>, runs: seq<Span>): Record {
    var f := Filled(Listing(all), runs, Unlisted(all));
    var activity := MergedActivity(a, b, f);
    Record(a.observed && b.observed, Listing(all), f.kept,
           Bounds(f.overflow, a.overflow, b.overflow, activity.OmissionSum()), activity)
  }

  /** The epochs of both by id. */
  ghost function UnionOf(a: seq<Epoch>, b: seq<Epoch>): seq<Epoch> {
    if exists all :: Unites(a, b, all) then var all :| Unites(a, b, all); all else []
  }

  /** The maximal runs of the spans, in order. */
  ghost function RunList(spans: seq<Span>): seq<Span> {
    if exists runs :: RunsOf(spans, runs) then var runs :| RunsOf(spans, runs); runs else []
  }

  lemma CombinedOnce(a: Record, b: Record, all: seq<Epoch>, runs: seq<Span>)
    requires Combines(a, b, all, runs)
    ensures all == UnionOf(a.epochs, b.epochs) && runs == RunList(a.spans + b.spans)
  {
    UnionIsUnique(a.epochs, b.epochs, all, UnionOf(a.epochs, b.epochs));
    RunsAreUnique(a.spans + b.spans, a.spans + b.spans, runs, RunList(a.spans + b.spans));
  }

  /** What merging two snapshots yields. */
  ghost function Union(a: Record, b: Record): Record {
    Merged(a, b, UnionOf(a.epochs, b.epochs), RunList(a.spans + b.spans))
  }

  /** No listed run of the two ends after the next listed epoch is known to start. */
  ghost predicate Fits(a: Record, b: Record) {
    RunsFit(UnionOf(a.epochs, b.epochs), RunList(a.spans + b.spans))
  }

  /** No single span does. */
  ghost predicate EachFits(a: Record, b: Record) {
    SpansFit(a, b, UnionOf(a.epochs, b.epochs))
  }

  /** The epochs of both by id, and the maximal runs of both in order. */
  ghost predicate Combines(a: Record, b: Record, all: seq<Epoch>, runs: seq<Span>) {
    Unites(a.epochs, b.epochs, all) && RunsOf(a.spans + b.spans, runs)
  }

  /** No listed run ends after the next listed epoch is known to start. */
  predicate RunsFit(all: seq<Epoch>, runs: seq<Span>) {
    AllValid(Listing(all), Filled(Listing(all), runs, Unlisted(all)).kept)
  }

  /** No span of a listed epoch does. */
  predicate SpansFit(a: Record, b: Record, all: seq<Epoch>) {
    forall s :: s in a.spans + b.spans && EpochListed(Listing(all), s) ==> ValidSpan(Listing(all), s)
  }

  lemma RunIsClassified(a: Record, b: Record, runs: seq<Span>)
    requires Valid(a) && Valid(b) && RunsOf(a.spans + b.spans, runs)
    ensures AllProper(a.spans + b.spans) && AllProper(runs)
    ensures forall s :: s in runs ==> Classified(s.kind)
  {
    ProperSpans(a);
    ProperSpans(b);
    forall s | s in runs ensures Classified(s.kind) {
      var first, _ := RunEnds(a.spans + b.spans, s);
      assert ValidSpan(a.epochs, first) || ValidSpan(b.epochs, first);
    }
  }

  lemma ListingInOrder(all: seq<Epoch>)
    requires EpochsInOrder(all)
    ensures EpochsInOrder(Listing(all)) && Listing(all) <= all
  {
    var listed := Listing(all);
    forall e | e in listed ensures e.Valid() {
      assert e in all;
    }
    forall i, j | 0 <= i < j < |listed| ensures Precedes(listed[i], listed[j]) {
      assert Precedes(all[i], all[j]);
    }
  }

  lemma MergedActivityIsCounted(a: Record, b: Record, f: Filling)
    requires Valid(a) && Valid(b) && f.silent.Keys == SCOPES
    ensures MergedActivity(a, b, f).Valid()
    ensures MergedActivity(a, b, f).SumSaturates() ==> MergedActivity(a, b, f).omissionsSaturated
    ensures MergedActivity(a, b, f).OmissionSum() > 0 ==>
      a.activity.OmissionSum() > 0 || b.activity.OmissionSum() > 0 || exists scope :: scope in SCOPES && f.silent[scope] > 0
  {
    var merged := a.activity.Merge(b.activity);
    MergeKeepsActivity(a.activity, b.activity);
    CountRunsKeepsValid(merged, Runs(f, CaptureScope), Runs(f, OfflineScope), Runs(f, LiveScope));
    hide Valid, Evidence.Valid, Activity.CountRuns, Activity.Merge;
    assert CaptureScope in SCOPES && OfflineScope in SCOPES && LiveScope in SCOPES;
  }

  lemma BoundsAreConsistent(own: Overflow, a: Overflow, b: Overflow, runs: Counter)
    requires own.Consistent() && a.Consistent() && b.Consistent()
    ensures Bounds(own, a, b, runs).Consistent() && Bounds(own, a, b, runs).omitted.degraded >= runs
  {}

  lemma BoundsCover(own: Overflow, a: Overflow, b: Overflow, runs: Counter)
    requires own.Consistent() && a.Consistent() && b.Consistent()
    ensures var r := Bounds(own, a, b, runs); r.Covers(own) && r.Covers(a) && r.Covers(b)
  {
    LowerBoundsCover(own, a);
    LowerBoundsCover(own.LowerBounds(a), b);
    hide Overflow.LowerBounds;
  }

  lemma LowerBoundsCover(a: Overflow, b: Overflow)
    requires a.Consistent() && b.Consistent()
    ensures a.LowerBounds(b).Covers(a) && a.LowerBounds(b).Covers(b) && a.LowerBounds(b).Consistent()
  {}

  lemma BoundsOwe(own: Overflow, a: Overflow, b: Overflow, runs: Counter, c: Loss)
    requires own.Consistent() && a.Consistent() && b.Consistent()
    ensures Bounds(own, a, b, runs).outstanding.Get(c) > 0 <==>
      || own.outstanding.Get(c) > 0 || a.outstanding.Get(c) > 0 || b.outstanding.Get(c) > 0
      || (c.DegradedOnly? && runs > 0)
  {}

  /** The final validation of a merge is exactly the test of the listed runs. */
  lemma MergedIsValid(a: Record, b: Record, all: seq<Epoch>, runs: seq<Span>)
    requires Valid(a) && Valid(b) && EpochsInOrder(all) && RunsOf(a.spans + b.spans, runs)
    ensures Valid(Merged(a, b, all, runs)) <==> RunsFit(all, runs)
  {
    hide EpochsInOrder, AllValid, Filled, MergedActivity, Overflow.Consistent, RunsOf;
    hide Bounds, Activity.OmissionSum, Activity.SumSaturates, Activity.Valid;
    RunIsClassified(a, b, runs);
    ListingInOrder(all);
    var f := Filled(Listing(all), runs, Unlisted(all));
    FillAccounts(Listing(all), runs, Unlisted(all));
    MergedActivityIsCounted(a, b, f);
    BoundsAreConsistent(f.overflow, a.overflow, b.overflow, MergedActivity(a, b, f).OmissionSum());
  }

  // ---- what a merge promises ----

  ghost predicate Merges(a: Record, b: Record, r: Record) {
    && Valid(r) && r.observed == (a.observed && b.observed)
    && r.overflow.Covers(a.overflow) && r.overflow.Covers(b.overflow)
    && (forall e :: e in r.epochs ==> e in a.epochs || e in b.epochs)
    && (forall e :: e in a.epochs || e in b.epochs ==> e in r.epochs || r.overflow.epochs > 0)
    && (forall m :: Says(r, m) ==> Says(a, m) || Says(b, m))
    && (forall m :: Says(a, m) || Says(b, m) ==> Says(r, m) || Counted(r.overflow, m.kind))
    && (forall c :: Owes(r, c) <==> Owes(a, c) || Owes(b, c))
    && AllAddUp(a.activity, b.activity, r.activity)
  }

  lemma ScopeAddsUp(a: Record, b: Record, f: Filling, scope: Scope)
    requires f.silent.Keys == SCOPES
    ensures var x, y, r := a.activity.Get(scope), b.activity.Get(scope), MergedActivity(a, b, f).Get(scope);
      && AddsUp(x, y, r)
      && r.omittedRuns == MaxOf(MaxOf(x.omittedRuns, y.omittedRuns), if r.input.None? then 0 else Runs(f, scope))
  {
    hide AddsUp, Evidence.Merge, Evidence.CountRuns, Runs, Activity.SumSaturates, MaxOf;
    CountedAddsUp(a.activity.Get(scope), b.activity.Get(scope), Runs(f, scope));
  }

  lemma MergedAddsUp(a: Record, b: Record, all: seq<Epoch>, runs: seq<Span>)
    ensures AllAddUp(a.activity, b.activity, Merged(a, b, all, runs).activity)
  {
    var f := Filled(Listing(all), runs, Unlisted(all));
    forall scope ensures AddsUp(a.activity.Get(scope), b.activity.Get(scope), MergedActivity(a, b, f).Get(scope)) {
      ScopeAddsUp(a, b, f, scope);
    }
    hide AddsUp, Evidence.Merge, Evidence.CountRuns, Runs, Filled;
  }

  /** Every counter is the larger one of both sides, of what the caps left out here, and, for degraded facts, of the
      omitted activity runs of all scopes together. */
  lemma MergedCounts(a: Record, b: Record, all: seq<Epoch>, runs: seq<Span>, c: Loss)
    ensures var r, x, y := Merged(a, b, all, runs), a.overflow, b.overflow;
      && Losses(r.spans, c) <= Losses(runs, c) && Debts(r.spans, c) <= Debts(runs, c)
      && r.overflow.omitted.Get(c) ==
           MaxOf(MaxOf(x.omitted.Get(c), y.omitted.Get(c)),
                 MaxOf(Capped(Losses(runs, c) - Losses(r.spans, c)),
                       if c.DegradedOnly? then r.activity.OmissionSum() else 0))
      && r.overflow.outstanding.Get(c) ==
           (if c.DegradedOnly? then r.overflow.omitted.Get(c)
            else MaxOf(MaxOf(x.outstanding.Get(c), y.outstanding.Get(c)), Capped(Debts(runs, c) - Debts(r.spans, c))))
      && r.overflow.epochs == MaxOf(MaxOf(x.epochs, y.epochs), Capped(|all| - |r.epochs|))
  {
    hide Filled, MergedActivity, Bounds, Activity.OmissionSum, Losses, Debts, MaxOf, Counts.Get;
    var f := Filled(Listing(all), runs, Unlisted(all));
    FillConserves(Listing(all), runs, Unlisted(all), c);
    BoundsAreMaxima(f.overflow, a.overflow, b.overflow, MergedActivity(a, b, f).OmissionSum(), c);
  }

  lemma BoundsAreMaxima(own: Overflow, a: Overflow, b: Overflow, runs: Counter, c: Loss)
    ensures var r := Bounds(own, a, b, runs);
      && r.omitted.Get(c) == MaxOf(MaxOf(a.omitted.Get(c), b.omitted.Get(c)),
                                   MaxOf(own.omitted.Get(c), if c.DegradedOnly? then runs else 0))
      && r.outstanding.Get(c) ==
           (if c.DegradedOnly? then r.omitted.Get(c)
            else MaxOf(MaxOf(a.outstanding.Get(c), b.outstanding.Get(c)), own.outstanding.Get(c)))
      && r.epochs == MaxOf(MaxOf(a.epochs, b.epochs), own.epochs)
  {}

  /** And the omitted runs of a scope are those of both sides and of what the caps left out of its stage. */
  lemma MergedSilences(a: Record, b: Record, all: seq<Epoch>, runs: seq<Span>, scope: Scope)
    ensures var r := Merged(a, b, all, runs);
      var x, y, seen := a.activity.Get(scope), b.activity.Get(scope), r.activity.Get(scope);
      && Silences(r.spans, scope) <= Silences(runs, scope)
      && seen.omittedRuns ==
           MaxOf(MaxOf(x.omittedRuns, y.omittedRuns),
                 if seen.input.None? then 0 else Capped(Silences(runs, scope) - Silences(r.spans, scope)))
  {
    var f := Filled(Listing(all), runs, Unlisted(all));
    AllScopes(scope);
    FillKeepsSilences(Listing(all), runs, Unlisted(all), scope);
    ScopeAddsUp(a, b, f, scope);
    hide Filled, MergedActivity, AddsUp, Bounds, Activity.OmissionSum, Losses, Debts, Silences;
  }

  lemma RunsSayAll(a: Record, b: Record, runs: seq<Span>, coalesced: seq<Span>)
    requires forall s :: s in runs <==> s in coalesced
    requires forall m :: Marked(coalesced, m) <==> Marked(a.spans + b.spans, m)
    ensures forall m :: Marked(runs, m) <==> Marked(a.spans + b.spans, m)
    ensures forall m :: Marked(runs, m) <==> Says(a, m) || Says(b, m)
  {
    forall m ensures Marked(runs, m) <==> Marked(coalesced, m) {
      SameElementsSayTheSame(runs, coalesced, m);
    }
    forall m ensures Marked(a.spans + b.spans, m) <==> Says(a, m) || Says(b, m) {
      MarkedConcat(a.spans, b.spans, m);
    }
  }

  lemma MergedSays(a: Record, b: Record, all: seq<Epoch>, runs: seq<Span>)
    requires Valid(a) && Valid(b) && RunsOf(a.spans + b.spans, runs)
    requires forall m :: Marked(runs, m) <==> Says(a, m) || Says(b, m)
    ensures forall m :: Says(Merged(a, b, all, runs), m) ==> Says(a, m) || Says(b, m)
    ensures forall m :: Says(a, m) || Says(b, m) ==>
      Says(Merged(a, b, all, runs), m) || Counted(Merged(a, b, all, runs).overflow, m.kind)
  {
    var merged, f := Merged(a, b, all, runs), Filled(Listing(all), runs, Unlisted(all));
    RunIsClassified(a, b, runs);
    FillAccounts(Listing(all), runs, Unlisted(all));
    BoundsCover(f.overflow, a.overflow, b.overflow, MergedActivity(a, b, f).OmissionSum());
    hide Filled, MergedActivity, Bounds, Valid, RunsOf, Overflow.Consistent, Activity.OmissionSum;
    forall m | Says(merged, m) ensures Says(a, m) || Says(b, m) {
      var s :| s in f.kept && Has(s, m);
      assert s in runs && Marked(runs, m);
    }
    forall m | Says(a, m) || Says(b, m) ensures Says(merged, m) || Counted(merged.overflow, m.kind) {
      assert Marked(runs, m);
      var s :| s in runs && Has(s, m);
      assert s in f.kept || Counted(f.overflow, s.kind);
    }
  }

  lemma RunsOwe(a: Record, b: Record, runs: seq<Span>, c: Loss)
    requires Valid(a) && Valid(b) && AllProper(runs)
    requires forall m :: Marked(runs, m) <==> Says(a, m) || Says(b, m)
    ensures OwesPositioned(runs, c) <==> OwesPositioned(a.spans, c) || OwesPositioned(b.spans, c)
  {
    ProperSpans(a);
    ProperSpans(b);
    OwesSomewhere(a.spans, c);
    OwesSomewhere(b.spans, c);
    OwesSomewhere(runs, c);
    hide Valid, Marked, OwesPositioned, AllProper;
  }

  /** A class of loss is owed exactly if one side owed it. */
  lemma MergedOwes(a: Record, b: Record, all: seq<Epoch>, runs: seq<Span>, c: Loss)
    requires Valid(a) && Valid(b) && RunsOf(a.spans + b.spans, runs)
    requires forall m :: Marked(runs, m) <==> Says(a, m) || Says(b, m)
    ensures Owes(Merged(a, b, all, runs), c) <==> Owes(a, c) || Owes(b, c)
  {
    var f := Filled(Listing(all), runs, Unlisted(all));
    RunIsClassified(a, b, runs);
    FillAccounts(Listing(all), runs, Unlisted(all));
    MergedActivityIsCounted(a, b, f);
    OwedRuns(runs, f, Listing(all), c);
    RunsOwe(a, b, runs, c);
    ActivityIsOwed(a);
    ActivityIsOwed(b);
    hide Filled, MergedActivity, RunsOf, Marked, OwesPositioned, AllValid, EpochsInOrder, CountsActivity, AllProper;
    BoundsOwe(f.overflow, a.overflow, b.overflow, MergedActivity(a, b, f).OmissionSum(), c);
    hide Bounds, Activity.OmissionSum, Valid, Counted, Overflow.Consistent;
  }

  lemma OwedRuns(runs: seq<Span>, f: Filling, epochs: seq<Epoch>, c: Loss)
    requires Accounts(epochs, runs, f)
    ensures OwesPositioned(runs, c) <==> OwesPositioned(f.kept, c) || f.overflow.outstanding.Get(c) > 0
  {
    if s :| s in runs && s.kind.loss == c && s.kind.resolution.Outstanding? {
      assert s in f.kept || Counted(f.overflow, s.kind);
    }
  }

  lemma ActivityIsOwed(r: Record)
    requires Valid(r)
    ensures r.activity.OmissionSum() > 0 ==> Owes(r, DegradedOnly)
  {}

  // ---- when it is refused ----

  /** A run lies around every span of its kind that it meets. */
  lemma RunAround(spans: seq<Span>, runs: seq<Span>, s: Span) returns (run: Span)
    requires AllProper(runs) && RunsOf(spans, runs) && s in spans && s.Proper()
    requires forall m :: Marked(runs, m) <==> Marked(spans, m)
    ensures run in runs && run.kind == s.kind && run.start <= s.start && s.end <= run.end
  {
    var head := Mark(s.kind, s.start);
    assert Has(s, head) && Marked(spans, head) && Marked(runs, head);
    run :| run in runs && Has(run, head);
    assert Run(spans, run);
    assert !Has(s, Mark(s.kind, run.end));
  }

  /** The listed runs fit if the spans do. */
  lemma SpansFitSoRunsDo(a: Record, b: Record, all: seq<Epoch>, runs: seq<Span>)
    requires Valid(a) && Valid(b) && EpochsInOrder(all) && RunsOf(a.spans + b.spans, runs) && SpansFit(a, b, all)
    ensures RunsFit(all, runs)
  {
    var listed, f := Listing(all), Filled(Listing(all), runs, Unlisted(all));
    RunIsClassified(a, b, runs);
    ListingInOrder(all);
    FillAccounts(listed, runs, Unlisted(all));
    forall run | run in f.kept ensures ValidSpan(listed, run) {
      assert Run(a.spans + b.spans, run) && EpochListed(listed, run);
      var first, last := RunEnds(a.spans + b.spans, run);
      assert EpochListed(listed, first) && EpochListed(listed, last);
      assert ValidSpan(listed, first) && ValidSpan(listed, last);
      RunIsPlaced(listed, first, last, run);
    }
  }

  lemma RunIsPlaced(epochs: seq<Epoch>, first: Span, last: Span, run: Span)
    requires EpochsInOrder(epochs) && ValidSpan(epochs, first) && ValidSpan(epochs, last) && run.Proper()
    requires run.kind == first.kind == last.kind && run.start == first.start && run.end == last.end
    ensures ValidSpan(epochs, run)
  {
    var i :| 0 <= i < |epochs| && epochs[i].id == run.kind.epoch;
    hide EndFits, EpochsInOrder;
    PlacedIn(epochs, i, first.start, first.end);
    PlacedIn(epochs, i, last.start, last.end);
  }

  /** And if no span cap is in the way, only if they do. */
  lemma RunsFitOnlyIfSpansDo(a: Record, b: Record, all: seq<Epoch>, runs: seq<Span>)
    requires Valid(a) && Valid(b) && EpochsInOrder(all) && Combines(a, b, all, runs) && RunsFit(all, runs)
    requires |runs| <= MAX_QUALITY_SPANS
    requires forall m :: Marked(runs, m) <==> Marked(a.spans + b.spans, m)
    ensures SpansFit(a, b, all)
  {
    var listed, f := Listing(all), Filled(Listing(all), runs, Unlisted(all));
    RunIsClassified(a, b, runs);
    ListingInOrder(all);
    forall s | s in a.spans + b.spans && EpochListed(listed, s) ensures ValidSpan(listed, s) {
      assert s in a.spans + b.spans;
      var run := RunAround(a.spans + b.spans, runs, s);
      FillListed(listed, runs, Unlisted(all), run);
      assert ValidSpan(listed, run);
      var own := if s in a.spans then a else b;
      assert ValidSpan(own.epochs, s);
      InsideRun(own.epochs, listed, all, s, run);
    }
  }

  lemma InsideRun(own: seq<Epoch>, listed: seq<Epoch>, all: seq<Epoch>, s: Span, run: Span)
    requires ValidSpan(own, s) && ValidSpan(listed, run) && run.kind == s.kind && run.start <= s.start && s.end <= run.end
    requires EpochsInOrder(all) && listed <= all && forall e :: e in own ==> e in all
    ensures ValidSpan(listed, s)
  {
    hide EndFits;
    var i :| 0 <= i < |listed| && listed[i].id == s.kind.epoch && listed[i].base <= run.start && EndFits(listed, i, run.end);
    EarlierFits(listed, i, s.end, run.end);
  }

  /** Together they stay within the span cap. */
  predicate Roomy(a: Record, b: Record) { |a.spans| + |b.spans| <= MAX_QUALITY_SPANS }

  /** Union of two snapshots of one recording. A recovered copy is no permission to resolve an outstanding one:
      both statements stay. Refused are invalid records, epochs that disagree, and epochs that leave no room for a
      listed run; within the span cap the last is the test of each span by itself. */
  method MergeSnapshot(a: Record, b: Record) returns (result: Result<Record, Error>)
    ensures result.Ok? <==> Valid(a) && Valid(b) && EpochsAgree(a.epochs, b.epochs) && Fits(a, b)
    ensures Valid(a) && Valid(b) && EpochsAgree(a.epochs, b.epochs) && EachFits(a, b) ==> result.Ok?
    ensures result.Ok? && Roomy(a, b) ==> EachFits(a, b)
    ensures result.Ok? ==> result.value == Union(a, b) && Merges(a, b, result.value)
    ensures Valid(a) && Valid(b) && EpochsAgree(a.epochs, b.epochs) ==>
      Unites(a.epochs, b.epochs, UnionOf(a.epochs, b.epochs))
  {
    if !Valid(a) || !Valid(b) {
      return Err(Invalid);
    }
    var union := UnionEpochs(a.epochs, b.epochs);
    if union.Err? {
      return Err(union.error);
    }
    var all := union.value;
    ProperSpans(a);
    ProperSpans(b);
    var coalesced := UnionSpans(a.spans + b.spans);
    var sorted := SortSpans(coalesced);
    SortedRuns(a.spans + b.spans, coalesced, sorted);
    var f := Fill(Listing(all), sorted, Unlisted(all));
    var activity := MergedActivity(a, b, f);
    var merged := Record(a.observed && b.observed, Listing(all), f.kept,
                         Bounds(f.overflow, a.overflow, b.overflow, activity.OmissionSum()), activity);
    MergeFacts(a, b, all, sorted, coalesced);
    CombinedOnce(a, b, all, sorted);
    if !Valid(merged) {
      return Err(Invalid);
    }
    return Ok(merged);
  }

  lemma MergeFacts(a: Record, b: Record, all: seq<Epoch>, runs: seq<Span>, coalesced: seq<Span>)
    requires Valid(a) && Valid(b) && EpochsInOrder(all) && Combines(a, b, all, runs)
    requires AllProper(coalesced) && Separate(coalesced) && |coalesced| <= |a.spans| + |b.spans|
    requires multiset(runs) == multiset(coalesced)
    requires forall m :: Marked(coalesced, m) <==> Marked(a.spans + b.spans, m)
    ensures Valid(Merged(a, b, all, runs)) <==> RunsFit(all, runs)
    ensures SpansFit(a, b, all) ==> RunsFit(all, runs)
    ensures RunsFit(all, runs) && Roomy(a, b) ==> SpansFit(a, b, all)
    ensures RunsFit(all, runs) ==> Merges(a, b, Merged(a, b, all, runs))
  {
    SameElements(runs, coalesced);
    RunsSayAll(a, b, runs, coalesced);
    hide Valid, RunsFit, SpansFit, Marked, AllProper, Separate, EpochsInOrder, Merged, RunsOf;
    MergedIsValid(a, b, all, runs);
    if SpansFit(a, b, all) {
      SpansFitSoRunsDo(a, b, all, runs);
    }
    if RunsFit(all, runs) {
      if Roomy(a, b) {
        RunsFitOnlyIfSpansDo(a, b, all, runs);
      }
      MergedMerges(a, b, all, runs);
    }
    hide Merges;
  }

  lemma MergedMerges(a: Record, b: Record, all: seq<Epoch>, runs: seq<Span>)
    requires Valid(a) && Valid(b) && Combines(a, b, all, runs) && Valid(Merged(a, b, all, runs))
    requires forall m :: Marked(runs, m) <==> Says(a, m) || Says(b, m)
    ensures Merges(a, b, Merged(a, b, all, runs))
  {
    hide Valid, Marked, Merged, RunsOf, Owes, Overflow.Covers, Counted, AllAddUp, Unites;
    MergedEpochs(a, b, all, runs);
    MergedSays(a, b, all, runs);
    forall c ensures Owes(Merged(a, b, all, runs), c) <==> Owes(a, c) || Owes(b, c) {
      MergedOwes(a, b, all, runs, c);
    }
    MergedCovers(a, b, all, runs);
    MergedAddsUp(a, b, all, runs);
  }

  lemma MergedEpochs(a: Record, b: Record, all: seq<Epoch>, runs: seq<Span>)
    requires Unites(a.epochs, b.epochs, all)
    ensures var r := Merged(a, b, all, runs);
      && (forall e :: e in r.epochs ==> e in a.epochs || e in b.epochs)
      && (forall e :: e in a.epochs || e in b.epochs ==> e in r.epochs || r.overflow.epochs > 0)
  {
    MergedCounts(a, b, all, runs, SourceLoss);
    hide Filled, MergedActivity, Bounds, Losses, Debts;
    assert forall e :: e in Listing(all) ==> e in all;
  }

  lemma MergedCovers(a: Record, b: Record, all: seq<Epoch>, runs: seq<Span>)
    requires Valid(a) && Valid(b) && RunsOf(a.spans + b.spans, runs)
    ensures var r := Merged(a, b, all, runs);
      r.overflow.Covers(a.overflow) && r.overflow.Covers(b.overflow) && r.observed == (a.observed && b.observed)
  {
    RunIsClassified(a, b, runs);
    FillAccounts(Listing(all), runs, Unlisted(all));
    var f := Filled(Listing(all), runs, Unlisted(all));
    BoundsCover(f.overflow, a.overflow, b.overflow, MergedActivity(a, b, f).OmissionSum());
    hide Filled, MergedActivity, Bounds, Valid, Overflow.Covers, RunsOf;
  }

  // ---- laws ----

  /** Two snapshots merge into the same record in either order, or are refused in both. */
  lemma MergeCommutes(a: Record, b: Record)
    requires Valid(a) && Valid(b)
    ensures EpochsAgree(a.epochs, b.epochs) <==> EpochsAgree(b.epochs, a.epochs)
    ensures Fits(a, b) <==> Fits(b, a)
    ensures Union(a, b) == Union(b, a)
  {
    UnionCommutes(a.epochs, b.epochs);
    RunsCommute(a.spans, b.spans);
    ActivitiesCommute(a.activity, b.activity);
    var all, runs := UnionOf(a.epochs, b.epochs), RunList(a.spans + b.spans);
    hide Valid, Filled, Activity.Merge, Activity.CountRuns, RunsOf, Unites, UnionOf, RunList;
    BoundsCommute(a.overflow, b.overflow, Filled(Listing(all), runs, Unlisted(all)).overflow);
    hide Overflow.LowerBounds;
  }

  lemma UnionCommutes(a: seq<Epoch>, b: seq<Epoch>)
    ensures UnionOf(a, b) == UnionOf(b, a)
  {
    forall all ensures Unites(a, b, all) <==> Unites(b, a, all) {}
    if all :| Unites(a, b, all) {
      UnionIsUnique(a, b, all, UnionOf(a, b));
      UnionIsUnique(a, b, all, UnionOf(b, a));
    }
  }

  lemma RunsCommute(a: seq<Span>, b: seq<Span>)
    ensures RunList(a + b) == RunList(b + a)
  {
    forall m ensures Marked(a + b, m) <==> Marked(b + a, m) {
      MarkedConcat(a, b, m);
      MarkedConcat(b, a, m);
    }
    forall runs ensures RunsOf(a + b, runs) <==> RunsOf(b + a, runs) {
      SameRuns(a + b, b + a, runs);
    }
    if runs :| RunsOf(a + b, runs) {
      RunsAreUnique(a + b, a + b, runs, RunList(a + b));
      RunsAreUnique(b + a, b + a, runs, RunList(b + a));
    }
  }

  lemma BoundsCommute(a: Overflow, b: Overflow, own: Overflow)
    ensures own.LowerBounds(a).LowerBounds(b) == own.LowerBounds(b).LowerBounds(a)
  {}

  /** A record whose spans are its runs in order merges with itself into itself. */
  lemma MergeIsIdempotent(r: Record)
    requires Valid(r) && RunsOf(r.spans, r.spans)
    ensures EpochsAgree(r.epochs, r.epochs) && Fits(r, r) && Union(r, r) == r
  {
    IdsAscend(r.epochs);
    AgreesWithItself(r.epochs);
    forall m ensures Marked(r.spans, m) <==> Marked(r.spans + r.spans, m) {
      MarkedConcat(r.spans, r.spans, m);
    }
    SameRuns(r.spans, r.spans + r.spans, r.spans);
    CombinedOnce(r, r, r.epochs, r.spans);
    forall s | s in r.spans ensures EpochListed(r.epochs, s) {
      assert ValidSpan(r.epochs, s);
    }
    FillAll(r.epochs, r.spans, Unlisted(r.epochs));
    NothingAdded(r, r.spans);
    hide Filled, RunsOf, Unites, UnionOf, RunList, MergedActivity, Bounds, EpochsInOrder, ValidSpan;
  }

  lemma AgreesWithItself(epochs: seq<Epoch>)
    requires EpochsInOrder(epochs)
    ensures EpochsAgree(epochs, epochs)
  {
    forall e, f | e in epochs && f in epochs ensures e == f || Precedes(e, f) || Precedes(f, e) {
      var i :| 0 <= i < |epochs| && epochs[i] == e;
      var j :| 0 <= j < |epochs| && epochs[j] == f;
      assert i < j ==> Precedes(epochs[i], epochs[j]);
      assert j < i ==> Precedes(epochs[j], epochs[i]);
    }
  }

  lemma NothingAdded(r: Record, kept: seq<Span>)
    requires Valid(r)
    ensures var f := Nothing(0).(kept := kept);
      && MergedActivity(r, r, f) == r.activity
      && Bounds(f.overflow, r.overflow, r.overflow, r.activity.OmissionSum()) == r.overflow
  {
    hide EpochsInOrder, AllValid, Evidence.Merge, Evidence.Valid;
    ActivitiesCommute(r.activity, r.activity);
    NoRunsCounted(r.activity);
    hide Activity.CountRuns, Activity.Merge, Activity.Valid;
  }

  lemma IdsAscend(epochs: seq<Epoch>)
    requires EpochsInOrder(epochs)
    ensures ById(epochs)
  {
    forall i, j | 0 <= i < j < |epochs| ensures epochs[i].id < epochs[j].id {
      assert Precedes(epochs[i], epochs[j]);
    }
  }

  /** Within both caps nothing is left out: the union says exactly what both say, and only the counters of both
      and their omitted activity runs are counted. */
  lemma FittingIsExact(a: Record, b: Record, all: seq<Epoch>, runs: seq<Span>)
    requires Valid(a) && Valid(b) && EpochsAgree(a.epochs, b.epochs) && Combines(a, b, all, runs)
    requires |all| <= MAX_QUALITY_EPOCHS && |runs| <= MAX_QUALITY_SPANS
    ensures var r := Merged(a, b, all, runs);
      && r.epochs == all && r.spans == runs && r.activity.omissionsSaturated ==
           (a.activity.omissionsSaturated || b.activity.omissionsSaturated || a.activity.Merge(b.activity).SumSaturates())
      && r.overflow.omitted.source == MaxOf(a.overflow.omitted.source, b.overflow.omitted.source)
      && r.overflow.omitted.processing == MaxOf(a.overflow.omitted.processing, b.overflow.omitted.processing)
      && r.overflow.omitted.degraded == MaxOf(MaxOf(a.overflow.omitted.degraded, b.overflow.omitted.degraded),
                                              a.activity.Merge(b.activity).OmissionSum())
  {
    RunIsClassified(a, b, runs);
    RunsAreListed(a, b, all, runs);
    FillAll(all, runs, Unlisted(all));
    NoRunsCounted(a.activity.Merge(b.activity));
    hide Filled, RunsOf, Unites, Valid, Activity.Merge, Activity.CountRuns, EpochListed, EpochsAgree, Activity.OmissionSum;
    NoneCounted(a.overflow, b.overflow, a.activity.Merge(b.activity).OmissionSum());
    hide Bounds, MaxOf, AllProper;
  }

  lemma NoneCounted(a: Overflow, b: Overflow, runs: Counter)
    ensures var r := Bounds(Overflow(NONE, NONE, 0, false), a, b, runs).omitted;
      && r.source == MaxOf(a.omitted.source, b.omitted.source)
      && r.processing == MaxOf(a.omitted.processing, b.omitted.processing)
      && r.degraded == MaxOf(MaxOf(a.omitted.degraded, b.omitted.degraded), runs)
  {}

  lemma RunsAreListed(a: Record, b: Record, all: seq<Epoch>, runs: seq<Span>)
    requires Valid(a) && Valid(b) && AllProper(a.spans + b.spans) && Combines(a, b, all, runs)
    ensures forall s :: s in runs ==> EpochListed(all, s)
  {
    forall s | s in runs ensures EpochListed(all, s) {
      var first, _ := RunEnds(a.spans + b.spans, s);
      assert ValidSpan(a.epochs, first) || ValidSpan(b.epochs, first);
      var e :| (e in a.epochs || e in b.epochs) && e.id == s.kind.epoch;
      assert e in all;
    }
  }

  lemma NoRunsCounted(x: Activity)
    ensures x.CountRuns(0, 0, 0) == x
  {}
}
