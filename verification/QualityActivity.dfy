/** Echo-activity evidence: three fixed slots into which several traversals of one recording merge, and the
    saturating 64-bit counters of a quality record. */
module QualityActivity {
  import opened Wrappers

  const U64_MAX: nat := 0xFFFF_FFFF_FFFF_FFFF
  const MAX_ACTIVITY_RATE_HZ: nat := 192_000

  type Counter = n: nat | n <= U64_MAX

  function SaturatingAdd(a: Counter, b: nat): Counter { if a + b > U64_MAX then U64_MAX else a + b }

  function MaxOf(a: Counter, b: Counter): Counter { if a > b then a else b }

  /** What was traversed: an opaque identity, zero being none, and its rate. */
  datatype Input = Input(identity: nat, rate: nat)
  {
    predicate Valid() { identity != 0 && 0 < rate <= MAX_ACTIVITY_RATE_HZ }

    predicate AtMost(other: Input) { identity < other.identity || (identity == other.identity && rate <= other.rate) }
  }

  /** One complete traversal. */
  datatype Extent = Extent(end: nat, allZero: bool)
  {
    predicate AtMost(other: Extent) { end < other.end || (end == other.end && (allZero ==> other.allZero)) }
  }

  /** Both known, and different. */
  predicate Differ<T(==)>(a: Option<T>, b: Option<T>) { a.Some? && b.Some? && a != b }

  function LeastInput(a: Option<Input>, b: Option<Input>): Option<Input> {
    if a.None? || (b.Some? && !a.value.AtMost(b.value)) then b else a
  }

  function LeastExtent(a: Option<Extent>, b: Option<Extent>): Option<Extent> {
    if a.None? || (b.Some? && !a.value.AtMost(b.value)) then b else a
  }

  datatype Evidence = Evidence(
    input: Option<Input>,
    observed: bool,
    nonzero: bool,
    sustainedZero: bool,
    absentLayout: bool,
    suspected: bool,
    uncertain: bool,
    bindingConflict: bool,
    proofConflict: bool,
    omittedRuns: Counter,
    complete: Option<Extent>)
  {
    predicate Valid() {
      if input.None? then this == NOTHING
      else
        && input.value.Valid()
        && (nonzero || sustainedZero ==> observed)
        && (suspected ==> sustainedZero)
        && (complete.Some? ==>
              && complete.value.end != 0 && (observed || absentLayout)
              && (complete.value.allZero == nonzero ==> proofConflict))
    }

    function Merge(other: Evidence): Evidence {
      var proof := LeastExtent(complete, other.complete);
      Evidence(
        LeastInput(input, other.input),
        observed || other.observed,
        nonzero || other.nonzero,
        sustainedZero || other.sustainedZero,
        absentLayout || other.absentLayout,
        suspected || other.suspected,
        uncertain || other.uncertain,
        bindingConflict || other.bindingConflict || Differ(input, other.input),
        proofConflict || other.proofConflict || Differ(complete, other.complete)
        || (proof.Some? && proof.value.allZero && (nonzero || other.nonzero)),
        MaxOf(omittedRuns, other.omittedRuns),
        proof)
    }

    /** Omitted runs are counted only where there is an input. */
    function CountRuns(runs: Counter): Evidence {
      if input.Some? then this.(omittedRuns := MaxOf(omittedRuns, runs)) else this
    }
  }

  const NOTHING: Evidence :=
    Evidence(None, false, false, false, false, false, false, false, false, 0, None)

  lemma InputsMerge(a: Option<Input>, b: Option<Input>, c: Option<Input>)
    ensures LeastInput(a, b) == LeastInput(b, a)
    ensures LeastInput(LeastInput(a, b), c) == LeastInput(a, LeastInput(b, c))
    ensures Differ(a, b) || Differ(LeastInput(a, b), c) <==> Differ(b, c) || Differ(a, LeastInput(b, c))
  {}

  lemma ExtentsMerge(a: Option<Extent>, b: Option<Extent>, c: Option<Extent>)
    ensures LeastExtent(a, b) == LeastExtent(b, a)
    ensures LeastExtent(LeastExtent(a, b), c) == LeastExtent(a, LeastExtent(b, c))
    ensures Differ(a, b) || Differ(LeastExtent(a, b), c) <==> Differ(b, c) || Differ(a, LeastExtent(b, c))
  {}

  /** A traversal that does not contradict the others keeps its verdict on silence. */
  lemma ProofsAgree(a: Option<Extent>, b: Option<Extent>)
    requires !Differ(a, b)
    ensures a.Some? ==> LeastExtent(a, b) == a
    ensures b.Some? ==> LeastExtent(a, b) == b
  {}

  /** Traversals merge in any order and any number of times. */
  lemma MergeIsASemilattice(a: Evidence, b: Evidence, c: Evidence)
    requires a.Valid() && b.Valid() && c.Valid()
    ensures a.Merge(a) == a
    ensures a.Merge(b) == b.Merge(a)
    ensures a.Merge(b).Merge(c) == a.Merge(b.Merge(c))
  {
    MergeAgain(a);
    MergeCommutes(a, b);
    MergeAssociates(a, b, c);
    hide Evidence.Merge, Evidence.Valid;
  }

  lemma MergeCommutes(a: Evidence, b: Evidence)
    ensures a.Merge(b) == b.Merge(a)
  {
    InputsMerge(a.input, b.input, None);
    ExtentsMerge(a.complete, b.complete, None);
    hide LeastInput, LeastExtent;
  }

  lemma MergeAssociates(a: Evidence, b: Evidence, c: Evidence)
    ensures a.Merge(b).Merge(c) == a.Merge(b.Merge(c))
  {
    InputsMerge(a.input, b.input, c.input);
    ExtentsMerge(a.complete, b.complete, c.complete);
    SameProofConflict(a, b, c);
    hide Differ, LeastInput, LeastExtent;
    var l, r := a.Merge(b).Merge(c), a.Merge(b.Merge(c));
    assert l.input == r.input && l.complete == r.complete;
    assert l.bindingConflict == r.bindingConflict && l.omittedRuns == r.omittedRuns;
  }

  lemma MergeAgain(a: Evidence)
    requires a.Valid()
    ensures a.Merge(a) == a
  {}

  lemma SameProofConflict(a: Evidence, b: Evidence, c: Evidence)
    ensures a.Merge(b).Merge(c).proofConflict == a.Merge(b.Merge(c)).proofConflict
  {
    ExtentsMerge(a.complete, b.complete, c.complete);
    var ab, bc := LeastExtent(a.complete, b.complete), LeastExtent(b.complete, c.complete);
    if !Differ(a.complete, b.complete) && !Differ(ab, c.complete) {
      ProofsAgree(ab, c.complete);
      ProofsAgree(a.complete, bc);
    }
  }

  lemma MergeIsValid(a: Evidence, b: Evidence)
    requires a.Valid() && b.Valid()
    ensures a.Merge(b).Valid()
  {
    if a.input.Some? && b.input.Some? {
      if a.complete.Some? && b.complete.Some? && a.complete == b.complete {
        assert a.Merge(b).complete == a.complete;
      }
    }
  }

  /** One of the two, none only if neither is known, and at most either. */
  predicate LeastInputOf(a: Option<Input>, b: Option<Input>, r: Option<Input>) {
    && (r == a || r == b) && (r.None? ==> a.None? && b.None?)
    && (r.Some? && a.Some? ==> r.value.AtMost(a.value)) && (r.Some? && b.Some? ==> r.value.AtMost(b.value))
  }

  predicate LeastExtentOf(a: Option<Extent>, b: Option<Extent>, r: Option<Extent>) {
    && (r == a || r == b) && (r.None? ==> a.None? && b.None?)
    && (r.Some? && a.Some? ==> r.value.AtMost(a.value)) && (r.Some? && b.Some? ==> r.value.AtMost(b.value))
  }

  /** What two traversals of one scope add up to. Every observation is sticky, and none is made up; a conflict is
      never lost, and is new only between two inputs, between two extents, or between the proof that everything was
      silent and an observation that something was not. Input and extent are those of one side. */
  predicate AddsUp(a: Evidence, b: Evidence, r: Evidence) {
    && (r.observed <==> a.observed || b.observed) && (r.nonzero <==> a.nonzero || b.nonzero)
    && (r.sustainedZero <==> a.sustainedZero || b.sustainedZero)
    && (r.absentLayout <==> a.absentLayout || b.absentLayout)
    && (r.suspected <==> a.suspected || b.suspected) && (r.uncertain <==> a.uncertain || b.uncertain)
    && LeastInputOf(a.input, b.input, r.input)
    && LeastExtentOf(a.complete, b.complete, r.complete)
    && (r.bindingConflict <==> a.bindingConflict || b.bindingConflict || Differ(a.input, b.input))
    && (r.proofConflict <==>
          || a.proofConflict || b.proofConflict || Differ(a.complete, b.complete)
          || (r.complete.Some? && r.complete.value.allZero && r.nonzero))
    && r.omittedRuns >= a.omittedRuns && r.omittedRuns >= b.omittedRuns
  }

  lemma MergeAddsUp(a: Evidence, b: Evidence)
    ensures AddsUp(a, b, a.Merge(b)) && a.Merge(b).omittedRuns == MaxOf(a.omittedRuns, b.omittedRuns)
  {}

  /** More omitted runs do not change that. */
  lemma CountedAddsUp(a: Evidence, b: Evidence, runs: Counter)
    ensures var r := a.Merge(b).CountRuns(runs);
      AddsUp(a, b, r) &&
      r.omittedRuns == MaxOf(MaxOf(a.omittedRuns, b.omittedRuns), if r.input.None? then 0 else runs)
  {
    MergeAddsUp(a, b);
    hide Evidence.Merge;
  }

  datatype Scope = CaptureScope | OfflineScope | LiveScope

  datatype Activity = Activity(omissionsSaturated: bool, capture: Evidence, offline: Evidence, live: Evidence)
  {
    function Get(scope: Scope): Evidence {
      match scope
      case CaptureScope => capture
      case OfflineScope => offline
      case LiveScope => live
    }

    predicate Valid() { capture.Valid() && offline.Valid() && live.Valid() }

    function Merge(other: Activity): Activity {
      Activity(omissionsSaturated || other.omissionsSaturated,
               capture.Merge(other.capture), offline.Merge(other.offline), live.Merge(other.live))
    }

    /** `activity_omission_sum`. */
    function OmissionSum(): (sum: Counter)
      ensures !SumSaturates() ==> sum == capture.omittedRuns + offline.omittedRuns + live.omittedRuns
      ensures SumSaturates() ==> sum == U64_MAX
    {
      SaturatingAdd(SaturatingAdd(capture.omittedRuns, offline.omittedRuns), live.omittedRuns)
    }

    predicate SumSaturates() { capture.omittedRuns + offline.omittedRuns + live.omittedRuns > U64_MAX }

    /** More omitted runs of each scope. */
    function CountRuns(ofCapture: Counter, ofOffline: Counter, ofLive: Counter): Activity {
      this.(capture := capture.CountRuns(ofCapture), offline := offline.CountRuns(ofOffline),
            live := live.CountRuns(ofLive))
    }
  }

  /** In every scope; and the saturation of the omissions is recorded if it was, or if it occurs now. */
  predicate AllAddUp(a: Activity, b: Activity, r: Activity) {
    && (forall scope :: AddsUp(a.Get(scope), b.Get(scope), r.Get(scope)))
    && (r.omissionsSaturated <==> a.omissionsSaturated || b.omissionsSaturated || r.SumSaturates())
  }

  const NO_ACTIVITY: Activity := Activity(false, NOTHING, NOTHING, NOTHING)

  lemma MergeKeepsActivity(a: Activity, b: Activity)
    requires a.Valid() && b.Valid()
    ensures a.Merge(b).Valid()
    ensures a.Merge(b).OmissionSum() > 0 ==> a.OmissionSum() > 0 || b.OmissionSum() > 0
  {
    MergeIsValid(a.capture, b.capture);
    MergeIsValid(a.offline, b.offline);
    MergeIsValid(a.live, b.live);
    hide Evidence.Valid, Evidence.Merge;
  }

  lemma ActivitiesCommute(a: Activity, b: Activity)
    requires a.Valid() && b.Valid()
    ensures a.Merge(b) == b.Merge(a) && a.Merge(a) == a
  {
    MergeIsASemilattice(a.capture, b.capture, b.capture);
    MergeIsASemilattice(a.offline, b.offline, b.offline);
    MergeIsASemilattice(a.live, b.live, b.live);
    hide Evidence.Valid, Evidence.Merge;
  }

  lemma CountRunsKeepsValid(a: Activity, capture: Counter, offline: Counter, live: Counter)
    requires a.Valid()
    ensures a.CountRuns(capture, offline, live).Valid()
    ensures a.CountRuns(capture, offline, live).OmissionSum() > 0 ==>
      a.OmissionSum() > 0 || capture > 0 || offline > 0 || live > 0
  {}
}
