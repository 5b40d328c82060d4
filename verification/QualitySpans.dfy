/** Positioned quality facts: intervals of source frames, what they say frame by frame, how matching ones
    coalesce, and how an outstanding live loss is split where a durable recovery already covers it. */
module QualitySpans {
  import opened Wrappers

  datatype Track = Mic | Tap | Both

  datatype Cause =
    | RingOverflow | HostDiscontinuity | LayoutChange | RateChange | TeeDrop | MicTapMismatch
    | DecodeFailure | NoResult | ResamplerFailure | WindowNotFiled | ForcedBoundary | FarReferenceSilent

  datatype Loss = SourceLoss | ProcessingLoss | DegradedOnly

  datatype Stage = Capture | Live | Batch

  datatype Resolution = Outstanding | RecoveredByBatch

  /** Everything about a span but its interval; spans of one kind coalesce. */
  datatype Kind = Kind(epoch: nat, track: Track, cause: Cause, loss: Loss, stage: Stage, resolution: Resolution)
  {
    function Recovered(): Kind { this.(resolution := RecoveredByBatch) }

    predicate LiveDebt() { stage.Live? && loss.ProcessingLoss? && resolution.Outstanding? }
  }

  datatype Span = Span(kind: Kind, start: nat, end: nat)
  {
    predicate Proper() { start < end }
  }

  /** `validate_class` and `validate_resolution`. */
  predicate Classified(k: Kind) {
    && (k.resolution.RecoveredByBatch? ==> k.loss.ProcessingLoss?)
    && match k.cause
       case RingOverflow | HostDiscontinuity => k.loss.SourceLoss?
       case LayoutChange | RateChange => k.loss.SourceLoss? || k.loss.DegradedOnly?
       case TeeDrop | MicTapMismatch | DecodeFailure | NoResult | WindowNotFiled => k.loss.ProcessingLoss?
       case ResamplerFailure => k.loss == if k.stage.Capture? then SourceLoss else ProcessingLoss
       case ForcedBoundary | FarReferenceSilent => k.loss.DegradedOnly?
  }

  /** What can be lost, seen from the losses: source only at capture and never recovered, processing by what works on
      captured audio, and a change of layout or rate may lose source or only degrade. */
  lemma LossesAreClassified(k: Kind)
    ensures Classified(k) <==>
      match k.loss
      case SourceLoss =>
        && k.resolution.Outstanding?
        && (k.cause in {RingOverflow, HostDiscontinuity, LayoutChange, RateChange} ||
            (k.cause.ResamplerFailure? && k.stage.Capture?))
      case ProcessingLoss =>
        k.cause in {TeeDrop, MicTapMismatch, DecodeFailure, NoResult, WindowNotFiled} ||
        (k.cause.ResamplerFailure? && !k.stage.Capture?)
      case DegradedOnly =>
        && k.resolution.Outstanding?
        && k.cause in {LayoutChange, RateChange, ForcedBoundary, FarReferenceSilent}
  {}

  // ---- frame by frame ----

  /** One statement: this kind of fact holds at this frame. */
  datatype Mark = Mark(kind: Kind, frame: int)

  predicate Has(s: Span, m: Mark) {
    m.kind == s.kind && s.start <= m.frame < s.end
  }

  ghost predicate Marked(spans: seq<Span>, m: Mark) {
    exists s :: s in spans && Has(s, m)
  }

  predicate AllProper(spans: seq<Span>) {
    forall s :: s in spans ==> s.Proper()
  }

  lemma MarkedPush(spans: seq<Span>, s: Span, m: Mark)
    ensures Marked(spans + [s], m) <==> Marked(spans, m) || Has(s, m)
  {
    if Marked(spans, m) {
      var t :| t in spans && Has(t, m);
      assert t in spans + [s];
    }
    assert s in spans + [s];
  }

  lemma MarkedConcat(a: seq<Span>, b: seq<Span>, m: Mark)
    ensures Marked(a + b, m) <==> Marked(a, m) || Marked(b, m)
  {
    if Marked(a, m) {
      var t :| t in a && Has(t, m);
      assert t in a + b;
    }
    if Marked(b, m) {
      var t :| t in b && Has(t, m);
      assert t in a + b;
    }
  }

  // ---- coalescing ----

  predicate Joins(a: Span, b: Span) {
    a.kind == b.kind && a.end >= b.start && b.end >= a.start
  }

  function Hull(a: Span, b: Span): Span {
    a.(start := if a.start < b.start then a.start else b.start, end := if a.end > b.end then a.end else b.end)
  }

  function SwapRemove(spans: seq<Span>, index: nat): seq<Span>
    requires index < |spans|
  {
    spans[index := spans[|spans| - 1]][..|spans| - 1]
  }

  lemma SwapRemoveElements(spans: seq<Span>, index: nat)
    requires index < |spans|
    ensures forall s :: s in spans <==> s in SwapRemove(spans, index) || s == spans[index]
  {
    var rest, n := SwapRemove(spans, index), |spans| - 1;
    forall s | s in spans ensures s in rest || s == spans[index] {
      var i :| 0 <= i < |spans| && spans[i] == s;
      if i != index {
        assert rest[if i == n then index else i] == s;
      }
    }
  }

  lemma JoinedSays(a: Span, b: Span, m: Mark)
    requires Joins(a, b) && a.Proper() && b.Proper()
    ensures Has(Hull(a, b), m) <==> Has(a, m) || Has(b, m)
  {}

  /** The widened span starts where the new one or one of its kind started. */
  predicate StartsLike(spans: seq<Span>, span: Span, widened: Span) {
    widened.start == span.start || exists s :: s in spans && s.kind == span.kind && s.start == widened.start
  }

  /** It ends where the new one or one of its kind ended. */
  predicate EndsLike(spans: seq<Span>, span: Span, widened: Span) {
    widened.end == span.end || exists s :: s in spans && s.kind == span.kind && s.end == widened.end
  }

  predicate JoinsSome(spans: seq<Span>, span: Span) {
    exists s :: s in spans && Joins(s, span)
  }

  /** No two spans of the list join. */
  predicate Separate(spans: seq<Span>) {
    forall i, j :: 0 <= i < j < |spans| ==> !Joins(spans[i], spans[j])
  }

  lemma SwapRemoveSeparate(spans: seq<Span>, index: nat)
    requires index < |spans| && Separate(spans)
    ensures Separate(SwapRemove(spans, index))
  {
    var rest, n := SwapRemove(spans, index), |spans| - 1;
    forall i, j | 0 <= i < j < n ensures !Joins(rest[i], rest[j]) {
      var p, q := if i == index then n else i, if j == index then n else j;
      assert rest[i] == spans[p] && rest[j] == spans[q];
      assert !Joins(spans[if p < q then p else q], spans[if p < q then q else p]);
    }
  }

  /** Removes every span that the new one joins, widening it each time, and starts over after each widening:
      what the list says, frame by frame, is unchanged, and nothing left joins the widened span. */
  method Coalesce(spans: seq<Span>, span: Span) returns (rest: seq<Span>, widened: Span)
    requires AllProper(spans) && span.Proper()
    ensures widened.kind == span.kind && widened.start <= span.start && span.end <= widened.end
    ensures StartsLike(spans, span, widened) && EndsLike(spans, span, widened)
    ensures Separate(spans) ==> Separate(rest)
    ensures forall m :: Marked(rest, m) || Has(widened, m) <==> Marked(spans, m) || Has(span, m)
    ensures forall s :: s in rest ==> s in spans && !Joins(s, widened)
    ensures if JoinsSome(spans, span) then |rest| < |spans| else rest == spans && widened == span
  {
    rest, widened := spans, span;
    var index := 0;
    while index < |rest|
      invariant index <= |rest| <= |spans|
      invariant |rest| < |spans| ==> JoinsSome(spans, span)
      invariant |rest| == |spans| ==> rest == spans && widened == span
      invariant widened.kind == span.kind && widened.start <= span.start && span.end <= widened.end && AllProper(rest)
      invariant StartsLike(spans, span, widened) && EndsLike(spans, span, widened)
      invariant Separate(spans) ==> Separate(rest)
      invariant forall m :: Marked(rest, m) || Has(widened, m) <==> Marked(spans, m) || Has(span, m)
      invariant forall s :: s in rest ==> s in spans
      invariant forall i :: 0 <= i < index ==> !Joins(rest[i], widened)
      decreases |rest|, |rest| - index
    {
      var previous := rest[index];
      if Joins(previous, widened) {
        SwapRemoveElements(rest, index);
        if Separate(spans) {
          SwapRemoveSeparate(rest, index);
        }
        forall m ensures Marked(SwapRemove(rest, index), m) || Has(Hull(widened, previous), m)
                         <==> Marked(rest, m) || Has(widened, m) {
          JoinedSays(widened, previous, m);
        }
        rest, widened := SwapRemove(rest, index), Hull(widened, previous);
        index := 0;
      } else {
        index := index + 1;
      }
    }
  }

  // ---- runs ----

  /** A maximal interval of frames on which the spans state one kind. */
  ghost predicate Run(spans: seq<Span>, s: Span) {
    && s.Proper()
    && (forall f :: s.start <= f < s.end ==> Marked(spans, Mark(s.kind, f)))
    && !Marked(spans, Mark(s.kind, s.start - 1)) && !Marked(spans, Mark(s.kind, s.end))
  }

  /** A run begins where some span begins and ends where one ends. */
  lemma RunEnds(spans: seq<Span>, run: Span) returns (first: Span, last: Span)
    requires AllProper(spans) && Run(spans, run)
    ensures first in spans && first.kind == run.kind && first.start == run.start
    ensures last in spans && last.kind == run.kind && last.end == run.end
  {
    var head, tail := Mark(run.kind, run.start), Mark(run.kind, run.end - 1);
    assert Marked(spans, head) && Marked(spans, tail);
    first :| first in spans && Has(first, head);
    last :| last in spans && Has(last, tail);
    assert !Has(first, Mark(run.kind, run.start - 1)) && !Has(last, Mark(run.kind, run.end));
  }

  /** Spans of which no two join are the runs of whatever says the same. */
  lemma SeparateAreRuns(spans: seq<Span>, r: seq<Span>, s: Span)
    requires AllProper(r) && Separate(r) && forall m :: Marked(r, m) <==> Marked(spans, m)
    ensures s in r <==> Run(spans, s)
  {
    if s in r {
      SeparateIsRun(r, s);
      forall f | s.start <= f < s.end ensures Marked(spans, Mark(s.kind, f)) {
        assert Marked(r, Mark(s.kind, f));
      }
    }
    if Run(spans, s) {
      assert Marked(r, Mark(s.kind, s.start));
      var t :| t in r && Has(t, Mark(s.kind, s.start));
      SeparateIsRun(r, t);
      assert Marked(r, Mark(t.kind, t.end)) <==> Marked(spans, Mark(t.kind, t.end));
      assert !Has(t, Mark(s.kind, s.start - 1)) by { assert !Marked(r, Mark(s.kind, s.start - 1)); }
      assert !Has(t, Mark(s.kind, s.end)) by { assert !Marked(r, Mark(s.kind, s.end)); }
      assert t.end >= s.end;
      assert t == s;
    }
  }

  lemma SeparateIsRun(r: seq<Span>, s: Span)
    requires AllProper(r) && Separate(r) && s in r
    ensures Run(r, s)
  {
    forall f | s.start <= f < s.end ensures Marked(r, Mark(s.kind, f)) {
      assert Has(s, Mark(s.kind, f));
    }
    var i :| 0 <= i < |r| && r[i] == s;
    forall t | t in r ensures !Has(t, Mark(s.kind, s.start - 1)) && !Has(t, Mark(s.kind, s.end)) {
      var j :| 0 <= j < |r| && r[j] == t;
      assert i < j ==> !Joins(r[i], r[j]);
      assert j < i ==> !Joins(r[j], r[i]);
    }
  }

  // ---- order ----

  function TrackRank(t: Track): nat {
    match t case Mic => 0 case Tap => 1 case Both => 2
  }

  function CauseRank(c: Cause): nat {
    match c
    case RingOverflow => 0
    case HostDiscontinuity => 1
    case LayoutChange => 2
    case RateChange => 3
    case TeeDrop => 4
    case MicTapMismatch => 5
    case DecodeFailure => 6
    case NoResult => 7
    case ResamplerFailure => 8
    case WindowNotFiled => 9
    case ForcedBoundary => 10
    case FarReferenceSilent => 11
  }

  function LossRank(l: Loss): nat {
    match l case SourceLoss => 0 case ProcessingLoss => 1 case DegradedOnly => 2
  }

  function StageRank(s: Stage): nat {
    match s case Capture => 0 case Live => 1 case Batch => 2
  }

  /** Track, cause, class, stage and resolution compared in turn. */
  function KindRank(k: Kind): nat {
    (((TrackRank(k.track) * 12 + CauseRank(k.cause)) * 3 + LossRank(k.loss)) * 3 + StageRank(k.stage)) * 2
    + if k.resolution.Outstanding? then 0 else 1
  }

  /** The order of the fields: epoch, start, end, and the kind. */
  predicate Less(a: Span, b: Span) {
    if a.kind.epoch != b.kind.epoch then a.kind.epoch < b.kind.epoch
    else if a.start != b.start then a.start < b.start
    else if a.end != b.end then a.end < b.end
    else KindRank(a.kind) < KindRank(b.kind)
  }

  lemma LessIsTotal(a: Span, b: Span)
    ensures a != b ==> Less(a, b) || Less(b, a)
  {
    if a.kind.epoch == b.kind.epoch && KindRank(a.kind) == KindRank(b.kind) {
      RanksDiffer(a.kind, b.kind);
    }
  }

  lemma RanksDiffer(a: Kind, b: Kind)
    requires a.epoch == b.epoch && KindRank(a) == KindRank(b)
    ensures a == b
  {
    assert TrackRank(a.track) == TrackRank(b.track);
    assert CauseRank(a.cause) == CauseRank(b.cause);
    assert LossRank(a.loss) == LossRank(b.loss);
    assert StageRank(a.stage) == StageRank(b.stage);
  }

  predicate Sorted(spans: seq<Span>) {
    forall i, j :: 0 <= i < j < |spans| ==> !Less(spans[j], spans[i])
  }

  method SortSpans(spans: seq<Span>) returns (sorted: seq<Span>)
    ensures Sorted(sorted) && multiset(sorted) == multiset(spans)
  {
    sorted := [];
    for i := 0 to |spans|
      invariant Sorted(sorted) && multiset(sorted) == multiset(spans[..i])
    {
      assert spans[..i + 1] == spans[..i] + [spans[i]];
      sorted := InsertSorted(sorted, spans[i]);
    }
    assert spans[..|spans|] == spans;
  }

  method InsertSorted(sorted: seq<Span>, span: Span) returns (r: seq<Span>)
    requires Sorted(sorted)
    ensures Sorted(r) && multiset(r) == multiset(sorted) + multiset{span}
  {
    var i := |sorted|;
    while i > 0 && Less(span, sorted[i - 1])
      invariant 0 <= i <= |sorted|
      invariant forall j :: i <= j < |sorted| ==> Less(span, sorted[j])
    {
      i := i - 1;
    }
    r := sorted[..i] + [span] + sorted[i..];
    InsertedSorted(sorted, span, i);
    assert sorted == sorted[..i] + sorted[i..];
  }

  lemma InsertedSorted(sorted: seq<Span>, span: Span, i: nat)
    requires Sorted(sorted) && i <= |sorted| && (i > 0 ==> !Less(span, sorted[i - 1]))
    requires forall j :: i <= j < |sorted| ==> Less(span, sorted[j])
    ensures Sorted(sorted[..i] + [span] + sorted[i..])
  {
    forall j | 0 <= j < i ensures !Less(span, sorted[j]) {
      assert j < i - 1 ==> !Less(sorted[i - 1], sorted[j]);
    }
  }

  lemma SameElements(a: seq<Span>, b: seq<Span>)
    requires multiset(a) == multiset(b)
    ensures |a| == |b| && forall s :: s in a <==> s in b
  {
    assert |multiset(a)| == |a| && |multiset(b)| == |b|;
    forall s ensures s in a <==> s in b {
      assert s in a <==> s in multiset(a);
      assert s in b <==> s in multiset(b);
    }
  }

  /** The runs of the spans, in order. */
  ghost predicate RunsOf(spans: seq<Span>, runs: seq<Span>) {
    && (forall i, j :: 0 <= i < j < |runs| ==> Less(runs[i], runs[j]))
    && (forall s :: s in runs <==> Run(spans, s))
  }

  /** What the spans say determines their runs, and so the list of them. */
  lemma RunsAreUnique(a: seq<Span>, b: seq<Span>, runs: seq<Span>, other: seq<Span>)
    requires RunsOf(a, runs) && RunsOf(b, other) && forall m :: Marked(a, m) <==> Marked(b, m)
    ensures runs == other
  {
    SameRuns(a, b, runs);
    SameAscending(runs, other);
  }

  lemma SameRuns(a: seq<Span>, b: seq<Span>, runs: seq<Span>)
    requires forall m :: Marked(a, m) <==> Marked(b, m)
    ensures RunsOf(a, runs) <==> RunsOf(b, runs)
  {
    forall s ensures Run(a, s) <==> Run(b, s) {
      forall f ensures Marked(a, Mark(s.kind, f)) <==> Marked(b, Mark(s.kind, f)) {}
      hide Marked;
    }
  }

  lemma {:induction false} SameAscending(x: seq<Span>, y: seq<Span>)
    requires forall i, j :: 0 <= i < j < |x| ==> Less(x[i], x[j])
    requires forall i, j :: 0 <= i < j < |y| ==> Less(y[i], y[j])
    requires forall s :: s in x <==> s in y
    ensures x == y
  {
    assert y != [] ==> y[0] in y;
    if x != [] {
      assert x[0] in x;
      var i :| 0 <= i < |y| && y[i] == x[0];
      var j :| 0 <= j < |x| && x[j] == y[0];
      assert x[0] == y[0];
      forall s ensures s in x[1..] <==> s in y[1..] {
        RestAscending(x, s);
        RestAscending(y, s);
      }
      SameAscending(x[1..], y[1..]);
      assert x == [x[0]] + x[1..] && y == [y[0]] + y[1..];
    }
  }

  lemma RestAscending(x: seq<Span>, s: Span)
    requires x != [] && forall i, j :: 0 <= i < j < |x| ==> Less(x[i], x[j])
    ensures s in x[1..] <==> s in x && s != x[0]
  {
    if s in x && s != x[0] {
      var i :| 0 <= i < |x| && x[i] == s;
      assert x[1..][i - 1] == s;
    }
    if s in x[1..] {
      var i :| 0 <= i < |x[1..]| && x[1..][i] == s;
      assert Less(x[0], x[i + 1]);
    }
  }

  /** Sorting separate spans lists the runs. */
  lemma SortedRuns(spans: seq<Span>, r: seq<Span>, sorted: seq<Span>)
    requires AllProper(r) && Separate(r) && forall m :: Marked(r, m) <==> Marked(spans, m)
    requires Sorted(sorted) && multiset(sorted) == multiset(r)
    ensures RunsOf(spans, sorted)
  {
    SameElements(sorted, r);
    forall s ensures s in sorted <==> Run(spans, s) {
      SeparateAreRuns(spans, r, s);
    }
    forall i, j | 0 <= i < j < |sorted| ensures Less(sorted[i], sorted[j]) {
      LessIsTotal(sorted[i], sorted[j]);
      NoRepeats(r, sorted, i, j);
    }
  }

  lemma NoRepeats(r: seq<Span>, sorted: seq<Span>, i: nat, j: nat)
    requires AllProper(r) && Separate(r) && multiset(sorted) == multiset(r) && i < j < |sorted|
    ensures sorted[i] != sorted[j]
  {
    OnceEach(r, sorted[i]);
    assert sorted == sorted[..i] + [sorted[i]] + sorted[i + 1..j] + [sorted[j]] + sorted[j + 1..];
    assert multiset(sorted)[sorted[i]] <= 1;
  }

  lemma {:induction false} OnceEach(r: seq<Span>, s: Span)
    requires AllProper(r) && Separate(r)
    ensures multiset(r)[s] <= 1
  {
    if r != [] {
      OnceEach(r[1..], s);
      assert r == [r[0]] + r[1..];
      assert r[0] in r;
      forall i | 1 <= i < |r| ensures r[i] != r[0] {
        assert !Joins(r[0], r[i]);
      }
      assert r[0] !in r[1..];
    }
  }

  // ---- splitting a live loss ----

  /** The recovered spans that may answer for a live loss. */
  predicate Answers(known: Span, span: Span) {
    known.kind == span.kind.Recovered() && known.start < span.end && known.end > span.start
  }

  predicate ByStart(spans: seq<Span>) {
    forall i, j :: 0 <= i < j < |spans| ==> spans[i].start <= spans[j].start
  }

  /** Insertion into a list sorted by start. */
  method InsertByStart(sorted: seq<Span>, span: Span) returns (r: seq<Span>)
    requires ByStart(sorted)
    ensures ByStart(r) && |r| == |sorted| + 1 && forall s :: s in r <==> s in sorted || s == span
  {
    var i := |sorted|;
    while i > 0 && span.start < sorted[i - 1].start
      invariant 0 <= i <= |sorted|
      invariant forall j :: i <= j < |sorted| ==> span.start < sorted[j].start
    {
      i := i - 1;
    }
    r := sorted[..i] + [span] + sorted[i..];
    assert forall s :: s in sorted <==> s in sorted[..i] || s in sorted[i..];
  }

  /** The answering spans, sorted by start. */
  method Recoveries(known: seq<Span>, span: Span) returns (r: seq<Span>)
    ensures ByStart(r) && |r| <= |known| && forall s :: s in r <==> s in known && Answers(s, span)
  {
    r := [];
    for i := 0 to |known|
      invariant ByStart(r) && |r| <= i && forall s :: s in r <==> s in known[..i] && Answers(s, span)
    {
      assert known[..i + 1] == known[..i] + [known[i]];
      if Answers(known[i], span) {
        r := InsertByStart(r, known[i]);
      }
    }
    assert known[..|known|] == known;
  }

  /** Consecutive, nonempty pieces from `from` to `to`. */
  predicate Tiles(pieces: seq<Span>, from: nat, to: nat) {
    if pieces == [] then from == to
    else
      var last := pieces[|pieces| - 1];
      from <= last.start && last.Proper() && last.end == to && Tiles(pieces[..|pieces| - 1], from, last.start)
  }

  lemma TilesPush(pieces: seq<Span>, from: nat, to: nat, piece: Span)
    requires Tiles(pieces, from, to) && from <= to && piece.Proper() && piece.start == to
    ensures Tiles(pieces + [piece], from, piece.end)
  {
    assert (pieces + [piece])[..|pieces|] == pieces;
  }

  /** A piece keeps the span's key, and is recovered exactly when a durable recovery covers its frames. */
  ghost predicate Decided(piece: Span, span: Span, known: seq<Span>) {
    && (piece.kind == span.kind || piece.kind == span.kind.Recovered())
    && forall f :: piece.start <= f < piece.end ==>
         (Marked(known, Mark(span.kind.Recovered(), f)) <==> piece.kind == span.kind.Recovered())
  }

  /** The sweep: the pieces tile the span, even when the recoveries overlap. */
  method Split(span: Span, known: seq<Span>) returns (pieces: seq<Span>)
    requires span.Proper() && span.kind.LiveDebt() && AllProper(known)
    ensures Tiles(pieces, span.start, span.end) && |pieces| <= 2 * |known| + 1
    ensures forall p :: p in pieces ==> Decided(p, span, known)
  {
    var recovered := Recoveries(known, span);
    var cursor := span.start;
    pieces := [];
    for i := 0 to |recovered|
      invariant span.start <= cursor <= span.end && Tiles(pieces, span.start, cursor) && |pieces| <= 2 * i
      invariant forall p :: p in pieces ==> Decided(p, span, known)
      invariant forall j :: 0 <= j < i ==> recovered[j].end <= cursor || cursor == span.end
    {
      var k := recovered[i];
      assert k in recovered;
      var start := if k.start > cursor then k.start else cursor;
      var end := if k.end < span.end then k.end else span.end;
      if start >= end {
        continue;
      }
      if cursor < start {
        var gap := Span(span.kind, cursor, start);
        GapIsUnanswered(span, known, recovered, i, cursor, start);
        TilesPush(pieces, span.start, cursor, gap);
        pieces := pieces + [gap];
      }
      var answered := Span(span.kind.Recovered(), start, end);
      assert Decided(answered, span, known) by {
        forall f | start <= f < end ensures Marked(known, Mark(span.kind.Recovered(), f)) {
          assert k in known && Has(k, Mark(span.kind.Recovered(), f));
        }
      }
      TilesPush(pieces, span.start, start, answered);
      pieces, cursor := pieces + [answered], end;
    }
    if cursor < span.end {
      var gap := Span(span.kind, cursor, span.end);
      GapIsUnanswered(span, known, recovered, |recovered|, cursor, span.end);
      TilesPush(pieces, span.start, cursor, gap);
      pieces := pieces + [gap];
    }
  }

  lemma GapIsUnanswered(span: Span, known: seq<Span>, recovered: seq<Span>, i: nat, cursor: nat, stop: nat)
    requires ByStart(recovered) && forall s :: s in recovered <==> s in known && Answers(s, span)
    requires i <= |recovered| && span.start <= cursor < stop <= span.end && span.kind.LiveDebt()
    requires forall j :: 0 <= j < i ==> recovered[j].end <= cursor || cursor == span.end
    requires i < |recovered| ==> stop <= recovered[i].start
    ensures Decided(Span(span.kind, cursor, stop), span, known)
  {
    forall f | cursor <= f < stop ensures !Marked(known, Mark(span.kind.Recovered(), f)) {
      if Marked(known, Mark(span.kind.Recovered(), f)) {
        var s :| s in known && Has(s, Mark(span.kind.Recovered(), f));
        assert Answers(s, span);
      }
    }
  }
}
