/** The part of a quality record that fits a note's front matter: every epoch, the longest prefix of the spans
    whose serialised record fits, and counters for the rest. The serialised size is a parameter. */
module QualityProjection {
  import opened Wrappers
  import opened QualityActivity
  import opened QualityEpochs
  import opened QualitySpans
  import opened QualityRecord

  const QUALITY_FRONTMATTER_BYTES: nat := 48 * 1024

  /** The record with the spans from `n` on counted instead of listed, the last one first. */
  function Projected(q: Record, n: nat): (p: Record)
    requires n <= |q.spans|
    ensures p.spans == q.spans[..n] && p.epochs == q.epochs && p.observed == q.observed
    decreases |q.spans| - n
  {
    if n == |q.spans| then q
    else
      var p := Projected(q, n + 1);
      p.(spans := p.spans[..n], overflow := p.overflow.Omit(q.spans[n].kind, true))
  }

  /** How many spans from `n` on are of the class. */
  function CountFrom(spans: seq<Span>, n: nat, loss: Loss): nat
    requires n <= |spans|
    decreases |spans| - n
  {
    if n == |spans| then 0 else CountFrom(spans, n + 1, loss) + if spans[n].kind.loss == loss then 1 else 0
  }

  /** How many of them are outstanding. */
  function OwedFrom(spans: seq<Span>, n: nat, loss: Loss): nat
    requires n <= |spans|
    decreases |spans| - n
  {
    if n == |spans| then 0
    else OwedFrom(spans, n + 1, loss) + if spans[n].kind.loss == loss && spans[n].kind.resolution.Outstanding? then 1 else 0
  }

  lemma {:induction false} ProjectionIsValid(q: Record, n: nat)
    requires Valid(q) && n <= |q.spans|
    ensures Valid(Projected(q, n)) && Projected(q, n).overflow.Covers(q.overflow)
    decreases |q.spans| - n
  {
    if n < |q.spans| {
      ProjectionIsValid(q, n + 1);
      assert q.spans[n] in q.spans;
      OmitKeepsConsistent(Projected(q, n + 1).overflow, q.spans[n].kind, true);
      PrefixIsValid(q.epochs, q.spans, n);
      hide ValidSpan, AllValid, EpochsInOrder, Overflow.Omit, Overflow.Consistent;
      assert Projected(q, n).overflow == Projected(q, n + 1).overflow.Omit(q.spans[n].kind, true);
    }
  }

  lemma PrefixIsValid(epochs: seq<Epoch>, spans: seq<Span>, n: nat)
    requires AllValid(epochs, spans) && n <= |spans|
    ensures AllValid(epochs, spans[..n])
  {}

  /** What is no longer listed is counted, class by class, up to the counter's saturation, and outstanding facts
      as outstanding. */
  lemma {:induction false} ProjectionConserves(q: Record, n: nat, loss: Loss)
    requires n <= |q.spans|
    ensures Projected(q, n).overflow.omitted.Get(loss)
            == SaturatingAdd(q.overflow.omitted.Get(loss), CountFrom(q.spans, n, loss))
    ensures Projected(q, n).overflow.outstanding.Get(loss)
            == SaturatingAdd(q.overflow.outstanding.Get(loss), OwedFrom(q.spans, n, loss))
    decreases |q.spans| - n
  {
    if n < |q.spans| {
      ProjectionConserves(q, n + 1, loss);
      ProjectedStep(q, n);
      OmitCounts(Projected(q, n + 1).overflow, q.spans[n].kind, loss);
      hide Projected, Overflow.Omit, Counts.Get;
    }
  }

  lemma ProjectedStep(q: Record, n: nat)
    requires n < |q.spans|
    ensures var p := Projected(q, n + 1);
      Projected(q, n) == p.(spans := p.spans[..n], overflow := p.overflow.Omit(q.spans[n].kind, true))
  {}

  /** Outstanding loss of a class is neither hidden nor invented. */
  lemma {:induction false} ProjectionOwesTheSame(q: Record, n: nat, loss: Loss)
    requires n <= |q.spans|
    ensures Owes(Projected(q, n), loss) <==> Owes(q, loss)
    decreases |q.spans| - n
  {
    if n < |q.spans| {
      ProjectionOwesTheSame(q, n + 1, loss);
      OmitOwes(Projected(q, n + 1).overflow, q.spans[n].kind, loss);
      assert q.spans[..n + 1] == q.spans[..n] + [q.spans[n]];
      OwesPush(q.spans[..n], q.spans[n], loss);
    } else {
      assert q.spans[..n] == q.spans;
    }
  }

  lemma OmitOwes(o: Overflow, k: Kind, loss: Loss)
    ensures o.Omit(k, true).outstanding.Get(loss) > 0 <==>
      o.outstanding.Get(loss) > 0 || (k.loss == loss && k.resolution.Outstanding?)
  {}

  datatype ProjectionError = InvalidRecord | ExceedsPrefixBudget

  predicate TooBig(q: Record, n: nat, size: Record -> nat)
    requires n <= |q.spans|
  {
    size(Projected(q, n)) > QUALITY_FRONTMATTER_BYTES
  }

  /** The longest prefix of at most `n` spans that fits. */
  function Fit(q: Record, n: nat, size: Record -> nat): Result<Record, ProjectionError>
    requires n <= |q.spans|
  {
    if !TooBig(q, n, size) then Ok(Projected(q, n))
    else if n == 0 then Err(ExceedsPrefixBudget)
    else Fit(q, n - 1, size)
  }

  function Projection(q: Record, size: Record -> nat): Result<Record, ProjectionError> {
    if !Valid(q) then Err(InvalidRecord) else Fit(q, |q.spans|, size)
  }

  /** Pops spans until the rest fits. */
  method QualityFrontmatterProjection(q: Record, size: Record -> nat) returns (r: Result<Record, ProjectionError>)
    ensures r == Projection(q, size)
  {
    if !Valid(q) {
      return Err(InvalidRecord);
    }
    var projection := q;
    assert Projected(q, |q.spans|) == q;
    hide Valid, Overflow.Omit, Projected, Fit;
    while size(projection) > QUALITY_FRONTMATTER_BYTES
      invariant |projection.spans| <= |q.spans| && projection == Projected(q, |projection.spans|)
      invariant Fit(q, |q.spans|, size) == Fit(q, |projection.spans|, size)
      decreases |projection.spans|
    {
      FitStep(q, |projection.spans|, size);
      if projection.spans == [] {
        return Err(ExceedsPrefixBudget);
      }
      var n := |projection.spans| - 1;
      ProjectedStep(q, n);
      projection := projection.(spans := projection.spans[..n],
                                overflow := projection.overflow.Omit(projection.spans[n].kind, true));
    }
    FitStep(q, |projection.spans|, size);
    return Ok(projection);
  }

  lemma FitStep(q: Record, n: nat, size: Record -> nat)
    requires n <= |q.spans|
    ensures Fit(q, n, size) ==
      if !TooBig(q, n, size) then Ok(Projected(q, n)) else if n == 0 then Err(ExceedsPrefixBudget) else Fit(q, n - 1, size)
  {}

  /** The longest prefix of at most `n` spans: valid, within the budget, and nothing longer is; there is none
      exactly if every prefix exceeds the budget. */
  lemma {:induction false} FitsOrNot(q: Record, n: nat, size: Record -> nat)
    requires Valid(q) && n <= |q.spans|
    ensures match Fit(q, n, size)
            case Ok(p) =>
              && |p.spans| <= n && p == Projected(q, |p.spans|) && Valid(p) && !TooBig(q, |p.spans|, size)
              && (forall k :: |p.spans| < k <= n ==> TooBig(q, k, size))
            case Err(e) => e.ExceedsPrefixBudget? && forall k :: 0 <= k <= n ==> TooBig(q, k, size)
  {
    hide Valid, TooBig, Projected;
    ProjectionIsValid(q, n);
    if n > 0 {
      FitsOrNot(q, n - 1, size);
    }
  }

  /** The projection of a valid record is the longest prefix that fits, with every epoch and the rest counted, or
      an error exactly if not even the epochs fit. */
  lemma ProjectionIsLongest(q: Record, size: Record -> nat)
    requires Valid(q)
    ensures Projection(q, size).Err? <==> forall n :: 0 <= n <= |q.spans| ==> TooBig(q, n, size)
    ensures Projection(q, size).Ok? ==>
      var p := Projection(q, size).value;
      && Valid(p) && p.epochs == q.epochs && p.spans <= q.spans && p == Projected(q, |p.spans|)
      && size(p) <= QUALITY_FRONTMATTER_BYTES
      && (forall n :: |p.spans| < n <= |q.spans| ==> TooBig(q, n, size))
  {
    hide Valid, Projected, Fit;
    FitsOrNot(q, |q.spans|, size);
  }
}
