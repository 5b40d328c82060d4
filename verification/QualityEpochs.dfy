/** Capture epochs: stretches of one capture with fixed rates, the two clocks they map source frames to, the
    order that a list of them must keep, and the union of two lists. */
module QualityEpochs {
  import opened Wrappers
  import opened QualityActivity

  const U32_MAX: nat := 0xFFFF_FFFF
  const NANOS: nat := 1_000_000_000

  datatype Reason = Start | HostDiscontinuity | LayoutChange | RateChange

  datatype Epoch = Epoch(
    id: nat,
    sourceStart: Option<nat>,
    sourceRate: nat,
    base: nat,
    retainedStart: nat,
    retainedRate: nat,
    mic: nat,
    tap: nat,
    reason: Reason)
  {
    predicate Valid() { sourceRate != 0 && retainedRate != 0 && 0 < mic + tap <= U32_MAX }

    /** Recording-relative nanoseconds at a source frame, rounded down. */
    function Time(frame: nat): nat
      requires Valid() && sourceStart.Some? && base <= frame
    {
      sourceStart.value + Scaled(frame - base, NANOS, sourceRate)
    }

    /** The frame of the fixed-rate recording at a source frame, rounded down. */
    function Retained(frame: nat): nat
      requires Valid() && base <= frame
    {
      retainedStart + Scaled(frame - base, retainedRate, sourceRate)
    }

    /** Both clocks reach the frame within 64 bits. */
    predicate Reaches(frame: nat) {
      && Valid() && base <= frame
      && (sourceStart.Some? ==> Time(frame) <= U64_MAX)
      && Retained(frame) <= U64_MAX
    }
  }

  /** A later epoch of the same capture. */
  predicate Precedes(e: Epoch, f: Epoch) {
    && e.id < f.id && !f.reason.Start? && e.retainedRate == f.retainedRate && e.retainedStart <= f.retainedStart
    && (e.sourceStart.Some? && f.sourceStart.Some? ==> e.sourceStart.value <= f.sourceStart.value)
  }

  /** Valid epochs, each preceding all later ones, the first of which starts the capture. */
  predicate EpochsInOrder(epochs: seq<Epoch>) {
    && (forall e :: e in epochs ==> e.Valid())
    && (forall i, j :: 0 <= i < j < |epochs| ==> Precedes(epochs[i], epochs[j]))
    && (epochs != [] ==> epochs[0].reason.Start?)
  }

  // ---- the clocks ----

  function Scaled(frames: nat, per: nat, rate: nat): nat
    requires rate != 0
  {
    frames * per / rate
  }

  lemma ScaledGrows(a: nat, b: nat, per: nat, rate: nat)
    requires a <= b && rate != 0
    ensures Scaled(a, per, rate) <= Scaled(b, per, rate)
  {
    assert a * per <= b * per;
    QuotientGrows(a * per, b * per, rate);
  }

  lemma QuotientGrows(x: nat, y: nat, d: nat)
    requires x <= y && d != 0
    ensures x / d <= y / d
  {
    var p, q := x / d, y / d;
    assert d * p <= x && y < d * q + d;
    SmallerFactor(d, p, q);
  }

  lemma SmallerFactor(d: nat, p: nat, q: nat)
    requires d != 0 && d * p < d * q + d
    ensures p <= q
  {
    var k := p - q - 1;
    assert d * k < 0;
    assert k >= 0 ==> d * k >= 0;
  }

  /** A source frame that the clocks reach, not after the known start of the next epoch. */
  predicate EndFits(epochs: seq<Epoch>, i: nat, end: nat)
    requires i < |epochs|
  {
    && epochs[i].Reaches(end)
    && (i + 1 < |epochs| && epochs[i].sourceStart.Some? && epochs[i + 1].sourceStart.Some? ==>
          epochs[i].Time(end) <= epochs[i + 1].sourceStart.value)
  }

  /** The interval lies in the epoch of that id. */
  predicate Placed(epochs: seq<Epoch>, id: nat, start: nat, end: nat) {
    exists i :: 0 <= i < |epochs| && epochs[i].id == id && epochs[i].base <= start && EndFits(epochs, i, end)
  }

  /** What ends earlier fits as well. */
  lemma EarlierFits(epochs: seq<Epoch>, i: nat, sooner: nat, end: nat)
    requires i < |epochs| && EndFits(epochs, i, end) && epochs[i].base <= sooner <= end
    ensures EndFits(epochs, i, sooner)
  {
    var e := epochs[i];
    ScaledGrows(sooner - e.base, end - e.base, NANOS, e.sourceRate);
    ScaledGrows(sooner - e.base, end - e.base, e.retainedRate, e.sourceRate);
    hide Scaled;
  }

  lemma IdsGrow(epochs: seq<Epoch>, i: nat, j: nat)
    requires EpochsInOrder(epochs) && i < |epochs| && j < |epochs|
    ensures epochs[i].id < epochs[j].id <==> i < j
  {
    if i < j {
      assert Precedes(epochs[i], epochs[j]);
    } else if j < i {
      assert Precedes(epochs[j], epochs[i]);
    }
  }

  /** No two epochs share an id, so an interval lies in the epoch that has its id. */
  lemma PlacedIn(epochs: seq<Epoch>, i: nat, start: nat, end: nat)
    requires EpochsInOrder(epochs) && i < |epochs|
    ensures Placed(epochs, epochs[i].id, start, end) <==> epochs[i].base <= start && EndFits(epochs, i, end)
  {
    hide EndFits;
    if Placed(epochs, epochs[i].id, start, end) {
      var j :| 0 <= j < |epochs| && epochs[j].id == epochs[i].id && epochs[j].base <= start && EndFits(epochs, j, end);
      IdsGrow(epochs, i, j);
      IdsGrow(epochs, j, i);
    }
  }

  /** Two intervals placed in different epochs never overlap on the clock of the recording, provided that both
      epochs and the one that follows the earlier of them say where they start. */
  lemma PlacedApart(epochs: seq<Epoch>, i: nat, j: nat, start: nat, end: nat, start': nat, end': nat)
    requires EpochsInOrder(epochs) && i < j < |epochs| && start' <= end'
    requires Placed(epochs, epochs[i].id, start, end) && Placed(epochs, epochs[j].id, start', end')
    requires epochs[i].sourceStart.Some? && epochs[i + 1].sourceStart.Some? && epochs[j].sourceStart.Some?
    ensures epochs[i].Valid() && epochs[j].Valid() && epochs[i].base <= end && epochs[j].base <= start'
    ensures epochs[i].Time(end) <= epochs[j].sourceStart.value <= epochs[j].Time(start')
  {
    PlacedIn(epochs, i, start, end);
    PlacedIn(epochs, j, start', end');
    assert i + 1 < j ==> Precedes(epochs[i + 1], epochs[j]);
    hide Scaled, Placed, EpochsInOrder;
  }

  /** An epoch of unknown start hides where the one before it ends: the intervals overlap. */
  lemma UnknownStartOverlaps(id: nat)
    ensures var first := Epoch(id, Some(0), 1, 0, 0, 1, 1, 0, Start);
      var hidden := Epoch(id + 1, None, 1, 0, 0, 1, 1, 0, RateChange);
      var last := Epoch(id + 2, Some(NANOS), 1, 0, 0, 1, 1, 0, RateChange);
      var epochs := [first, hidden, last];
      && EpochsInOrder(epochs) && Placed(epochs, id, 0, 3) && Placed(epochs, id + 2, 0, 1)
      && last.Time(0) < first.Time(3)
  {
    var first := Epoch(id, Some(0), 1, 0, 0, 1, 1, 0, Start);
    var hidden := Epoch(id + 1, None, 1, 0, 0, 1, 1, 0, RateChange);
    var last := Epoch(id + 2, Some(NANOS), 1, 0, 0, 1, 1, 0, RateChange);
    var epochs := [first, hidden, last];
    assert epochs[0].id == id && EndFits(epochs, 0, 3);
    assert epochs[2].id == id + 2 && EndFits(epochs, 2, 1);
  }

  // ---- one pass over a list ----

  datatype Error = InvalidRate | InvalidChannels | InvalidEpochOrder | ConflictingEpoch | Invalid

  function EpochError(e: Epoch): Error
    requires !e.Valid()
  {
    if e.sourceRate == 0 || e.retainedRate == 0 then InvalidRate else InvalidChannels
  }

  /** Everything up to `i` is in order, and `last` is the latest known start. */
  ghost predicate CheckedTo(epochs: seq<Epoch>, i: nat, last: Option<nat>)
    requires i <= |epochs|
  {
    && EpochsInOrder(epochs[..i])
    && (forall j :: 0 <= j < i && epochs[j].sourceStart.Some? ==>
          last.Some? && epochs[j].sourceStart.value <= last.value)
    && (last.Some? ==> exists j :: 0 <= j < i && epochs[j].sourceStart == last)
  }

  /** Comparing neighbours, and each known start with the last known one, is comparing all pairs. */
  method ValidateEpochs(epochs: seq<Epoch>) returns (r: Result<(), Error>)
    ensures r.Ok? <==> EpochsInOrder(epochs)
    ensures r.Err? ==> r.error.InvalidRate? || r.error.InvalidChannels? || r.error.InvalidEpochOrder?
  {
    var last: Option<nat> := None;
    for i := 0 to |epochs|
      invariant CheckedTo(epochs, i, last)
    {
      var e := epochs[i];
      OutOfOrder(epochs, i, last);
      if !e.Valid() {
        return Err(EpochError(e));
      }
      if i == 0 {
        if !e.reason.Start? {
          return Err(InvalidEpochOrder);
        }
      } else {
        var previous := epochs[i - 1];
        if e.id <= previous.id || e.reason.Start? || e.retainedRate != previous.retainedRate
           || e.retainedStart < previous.retainedStart {
          return Err(InvalidEpochOrder);
        }
      }
      if e.sourceStart.Some? {
        if last.Some? && e.sourceStart.value < last.value {
          return Err(InvalidEpochOrder);
        }
        last := e.sourceStart;
      }
    }
    assert epochs[..|epochs|] == epochs;
    return Ok(());
  }

  /** The test of one epoch against its predecessor and the last known start. */
  predicate Follows(epochs: seq<Epoch>, i: nat, last: Option<nat>)
    requires i < |epochs|
  {
    var e := epochs[i];
    && e.Valid()
    && (if i == 0 then e.reason.Start?
        else
          var previous := epochs[i - 1];
          previous.id < e.id && !e.reason.Start? && e.retainedRate == previous.retainedRate
          && previous.retainedStart <= e.retainedStart)
    && (e.sourceStart.Some? && last.Some? ==> last.value <= e.sourceStart.value)
  }

  lemma OutOfOrder(epochs: seq<Epoch>, i: nat, last: Option<nat>)
    requires i < |epochs| && CheckedTo(epochs, i, last)
    ensures EpochsInOrder(epochs) ==> Follows(epochs, i, last)
    ensures Follows(epochs, i, last) ==>
      CheckedTo(epochs, i + 1, if epochs[i].sourceStart.Some? then epochs[i].sourceStart else last)
  {
    var before, after := epochs[..i], epochs[..i + 1];
    assert after == before + [epochs[i]];
    if Follows(epochs, i, last) {
      forall j | 0 <= j < i ensures Precedes(epochs[j], epochs[i]) {
        if j < i - 1 {
          assert Precedes(before[j], before[i - 1]);
        }
      }
    }
    if EpochsInOrder(epochs) {
      assert epochs[i] in epochs;
      if last.Some? {
        var j :| 0 <= j < i && epochs[j].sourceStart == last;
        assert Precedes(epochs[j], epochs[i]);
      }
      if i > 0 {
        assert Precedes(epochs[i - 1], epochs[i]);
      }
    }
  }

  // ---- union ----

  predicate ById(epochs: seq<Epoch>) {
    forall i, j :: 0 <= i < j < |epochs| ==> epochs[i].id < epochs[j].id
  }

  /** The list holds the epochs of both, by id. */
  ghost predicate Unites(a: seq<Epoch>, b: seq<Epoch>, all: seq<Epoch>) {
    ById(all) && forall e :: e in all <==> e in a || e in b
  }

  /** Any epoch of one is also in the other, or precedes or follows each epoch there. */
  predicate EpochsAgree(a: seq<Epoch>, b: seq<Epoch>) {
    forall e, f :: e in a && f in b ==> e == f || Precedes(e, f) || Precedes(f, e)
  }

  /** Two different epochs have the same id. */
  predicate Conflict(a: seq<Epoch>, b: seq<Epoch>) {
    exists e, f :: e in a && f in b && e.id == f.id && e != f
  }

  method InsertById(sorted: seq<Epoch>, epoch: Epoch) returns (r: seq<Epoch>)
    requires ById(sorted) && forall e :: e in sorted ==> e.id != epoch.id
    ensures ById(r) && |r| == |sorted| + 1 && forall e :: e in r <==> e in sorted || e == epoch
  {
    var i := |sorted|;
    while i > 0 && epoch.id < sorted[i - 1].id
      invariant 0 <= i <= |sorted|
      invariant forall j :: i <= j < |sorted| ==> epoch.id < sorted[j].id
    {
      i := i - 1;
    }
    assert forall j :: 0 <= j < i ==> sorted[j].id < epoch.id by {
      if i > 0 {
        assert sorted[i - 1] in sorted;
      }
    }
    r := sorted[..i] + [epoch] + sorted[i..];
    assert forall e :: e in sorted <==> e in sorted[..i] || e in sorted[i..];
  }

  method AddEpoch(a: seq<Epoch>, b: seq<Epoch>, i: nat, epochs: seq<Epoch>) returns (r: Option<seq<Epoch>>)
    requires EpochsInOrder(a) && EpochsInOrder(b) && i < |b|
    requires Unites(a, b[..i], epochs) && !Conflict(a, b[..i])
    ensures if r.Some? then Unites(a, b[..i + 1], r.value) && |r.value| <= |epochs| + 1 && !Conflict(a, b[..i + 1])
            else Conflict(a, b) && !EpochsAgree(a, b)
  {
    assert b[..i + 1] == b[..i] + [b[i]];
    if j :| 0 <= j < |epochs| && epochs[j].id == b[i].id {
      if epochs[j] != b[i] {
        Disagree(a, b, i, epochs, j);
        return None;
      }
      NoNewConflict(a, b, i, epochs);
      return Some(epochs);
    }
    hide EpochsAgree, EpochsInOrder;
    NoNewConflict(a, b, i, epochs);
    hide Conflict;
    var more := InsertById(epochs, b[i]);
    return Some(more);
  }

  lemma NoNewConflict(a: seq<Epoch>, b: seq<Epoch>, i: nat, epochs: seq<Epoch>)
    requires i < |b| && Unites(a, b[..i], epochs) && !Conflict(a, b[..i])
    requires forall e :: e in epochs && e.id == b[i].id ==> e == b[i]
    ensures !Conflict(a, b[..i + 1])
  {
    assert b[..i + 1] == b[..i] + [b[i]];
  }

  /** The union of two lists in order is in order exactly if every two epochs of them agree. */
  method UnionEpochs(a: seq<Epoch>, b: seq<Epoch>) returns (r: Result<seq<Epoch>, Error>)
    requires EpochsInOrder(a) && EpochsInOrder(b)
    ensures r.Ok? <==> EpochsAgree(a, b)
    ensures r.Ok? ==> Unites(a, b, r.value) && EpochsInOrder(r.value) && |r.value| <= |a| + |b|
    ensures r.Err? ==> (r.error == ConflictingEpoch <==> Conflict(a, b))
  {
    var epochs := a;
    for i := 0 to |b|
      invariant Unites(a, b[..i], epochs) && |epochs| <= |a| + i
      invariant !Conflict(a, b[..i])
    {
      var added := AddEpoch(a, b, i, epochs);
      if added.None? {
        return Err(ConflictingEpoch);
      }
      epochs := added.value;
    }
    assert b[..|b|] == b;
    UnionInOrder(a, b, epochs);
    hide Conflict, EpochsAgree, EpochsInOrder, Unites;
    var order := ValidateEpochs(epochs);
    if order.Err? {
      return Err(order.error);
    }
    return Ok(epochs);
  }

  lemma Disagree(a: seq<Epoch>, b: seq<Epoch>, i: nat, epochs: seq<Epoch>, j: nat)
    requires EpochsInOrder(b) && i < |b| && j < |epochs| && Unites(a, b[..i], epochs)
    requires epochs[j].id == b[i].id && epochs[j] != b[i]
    ensures Conflict(a, b) && !EpochsAgree(a, b)
  {
    assert epochs[j] in epochs;
    forall k | 0 <= k < i ensures b[k].id != b[i].id {
      IdsGrow(b, k, i);
    }
    assert epochs[j] in a && b[i] in b;
  }

  lemma UnionInOrder(a: seq<Epoch>, b: seq<Epoch>, all: seq<Epoch>)
    requires EpochsInOrder(a) && EpochsInOrder(b) && Unites(a, b, all)
    ensures EpochsInOrder(all) <==> EpochsAgree(a, b)
  {
    if EpochsInOrder(all) {
      forall e, f | e in a && f in b ensures e == f || Precedes(e, f) || Precedes(f, e) {
        assert e in all && f in all;
      }
    }
    if EpochsAgree(a, b) {
      forall i, j | 0 <= i < j < |all| ensures Precedes(all[i], all[j]) {
        assert all[i] in all && all[j] in all;
        TwoOfThem(a, b, all[i], all[j]);
      }
      if all != [] {
        assert all[0] in all;
        FirstStarts(a, b, all);
      }
    }
  }

  lemma TwoOfThem(a: seq<Epoch>, b: seq<Epoch>, e: Epoch, f: Epoch)
    requires EpochsInOrder(a) && EpochsInOrder(b) && EpochsAgree(a, b) && e.id < f.id
    requires (e in a || e in b) && (f in a || f in b)
    ensures Precedes(e, f)
  {
    if e in a && f in a {
      SameList(a, e, f);
    } else if e in b && f in b {
      SameList(b, e, f);
    }
  }

  lemma SameList(epochs: seq<Epoch>, e: Epoch, f: Epoch)
    requires EpochsInOrder(epochs) && e in epochs && f in epochs && e.id < f.id
    ensures Precedes(e, f)
  {
    var i :| 0 <= i < |epochs| && epochs[i] == e;
    var j :| 0 <= j < |epochs| && epochs[j] == f;
    IdsGrow(epochs, i, j);
    assert Precedes(epochs[i], epochs[j]);
  }

  lemma FirstStarts(a: seq<Epoch>, b: seq<Epoch>, all: seq<Epoch>)
    requires EpochsInOrder(a) && EpochsInOrder(b) && Unites(a, b, all) && all != []
    ensures all[0].reason.Start?
  {
    var own := if all[0] in a then a else b;
    assert all[0] in all;
    assert own[0] in all;
    var i :| 0 <= i < |own| && own[i] == all[0];
    var j :| 0 <= j < |all| && all[j] == own[0];
    assert all[0].id <= own[0].id;
    IdsGrow(own, 0, i);
  }

  /** There is one such list. */
  lemma UnionIsUnique(a: seq<Epoch>, b: seq<Epoch>, all: seq<Epoch>, other: seq<Epoch>)
    requires Unites(a, b, all) && Unites(a, b, other)
    ensures all == other
  {
    SameById(all, other);
  }

  lemma {:induction false} SameById(x: seq<Epoch>, y: seq<Epoch>)
    requires ById(x) && ById(y) && forall e :: e in x <==> e in y
    ensures x == y
  {
    assert y != [] ==> y[0] in y;
    if x != [] {
      assert x[0] in x;
      var i :| 0 <= i < |y| && y[i] == x[0];
      var j :| 0 <= j < |x| && x[j] == y[0];
      assert x[0] == y[0];
      forall e ensures e in x[1..] <==> e in y[1..] {
        RestById(x, e);
        RestById(y, e);
      }
      SameById(x[1..], y[1..]);
      assert x == [x[0]] + x[1..] && y == [y[0]] + y[1..];
    }
  }

  lemma RestById(x: seq<Epoch>, e: Epoch)
    requires ById(x) && x != []
    ensures e in x[1..] <==> e in x && e != x[0]
  {
    if e in x && e != x[0] {
      var i :| 0 <= i < |x| && x[i] == e;
      assert x[1..][i - 1] == e;
    }
    if e in x[1..] {
      var i :| 0 <= i < |x[1..]| && x[1..][i] == e;
      assert x[0].id < x[i + 1].id;
    }
  }
}
