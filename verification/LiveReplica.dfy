/** The window's copy of the transcript, folded from delta events and snapshots.

    A history is a view and the events published since. The store proves that its own state is the fold of
    its history (`LiveStore`); here the window is proved to track that fold whatever reaches it. */
module LiveReplica {
  import opened Wrappers
  import opened LiveTypes

  /** `mergeLine`: the row keeps its raw fields, the rewrite comes from the newer version. */
  function MergeLine(existing: Line, incoming: Line): Line {
    existing.(seqNo := incoming.seqNo, cleanText := incoming.cleanText,
              rewriteState := incoming.rewriteState, commitEpoch := incoming.commitEpoch)
  }

  /** One row folded into rows keyed by sequence number. */
  function Upsert(lines: map<nat, Line>, line: Line): map<nat, Line> {
    lines[line.seqNo := if line.seqNo in lines then MergeLine(lines[line.seqNo], line) else line]
  }

  function Trimmed(lines: map<nat, Line>, from: nat): map<nat, Line> {
    map k | k in lines && k >= from :: lines[k]
  }

  /** `orderedUnique` of existing rows followed by one more, before sorting. */
  function Folded(prior: map<nat, Line>, line: Option<Line>, from: nat): map<nat, Line> {
    var kept := Trimmed(prior, from);
    if line.Some? && line.value.seqNo >= from then Upsert(kept, line.value) else kept
  }

  /** `orderedUnique` of two row lists, the second newer. */
  function Merged(older: map<nat, Line>, newer: map<nat, Line>, from: nat): map<nat, Line> {
    map k | k in older.Keys + newer.Keys && k >= from ::
      if k in older && k in newer then MergeLine(older[k], newer[k])
      else if k in older then older[k] else newer[k]
  }

  predicate SameSession(a: Header, b: Header) {
    a.sessionId == b.sessionId && a.generation == b.generation
  }

  /** `snapshotFromEvent`. */
  function FromEvent(current: Option<View>, e: Event): View {
    var prior := if e.reset || current.None? || !SameSession(current.value.header, e.header)
                 then map[] else current.value.lines;
    View(e.header, Folded(prior, e.line, e.header.retainedFrom))
  }

  datatype Outcome = Applied | Duplicate | Gap | ProcessChange

  /** `reduceLiveEvent`. */
  function Reduce(current: Option<View>, e: Event): (Option<View>, Outcome) {
    if current.None? then (Some(FromEvent(None, e)), Applied)
    else
      var v := current.value;
      if v.header.processEpoch != e.header.processEpoch then (current, ProcessChange)
      else if e.header.revision <= v.header.revision then (current, Duplicate)
      else
        var contiguous := e.fromRevision == v.header.revision;
        if !SameSession(v.header, e.header) && (!e.reset || !contiguous) then (current, Gap)
        else if SameSession(v.header, e.header) && !contiguous then (current, Gap)
        else (Some(FromEvent(current, e)), Applied)
  }

  /** `applyLiveSnapshot`; snapshots arrive normalised (their rows are already unique and retained). */
  function TakeSnapshot(current: Option<View>, incoming: View): View {
    if current.None? || current.value.header.processEpoch != incoming.header.processEpoch then incoming
    else
      var v := current.value;
      if incoming.header.generation < v.header.generation then v
      else if incoming.header.generation == v.header.generation && incoming.header.revision < v.header.revision then
        if v.header.sessionId != incoming.header.sessionId then v
        else v.(lines := Merged(incoming.lines, v.lines, v.header.retainedFrom))
      else incoming
  }

  /** When an event is folded: it is the first one, or it is newer, misses nothing, and continues the session or
      starts another. Any other event leaves the window as it is, and what the window lacks is named. */
  lemma ReduceDecides(current: Option<View>, e: Event)
    ensures var (next, outcome) := Reduce(current, e);
      && (!outcome.Applied? ==> next == current)
      && (outcome.Applied? ==> next.Some? && next.value.header == e.header)
      && (outcome.ProcessChange? <==>
            current.Some? && current.value.header.processEpoch != e.header.processEpoch)
      && (current.Some? && !outcome.ProcessChange? ==>
            && (outcome.Duplicate? <==> e.header.revision <= current.value.header.revision)
            && (outcome.Gap? <==>
                  && e.header.revision > current.value.header.revision
                  && (e.fromRevision == current.value.header.revision ==>
                        !e.reset && !SameSession(current.value.header, e.header))))
      && (current.None? ==> outcome.Applied?)
  {}

  /** A snapshot of the same process never takes the window back: an older one of its session only brings rows
      that the window lacks and that are still retained, an older one of another session nothing. Every other
      snapshot replaces the window. */
  lemma SnapshotDecides(current: View, incoming: View)
    ensures var next, mine, theirs := TakeSnapshot(Some(current), incoming), current.header, incoming.header;
      if mine.processEpoch != theirs.processEpoch || mine.generation < theirs.generation
         || (mine.generation == theirs.generation && mine.revision <= theirs.revision)
      then next == incoming
      else
        && next.header == mine
        && (!SameSession(mine, theirs) ==> next == current)
        && (SameSession(mine, theirs) ==>
              && (forall k :: k in next.lines <==>
                    (k in current.lines || k in incoming.lines) && k >= mine.retainedFrom)
              && (forall k :: k in next.lines && k !in current.lines ==> next.lines[k] == incoming.lines[k])
              && (forall k :: k in next.lines && k in current.lines ==>
                    && next.lines[k].cleanText == current.lines[k].cleanText
                    && next.lines[k].rewriteState == current.lines[k].rewriteState))
  {}

  // ---- histories ----

  /** An event that the store may publish after a state with view `v`. */
  predicate Follows(v: View, e: Event) {
    && e.header.processEpoch == v.header.processEpoch
    && e.fromRevision == v.header.revision
    && e.header.revision == v.header.revision + 1
    && (if e.reset then e.header.generation > v.header.generation && e.line.None?
        else SameSession(v.header, e.header) && e.header.retainedFrom >= v.header.retainedFrom)
    && (e.line.Some? && e.line.value.seqNo in v.lines ==> SameRaw(v.lines[e.line.value.seqNo], e.line.value))
  }

  function After(v: View, e: Event): View {
    FromEvent(Some(v), e)
  }

  function Replayed(v: View, history: seq<Event>): View {
    if history == [] then v else After(Replayed(v, history[..|history| - 1]), history[|history| - 1])
  }

  /** A gap-free chain of events. */
  predicate Chained(v: View, history: seq<Event>) {
    history == [] ||
    (Chained(v, history[..|history| - 1]) &&
     Follows(Replayed(v, history[..|history| - 1]), history[|history| - 1]))
  }

  /** Every row is filed under its own sequence number and is still retained. */
  predicate Tidy(v: View) {
    forall k :: k in v.lines ==> v.lines[k].seqNo == k && k >= v.header.retainedFrom
  }

  function At(v: View, history: seq<Event>, i: nat): View
    requires i <= |history|
  {
    Replayed(v, history[..i])
  }

  /** One step of a chain, by index. */
  lemma ChainStep(v: View, history: seq<Event>, i: nat)
    requires Chained(v, history) && i < |history|
    ensures Follows(At(v, history, i), history[i])
    ensures At(v, history, i + 1) == After(At(v, history, i), history[i])
  {
    var n := |history| - 1;
    if i < n {
      var shorter := history[..n];
      ChainStep(v, shorter, i);
      assert shorter[..i] == history[..i] && shorter[..i + 1] == history[..i + 1];
    } else {
      assert history[..n + 1] == history && history[..n + 1][..n] == history[..n];
    }
  }

  /** Rows stay filed under their own number, and the revision counts the events. */
  lemma {:induction false} ChainFacts(v: View, history: seq<Event>, i: nat)
    requires Chained(v, history) && Tidy(v) && i <= |history|
    ensures Tidy(At(v, history, i))
    ensures At(v, history, i).header.revision == v.header.revision + i
    ensures At(v, history, i).header.processEpoch == v.header.processEpoch
  {
    if i == 0 {
      assert history[..0] == [];
    } else {
      ChainFacts(v, history, i - 1);
      ChainStep(v, history, i - 1);
    }
  }

  /** Between two moments of a chain: a later generation means a reset in between; within one session
      the retained rows only gain rewrites. */
  lemma {:induction false} SessionFacts(v: View, history: seq<Event>, r: nat, c: nat)
    requires Chained(v, history) && Tidy(v) && r <= c <= |history|
    ensures var a, b := At(v, history, r).header, At(v, history, c).header;
      && a.generation <= b.generation
      && (a.generation == b.generation ==> SameSession(a, b) && a.retainedFrom <= b.retainedFrom)
    decreases c
  {
    if r < c {
      SessionFacts(v, history, r, c - 1);
      ChainStep(v, history, c - 1);
    }
  }

  /** The row `k` of a view is a version of `first`, or it was trimmed. */
  predicate KeptOrTrimmed(first: Line, v: View, k: nat) {
    if k in v.lines then SameRaw(first, v.lines[k]) else k < v.header.retainedFrom
  }

  /** One event of the same session rewrites a row, trims it, or leaves it; what is trimmed does not come back. */
  lemma RowAfter(first: Line, v: View, e: Event, k: nat)
    requires Follows(v, e) && Tidy(v) && v.header.generation == After(v, e).header.generation
    requires KeptOrTrimmed(first, v, k)
    ensures KeptOrTrimmed(first, After(v, e), k)
  {}

  /** Within one session a row keeps its raw fields until it is trimmed, and then it never comes back. */
  lemma {:induction false} RowsKeepRaw(v: View, history: seq<Event>, r: nat, c: nat, k: nat)
    requires Chained(v, history) && Tidy(v) && r <= c <= |history|
    requires At(v, history, r).header.generation == At(v, history, c).header.generation
    requires k in At(v, history, r).lines
    ensures KeptOrTrimmed(At(v, history, r).lines[k], At(v, history, c), k)
    decreases c
  {
    hide Chained, Tidy, Follows, Replayed, After;
    if r < c {
      SessionFacts(v, history, r, c - 1);
      SessionFacts(v, history, c - 1, c);
      ChainFacts(v, history, c - 1);
      ChainStep(v, history, c - 1);
      RowsKeepRaw(v, history, r, c - 1, k);
      RowAfter(At(v, history, r).lines[k], At(v, history, c - 1), history[c - 1], k);
    }
  }

  /** What a window that started from the event at `f` holds at `c`: rows agree with the store, and
      whatever it is missing is in every snapshot taken since `f` in the same session. */
  ghost predicate PartialCopy(v: View, history: seq<Event>, f: nat, c: nat, ui: View)
    requires f <= c <= |history|
  {
    var now := At(v, history, c);
    && ui.header == now.header
    && (forall k :: k in ui.lines ==> k in now.lines && ui.lines[k] == now.lines[k])
    && (forall r :: f <= r <= c ==> Completes(At(v, history, r), ui, now))
  }

  /** Laying `ui` over an older snapshot gives the present, and `ui` alone does after a reset. */
  predicate Completes(older: View, ui: View, now: View) {
    if older.header.generation < now.header.generation then ui.lines == now.lines
    else Merged(older.lines, ui.lines, now.header.retainedFrom) == now.lines
  }

  /** Laying rows over an older snapshot commutes with folding in one more row. */
  lemma MergeThenFold(older: map<nat, Line>, newer: map<nat, Line>, line: Option<Line>, from: nat, from': nat)
    requires from <= from'
    ensures Merged(older, Folded(newer, line, from'), from') == Folded(Merged(older, newer, from), line, from')
  {
    assert Merged(older, Trimmed(newer, from'), from') == Trimmed(Merged(older, newer, from), from');
    if line.Some? && line.value.seqNo >= from' {
      UpsertUnderMerge(older, Trimmed(newer, from'), line.value, from');
    }
  }

  lemma UpsertUnderMerge(older: map<nat, Line>, newer: map<nat, Line>, line: Line, from: nat)
    requires line.seqNo >= from
    ensures Merged(older, Upsert(newer, line), from) == Upsert(Merged(older, newer, from), line)
  {}

  lemma CompletesStep(older: View, ui: View, now: View, e: Event)
    requires Follows(now, e) && ui.header == now.header
    requires older.header.generation <= now.header.generation
    requires Completes(older, ui, now)
    ensures Completes(older, FromEvent(Some(ui), e), After(now, e))
  {
    hide Merged, Folded;
    if !e.reset && older.header.generation == now.header.generation {
      MergeThenFold(older.lines, ui.lines, e.line, now.header.retainedFrom, e.header.retainedFrom);
    }
  }

  lemma AgreesWithItself(v: View)
    requires Tidy(v)
    ensures Completes(v, v, v)
  {
    assert Merged(v.lines, v.lines, v.header.retainedFrom) == v.lines;
  }

  /** The window's copy when it subscribed before it had any snapshot. */
  function Listened(history: seq<Event>, f: nat, c: nat): Option<View>
    requires f < c <= |history|
    decreases c
  {
    Reduce(if c == f + 1 then None else Listened(history, f, c - 1), history[c - 1]).0
  }

  /** An event that follows the store's state is accepted by a copy with the same header, and a copy
      whose rows agree with the store's keeps agreeing. */
  lemma AcceptedStep(ui: View, now: View, e: Event)
    requires Tidy(now) && Follows(now, e) && ui.header == now.header
    requires forall k :: k in ui.lines ==> k in now.lines && ui.lines[k] == now.lines[k]
    ensures Reduce(Some(ui), e) == (Some(FromEvent(Some(ui), e)), Applied)
    ensures var ui', now' := FromEvent(Some(ui), e), After(now, e);
      ui'.header == now'.header &&
      forall k :: k in ui'.lines ==> k in now'.lines && ui'.lines[k] == now'.lines[k]
  {}

  lemma {:induction false} ListeningBuildsPartialCopy(v: View, history: seq<Event>, f: nat, c: nat)
    requires Chained(v, history) && Tidy(v) && f < c <= |history|
    ensures Listened(history, f, c).Some? && PartialCopy(v, history, f, c, Listened(history, f, c).value)
    decreases c
  {
    hide Merged, Folded, FromEvent, Reduce, Follows, Completes, Replayed, Chained;
    var now, next, e := At(v, history, c - 1), At(v, history, c), history[c - 1];
    ChainFacts(v, history, c - 1);
    ChainFacts(v, history, c);
    ChainStep(v, history, c - 1);
    var ui := View(now.header, map[]);
    if c == f + 1 {
      FirstEvent(now, e);
      assert PartialCopy(v, history, f, c - 1, ui);
    } else {
      ListeningBuildsPartialCopy(v, history, f, c - 1);
      ui := Listened(history, f, c - 1).value;
    }
    AcceptedStep(ui, now, e);
    var ui' := FromEvent(Some(ui), e);
    assert Listened(history, f, c) == Some(ui');
    forall r | f <= r <= c ensures Completes(At(v, history, r), ui', next) {
      if r < c {
        ChainFacts(v, history, r);
        SessionFacts(v, history, r, c - 1);
        assert Completes(At(v, history, r), ui, now);
        CompletesStep(At(v, history, r), ui, now, e);
      } else {
        AgreementIsComplete(ui', next);
      }
    }
  }

  /** The first event is laid over nothing at all. */
  lemma FirstEvent(now: View, e: Event)
    requires Tidy(now)
    ensures Reduce(None, e).0 == Some(FromEvent(Some(View(now.header, map[])), e))
    ensures Completes(now, View(now.header, map[]), now)
  {
    assert Merged(now.lines, map[], now.header.retainedFrom) == now.lines;
  }

  /** A copy whose rows all agree with the present completes the present itself. */
  lemma AgreementIsComplete(ui: View, now: View)
    requires Tidy(now) && forall k :: k in ui.lines ==> k in now.lines && ui.lines[k] == now.lines[k]
    ensures Completes(now, ui, now)
  {
    assert Merged(now.lines, ui.lines, now.header.retainedFrom) == now.lines;
  }

  /** Subscribe first, then ask for a snapshot: whichever arrives later, the window ends up with exactly
      the newer of the two states, however many events overtook the snapshot. */
  lemma SubscribeThenSnapshot(v: View, history: seq<Event>, f: nat, c: nat, r: nat)
    requires Chained(v, history) && Tidy(v) && f < c <= |history| && f <= r <= |history|
    ensures TakeSnapshot(Listened(history, f, c), At(v, history, r))
         == At(v, history, if r < c then c else r)
  {
    ListeningBuildsPartialCopy(v, history, f, c);
    var ui := Listened(history, f, c).value;
    ChainFacts(v, history, c);
    ChainFacts(v, history, r);
    if r < c {
      SessionFacts(v, history, r, c);
      assert Completes(At(v, history, r), ui, At(v, history, c));
    } else {
      SessionFacts(v, history, c, r);
    }
  }

  // ---- a window that has a snapshot ----

  datatype Delivery = Delivered(index: nat) | Fetched(revision: nat)

  predicate Known(history: seq<Event>, d: Delivery) {
    match d
    case Delivered(i) => i < |history|
    case Fetched(r) => r <= |history|
  }

  function Receive(ui: View, v: View, history: seq<Event>, d: Delivery): View
    requires Known(history, d)
  {
    match d
    case Delivered(i) => Reduce(Some(ui), history[i]).0.value
    case Fetched(r) => TakeSnapshot(Some(ui), At(v, history, r))
  }

  /** Raw fields never change and no retained row goes missing within a session, so an older snapshot
      laid under a newer state changes nothing. */
  lemma {:induction false} OlderSnapshotIsHarmless(v: View, history: seq<Event>, r: nat, c: nat)
    requires Chained(v, history) && Tidy(v) && r <= c <= |history|
    ensures Completes(At(v, history, r), At(v, history, c), At(v, history, c))
    decreases c
  {
    ChainFacts(v, history, c);
    if r == c {
      AgreesWithItself(At(v, history, c));
    } else {
      OlderSnapshotIsHarmless(v, history, r, c - 1);
      ChainFacts(v, history, r);
      ChainFacts(v, history, c - 1);
      SessionFacts(v, history, r, c - 1);
      ChainStep(v, history, c - 1);
      CompletesStep(At(v, history, r), At(v, history, c - 1), At(v, history, c - 1), history[c - 1]);
    }
  }

  /** Lost, repeated, reordered events and stale snapshots: a window that once equalled the store at its
      own revision still does after any delivery, and its revision never goes back. */
  lemma DeliveryKeepsUiExact(v: View, history: seq<Event>, u: nat, d: Delivery)
    requires Chained(v, history) && Tidy(v) && v.header.revision == 0 && u <= |history|
    requires Known(history, d)
    ensures var ui' := Receive(At(v, history, u), v, history, d);
      u <= ui'.header.revision <= |history| && ui' == At(v, history, ui'.header.revision)
  {
    var ui := At(v, history, u);
    ChainFacts(v, history, u);
    match d {
      case Delivered(i) =>
        ChainStep(v, history, i);
        ChainFacts(v, history, i);
        ChainFacts(v, history, i + 1);
        if i == u {
          assert Reduce(Some(ui), history[i]) == (Some(After(ui, history[i])), Applied);
        }
      case Fetched(r) =>
        ChainFacts(v, history, r);
        if r < u {
          SessionFacts(v, history, r, u);
          OlderSnapshotIsHarmless(v, history, r, u);
        } else {
          SessionFacts(v, history, u, r);
        }
    }
  }

  function Received(ui: View, v: View, history: seq<Event>, ds: seq<Delivery>): View
    requires forall d :: d in ds ==> Known(history, d)
    decreases |ds|
  {
    if ds == [] then ui else Received(Receive(ui, v, history, ds[0]), v, history, ds[1..])
  }

  /** A window that once equalled the store at its own revision does so after any sequence of deliveries. */
  lemma {:induction false} UiIsAlwaysExact(v: View, history: seq<Event>, u: nat, ds: seq<Delivery>)
    requires Chained(v, history) && Tidy(v) && v.header.revision == 0 && u <= |history|
    requires forall d :: d in ds ==> Known(history, d)
    ensures var ui' := Received(At(v, history, u), v, history, ds);
      u <= ui'.header.revision <= |history| && ui' == At(v, history, ui'.header.revision)
    decreases |ds|
  {
    if ds == [] {
      ChainFacts(v, history, u);
    } else {
      DeliveryKeepsUiExact(v, history, u, ds[0]);
      var next := Receive(At(v, history, u), v, history, ds[0]);
      UiIsAlwaysExact(v, history, next.header.revision, ds[1..]);
    }
  }

  /** Nothing lost: after any snapshot, replaying the tail in order (with any overlap) reaches the end. */
  lemma {:induction false} ReplicaCatchesUp(v: View, history: seq<Event>, u: nat, from: nat)
    requires Chained(v, history) && Tidy(v) && v.header.revision == 0 && from <= u <= |history|
    ensures Received(At(v, history, u), v, history, seq(|history| - from, i requires 0 <= i => Delivered(from + i)))
         == Replayed(v, history)
    decreases |history| - from
  {
    var ds := seq(|history| - from, i requires 0 <= i => Delivered(from + i));
    if from == |history| {
      assert ds == [] && history[..u] == history;
    } else {
      var ui := At(v, history, u);
      ChainFacts(v, history, u);
      ChainFacts(v, history, from + 1);
      ChainStep(v, history, from);
      assert from == u ==> Reduce(Some(ui), history[from]) == (Some(After(ui, history[from])), Applied);
      assert from < u ==> Reduce(Some(ui), history[from]) == (Some(ui), Duplicate);
      var next := if from == u then u + 1 else u;
      assert ds[0] == Delivered(from);
      assert Receive(At(v, history, u), v, history, ds[0]) == At(v, history, next);
      assert ds[1..] == seq(|history| - (from + 1), i requires 0 <= i => Delivered(from + 1 + i));
      ReplicaCatchesUp(v, history, next, from + 1);
    }
  }

  // ---- restarts of the program ----

  /** What one process published, from its first view on. */
  datatype Run = Run(first: View, history: seq<Event>)

  ghost predicate Lawful(runs: seq<Run>) {
    && (forall p | 0 <= p < |runs| ::
          Chained(runs[p].first, runs[p].history) && Tidy(runs[p].first) && runs[p].first.header.revision == 0)
    && (forall p, q | 0 <= p < q < |runs| :: runs[p].first.header.processEpoch != runs[q].first.header.processEpoch)
  }

  /** The window shows a state that one of the processes had. */
  ghost predicate ShowsOne(runs: seq<Run>, ui: View) {
    exists p: nat, u: nat :: p < |runs| && u <= |runs[p].history| && ui == At(runs[p].first, runs[p].history, u)
  }

  /** Something published by any process, before or after a restart. */
  datatype Late = Late(process: nat, delivery: Delivery)

  function ReceivedLate(ui: View, runs: seq<Run>, ds: seq<Late>): View
    requires forall d :: d in ds ==> d.process < |runs| && Known(runs[d.process].history, d.delivery)
    decreases |ds|
  {
    if ds == [] then ui
    else
      var run := runs[ds[0].process];
      ReceivedLate(Receive(ui, run.first, run.history, ds[0].delivery), runs, ds[1..])
  }

  /** An event of another process changes nothing; its snapshot replaces the window. */
  lemma OtherProcess(mine: View, seen: seq<Event>, u: nat, other: View, history: seq<Event>, d: Delivery)
    requires Chained(mine, seen) && Tidy(mine) && u <= |seen|
    requires Chained(other, history) && Tidy(other) && Known(history, d)
    requires mine.header.processEpoch != other.header.processEpoch
    ensures var ui := At(mine, seen, u);
      Receive(ui, other, history, d) == if d.Delivered? then ui else At(other, history, d.revision)
  {
    ChainFacts(mine, seen, u);
    match d {
      case Delivered(i) =>
        ChainFacts(other, history, i);
        ChainStep(other, history, i);
      case Fetched(r) => ChainFacts(other, history, r);
    }
  }

  lemma LateKeepsUiExact(runs: seq<Run>, ui: View, q: nat, d: Delivery)
    requires Lawful(runs) && ShowsOne(runs, ui) && q < |runs| && Known(runs[q].history, d)
    ensures ShowsOne(runs, Receive(ui, runs[q].first, runs[q].history, d))
  {
    hide Chained, Tidy, Receive, Replayed;
    var p: nat, u: nat :| p < |runs| && u <= |runs[p].history| && ui == At(runs[p].first, runs[p].history, u);
    if p == q {
      DeliveryKeepsUiExact(runs[p].first, runs[p].history, u, d);
    } else {
      OtherProcess(runs[p].first, runs[p].history, u, runs[q].first, runs[q].history, d);
    }
  }

  /** A window never mixes the rows of two processes, whatever reaches it from either side of a restart. */
  lemma {:induction false} RestartsKeepUiExact(runs: seq<Run>, ui: View, ds: seq<Late>)
    requires Lawful(runs) && ShowsOne(runs, ui)
    requires forall d :: d in ds ==> d.process < |runs| && Known(runs[d.process].history, d.delivery)
    ensures ShowsOne(runs, ReceivedLate(ui, runs, ds))
    decreases |ds|
  {
    hide ShowsOne, Lawful, Receive;
    if ds != [] {
      LateKeepsUiExact(runs, ui, ds[0].process, ds[0].delivery);
      var run := runs[ds[0].process];
      RestartsKeepUiExact(runs, Receive(ui, run.first, run.history, ds[0].delivery), ds[1..]);
    }
  }
}
