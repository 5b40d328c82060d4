/** Importing a transient quality history into the retained baseline: an outstanding live loss inherits a
    recovery that is already durable, frame by frame, and nothing else is resolved. */
module QualityOverlay {
  import opened Wrappers
  import opened QualityEpochs
  import opened QualitySpans
  import opened QualityRecord
  import opened QualityMerge

  /** What an import adds to a baseline, frame by frame. */
  ghost predicate Imports(baseline: seq<Span>, incoming: seq<Span>, m: Mark) {
    if m.kind.LiveDebt() then
      Marked(incoming, m) && !Marked(baseline, Mark(m.kind.Recovered(), m.frame))
    else
      Marked(incoming, m) || InheritsRecovery(baseline, incoming, m)
  }

  /** A live loss that is outstanding in the import and recovered in the baseline. */
  ghost predicate InheritsRecovery(baseline: seq<Span>, incoming: seq<Span>, m: Mark) {
    var debt := m.kind.(resolution := Outstanding);
    m.kind.resolution.RecoveredByBatch? && debt.LiveDebt() && Marked(incoming, Mark(debt, m.frame)) && Marked(baseline, m)
  }

  lemma ImportsPush(baseline: seq<Span>, incoming: seq<Span>, span: Span, m: Mark)
    ensures Imports(baseline, incoming + [span], m) <==> Imports(baseline, incoming, m) || Imports(baseline, [span], m)
  {
    MarkedPush(incoming, span, m);
    MarkedPush([], span, m);
    var debt := Mark(m.kind.(resolution := Outstanding), m.frame);
    MarkedPush(incoming, span, debt);
    MarkedPush([], span, debt);
    assert [] + [span] == [span];
  }

  /** Every frame of a tiled interval lies in a piece. */
  lemma {:induction false} TileAt(pieces: seq<Span>, from: nat, to: nat, f: nat) returns (p: Span)
    requires Tiles(pieces, from, to) && from <= f < to
    ensures p in pieces && p.start <= f < p.end
  {
    var last := pieces[|pieces| - 1];
    if f >= last.start {
      p := last;
    } else {
      p := TileAt(pieces[..|pieces| - 1], from, last.start, f);
    }
  }

  lemma {:induction false} TilesInside(pieces: seq<Span>, from: nat, to: nat, p: Span)
    requires Tiles(pieces, from, to) && p in pieces
    ensures from <= p.start < p.end <= to
  {
    var last := pieces[|pieces| - 1];
    if p != last {
      assert p in pieces[..|pieces| - 1];
      TilesInside(pieces[..|pieces| - 1], from, last.start, p);
    }
  }

  /** What importing a single live loss adds. */
  lemma ImportOfOne(known: seq<Span>, span: Span, m: Mark)
    requires span.kind.LiveDebt()
    ensures Imports(known, [span], m) <==>
      span.start <= m.frame < span.end &&
      (if Marked(known, Mark(span.kind.Recovered(), m.frame)) then m.kind == span.kind.Recovered() else m.kind == span.kind)
  {
    var debt := Mark(m.kind.(resolution := Outstanding), m.frame);
    MarkedPush([], span, m);
    MarkedPush([], span, debt);
    assert [] + [span] == [span];
    hide Marked;
    assert !Marked([], m) && !Marked([], debt) by { NothingMarked(m); NothingMarked(debt); }
  }

  lemma NothingMarked(m: Mark)
    ensures !Marked([], m)
  {}

  /** The pieces of a split live loss say exactly what its import adds. */
  lemma PiecesSay(span: Span, known: seq<Span>, pieces: seq<Span>, m: Mark)
    requires span.Proper() && span.kind.LiveDebt() && Tiles(pieces, span.start, span.end)
    requires forall p :: p in pieces ==> Decided(p, span, known)
    ensures Marked(pieces, m) <==> Imports(known, [span], m)
  {
    ImportOfOne(known, span, m);
    hide Imports;
    if Marked(pieces, m) {
      var p :| p in pieces && Has(p, m);
      TilesInside(pieces, span.start, span.end, p);
      assert Decided(p, span, known);
    } else if span.start <= m.frame < span.end {
      var p := TileAt(pieces, span.start, span.end, m.frame);
      assert Decided(p, span, known) && !Has(p, m);
    }
  }

  /** The same record but for its spans and its counters. */
  predicate SameOtherwise(a: Record, b: Record) {
    && a.epochs == b.epochs && a.observed == b.observed && b.overflow.Covers(a.overflow)
    && b.activity == a.activity.(omissionsSaturated := b.activity.omissionsSaturated)
    && (a.activity.omissionsSaturated ==> b.activity.omissionsSaturated)
  }

  /** The import so far: never more than `Imports` adds, and whatever a cap refused is counted. */
  ghost predicate Imported(baseline: seq<Span>, incoming: Record, done: seq<Span>, r: Record) {
    && Valid(r) && SameOtherwise(incoming, r)
    && (forall m :: Says(r, m) ==> Imports(baseline, done, m))
    && (forall m :: Imports(baseline, done, m) ==> Says(r, m) || Counted(r.overflow, m.kind))
    && (forall c :: r.overflow.outstanding.Get(c) > 0 ==>
          incoming.overflow.outstanding.Get(c) > 0 || ImportsDebt(baseline, done, c))
    && (Room(baseline, done) <= MAX_QUALITY_SPANS ==>
          && |r.spans| <= Room(baseline, done) && r == incoming.(spans := r.spans)
          && (forall m :: Imports(baseline, done, m) ==> Says(r, m)))
  }

  /** The most pieces into which the baseline can split the spans. */
  function Room(baseline: seq<Span>, incoming: seq<Span>): nat { |incoming| * (2 * |baseline| + 1) }

  ghost predicate ImportsDebt(baseline: seq<Span>, incoming: seq<Span>, c: Loss) {
    exists m :: Imports(baseline, incoming, m) && OwedAt(m, c)
  }

  /** The pieces of one incoming span, in the order in which they are inserted. */
  method Pieces(baseline: seq<Span>, span: Span, epochs: seq<Epoch>) returns (pieces: seq<Span>)
    requires AllProper(baseline) && EpochsInOrder(epochs) && ValidSpan(epochs, span)
    ensures AllValid(epochs, pieces) && |pieces| <= 2 * |baseline| + 1
    ensures forall m :: Marked(pieces, m) <==> Imports(baseline, [span], m)
  {
    if !span.kind.LiveDebt() {
      pieces := [span];
      forall m ensures Marked(pieces, m) <==> Imports(baseline, [span], m) {
        assert InheritsRecovery(baseline, [span], m) ==> false;
      }
      return;
    }
    pieces := Split(span, baseline);
    forall p | p in pieces ensures ValidSpan(epochs, p) {
      TilesInside(pieces, span.start, span.end, p);
      assert Decided(p, span, baseline);
      InsideIsValid(epochs, span, p);
    }
    forall m ensures Marked(pieces, m) <==> Imports(baseline, [span], m) {
      PiecesSay(span, baseline, pieces, m);
    }
  }

  /** A part of a valid span is valid. */
  lemma InsideIsValid(epochs: seq<Epoch>, span: Span, part: Span)
    requires EpochsInOrder(epochs) && ValidSpan(epochs, span) && part.Proper() && Classified(part.kind)
    requires part.kind.epoch == span.kind.epoch && span.start <= part.start && part.end <= span.end
    ensures ValidSpan(epochs, part)
  {
    hide EndFits;
    var i :|
      0 <= i < |epochs| && epochs[i].id == span.kind.epoch && epochs[i].base <= span.start && EndFits(epochs, i, span.end);
    EarlierFits(epochs, i, part.end, span.end);
  }

  /** A record that took in some spans, or counted them; with room for all of them it counted none. */
  ghost predicate Gains(before: Record, spans: seq<Span>, after: Record) {
    && Valid(after) && SameOtherwise(before, after)
    && (|before.spans| + |spans| <= MAX_QUALITY_SPANS ==>
          && |after.spans| <= |before.spans| + |spans| && after == before.(spans := after.spans)
          && (forall m :: Says(before, m) || Marked(spans, m) ==> Says(after, m)))
    && (forall m :: Says(after, m) ==> Says(before, m) || Marked(spans, m))
    && (forall m :: Says(before, m) || Marked(spans, m) ==> Says(after, m) || Counted(after.overflow, m.kind))
    && (forall c :: after.overflow.outstanding.Get(c) > 0 ==>
          before.overflow.outstanding.Get(c) > 0 || OwesPositioned(spans, c))
  }

  method InsertPieces(r: Record, pieces: seq<Span>) returns (after: Record)
    requires Valid(r) && AllValid(r.epochs, pieces)
    ensures Gains(r, pieces, after)
  {
    after := r;
    assert pieces[..0] == [];
    for i := 0 to |pieces|
      invariant Gains(r, pieces[..i], after)
    {
      var piece := pieces[i];
      assert ValidSpan(r.epochs, piece);
      var inserted, retained := InsertSpan(after, piece);
      hide Valid, ValidSpan, Gains, CountSpan, CountsOne, Separate, RunsOf, Sorted;
      GainsOne(r, pieces, i, after, inserted.value, retained);
      after := inserted.value;
    }
    assert pieces[..|pieces|] == pieces;
  }

  lemma GainsOne(r: Record, pieces: seq<Span>, i: nat, before: Record, after: Record, retained: bool)
    requires i < |pieces| && ValidSpan(r.epochs, pieces[i]) && Valid(before) && Valid(after)
    requires Gains(r, pieces[..i], before)
    requires |before.spans| < MAX_QUALITY_SPANS ==> retained
    requires retained ==> after == before.(spans := after.spans) && |after.spans| <= |before.spans| + 1
    requires retained ==> forall m :: Says(after, m) <==> Says(before, m) || Has(pieces[i], m)
    requires !retained ==> after == CountSpan(before, pieces[i].kind)
    ensures Gains(r, pieces[..i + 1], after)
  {
    var piece := pieces[i];
    assert pieces[..i + 1] == pieces[..i] + [piece];
    OmitKeepsConsistent(before.overflow, piece.kind, !piece.kind.cause.FarReferenceSilent?);
    CountedStays(before.overflow, piece.kind, !piece.kind.cause.FarReferenceSilent?);
    forall c {
      OwesPush(pieces[..i], piece, c);
    }
    forall m ensures Marked(pieces[..i + 1], m) <==> Marked(pieces[..i], m) || Has(piece, m) {
      MarkedPush(pieces[..i], piece, m);
    }
    hide Valid, Marked, OwesPositioned, Has, Overflow.Omit, Overflow.Full, Counted;
    assert SameOtherwise(r, after);
    hide Overflow.Covers;
    forall m | Says(r, m) || Marked(pieces[..i + 1], m) ensures Says(after, m) || Counted(after.overflow, m.kind) {
      assert Says(before, m) || Counted(before.overflow, m.kind) || Has(piece, m);
      if !retained && Has(piece, m) {
        assert m.kind == piece.kind by { SameKind(piece, m); }
      }
    }
  }

  lemma SameKind(s: Span, m: Mark)
    requires Has(s, m)
    ensures m.kind == s.kind
  {}

  method ImportSpans(baseline: seq<Span>, incoming: Record) returns (r: Record)
    requires AllProper(baseline) && Valid(incoming)
    ensures Imported(baseline, incoming, incoming.spans, r)
  {
    r := incoming.(spans := []);
    assert incoming.spans[..0] == [];
    NothingImported(baseline, incoming);
    for i := 0 to |incoming.spans|
      invariant Imported(baseline, incoming, incoming.spans[..i], r)
    {
      var span := incoming.spans[i];
      assert ValidSpan(incoming.epochs, span);
      var pieces := Pieces(baseline, span, incoming.epochs);
      var after := InsertPieces(r, pieces);
      ImportStep(baseline, incoming, i, pieces, r, after);
      r := after;
    }
    assert incoming.spans[..|incoming.spans|] == incoming.spans;
  }

  lemma NothingImported(baseline: seq<Span>, incoming: Record)
    requires Valid(incoming)
    ensures Imported(baseline, incoming, [], incoming.(spans := []))
  {
    forall m ensures !Imports(baseline, [], m) {
      NothingMarked(m);
      NothingMarked(Mark(m.kind.(resolution := Outstanding), m.frame));
    }
  }

  lemma ImportStep(baseline: seq<Span>, incoming: Record, i: nat, pieces: seq<Span>, before: Record, after: Record)
    requires i < |incoming.spans| && AllValid(incoming.epochs, pieces) && |pieces| <= 2 * |baseline| + 1
    requires Imported(baseline, incoming, incoming.spans[..i], before) && Gains(before, pieces, after)
    requires forall m :: Marked(pieces, m) <==> Imports(baseline, [incoming.spans[i]], m)
    ensures Imported(baseline, incoming, incoming.spans[..i + 1], after)
  {
    var done, more := incoming.spans[..i], incoming.spans[..i + 1];
    assert more == done + [incoming.spans[i]];
    forall m ensures Imports(baseline, more, m) <==> Imports(baseline, done, m) || Marked(pieces, m) {
      ImportsPush(baseline, done, incoming.spans[i], m);
    }
    assert AllProper(pieces) by {
      forall s | s in pieces ensures s.Proper() { assert ValidSpan(incoming.epochs, s); }
    }
    assert Room(baseline, more) == Room(baseline, done) + 2 * |baseline| + 1;
    hide Imports, Valid, Marked, Room;
    forall c | after.overflow.outstanding.Get(c) > 0
      ensures incoming.overflow.outstanding.Get(c) > 0 || ImportsDebt(baseline, more, c) {
      OwesSomewhere(pieces, c);
      if OwesPositioned(pieces, c) {
        var m :| Marked(pieces, m) && OwedAt(m, c);
        assert Imports(baseline, more, m);
      } else if ImportsDebt(baseline, done, c) {
        var m :| Imports(baseline, done, m) && OwedAt(m, c);
        assert Imports(baseline, more, m);
      }
    }
  }

  /** What the overlay promises: the baseline and the import, frame by frame, with live debts that the baseline
      already recovered shown as recovered; a statement is missing only where its class counts omissions; and
      a class is owed exactly if the baseline owes it, the import counts it, or the import adds it. */
  ghost predicate Overlays(baseline: Record, incoming: Record, r: Record) {
    && Valid(r) && r.observed == (baseline.observed && incoming.observed)
    && r.overflow.Covers(baseline.overflow) && r.overflow.Covers(incoming.overflow)
    && OverlaySays(baseline, incoming, r) && (forall c :: OverlayOwes(baseline, incoming, r, c))
  }

  ghost predicate OverlaySays(baseline: Record, incoming: Record, r: Record) {
    && (forall m :: Says(r, m) ==> Says(baseline, m) || Imports(baseline.spans, incoming.spans, m))
    && (forall m :: Says(baseline, m) || Imports(baseline.spans, incoming.spans, m) ==>
          Says(r, m) || Counted(r.overflow, m.kind))
  }

  ghost predicate OverlayOwes(baseline: Record, incoming: Record, r: Record, c: Loss) {
    Owes(r, c) <==>
      Owes(baseline, c) || incoming.overflow.outstanding.Get(c) > 0 || ImportsDebt(baseline.spans, incoming.spans, c)
  }

  /** The pieces of the import surely fit next to the baseline. */
  predicate RoomyImport(quality: Record, incoming: Record) {
    |quality.spans| + Room(quality.spans, incoming.spans) <= MAX_QUALITY_SPANS
  }

  /** Refused are invalid records, epochs that disagree, and epochs that leave no room for a listed run of the
      baseline and the import; with room for every piece, the last is the test of each span of the two records. */
  method MergeHistoricalQuality(quality: Record, incoming: Record)
    returns (result: Result<Record, Error>, imported: Record)
    ensures Valid(quality) && Valid(incoming) ==> Imported(quality.spans, incoming, incoming.spans, imported)
    ensures result.Ok? <==>
      Valid(quality) && Valid(incoming) && EpochsAgree(quality.epochs, incoming.epochs) && Fits(quality, imported)
    ensures (Valid(quality) && Valid(incoming) && EpochsAgree(quality.epochs, incoming.epochs)
             && EachFits(quality, incoming)) ==> result.Ok?
    ensures result.Ok? && RoomyImport(quality, incoming) ==> EachFits(quality, incoming)
    ensures result.Ok? ==> result.value == Union(quality, imported) && Overlays(quality, incoming, result.value)
  {
    if !Valid(incoming) || !Valid(quality) {
      return Err(Invalid), incoming;
    }
    ProperSpans(quality);
    imported := ImportSpans(quality.spans, incoming);
    assert imported.epochs == incoming.epochs && Valid(imported);
    hide Valid, Fits, EachFits, Union, Merges, Overlays, Imported, EpochsAgree, RoomyImport;
    result := MergeSnapshot(quality, imported);
    if EpochsAgree(quality.epochs, incoming.epochs) {
      HistoryFits(quality, incoming, imported);
    }
    if result.Ok? {
      OverlayFollows(quality, incoming, imported, result.value);
    }
  }

  lemma HistoryFits(quality: Record, incoming: Record, imported: Record)
    requires Valid(quality) && Valid(incoming) && Imported(quality.spans, incoming, incoming.spans, imported)
    requires EpochsAgree(quality.epochs, incoming.epochs)
    requires Unites(quality.epochs, imported.epochs, UnionOf(quality.epochs, imported.epochs))
    ensures EachFits(quality, incoming) ==> EachFits(quality, imported)
    ensures EachFits(quality, imported) && RoomyImport(quality, incoming) ==> EachFits(quality, incoming)
    ensures RoomyImport(quality, incoming) ==> Roomy(quality, imported)
  {
    var all := UnionOf(quality.epochs, imported.epochs);
    UnionInOrder(quality.epochs, imported.epochs, all);
    ListingInOrder(all);
    if SpansFit(quality, incoming, all) {
      ImportFits(quality, incoming, imported, all);
    }
    if SpansFit(quality, imported, all) && RoomyImport(quality, incoming) {
      FitsBack(quality, incoming, imported, all);
    }
  }

  /** Every imported span lies between a start and an end of incoming spans of its epoch. */
  lemma ImportFits(quality: Record, incoming: Record, imported: Record, all: seq<Epoch>)
    requires Valid(incoming) && Imported(quality.spans, incoming, incoming.spans, imported)
    requires EpochsInOrder(Listing(all)) && SpansFit(quality, incoming, all)
    ensures SpansFit(quality, imported, all)
  {
    var listed := Listing(all);
    forall s | s in quality.spans + imported.spans && EpochListed(listed, s) ensures ValidSpan(listed, s) {
      if s in quality.spans {
        assert s in quality.spans + incoming.spans;
      } else {
        assert ValidSpan(imported.epochs, s);
        var first := Source(quality.spans, incoming.spans, imported.spans, s, s.start);
        var last := Source(quality.spans, incoming.spans, imported.spans, s, s.end - 1);
        assert first in quality.spans + incoming.spans && last in quality.spans + incoming.spans;
        assert EpochListed(listed, first) && EpochListed(listed, last);
        BetweenIsValid(listed, first, last, s);
      }
    }
  }

  lemma Source(baseline: seq<Span>, incoming: seq<Span>, imported: seq<Span>, s: Span, f: int) returns (from: Span)
    requires s in imported && s.start <= f < s.end
    requires forall m :: Marked(imported, m) ==> Imports(baseline, incoming, m)
    ensures from in incoming && from.kind.epoch == s.kind.epoch && from.start <= f < from.end
  {
    var m := Mark(s.kind, f);
    assert Has(s, m) && Marked(imported, m);
    assert Imports(baseline, incoming, m);
    var own := if Marked(incoming, m) then m else Mark(m.kind.(resolution := Outstanding), f);
    from :| from in incoming && Has(from, own);
  }

  lemma BetweenIsValid(epochs: seq<Epoch>, first: Span, last: Span, s: Span)
    requires EpochsInOrder(epochs) && ValidSpan(epochs, first) && ValidSpan(epochs, last)
    requires s.Proper() && Classified(s.kind) && first.kind.epoch == last.kind.epoch == s.kind.epoch
    requires first.start <= s.start && s.end <= last.end
    ensures ValidSpan(epochs, s)
  {
    var i :| 0 <= i < |epochs| && epochs[i].id == s.kind.epoch;
    hide EndFits, EpochsInOrder;
    PlacedIn(epochs, i, first.start, first.end);
    PlacedIn(epochs, i, last.start, last.end);
    EarlierFits(epochs, i, s.end, last.end);
  }

  /** With room, every incoming span is imported in full. */
  lemma FitsBack(quality: Record, incoming: Record, imported: Record, all: seq<Epoch>)
    requires Valid(incoming) && Imported(quality.spans, incoming, incoming.spans, imported)
    requires EpochsInOrder(Listing(all)) && SpansFit(quality, imported, all) && RoomyImport(quality, incoming)
    ensures SpansFit(quality, incoming, all)
  {
    var listed := Listing(all);
    forall s | s in quality.spans + incoming.spans && EpochListed(listed, s) ensures ValidSpan(listed, s) {
      if s in quality.spans {
        assert s in quality.spans + imported.spans;
      } else {
        assert ValidSpan(incoming.epochs, s);
        var first := Target(quality.spans, incoming.spans, imported.spans, s, s.start);
        var last := Target(quality.spans, incoming.spans, imported.spans, s, s.end - 1);
        assert first in quality.spans + imported.spans && last in quality.spans + imported.spans;
        assert EpochListed(listed, first) && EpochListed(listed, last);
        BetweenIsValid(listed, first, last, s);
      }
    }
  }

  lemma Target(baseline: seq<Span>, incoming: seq<Span>, imported: seq<Span>, s: Span, f: int) returns (to: Span)
    requires s in incoming && s.start <= f < s.end
    requires forall m :: Imports(baseline, incoming, m) ==> Marked(imported, m)
    ensures to in imported && to.kind.epoch == s.kind.epoch && to.start <= f < to.end
  {
    var m := Mark(s.kind, f);
    var recovered := Mark(s.kind.Recovered(), f);
    assert Has(s, m) && Marked(incoming, m);
    var shown := if s.kind.LiveDebt() && Marked(baseline, recovered) then recovered else m;
    assert Imports(baseline, incoming, shown);
    to :| to in imported && Has(to, shown);
  }

  lemma OverlayFollows(quality: Record, incoming: Record, imported: Record, r: Record)
    requires Valid(quality) && Imported(quality.spans, incoming, incoming.spans, imported) && Merges(quality, imported, r)
    ensures Overlays(quality, incoming, r)
  {
    ProperSpans(imported);
    hide Imports, Valid, Marked;
    forall c ensures OverlayOwes(quality, incoming, r, c) {
      OwesSomewhere(imported.spans, c);
      assert Owes(r, c) <==> Owes(quality, c) || Owes(imported, c);
      if OwesPositioned(imported.spans, c) {
        var m :| Marked(imported.spans, m) && OwedAt(m, c);
        assert Says(imported, m);
        assert Imports(quality.spans, incoming.spans, m);
      }
      if ImportsDebt(quality.spans, incoming.spans, c) {
        var m :| Imports(quality.spans, incoming.spans, m) && OwedAt(m, c);
        assert Says(imported, m) || Counted(imported.overflow, m.kind);
      }
    }
  }

  // ---- what the overlay means ----

  /** Importing the same history again adds nothing, except what the caps left out the first time. */
  lemma ReimportAddsNothing(baseline: Record, incoming: Record, r: Record, m: Mark)
    requires OverlaySays(baseline, incoming, r) && Imports(r.spans, incoming.spans, m)
    ensures Says(r, m) || r.overflow.omitted.Get(m.kind.loss) > 0
  {
    hide Marked;
    if m.kind.LiveDebt() {
      var recovered := Mark(m.kind.Recovered(), m.frame);
      assert Says(baseline, recovered) ==> Says(r, recovered) || Counted(r.overflow, recovered.kind);
      assert Imports(baseline.spans, incoming.spans, m) ==> Says(r, m) || Counted(r.overflow, m.kind);
    }
  }

  /** Where no omission is counted, a statement of the import is shown as it was, except that a live debt which
      the baseline recovered at that frame is shown as recovered. Batch and capture losses are never resolved. */
  lemma NothingElseIsResolved(baseline: Record, incoming: Record, r: Record, m: Mark)
    requires OverlaySays(baseline, incoming, r) && r.overflow.omitted.Get(m.kind.loss) == 0 && Says(incoming, m)
    ensures var recovered := Mark(m.kind.Recovered(), m.frame);
      if m.kind.LiveDebt() && Says(baseline, recovered) then Says(r, recovered) && (Says(r, m) <==> Says(baseline, m))
      else Says(r, m)
  {
    hide Valid, Marked;
    var recovered := Mark(m.kind.Recovered(), m.frame);
    assert !Counted(r.overflow, m.kind) && !Counted(r.overflow, recovered.kind);
    assert Imports(baseline.spans, incoming.spans, m) || Imports(baseline.spans, incoming.spans, recovered);
  }

  /** No processing loss is owed afterwards exactly if the baseline owes none, the import counts none, and every
      outstanding one that the import positions is a live debt recovered in the baseline at that very frame. */
  lemma PaidExactlyByRecoveries(baseline: Record, incoming: Record, r: Record)
    requires OverlayOwes(baseline, incoming, r, ProcessingLoss)
    ensures !Owes(r, ProcessingLoss) <==>
      && !Owes(baseline, ProcessingLoss) && incoming.overflow.outstanding.processing == 0
      && forall m :: Says(incoming, m) && OwedAt(m, ProcessingLoss) ==>
           m.kind.LiveDebt() && Says(baseline, Mark(m.kind.Recovered(), m.frame))
  {
    hide Valid, Marked;
    if !Owes(r, ProcessingLoss) {
      forall m | Says(incoming, m) && OwedAt(m, ProcessingLoss)
        ensures m.kind.LiveDebt() && Says(baseline, Mark(m.kind.Recovered(), m.frame)) {
        assert !Imports(baseline.spans, incoming.spans, m);
      }
    } else if ImportsDebt(baseline.spans, incoming.spans, ProcessingLoss) {
      var m :| Imports(baseline.spans, incoming.spans, m) && OwedAt(m, ProcessingLoss);
      assert Says(incoming, m);
    }
  }
}
