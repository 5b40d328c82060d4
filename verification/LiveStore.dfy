/** The bounded store behind the live transcript window: one session, two caps, delta events.

    Each public method is the region that runs under the publish lock; `inner` is what its second mutex
    protects. The event log is ghost state: the publish lock is held until the events are delivered, so the
    order of the log is the order of delivery. */
module LiveStore {
  import opened Wrappers
  import opened Utf8
  import opened BoundedDeque
  import opened LiveTypes
  import opened LiveReplica

  const MAX_RETAINED_BYTES: nat := 1024 * 1024
  const MAX_RETAINED_LINES: nat := 2000
  const LINE_OVERHEAD_BYTES: nat := 64
  const MAX_SPEAKER_BYTES: nat := 64
  const CAPS := Caps(Some(MAX_RETAINED_LINES), MAX_RETAINED_BYTES)
  const U64_MAX: int := 0xFFFF_FFFF_FFFF_FFFF

  /** An `f64` as far as the store looks at it. */
  datatype Seconds = NonFinite | Finite(value: real)

  function FiniteNonnegative(s: Seconds): real {
    if s.Finite? && s.value > 0.0 then s.value else 0.0
  }

  function SecondsToMillis(value: real): nat {
    if value <= 0.0 then 0
    else var rounded := (value * 1000.0 + 0.5).Floor; if rounded > U64_MAX then U64_MAX else rounded
  }

  datatype Speaker = Me | Other(name: Text)

  const ME: Text := [0x4D, 0x65]
  const THEM: Text := [0x54, 0x68, 0x65, 0x6D]

  /** One closed region of speech; `text` has its surrounding white space removed. */
  datatype Segment = Segment(speaker: Speaker, start: Seconds, end: Seconds, text: Text)

  predicate ValidText(s: Segment) {
    WellFormed(s.text) && (s.speaker.Other? ==> WellFormed(s.speaker.name))
  }

  /** The envelope handed to the hosted rewriter, and handed back by it. */
  datatype HostedRow = HostedRow(rowId: RowId, speaker: Text, startMs: nat, endMs: nat, text: Text)

  function LineCost(line: Line): nat {
    LINE_OVERHEAD_BYTES + |line.speaker| + |line.text| + (if line.cleanText.Some? then |line.cleanText.value| else 0)
  }

  // ---- rows minted from speech ----

  function ShownSpeaker(speaker: Speaker): Text {
    var shown := if speaker.Me? then ME else speaker.name;
    if shown == [] || shown == THEM then THEM + [0x20, 0x31] else Capped(shown, MAX_SPEAKER_BYTES)
  }

  function Mint(s: Segment, number: nat): Line {
    var start, end := FiniteNonnegative(s.start), FiniteNonnegative(s.end);
    Line(number, LiveRow(number), ShownSpeaker(s.speaker), start, if end < start then start else end,
         Capped(s.text, MAX_RETAINED_BYTES / 2), None, Raw, 0)
  }

  function Minted(segments: seq<Segment>, number: nat): seq<Line> {
    if segments == [] then []
    else
      var before, last := Minted(segments[..|segments| - 1], number), segments[|segments| - 1];
      if last.text == [] then before else before + [Mint(last, number + |before|)]
  }

  function Envelope(line: Line): HostedRow {
    var startMs, endMs := SecondsToMillis(line.start), SecondsToMillis(line.end);
    HostedRow(line.rowId, line.speaker, startMs, if endMs < startMs then startMs else endMs, line.text)
  }

  function Envelopes(lines: seq<Line>): (rows: seq<HostedRow>)
    ensures |rows| == |lines|
    ensures forall i :: 0 <= i < |rows| ==> rows[i] == Envelope(lines[i])
  {
    seq(|lines|, i requires 0 <= i < |lines| => Envelope(lines[i]))
  }

  // ---- rewrites ----

  /** The identity fence of one row. */
  predicate Matches(line: Line, row: HostedRow) {
    && line.rowId == row.rowId && line.speaker == row.speaker
    && SecondsToMillis(line.start) == row.startMs && SecondsToMillis(line.end) == row.endMs
  }

  function Position(lines: seq<Line>, row: HostedRow): (index: Option<nat>)
    ensures index.Some? ==> index.value < |lines| && Matches(lines[index.value], row)
    ensures index.None? ==> forall i :: 0 <= i < |lines| ==> !Matches(lines[i], row)
  {
    if lines == [] then None
    else if Matches(lines[0], row) then Some(0)
    else var later := Position(lines[1..], row); if later.Some? then Some(later.value + 1) else None
  }

  ghost predicate AllPresent(lines: seq<Line>, rows: seq<HostedRow>) {
    forall i :: 0 <= i < |rows| ==> Position(lines, rows[i]).Some?
  }

  function Cleaned(line: Line, row: HostedRow, epoch: nat): Line {
    line.(cleanText := Some(row.text), rewriteState := Clean, commitEpoch := epoch)
  }

  /** All rows rewritten in order; a later rewrite of the same row wins. */
  ghost function Rewritten(lines: seq<Line>, rows: seq<HostedRow>, epoch: nat): (r: seq<Line>)
    requires AllPresent(lines, rows)
    ensures |r| == |lines| && forall i :: 0 <= i < |r| ==> SameRaw(lines[i], r[i])
  {
    if rows == [] then lines
    else
      var before, last := Rewritten(lines, rows[..|rows| - 1], epoch), rows[|rows| - 1];
      var index := Position(lines, last).value;
      before[index := Cleaned(before[index], last, epoch)]
  }

  // ---- rows by number ----

  ghost predicate Consecutive(lines: seq<Line>, next: nat) {
    |lines| < next &&
    forall i :: 0 <= i < |lines| ==> lines[i].seqNo == next - |lines| + i && lines[i].rowId == LiveRow(lines[i].seqNo)
  }

  ghost function ByNumber(lines: seq<Line>, next: nat): map<nat, Line>
    requires |lines| <= next
  {
    map k: nat | next - |lines| <= k < next :: RowAt(lines, next, k)
  }

  function RowAt(lines: seq<Line>, next: nat, number: nat): Line
    requires next - |lines| <= number < next
  {
    lines[number - (next - |lines|)]
  }

  lemma KeptWhole(lines: seq<Line>)
    requires Fits(lines, LineCost, CAPS)
    ensures Kept(lines, LineCost, CAPS) == lines
  {}

  /** A row that fits on its own is never evicted by its own append. */
  lemma NewestFits(lines: seq<Line>, line: Line)
    requires LineCost(line) <= MAX_RETAINED_BYTES
    ensures var kept := Kept(lines + [line], LineCost, CAPS); kept != [] && kept[|kept| - 1] == line
  {
    var all := lines + [line];
    assert all[|lines|..] == [line];
    assert Total([line], LineCost) == LineCost(line) + Total([], LineCost);
    KeptIsSuffix(all, LineCost, CAPS);
    KeptIsLongest(all, LineCost, CAPS, |lines|);
  }

  lemma ResetIsFolded(next: nat)
    ensures Folded(map[], None, next) == ByNumber([], next) && Total<Line>([], LineCost) == 0
  {}

  lemma StatusIsFolded(lines: seq<Line>, next: nat)
    requires |lines| < next
    ensures Folded(ByNumber(lines, next), None, next - |lines|) == ByNumber(lines, next)
  {}

  /** A suffix of consecutive rows holds exactly the numbers from its first row on. */
  lemma SuffixByNumber(all: seq<Line>, kept: seq<Line>, next: nat)
    requires Consecutive(all, next) && |kept| <= |all| && kept == all[|all| - |kept|..]
    ensures Consecutive(kept, next)
    ensures ByNumber(kept, next) == Trimmed(ByNumber(all, next), next - |kept|)
  {
    assert forall i :: 0 <= i < |kept| ==> kept[i] == all[|all| - |kept| + i];
  }

  lemma OneMoreByNumber(lines: seq<Line>, line: Line, next: nat)
    requires next > 0 && Consecutive(lines, next - 1) && line.seqNo == next - 1 && line.rowId == LiveRow(line.seqNo)
    ensures Consecutive(lines + [line], next)
    ensures line.seqNo !in ByNumber(lines, next - 1)
    ensures ByNumber(lines + [line], next) == ByNumber(lines, next - 1)[line.seqNo := line]
  {}

  /** Folding the event of an append gives exactly the rows that the store kept. */
  lemma AppendIsFolded(lines: seq<Line>, line: Line, kept: seq<Line>, next: nat)
    requires next > 0 && Consecutive(lines, next - 1) && line.seqNo == next - 1 && line.rowId == LiveRow(line.seqNo)
    requires kept != [] && |kept| <= |lines| + 1 && kept == (lines + [line])[|lines| + 1 - |kept|..]
    ensures Consecutive(kept, next)
    ensures kept[0].seqNo == next - |kept| && line.seqNo !in ByNumber(lines, next - 1)
    ensures Folded(ByNumber(lines, next - 1), Some(line), next - |kept|) == ByNumber(kept, next)
  {
    OneMoreByNumber(lines, line, next);
    SuffixByNumber(lines + [line], kept, next);
    var rows := ByNumber(lines, next - 1);
    hide ByNumber;
    assert Trimmed(rows[line.seqNo := line], next - |kept|) == Upsert(Trimmed(rows, next - |kept|), line);
  }

  datatype ApplyOutcome = Applied(rowCount: nat) | Stale

  /** The state behind the store's mutex. */
  datatype Inner = Inner(
    processEpoch: nat,
    sessionGeneration: nat,
    revision: nat,
    transcriptRevision: nat,
    nextSeq: nat,
    sessionId: Option<string>,
    mode: Mode,
    status: Status,
    title: string,
    detail: Option<string>,
    active: bool,
    lines: seq<Line>,
    retainedBytes: nat,
    evictedLines: nat)
  {
    function RetainedFromSeq(): nat {
      if lines == [] then nextSeq else lines[0].seqNo
    }

    function Header(): LiveTypes.Header {
      LiveTypes.Header(processEpoch, sessionGeneration, revision, sessionId, mode, status, title, detail, active,
                       evictedLines, RetainedFromSeq())
    }

    function EventNow(fromRevision: nat, reset: bool, line: Option<Line>): Event {
      Event(Header(), fromRevision, reset, line)
    }

    ghost function Seen(): View
      requires |lines| <= nextSeq
    {
      View(Header(), ByNumber(lines, nextSeq))
    }

    /** Both caps hold and every counter is right; `appended` rows entered this session. */
    ghost predicate Bounded(appended: nat) {
      && Consecutive(lines, nextSeq)
      && Fits(lines, LineCost, CAPS)
      && retainedBytes == Total(lines, LineCost)
      && evictedLines + |lines| == appended
    }
  }

  function Fresh(epoch: nat): Inner {
    Inner(epoch, 0, 0, 0, 1, None, Idle, StatusIdle, "Live transcript",
          Some("Start a microphone test or join a call."), false, [], 0, 0)
  }

  /** The state is the fold of the events published since the process started. */
  ghost predicate Replays(epoch: nat, published: seq<Event>, inner: Inner) {
    && |inner.lines| <= inner.nextSeq
    && Chained(Fresh(epoch).Seen(), published)
    && Replayed(Fresh(epoch).Seen(), published) == inner.Seen()
  }

  lemma Extends(epoch: nat, published: seq<Event>, before: Inner, e: Event, after: Inner)
    requires Replays(epoch, published, before)
    requires |after.lines| <= after.nextSeq
    requires Follows(before.Seen(), e) && After(before.Seen(), e) == after.Seen()
    ensures Replays(epoch, published + [e], after)
  {
    assert (published + [e])[..|published|] == published;
  }

  /** The eviction loop that both writers end with. */
  method Evict(it: Inner) returns (rest: Inner)
    requires it.retainedBytes == Total(it.lines, LineCost)
    ensures rest.lines == Kept(it.lines, LineCost, CAPS)
    ensures rest.retainedBytes == Total(rest.lines, LineCost)
    ensures |rest.lines| <= |it.lines| && rest.evictedLines == it.evictedLines + |it.lines| - |rest.lines|
    ensures rest == it.(lines := rest.lines, retainedBytes := rest.retainedBytes, evictedLines := rest.evictedLines)
  {
    rest := it;
    while |rest.lines| > MAX_RETAINED_LINES || rest.retainedBytes > MAX_RETAINED_BYTES
      invariant rest.retainedBytes == Total(rest.lines, LineCost)
      invariant Kept(rest.lines, LineCost, CAPS) == Kept(it.lines, LineCost, CAPS)
      invariant |rest.lines| <= |it.lines| && rest.evictedLines == it.evictedLines + |it.lines| - |rest.lines|
      invariant rest == it.(lines := rest.lines, retainedBytes := rest.retainedBytes, evictedLines := rest.evictedLines)
      decreases |rest.lines|
    {
      if rest.lines == [] {
        break;
      }
      var evicted := rest.lines[0];
      rest := rest.(lines := rest.lines[1..],
                    retainedBytes := SaturatingSub(rest.retainedBytes, LineCost(evicted)),
                    evictedLines := rest.evictedLines + 1);
    }
  }

  /** One row appended, and evictions made. */
  method Retain(it: Inner, line: Line, ghost appended: nat) returns (after: Inner)
    requires it.Bounded(appended) && line.seqNo == it.nextSeq && line.rowId == LiveRow(it.nextSeq)
    requires LineCost(line) <= MAX_RETAINED_BYTES
    ensures after.Bounded(appended + 1) && |after.lines| < after.nextSeq
    ensures after.lines == Kept(it.lines + [line], LineCost, CAPS)
    ensures after == it.(nextSeq := it.nextSeq + 1, lines := after.lines, retainedBytes := after.retainedBytes,
                         evictedLines := after.evictedLines)
  {
    hide Folded, Kept, ByNumber;
    NewestFits(it.lines, line);
    assert Total([line], LineCost) == LineCost(line) by { assert [line][1..] == []; }
    KeptIsSuffix(it.lines + [line], LineCost, CAPS);
    TotalOfConcat(it.lines, [line], LineCost);
    after := it.(nextSeq := it.nextSeq + 1,
                 retainedBytes := it.retainedBytes + LineCost(line),
                 lines := it.lines + [line]);
    after := Evict(after);
  }

  /** The body of the append loop: one row appended, evictions made, one event prepared. */
  method PushRow(it: Inner, line: Line, ghost appended: nat) returns (after: Inner, e: Event)
    requires it.Bounded(appended) && line.seqNo == it.nextSeq && line.rowId == LiveRow(it.nextSeq)
    requires LineCost(line) <= MAX_RETAINED_BYTES
    ensures after.Bounded(appended + 1) && |after.lines| < after.nextSeq
    ensures Follows(it.Seen(), e) && After(it.Seen(), e) == after.Seen()
    ensures after.lines == Kept(it.lines + [line], LineCost, CAPS)
    ensures after.lines != [] && after.lines[|after.lines| - 1] == line
    ensures after == it.(nextSeq := it.nextSeq + 1, revision := it.revision + 1, lines := after.lines,
                         retainedBytes := after.retainedBytes, evictedLines := after.evictedLines)
  {
    hide Folded, Kept, ByNumber, LineCost;
    NewestFits(it.lines, line);
    KeptIsSuffix(it.lines + [line], LineCost, CAPS);
    after := Retain(it, line, appended);
    AppendIsFolded(it.lines, line, after.lines, after.nextSeq);
    var fromRevision := after.revision;
    after := after.(revision := after.revision + 1);
    e := after.EventNow(fromRevision, false, Some(line));
  }

  class LiveTranscriptStore {
    var inner: Inner

    /** Events in delivery order, and the number of rows appended in this session. */
    ghost var published: seq<Event>
    ghost var appended: nat
    ghost const epoch: nat

    /** The caps hold, the counters are right, and the state is the fold of the published events. */
    ghost predicate Valid()
      reads this
    {
      inner.Bounded(appended) && Replays(epoch, published, inner)
    }

    constructor (processEpoch: nat)
      ensures Valid() && published == [] && inner == Fresh(processEpoch) && epoch == processEpoch
    {
      inner := Fresh(processEpoch);
      published, appended, epoch := [], 0, processEpoch;
    }

    /** A snapshot shows exactly the fold of what has been published. */
    method Snapshot() returns (header: LiveTypes.Header, rows: seq<Line>)
      requires Valid()
      ensures |rows| < inner.nextSeq
      ensures View(header, ByNumber(rows, inner.nextSeq)) == Replayed(Fresh(epoch).Seen(), published)
    {
      return inner.Header(), inner.lines;
    }

    method Begin(id: string, mode: Mode, title: string, status: Status, detail: Option<string>)
      requires Valid()
      modifies this
      ensures Valid() && appended == 0
      ensures |published| == |old(published)| + 1 && old(published) <= published
      ensures var was := old(inner);
        inner == Inner(was.processEpoch, was.sessionGeneration + 1, was.revision + 1, 0, was.nextSeq, Some(id), mode,
                       status, title, detail, status == Loading || status == Listening, [], 0, 0)
    {
      var it := inner;
      var fromRevision := it.revision;
      it := it.(revision := it.revision + 1, sessionGeneration := it.sessionGeneration + 1);
      it := it.(sessionId := Some(id), mode := mode, status := status, title := title, detail := detail,
                active := status == Loading || status == Listening);
      it := it.(lines := [], transcriptRevision := 0, retainedBytes := 0, evictedLines := 0);
      var e := it.EventNow(fromRevision, true, None);
      ResetIsFolded(it.nextSeq);
      Extends(epoch, published, inner, e, it);
      inner, appended, published := it, 0, published + [e];
    }

    /** Every detected call gets a readable state, and a session that already has one keeps it. */
    method EnsureUnavailableCall(id: string, title: string, detail: string)
      requires Valid()
      modifies this
      ensures Valid() && inner.sessionId == Some(id)
      ensures old(inner).sessionId == Some(id) ==> inner == old(inner) && published == old(published)
      ensures old(inner).sessionId != Some(id) ==>
        inner.lines == [] && inner.status == StatusUnavailable && !inner.active && inner.detail == Some(detail)
    {
      if inner.sessionId == Some(id) {
        return;
      }
      Begin(id, Call, title, StatusUnavailable, Some(detail));
    }

    method SetStatus(id: string, status: Status, active: bool, detail: Option<string>)
      requires Valid()
      modifies this
      ensures Valid() && appended == old(appended) && old(published) <= published
      ensures var was := old(inner);
        if was.sessionId != Some(id) then inner == was && published == old(published)
        else |published| == |old(published)| + 1 &&
             inner == was.(revision := was.revision + 1, status := status, active := active, detail := detail)
    {
      if inner.sessionId != Some(id) {
        return;
      }
      var it := inner;
      var fromRevision := it.revision;
      it := it.(revision := it.revision + 1, status := status, active := active, detail := detail);
      var e := it.EventNow(fromRevision, false, None);
      StatusIsFolded(it.lines, it.nextSeq);
      Extends(epoch, published, inner, e, it);
      inner, published := it, published + [e];
    }

    /** Rows appended to the current session: exactly the newest rows that fit are kept, in order, and the
        hosted envelopes describe the rows minted here. */
    method AppendSegments(id: string, segments: seq<Segment>) returns (hosted: seq<HostedRow>)
      requires Valid() && forall s :: s in segments ==> ValidText(s)
      modifies this
      ensures Valid() && old(published) <= published
      ensures var was, minted := old(inner), Minted(segments, old(inner).nextSeq);
        if was.sessionId != Some(id) then
          hosted == [] && inner == was && published == old(published) && appended == old(appended)
        else
          && hosted == Envelopes(minted)
          && appended == old(appended) + |minted| && |published| == |old(published)| + |minted|
          && inner.lines == Kept(was.lines + minted, LineCost, CAPS)
          && (minted != [] ==> inner.lines != [] && inner.lines[|inner.lines| - 1] == minted[|minted| - 1])
          && inner == was.(nextSeq := was.nextSeq + |minted|, revision := was.revision + |minted|,
                           transcriptRevision := was.transcriptRevision + (if minted == [] then 0 else 1),
                           lines := inner.lines, retainedBytes := inner.retainedBytes,
                           evictedLines := inner.evictedLines)
    {
      hide Kept, Chained, Replayed, Minted;
      hosted := [];
      if inner.sessionId != Some(id) {
        return;
      }
      var it, events;
      it, events, hosted := AppendRows(inner, segments, epoch, published, appended);
      appended := appended + |events|;
      inner, published := it, published + events;
    }

    /** All or nothing: unless every row is still retained with the identity it was minted with, nothing
        changes; otherwise exactly the named rows gain their rewrites, and the caps are restored. */
    method ApplyHostedRows(id: string, rows: seq<HostedRow>, commitEpoch: nat) returns (outcome: ApplyOutcome)
      requires Valid()
      modifies this
      ensures Valid() && old(published) <= published && appended == old(appended)
      ensures outcome.Stale? <==> rows != [] && !(old(inner).sessionId == Some(id) && AllPresent(old(inner).lines, rows))
      ensures outcome.Stale? || rows == [] ==> inner == old(inner) && published == old(published)
      ensures outcome.Applied? ==> outcome.rowCount == |rows| && |published| == |old(published)| + |rows|
      ensures outcome.Applied? && rows != [] ==>
        var was := old(inner);
        && inner.lines == Kept(Rewritten(was.lines, rows, commitEpoch), LineCost, CAPS)
        && RewrittenRows(was.lines, rows, commitEpoch, inner.lines)
        && inner == was.(revision := was.revision + |rows|, lines := inner.lines,
                         retainedBytes := inner.retainedBytes, evictedLines := inner.evictedLines)
    {
      hide Kept, Chained, Replayed, Consecutive, Total, ByNumber;
      if rows == [] {
        return ApplyOutcome.Applied(0);
      }
      if inner.sessionId != Some(id) {
        return Stale;
      }
      var indices := [];
      for i := 0 to |rows|
        invariant |indices| == i
        invariant forall j | 0 <= j < i :: Position(inner.lines, rows[j]) == Some(indices[j])
      {
        var index := Position(inner.lines, rows[i]);
        if index.None? {
          return Stale;
        }
        indices := indices + [index.value];
      }
      KeptAreRewritten(inner.lines, inner.nextSeq, rows, commitEpoch);
      hide RewrittenRows;
      var it, changed := RewriteRows(inner, rows, indices, commitEpoch);
      var after, events := RewriteEvents(inner, it, rows, changed, commitEpoch, appended, epoch, published);
      inner, published := after, published + events;
      return ApplyOutcome.Applied(|rows|);
    }
  }

  /** The rows minted so far are in the state, and their events and envelopes are ready. */
  ghost predicate Appended(was: Inner, minted: seq<Line>, it: Inner, events: seq<Event>, hosted: seq<HostedRow>) {
    && hosted == Envelopes(minted) && |events| == |minted|
    && it.lines == Kept(was.lines + minted, LineCost, CAPS)
    && (minted != [] ==> it.lines != [] && it.lines[|it.lines| - 1] == minted[|minted| - 1])
    && it == was.(nextSeq := was.nextSeq + |minted|, revision := was.revision + |minted|,
                  lines := it.lines, retainedBytes := it.retainedBytes, evictedLines := it.evictedLines)
  }

  lemma AppendedNothing(was: Inner, appended: nat)
    requires was.Bounded(appended)
    ensures Appended(was, [], was, [], [])
  {
    KeptWhole(was.lines);
    assert was.lines + [] == was.lines;
  }

  lemma AppendedStep(was: Inner, minted: seq<Line>, it: Inner, events: seq<Event>, hosted: seq<HostedRow>,
                     line: Line, after: Inner, e: Event)
    requires Appended(was, minted, it, events, hosted)
    requires after.lines == Kept(it.lines + [line], LineCost, CAPS)
    requires after.lines != [] && after.lines[|after.lines| - 1] == line
    requires after == it.(nextSeq := it.nextSeq + 1, revision := it.revision + 1, lines := after.lines,
                          retainedBytes := after.retainedBytes, evictedLines := after.evictedLines)
    ensures Appended(was, minted + [line], after, events + [e], hosted + [Envelope(line)])
  {
    hide Kept;
    KeptAfterKept(was.lines + minted, [line], LineCost, CAPS);
    assert was.lines + minted + [line] == was.lines + (minted + [line]);
  }

  /** The row of one segment, if it has any text. */
  method RowOf(segments: seq<Segment>, i: nat, ghost first: nat, number: nat) returns (row: Option<Line>)
    requires i < |segments| && (forall s :: s in segments ==> ValidText(s))
    requires number == first + |Minted(segments[..i], first)|
    ensures Minted(segments[..i + 1], first) ==
      Minted(segments[..i], first) + if row.Some? then [row.value] else []
    ensures row.Some? ==> row.value.seqNo == number && row.value.rowId == LiveRow(number) &&
                          LineCost(row.value) <= MAX_RETAINED_BYTES
  {
    hide Minted, Mint, LineCost;
    var segment := segments[i];
    assert segment in segments;
    MintedStep(segments, i, first);
    var text := CapUtf8(segment.text, MAX_RETAINED_BYTES / 2);
    if text == [] {
      return None;
    }
    var line := NewRow(segment, text, number);
    return Some(line);
  }

  /** The append loop on the locked state. */
  method AppendRows(was: Inner, segments: seq<Segment>, ghost epoch: nat, ghost published: seq<Event>,
                    ghost appended: nat)
    returns (it: Inner, events: seq<Event>, hosted: seq<HostedRow>)
    requires was.Bounded(appended) && Replays(epoch, published, was)
    requires forall s :: s in segments ==> ValidText(s)
    ensures it.Bounded(appended + |events|) && Replays(epoch, published + events, it)
    ensures var minted := Minted(segments, was.nextSeq);
      && Appended(was, minted, it.(transcriptRevision := was.transcriptRevision), events, hosted)
      && it.transcriptRevision == was.transcriptRevision + (if minted == [] then 0 else 1)
  {
    hide Minted, Mint, Replays, Envelopes, LineCost;
    it, events, hosted := was, [], [];
    ghost var minted: seq<Line> := [];
    AppendedNothing(was, appended);
    MintedNone(segments, was.nextSeq);
    assert published + [] == published;
    for i := 0 to |segments|
      invariant minted == Minted(segments[..i], was.nextSeq)
      invariant Appended(was, minted, it, events, hosted)
      invariant it.nextSeq == was.nextSeq + |minted| && |events| == |minted| == |hosted|
      invariant it.transcriptRevision == was.transcriptRevision
      invariant it.Bounded(appended + |minted|) && Replays(epoch, published + events, it)
    {
      hide Appended, Folded, Kept, Consecutive, Total, Follows, FromEvent, ByNumber;
      var row := RowOf(segments, i, was.nextSeq, it.nextSeq);
      if row.None? {
        continue;
      }
      var line := row.value;
      var after, e := PushRow(it, line, appended + |minted|);
      AppendedStep(was, minted, it, events, hosted, line, after, e);
      Extends(epoch, published + events, it, e, after);
      assert published + events + [e] == published + (events + [e]);
      minted, it, events, hosted := minted + [line], after, events + [e], hosted + [Envelope(line)];
    }
    assert segments[..|segments|] == segments;
    assert it.(transcriptRevision := was.transcriptRevision) == it;
    if hosted != [] {
      SameSeen(epoch, published + events, it);
      it := it.(transcriptRevision := it.transcriptRevision + 1);
    }
  }

  lemma SameSeen(epoch: nat, published: seq<Event>, it: Inner)
    requires Replays(epoch, published, it)
    ensures Replays(epoch, published, it.(transcriptRevision := it.transcriptRevision + 1))
  {}

  lemma MintedNone(segments: seq<Segment>, number: nat)
    ensures Minted(segments[..0], number) == []
  {}

  lemma MintedStep(segments: seq<Segment>, i: nat, number: nat)
    requires i < |segments|
    ensures var before := Minted(segments[..i], number);
      Minted(segments[..i + 1], number) ==
        if segments[i].text == [] then before else before + [Mint(segments[i], number + |before|)]
  {
    assert segments[..i + 1][..i] == segments[..i];
  }

  method NewRow(segment: Segment, text: Text, number: nat) returns (line: Line)
    requires ValidText(segment) && text == Capped(segment.text, MAX_RETAINED_BYTES / 2)
    requires |text| <= MAX_RETAINED_BYTES / 2 + 3
    ensures line == Mint(segment, number)
    ensures line.seqNo == number && line.rowId == LiveRow(number) && LineCost(line) <= MAX_RETAINED_BYTES
  {
    var start := FiniteNonnegative(segment.start);
    var end := FiniteNonnegative(segment.end);
    end := if end < start then start else end;
    var speaker := NameSpeaker(segment.speaker);
    line := Line(number, LiveRow(number), speaker, start, end, text, None, Raw, 0);
  }

  method NameSpeaker(speaker: Speaker) returns (shown: Text)
    requires speaker.Other? ==> WellFormed(speaker.name)
    ensures shown == ShownSpeaker(speaker) && |shown| <= MAX_SPEAKER_BYTES + 3
  {
    assert WellFormed(ME) by { assert ME[1..] == [0x65] && [0x65][1..] == []; }
    var name := if speaker.Me? then ME else speaker.name;
    if name == [] || name == THEM {
      return THEM + [0x20, 0x31];
    }
    shown := CapUtf8(name, MAX_SPEAKER_BYTES);
  }

  // ---- applying rewrites ----

  /** The version of each named row right after its own rewrite. */
  ghost function Changed(lines: seq<Line>, rows: seq<HostedRow>, epoch: nat): (changed: seq<Line>)
    requires AllPresent(lines, rows)
    ensures |changed| == |rows|
  {
    if rows == [] then []
    else Changed(lines, rows[..|rows| - 1], epoch) +
         [Rewritten(lines, rows, epoch)[Position(lines, rows[|rows| - 1]).value]]
  }

  /** Rows changed one after the other, the last version of each winning. */
  ghost function Painted(rows: map<nat, Line>, changed: seq<Line>): map<nat, Line> {
    if changed == [] then rows
    else Painted(rows, changed[..|changed| - 1])[changed[|changed| - 1].seqNo := changed[|changed| - 1]]
  }

  lemma {:induction false} TotalOfUpdate(lines: seq<Line>, index: nat, line: Line)
    requires index < |lines|
    ensures Total(lines[index := line], LineCost) == Total(lines, LineCost) - LineCost(lines[index]) + LineCost(line)
    ensures Total(lines, LineCost) >= LineCost(lines[index])
  {
    if index == 0 {
      assert lines[0 := line][1..] == lines[1..];
    } else {
      assert lines[index := line][1..] == lines[1..][index - 1 := line];
      TotalOfUpdate(lines[1..], index - 1, line);
    }
  }

  lemma RewrittenStep(lines: seq<Line>, rows: seq<HostedRow>, i: nat, epoch: nat)
    requires AllPresent(lines, rows) && i < |rows|
    ensures AllPresent(lines, rows[..i]) && AllPresent(lines, rows[..i + 1])
    ensures var index, before := Position(lines, rows[i]).value, Rewritten(lines, rows[..i], epoch);
      && Rewritten(lines, rows[..i + 1], epoch) == before[index := Cleaned(before[index], rows[i], epoch)]
      && Changed(lines, rows[..i + 1], epoch)
           == Changed(lines, rows[..i], epoch) + [Cleaned(before[index], rows[i], epoch)]
  {
    assert rows[..i + 1][..i] == rows[..i];
  }

  /** The rewriting loop on the locked state: costs follow the rows, nothing is evicted yet. */
  method RewriteRows(was: Inner, rows: seq<HostedRow>, indices: seq<nat>, epoch: nat)
    returns (it: Inner, changed: seq<Line>)
    requires was.retainedBytes == Total(was.lines, LineCost) && |indices| == |rows|
    requires forall i | 0 <= i < |rows| :: Position(was.lines, rows[i]) == Some(indices[i])
    ensures it.lines == Rewritten(was.lines, rows, epoch) && changed == Changed(was.lines, rows, epoch)
    ensures it.retainedBytes == Total(it.lines, LineCost)
    ensures it == was.(lines := it.lines, retainedBytes := it.retainedBytes)
  {
    hide Total, LineCost, Cleaned;
    it, changed := was, [];
    assert rows[..0] == [];
    for i := 0 to |rows|
      invariant it.lines == Rewritten(was.lines, rows[..i], epoch) && changed == Changed(was.lines, rows[..i], epoch)
      invariant it.retainedBytes == Total(it.lines, LineCost)
      invariant it == was.(lines := it.lines, retainedBytes := it.retainedBytes)
    {
      hide Rewritten, Changed;
      RewrittenStep(was.lines, rows, i, epoch);
      var row, index := rows[i], indices[i];
      var oldCost := LineCost(it.lines[index]);
      var line := Cleaned(it.lines[index], row, epoch);
      TotalOfUpdate(it.lines, index, line);
      it := it.(lines := it.lines[index := line],
                retainedBytes := SaturatingSub(it.retainedBytes, oldCost) + LineCost(line));
      changed := changed + [line];
    }
    assert rows[..|rows|] == rows;
  }

  /** Replacing one row by a version with the same number replaces it by number too. */
  lemma ReplacedByNumber(lines: seq<Line>, next: nat, index: nat, line: Line)
    requires Consecutive(lines, next) && index < |lines| && SameRaw(lines[index], line)
    ensures line.seqNo == next - |lines| + index && line.seqNo in ByNumber(lines, next)
    ensures ByNumber(lines, next)[line.seqNo] == lines[index]
    ensures ByNumber(lines[index := line], next) == ByNumber(lines, next)[line.seqNo := line]
  {}

  lemma SameRawRows(lines: seq<Line>, others: seq<Line>, next: nat)
    requires Consecutive(lines, next) && |others| == |lines|
    requires forall i :: 0 <= i < |lines| ==> SameRaw(lines[i], others[i])
    ensures Consecutive(others, next)
  {}

  lemma {:induction false} RewritesPaint(lines: seq<Line>, next: nat, rows: seq<HostedRow>, epoch: nat)
    requires Consecutive(lines, next) && AllPresent(lines, rows)
    ensures ByNumber(Rewritten(lines, rows, epoch), next) == Painted(ByNumber(lines, next), Changed(lines, rows, epoch))
    ensures RawOf(ByNumber(lines, next), Changed(lines, rows, epoch))
  {
    if rows != [] {
      hide ByNumber, Consecutive;
      var n := |rows| - 1;
      assert rows[..n + 1] == rows;
      RewrittenStep(lines, rows, n, epoch);
      RewritesPaint(lines, next, rows[..n], epoch);
      var before, index := Rewritten(lines, rows[..n], epoch), Position(lines, rows[n]).value;
      hide Rewritten, Changed, AllPresent, RawOf, Painted;
      var line := Cleaned(before[index], rows[n], epoch);
      SameRawRows(lines, before, next);
      ReplacedByNumber(before, next, index, line);
      ReplacedByNumber(lines, next, index, line);
      PaintOne(ByNumber(lines, next), Changed(lines, rows[..n], epoch), line);
    }
  }

  lemma PaintOne(rows: map<nat, Line>, changed: seq<Line>, line: Line)
    requires RawOf(rows, changed) && line.seqNo in rows && SameRaw(rows[line.seqNo], line)
    ensures RawOf(rows, changed + [line])
    ensures Painted(rows, changed + [line]) == Painted(rows, changed)[line.seqNo := line]
  {
    assert (changed + [line])[..|changed|] == changed;
  }

  ghost predicate RawOf(rows: map<nat, Line>, changed: seq<Line>) {
    forall i :: 0 <= i < |changed| ==> changed[i].seqNo in rows && SameRaw(rows[changed[i].seqNo], changed[i])
  }

  lemma {:induction false} PaintingKeepsRaw(rows: map<nat, Line>, changed: seq<Line>)
    requires RawOf(rows, changed)
    requires forall k :: k in rows ==> rows[k].seqNo == k
    ensures Painted(rows, changed).Keys == rows.Keys
    ensures forall k :: k in rows ==> SameRaw(rows[k], Painted(rows, changed)[k])
  {
    if changed != [] {
      PaintingKeepsRaw(rows, changed[..|changed| - 1]);
    }
  }

  /** The window's rows while the events of one application arrive. */
  ghost function Halfway(rows: map<nat, Line>, changed: seq<Line>, from: nat): map<nat, Line> {
    if changed == [] then rows else Trimmed(Painted(rows, changed), from)
  }

  /** Folding the event of one rewritten row. */
  lemma RewriteIsFolded(rows: map<nat, Line>, changed: seq<Line>, i: nat, from: nat)
    requires RawOf(rows, changed) && i < |changed|
    requires forall k :: k in rows ==> rows[k].seqNo == k
    ensures var before, line := Halfway(rows, changed[..i], from), changed[i];
      && (line.seqNo in before ==> SameRaw(before[line.seqNo], line))
      && Folded(before, Some(line), from) == Halfway(rows, changed[..i + 1], from)
  {
    assert changed[..i + 1][..i] == changed[..i];
    PaintingKeepsRaw(rows, changed[..i]);
    var painted, line := Painted(rows, changed[..i]), changed[i];
    assert Trimmed(Halfway(rows, changed[..i], from), from) == Trimmed(painted, from);
    assert line.seqNo in painted ==> MergeLine(painted[line.seqNo], line) == line;
    assert Trimmed(painted[line.seqNo := line], from)
        == if line.seqNo >= from then Trimmed(painted, from)[line.seqNo := line] else Trimmed(painted, from);
  }

  /** Eviction after the rewrites, then one event for each rewritten row. */
  method RewriteEvents(was: Inner, rewritten: Inner, rows: seq<HostedRow>, changed: seq<Line>, commitEpoch: nat,
                       ghost appended: nat, ghost epoch: nat, ghost published: seq<Event>)
    returns (after: Inner, events: seq<Event>)
    requires was.Bounded(appended) && Replays(epoch, published, was)
    requires rows != [] && AllPresent(was.lines, rows)
    requires rewritten.lines == Rewritten(was.lines, rows, commitEpoch)
    requires changed == Changed(was.lines, rows, commitEpoch)
    requires rewritten.retainedBytes == Total(rewritten.lines, LineCost)
    requires rewritten == was.(lines := rewritten.lines, retainedBytes := rewritten.retainedBytes)
    ensures after.Bounded(appended) && Replays(epoch, published + events, after) && |events| == |rows|
    ensures after.lines == Kept(rewritten.lines, LineCost, CAPS)
    ensures after == was.(revision := was.revision + |rows|, lines := after.lines,
                          retainedBytes := after.retainedBytes, evictedLines := after.evictedLines)
  {
    hide Kept, Total, Rewritten, Changed, Folded, Painted, ByNumber, Chained, Replayed;
    after := Evict(rewritten);
    events := [];
    ghost var before, from := ByNumber(was.lines, was.nextSeq), after.RetainedFromSeq();
    RewritesPaint(was.lines, was.nextSeq, rows, commitEpoch);
    EvictedIsTrimmed(was.lines, rows, commitEpoch, after.lines, was.nextSeq);
    ghost var seen := was.Seen();
    assert published + [] == published;
    for i := 0 to |changed|
      invariant |events| == i && after == rewritten.(revision := was.revision + i, lines := after.lines,
                retainedBytes := after.retainedBytes, evictedLines := after.evictedLines)
      invariant after.lines == Kept(rewritten.lines, LineCost, CAPS) && after.RetainedFromSeq() == from
      invariant after.retainedBytes == Total(after.lines, LineCost)
      invariant |after.lines| + after.evictedLines == appended
      invariant Chained(Fresh(epoch).Seen(), published + events)
      invariant Replayed(Fresh(epoch).Seen(), published + events) == seen
      invariant seen.lines == Halfway(before, changed[..i], from)
      invariant seen.header == if i == 0 then was.Header() else after.Header()
    {
      var fromRevision := after.revision;
      after := after.(revision := after.revision + 1);
      var e := after.EventNow(fromRevision, false, Some(changed[i]));
      RewriteIsFolded(before, changed, i, from);
      ChainGrows(epoch, published + events, seen, e);
      assert published + events + [e] == published + (events + [e]);
      events, seen := events + [e], After(seen, e);
    }
    assert changed[..|changed|] == changed;
  }

  lemma ChainGrows(epoch: nat, published: seq<Event>, seen: View, e: Event)
    requires Chained(Fresh(epoch).Seen(), published) && Replayed(Fresh(epoch).Seen(), published) == seen
    requires Follows(seen, e)
    ensures Chained(Fresh(epoch).Seen(), published + [e])
    ensures Replayed(Fresh(epoch).Seen(), published + [e]) == After(seen, e)
  {
    assert (published + [e])[..|published|] == published;
  }

  /** What is left after the rewrites and the eviction, by number. */
  lemma EvictedIsTrimmed(lines: seq<Line>, rows: seq<HostedRow>, epoch: nat, kept: seq<Line>, next: nat)
    requires Consecutive(lines, next) && AllPresent(lines, rows)
    requires kept == Kept(Rewritten(lines, rows, epoch), LineCost, CAPS)
    ensures Consecutive(kept, next) && |kept| <= |lines| && Fits(kept, LineCost, CAPS)
    ensures (if kept == [] then next else kept[0].seqNo) == next - |kept|
    ensures ByNumber(kept, next) == Trimmed(ByNumber(Rewritten(lines, rows, epoch), next), next - |kept|)
    ensures forall k :: k in ByNumber(lines, next) ==> ByNumber(lines, next)[k].seqNo == k
  {
    var rewritten := Rewritten(lines, rows, epoch);
    hide Kept;
    KeptIsSuffix(rewritten, LineCost, CAPS);
    assert Consecutive(rewritten, next);
    SuffixByNumber(rewritten, kept, next);
  }

  // ---- what the rows say ----

  /** To the nearest millisecond; times that are not above zero count as zero, and the width of the field is kept. */
  lemma MillisAreNearest(value: real)
    ensures var millis := SecondsToMillis(value);
      && 0 <= millis <= U64_MAX && (value <= 0.0 ==> millis == 0)
      && (value > 0.0 && millis < U64_MAX ==> -0.5 < value * 1000.0 - millis as real < 0.5 ||
                                              millis as real - value * 1000.0 == 0.5)
      && (value > 0.0 && millis == U64_MAX ==> value * 1000.0 >= U64_MAX as real - 0.5)
  {}

  /** The bytes of text that the rows hold: speakers, raw texts and rewrites. */
  function Held(lines: seq<Line>): nat {
    if lines == [] then 0
    else
      var clean := match lines[0].cleanText case Some(text) => |text| case None => 0;
      |lines[0].speaker| + |lines[0].text| + clean + Held(lines[1..])
  }

  /** The caps count rows, and all their bytes with 64 more for each row. */
  lemma {:induction false} CapsCountBytes(lines: seq<Line>)
    ensures Total(lines, LineCost) == 64 * |lines| + Held(lines)
    ensures Fits(lines, LineCost, CAPS) <==> |lines| <= 2_000 && 64 * |lines| + Held(lines) <= 1_048_576
  {
    if lines != [] {
      CapsCountBytes(lines[1..]);
    }
  }

  /** How many of the segments have text. */
  function Spoken(segments: seq<Segment>): nat {
    if segments == [] then 0
    else Spoken(segments[..|segments| - 1]) + if segments[|segments| - 1].text == [] then 0 else 1
  }

  /** The row of a segment: number and identity, who spoke and what, both possibly shortened, and its times, which are
      finite, not negative and in order. Nothing of it is rewritten yet. */
  ghost predicate TellsOf(s: Segment, number: nat, line: Line) {
    && line.seqNo == number && line.rowId == LiveRow(number)
    && Shortens(s.text, 524_288, line.text)
    && (s.speaker.Me? ==> line.speaker == ME)
    && (s.speaker.Other? && s.speaker.name in {[], THEM} ==> line.speaker == THEM + [0x20, 0x31])
    && (s.speaker.Other? && s.speaker.name !in {[], THEM} ==> Shortens(s.speaker.name, MAX_SPEAKER_BYTES, line.speaker))
    && (if s.start.Finite? && s.start.value > 0.0 then line.start == s.start.value else line.start == 0.0)
    && (if s.end.Finite? && s.end.value > line.start then line.end == s.end.value else line.end == line.start)
    && line.cleanText.None? && line.rewriteState.Raw? && line.commitEpoch == 0
  }

  lemma MintTellsOf(s: Segment, number: nat)
    requires ValidText(s)
    ensures TellsOf(s, number, Mint(s, number))
  {
    CappedShortens(s.text, MAX_RETAINED_BYTES / 2);
    assert WellFormed(ME) by { assert ME[1..] == [0x65] && [0x65][1..] == []; }
    CappedShortens(if s.speaker.Me? then ME else s.speaker.name, MAX_SPEAKER_BYTES);
  }

  /** The rows minted from segments: one for each segment with text, in order and numbered without a gap. */
  lemma {:induction false} MintedTellOf(segments: seq<Segment>, number: nat, i: nat)
    requires (forall s :: s in segments ==> ValidText(s)) && i < |segments|
    ensures |Minted(segments, number)| == Spoken(segments)
    ensures var k := Spoken(segments[..i]);
      segments[i].text != [] ==>
        k < |Minted(segments, number)| && TellsOf(segments[i], number + k, Minted(segments, number)[k])
  {
    hide TellsOf, Mint, ValidText;
    var n := |segments| - 1;
    MintedCount(segments, number);
    MintedCount(segments[..n], number);
    if i < n {
      assert segments[..n][..i] == segments[..i];
      MintedTellOf(segments[..n], number, i);
    } else {
      MintTellsOf(segments[i], number + Spoken(segments[..i]));
    }
  }

  lemma {:induction false} MintedCount(segments: seq<Segment>, number: nat)
    ensures |Minted(segments, number)| == Spoken(segments)
  {
    if segments != [] {
      MintedCount(segments[..|segments| - 1], number);
    }
  }

  /** A request fits a row exactly if it is the envelope of that row, but for the text. */
  lemma MatchesItsEnvelope(line: Line, row: HostedRow)
    requires line.start <= line.end
    ensures Matches(line, row) <==> row.(text := line.text) == Envelope(line)
    ensures var e := Envelope(line);
      && e.rowId == line.rowId && e.speaker == line.speaker && e.text == line.text
      && e.startMs == SecondsToMillis(line.start) <= e.endMs == SecondsToMillis(line.end)
  {
    MillisAreMonotone(line.start, line.end);
  }

  /** Request `j` is the last one for this row. */
  predicate LastFor(line: Line, rows: seq<HostedRow>, j: nat) {
    j < |rows| && Matches(line, rows[j]) && forall k :: j < k < |rows| ==> !Matches(line, rows[k])
  }

  /** What an application makes of a row: the text of the last request for it becomes its clean text, under the epoch
      of the application; and a row without a request stays as it is. The raw row never changes. */
  ghost predicate RewrittenTo(line: Line, rows: seq<HostedRow>, epoch: nat, after: Line) {
    && SameRaw(line, after)
    && (forall j: nat :: LastFor(line, rows, j) ==>
          after.cleanText == Some(rows[j].text) && after.rewriteState.Clean? && after.commitEpoch == epoch)
    && ((forall j :: 0 <= j < |rows| ==> !Matches(line, rows[j])) ==> after == line)
  }

  lemma OneMoreRewrite(line: Line, rows: seq<HostedRow>, last: HostedRow, epoch: nat, before: Line)
    requires RewrittenTo(line, rows, epoch, before)
    ensures RewrittenTo(line, rows + [last], epoch, if Matches(line, last) then Cleaned(before, last, epoch) else before)
  {
    hide Matches;
    var all := rows + [last];
    assert all[|rows|] == last;
    assert forall k :: 0 <= k < |rows| ==> all[k] == rows[k];
    assert Matches(line, last) ==> !exists j: nat :: j < |rows| && LastFor(line, all, j);
    assert forall j: nat :: j < |rows| && LastFor(line, all, j) ==> LastFor(line, rows, j);
    if forall j :: 0 <= j < |all| ==> !Matches(line, all[j]) {
      assert forall j :: 0 <= j < |rows| ==> !Matches(line, all[j]);
    }
  }

  lemma NothingRewritten(line: Line, epoch: nat)
    ensures RewrittenTo(line, [], epoch, line)
  {}

  lemma OnlyPosition(lines: seq<Line>, next: nat, row: HostedRow, i: nat)
    requires Consecutive(lines, next) && i < |lines| && Position(lines, row).Some?
    ensures Matches(lines[i], row) <==> Position(lines, row) == Some(i)
  {
    var index := Position(lines, row).value;
    assert lines[i].rowId == LiveRow(next - |lines| + i) && lines[index].rowId == LiveRow(next - |lines| + index);
  }

  lemma {:induction false} RewritesAreExact(lines: seq<Line>, next: nat, rows: seq<HostedRow>, epoch: nat, i: nat)
    requires Consecutive(lines, next) && AllPresent(lines, rows) && i < |lines|
    ensures RewrittenTo(lines[i], rows, epoch, Rewritten(lines, rows, epoch)[i])
  {
    hide Consecutive, Matches, Cleaned, RewrittenTo, Position;
    if rows == [] {
      NothingRewritten(lines[i], epoch);
    } else {
      var n := |rows| - 1;
      assert rows[..n + 1] == rows && rows == rows[..n] + [rows[n]];
      RewrittenStep(lines, rows, n, epoch);
      RewritesAreExact(lines, next, rows[..n], epoch, i);
      OneMoreRewrite(lines[i], rows[..n], rows[n], epoch, Rewritten(lines, rows[..n], epoch)[i]);
      OnlyPosition(lines, next, rows[n], i);
    }
  }

  /** What is left of the rows after an application and the evictions that it makes necessary. */
  ghost predicate RewrittenRows(was: seq<Line>, rows: seq<HostedRow>, epoch: nat, now: seq<Line>) {
    |now| <= |was| &&
    forall i :: 0 <= i < |now| ==> RewrittenTo(was[|was| - |now| + i], rows, epoch, now[i])
  }

  lemma KeptAreRewritten(lines: seq<Line>, next: nat, rows: seq<HostedRow>, epoch: nat)
    requires Consecutive(lines, next) && AllPresent(lines, rows)
    ensures RewrittenRows(lines, rows, epoch, Kept(Rewritten(lines, rows, epoch), LineCost, CAPS))
  {
    hide Consecutive, AllPresent, Rewritten, RewrittenTo, Kept, Fits, LineCost;
    var rewritten := Rewritten(lines, rows, epoch);
    var now := Kept(rewritten, LineCost, CAPS);
    KeptIsSuffix(rewritten, LineCost, CAPS);
    forall i | 0 <= i < |now| ensures RewrittenTo(lines[|lines| - |now| + i], rows, epoch, now[i]) {
      RewritesAreExact(lines, next, rows, epoch, |lines| - |now| + i);
    }
  }

  // ---- what callers rely on ----

  /** The envelope minted with a row finds exactly that row for as long as it is retained, whatever the
      rewritten text and whatever was rewritten before. */
  lemma {:induction false} EnvelopeFindsItsRow(segment: Segment, number: nat, lines: seq<Line>, next: nat, index: nat,
                                               text: Text)
    requires Consecutive(lines, next) && index < |lines| && SameRaw(Mint(segment, number), lines[index])
    ensures Position(lines, Envelope(Mint(segment, number)).(text := text)) == Some(index)
  {
    var line := Mint(segment, number);
    var row := Envelope(line).(text := text);
    MillisAreMonotone(line.start, line.end);
    assert Matches(lines[index], row);
    forall i | 0 <= i < |lines| && Matches(lines[i], row) ensures i == index {
      assert lines[i].rowId == lines[index].rowId;
    }
    OnlyMatch(lines, row, index);
  }

  lemma MillisAreMonotone(a: real, b: real)
    requires a <= b
    ensures SecondsToMillis(a) <= SecondsToMillis(b)
  {
    if a > 0.0 {
      assert a * 1000.0 + 0.5 <= b * 1000.0 + 0.5;
    }
  }

  lemma OnlyMatch(lines: seq<Line>, row: HostedRow, index: nat)
    requires index < |lines| && Matches(lines[index], row)
    requires forall i :: 0 <= i < |lines| && Matches(lines[i], row) ==> i == index
    ensures Position(lines, row) == Some(index)
  {}

  /** Between two moments of one session, whatever was published in between, a row that is still retained
      kept its number, identity, speaker, times and raw text; a row that is gone was trimmed from the front. */
  lemma RetainedRowsKeepRawText(epoch: nat, published: seq<Event>, before: Inner, since: seq<Event>, after: Inner, k: nat)
    requires Replays(epoch, published, before) && Replays(epoch, published + since, after)
    requires before.sessionGeneration == after.sessionGeneration
    requires k in before.Seen().lines
    ensures if k in after.Seen().lines then SameRaw(before.Seen().lines[k], after.Seen().lines[k])
            else k < after.RetainedFromSeq()
  {
    var start, history := Fresh(epoch).Seen(), published + since;
    assert history[..|published|] == published && history[..|history|] == history;
    RowsKeepRaw(start, history, |published|, |history|, k);
  }

  // ---- the store and its windows ----

  lemma RevisionsMeet(epoch: nat, published: seq<Event>, inner: Inner)
    requires Replays(epoch, published, inner)
    ensures Tidy(Fresh(epoch).Seen()) && inner.revision == |published|
    ensures At(Fresh(epoch).Seen(), published, |published|) == inner.Seen()
  {
    assert published[..|published|] == published;
    ChainFacts(Fresh(epoch).Seen(), published, |published|);
  }

  /** From end to end: a window that listened from event `f` on, had seen the events up to `c` when its snapshot of
      revision `r` arrived, and then received anything that was published or fetched, in any order and any number of
      times. It equals some state of the store, and once it is at the store's revision it equals the store. */
  lemma WindowShowsTheStore(epoch: nat, published: seq<Event>, inner: Inner, f: nat, c: nat, r: nat, ds: seq<Delivery>)
    requires Replays(epoch, published, inner)
    requires f < c <= |published| && f <= r <= |published| && forall d :: d in ds ==> Known(published, d)
    ensures var begin := Fresh(epoch).Seen();
      var window := Received(TakeSnapshot(Listened(published, f, c), At(begin, published, r)), begin, published, ds);
      && window.header.revision <= inner.revision == |published|
      && window == At(begin, published, window.header.revision)
      && (window.header.revision == inner.revision ==> window == inner.Seen())
  {
    var begin := Fresh(epoch).Seen();
    RevisionsMeet(epoch, published, inner);
    SubscribeThenSnapshot(begin, published, f, c, r);
    UiIsAlwaysExact(begin, published, if r < c then c else r, ds);
  }

  /** A window at any of the store's states that then receives the rest of the events in order, with any overlap,
      equals the store. */
  lemma WindowCatchesUp(epoch: nat, published: seq<Event>, inner: Inner, u: nat, from: nat)
    requires Replays(epoch, published, inner) && from <= u <= |published|
    ensures Received(At(Fresh(epoch).Seen(), published, u), Fresh(epoch).Seen(), published,
                     seq(|published| - from, i requires 0 <= i => Delivered(from + i))) == inner.Seen()
  {
    RevisionsMeet(epoch, published, inner);
    ReplicaCatchesUp(Fresh(epoch).Seen(), published, u, from);
  }
}
