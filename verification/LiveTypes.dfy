/** What the live transcript store publishes: rows, headers and delta events. */
module LiveTypes {
  import opened Wrappers
  import opened Utf8

  datatype Mode = Idle | Call | Test

  datatype Status = StatusIdle | Loading | Listening | Stopping | Complete | StatusUnavailable | StatusError

  datatype RewriteState = Raw | Clean

  /** `live-row-<number>`, minted from the sequence number. */
  datatype RowId = LiveRow(number: nat)

  datatype Line = Line(
    seqNo: nat,
    rowId: RowId,
    speaker: Text,
    start: real,
    end: real,
    text: Text,
    cleanText: Option<Text>,
    rewriteState: RewriteState,
    commitEpoch: nat)

  /** Two versions of one row: everything but the rewrite is equal. */
  predicate SameRaw(a: Line, b: Line) {
    && a.seqNo == b.seqNo && a.rowId == b.rowId && a.speaker == b.speaker
    && a.start == b.start && a.end == b.end && a.text == b.text
  }

  /** The fields that a snapshot and an event have in common. */
  datatype Header = Header(
    processEpoch: nat,
    generation: nat,
    revision: nat,
    sessionId: Option<string>,
    mode: Mode,
    status: Status,
    title: string,
    detail: Option<string>,
    active: bool,
    evicted: nat,
    retainedFrom: nat)

  datatype Event = Event(header: Header, fromRevision: nat, reset: bool, line: Option<Line>)

  /** A transcript as seen by a reader: rows by sequence number (the window sorts them by time). */
  datatype View = View(header: Header, lines: map<nat, Line>)
}
