/** The filing checkpoint as a stored record: what `validate_and_reconcile` makes of it, and why storing and
    loading agree. Configuration values are JSON; serialising a value and reading it back gives the value. */
module CheckpointReconcile {
  import opened Wrappers
  import opened RecordingState
  import QualityActivity
  import QualityRecord
  import opened QualityProjection
  import opened QualityReading

  const VERSION: nat := 2
  const LEGACY_VERSION: nat := 1
  const SCHEMA_VERSION: nat := 2
  const MAX_FINAL_ATTEMPT_CALL_IDS: nat := 64

  datatype Value =
    | Text(text: string)
    | Flag(flag: bool)
    | Count(count: nat)
    | Quality(record: QualityRecord.Record)
    | Object(fields: map<Key, Value>)
    | Other(id: int)

  /** The keys that reconciliation reads or writes, at the top level and inside `aec`, and all others. */
  datatype Key =
    | OriginalBackend | QualityKey | QualityProjectionTruncated | QualityFullSpanCount | QualityStorage
    | SourceCompleteness | TextCompleteness | Aec
    | Outcome | ExecutionOutcome | FarReferenceKey | SuspectedSilentFarReference | ActivityUncertain | ObservationScope
    | OtherKey(name: string)

  type Fields = map<Key, Value>

  datatype Storage =
    | LegacyUnknown | InProgress | Finalizing | AudioUnverified | FrameCountMismatch | InterruptedPublication | AudioDurable

  /** Applied hosted post-processing: nothing recorded, or a record that is well formed or not. */
  datatype Applied = UnrecordedNone | Recorded(id: int, wellFormed: bool)
  {
    predicate Validates() { Recorded? ==> wellFormed }
  }

  datatype Provenance = Provenance(configuration: Fields, postprocess: Option<Applied>, schema: nat, rest: int)
  {
    /** `set_postprocess`, which refuses a record that does not validate. */
    function SetPostprocess(applied: Applied): Provenance {
      this.(schema := SCHEMA_VERSION, postprocess := if applied.UnrecordedNone? then None else Some(applied))
    }
  }

  /** `rest` is what reconciliation only copies: transcript, note, staging and evidence. */
  datatype FilingRecord = FilingRecord(
    version: nat,
    provenance: Provenance,
    applied: Applied,
    callIds: nat,
    quality: Option<QualityRecord.Record>,
    storage: Option<Storage>,
    origin: Option<Backend>,
    rest: int)

  /** The serialised size of a quality record. */
  type Size = QualityRecord.Record -> nat

  datatype Error =
    | InvalidOrigin | ConflictingOrigin | InvalidQuality | ConflictingQuality | InvalidStorage | ConflictingStorage
    | Projecting(error: ProjectionError) | InvalidPostprocess | TooManyCalls | ConflictingPostprocess
    | UnsupportedVersion | Oversized | NoFile | NotWritten

  // ---- JSON forms ----

  function BackendText(b: Backend): Value { Text(if b.Local? then "local" else "aws") }

  function ReadBackend(v: Value): Option<Backend> {
    if v == Text("local") then Some(Local) else if v == Text("aws") then Some(Aws) else None
  }

  function StorageText(s: Storage): Value {
    Text(match s
         case LegacyUnknown => "legacy_unknown"
         case InProgress => "in_progress"
         case Finalizing => "finalizing"
         case AudioUnverified => "audio_unverified"
         case FrameCountMismatch => "frame_count_mismatch"
         case InterruptedPublication => "interrupted_publication"
         case AudioDurable => "audio_durable")
  }

  function ReadStorage(v: Value): Option<Storage> {
    if v == Text("legacy_unknown") then Some(LegacyUnknown)
    else if v == Text("in_progress") then Some(InProgress)
    else if v == Text("finalizing") then Some(Finalizing)
    else if v == Text("audio_unverified") then Some(AudioUnverified)
    else if v == Text("frame_count_mismatch") then Some(FrameCountMismatch)
    else if v == Text("interrupted_publication") then Some(InterruptedPublication)
    else if v == Text("audio_durable") then Some(AudioDurable)
    else None
  }

  /** Each form is read as what it was written from, and nothing else is read at all. */
  lemma FormsRoundTrip(b: Backend, s: Storage)
    ensures ReadBackend(BackendText(b)) == Some(b)
    ensures ReadStorage(StorageText(s)) == Some(s)
  {
    match s
    case LegacyUnknown => assert "legacy_unknown"[0] == 'l';
    case InProgress => assert "in_progress"[2] == '_';
    case Finalizing => assert "finalizing"[1] == 'i';
    case AudioUnverified => assert "audio_unverified"[6] == 'u';
    case FrameCountMismatch => assert "frame_count_mismatch"[1] == 'r';
    case InterruptedPublication => assert "interrupted_publication"[2] == 't';
    case AudioDurable => assert "audio_durable"[6] == 'd';
  }

  lemma FormsAreExact(v: Value)
    ensures ReadBackend(v).Some? <==> exists b :: v == BackendText(b)
    ensures ReadBackend(v).Some? ==> v == BackendText(ReadBackend(v).value)
    ensures ReadStorage(v).Some? <==> exists s :: v == StorageText(s)
    ensures ReadStorage(v).Some? ==> v == StorageText(ReadStorage(v).value)
  {
    hide BackendText, StorageText, ReadBackend, ReadStorage;
    ReadIsWritten(v);
    forall b ensures ReadBackend(BackendText(b)) == Some(b) {
      FormsRoundTrip(b, LegacyUnknown);
    }
    forall s ensures ReadStorage(StorageText(s)) == Some(s) {
      FormsRoundTrip(Local, s);
    }
  }

  lemma ReadIsWritten(v: Value)
    ensures ReadBackend(v).Some? ==> v == BackendText(ReadBackend(v).value)
    ensures ReadStorage(v).Some? ==> v == StorageText(ReadStorage(v).value)
  {}

  function CompletenessText(c: Completeness): Value {
    Text(match c case Complete => "complete" case Incomplete => "incomplete" case Unknown => "unknown")
  }

  function Lookup(fields: Fields, key: Key): Option<Value> {
    if key in fields then Some(fields[key]) else None
  }

  function AsText(v: Option<Value>): Option<string> {
    if v.Some? && v.value.Text? then Some(v.value.text) else None
  }

  // ---- projections into the configuration ----

  /** `completeness_with_storage`. */
  function CompletenessWithStorage(c: Completeness, storage: Option<Storage>): Completeness {
    if c.Complete? && storage.Some? && !storage.value.AudioDurable? then Unknown else c
  }

  function Execution(aec: Fields): string {
    var stated := if ExecutionOutcome in aec then Lookup(aec, ExecutionOutcome) else Lookup(aec, Outcome);
    if AsText(stated).Some? then AsText(stated).value else "unknown"
  }

  function OutcomeOf(execution: string, reference: FarReference): string {
    if execution != "applied" then execution
    else match reference
         case UnknownReference => "applied_far_reference_unknown"
         case Present => "applied"
         case Intermittent => "applied_with_intermittent_far_reference"
         case AbsentReference => "no_far_reference"
  }

  function ReferenceLabel(reference: FarReference): string {
    match reference
    case UnknownReference => "unknown"
    case Present => "present"
    case Intermittent => "intermittent"
    case AbsentReference => "absent"
  }

  /** The echo activity of the scope that the canceller observed; none if it names no scope. */
  function EvidenceFor(aec: Fields, quality: QualityRecord.Record): QualityActivity.Evidence {
    match AsText(Lookup(aec, ObservationScope))
    case Some(scope) =>
      if scope == "capture" then quality.activity.capture
      else if scope == "offline" then quality.activity.offline
      else if scope == "live" then quality.activity.live
      else QualityActivity.NOTHING
    case None => QualityActivity.NOTHING
  }

  /** The remembered execution goes before the outcome, and what is not a text is unknown; the evidence is that of the
      one scope that is named. */
  lemma AecReads(aec: Fields, quality: QualityRecord.Record, word: string)
    ensures Lookup(aec, ExecutionOutcome) == Some(Text(word)) ==> Execution(aec) == word
    ensures ExecutionOutcome !in aec && Lookup(aec, Outcome) == Some(Text(word)) ==> Execution(aec) == word
    ensures Execution(aec) == word && word != "unknown" ==>
      Some(Text(word)) == (if ExecutionOutcome in aec then Lookup(aec, ExecutionOutcome) else Lookup(aec, Outcome))
    ensures var scope, evidence := Lookup(aec, ObservationScope), EvidenceFor(aec, quality);
      && (scope == Some(Text("capture")) ==> evidence == quality.activity.capture)
      && (scope == Some(Text("offline")) ==> evidence == quality.activity.offline)
      && (scope == Some(Text("live")) ==> evidence == quality.activity.live)
      && (scope !in {Some(Text("capture")), Some(Text("offline")), Some(Text("live"))} ==>
            evidence == QualityActivity.NOTHING)
  {
    assert "offline"[0] != "capture"[0] && "live"[0] != "capture"[0] && "live"[0] != "offline"[0];
  }

  /** `project_aec_activity`: the execution is remembered before the outcome is rewritten from the evidence. */
  function ProjectedAec(aec: Fields, quality: QualityRecord.Record): Fields {
    var evidence, execution := EvidenceFor(aec, quality), Execution(aec);
    var outcome := aec[Outcome := Text(OutcomeOf(execution, ReferenceOf(evidence)))];
    var remembered := if ExecutionOutcome in outcome then outcome else outcome[ExecutionOutcome := Text(execution)];
    remembered[FarReferenceKey := Text(ReferenceLabel(ReferenceOf(evidence)))]
              [SuspectedSilentFarReference := Flag(evidence.suspected)]
              [ActivityUncertain := Flag(UncertainOf(evidence))]
  }

  lemma AecProjectionIsIdempotent(aec: Fields, quality: QualityRecord.Record)
    ensures ProjectedAec(ProjectedAec(aec, quality), quality) == ProjectedAec(aec, quality)
  {
    AecKeepsTheExecution(aec, quality);
  }

  /** The execution that was recorded is never lost, whatever the evidence says. */
  lemma AecKeepsTheExecution(aec: Fields, quality: QualityRecord.Record)
    ensures var once := ProjectedAec(aec, quality);
      && Execution(once) == Execution(aec)
      && ExecutionOutcome in once && (ExecutionOutcome in aec ==> once[ExecutionOutcome] == aec[ExecutionOutcome])
  {}

  /** The first thing that `attach_quality` does. */
  function WithAec(configuration: Fields, quality: QualityRecord.Record): Fields {
    if Aec in configuration && configuration[Aec].Object?
    then configuration[Aec := Object(ProjectedAec(configuration[Aec].fields, quality))]
    else configuration
  }

  /** `attach_quality` on the configuration, for a record that has a projection. */
  function Attached(configuration: Fields, quality: QualityRecord.Record,
                    projection: QualityRecord.Record, storage: Option<Storage>): Fields
  {
    var shown := WithAec(configuration, quality)
                          [QualityKey := Quality(projection)]
                          [QualityProjectionTruncated := Flag(projection != quality)]
                          [QualityFullSpanCount := Count(|quality.spans|)]
                          [SourceCompleteness := CompletenessText(CompletenessWithStorage(SourceReading(quality), storage))]
                          [TextCompleteness := CompletenessText(CompletenessWithStorage(TextReading(quality), storage))];
    if storage.Some? then shown[QualityStorage := StorageText(storage.value)] else shown
  }

  /** What a note says of completeness: the reading, but nothing is called complete while it is known that the audio is
      not durable; a known loss stays one. */
  predicate SaysCompleteness(shown: Option<Value>, reading: Completeness, storage: Option<Storage>) {
    var doubt := storage.Some? && storage.value != AudioDurable;
    && (shown == Some(Text("complete")) <==> reading.Complete? && !doubt)
    && (shown == Some(Text("incomplete")) <==> reading.Incomplete?)
    && (shown == Some(Text("unknown")) <==> reading.Unknown? || (reading.Complete? && doubt))
  }

  lemma CompletenessSays(reading: Completeness, storage: Option<Storage>)
    ensures SaysCompleteness(Some(CompletenessText(CompletenessWithStorage(reading, storage))), reading, storage)
  {
    assert "complete"[0] != "incomplete"[0] && "complete"[0] != "unknown"[0] && "incomplete"[0] != "unknown"[0];
  }

  const QUALITY_KEYS: set<Key> :=
    {QualityKey, QualityProjectionTruncated, QualityFullSpanCount, QualityStorage, SourceCompleteness, TextCompleteness}

  /** What the configuration shows under each key afterwards. */
  lemma AttachedShows(configuration: Fields, quality: QualityRecord.Record, projection: QualityRecord.Record,
                      storage: Option<Storage>)
    ensures var after := Attached(configuration, quality, projection, storage);
      && SaysCompleteness(Lookup(after, SourceCompleteness), SourceReading(quality), storage)
      && SaysCompleteness(Lookup(after, TextCompleteness), TextReading(quality), storage)
      && Lookup(after, QualityKey) == Some(Quality(projection))
      && Lookup(after, QualityProjectionTruncated) == Some(Flag(projection != quality))
      && Lookup(after, QualityFullSpanCount) == Some(Count(|quality.spans|))
      && Lookup(after, QualityStorage) ==
           (if storage.Some? then Some(StorageText(storage.value)) else Lookup(configuration, QualityStorage))
      && (forall key :: key !in QUALITY_KEYS && key != Aec ==> Lookup(after, key) == Lookup(configuration, key))
  {
    CompletenessSays(SourceReading(quality), storage);
    CompletenessSays(TextReading(quality), storage);
    hide ProjectedAec, CompletenessText, CompletenessWithStorage, SaysCompleteness, SourceReading, TextReading;
  }

  const AEC_KEYS: set<Key> :=
    {Outcome, ExecutionOutcome, FarReferenceKey, SuspectedSilentFarReference, ActivityUncertain}

  /** What the note says about the echo canceller. The recorded execution stays; where the canceller was applied, the
      outcome adds what is known of the far reference, and where it was not, the outcome is the execution itself. */
  lemma AecShows(aec: Fields, quality: QualityRecord.Record)
    ensures var after, evidence := ProjectedAec(aec, quality), EvidenceFor(aec, quality);
      var applied, said := Execution(aec) == "applied", Lookup(after, Outcome);
      && (applied ==>
            match ReferenceOf(evidence)
            case Present => said == Some(Text("applied")) && Lookup(after, FarReferenceKey) == Some(Text("present"))
            case Intermittent =>
              said == Some(Text("applied_with_intermittent_far_reference")) &&
              Lookup(after, FarReferenceKey) == Some(Text("intermittent"))
            case AbsentReference =>
              said == Some(Text("no_far_reference")) && Lookup(after, FarReferenceKey) == Some(Text("absent"))
            case UnknownReference =>
              said == Some(Text("applied_far_reference_unknown")) &&
              Lookup(after, FarReferenceKey) == Some(Text("unknown")))
      && (!applied ==> said == Some(Text(Execution(aec))))
      && Lookup(after, SuspectedSilentFarReference) == Some(Flag(evidence.suspected))
      && Lookup(after, ActivityUncertain) == Some(Flag(UncertainOf(evidence)))
      && (ExecutionOutcome in aec ==> Lookup(after, ExecutionOutcome) == Lookup(aec, ExecutionOutcome))
      && (ExecutionOutcome !in aec ==> Lookup(after, ExecutionOutcome) == Some(Text(Execution(aec))))
      && (forall key :: key !in AEC_KEYS ==> Lookup(after, key) == Lookup(aec, key))
  {
    hide EvidenceFor, ReferenceOf, UncertainOf, Execution;
  }

  /** A note that says of its recording that there was no far reference rests on a complete traversal without
      contradiction that found nothing but silence. */
  lemma NoFarReferenceIsProved(aec: Fields, quality: QualityRecord.Record)
    requires quality.activity.Valid() && Execution(aec) == "applied"
    requires Lookup(ProjectedAec(aec, quality), Outcome) == Some(Text("no_far_reference"))
    ensures exists scope ::
      var e := quality.activity.Get(scope);
      !Conflicting(e) && !e.nonzero && e.complete.Some? && e.complete.value.allZero
  {
    var evidence := EvidenceFor(aec, quality);
    assert "no_far_reference"[0] == 'n' && ReferenceOf(evidence).AbsentReference?;
    assert exists scope :: evidence == quality.activity.Get(scope) by {
      assert evidence == quality.activity.Get(QualityActivity.CaptureScope) ||
             evidence == quality.activity.Get(QualityActivity.OfflineScope) ||
             evidence == quality.activity.Get(QualityActivity.LiveScope);
    }
    ReferenceIsProved(evidence);
  }

  lemma AttachIsIdempotent(configuration: Fields, quality: QualityRecord.Record,
                           projection: QualityRecord.Record, storage: Option<Storage>)
    ensures var once := Attached(configuration, quality, projection, storage);
      Attached(once, quality, projection, storage) == once
  {
    hide ProjectedAec;
    var once := Attached(configuration, quality, projection, storage);
    if Aec in configuration && configuration[Aec].Object? {
      AecProjectionIsIdempotent(configuration[Aec].fields, quality);
    }
    assert forall k :: k in once ==> k in Attached(once, quality, projection, storage);
  }

  // ---- reconciliation ----

  /** The first step: the original backend. */
  function WithOrigin(c: FilingRecord): Result<FilingRecord, Error> {
    if c.origin.None? then Ok(c)
    else
      var persisted := Lookup(c.provenance.configuration, OriginalBackend);
      if persisted.Some? && ReadBackend(persisted.value).None? then Err(InvalidOrigin)
      else if persisted.Some? && ReadBackend(persisted.value) != c.origin then Err(ConflictingOrigin)
      else Ok(c.(provenance := c.provenance.(
                   configuration := c.provenance.configuration[OriginalBackend := BackendText(c.origin.value)])))
  }

  /** The shown quality is the record itself, or its truncated projection with the full span count. */
  predicate ShowsQuality(configuration: Fields, shown: QualityRecord.Record, quality: QualityRecord.Record,
                         projection: QualityRecord.Record)
  {
    shown == quality ||
    (shown == projection
     && Lookup(configuration, QualityProjectionTruncated) == Some(Flag(true))
     && Lookup(configuration, QualityFullSpanCount) == Some(Count(|quality.spans|)))
  }

  predicate ReadsAsQuality(v: Value) {
    v.Quality? && QualityRecord.Valid(v.record)
  }

  /** The second step: quality and storage. */
  function WithQuality(size: Size, c: FilingRecord): Result<FilingRecord, Error> {
    if c.quality.None? then Ok(c)
    else
      var quality, configuration := c.quality.value, c.provenance.configuration;
      var projection := Projection(quality, size);
      var shown, stored := Lookup(configuration, QualityKey), Lookup(configuration, QualityStorage);
      if !QualityRecord.Valid(quality) then Err(Projecting(InvalidRecord))
      else if shown.Some? && !ReadsAsQuality(shown.value) then Err(InvalidQuality)
      else if shown.Some? && projection.Err? then Err(Projecting(projection.error))
      else if shown.Some? && !ShowsQuality(configuration, shown.value.record, quality, projection.value)
      then Err(ConflictingQuality)
      else if stored.Some? && ReadStorage(stored.value).None? then Err(InvalidStorage)
      else if stored.Some? && ReadStorage(stored.value) != c.storage then Err(ConflictingStorage)
      else if projection.Err? then Err(Projecting(projection.error))
      else Ok(c.(provenance := c.provenance.(
                   configuration := Attached(configuration, quality, projection.value, c.storage))))
  }

  /** The third step: hosted post-processing and the final calls. */
  function WithPostprocess(c: FilingRecord): Result<FilingRecord, Error> {
    var shown := c.provenance.postprocess;
    if !c.applied.Validates() || (shown.Some? && !shown.value.Validates()) then Err(InvalidPostprocess)
    else if c.callIds > MAX_FINAL_ATTEMPT_CALL_IDS then Err(TooManyCalls)
    else if shown.Some? && c.applied.UnrecordedNone? then Ok(c.(applied := shown.value))
    else if shown.Some? && shown.value != c.applied then Err(ConflictingPostprocess)
    else if shown.None? && !c.applied.UnrecordedNone? then Ok(c.(provenance := c.provenance.SetPostprocess(c.applied)))
    else Ok(c)
  }

  function Reconciled(size: Size, c: FilingRecord): Result<FilingRecord, Error> {
    var origin := WithOrigin(c);
    if origin.Err? then origin
    else
      var quality := WithQuality(size, origin.value);
      if quality.Err? then quality else WithPostprocess(quality.value)
  }

  // ---- what reconciliation promises ----

  /** What the configuration says under a key is absent, or is the wanted value as far as it can be read. */
  predicate Agrees<T(==)>(shown: Option<Value>, read: Value -> Option<T>, wanted: Option<T>) {
    shown.None? || (read(shown.value).Some? && read(shown.value) == wanted)
  }

  /** A checkpoint reconciles exactly if nothing in it contradicts its provenance: the origin, the storage and the
      quality, which may be shown in part; the quality is valid and fits a note at least without its spans; both
      post-processing records are well formed and, if both are there, equal; and there are not too many final calls. */
  lemma ReconcilesExactly(size: Size, c: FilingRecord)
    ensures var configuration, shown := c.provenance.configuration, c.provenance.postprocess;
      Reconciled(size, c).Ok? <==>
      && (c.origin.Some? ==> Agrees(Lookup(configuration, OriginalBackend), ReadBackend, c.origin))
      && (c.quality.Some? ==>
            && QualityRecord.Valid(c.quality.value) && Projection(c.quality.value, size).Ok?
            && Agrees(Lookup(configuration, QualityStorage), ReadStorage, c.storage)
            && (Lookup(configuration, QualityKey).Some? ==>
                  && ReadsAsQuality(configuration[QualityKey])
                  && ShowsQuality(configuration, configuration[QualityKey].record, c.quality.value,
                                  Projection(c.quality.value, size).value)))
      && c.applied.Validates() && (shown.Some? ==> shown.value.Validates()) && c.callIds <= 64
      && (shown.Some? && !c.applied.UnrecordedNone? ==> shown.value == c.applied)
  {
    hide Attached, QualityRecord.Valid, ReadBackend, ReadStorage, ReadsAsQuality, Projection;
    assert WithOrigin(c).Ok? <==> (c.origin.Some? ==>
      Agrees(Lookup(c.provenance.configuration, OriginalBackend), ReadBackend, c.origin));
    if WithOrigin(c).Ok? {
      var first := WithOrigin(c).value;
      assert forall key :: key in {QualityKey, QualityStorage, QualityProjectionTruncated, QualityFullSpanCount} ==>
        Lookup(first.provenance.configuration, key) == Lookup(c.provenance.configuration, key);
      QualityStepExactly(size, first);
      hide WithOrigin, WithQuality;
    }
  }

  /** A refusal names a defect that is there. */
  lemma RefusalNamesADefect(size: Size, c: FilingRecord)
    requires Reconciled(size, c).Err?
    ensures var configuration, applied := c.provenance.configuration, c.provenance.postprocess;
      var origin := Lookup(configuration, OriginalBackend);
      var quality, storage := Lookup(configuration, QualityKey), Lookup(configuration, QualityStorage);
      match Reconciled(size, c).error
      case InvalidOrigin => c.origin.Some? && origin.Some? && ReadBackend(origin.value).None?
      case ConflictingOrigin => c.origin.Some? && origin.Some? && ReadBackend(origin.value) !in {None, c.origin}
      case Projecting(e) =>
        && c.quality.Some? && Projection(c.quality.value, size) == Err(e)
        && (c.origin.Some? ==> Agrees(origin, ReadBackend, c.origin))
      case InvalidQuality => c.quality.Some? && quality.Some? && !ReadsAsQuality(quality.value)
      case ConflictingQuality =>
        && c.quality.Some? && quality.Some? && ReadsAsQuality(quality.value) && Projection(c.quality.value, size).Ok?
        && !ShowsQuality(configuration, quality.value.record, c.quality.value, Projection(c.quality.value, size).value)
      case InvalidStorage => c.quality.Some? && storage.Some? && ReadStorage(storage.value).None?
      case ConflictingStorage => c.quality.Some? && storage.Some? && ReadStorage(storage.value) !in {None, c.storage}
      case InvalidPostprocess => !c.applied.Validates() || (applied.Some? && !applied.value.Validates())
      case TooManyCalls => c.callIds > 64
      case ConflictingPostprocess => applied.Some? && c.applied.Recorded? && applied.value != c.applied
      case _ => false
  {
    hide Attached, QualityRecord.Valid, ReadStorage, ReadsAsQuality, Fit;
    if WithOrigin(c).Ok? {
      var first := WithOrigin(c).value;
      assert forall key :: key in {QualityKey, QualityStorage, QualityProjectionTruncated, QualityFullSpanCount} ==>
        Lookup(first.provenance.configuration, key) == Lookup(c.provenance.configuration, key);
    }
  }

  lemma QualityStepExactly(size: Size, c: FilingRecord)
    ensures var configuration := c.provenance.configuration;
      WithQuality(size, c).Ok? <==>
        (c.quality.Some? ==>
           && QualityRecord.Valid(c.quality.value) && Projection(c.quality.value, size).Ok?
           && Agrees(Lookup(configuration, QualityStorage), ReadStorage, c.storage)
           && (Lookup(configuration, QualityKey).Some? ==>
                 && ReadsAsQuality(configuration[QualityKey])
                 && ShowsQuality(configuration, configuration[QualityKey].record, c.quality.value,
                                 Projection(c.quality.value, size).value)))
    ensures WithQuality(size, c).Ok? ==>
      var r := WithQuality(size, c).value;
      r.provenance.postprocess == c.provenance.postprocess && r.applied == c.applied && r.callIds == c.callIds
  {
    hide Attached, QualityRecord.Valid, ReadStorage, ReadsAsQuality, Projection;
  }

  /** And this is its value: the two post-processing records are one, the configuration shows origin, quality and
      storage, and everything else stays. */
  lemma ReconciledShows(size: Size, c: FilingRecord)
    requires Reconciled(size, c).Ok?
    ensures var r := Reconciled(size, c).value;
      var configuration := r.provenance.configuration;
      && r == c.(provenance := r.provenance, applied := r.applied)
      && r.applied == (if c.provenance.postprocess.Some? then c.provenance.postprocess.value else c.applied)
      && r.provenance.postprocess == (if r.applied.UnrecordedNone? then c.provenance.postprocess else Some(r.applied))
      && r.provenance.rest == c.provenance.rest
      && r.provenance.schema ==
           (if c.provenance.postprocess.None? && c.applied.Recorded? then SCHEMA_VERSION else c.provenance.schema)
      && (c.origin.Some? ==> Lookup(configuration, OriginalBackend) == Some(BackendText(c.origin.value)))
      && (c.origin.None? ==>
            Lookup(configuration, OriginalBackend) == Lookup(c.provenance.configuration, OriginalBackend))
      && (c.quality.Some? ==>
            var projection := Projection(c.quality.value, size).value;
            && Lookup(configuration, QualityKey) == Some(Quality(projection))
            && Lookup(configuration, QualityProjectionTruncated) == Some(Flag(projection != c.quality.value))
            && SaysCompleteness(Lookup(configuration, SourceCompleteness), SourceReading(c.quality.value), c.storage)
            && SaysCompleteness(Lookup(configuration, TextCompleteness), TextReading(c.quality.value), c.storage))
      && (forall key :: key !in QUALITY_KEYS && key != Aec && key != OriginalBackend ==>
            Lookup(configuration, key) == Lookup(c.provenance.configuration, key))
  {
    var first := WithOrigin(c).value;
    var second := WithQuality(size, first).value;
    OriginShows(c);
    QualityShows(size, first);
    PostprocessShows(second);
    hide WithOrigin, WithQuality, WithPostprocess, SaysCompleteness, SourceReading, TextReading, Projection;
  }

  lemma OriginShows(c: FilingRecord)
    requires WithOrigin(c).Ok?
    ensures var r := WithOrigin(c).value;
      && r == c.(provenance := c.provenance.(configuration := r.provenance.configuration))
      && (c.origin.Some? ==> Lookup(r.provenance.configuration, OriginalBackend) == Some(BackendText(c.origin.value)))
      && (c.origin.None? ==> r == c)
      && (forall key :: key != OriginalBackend ==>
            Lookup(r.provenance.configuration, key) == Lookup(c.provenance.configuration, key))
  {}

  lemma QualityShows(size: Size, c: FilingRecord)
    requires WithQuality(size, c).Ok?
    ensures var r := WithQuality(size, c).value;
      var configuration := r.provenance.configuration;
      && r == c.(provenance := c.provenance.(configuration := configuration))
      && (c.quality.Some? ==>
            var projection := Projection(c.quality.value, size).value;
            && Lookup(configuration, QualityKey) == Some(Quality(projection))
            && Lookup(configuration, QualityProjectionTruncated) == Some(Flag(projection != c.quality.value))
            && SaysCompleteness(Lookup(configuration, SourceCompleteness), SourceReading(c.quality.value), c.storage)
            && SaysCompleteness(Lookup(configuration, TextCompleteness), TextReading(c.quality.value), c.storage))
      && (forall key :: key !in QUALITY_KEYS && key != Aec ==>
            Lookup(configuration, key) == Lookup(c.provenance.configuration, key))
  {
    if c.quality.Some? {
      AttachedShows(c.provenance.configuration, c.quality.value, Projection(c.quality.value, size).value, c.storage);
    }
    hide Attached, QualityRecord.Valid, ReadStorage, ShowsQuality, ReadsAsQuality, Projection;
    hide SaysCompleteness, SourceReading, TextReading;
  }

  lemma PostprocessShows(c: FilingRecord)
    requires WithPostprocess(c).Ok?
    ensures var r := WithPostprocess(c).value;
      && r == c.(provenance := r.provenance, applied := r.applied)
      && r.provenance.configuration == c.provenance.configuration && r.provenance.rest == c.provenance.rest
      && r.applied == (if c.provenance.postprocess.Some? then c.provenance.postprocess.value else c.applied)
      && r.provenance.postprocess == (if r.applied.UnrecordedNone? then c.provenance.postprocess else Some(r.applied))
      && r.provenance.schema ==
           (if c.provenance.postprocess.None? && c.applied.Recorded? then SCHEMA_VERSION else c.provenance.schema)
  {}

  lemma OriginIsSettled(c: FilingRecord)
    requires WithOrigin(c).Ok?
    ensures WithOrigin(WithOrigin(c).value) == WithOrigin(c)
  {
    if c.origin.Some? {
      FormsRoundTrip(c.origin.value, LegacyUnknown);
      var configuration, text := c.provenance.configuration, BackendText(c.origin.value);
      assert configuration[OriginalBackend := text][OriginalBackend := text] == configuration[OriginalBackend := text];
    }
  }

  lemma ProjectionReadsAsQuality(quality: QualityRecord.Record, n: nat, size: QualityRecord.Record -> nat)
    requires QualityRecord.Valid(quality) && n <= |quality.spans|
    ensures Fit(quality, n, size).Ok? ==> QualityRecord.Valid(Fit(quality, n, size).value)
  {
    ProjectionIsValid(quality, n);
    if n > 0 {
      ProjectionReadsAsQuality(quality, n - 1, size);
    }
  }

  /** The configuration keeps its origin, and its quality and storage read back as they were shown. */
  lemma AttachedReads(configuration: Fields, quality: QualityRecord.Record,
                      projection: QualityRecord.Record, storage: Option<Storage>)
    ensures var after := Attached(configuration, quality, projection, storage);
      && Lookup(after, OriginalBackend) == Lookup(configuration, OriginalBackend)
      && Lookup(after, QualityKey) == Some(Quality(projection))
      && ShowsQuality(after, projection, quality, projection)
      && Lookup(after, QualityStorage) ==
           (if storage.Some? then Some(StorageText(storage.value)) else Lookup(configuration, QualityStorage))
  {
    hide ProjectedAec;
  }

  lemma QualityIsSettled(size: Size, c: FilingRecord)
    requires WithQuality(size, c).Ok?
    ensures WithQuality(size, WithQuality(size, c).value) == WithQuality(size, c)
    ensures Lookup(WithQuality(size, c).value.provenance.configuration, OriginalBackend)
            == Lookup(c.provenance.configuration, OriginalBackend)
  {
    hide Attached, ShowsQuality, ReadStorage, StorageText, QualityRecord.Valid, Fit;
    if c.quality.Some? {
      var quality, configuration := c.quality.value, c.provenance.configuration;
      var projection := Projection(quality, size).value;
      ProjectionReadsAsQuality(quality, |quality.spans|, size);
      AttachedReads(configuration, quality, projection, c.storage);
      AttachIsIdempotent(configuration, quality, projection, c.storage);
      if c.storage.Some? {
        FormsRoundTrip(Local, c.storage.value);
      }
    }
  }

  /** What each step leaves alone; the last one is settled at once. */
  lemma StepFrames(size: Size, c: FilingRecord)
    ensures WithOrigin(c).Ok? ==> WithOrigin(c).value.version == c.version
    ensures WithQuality(size, c).Ok? ==>
      WithQuality(size, c).value.version == c.version && WithQuality(size, c).value.origin == c.origin
    ensures WithPostprocess(c).Ok? ==>
      var after := WithPostprocess(c).value;
      && WithPostprocess(after) == Ok(after) && after.version == c.version && after.origin == c.origin
      && after.quality == c.quality && after.storage == c.storage
      && after.provenance.configuration == c.provenance.configuration
  {
    hide Attached, ShowsQuality, Projection, ReadStorage, ReadBackend, QualityRecord.Valid;
  }

  /** A reconciled checkpoint reconciles to itself. */
  lemma ReconcileIsIdempotent(size: Size, c: FilingRecord)
    requires Reconciled(size, c).Ok?
    ensures Reconciled(size, Reconciled(size, c).value) == Reconciled(size, c)
    ensures Reconciled(size, c).value.version == c.version
  {
    var first := WithOrigin(c).value;
    var second := WithQuality(size, first).value;
    var third := WithPostprocess(second).value;
    OriginIsSettled(c);
    QualityIsSettled(size, first);
    StepFrames(size, c);
    StepFrames(size, first);
    StepFrames(size, second);
    OriginDependsOn(first, second);
    SameSteps(size, second, third);
    hide WithOrigin, WithQuality, WithPostprocess, Lookup;
  }

  /** The first two steps look only at the origin, the quality, the storage and the configuration. */
  lemma SameSteps(size: Size, a: FilingRecord, b: FilingRecord)
    requires a.origin == b.origin && a.quality == b.quality && a.storage == b.storage
    requires a.provenance.configuration == b.provenance.configuration
    ensures WithOrigin(a) == Ok(a) ==> WithOrigin(b) == Ok(b)
    ensures WithQuality(size, a) == Ok(a) ==> WithQuality(size, b) == Ok(b)
  {
    hide Attached, ShowsQuality, Projection, ReadStorage, ReadBackend, QualityRecord.Valid;
    if WithQuality(size, a) == Ok(a) && a.quality.Some? {
      var quality, configuration := a.quality.value, a.provenance.configuration;
      var projection := Projection(quality, size).value;
      assert Attached(configuration, quality, projection, a.storage) == configuration;
    }
  }

  lemma OriginDependsOn(a: FilingRecord, b: FilingRecord)
    requires WithOrigin(a) == Ok(a) && a.origin == b.origin
    requires Lookup(a.provenance.configuration, OriginalBackend) == Lookup(b.provenance.configuration, OriginalBackend)
    ensures WithOrigin(b) == Ok(b)
  {
    if a.origin.Some? {
      var text := BackendText(a.origin.value);
      assert a.provenance.configuration[OriginalBackend := text] == a.provenance.configuration;
      assert a.provenance.configuration[OriginalBackend] == text;
      assert OriginalBackend in b.provenance.configuration;
      assert b.provenance.configuration[OriginalBackend := text] == b.provenance.configuration;
    }
  }

  // ---- storing and loading ----

  function Loaded(size: Size, contents: Option<FilingRecord>): Result<FilingRecord, Error> {
    if contents.None? then Err(NoFile)
    else if contents.value.version != LEGACY_VERSION && contents.value.version != VERSION then Err(UnsupportedVersion)
    else
      var reconciled := Reconciled(size, contents.value);
      if reconciled.Err? then reconciled else Ok(reconciled.value.(version := VERSION))
  }

  /** Nothing but the version number depends on the version. */
  lemma ReconcileIgnoresTheVersion(size: Size, c: FilingRecord, version: nat)
    ensures var other := Reconciled(size, c.(version := version));
      if Reconciled(size, c).Ok? then other == Ok(Reconciled(size, c).value.(version := version))
      else other == Reconciled(size, c)
  {
    hide Attached, ShowsQuality, Projection, ReadStorage, ReadBackend, QualityRecord.Valid;
  }

  /** Every checkpoint that validates is stored as its reconciled value at version 2, and loading that file
      returns exactly this value. */
  lemma StoreThenLoad(size: Size, c: FilingRecord)
    requires Reconciled(size, c.(version := VERSION)).Ok?
    ensures var stored := Reconciled(size, c.(version := VERSION)).value;
      stored.version == VERSION && Loaded(size, Some(stored)) == Ok(stored)
  {
    hide Reconciled;
    ReconcileIsIdempotent(size, c.(version := VERSION));
  }

  /** A file of either version loads as one fixed value: storing what was loaded and loading it again, from the
      first version on, changes nothing. */
  lemma LoadIsStable(size: Size, file: FilingRecord)
    requires Loaded(size, Some(file)).Ok?
    ensures var loaded := Loaded(size, Some(file)).value;
      && loaded.version == VERSION
      && Reconciled(size, loaded) == Ok(loaded)
      && Loaded(size, Some(loaded)) == Ok(loaded)
  {
    hide Reconciled;
    ReconcileIgnoresTheVersion(size, file, VERSION);
    ReconcileIsIdempotent(size, file.(version := VERSION));
  }

  /** `set_provenance`: the checkpoint's own post-processing record follows the provenance, or fills it. */
  function SetProvenance(c: FilingRecord, provenance: Provenance): FilingRecord
    requires provenance.postprocess.None? ==> c.applied.Validates()
  {
    if provenance.postprocess.Some? then c.(applied := provenance.postprocess.value, provenance := provenance)
    else if !c.applied.UnrecordedNone? then c.(provenance := provenance.SetPostprocess(c.applied))
    else c.(provenance := provenance)
  }

  /** The provenance is taken as it is, only that a record which it lacks is filled in, and what is recorded afterwards
      is what it brings, or else what there was. The two records agree, so reconciliation never reports a conflict
      between them and changes neither. */
  lemma SetProvenanceAgrees(size: Size, c: FilingRecord, provenance: Provenance)
    requires provenance.postprocess.None? ==> c.applied.Validates()
    ensures var after := SetProvenance(c, provenance);
      && after.provenance == (if provenance.postprocess.Some? || c.applied.UnrecordedNone? then provenance
                              else provenance.(schema := SCHEMA_VERSION, postprocess := Some(c.applied)))
      && after.applied == (if provenance.postprocess.Some? then provenance.postprocess.value else c.applied)
      && Reconciled(size, after) != Err(ConflictingPostprocess)
      && (Reconciled(size, after).Ok? ==>
            Reconciled(size, after).value.applied == after.applied &&
            Reconciled(size, after).value.provenance.postprocess == after.provenance.postprocess)
  {
    hide Attached, ShowsQuality, Projection, ReadStorage, ReadBackend, QualityRecord.Valid;
  }

  /** A step in place did what the specification says: its value, or its error and what it leaves behind. */
  predicate Achieves(wanted: Result<FilingRecord, Error>, left: FilingRecord,
                     r: Result<(), Error>, record: FilingRecord)
  {
    if wanted.Ok? then r.Ok? && record == wanted.value else r.Err? && r.error == wanted.error && record == left
  }

  /** The record after a refused second step. It is untouched, except that a quality whose epochs exceed the budget
      is only found out after the echo activity was projected. */
  function LeftByQuality(size: Size, c: FilingRecord): FilingRecord {
    if WithQuality(size, c).Ok? || c.quality.None? then c
    else
      var quality, configuration := c.quality.value, c.provenance.configuration;
      var stored := Lookup(configuration, QualityStorage);
      if QualityRecord.Valid(quality) && Projection(quality, size).Err? && QualityKey !in configuration &&
         (stored.None? || (ReadStorage(stored.value).Some? && ReadStorage(stored.value) == c.storage))
      then c.(provenance := c.provenance.(configuration := WithAec(configuration, quality)))
      else c
  }

  /** The record after a refused reconciliation: the steps that succeeded stay. */
  function LeftBehind(size: Size, c: FilingRecord): FilingRecord {
    var origin := WithOrigin(c);
    if origin.Err? then c
    else
      var quality := WithQuality(size, origin.value);
      if quality.Err? then LeftByQuality(size, origin.value) else quality.value
  }

  /** What a refusal leaves behind differs from the record at most in its configuration. */
  lemma RefusalTouchesTheConfiguration(size: Size, c: FilingRecord)
    ensures LeftBehind(size, c) ==
      c.(provenance := c.provenance.(configuration := LeftBehind(size, c).provenance.configuration))
  {
    hide Attached, WithAec, ShowsQuality, Projection, ReadStorage, ReadBackend, QualityRecord.Valid;
  }

  /** A checkpoint in memory, reconciled in place. */
  class FilingCheckpoint {
    var record: FilingRecord

    constructor (record: FilingRecord)
      ensures this.record == record
    {
      this.record := record;
    }

    method ValidateAndReconcile(size: Size) returns (r: Result<(), Error>)
      modifies this
      ensures Achieves(Reconciled(size, old(record)), LeftBehind(size, old(record)), r, record)
    {
      hide Attached, ShowsQuality, QualityRecord.Valid, Fit;
      r := ReconcileOrigin();
      if r.Err? {
        return;
      }
      r := ReconcileQuality(size);
      if r.Err? {
        return;
      }
      var shown := record.provenance.postprocess;
      if !record.applied.Validates() || (shown.Some? && !shown.value.Validates()) {
        return Err(InvalidPostprocess);
      }
      if record.callIds > MAX_FINAL_ATTEMPT_CALL_IDS {
        return Err(TooManyCalls);
      }
      if shown.Some? {
        if record.applied.UnrecordedNone? {
          record := record.(applied := shown.value);
        } else if shown.value != record.applied {
          return Err(ConflictingPostprocess);
        }
      } else if !record.applied.UnrecordedNone? {
        record := record.(provenance := record.provenance.SetPostprocess(record.applied));
      }
      return Ok(());
    }

    method ReconcileOrigin() returns (r: Result<(), Error>)
      modifies this
      ensures Achieves(WithOrigin(old(record)), old(record), r, record)
    {
      if record.origin.None? {
        return Ok(());
      }
      var configuration := record.provenance.configuration;
      if OriginalBackend in configuration {
        var persisted := ReadBackend(configuration[OriginalBackend]);
        if persisted.None? {
          return Err(InvalidOrigin);
        }
        if persisted != record.origin {
          return Err(ConflictingOrigin);
        }
      }
      configuration := configuration[OriginalBackend := BackendText(record.origin.value)];
      record := record.(provenance := record.provenance.(configuration := configuration));
      return Ok(());
    }

    method ReconcileQuality(size: Size) returns (r: Result<(), Error>)
      modifies this
      ensures Achieves(WithQuality(size, old(record)), LeftByQuality(size, old(record)), r, record)
    {
      if record.quality.None? {
        return Ok(());
      }
      var quality, configuration := record.quality.value, record.provenance.configuration;
      if !QualityRecord.Valid(quality) {
        return Err(Projecting(InvalidRecord));
      }
      var projection := QualityFrontmatterProjection(quality, size);
      if QualityKey in configuration {
        if !ReadsAsQuality(configuration[QualityKey]) {
          return Err(InvalidQuality);
        }
        if projection.Err? {
          return Err(Projecting(projection.error));
        }
        if !ShowsQuality(configuration, configuration[QualityKey].record, quality, projection.value) {
          return Err(ConflictingQuality);
        }
      }
      if QualityStorage in configuration {
        var persisted := ReadStorage(configuration[QualityStorage]);
        if persisted.None? {
          return Err(InvalidStorage);
        }
        if persisted != record.storage {
          return Err(ConflictingStorage);
        }
      }
      if projection.Err? {
        record := record.(provenance := record.provenance.(
                            configuration := WithAec(configuration, quality)));
        return Err(Projecting(projection.error));
      }
      record := record.(provenance := record.provenance.(
                          configuration := Attached(configuration, quality, projection.value, record.storage)));
      return Ok(());
    }
  }

  /** The file beside the audio. A replacement is atomic: the old value or the new one, never anything else. */
  class CheckpointFile {
    var contents: Option<FilingRecord>

    /** How often a write failed. */
    ghost var trouble: nat

    /** A checkpoint that contradicts itself, or that is too big, is refused and nothing is written. Any other is written
        in its reconciled form, and success reported exactly if the write does not fail. */
    method Store(c: FilingRecord, size: Size, fits: FilingRecord -> bool) returns (r: Result<(), Error>)
      modifies this
      ensures var wanted := Reconciled(size, c.(version := VERSION));
        && (wanted.Err? ==> r == Err(wanted.error) && contents == old(contents))
        && (wanted.Ok? && !fits(wanted.value) ==> r == Err(Oversized) && contents == old(contents))
        && (wanted.Ok? && fits(wanted.value) ==>
              && contents in {old(contents), Some(wanted.value)}
              && r == (if trouble == old(trouble) then Ok(()) else Err(NotWritten)))
        && (r.Ok? ==> contents == Some(wanted.value) && Loaded(size, contents) == Ok(wanted.value))
      ensures trouble in {old(trouble), old(trouble) + 1}
    {
      hide Reconciled;
      var current := new FilingCheckpoint(c.(version := VERSION));
      r := current.ValidateAndReconcile(size);
      if r.Err? {
        return;
      }
      StoreThenLoad(size, c);
      if !fits(current.record) {
        return Err(Oversized);
      }
      var published := AtomicWrite(current.record);
      return if published then Ok(()) else Err(NotWritten);
    }

    /** A failed write may have replaced the file all the same. */
    method AtomicWrite(record: FilingRecord) returns (ok: bool)
      modifies this
      ensures contents in {old(contents), Some(record)} && (ok ==> contents == Some(record))
      ensures trouble == old(trouble) + if ok then 0 else 1
    {
      var replaced: bool := *;
      ok := *;
      if ok || replaced {
        contents := Some(record);
      }
      trouble := trouble + if ok then 0 else 1;
    }

    method Load(size: Size) returns (r: Result<FilingRecord, Error>)
      ensures r == Loaded(size, contents)
    {
      hide Reconciled;
      if contents.None? {
        return Err(NoFile);
      }
      if contents.value.version != LEGACY_VERSION && contents.value.version != VERSION {
        return Err(UnsupportedVersion);
      }
      var checkpoint := new FilingCheckpoint(contents.value);
      var reconciled := checkpoint.ValidateAndReconcile(size);
      if reconciled.Err? {
        return Err(reconciled.error);
      }
      return Ok(checkpoint.record.(version := VERSION));
    }
  }
}
