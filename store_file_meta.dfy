/**
 * What opening a store file derives from the file's metadata map and its name: the
 * sequence id, the compaction flags, which Bloom filter blocks to load and the time
 * range, together with the partial state that an open failing half-way leaves behind.
 *
 * Metadata keys are byte strings written with `Bytes.toBytes(String)`; since that encoding
 * is injective on the ASCII names used here, a key is modelled by its name.
 */
module StoreFileMeta {
  import opened Wrappers
  import opened Bytes
  import opened JavaStrings

  type Metadata = map<string, seq<Byte>>

  const MAX_SEQ_ID_KEY: string := "MAX_SEQ_ID_KEY"
  const MAJOR_COMPACTION_KEY: string := "MAJOR_COMPACTION_KEY"
  const EXCLUDE_FROM_MINOR_COMPACTION_KEY: string := "EXCLUDE_FROM_MINOR_COMPACTION"
  const TIMERANGE_KEY: string := "TIMERANGE"
  const BULKLOAD_TIME_KEY: string := "BULKLOAD_TIMESTAMP"
  const SKIP_RESET_SEQ_ID: string := "SKIP_RESET_SEQ_ID"
  /** Defined by the HFile writer, which is not part of this model. */
  const MAX_MEMSTORE_TS_KEY: string := "MAX_MEMSTORE_TS_KEY"

  /** Bulk-loaded files are named `<randomName>_SeqId_<id-when-loaded>_`. */
  const SEQ_ID_MARKER: string := "SeqId_"

  datatype BloomType = NONE | ROW | ROWCOL
  datatype BlockType = GENERAL_BLOOM_META | DELETE_FAMILY_BLOOM_META

  datatype TimeRange = TimeRange(min: Long, max: Long)

  /**
   * What `TimeRangeTracker.getTimeRange` does with the TIMERANGE entry (its code is not
   * part of this model): yields a range or null, throws IllegalArgumentException, or
   * throws anything else.
   */
  datatype TimeRangeDecoding = Decoded(range: Option<TimeRange>) | IllegalArgument | OtherFailure

  /** Key cells and the comparator a reader reports; the cell encoding is opaque here. */
  type Cell = seq<Byte>
  type Comparator = string
  datatype KeySnapshot = KeySnapshot(firstKey: Option<Cell>, lastKey: Option<Cell>, comparator: Comparator)

  /** The calls the handle makes on its reader, in order; bloom and flag effects live in the reader. */
  datatype ReaderEvent =
    | SetSkipResetSeqId(skip: bool)
    | SetBulkLoaded(bulkLoaded: bool)
    | SetSequenceID(id: Long)
    | LoadBloomFilter(block: BlockType)
    | Closed(evictOnClose: bool)

  /** Why an open fails, one case per exception the open path can raise. */
  datatype OpenError =
    | AlreadyOpen                                  // IllegalAccessError("Already open")
    | ReaderOpenFailed                             // IOException from opening the backing file
    | FileInfoLoadFailed                           // IOException from loading the file info
    | WrongValueLength(key: string, length: nat)   // IllegalArgumentException from a Bytes decoder
    | FileNameError(cause: StringError)            // substring or Long.parseLong on the file name
    | TimeRangeUnreadable                          // a time-range failure other than IllegalArgumentException

  /** What the backing store file offers once opened; `fileInfo` is None when loading it throws. */
  datatype ReaderSource = ReaderSource(
    fileInfo: Option<Metadata>,
    bloomType: BloomType,
    firstKey: Option<Cell>,
    lastKey: Option<Cell>,
    comparator: Comparator)

  /** The outcome of asking the file system for a reader on the file. */
  datatype BackingOpen = OpenFailed | Opened(source: ReaderSource)

  /** The fields of the handle that opening a reader assigns. */
  datatype Derived = Derived(
    metadata: Option<Metadata>,
    seqId: Long,
    maxMemstoreTS: Long,
    majorCompaction: Option<bool>,
    excludeFromMinor: bool,
    keys: Option<KeySnapshot>)

  /** The handle's fields before any open: no metadata, ids -1, major-compaction flag unset. */
  const Initial: Derived := Derived(None, -1, -1, None, false, None)

  /**
   * The result of one attempt to open: whether a reader was created, the handle's fields
   * afterwards, the calls made on the reader, the time range given to it, and the error.
   */
  datatype OpenOutcome = OpenOutcome(
    readerCreated: bool,
    state: Derived,
    events: seq<ReaderEvent>,
    timeRange: Option<TimeRange>,
    error: Option<OpenError>)

  function Lookup(meta: Metadata, key: string): (r: Option<seq<Byte>>)
    ensures r.Some? <==> key in meta
    ensures r.Some? ==> r.value == meta[key]
  {
    if key in meta then Some(meta[key]) else None
  }

  function DecodeLong(key: string, v: seq<Byte>): (r: Result<Long, OpenError>)
    ensures r.Failure? <==> |v| < 8
    ensures r.Failure? ==> r.error == WrongValueLength(key, |v|)
  {
    match ToLong(v)
    case Some(x) => Success(x)
    case None => Failure(WrongValueLength(key, |v|))
  }

  function DecodeBoolean(key: string, v: seq<Byte>): (r: Result<bool, OpenError>)
    ensures r.Failure? <==> |v| != 1
  {
    match ToBoolean(v)
    case Some(b) => Success(b)
    case None => Failure(WrongValueLength(key, |v|))
  }

  /**
   * The column-family bloom type the handle keeps: the configured one, or NONE when general
   * Bloom filters are disabled in the configuration.
   */
  function EffectiveBloomType(configured: BloomType, generalBloomEnabled: bool): (r: BloomType)
    ensures r == NONE <==> !generalBloomEnabled || configured == NONE
    ensures r != NONE ==> r == configured
  {
    if generalBloomEnabled then configured else NONE
  }

  /**
   * The Bloom blocks an open loads, in order. The general block depends only on the
   * column-family type; the delete-family block is always loaded last.
   */
  function BloomBlocksToLoad(cfBloomType: BloomType): (r: seq<BlockType>)
    ensures GENERAL_BLOOM_META in r <==> cfBloomType != NONE
    ensures |r| > 0 && r[|r| - 1] == DELETE_FAMILY_BLOOM_META
    ensures forall i :: 0 <= i < |r| - 1 ==> r[i] == GENERAL_BLOOM_META
    ensures |r| == if cfBloomType != NONE then 2 else 1
  {
    (if cfBloomType != NONE then [GENERAL_BLOOM_META] else []) + [DELETE_FAMILY_BLOOM_META]
  }

  function BloomLoadEvents(cfBloomType: BloomType): (r: seq<ReaderEvent>)
    ensures |r| == |BloomBlocksToLoad(cfBloomType)|
    ensures forall i :: 0 <= i < |r| ==> r[i] == LoadBloomFilter(BloomBlocksToLoad(cfBloomType)[i])
  {
    var blocks := BloomBlocksToLoad(cfBloomType);
    seq(|blocks|, i requires 0 <= i < |blocks| => LoadBloomFilter(blocks[i]))
  }

  /** SKIP_RESET_SEQ_ID counts only when present, exactly one byte long, and true. */
  function IsSkipResetSeqId(v: Option<seq<Byte>>): (r: bool)
    ensures r <==> v.Some? && |v.value| == 1 && v.value[0] != 0
  {
    if v.Some? && |v.value| == 1 then ToBoolean(v.value) == Some(true) else false
  }

  /**
   * A file is a bulk-load result when its name contains the marker, or when its metadata
   * has been loaded and carries a bulk-load timestamp.
   */
  function IsBulkLoadResult(name: string, meta: Option<Metadata>): (r: bool)
    ensures r <==> Contains(name, SEQ_ID_MARKER) || (meta.Some? && BULKLOAD_TIME_KEY in meta.value)
  {
    var startPos := IndexOf(name, SEQ_ID_MARKER, 0);
    startPos != -1 || (meta.Some? && BULKLOAD_TIME_KEY in meta.value)
  }

  /**
   * The sequence id a bulk-loaded file's name carries: the text between the last marker
   * and the next '_', parsed as a long. None when the name has no marker.
   */
  function SeqIdFromFileName(name: string): (r: Result<Option<Long>, OpenError>)
    ensures r == Success(None) <==> !Contains(name, SEQ_ID_MARKER)
    ensures r.Failure? ==> r.error.FileNameError?
  {
    var startPos := LastIndexOf(name, SEQ_ID_MARKER);
    if startPos == -1 then Success(None)
    else
      // HStoreFile skips the marker by its length, 6
      var begin := startPos + 6;
      match Substring(name, begin, IndexOf(name, "_", begin))
      case Failure(e) => Failure(FileNameError(e))
      case Success(digits) =>
        match ParseLong(digits)
        case Failure(e) => Failure(FileNameError(e))
        case Success(v) => Success(Some(v))
  }

  /** Top halves of a split file take the next sequence id, so the halves stay distinct. */
  function AdjustForTopHalf(s: Long, isTopReference: bool): (r: Long)
    ensures !isTopReference ==> r == s
    ensures isTopReference && s < LONG_MAX ==> r == s + 1
    ensures isTopReference && s == LONG_MAX ==> r == LONG_MIN
  {
    if isTopReference then Inc(s) else s
  }

  /** The id from MAX_SEQ_ID_KEY, or the prior value when the key is absent. */
  function SeqIdFromMetadata(meta: Metadata, isTopReference: bool, prior: Long): (r: Result<Long, OpenError>)
    ensures MAX_SEQ_ID_KEY !in meta ==> r == Success(prior)
    ensures r.Failure? <==> MAX_SEQ_ID_KEY in meta && |meta[MAX_SEQ_ID_KEY]| < 8
  {
    if MAX_SEQ_ID_KEY !in meta then Success(prior)
    else
      var v :- DecodeLong(MAX_SEQ_ID_KEY, meta[MAX_SEQ_ID_KEY]);
      Success(AdjustForTopHalf(v, isTopReference))
  }

  /** The bulk-load path: the file name's id replaces `current`, then the skip-reset increment. */
  function BulkLoadSeqId(meta: Metadata, name: string, isTopReference: bool, current: Long): (r: Result<Long, OpenError>)
    ensures r.Failure? <==> SeqIdFromFileName(name).Failure?
  {
    var fromName :- SeqIdFromFileName(name);
    var s := if fromName.Some? then AdjustForTopHalf(fromName.value, isTopReference) else current;
    Success(if IsSkipResetSeqId(Lookup(meta, SKIP_RESET_SEQ_ID)) then Inc(s) else s)
  }

  /** The sequence id a successful open leaves on the handle, starting from `prior`. */
  function DeriveSeqId(meta: Metadata, name: string, isTopReference: bool, prior: Long): (r: Result<Long, OpenError>)
    ensures r.Failure? <==> SeqIdFromMetadata(meta, isTopReference, prior).Failure?
                            || (IsBulkLoadResult(name, Some(meta)) && SeqIdFromFileName(name).Failure?)
    ensures !IsBulkLoadResult(name, Some(meta)) ==> r == SeqIdFromMetadata(meta, isTopReference, prior)
  {
    var s :- SeqIdFromMetadata(meta, isTopReference, prior);
    if IsBulkLoadResult(name, Some(meta)) then BulkLoadSeqId(meta, name, isTopReference, s)
    else Success(s)
  }

  /** The calls made on the reader once the sequence id is known. */
  function SequenceIdEvents(meta: Metadata, bulkLoaded: bool, seqId: Long): (r: seq<ReaderEvent>)
    ensures |r| == if bulkLoaded then 3 else 1
    ensures r[|r| - 1] == SetSequenceID(seqId)
    ensures SetBulkLoaded(true) in r <==> bulkLoaded
    ensures bulkLoaded ==> r[..2] == [SetSkipResetSeqId(IsSkipResetSeqId(Lookup(meta, SKIP_RESET_SEQ_ID))), SetBulkLoaded(true)]
  {
    (if bulkLoaded then [SetSkipResetSeqId(IsSkipResetSeqId(Lookup(meta, SKIP_RESET_SEQ_ID))), SetBulkLoaded(true)]
     else [])
    + [SetSequenceID(seqId)]
  }

  /** The largest memstore timestamp: the stored long, or the prior value when the key is absent. */
  function MaxMemstoreTs(meta: Metadata, prior: Long): (r: Result<Long, OpenError>)
    ensures MAX_MEMSTORE_TS_KEY !in meta ==> r == Success(prior)
    ensures r.Failure? <==> MAX_MEMSTORE_TS_KEY in meta && |meta[MAX_MEMSTORE_TS_KEY]| < 8
    ensures MAX_MEMSTORE_TS_KEY in meta && r.Success? ==> ToLong(meta[MAX_MEMSTORE_TS_KEY]) == Some(r.value)
  {
    if MAX_MEMSTORE_TS_KEY !in meta then Success(prior)
    else DecodeLong(MAX_MEMSTORE_TS_KEY, meta[MAX_MEMSTORE_TS_KEY])
  }

  /** The major-compaction flag: the stored boolean, or false when the key is absent. */
  function MajorCompactionFlag(meta: Metadata): (r: Result<bool, OpenError>)
    ensures r == Success(true) <==> MAJOR_COMPACTION_KEY in meta && ToBoolean(meta[MAJOR_COMPACTION_KEY]) == Some(true)
    ensures r.Failure? <==> MAJOR_COMPACTION_KEY in meta && |meta[MAJOR_COMPACTION_KEY]| != 1
  {
    if MAJOR_COMPACTION_KEY in meta then DecodeBoolean(MAJOR_COMPACTION_KEY, meta[MAJOR_COMPACTION_KEY])
    else Success(false)
  }

  /** Excluded from minor compactions only when the key is present and true. */
  function ExcludeFromMinorFlag(meta: Metadata): (r: Result<bool, OpenError>)
    ensures r == Success(true) <==> EXCLUDE_FROM_MINOR_COMPACTION_KEY in meta
                                    && ToBoolean(meta[EXCLUDE_FROM_MINOR_COMPACTION_KEY]) == Some(true)
    ensures r.Failure? <==> EXCLUDE_FROM_MINOR_COMPACTION_KEY in meta
                            && |meta[EXCLUDE_FROM_MINOR_COMPACTION_KEY]| != 1
  {
    if EXCLUDE_FROM_MINOR_COMPACTION_KEY in meta
    then DecodeBoolean(EXCLUDE_FROM_MINOR_COMPACTION_KEY, meta[EXCLUDE_FROM_MINOR_COMPACTION_KEY])
    else Success(false)
  }

  /** A malformed time range is swallowed as an absent one; other failures propagate. */
  function TimeRangeAfter(d: TimeRangeDecoding): (r: Result<Option<TimeRange>, OpenError>)
    ensures r.Failure? <==> d.OtherFailure?
    ensures d.IllegalArgument? ==> r == Success(None)
    ensures d.Decoded? ==> r == Success(d.range)
  {
    match d
    case Decoded(range) => Success(range)
    case IllegalArgument => Success(None)
    case OtherFailure => Failure(TimeRangeUnreadable)
  }

  /** The errors an open can raise once its reader exists and the file info has loaded. */
  predicate IsMetadataError(e: OpenError)
  {
    e.WrongValueLength? || e.FileNameError? || e.TimeRangeUnreadable?
  }

  function Stopped(readerCreated: bool, state: Derived, events: seq<ReaderEvent>, e: OpenError): OpenOutcome
  {
    OpenOutcome(readerCreated, state, events, None, Some(e))
  }

  /**
   * Opening a reader on a handle that has none, stage by stage. Each stage assigns its
   * field before the next one runs, so a failure keeps what the earlier stages assigned.
   */
  function OpenSpec(prior: Derived, name: string, isTopReference: bool, cfBloomType: BloomType,
                    backing: BackingOpen, decodeTimeRange: Option<seq<Byte>> -> TimeRangeDecoding): (r: OpenOutcome)
    ensures r.readerCreated <==> backing.Opened?
    ensures r.error == Some(ReaderOpenFailed) <==> backing.OpenFailed?
    ensures r.error == Some(FileInfoLoadFailed) <==> backing.Opened? && backing.source.fileInfo.None?
    ensures r.error.None? ==> r.state.metadata == backing.source.fileInfo && r.state.keys.Some?
    ensures r.error.Some? ==> r.timeRange == None && r.state.keys == prior.keys
  {
    match backing
    case OpenFailed => Stopped(false, prior, [], ReaderOpenFailed)
    case Opened(src) =>
      if src.fileInfo.None? then Stopped(true, prior, [], FileInfoLoadFailed)
      else
        var meta := src.fileInfo.value;
        SeqIdStage(prior.(metadata := Some(meta)), meta, src, name, isTopReference, cfBloomType, decodeTimeRange)
  }

  /** What one stage of an open leaves behind: the fields, the reader calls, and its error. */
  datatype StageResult = StageResult(state: Derived, events: seq<ReaderEvent>, error: Option<OpenError>)

  /**
   * The sequence-id stage: MAX_SEQ_ID_KEY, then on the bulk-load path the file name's id and
   * the skip-reset increment; on success the reader is told the bulk-load flags and the id.
   */
  function SeqIdStep(loaded: Derived, meta: Metadata, name: string, isTopReference: bool): (r: StageResult)
    ensures r.state == loaded.(seqId := r.state.seqId)
    ensures r.error.Some? <==> r.events == []
    ensures r.error.None? ==> r.events[|r.events| - 1] == SetSequenceID(r.state.seqId)
    ensures r.error.Some? ==> IsMetadataError(r.error.value)
  {
    var fromMeta := SeqIdFromMetadata(meta, isTopReference, loaded.seqId);
    if fromMeta.Failure? then StageResult(loaded, [], Some(fromMeta.error))
    else
      var withMetaId := loaded.(seqId := fromMeta.value);
      var bulk := IsBulkLoadResult(name, Some(meta));
      var seqId := if bulk then BulkLoadSeqId(meta, name, isTopReference, fromMeta.value) else fromMeta;
      if seqId.Failure? then StageResult(withMetaId, [], Some(seqId.error))
      else StageResult(withMetaId.(seqId := seqId.value), SequenceIdEvents(meta, bulk, seqId.value), None)
  }

  /** Once the file info is loaded: the sequence id, then the stages after it. */
  function SeqIdStage(loaded: Derived, meta: Metadata, src: ReaderSource, name: string, isTopReference: bool,
                      cfBloomType: BloomType, decodeTimeRange: Option<seq<Byte>> -> TimeRangeDecoding): (r: OpenOutcome)
    ensures r.readerCreated && r.state.metadata == loaded.metadata
    ensures r.error.None? ==> r.state.keys == Some(KeySnapshot(src.firstKey, src.lastKey, src.comparator))
    ensures r.error.Some? ==> r.state.keys == loaded.keys && r.timeRange == None
    ensures r.error.Some? ==> IsMetadataError(r.error.value)
  {
    var step := SeqIdStep(loaded, meta, name, isTopReference);
    if step.error.Some? then Stopped(true, step.state, step.events, step.error.value)
    else CompactionStage(step.state, step.events, meta, src, cfBloomType, decodeTimeRange)
  }

  /** Once the sequence id is set: the memstore timestamp and the compaction flags, then the rest. */
  function CompactionStage(withId: Derived, events: seq<ReaderEvent>, meta: Metadata, src: ReaderSource,
                           cfBloomType: BloomType, decodeTimeRange: Option<seq<Byte>> -> TimeRangeDecoding): (r: OpenOutcome)
    ensures r.readerCreated && r.state.seqId == withId.seqId && r.state.metadata == withId.metadata
    ensures r.error.None? ==> r.events == events + BloomLoadEvents(cfBloomType)
    ensures r.error.Some? ==> r.events == events || r.events == events + BloomLoadEvents(cfBloomType)
    ensures r.error.Some? ==> IsMetadataError(r.error.value) && r.timeRange == None
    ensures r.error.Some? ==> r.state.keys == withId.keys
  {
    var memstoreTs := MaxMemstoreTs(meta, withId.maxMemstoreTS);
    if memstoreTs.Failure? then Stopped(true, withId, events, memstoreTs.error)
    else
      var withTs := withId.(maxMemstoreTS := memstoreTs.value);
      var major := MajorCompactionFlag(meta);
      if major.Failure? then Stopped(true, withTs, events, major.error)
      else
        var withMajor := withTs.(majorCompaction := Some(major.value));
        var exclude := ExcludeFromMinorFlag(meta);
        if exclude.Failure? then Stopped(true, withMajor, events, exclude.error)
        else
          TimeRangeStage(withMajor.(excludeFromMinor := exclude.value), events + BloomLoadEvents(cfBloomType),
                         meta, src, decodeTimeRange)
  }

  /** Once the Bloom filters are loaded: the time range, then the key snapshot. */
  function TimeRangeStage(withFlags: Derived, events: seq<ReaderEvent>, meta: Metadata, src: ReaderSource,
                          decodeTimeRange: Option<seq<Byte>> -> TimeRangeDecoding): (r: OpenOutcome)
    ensures r.readerCreated && r.events == events
    ensures r.error.Some? <==> decodeTimeRange(Lookup(meta, TIMERANGE_KEY)).OtherFailure?
    ensures r.error.None? ==> r.state == withFlags.(keys := Some(KeySnapshot(src.firstKey, src.lastKey, src.comparator)))
    ensures r.error.Some? ==> r.state == withFlags && r.timeRange == None && r.error == Some(TimeRangeUnreadable)
  {
    var range := TimeRangeAfter(decodeTimeRange(Lookup(meta, TIMERANGE_KEY)));
    if range.Failure? then Stopped(true, withFlags, events, range.error)
    else
      var keys := KeySnapshot(src.firstKey, src.lastKey, src.comparator);
      OpenOutcome(true, withFlags.(keys := Some(keys)), events, range.value, None)
  }
}
