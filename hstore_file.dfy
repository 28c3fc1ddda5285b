/**
 * The store file handle and the reader it owns. The handle opens at most one primary
 * reader, derives the file's sequence id and flags while opening it, keeps them after the
 * reader is closed, counts the scanners reading the file, and closes and deletes the file.
 *
 * The reader's own code (opening the file, loading blocks, creating scanners) is not part
 * of this model: a reader is the file's contents as the file system delivered them, plus a
 * log of the calls the handle made on it. File-system outcomes are method parameters.
 */
module StoreFile {
  import opened Wrappers
  import opened Bytes
  import opened StoreFileMeta

  /** The arguments the handle passes when asking the file system for a reader. */
  datatype OpenRequest = OpenRequest(
    canUseDropBehind: bool,
    readahead: int,
    primaryReplica: bool,
    /** The open's last argument: true for the primary reader, false for a stream reader. */
    isPrimaryReader: bool)

  /** The part of the block cache configuration the handle consults. */
  datatype CacheConfig = CacheConfig(shouldEvictOnClose: bool)

  /** The exceptions the handle's queries raise. */
  datatype QueryError =
    | NotSetYet          // the major-compaction flag is read before any open set it
    | NullReader         // the query reads through a reader the handle does not have
    | NullMetadata       // the query reads a metadata map no open has loaded
    | WrongValueLength(key: string, length: nat)

  /** An IOException from closing the reader. */
  datatype CloseError = CloseFailed

  /** A reader on the backing file. */
  class StoreFileReader {
    const source: ReaderSource
    const request: OpenRequest
    var timeRange: Option<TimeRange>
    ghost var events: seq<ReaderEvent>

    constructor (source: ReaderSource, request: OpenRequest)
      ensures this.source == source && this.request == request
      ensures timeRange == None && events == []
    {
      this.source := source;
      this.request := request;
      timeRange := None;
      events := [];
    }

    /** The file info map; None when loading it throws. */
    method LoadFileInfo() returns (info: Option<Metadata>)
      ensures info == source.fileInfo
    {
      info := source.fileInfo;
    }

    function FirstKey(): Option<Cell> { source.firstKey }
    function LastKey(): Option<Cell> { source.lastKey }
    function GetComparator(): Comparator { source.comparator }

    method SetSkipResetSeqId(skip: bool)
      modifies this`events
      ensures events == old(events) + [ReaderEvent.SetSkipResetSeqId(skip)]
    {
      events := events + [ReaderEvent.SetSkipResetSeqId(skip)];
    }

    method SetBulkLoaded(bulkLoaded: bool)
      modifies this`events
      ensures events == old(events) + [ReaderEvent.SetBulkLoaded(bulkLoaded)]
    {
      events := events + [ReaderEvent.SetBulkLoaded(bulkLoaded)];
    }

    method SetSequenceID(id: Long)
      modifies this`events
      ensures events == old(events) + [ReaderEvent.SetSequenceID(id)]
    {
      events := events + [ReaderEvent.SetSequenceID(id)];
    }

    method LoadBloomfilter(block: BlockType)
      modifies this`events
      ensures events == old(events) + [LoadBloomFilter(block)]
    {
      events := events + [LoadBloomFilter(block)];
    }

    method Close(evictOnClose: bool)
      modifies this`events
      ensures events == old(events) + [Closed(evictOnClose)]
    {
      events := events + [Closed(evictOnClose)];
    }
  }

  /** The handle for one immutable store file. */
  class HStoreFile {
    /** The file's name, the last component of its path. */
    const fileName: string
    /** The file is the top half of a split parent. */
    const isTopReference: bool
    const cacheConf: Option<CacheConfig>
    const noReadahead: bool
    const primaryReplica: bool
    /** The column-family Bloom type, forced to NONE when general Bloom filters are disabled. */
    const cfBloomType: BloomType

    var reader: StoreFileReader?
    var metadataMap: Option<Metadata>
    var sequenceid: Long
    var maxMemstoreTS: Long
    var majorCompaction: Option<bool>
    var excludeFromMinorCompaction: bool
    var keys: Option<KeySnapshot>
    var compactedAway: bool
    /** Scanners currently reading the file; shared with every reader of this handle. */
    var refCount: nat
    /** The file has been removed from the file system. */
    var deleted: bool

    /** The fields an open assigns. */
    function State(): Derived
      reads this
    {
      Derived(metadataMap, sequenceid, maxMemstoreTS, majorCompaction, excludeFromMinorCompaction, keys)
    }

    constructor (fileName: string, isTopReference: bool, cacheConf: Option<CacheConfig>, noReadahead: bool,
                 generalBloomEnabled: bool, cfBloomType: BloomType, primaryReplica: bool)
      ensures this.fileName == fileName && this.isTopReference == isTopReference
      ensures this.cacheConf == cacheConf && this.noReadahead == noReadahead
      ensures this.primaryReplica == primaryReplica
      ensures this.cfBloomType == EffectiveBloomType(cfBloomType, generalBloomEnabled)
      ensures reader == null && State() == Initial
      ensures !compactedAway && refCount == 0 && !deleted
    {
      this.fileName := fileName;
      this.isTopReference := isTopReference;
      this.cacheConf := cacheConf;
      this.noReadahead := noReadahead;
      if generalBloomEnabled {
        this.cfBloomType := cfBloomType;
      } else {
        this.cfBloomType := NONE;
      }
      this.primaryReplica := primaryReplica;
      reader := null;
      metadataMap := None;
      sequenceid := -1;
      maxMemstoreTS := -1;
      majorCompaction := None;
      excludeFromMinorCompaction := false;
      keys := None;
      compactedAway := false;
      refCount := 0;
      deleted := false;
    }

    /** The primary reader: no drop-behind, readahead off (0) or default (-1), opened as the primary reader. */
    function PrimaryRequest(): (r: OpenRequest)
      ensures r.isPrimaryReader && !r.canUseDropBehind && r.primaryReplica == primaryReplica
      ensures r.readahead == 0 <==> noReadahead
      ensures !noReadahead ==> r.readahead == -1
    {
      OpenRequest(false, if noReadahead then 0 else -1, primaryReplica, true)
    }

    /** Evict the file's blocks on close as the cache says, and always without a cache. */
    function EvictOnClose(): (r: bool)
      ensures cacheConf.None? ==> r
      ensures cacheConf.Some? ==> r == cacheConf.value.shouldEvictOnClose
    {
      cacheConf.None? || cacheConf.value.shouldEvictOnClose
    }

    /**
     * Opens the primary reader and derives the handle's fields from the file's metadata,
     * one step at a time; a failing step leaves the earlier steps' assignments in place.
     */
    method Open(backing: BackingOpen, decodeTimeRange: Option<seq<Byte>> -> TimeRangeDecoding)
      returns (err: Option<OpenError>)
      modifies this`reader, this`metadataMap, this`sequenceid, this`maxMemstoreTS
      modifies this`majorCompaction, this`excludeFromMinorCompaction, this`keys
      ensures old(reader) != null ==> err == Some(AlreadyOpen) && reader == old(reader) && State() == old(State())
      ensures old(reader) == null ==>
                var o := OpenSpec(old(State()), fileName, isTopReference, cfBloomType, backing, decodeTimeRange);
                && err == o.error
                && State() == o.state
                && (reader != null <==> o.readerCreated)
                && (reader != null ==>
                      && fresh(reader)
                      && reader.source == backing.source
                      && reader.request == PrimaryRequest()
                      && reader.events == o.events
                      && reader.timeRange == o.timeRange)
    {
      if reader != null {
        return Some(AlreadyOpen);
      }
      if backing.OpenFailed? {
        return Some(ReaderOpenFailed);
      }
      var r := new StoreFileReader(backing.source, PrimaryRequest());
      reader := r;

      var info := r.LoadFileInfo();
      if info.None? {
        return Some(FileInfoLoadFailed);
      }
      metadataMap := info;
      var meta := info.value;

      ghost var loaded := State();
      assert OpenSpec(old(State()), fileName, isTopReference, cfBloomType, backing, decodeTimeRange)
          == SeqIdStage(loaded, meta, r.source, fileName, isTopReference, cfBloomType, decodeTimeRange);
      ghost var step := SeqIdStep(loaded, meta, fileName, isTopReference);
      err := LoadSequenceId(r, meta);
      assert r.events == step.events;
      if err.Some? {
        return;
      }
      err := LoadAfterSequenceId(r, meta, decodeTimeRange);
    }

    /**
     * The sequence id: MAX_SEQ_ID_KEY (plus one for a top half), then for a bulk-loaded
     * file the id in its name and the skip-reset increment; the reader learns the result.
     */
    method LoadSequenceId(r: StoreFileReader, meta: Metadata) returns (err: Option<OpenError>)
      requires metadataMap == Some(meta)
      modifies this`sequenceid, r`events
      ensures var step := SeqIdStep(old(State()), meta, fileName, isTopReference);
              && err == step.error
              && State() == step.state
              && r.events == old(r.events) + step.events
    {
      if MAX_SEQ_ID_KEY in meta {
        var b := meta[MAX_SEQ_ID_KEY];
        var v := ToLong(b);
        if v.None? {
          return Some(OpenError.WrongValueLength(MAX_SEQ_ID_KEY, |b|));
        }
        sequenceid := v.value;
        if isTopReference {
          sequenceid := Inc(sequenceid);
        }
      }

      if StoreFileMeta.IsBulkLoadResult(fileName, metadataMap) {
        err := LoadBulkLoadSequenceId(r, meta);
        if err.Some? {
          return;
        }
      }
      r.SetSequenceID(sequenceid);
      err := None;
    }

    /** The bulk-load path: the id in the file name wins, and the skip-reset flag adds one. */
    method LoadBulkLoadSequenceId(r: StoreFileReader, meta: Metadata) returns (err: Option<OpenError>)
      modifies this`sequenceid, r`events
      ensures var s := BulkLoadSeqId(meta, fileName, isTopReference, old(sequenceid));
              && (s.Failure? ==> err == Some(s.error) && sequenceid == old(sequenceid) && r.events == old(r.events))
              && (s.Success? ==>
                    var skip := IsSkipResetSeqId(Lookup(meta, SKIP_RESET_SEQ_ID));
                    && err.None?
                    && sequenceid == s.value
                    && r.events == old(r.events) + [ReaderEvent.SetSkipResetSeqId(skip), ReaderEvent.SetBulkLoaded(true)])
    {
      var fromName := SeqIdFromFileName(fileName);
      if fromName.Failure? {
        return Some(fromName.error);
      }
      if fromName.value.Some? {
        sequenceid := fromName.value.value;
        if isTopReference {
          sequenceid := Inc(sequenceid);
        }
      }
      var skipResetSeqId := IsSkipResetSeqId(Lookup(meta, SKIP_RESET_SEQ_ID));
      if skipResetSeqId {
        sequenceid := Inc(sequenceid);
      }
      r.SetSkipResetSeqId(skipResetSeqId);
      r.SetBulkLoaded(true);
      err := None;
    }

    /**
     * Everything after the sequence id: the memstore timestamp and compaction flags, the
     * Bloom filters, the time range, and last the key snapshot.
     */
    method LoadAfterSequenceId(r: StoreFileReader, meta: Metadata,
                               decodeTimeRange: Option<seq<Byte>> -> TimeRangeDecoding)
      returns (err: Option<OpenError>)
      requires r.timeRange == None
      modifies this`maxMemstoreTS, this`majorCompaction, this`excludeFromMinorCompaction, this`keys
      modifies r`events, r`timeRange
      ensures var o := CompactionStage(old(State()), old(r.events), meta, r.source, cfBloomType, decodeTimeRange);
              && err == o.error
              && State() == o.state
              && r.events == o.events
              && r.timeRange == o.timeRange
    {
      err := LoadCompactionFields(meta);
      if err.Some? {
        return;
      }
      // The file's own Bloom type only decides which mismatch gets logged.
      LoadBloomFilters(r);
      err := LoadTimeRange(r, meta, decodeTimeRange);
      if err.Some? {
        return;
      }
      keys := Some(KeySnapshot(r.FirstKey(), r.LastKey(), r.GetComparator()));
    }

    /** MAX_MEMSTORE_TS_KEY, then the major-compaction flag, then the exclude-from-minor flag. */
    method LoadCompactionFields(meta: Metadata) returns (err: Option<OpenError>)
      modifies this`maxMemstoreTS, this`majorCompaction, this`excludeFromMinorCompaction
      ensures var ts := MaxMemstoreTs(meta, old(maxMemstoreTS));
              var major := MajorCompactionFlag(meta);
              var exclude := ExcludeFromMinorFlag(meta);
              && (err.None? <==> ts.Success? && major.Success? && exclude.Success?)
              && (ts.Failure? ==> err == Some(ts.error) && State() == old(State()))
              && (ts.Success? && major.Failure? ==>
                    err == Some(major.error) && State() == old(State()).(maxMemstoreTS := ts.value))
              && (ts.Success? && major.Success? && exclude.Failure? ==>
                    && err == Some(exclude.error)
                    && State() == old(State()).(maxMemstoreTS := ts.value, majorCompaction := Some(major.value)))
              && (err.None? ==>
                    State() == old(State()).(maxMemstoreTS := ts.value, majorCompaction := Some(major.value),
                                             excludeFromMinor := exclude.value))
    {
      if MAX_MEMSTORE_TS_KEY in meta {
        var b := meta[MAX_MEMSTORE_TS_KEY];
        var v := ToLong(b);
        if v.None? {
          return Some(OpenError.WrongValueLength(MAX_MEMSTORE_TS_KEY, |b|));
        }
        maxMemstoreTS := v.value;
      }

      if MAJOR_COMPACTION_KEY in meta {
        var b := meta[MAJOR_COMPACTION_KEY];
        var mc := ToBoolean(b);
        if mc.None? {
          return Some(OpenError.WrongValueLength(MAJOR_COMPACTION_KEY, |b|));
        }
        majorCompaction := Some(mc.value);
      } else {
        majorCompaction := Some(false);
      }

      if EXCLUDE_FROM_MINOR_COMPACTION_KEY in meta {
        var b := meta[EXCLUDE_FROM_MINOR_COMPACTION_KEY];
        var ex := ToBoolean(b);
        if ex.None? {
          return Some(OpenError.WrongValueLength(EXCLUDE_FROM_MINOR_COMPACTION_KEY, |b|));
        }
        excludeFromMinorCompaction := ex.value;
      } else {
        excludeFromMinorCompaction := false;
      }
      err := None;
    }

    /** The general Bloom filter when the family has one, then always the delete-family filter. */
    method LoadBloomFilters(r: StoreFileReader)
      modifies r`events
      ensures r.events == old(r.events) + BloomLoadEvents(cfBloomType)
    {
      if cfBloomType != NONE {
        r.LoadBloomfilter(GENERAL_BLOOM_META);
      }
      r.LoadBloomfilter(DELETE_FAMILY_BLOOM_META);
    }

    /** The reader's time range; a malformed one is read as absent, any other failure stops the open. */
    method LoadTimeRange(r: StoreFileReader, meta: Metadata, decodeTimeRange: Option<seq<Byte>> -> TimeRangeDecoding)
      returns (err: Option<OpenError>)
      modifies r`timeRange
      ensures var range := TimeRangeAfter(decodeTimeRange(Lookup(meta, TIMERANGE_KEY)));
              && (range.Failure? ==> err == Some(range.error) && r.timeRange == old(r.timeRange))
              && (range.Success? ==> err.None? && r.timeRange == range.value)
    {
      match decodeTimeRange(Lookup(meta, TIMERANGE_KEY))
      case Decoded(range) =>
        r.timeRange := range;
        err := None;
      case IllegalArgument =>
        r.timeRange := None;
        err := None;
      case OtherFailure =>
        err := Some(TimeRangeUnreadable);
    }

    /**
     * Opens the primary reader unless one exists. When the open fails, closes whatever it
     * opened, swallows a failure to close, and reports the open's own error; a reader whose
     * close failed stays in place.
     */
    method InitReader(backing: BackingOpen, decodeTimeRange: Option<seq<Byte>> -> TimeRangeDecoding,
                      closeFails: bool)
      returns (err: Option<OpenError>, ghost created: StoreFileReader?)
      modifies this`reader, this`metadataMap, this`sequenceid, this`maxMemstoreTS
      modifies this`majorCompaction, this`excludeFromMinorCompaction, this`keys
      ensures old(reader) != null ==> err.None? && reader == old(reader) && State() == old(State())
      ensures old(reader) == null ==>
                var o := OpenSpec(old(State()), fileName, isTopReference, cfBloomType, backing, decodeTimeRange);
                && err == o.error
                && State() == o.state
                && (created != null <==> o.readerCreated)
                && (created != null ==>
                      && fresh(created)
                      && created.request == PrimaryRequest()
                      && created.timeRange == o.timeRange
                      && created.events == o.events + (if o.error.Some? then [Closed(EvictOnClose())] else []))
                && reader == (if o.error.None? || closeFails then created else null)
    {
      created := null;
      if reader == null {
        err := Open(backing, decodeTimeRange);
        created := reader;
        if err.Some? {
          var _ := CloseStoreFile(EvictOnClose(), closeFails);
        }
      } else {
        err := None;
      }
    }

    /** Closes the primary reader if there is one; a second close does nothing. */
    method CloseStoreFile(evictOnClose: bool, closeFails: bool) returns (err: Option<CloseError>)
      modifies this`reader, reader
      ensures old(reader) == null ==> err.None? && reader == null
      ensures old(reader) != null ==>
                && old(reader).events == old(reader.events) + [Closed(evictOnClose)]
                && old(reader).timeRange == old(reader.timeRange)
                && (err.Some? <==> closeFails)
                && reader == (if closeFails then old(reader) else null)
    {
      err := None;
      if reader != null {
        reader.Close(evictOnClose);
        if closeFails {
          return Some(CloseFailed);
        }
        reader := null;
      }
    }

    /** Closes the primary reader, then removes the file; a failed close stops the delete. */
    method DeleteStoreFile(closeFails: bool) returns (err: Option<CloseError>)
      modifies this`reader, reader, this`deleted
      ensures err.Some? <==> old(reader) != null && closeFails
      ensures old(reader) != null ==> old(reader).events == old(reader.events) + [Closed(EvictOnClose())]
      ensures old(reader) != null ==> old(reader).timeRange == old(reader.timeRange)
      ensures reader == (if err.Some? then old(reader) else null)
      ensures deleted == (old(deleted) || err.None?)
    {
      var evictOnClose := EvictOnClose();
      err := CloseStoreFile(evictOnClose, closeFails);
      if err.Some? {
        return;
      }
      deleted := true;
    }

    /** Marks the file as replaced by a compaction; the flag never goes back. */
    method MarkCompactedAway()
      modifies this`compactedAway
      ensures compactedAway
    {
      compactedAway := true;
    }

    /** A scanner starts reading the file. */
    method AcquireReference()
      modifies this`refCount
      ensures refCount == old(refCount) + 1
    {
      refCount := refCount + 1;
    }

    /** A scanner stops reading the file; only a scanner that acquired a reference releases one. */
    method ReleaseReference()
      requires refCount > 0
      modifies this`refCount
      ensures refCount == old(refCount) - 1
    {
      refCount := refCount - 1;
    }

    /** Whether scanners are still reading the file. */
    function IsReferencedInReads(): (r: bool)
      reads this
      ensures r <==> refCount != 0
    {
      refCount > 0
    }

    /** The major-compaction flag; asking before the first open is an error. */
    function IsMajorCompactionResult(): (r: Result<bool, QueryError>)
      reads this
      ensures r.Failure? <==> majorCompaction.None?
      ensures r.Failure? ==> r.error == NotSetYet
      ensures r.Success? ==> Some(r.value) == majorCompaction
    {
      if majorCompaction.None? then Failure(NotSetYet) else Success(majorCompaction.value)
    }

    /** The bulk-load test on this handle's name and, once loaded, its metadata. */
    function IsBulkLoadResult(): (r: bool)
      reads this
      ensures r <==> JavaStrings.Contains(fileName, SEQ_ID_MARKER)
                     || (metadataMap.Some? && BULKLOAD_TIME_KEY in metadataMap.value)
    {
      StoreFileMeta.IsBulkLoadResult(fileName, metadataMap)
    }

    /** The bulk-load timestamp, when the metadata has one. */
    function GetBulkLoadTimestamp(): (r: Result<Option<Long>, QueryError>)
      reads this
      ensures r.Failure? <==> metadataMap.None?
                              || (BULKLOAD_TIME_KEY in metadataMap.value && |metadataMap.value[BULKLOAD_TIME_KEY]| < 8)
      ensures r == Success(None) <==> metadataMap.Some? && BULKLOAD_TIME_KEY !in metadataMap.value
      ensures r.Success? && r.value.Some? ==> ToLong(metadataMap.value[BULKLOAD_TIME_KEY]) == Some(r.value.value)
    {
      if metadataMap.None? then Failure(NullMetadata)
      else match Lookup(metadataMap.value, BULKLOAD_TIME_KEY)
        case None => Success(None)
        case Some(b) =>
          match ToLong(b)
          case None => Failure(QueryError.WrongValueLength(BULKLOAD_TIME_KEY, |b|))
          case Some(v) => Success(Some(v))
    }

    /** The raw metadata value under `key`. */
    function GetMetadataValue(key: string): (r: Result<Option<seq<Byte>>, QueryError>)
      reads this
      ensures r.Failure? <==> metadataMap.None?
      ensures r.Success? ==> (r.value.Some? <==> key in metadataMap.value)
      ensures r.Success? && r.value.Some? ==> r.value.value == metadataMap.value[key]
    {
      if metadataMap.None? then Failure(NullMetadata) else Success(Lookup(metadataMap.value, key))
    }

    /** The smallest timestamp in the file, when its reader has a time range. */
    function GetMinimumTimestamp(): (r: Result<Option<Long>, QueryError>)
      reads this, reader
      ensures r.Failure? <==> reader == null
      ensures r.Success? ==> (r.value.Some? <==> reader.timeRange.Some?)
      ensures r.Success? && r.value.Some? ==> r.value.value == reader.timeRange.value.min
    {
      if reader == null then Failure(NullReader)
      else if reader.timeRange.None? then Success(None)
      else Success(Some(reader.timeRange.value.min))
    }

    /** The largest timestamp in the file, when its reader has a time range. */
    function GetMaximumTimestamp(): (r: Result<Option<Long>, QueryError>)
      reads this, reader
      ensures r.Failure? <==> reader == null
      ensures r.Success? ==> (r.value.Some? <==> reader.timeRange.Some?)
      ensures r.Success? && r.value.Some? ==> r.value.value == reader.timeRange.value.max
    {
      if reader == null then Failure(NullReader)
      else if reader.timeRange.None? then Success(None)
      else Success(Some(reader.timeRange.value.max))
    }
  }
}
