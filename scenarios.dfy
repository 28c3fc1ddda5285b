/**
 * Clients of the store file handle, walking it through the lifecycle a region server
 * drives: open, query, count scanners, close and reopen attempts.
 */
module StoreFileScenarios {
  import opened Wrappers
  import opened Bytes
  import opened StoreFileMeta
  import opened StoreFile
  import OpenProperties

  /** Opens a bulk-loaded file named `abc_SeqId_42_` with empty metadata. */
  method OpenBulkLoaded() returns (f: HStoreFile, ghost r: StoreFileReader)
    ensures fresh(f) && fresh(r) && f.reader == r
    ensures f.sequenceid == 42 && f.majorCompaction == Some(false) && f.metadataMap == Some(map[])
    ensures f.IsBulkLoadResult() && f.cacheConf.None?
    ensures r.timeRange == None && !f.deleted && f.refCount == 0
  {
    f := new HStoreFile("abc_SeqId_42_", false, None, false, true, ROW, true);
    var src := ReaderSource(Some(map[]), ROWCOL, None, None, "CellComparatorImpl");
    var decode := (_: Option<seq<Byte>>) => Decoded(None);
    OpenProperties.BulkLoadedNameScenario(ROW, src, decode);

    var err;
    err, r := f.InitReader(Opened(src), decode, false);
    assert err.None?;
  }

  /**
   * After the open, a second open is a no-op, scanners come and go, and the derived fields
   * outlive two closes.
   */
  method BulkLoadedLifecycle()
  {
    var f;
    ghost var created;
    f, created := OpenBulkLoaded();
    assert f.IsBulkLoadResult();
    assert f.IsMajorCompactionResult() == Success(false);
    assert f.GetMinimumTimestamp() == Success(None);

    var again;
    ghost var none;
    again, none := f.InitReader(OpenFailed, (_: Option<seq<Byte>>) => OtherFailure, false);
    assert again.None? && f.reader == created;

    f.AcquireReference();
    f.AcquireReference();
    f.ReleaseReference();
    assert f.IsReferencedInReads();
    f.ReleaseReference();
    assert !f.IsReferencedInReads();

    var first := f.CloseStoreFile(true, false);
    var second := f.CloseStoreFile(true, true);
    assert first.None? && second.None? && f.reader == null;
    assert created.events[|created.events| - 1] == Closed(true);
    assert f.sequenceid == 42 && f.IsMajorCompactionResult() == Success(false);
    assert f.GetMinimumTimestamp() == Failure(NullReader);
  }

  /**
   * A file whose major-compaction flag is two bytes long: the open fails after the sequence
   * id is set, and when closing the half-open reader fails too, the reader stays in place,
   * so a later open does nothing.
   */
  method FailedOpenKeepsReaderWhenCloseFails()
  {
    var f := new HStoreFile("store1", false, Some(CacheConfig(false)), true, true, ROW, true);
    var meta := map[MAJOR_COMPACTION_KEY := [0, 0]];
    var src := ReaderSource(Some(meta), ROW, None, None, "CellComparatorImpl");
    var decode := (_: Option<seq<Byte>>) => Decoded(None);
    OpenProperties.NoMarkerWithoutS("store1");

    var err;
    ghost var created;
    err, created := f.InitReader(Opened(src), decode, true);
    assert err == Some(OpenError.WrongValueLength(MAJOR_COMPACTION_KEY, 2));
    assert f.reader == created && created != null;
    assert created.events == [ReaderEvent.SetSequenceID(-1), Closed(false)];
    assert f.metadataMap == Some(meta) && f.IsMajorCompactionResult() == Failure(NotSetYet);

    var again;
    ghost var none;
    again, none := f.InitReader(Opened(src.(fileInfo := Some(map[]))), decode, false);
    assert again.None? && f.reader == created && f.majorCompaction.None?;
  }

  /** A malformed time range does not stop the open; the file then has no timestamps. */
  method MalformedTimeRangeOpens()
  {
    var f := new HStoreFile("store2", false, None, false, false, ROW, true);
    var src := ReaderSource(Some(map[TIMERANGE_KEY := [1, 2, 3]]), ROW, None, None, "CellComparatorImpl");
    var decode := (_: Option<seq<Byte>>) => IllegalArgument;
    OpenProperties.NoMarkerWithoutS("store2");

    var err;
    ghost var created;
    err, created := f.InitReader(Opened(src), decode, false);
    assert err.None?;
    assert f.GetMinimumTimestamp() == Success(None) && f.GetMaximumTimestamp() == Success(None);
    assert created.events == [ReaderEvent.SetSequenceID(-1), LoadBloomFilter(DELETE_FAMILY_BLOOM_META)];

    var deleted := f.DeleteStoreFile(false);
    assert deleted.None? && f.deleted && f.reader == null;
    assert created.events[|created.events| - 1] == Closed(true);
  }
}
