/**
 * Properties of opening a store file: how the sequence id is read from metadata and from
 * a bulk-loaded file's name, the skip-reset increment, the compaction flags, Bloom block
 * loading and the treatment of a malformed time range.
 */
module OpenProperties {
  import opened Wrappers
  import opened Bytes
  import opened JavaStrings
  import opened StoreFileMeta

  /* ---------- reading the sequence id out of a file name ---------- */

  /** When nothing after the marker contains it again, that marker is the last one. */
  lemma LastMarkerAt(p: string, rest: string)
    requires !Contains(rest, SEQ_ID_MARKER)
    ensures LastIndexOf(p + SEQ_ID_MARKER + rest, SEQ_ID_MARKER) == |p|
  {
    var name := p + SEQ_ID_MARKER + rest;
    assert OccursAt(name, SEQ_ID_MARKER, |p|) by {
      assert name[|p|..|p| + 6] == SEQ_ID_MARKER;
    }
    forall k | k > |p|
      ensures !OccursAt(name, SEQ_ID_MARKER, k)
    {
      if k < |p| + 6 {
        assert name[k] == SEQ_ID_MARKER[k - |p|] != 'S';
        assert k + 6 <= |name| ==> name[k..k + 6][0] == name[k];
      } else if k + 6 <= |name| {
        var j := k - |p| - 6;
        assert name[k..k + 6] == rest[j..j + 6];
        assert !OccursAt(rest, SEQ_ID_MARKER, j);
      }
    }
  }

  /** A string of digits followed by '_' and text free of the marker does not contain it. */
  lemma DigitsThenUnderscoreLackMarker(d: string, t: string)
    requires AllDigits(d) && !Contains(t, SEQ_ID_MARKER)
    ensures !Contains(d + "_" + t, SEQ_ID_MARKER)
  {
    var rest := d + "_" + t;
    forall k | 0 <= k && k + 6 <= |rest|
      ensures !OccursAt(rest, SEQ_ID_MARKER, k)
    {
      if k <= |d| {
        assert rest[k] != 'S' by {
          if k < |d| { assert rest[k] == d[k] && IsDigit(d[k]); }
        }
        assert rest[k..k + 6][0] == rest[k];
      } else {
        var j := k - |d| - 1;
        assert rest[k..k + 6] == t[j..j + 6];
        assert !OccursAt(t, SEQ_ID_MARKER, j);
      }
    }
  }

  /** The first '_' at or after `begin` is the one `len` characters on, when none comes before it. */
  lemma UnderscoreAt(name: string, begin: nat, len: nat)
    requires begin + len < |name| && name[begin + len] == '_'
    requires forall k :: begin <= k < begin + len ==> name[k] != '_'
    ensures IndexOf(name, "_", begin) == begin + len
  {
    assert OccursAt(name, "_", begin + len) by {
      assert name[begin + len..begin + len + 1] == "_";
    }
    forall k | begin <= k < begin + len
      ensures !OccursAt(name, "_", k)
    {
      assert name[k..k + 1][0] == name[k];
    }
  }

  /**
   * For a name `p + "SeqId_" + d + "_" + t` where no marker follows, the id is the number
   * `d` spells, whatever `p` holds (including earlier markers).
   */
  lemma FileNameSeqIdFromLastMarker(p: string, d: string, t: string)
    requires |d| > 0 && AllDigits(d) && DigitsValue(d) <= LONG_MAX
    requires !Contains(t, SEQ_ID_MARKER)
    ensures SeqIdFromFileName(p + SEQ_ID_MARKER + d + "_" + t) == Success(Some(DigitsValue(d)))
  {
    var rest := d + "_" + t;
    assert p + SEQ_ID_MARKER + rest == p + SEQ_ID_MARKER + d + "_" + t;
    DigitsThenUnderscore(d, t);
    LastMarkerAt(p, rest);
    SegmentAfterMarker(p, rest, |d|);
    ParseDigits(d);
  }

  /** In `d + "_" + t`, the digits `d` end at the first '_', and no marker occurs. */
  lemma DigitsThenUnderscore(d: string, t: string)
    requires AllDigits(d) && !Contains(t, SEQ_ID_MARKER)
    ensures var rest := d + "_" + t;
            && |d| < |rest| && rest[|d|] == '_' && rest[..|d|] == d
            && (forall k :: 0 <= k < |d| ==> rest[k] != '_')
            && !Contains(rest, SEQ_ID_MARKER)
  {
    var rest := d + "_" + t;
    DigitsThenUnderscoreLackMarker(d, t);
    assert rest[..|d|] == d;
    forall k | 0 <= k < |d|
      ensures rest[k] != '_'
    {
      assert rest[k] == d[k] && IsDigit(d[k]);
    }
  }

  /** Reading the id once the marker and the terminating '_' have been located. */
  lemma SeqIdFromFileNameAt(name: string, begin: nat, len: nat)
    requires begin >= 6 && LastIndexOf(name, SEQ_ID_MARKER) == begin - 6
    requires IndexOf(name, "_", begin) == begin + len
    ensures SeqIdFromFileName(name)
            == match ParseLong(name[begin..begin + len])
               case Success(v) => Success(Some(v))
               case Failure(e) => Failure(FileNameError(e))
  {
  }

  /** The first '_' after the marker at `|p|` is the first '_' of `rest`. */
  lemma UnderscoreAfterMarker(p: string, rest: string, len: nat)
    requires len < |rest| && rest[len] == '_'
    requires forall k :: 0 <= k < len ==> rest[k] != '_'
    ensures IndexOf(p + SEQ_ID_MARKER + rest, "_", |p| + 6) == |p| + 6 + len
  {
    var name := p + SEQ_ID_MARKER + rest;
    var begin := |p| + 6;
    assert |SEQ_ID_MARKER| == 6;
    assert name[begin..] == rest;
    forall k | begin <= k < begin + len
      ensures name[k] != '_'
    {
      assert name[k] == name[begin..][k - begin];
    }
    assert name[begin + len] == name[begin..][len];
    UnderscoreAt(name, begin, len);
  }

  /**
   * When the marker at `|p|` is the last one and the first '_' after it is `len` characters
   * on, the id is whatever those characters parse to.
   */
  lemma SegmentAfterMarker(p: string, rest: string, len: nat)
    requires LastIndexOf(p + SEQ_ID_MARKER + rest, SEQ_ID_MARKER) == |p|
    requires len < |rest| && rest[len] == '_'
    requires forall k :: 0 <= k < len ==> rest[k] != '_'
    ensures SeqIdFromFileName(p + SEQ_ID_MARKER + rest)
            == match ParseLong(rest[..len])
               case Success(v) => Success(Some(v))
               case Failure(e) => Failure(FileNameError(e))
  {
    var name := p + SEQ_ID_MARKER + rest;
    var begin := |p| + 6;
    UnderscoreAfterMarker(p, rest, len);
    SeqIdFromFileNameAt(name, begin, len);
    assert name[begin..begin + len] == rest[..len];
  }

  /** A non-empty string of digits whose value fits in a long parses to that value. */
  lemma ParseDigits(d: string)
    requires |d| > 0 && AllDigits(d) && DigitsValue(d) <= LONG_MAX
    ensures ParseLong(d) == Success(DigitsValue(d))
  {
    assert IsDigit(d[0]);
  }

  /** With no '_' after the last marker, taking the substring fails and so does the open. */
  lemma FileNameSeqIdWithoutTerminator(p: string, t: string)
    requires forall i :: 0 <= i < |t| ==> t[i] != '_'
    ensures SeqIdFromFileName(p + SEQ_ID_MARKER + t)
            == Failure(FileNameError(StringIndexOutOfBounds(|p| + 6, -1)))
  {
    var name := p + SEQ_ID_MARKER + t;
    forall j | 0 <= j && j + 6 <= |t|
      ensures !OccursAt(t, SEQ_ID_MARKER, j)
    {
      assert t[j..j + 6][5] == t[j + 5];
    }
    LastMarkerAt(p, t);
    var begin := |p| + 6;
    forall k | begin <= k && k + 1 <= |name|
      ensures !OccursAt(name, "_", k)
    {
      assert name[k..k + 1][0] == name[k] == t[k - begin];
    }
  }

  /** When the text between the last marker and the next '_' is not a long, the open fails. */
  lemma FileNameSeqIdNotANumber(p: string, d: string, t: string)
    requires forall i :: 0 <= i < |d| ==> d[i] != '_'
    requires !Contains(d + "_" + t, SEQ_ID_MARKER)
    requires ParseLong(d).Failure?
    ensures SeqIdFromFileName(p + SEQ_ID_MARKER + d + "_" + t)
            == Failure(FileNameError(NumberFormat(d)))
  {
    var rest := d + "_" + t;
    assert p + SEQ_ID_MARKER + rest == p + SEQ_ID_MARKER + d + "_" + t;
    LastMarkerAt(p, rest);
    assert rest[..|d|] == d;
    SegmentAfterMarker(p, rest, |d|);
  }

  /** A segment that is only a sign is not a number: `x_SeqId_-_` fails to open. */
  lemma FileNameSeqIdLoneSign()
    ensures SeqIdFromFileName("x_" + SEQ_ID_MARKER + "-_") == Failure(FileNameError(NumberFormat("-")))
  {
    assert "x_" + SEQ_ID_MARKER + "-_" == "x_" + SEQ_ID_MARKER + "-" + "_" + "";
    assert !Contains("-_", SEQ_ID_MARKER) by {
      forall k ensures !OccursAt("-_", SEQ_ID_MARKER, k) {
      }
    }
    FileNameSeqIdNotANumber("x_", "-", "");
  }

  /** A name without the letter 'S' cannot carry the marker. */
  lemma NoMarkerWithoutS(name: string)
    requires forall i :: 0 <= i < |name| ==> name[i] != 'S'
    ensures !Contains(name, SEQ_ID_MARKER)
  {
    forall k | 0 <= k && k + 6 <= |name|
      ensures !OccursAt(name, SEQ_ID_MARKER, k)
    {
      assert name[k..k + 6][0] == name[k];
    }
  }

  /* ---------- the sequence id ---------- */

  /**
   * Outside the bulk-load path the id is the stored long, plus one for a top half.
   */
  lemma SeqIdFromMetadataKey(meta: Metadata, name: string, isTopReference: bool, prior: Long, v: Long)
    requires !IsBulkLoadResult(name, Some(meta))
    requires MAX_SEQ_ID_KEY in meta && ToLong(meta[MAX_SEQ_ID_KEY]) == Some(v)
    ensures DeriveSeqId(meta, name, isTopReference, prior) == Success(if isTopReference then Inc(v) else v)
    ensures isTopReference && v < LONG_MAX ==> DeriveSeqId(meta, name, isTopReference, prior) == Success(v + 1)
  {
  }

  /** Without MAX_SEQ_ID_KEY and outside the bulk-load path the id keeps its prior value. */
  lemma SeqIdKeepsPriorWithoutKey(meta: Metadata, name: string, isTopReference: bool, prior: Long)
    requires !IsBulkLoadResult(name, Some(meta)) && MAX_SEQ_ID_KEY !in meta
    ensures DeriveSeqId(meta, name, isTopReference, prior) == Success(prior)
  {
  }

  /**
   * On the bulk-load path with a marked name, the id read from the last marker replaces
   * any metadata id, plus one for a top half and one more for the skip-reset flag.
   */
  lemma SeqIdFromFileNameOverrides(meta: Metadata, p: string, d: string, t: string,
                                   isTopReference: bool, prior: Long)
    requires |d| > 0 && AllDigits(d) && DigitsValue(d) <= LONG_MAX
    requires !Contains(t, SEQ_ID_MARKER)
    requires MAX_SEQ_ID_KEY in meta ==> |meta[MAX_SEQ_ID_KEY]| >= 8
    ensures var n: Long := DigitsValue(d);
            var adjusted := AdjustForTopHalf(n, isTopReference);
            DeriveSeqId(meta, p + SEQ_ID_MARKER + d + "_" + t, isTopReference, prior)
            == Success(if IsSkipResetSeqId(Lookup(meta, SKIP_RESET_SEQ_ID)) then Inc(adjusted) else adjusted)
  {
    var name := p + SEQ_ID_MARKER + d + "_" + t;
    FileNameSeqIdFromLastMarker(p, d, t);
    assert Contains(name, SEQ_ID_MARKER) by {
      assert SeqIdFromFileName(name) != Success(None);
    }
  }

  /**
   * The skip-reset flag adds exactly one on the bulk-load path: with it, the id is the
   * successor of the id the same file would get without it.
   */
  lemma SkipResetAddsOne(meta: Metadata, name: string, isTopReference: bool, prior: Long)
    requires IsBulkLoadResult(name, Some(meta))
    requires IsSkipResetSeqId(Lookup(meta, SKIP_RESET_SEQ_ID))
    ensures var without := DeriveSeqId(meta - {SKIP_RESET_SEQ_ID}, name, isTopReference, prior);
            DeriveSeqId(meta, name, isTopReference, prior)
            == if without.Success? then Success(Inc(without.value)) else without
  {
    var m' := meta - {SKIP_RESET_SEQ_ID};
    assert Lookup(m', SKIP_RESET_SEQ_ID) == None;
    assert MAX_SEQ_ID_KEY in m' <==> MAX_SEQ_ID_KEY in meta;
    assert IsBulkLoadResult(name, Some(m'));
  }

  /** Off the bulk-load path the skip-reset flag changes nothing. */
  lemma SkipResetIgnoredUnlessBulk(meta: Metadata, name: string, isTopReference: bool, prior: Long)
    requires !IsBulkLoadResult(name, Some(meta))
    ensures DeriveSeqId(meta, name, isTopReference, prior)
            == DeriveSeqId(meta - {SKIP_RESET_SEQ_ID}, name, isTopReference, prior)
  {
    var m' := meta - {SKIP_RESET_SEQ_ID};
    assert MAX_SEQ_ID_KEY in m' <==> MAX_SEQ_ID_KEY in meta;
    assert !IsBulkLoadResult(name, Some(m'));
  }

  /**
   * A bulk-load result marked only by its bulk-load timestamp (no marker in the name) keeps
   * the id MAX_SEQ_ID_KEY gives (the prior id when the key is absent), and takes the
   * skip-reset increment.
   */
  lemma BulkLoadTimeKeepsMetadataId(meta: Metadata, name: string, isTopReference: bool, prior: Long)
    requires !Contains(name, SEQ_ID_MARKER) && BULKLOAD_TIME_KEY in meta
    ensures var fromMeta := SeqIdFromMetadata(meta, isTopReference, prior);
            DeriveSeqId(meta, name, isTopReference, prior)
            == if fromMeta.Failure? then fromMeta
               else Success(if IsSkipResetSeqId(Lookup(meta, SKIP_RESET_SEQ_ID)) then Inc(fromMeta.value)
                            else fromMeta.value)
  {
    assert SeqIdFromFileName(name) == Success(None);
  }

  /**
   * With MAX_SEQ_ID_KEY present, that timestamp-only bulk-load result takes the stored id,
   * plus one for a top half, plus one more for the skip-reset flag.
   */
  lemma BulkLoadTimeWithStoredId(meta: Metadata, name: string, isTopReference: bool, prior: Long, v: Long)
    requires !Contains(name, SEQ_ID_MARKER) && BULKLOAD_TIME_KEY in meta
    requires MAX_SEQ_ID_KEY in meta && ToLong(meta[MAX_SEQ_ID_KEY]) == Some(v)
    ensures var adjusted := AdjustForTopHalf(v, isTopReference);
            DeriveSeqId(meta, name, isTopReference, prior)
            == Success(if IsSkipResetSeqId(Lookup(meta, SKIP_RESET_SEQ_ID)) then Inc(adjusted) else adjusted)
  {
    BulkLoadTimeKeepsMetadataId(meta, name, isTopReference, prior);
  }

  /**
   * The sequence-id stage of an open succeeds exactly when `DeriveSeqId` does, and then
   * leaves its id on the handle; when only the bulk-load step fails, the metadata id stays.
   */
  lemma SeqIdStepDerives(loaded: Derived, meta: Metadata, name: string, isTopReference: bool)
    ensures var step := SeqIdStep(loaded, meta, name, isTopReference);
            var s := DeriveSeqId(meta, name, isTopReference, loaded.seqId);
            && (step.error.None? <==> s.Success?)
            && (s.Success? ==> step.state == loaded.(seqId := s.value))
            && (s.Failure? ==> step.error == Some(s.error) && step.events == [])
            && (s.Failure? && SeqIdFromMetadata(meta, isTopReference, loaded.seqId).Success? ==>
                  step.state == loaded.(seqId := SeqIdFromMetadata(meta, isTopReference, loaded.seqId).value))
  {
  }

  /* ---------- the whole open ---------- */

  /** Whatever happens after the sequence id, the reader has seen its calls and maybe the Bloom loads. */
  lemma CompactionStageEvents(withId: Derived, events: seq<ReaderEvent>, meta: Metadata, src: ReaderSource,
                              cfBloomType: BloomType, decode: Option<seq<Byte>> -> TimeRangeDecoding)
    ensures var o := CompactionStage(withId, events, meta, src, cfBloomType, decode);
            o.events == events || o.events == events + BloomLoadEvents(cfBloomType)
  {
  }

  /** Whatever happens once the file info is loaded, the reader sees a prefix of the successful calls. */
  lemma SeqIdStageEvents(loaded: Derived, meta: Metadata, src: ReaderSource, name: string, isTopReference: bool,
                         cfBloomType: BloomType, decode: Option<seq<Byte>> -> TimeRangeDecoding)
    ensures var o := SeqIdStage(loaded, meta, src, name, isTopReference, cfBloomType, decode);
            var s := DeriveSeqId(meta, name, isTopReference, loaded.seqId);
            || o.events == []
            || (&& s.Success?
                && var head := SequenceIdEvents(meta, IsBulkLoadResult(name, Some(meta)), s.value);
                   o.events == head || o.events == head + BloomLoadEvents(cfBloomType))
  {
    var s := DeriveSeqId(meta, name, isTopReference, loaded.seqId);
    if s.Success? {
      var bulk := IsBulkLoadResult(name, Some(meta));
      CompactionStageEvents(loaded.(seqId := s.value), SequenceIdEvents(meta, bulk, s.value), meta, src,
                            cfBloomType, decode);
    }
  }

  /** The stages after the sequence id succeed exactly when each of their decodings does. */
  lemma CompactionStageSucceeds(withId: Derived, events: seq<ReaderEvent>, meta: Metadata, src: ReaderSource,
                                cfBloomType: BloomType, decode: Option<seq<Byte>> -> TimeRangeDecoding)
    ensures var o := CompactionStage(withId, events, meta, src, cfBloomType, decode);
            var ts := MaxMemstoreTs(meta, withId.maxMemstoreTS);
            var major := MajorCompactionFlag(meta);
            var exclude := ExcludeFromMinorFlag(meta);
            var range := TimeRangeAfter(decode(Lookup(meta, TIMERANGE_KEY)));
            && o.readerCreated
            && (o.error.None? <==> ts.Success? && major.Success? && exclude.Success? && range.Success?)
            && (o.error.None? ==>
                  && o.state == withId.(maxMemstoreTS := ts.value, majorCompaction := Some(major.value),
                                        excludeFromMinor := exclude.value,
                                        keys := Some(KeySnapshot(src.firstKey, src.lastKey, src.comparator)))
                  && o.events == events + BloomLoadEvents(cfBloomType)
                  && o.timeRange == range.value)
  {
  }

  /** From the loaded metadata on, the open succeeds exactly when the id and every later stage do. */
  lemma SeqIdStageSucceeds(loaded: Derived, meta: Metadata, src: ReaderSource, name: string, isTopReference: bool,
                           cfBloomType: BloomType, decode: Option<seq<Byte>> -> TimeRangeDecoding)
    ensures var o := SeqIdStage(loaded, meta, src, name, isTopReference, cfBloomType, decode);
            var s := DeriveSeqId(meta, name, isTopReference, loaded.seqId);
            var ts := MaxMemstoreTs(meta, loaded.maxMemstoreTS);
            var major := MajorCompactionFlag(meta);
            var exclude := ExcludeFromMinorFlag(meta);
            var range := TimeRangeAfter(decode(Lookup(meta, TIMERANGE_KEY)));
            && o.readerCreated
            && (o.error.None? <==> s.Success? && ts.Success? && major.Success? && exclude.Success? && range.Success?)
            && (o.error.None? ==>
                  && o.state == loaded.(seqId := s.value, maxMemstoreTS := ts.value, majorCompaction := Some(major.value),
                                        excludeFromMinor := exclude.value,
                                        keys := Some(KeySnapshot(src.firstKey, src.lastKey, src.comparator)))
                  && o.events == SequenceIdEvents(meta, IsBulkLoadResult(name, Some(meta)), s.value)
                                 + BloomLoadEvents(cfBloomType)
                  && o.timeRange == range.value)
  {
    var s := DeriveSeqId(meta, name, isTopReference, loaded.seqId);
    if s.Success? {
      var bulk := IsBulkLoadResult(name, Some(meta));
      CompactionStageSucceeds(loaded.(seqId := s.value), SequenceIdEvents(meta, bulk, s.value), meta, src,
                              cfBloomType, decode);
    }
  }

  /**
   * An open succeeds exactly when the file opens, its info loads, and every decoded entry
   * is well formed; then every derived field holds its stage's value.
   */
  lemma OpenSucceeds(prior: Derived, name: string, isTopReference: bool, cfBloomType: BloomType,
                     src: ReaderSource, decode: Option<seq<Byte>> -> TimeRangeDecoding)
    ensures var o := OpenSpec(prior, name, isTopReference, cfBloomType, Opened(src), decode);
            o.error.None? <==>
              && src.fileInfo.Some?
              && DeriveSeqId(src.fileInfo.value, name, isTopReference, prior.seqId).Success?
              && MaxMemstoreTs(src.fileInfo.value, prior.maxMemstoreTS).Success?
              && MajorCompactionFlag(src.fileInfo.value).Success?
              && ExcludeFromMinorFlag(src.fileInfo.value).Success?
              && !decode(Lookup(src.fileInfo.value, TIMERANGE_KEY)).OtherFailure?
    ensures var o := OpenSpec(prior, name, isTopReference, cfBloomType, Opened(src), decode);
            o.error.None? ==>
              var meta := src.fileInfo.value;
              && o.readerCreated
              && o.state.metadata == Some(meta)
              && o.state.seqId == DeriveSeqId(meta, name, isTopReference, prior.seqId).value
              && o.state.maxMemstoreTS == MaxMemstoreTs(meta, prior.maxMemstoreTS).value
              && o.state.majorCompaction == Some(MajorCompactionFlag(meta).value)
              && o.state.excludeFromMinor == ExcludeFromMinorFlag(meta).value
              && o.state.keys == Some(KeySnapshot(src.firstKey, src.lastKey, src.comparator))
              && o.timeRange == TimeRangeAfter(decode(Lookup(meta, TIMERANGE_KEY))).value
              && o.events == SequenceIdEvents(meta, IsBulkLoadResult(name, Some(meta)), o.state.seqId)
                             + BloomLoadEvents(cfBloomType)
  {
    if src.fileInfo.Some? {
      var meta := src.fileInfo.value;
      SeqIdStageSucceeds(prior.(metadata := Some(meta)), meta, src, name, isTopReference, cfBloomType, decode);
    }
  }

  /** A fresh handle whose file has neither MAX_SEQ_ID_KEY nor a bulk-load mark opens with id -1. */
  lemma FreshOpenWithoutSeqIdIsUnset(name: string, isTopReference: bool, cfBloomType: BloomType,
                                     src: ReaderSource, decode: Option<seq<Byte>> -> TimeRangeDecoding)
    requires src.fileInfo.Some? && MAX_SEQ_ID_KEY !in src.fileInfo.value
    requires !IsBulkLoadResult(name, src.fileInfo)
    ensures var o := OpenSpec(Initial, name, isTopReference, cfBloomType, Opened(src), decode);
            o.state.seqId == -1
  {
  }

  /**
   * The -1 rule does not hold for a bulk-load result marked only by its timestamp: without
   * MAX_SEQ_ID_KEY a fresh handle keeps -1, but the skip-reset flag raises it to 0, whatever
   * the later steps of the open do.
   */
  lemma FreshBulkOpenWithoutSeqId(name: string, isTopReference: bool, cfBloomType: BloomType,
                                  src: ReaderSource, decode: Option<seq<Byte>> -> TimeRangeDecoding)
    requires src.fileInfo.Some? && MAX_SEQ_ID_KEY !in src.fileInfo.value
    requires BULKLOAD_TIME_KEY in src.fileInfo.value && !Contains(name, SEQ_ID_MARKER)
    ensures var o := OpenSpec(Initial, name, isTopReference, cfBloomType, Opened(src), decode);
            o.state.seqId == if IsSkipResetSeqId(Lookup(src.fileInfo.value, SKIP_RESET_SEQ_ID)) then 0 else -1
  {
    var meta := src.fileInfo.value;
    BulkLoadTimeKeepsMetadataId(meta, name, isTopReference, -1);
    SeqIdStepDerives(Initial.(metadata := Some(meta)), meta, name, isTopReference);
  }

  /**
   * After an open, the major-compaction flag is set: the stored boolean, or false without
   * the key; exclusion from minor compactions needs the key present and true.
   */
  lemma CompactionFlagsAfterOpen(prior: Derived, name: string, isTopReference: bool, cfBloomType: BloomType,
                                 src: ReaderSource, decode: Option<seq<Byte>> -> TimeRangeDecoding)
    requires src.fileInfo.Some?
    requires OpenSpec(prior, name, isTopReference, cfBloomType, Opened(src), decode).error.None?
    ensures var o := OpenSpec(prior, name, isTopReference, cfBloomType, Opened(src), decode);
            var meta := src.fileInfo.value;
            && o.state.majorCompaction.Some?
            && (MAJOR_COMPACTION_KEY !in meta ==> o.state.majorCompaction == Some(false))
            && (MAJOR_COMPACTION_KEY in meta ==>
                  o.state.majorCompaction == ToBoolean(meta[MAJOR_COMPACTION_KEY]))
            && (o.state.excludeFromMinor <==>
                  EXCLUDE_FROM_MINOR_COMPACTION_KEY in meta
                  && |meta[EXCLUDE_FROM_MINOR_COMPACTION_KEY]| == 1
                  && meta[EXCLUDE_FROM_MINOR_COMPACTION_KEY][0] != 0)
  {
    OpenSucceeds(prior, name, isTopReference, cfBloomType, src, decode);
  }

  /**
   * A successful open loads the general Bloom block exactly when the column-family type is
   * not NONE, always loads the delete-family block, and on the bulk-load path only marks the
   * reader bulk-loaded and passes it the skip flag, whether that flag is true or false.
   */
  lemma ReaderCallsOnOpen(prior: Derived, name: string, isTopReference: bool, cfBloomType: BloomType,
                          src: ReaderSource, decode: Option<seq<Byte>> -> TimeRangeDecoding)
    requires OpenSpec(prior, name, isTopReference, cfBloomType, Opened(src), decode).error.None?
    ensures var o := OpenSpec(prior, name, isTopReference, cfBloomType, Opened(src), decode);
            var meta := src.fileInfo.value;
            && (LoadBloomFilter(GENERAL_BLOOM_META) in o.events <==> cfBloomType != NONE)
            && LoadBloomFilter(DELETE_FAMILY_BLOOM_META) in o.events
            && (SetBulkLoaded(true) in o.events <==> IsBulkLoadResult(name, Some(meta)))
            && (forall b :: SetSkipResetSeqId(b) in o.events <==>
                  IsBulkLoadResult(name, Some(meta)) && b == IsSkipResetSeqId(Lookup(meta, SKIP_RESET_SEQ_ID)))
            && SetSequenceID(o.state.seqId) in o.events
  {
    var o := OpenSpec(prior, name, isTopReference, cfBloomType, Opened(src), decode);
    OpenSucceeds(prior, name, isTopReference, cfBloomType, src, decode);
    var meta := src.fileInfo.value;
    SuccessfulOpenCalls(meta, IsBulkLoadResult(name, Some(meta)), o.state.seqId, cfBloomType);
  }

  /** The calls a successful open makes on its reader, read off the call sequence itself. */
  lemma SuccessfulOpenCalls(meta: Metadata, bulk: bool, seqId: Long, cfBloomType: BloomType)
    ensures var events := SequenceIdEvents(meta, bulk, seqId) + BloomLoadEvents(cfBloomType);
            && (LoadBloomFilter(GENERAL_BLOOM_META) in events <==> cfBloomType != NONE)
            && LoadBloomFilter(DELETE_FAMILY_BLOOM_META) in events
            && (SetBulkLoaded(true) in events <==> bulk)
            && (forall b :: SetSkipResetSeqId(b) in events <==> bulk && b == IsSkipResetSeqId(Lookup(meta, SKIP_RESET_SEQ_ID)))
            && SetSequenceID(seqId) in events
  {
    var head := SequenceIdEvents(meta, bulk, seqId);
    var blooms := BloomLoadEvents(cfBloomType);
    var events := head + blooms;
    assert LoadBloomFilter(GENERAL_BLOOM_META) in events <==> cfBloomType != NONE by {
      if cfBloomType != NONE {
        assert blooms[0] == LoadBloomFilter(GENERAL_BLOOM_META);
        assert events[|head|] == blooms[0];
      } else {
        assert LoadBloomFilter(GENERAL_BLOOM_META) !in blooms;
      }
    }
    assert events[|events| - 1] == blooms[|blooms| - 1];
    assert events[|head| - 1] == SetSequenceID(seqId);
  }

  /** With general Bloom filters disabled in the configuration, no general block is ever loaded. */
  lemma DisabledBloomLoadsNoGeneralBlock(prior: Derived, name: string, isTopReference: bool, configured: BloomType,
                                         src: ReaderSource, decode: Option<seq<Byte>> -> TimeRangeDecoding)
    ensures var o := OpenSpec(prior, name, isTopReference, EffectiveBloomType(configured, false), Opened(src), decode);
            LoadBloomFilter(GENERAL_BLOOM_META) !in o.events
  {
    if src.fileInfo.Some? {
      var meta := src.fileInfo.value;
      SeqIdStageEvents(prior.(metadata := Some(meta)), meta, src, name, isTopReference, NONE, decode);
      var s := DeriveSeqId(meta, name, isTopReference, prior.seqId);
      if s.Success? {
        var head := SequenceIdEvents(meta, IsBulkLoadResult(name, Some(meta)), s.value);
        assert LoadBloomFilter(GENERAL_BLOOM_META) !in head;
        assert LoadBloomFilter(GENERAL_BLOOM_META) !in BloomLoadEvents(NONE);
      }
    }
  }

  /** The file's own Bloom type never affects an open: a mismatch is only logged. */
  lemma FileBloomTypeIrrelevant(prior: Derived, name: string, isTopReference: bool, cfBloomType: BloomType,
                                src: ReaderSource, other: BloomType,
                                decode: Option<seq<Byte>> -> TimeRangeDecoding)
    ensures OpenSpec(prior, name, isTopReference, cfBloomType, Opened(src), decode)
            == OpenSpec(prior, name, isTopReference, cfBloomType, Opened(src.(bloomType := other)), decode)
  {
    if src.fileInfo.Some? {
      var meta := src.fileInfo.value;
      var step := SeqIdStep(prior.(metadata := Some(meta)), meta, name, isTopReference);
      if step.error.None? {
        assert CompactionStage(step.state, step.events, meta, src, cfBloomType, decode)
            == CompactionStage(step.state, step.events, meta, src.(bloomType := other), cfBloomType, decode);
      }
    }
  }

  /** A malformed time range behaves exactly like an absent one: the open goes on without it. */
  lemma MalformedTimeRangeIsAbsent(prior: Derived, name: string, isTopReference: bool, cfBloomType: BloomType,
                                   src: ReaderSource, decode: Option<seq<Byte>> -> TimeRangeDecoding)
    requires src.fileInfo.Some?
    requires decode(Lookup(src.fileInfo.value, TIMERANGE_KEY)) == IllegalArgument
    ensures var absent := (_: Option<seq<Byte>>) => Decoded(None);
            OpenSpec(prior, name, isTopReference, cfBloomType, Opened(src), decode)
            == OpenSpec(prior, name, isTopReference, cfBloomType, Opened(src), absent)
    ensures OpenSpec(prior, name, isTopReference, cfBloomType, Opened(src), decode).timeRange == None
  {
    var meta := src.fileInfo.value;
    var loaded := prior.(metadata := Some(meta));
    var absent := (_: Option<seq<Byte>>) => Decoded(None);
    var step := SeqIdStep(loaded, meta, name, isTopReference);
    if step.error.None? {
      CompactionStageIgnoresMalformedRange(step.state, step.events, meta, src, cfBloomType, decode);
    }
    assert SeqIdStage(loaded, meta, src, name, isTopReference, cfBloomType, decode)
        == SeqIdStage(loaded, meta, src, name, isTopReference, cfBloomType, absent);
  }

  /** The stages after the id do not tell a malformed time range from an absent one. */
  lemma CompactionStageIgnoresMalformedRange(withId: Derived, events: seq<ReaderEvent>, meta: Metadata,
                                             src: ReaderSource, cfBloomType: BloomType,
                                             decode: Option<seq<Byte>> -> TimeRangeDecoding)
    requires decode(Lookup(meta, TIMERANGE_KEY)) == IllegalArgument
    ensures var absent := (_: Option<seq<Byte>>) => Decoded(None);
            CompactionStage(withId, events, meta, src, cfBloomType, decode)
            == CompactionStage(withId, events, meta, src, cfBloomType, absent)
    ensures CompactionStage(withId, events, meta, src, cfBloomType, decode).timeRange == None
  {
  }

  /* ---------- scenarios ---------- */

  /** `abc_SeqId_42_`, not a reference, empty metadata: a bulk-load result with id 42. */
  lemma BulkLoadedNameScenario(cfBloomType: BloomType, src: ReaderSource,
                               decode: Option<seq<Byte>> -> TimeRangeDecoding)
    requires src.fileInfo == Some(map[])
    requires decode(None).Decoded?
    ensures var o := OpenSpec(Initial, "abc_SeqId_42_", false, cfBloomType, Opened(src), decode);
            o.error.None? && o.state.seqId == 42
            && IsBulkLoadResult("abc_SeqId_42_", o.state.metadata)
  {
    assert DecimalString(42) == "42";
    DecimalStringValue(42);
    assert !Contains("", SEQ_ID_MARKER);
    assert "abc_SeqId_42_" == "abc_" + SEQ_ID_MARKER + "42" + "_" + "";
    SeqIdFromFileNameOverrides(map[], "abc_", "42", "", false, -1);
  }

  /** MAX_SEQ_ID_KEY holding 10 on a top-half reference: the id is 11. */
  lemma TopHalfScenario(cfBloomType: BloomType, src: ReaderSource,
                        decode: Option<seq<Byte>> -> TimeRangeDecoding)
    requires src.fileInfo == Some(map[MAX_SEQ_ID_KEY := FromLong(10)])
    requires decode(None).Decoded?
    ensures var o := OpenSpec(Initial, "3f2a9c", true, cfBloomType, Opened(src), decode);
            o.error.None? && o.state.seqId == 11
  {
    LongRoundTrip(10);
    NoMarkerWithoutS("3f2a9c");
    SeqIdFromMetadataKey(map[MAX_SEQ_ID_KEY := FromLong(10)], "3f2a9c", true, -1, 10);
  }
}
