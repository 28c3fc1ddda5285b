# HStoreFile in Dafny

In HBase, a region server keeps a column family's data in immutable store files. `HStoreFile` is the region server's handle on one such file. It holds the file's cache settings and the column family's Bloom filter type. Each time the handle opens a reader on the file, including a reopen after the reader was closed, it derives several fields from the file's metadata map and from the file's name:

- the sequence id, which orders the file among its siblings;
- the largest memstore timestamp;
- whether the file is the result of a major compaction;
- whether it is excluded from minor compactions;
- which Bloom filter blocks to load;
- the file's time range.

It keeps these fields after the reader is closed. It counts the scanners reading the file, and it closes and deletes the file.

This project models that handle and proves what the derivation and the lifecycle guarantee. It has seven modules:

- `Wrappers`: `Option` and `Result`.
- `Bytes`: Java's 64-bit `long`, including the wrap-around of `+= 1`, and the metadata decoders `Bytes.toLong` and `Bytes.toBoolean` with their round trips.
- `JavaStrings`: the `java.lang` operations the file-name rule uses. These are `indexOf` and `lastIndexOf` (which return -1), `substring` (which throws outside its bounds) and `Long.parseLong` (which throws on a malformed number).
- `StoreFileMeta`: the open-time derivation as pure functions. `OpenSpec` gives the complete outcome of an open: fields, reader calls, time range and error. It includes the partial state an open leaves when it fails half-way, because the handle assigns each field before the next step runs.
- `OpenProperties`: lemmas about the derivation.
- `StoreFile`: two classes.
  - `HStoreFile` holds the handle's fields, the step-by-step `Open` and the lifecycle methods. Each step method is proved against its stage of `OpenSpec`.
  - `StoreFileReader` is an abstract reader. It holds the file contents the file system delivered and a ghost log of the calls the handle makes on it.
- `StoreFileScenarios`: client methods that drive one handle through opening, querying, counting scanners, closing and deleting.

The file system's answers are method parameters:

- whether the reader opens;
- whether its file info loads;
- whether closing it throws;
- what the time-range decoder returns.

The sequence id and timestamps are Java `long`s, modelled as the subset type `Long`.

### Where the code decides

- `initReader` catches the failure of `open` and closes the half-opened reader. If that close itself throws, the assignment that clears the reader is skipped. The handle then keeps the half-opened reader and the fields the failed open had already assigned, and every later `initReader` does nothing. `StoreFile.HStoreFile.InitReader` states this case. The scenario `StoreFileScenarios.FailedOpenKeepsReaderWhenCloseFails` walks through it. A failed open leaves the reader cleared only when the close succeeds.
- `closeStoreFile` asks the reader to close before clearing it. When the close throws, the reader stays in place.
- A fresh handle keeps sequence id -1 when the file has no MAX_SEQ_ID_KEY and its name has no `SeqId_` marker, but only when the file is not a bulk-load result. A file marked as bulk-loaded only by its bulk-load timestamp takes the skip-reset increment as well, so with the skip-reset flag set it opens with id 0. `OpenProperties.FreshBulkOpenWithoutSeqId` states this case.

### Assumptions about code that is not part of this model

- `Bytes.toLong` reads the first eight bytes as a big-endian two's-complement number. It throws on fewer than eight bytes.
- `Bytes.toBoolean` throws unless the array is exactly one byte long. It reads "not zero".
- `Bytes.toBytes(boolean)` writes one byte, 255 for true and 0 for false.
- `TimeRangeTracker.getTimeRange` is a parameter of the open. It may decode a range or nothing, throw `IllegalArgumentException` (caught by the open), or fail otherwise (which stops the open).
- A new reader has no time range.
- Metadata keys are written with `Bytes.toBytes(String)` from ASCII names. They are modelled by those names.

## Model

| member | source | states |
|---|---|---|
| Bytes.Inc | hbase-server/src/main/java/org/apache/hadoop/hbase/regionserver/HStoreFile.java:368-370 | `+= 1` on a long is congruent to adding one modulo 2^64, and increases the value unless it is Long.MAX_VALUE |
| Bytes.ToLong | hbase-server/src/main/java/org/apache/hadoop/hbase/regionserver/HStoreFile.java:367 | decoding a stored long succeeds exactly when the value has at least eight bytes |
| Bytes.BigEndianRoundTrip | hbase-server/src/main/java/org/apache/hadoop/hbase/regionserver/HStoreFile.java:367 | writing a number that fits on k bytes big-endian and reading it back gives the number |
| Bytes.LongRoundTrip | hbase-server/src/main/java/org/apache/hadoop/hbase/regionserver/HStoreFile.java:367 | every long survives encoding to eight bytes and decoding |
| Bytes.ToBoolean | hbase-server/src/main/java/org/apache/hadoop/hbase/regionserver/HStoreFile.java:409 | decoding a stored boolean succeeds exactly on a one-byte value, and gives true exactly when that byte is not zero |
| Bytes.BooleanRoundTrip | hbase-server/src/main/java/org/apache/hadoop/hbase/regionserver/HStoreFile.java:409 | every boolean survives encoding and decoding |
| JavaStrings.IndexOf | hbase-server/src/main/java/org/apache/hadoop/hbase/regionserver/HStoreFile.java:381 | the result is -1 or an occurrence at or after the start index, and no occurrence lies between the start index and the result |
| JavaStrings.LastIndexOf | hbase-server/src/main/java/org/apache/hadoop/hbase/regionserver/HStoreFile.java:378 | the result is -1 or an occurrence with no later one, and it is -1 exactly when the pattern does not occur |
| JavaStrings.Substring | hbase-server/src/main/java/org/apache/hadoop/hbase/regionserver/HStoreFile.java:380-381 | taking a substring succeeds exactly when 0 <= begin <= end <= length, and then yields the characters between the indices |
| JavaStrings.ParseLong | hbase-server/src/main/java/org/apache/hadoop/hbase/regionserver/HStoreFile.java:380 | parsing fails with a number-format error on its input, and succeeds only on a non-empty string whose characters after the first are all digits and whose last character is a digit, so a lone sign fails |
| JavaStrings.DecimalStringValue | hbase-server/src/main/java/org/apache/hadoop/hbase/regionserver/HStoreFile.java:380 | the decimal spelling of a natural number reads back as that number |
| JavaStrings.ParseDecimalString | hbase-server/src/main/java/org/apache/hadoop/hbase/regionserver/HStoreFile.java:380 | parsing the decimal spelling of a non-negative long gives that long |
| JavaStrings.ParseNegativeDecimalString | hbase-server/src/main/java/org/apache/hadoop/hbase/regionserver/HStoreFile.java:380 | a minus sign followed by the spelling of n parses to -n, down to Long.MIN_VALUE |
| JavaStrings.ParseRejectsNonDigit | hbase-server/src/main/java/org/apache/hadoop/hbase/regionserver/HStoreFile.java:380 | a non-digit after the optional sign makes the parse fail |
| JavaStrings.ParseRejectsOverflow | hbase-server/src/main/java/org/apache/hadoop/hbase/regionserver/HStoreFile.java:380 | digits whose value exceeds Long.MAX_VALUE make the parse fail |
| JavaStrings.ParsePlusDecimalString | hbase-server/src/main/java/org/apache/hadoop/hbase/regionserver/HStoreFile.java:380 | a plus sign followed by the spelling of a non-negative long parses to that long |
| JavaStrings.ParseRejectsPlusOverflow | hbase-server/src/main/java/org/apache/hadoop/hbase/regionserver/HStoreFile.java:380 | a plus sign followed by digits whose value is above Long.MAX_VALUE makes the parse fail |
| JavaStrings.ParseRejectsUnderflow | hbase-server/src/main/java/org/apache/hadoop/hbase/regionserver/HStoreFile.java:380 | a minus sign followed by digits whose value is below Long.MIN_VALUE makes the parse fail |
| StoreFileMeta.EffectiveBloomType | hbase-server/src/main/java/org/apache/hadoop/hbase/regionserver/HStoreFile.java:228-234 | the handle's Bloom type is NONE exactly when general Bloom filters are disabled or the family asks for none, and is otherwise the family's type |
| StoreFileMeta.BloomBlocksToLoad | hbase-server/src/main/java/org/apache/hadoop/hbase/regionserver/HStoreFile.java:424-439 | the general Bloom block is loaded exactly when the family's type is not NONE, and then once; the delete-family block is always loaded, last |
| StoreFileMeta.BloomLoadEvents | hbase-server/src/main/java/org/apache/hadoop/hbase/regionserver/HStoreFile.java:424-439 | the reader receives one Bloom load per block to load, in order |
| StoreFileMeta.IsSkipResetSeqId | hbase-server/src/main/java/org/apache/hadoop/hbase/regionserver/HStoreFile.java:569-574 | the skip-reset flag holds exactly when the value is present, one byte long and non-zero |
| StoreFileMeta.IsBulkLoadResult | hbase-server/src/main/java/org/apache/hadoop/hbase/regionserver/HStoreFile.java:299-307 | a file is a bulk-load result exactly when its name contains `SeqId_` or its loaded metadata has a bulk-load timestamp |
| StoreFileMeta.SeqIdFromFileName | hbase-server/src/main/java/org/apache/hadoop/hbase/regionserver/HStoreFile.java:376-386 | a file name yields no id exactly when it lacks the marker |
| StoreFileMeta.SeqIdFromMetadata | hbase-server/src/main/java/org/apache/hadoop/hbase/regionserver/HStoreFile.java:360-371 | without MAX_SEQ_ID_KEY the id keeps its prior value, and the step fails exactly when the stored value is shorter than eight bytes |
| StoreFileMeta.BulkLoadSeqId | hbase-server/src/main/java/org/apache/hadoop/hbase/regionserver/HStoreFile.java:373-399 | the bulk-load step fails exactly when reading the id out of the file name fails |
| StoreFileMeta.AdjustForTopHalf | hbase-server/src/main/java/org/apache/hadoop/hbase/regionserver/HStoreFile.java:368-370 | a top half takes the successor id (wrapping at Long.MAX_VALUE), any other file keeps its id |
| StoreFileMeta.DeriveSeqId | hbase-server/src/main/java/org/apache/hadoop/hbase/regionserver/HStoreFile.java:360-399 | deriving the id fails exactly when the metadata id fails to decode or, on the bulk-load path, the file-name id fails; off that path it is the metadata id |
| StoreFileMeta.SequenceIdEvents | hbase-server/src/main/java/org/apache/hadoop/hbase/regionserver/HStoreFile.java:397-400 | on the bulk-load path the reader is first told the skip flag's value, true or false, and then marked bulk-loaded; off that path it gets neither; the sequence id comes last |
| StoreFileMeta.MaxMemstoreTs | hbase-server/src/main/java/org/apache/hadoop/hbase/regionserver/HStoreFile.java:402-405 | without its key the memstore timestamp keeps its prior value; with it the step fails exactly on a value shorter than eight bytes and otherwise gives the stored long |
| StoreFileMeta.MajorCompactionFlag | hbase-server/src/main/java/org/apache/hadoop/hbase/regionserver/HStoreFile.java:407-419 | the flag is true exactly when the key is present and decodes true, and the step fails exactly when the value is not one byte long |
| StoreFileMeta.ExcludeFromMinorFlag | hbase-server/src/main/java/org/apache/hadoop/hbase/regionserver/HStoreFile.java:421-422 | exclusion holds exactly when the key is present and decodes true, and the step fails exactly when the value is not one byte long |
| StoreFileMeta.TimeRangeAfter | hbase-server/src/main/java/org/apache/hadoop/hbase/regionserver/HStoreFile.java:441-447 | a malformed time range is read as absent, a decoded one is kept, and only other failures stop the open |
| StoreFileMeta.OpenSpec | hbase-server/src/main/java/org/apache/hadoop/hbase/regionserver/HStoreFile.java:347-452 | an open creates a reader exactly when the file system opens one; it fails as such when it does not, or when the file info does not load; a successful open holds the loaded metadata and the key snapshot, and a failed one sets no time range and no keys |
| StoreFileMeta.SeqIdStep | hbase-server/src/main/java/org/apache/hadoop/hbase/regionserver/HStoreFile.java:360-400 | the sequence-id stage changes only the id, and calls the reader, ending with the id, exactly when it succeeds |
| StoreFileMeta.SeqIdStage | hbase-server/src/main/java/org/apache/hadoop/hbase/regionserver/HStoreFile.java:357-452 | once the file info is loaded a reader exists and the metadata stays; success records the key snapshot, and a failure keeps the prior keys and sets no time range |
| StoreFileMeta.CompactionStage | hbase-server/src/main/java/org/apache/hadoop/hbase/regionserver/HStoreFile.java:402-452 | the stages after the id keep the id and metadata, and a success adds exactly the Bloom loads to the reader's calls |
| StoreFileMeta.TimeRangeStage | hbase-server/src/main/java/org/apache/hadoop/hbase/regionserver/HStoreFile.java:441-451 | the time-range stage fails exactly when the decoder fails other than by IllegalArgumentException, and otherwise records the key snapshot |
| OpenProperties.LastMarkerAt | hbase-server/src/main/java/org/apache/hadoop/hbase/regionserver/HStoreFile.java:377-378 | a marker followed by text free of the marker is the last marker, whatever precedes it |
| OpenProperties.DigitsThenUnderscoreLackMarker | hbase-server/src/main/java/org/apache/hadoop/hbase/regionserver/HStoreFile.java:375-378 | digits, '_' and marker-free text contain no marker |
| OpenProperties.DigitsThenUnderscore | hbase-server/src/main/java/org/apache/hadoop/hbase/regionserver/HStoreFile.java:380-381 | in digits followed by '_' and marker-free text, the first '_' ends the digits and no marker occurs |
| OpenProperties.UnderscoreAt | hbase-server/src/main/java/org/apache/hadoop/hbase/regionserver/HStoreFile.java:381 | searching for '_' from the marker's end finds the first '_' after it |
| OpenProperties.FileNameSeqIdFromLastMarker | hbase-server/src/main/java/org/apache/hadoop/hbase/regionserver/HStoreFile.java:375-381 | a name `p + "SeqId_" + digits + "_" + t` with no later marker yields the number the digits spell, whatever p holds |
| OpenProperties.SeqIdFromFileNameAt | hbase-server/src/main/java/org/apache/hadoop/hbase/regionserver/HStoreFile.java:378-381 | once the last marker and the next '_' are located, the id is whatever the text between them parses to |
| OpenProperties.UnderscoreAfterMarker | hbase-server/src/main/java/org/apache/hadoop/hbase/regionserver/HStoreFile.java:381 | the first '_' after the marker is the first '_' of the text that follows it |
| OpenProperties.SegmentAfterMarker | hbase-server/src/main/java/org/apache/hadoop/hbase/regionserver/HStoreFile.java:378-381 | after the last marker, the id is what the characters up to the next '_' parse to |
| OpenProperties.ParseDigits | hbase-server/src/main/java/org/apache/hadoop/hbase/regionserver/HStoreFile.java:380 | a non-empty run of digits that fits in a long parses to its value |
| OpenProperties.FileNameSeqIdWithoutTerminator | hbase-server/src/main/java/org/apache/hadoop/hbase/regionserver/HStoreFile.java:380-381 | with no '_' after the last marker the substring fails with end index -1, so the open fails |
| OpenProperties.FileNameSeqIdNotANumber | hbase-server/src/main/java/org/apache/hadoop/hbase/regionserver/HStoreFile.java:380 | when the text after the last marker is not a long, the open fails with a number-format error on that text |
| OpenProperties.FileNameSeqIdLoneSign | hbase-server/src/main/java/org/apache/hadoop/hbase/regionserver/HStoreFile.java:380-381 | a name such as `x_SeqId_-_`, whose segment after the marker is only a sign, fails to open with a number-format error on that sign |
| OpenProperties.NoMarkerWithoutS | hbase-server/src/main/java/org/apache/hadoop/hbase/regionserver/HStoreFile.java:301-302 | a name without the letter 'S' carries no marker |
| OpenProperties.SeqIdFromMetadataKey | hbase-server/src/main/java/org/apache/hadoop/hbase/regionserver/HStoreFile.java:360-371 | outside the bulk-load path the id is the stored long, plus one (with long wrap-around) exactly for a top half |
| OpenProperties.SeqIdKeepsPriorWithoutKey | hbase-server/src/main/java/org/apache/hadoop/hbase/regionserver/HStoreFile.java:360-371 | without MAX_SEQ_ID_KEY and outside the bulk-load path the id keeps its prior value |
| OpenProperties.SeqIdFromFileNameOverrides | hbase-server/src/main/java/org/apache/hadoop/hbase/regionserver/HStoreFile.java:373-396 | on a marked name the id from the last marker replaces any metadata id, plus one for a top half and one more for the skip-reset flag |
| OpenProperties.SkipResetAddsOne | hbase-server/src/main/java/org/apache/hadoop/hbase/regionserver/HStoreFile.java:387-396 | on the bulk-load path the skip-reset flag yields the successor of the id the file would get without it |
| OpenProperties.SkipResetIgnoredUnlessBulk | hbase-server/src/main/java/org/apache/hadoop/hbase/regionserver/HStoreFile.java:373-399 | off the bulk-load path the skip-reset flag changes nothing |
| OpenProperties.BulkLoadTimeKeepsMetadataId | hbase-server/src/main/java/org/apache/hadoop/hbase/regionserver/HStoreFile.java:360-396 | a bulk-load result whose name has no marker takes the id MAX_SEQ_ID_KEY gives, or keeps its prior id when the key is absent, and then takes the skip-reset increment |
| OpenProperties.BulkLoadTimeWithStoredId | hbase-server/src/main/java/org/apache/hadoop/hbase/regionserver/HStoreFile.java:360-396 | with MAX_SEQ_ID_KEY present, such a file takes the stored id, plus one for a top half and one more for the skip-reset flag |
| OpenProperties.SeqIdStepDerives | hbase-server/src/main/java/org/apache/hadoop/hbase/regionserver/HStoreFile.java:360-400 | the sequence-id stage succeeds exactly when `DeriveSeqId` does and then holds its id; a failing file-name parse leaves the metadata id |
| OpenProperties.CompactionStageEvents | hbase-server/src/main/java/org/apache/hadoop/hbase/regionserver/HStoreFile.java:402-447 | after the sequence id the reader receives the Bloom loads or nothing more |
| OpenProperties.SeqIdStageEvents | hbase-server/src/main/java/org/apache/hadoop/hbase/regionserver/HStoreFile.java:360-447 | whatever happens after the file info is loaded, the reader's calls are a prefix of those a successful open makes |
| OpenProperties.CompactionStageSucceeds | hbase-server/src/main/java/org/apache/hadoop/hbase/regionserver/HStoreFile.java:402-451 | the steps after the sequence id succeed exactly when each of their decodings does, and then fix the fields, the reader calls and the time range |
| OpenProperties.SeqIdStageSucceeds | hbase-server/src/main/java/org/apache/hadoop/hbase/regionserver/HStoreFile.java:360-451 | from the loaded metadata on, the open succeeds exactly when the id and every later step do |
| OpenProperties.OpenSucceeds | hbase-server/src/main/java/org/apache/hadoop/hbase/regionserver/HStoreFile.java:347-452 | an open succeeds exactly when the file info loads and every decoding succeeds, and it then sets each field to its decoded value and makes the stated reader calls |
| OpenProperties.FreshOpenWithoutSeqIdIsUnset | hbase-server/src/main/java/org/apache/hadoop/hbase/regionserver/HStoreFile.java:360-400 | a fresh handle on a file with neither MAX_SEQ_ID_KEY nor a bulk-load mark keeps sequence id -1 |
| OpenProperties.FreshBulkOpenWithoutSeqId | hbase-server/src/main/java/org/apache/hadoop/hbase/regionserver/HStoreFile.java:360-400 | a fresh handle on a timestamp-only bulk-load result without MAX_SEQ_ID_KEY opens with id 0 when the skip-reset flag is set and -1 otherwise, whatever the later steps of the open do |
| OpenProperties.CompactionFlagsAfterOpen | hbase-server/src/main/java/org/apache/hadoop/hbase/regionserver/HStoreFile.java:407-422 | after an open the major-compaction flag is set: the stored boolean, or false without the key; exclusion needs the key present and true |
| OpenProperties.ReaderCallsOnOpen | hbase-server/src/main/java/org/apache/hadoop/hbase/regionserver/HStoreFile.java:397-439 | a successful open loads the general Bloom block exactly when the family's type is not NONE, always loads the delete-family block, marks the reader bulk-loaded only on the bulk-load path, passes it a skip flag exactly on that path and then with the flag's value (false included), and passes it the sequence id |
| OpenProperties.SuccessfulOpenCalls | hbase-server/src/main/java/org/apache/hadoop/hbase/regionserver/HStoreFile.java:397-439 | the same facts, read off the call sequence of a successful open |
| OpenProperties.DisabledBloomLoadsNoGeneralBlock | hbase-server/src/main/java/org/apache/hadoop/hbase/regionserver/HStoreFile.java:425-426 | with general Bloom filters disabled, no open, successful or not, loads the general Bloom block |
| OpenProperties.FileBloomTypeIrrelevant | hbase-server/src/main/java/org/apache/hadoop/hbase/regionserver/HStoreFile.java:424-436 | the file's own Bloom type never changes the outcome of an open; a mismatch is only logged |
| OpenProperties.MalformedTimeRangeIsAbsent | hbase-server/src/main/java/org/apache/hadoop/hbase/regionserver/HStoreFile.java:441-447 | an open with a malformed time range has the same outcome as one whose range is absent, and leaves no time range |
| OpenProperties.CompactionStageIgnoresMalformedRange | hbase-server/src/main/java/org/apache/hadoop/hbase/regionserver/HStoreFile.java:441-447 | the steps after the sequence id give the same outcome for a malformed time range as for an absent one, with no time range |
| OpenProperties.BulkLoadedNameScenario | hbase-server/src/main/java/org/apache/hadoop/hbase/regionserver/HStoreFile.java:373-386 | `abc_SeqId_42_` with empty metadata opens as a bulk-load result with id 42 |
| OpenProperties.TopHalfScenario | hbase-server/src/main/java/org/apache/hadoop/hbase/regionserver/HStoreFile.java:360-371 | a top half whose MAX_SEQ_ID_KEY holds 10 opens with id 11 |
| StoreFile.StoreFileReader.LoadFileInfo | hbase-server/src/main/java/org/apache/hadoop/hbase/regionserver/HStoreFile.java:357 | the file info is what the file holds, or nothing when loading it fails |
| StoreFile.StoreFileReader.SetSkipResetSeqId | hbase-server/src/main/java/org/apache/hadoop/hbase/regionserver/HStoreFile.java:397 | the call is appended to the reader's log |
| StoreFile.StoreFileReader.SetBulkLoaded | hbase-server/src/main/java/org/apache/hadoop/hbase/regionserver/HStoreFile.java:398 | the call is appended to the reader's log |
| StoreFile.StoreFileReader.SetSequenceID | hbase-server/src/main/java/org/apache/hadoop/hbase/regionserver/HStoreFile.java:400 | the call is appended to the reader's log |
| StoreFile.StoreFileReader.LoadBloomfilter | hbase-server/src/main/java/org/apache/hadoop/hbase/regionserver/HStoreFile.java:424-439 | the block load is appended to the reader's log |
| StoreFile.StoreFileReader.Close | hbase-server/src/main/java/org/apache/hadoop/hbase/regionserver/HStoreFile.java:518 | the close, with its eviction flag, is appended to the reader's log |
| StoreFile.HStoreFile.constructor | hbase-server/src/main/java/org/apache/hadoop/hbase/regionserver/HStoreFile.java:221-239 | a new handle has no reader, sequence and memstore ids -1, no major-compaction flag, no references, and the Bloom type forced to NONE when general Bloom filters are disabled |
| StoreFile.HStoreFile.PrimaryRequest | hbase-server/src/main/java/org/apache/hadoop/hbase/regionserver/HStoreFile.java:353-354 | the reader is opened without drop-behind, with the last argument true (the primary reader, where a stream reader passes false), with readahead 0 exactly when readahead is disabled and -1 otherwise |
| StoreFile.HStoreFile.EvictOnClose | hbase-server/src/main/java/org/apache/hadoop/hbase/regionserver/HStoreFile.java:463 | blocks are evicted on close as the cache configuration says, and always when there is no cache |
| StoreFile.HStoreFile.Open | hbase-server/src/main/java/org/apache/hadoop/hbase/regionserver/HStoreFile.java:347-452 | on a handle with a reader the open fails as already open and changes nothing; otherwise the fields, the new reader's calls and time range, and the error are exactly those `OpenSpec` gives, including the partial state of a failed open |
| StoreFile.HStoreFile.LoadSequenceId | hbase-server/src/main/java/org/apache/hadoop/hbase/regionserver/HStoreFile.java:360-400 | the sequence-id steps leave the id, the reader calls and the error `SeqIdStep` gives |
| StoreFile.HStoreFile.LoadBulkLoadSequenceId | hbase-server/src/main/java/org/apache/hadoop/hbase/regionserver/HStoreFile.java:373-399 | the bulk-load steps set the id `BulkLoadSeqId` gives and pass the skip and bulk-load flags, or fail leaving the id unchanged |
| StoreFile.HStoreFile.LoadAfterSequenceId | hbase-server/src/main/java/org/apache/hadoop/hbase/regionserver/HStoreFile.java:402-451 | the steps after the sequence id leave the fields, reader calls, time range and error `CompactionStage` gives |
| StoreFile.HStoreFile.LoadCompactionFields | hbase-server/src/main/java/org/apache/hadoop/hbase/regionserver/HStoreFile.java:402-422 | the memstore timestamp and the two compaction flags are assigned in order, each failure keeping the earlier assignments |
| StoreFile.HStoreFile.LoadBloomFilters | hbase-server/src/main/java/org/apache/hadoop/hbase/regionserver/HStoreFile.java:424-439 | the reader receives exactly the Bloom loads for the handle's Bloom type |
| StoreFile.HStoreFile.LoadTimeRange | hbase-server/src/main/java/org/apache/hadoop/hbase/regionserver/HStoreFile.java:441-447 | the reader's time range becomes the decoded one, or absent when malformed; any other failure stops the open and leaves it unchanged |
| StoreFile.HStoreFile.InitReader | hbase-server/src/main/java/org/apache/hadoop/hbase/regionserver/HStoreFile.java:457-471 | with a reader present nothing happens; otherwise the open's outcome and error are kept, a failed open closes the reader it created with the cache's eviction setting, and the reader is cleared unless that close throws |
| StoreFile.HStoreFile.CloseStoreFile | hbase-server/src/main/java/org/apache/hadoop/hbase/regionserver/HStoreFile.java:516-521 | closing without a reader does nothing; otherwise the reader is closed once and cleared, unless the close throws |
| StoreFile.HStoreFile.DeleteStoreFile | hbase-server/src/main/java/org/apache/hadoop/hbase/regionserver/HStoreFile.java:527-531 | the file is closed with the cache's eviction setting and then deleted; a failed close stops the delete |
| StoreFile.HStoreFile.MarkCompactedAway | hbase-server/src/main/java/org/apache/hadoop/hbase/regionserver/HStoreFile.java:533-535 | the file is marked compacted away |
| StoreFile.HStoreFile.AcquireReference | hbase-server/src/main/java/org/apache/hadoop/hbase/regionserver/HStoreFile.java:118 | a scanner's reference adds one to the count |
| StoreFile.HStoreFile.ReleaseReference | hbase-server/src/main/java/org/apache/hadoop/hbase/regionserver/HStoreFile.java:321-325 | only a held reference can be released, and releasing it subtracts one, so the count never goes negative |
| StoreFile.HStoreFile.IsReferencedInReads | hbase-server/src/main/java/org/apache/hadoop/hbase/regionserver/HStoreFile.java:321-325 | a file is in use exactly while some scanner holds a reference |
| StoreFile.HStoreFile.IsMajorCompactionResult | hbase-server/src/main/java/org/apache/hadoop/hbase/regionserver/HStoreFile.java:267-272 | asking before any open has set the flag fails; afterwards the answer is the flag |
| StoreFile.HStoreFile.IsBulkLoadResult | hbase-server/src/main/java/org/apache/hadoop/hbase/regionserver/HStoreFile.java:299-307 | the handle is a bulk-load result exactly when its name contains the marker or its loaded metadata has a bulk-load timestamp |
| StoreFile.HStoreFile.GetBulkLoadTimestamp | hbase-server/src/main/java/org/apache/hadoop/hbase/regionserver/HStoreFile.java:328-332 | fails without loaded metadata or on a value shorter than eight bytes, is empty exactly when the key is absent, and otherwise returns the stored long |
| StoreFile.HStoreFile.GetMetadataValue | hbase-server/src/main/java/org/apache/hadoop/hbase/regionserver/HStoreFile.java:294-296 | fails without loaded metadata, and otherwise gives the stored value exactly when the key is present |
| StoreFile.HStoreFile.GetMinimumTimestamp | hbase-server/src/main/java/org/apache/hadoop/hbase/regionserver/HStoreFile.java:577-580 | fails without a reader, is empty exactly when the reader has no time range, and otherwise is the range's minimum |
| StoreFile.HStoreFile.GetMaximumTimestamp | hbase-server/src/main/java/org/apache/hadoop/hbase/regionserver/HStoreFile.java:583-586 | fails without a reader, is empty exactly when the reader has no time range, and otherwise is the range's maximum |

## Left out

- The reader internals are not part of this model: `fileInfo.open`, `loadFileInfo`, `loadBloomfilter`, the key accessors and the reader's close. A reader is the contents the file system delivers plus a log of calls, and whether it opens, loads and closes is given as a parameter.
- `getPreadScanner`, `getStreamScanner` and `createStreamReader` are left out. They create scanners and secondary readers inside reader code this model does not have. The scanners' effect on the shared reference count is modelled by `AcquireReference` and `ReleaseReference`.
- `getQualifiedPath`, `getModificationTimeStamp`, `getHDFSBlockDistribution`, `getPath`, `getFileInfo`, `isHFile` and `isReference` are left out. They delegate to the file system or to `StoreFileInfo`. The top-half flag and the file name are constructor parameters.
- The file-system delete's own failure is left out. `DeleteStoreFile` takes the delete as always succeeding once the close has.
- `volatile`, `synchronized`, `AtomicInteger` and `AtomicBoolean` are left out. The model is sequential, and the counter is a natural number.
- Logging, `toString` and `toStringDetailed` are left out; they are presentation only.
- Configuration lookups are left out: the no-readahead and Bloom-enabled settings are constructor parameters. The path-taking constructor, which only builds a `StoreFileInfo`, is left out too.
- The simple getters `getMaxSequenceId`, `excludeFromMinorCompaction`, `getMaxMemStoreTS`, `getFirstKey`, `getLastKey`, `getComparator`, `getCacheConf`, `isCompactedAway`, `getRefCount` and `getReader` are not separate members; they are the class's fields.
- The metadata keys `BLOOM_FILTER_TYPE`, `DELETE_FAMILY_COUNT`, `LAST_BLOOM_KEY`, `EARLIEST_PUT_TS`, `MOB_CELLS_COUNT` and `BULKLOAD_SOURCE_TASK` are not read by the handle and are left out.
- JavaStrings.ParseLong: accepts only ASCII digits; `Long.parseLong` also accepts digits from other Unicode scripts, which a file name written by HBase does not contain.
- `Bytes.toLong`, `Bytes.toBoolean` and `TimeRangeTracker.getTimeRange` are not part of this model. The first two are modelled by the stated assumptions. The third is a parameter.
