# RocketDB, modelled in Dafny

RocketDB is a key-value store built as a log-structured merge tree. Writes go to a log and to an in-memory skip list.
Full memtables are flushed to sorted tables, tables are compacted level by level, and reads and iterators see the
newest version of each key at a snapshot. This project models the parts that have to agree with one another and proves
that they do:

- **Versioned reads** - `Cursor`, `VisibleMap`, `Merger`, `DbIter`, `TwoLevel`, `Block`, `SkipList`, `SkipListLaws`,
  `Scan`: each cursor, with its reseek, skip-seek and direction-switch shortcuts, shows what a plain index into a sorted
  list shows, and the database iterator over the merging iterator over a reader's layers walks the map of the write
  history.
- **Dropping versions** - `Reads`, `Dropping`, `Files`, `Compactor`, `Lookup`, `Store`, `VersionSet`, `Outputs`,
  `StoreMachine`, `StoreLaws`, `VersionBuilder`: over every run of writes, snapshots, switches, flushes, compactions and
  moves, every read is the read of the full write history at its sequence. `StoreRun` is one such run.
- **Writing and recovering** - `WriteQueue`, `Batch`, `Wal`, `Recovery`, each with its laws beside it (`WriteQueueLaws`,
  `BatchLaws`, `WalLaws`, `RecoveryLaws`), and `Durability`: group commit, log framing with a torn tail, and the log,
  MANIFEST and file-deletion protocol, with the entries each log and table holds, across flushes, compactions, moves,
  errors and crashes. `RecoveryRun` is a run that has all of these.
- **Byte formats with search** - `Coding`, `Block`, `Bloom`, `FilterBlock`, `Table`: round trips, and a lookup that finds
  its entry behind shortened separators and filters.
- **The block cache** - `HandleTable`, `LruCache`: hash chains, two circular lists and reference counts.

A user key is a real number, its rank: `Bytewise.RankEmbedsOrder` shows that the bytewise comparator is the order of such
ranks. Where bytes matter (logs, batches, blocks, filters, separators) keys are byte strings. Concurrency is modelled as
steps between the points where the mutex is given up, or single loads and stores for the skip list. The file
system, clocks, hash functions, CRC tables and size heuristics are parameters or nondeterministic choices.

The `Laws` modules state from the actions alone what a machine holds and answers (what was written, taken, released,
started or failed), and what a reader accepts of any bytes at all.

Every method of a class requires and keeps the class's `Ok`, so a row about one operation speaks of every run of them. The
longest of these is the cache's: the hash table holds exactly the cached entries, the LRU list those with one reference
and the in-use list those with more, the charge is the sum of theirs, references are the handles clients hold plus the
cache's own, and every entry ever made is live or was freed once.

Places where the code is not what its comments say, each stated as a contract or a lemma:

- `AddBoundaryInputs` starts from the largest key of the whole level and so never adds a file (`VersionSet.AddBoundaryInputs`).
  A compaction therefore leaves no older version of an input key behind exactly when neither level's cut splits a user key
  (`VersionSet.PickedClosedIff`), and `Outputs.UncleanCutUncovers` is a cut by which a compaction and a move both bring a deleted value back. The store
  machine starts compactions and moves that SetupOtherInputs would pick and whose cuts are clean.
- A flush installed while a compaction runs may land between the inputs' files in the output level, where an output may
  overlap it (`Outputs.FlushBetweenInputs`). Every way of cutting the outputs keeps the level in order exactly when the
  kept entries do not lie on both sides of the flushed table (`Outputs.FlushedApartIff`), which is sure when it was placed
  in another level or misses the span of the inputs (`Outputs.OutsideHullIff`). One given cut keeps it in order exactly
  when it splits at the table (`Outputs.ApartIffSplit`); that is the condition under which the store machine installs.
- With the bound at the largest sequence number the drop rule keeps nothing, because that number also stands for "no
  version of this key seen yet" (`Compactor.DoCompactionWork`). That is right exactly when the newest version of every key
  is a deletion with nothing deeper (`Compactor.NothingKeptIff`); otherwise a read is lost (`Compactor.LargestBoundLoses`).
  The machines install compactions with a smaller bound only.
- The merging iterator's branch for equal keys of two children (`Merger.OtherChildKeys`) and the database iterator's check
  for an exhausted list after turning around are never taken on distinct keys.

## Model

| member | source | states |
|---|---|---|
| Bytewise.RankEmbedsOrder | src/util/comparator.cc:23-25 | The bytewise order on strings is the order of their base-257 ranks, and ranks tell strings apart |
| DbIterator.Session | src/db/db_iter.cc:137-424 | Over any merging iterator, and for every snapshot, skip threshold and mix of operations, the iterator shows what a plain cursor over the snapshot's visible map of the merged list shows, to the first Next or Prev off the end |
| DbIterator.ThresholdInvisible | src/db/db_iter.cc:172-391 | Two sessions that obey the plain cursor are equal, so every reseek threshold shows a client the same |
| DbIterator.DbIter.Next | src/db/db_iter.cc:137-170 | From a shown key, in either direction, moves to the first visible key after it |
| DbIterator.DbIter.FindNextUserEntry | src/db/db_iter.cc:172-240 | The forward scan, stepping or reseeking, ends at the first position that yields a visible value past the skipped key |
| DbIterator.DbIter.Prev | src/db/db_iter.cc:242-277 | From a shown key, in either direction, moves to the last visible key before it |
| DbIterator.DbIter.SeekBeforeUserKey | src/db/db_iter.cc:279-289 | Leaves the list at the last entry below the user key |
| DbIterator.DbIter.FindValueForCurrentKeyUsingSeek | src/db/db_iter.cc:291-318 | Says whether the key is present at the snapshot and, if so, saves the value that shows |
| DbIterator.DbIter.FindPrevUserEntry | src/db/db_iter.cc:320-391 | The backward scan ends with the last visible key below the start saved, whether it stepped or sought |
| DbIterator.DbIter.Seek | src/db/db_iter.cc:393-404 | Shows the first visible key not below the target |
| DbIterator.DbIter.SeekToFirst | src/db/db_iter.cc:406-415 | Shows the first visible key |
| DbIterator.DbIter.SeekToLast | src/db/db_iter.cc:417-424 | Shows the last visible key |
| VisibleMap.RunUnique | src/db/db_iter.cc:137-424 | The plain cursor is deterministic: two runs of the same operations show the same spots |
| Merger.Session | src/table/merger.cc:25-153 | For any number of children with distinct keys and any mix of operations, the merging iterator shows what one cursor on the sorted union shows |
| Merger.MergeExists | src/table/merger.cc:25-153 | Sorted lists with distinct keys have such a sorted union |
| Merger.MergingIterator.Next | src/table/merger.cc:49-67 | Moves one on in the union, also when the children last stood for going back |
| Merger.MergingIterator.Prev | src/table/merger.cc:69-89 | Moves one back in the union, also when the children last stood for going forward |
| Merger.MergingIterator.Seek | src/table/merger.cc:41-47 | Stands at the first union entry not before the target |
| Merger.MergingIterator.FindSmallest | src/table/merger.cc:125-138 | With every child at the union's cut, the current child stands on the union entry after the cut |
| Merger.MergingIterator.FindLargest | src/table/merger.cc:140-153 | With every child before the union's cut, the current child stands on the union entry before the cut |
| Merger.OtherChildKeys | src/table/merger.cc:52-61 | No other child holds the current key, so the equal-key step is never taken |
| Dropping.BuildTable | src/db/builder.cc:34-69 | The table is the memtable without the versions hidden at the bound, or all of it when there is no bound |
| Dropping.PruneSafe | src/db/builder.cc:34-69 | Pruning at a bound changes no read at any snapshot at or above it, whatever other entries the store has |
| Dropping.CompactSafe | src/db/db_impl.cc:954-981 | Dropping hidden versions and base-level deletions changes no read at or above the bound, for inputs with nothing older beside them |
| Dropping.KeptAreNewer | src/db/db_impl.cc:954-981 | When the version read at a sequence at or above the bound is dropped, every version of its key that is kept is too new to be read there |
| Dropping.CompactedSorted | src/db/db_impl.cc:917-1016 | The kept entries stay in order |
| Compactor.ShouldDrop | src/db/db_impl.cc:948-981 | Drops exactly if the key's version before it is at or below the bound, or it is a deletion at or below the bound of a key no deeper file covers |
| Compactor.DoCompactionWork | src/db/db_impl.cc:917-1016 | Wherever output files are cut, together they hold exactly what the drop rule keeps, in order; with the bound at the largest sequence number they hold nothing |
| Compactor.NothingKeptIff | src/db/db_impl.cc:954-962 | At the largest bound the drop rule keeps nothing if and only if the newest version of every key is a deletion that no deeper file covers |
| Compactor.LargestBoundLoses | src/db/db_impl.cc:954-962 | A value the drop rule keeps at the largest bound, and that is read with it and not without it |
| Files.FindFile | src/db/version_set.cc:81-96 | Binary search gives the first file whose largest key is not before the key |
| Files.OverlapInLevel | src/db/version_set.cc:108-137 | True exactly if some file's user-key range meets the range, for sorted disjoint levels and for level 0 |
| Files.Compaction.IsBaseLevelForKey | src/db/version_set.cc:1383-1400 | For user keys that do not descend, the advancing pointers answer as a full scan of all deeper levels, although an early return leaves some behind |
| Lookup.RunGet | src/db/memtable.cc:98-127 | One seek in a sorted run finds the newest version of the key at the sequence, if there is one |
| Lookup.Level0Get | src/db/version_set.cc:254-274 | Searching covering files from newest to oldest finds the newest version in level 0 |
| Lookup.LevelGet | src/db/version_set.cc:276-292 | The one file the search picks holds the newest version of the level, if any file does |
| Lookup.VersionGet | src/db/version_set.cc:295-371 | The hit is what the first level with a readable version finds; in a layered version that is the newest version of the whole |
| Lookup.Get | src/db/db_impl.cc:1126-1169 | Memtable, then immutable memtable, then version: the value that shows at the sequence among all of them |
| Store.HistoryShows | src/db/db_impl.cc:1126-1169 | The value the write history gives at a sequence is the one that shows among the history's entries |
| StoreMachine.EveryReadIsHistory | src/db/db_impl.cc:1126-1197 | In every state of every run, each reader's layers, and the current ones at every live snapshot, show exactly what the write history gives at that sequence; which snapshots and readers those are is in `StoreLaws` |
| StoreLaws.SnapshotReads | src/db/db_impl.cc:1189-1197 | In every run, a snapshot taken at some step and not released since can be read at any later step, and every key then has the value it had when the snapshot was taken, whatever was written, flushed, compacted or released in between |
| StoreLaws.SnapshotsAreHeld | src/db/snapshot.h:48-76 | The snapshots held are, with multiplicity, those at the start and the last sequence at each taking, less exactly those released |
| StoreLaws.ReaderReads | src/db/db_impl.cc:1126-1180 | In every run, a read begun at some step and not ended gives every key the value it had at the read's sequence when it began |
| StoreLaws.HistoryIsWritten | src/db/db_impl.cc:1230-1263 | The history is the batches begun and committed, in order, and the last sequence counts their entries |
| StoreLaws.FlushMovesExactly | src/db/db_impl.cc:493-576 | In every run, a flush adds to the version exactly those entries of the memtable that no newer one of their key at or below the bound hides, the bound being the least sequence that could be asked for when it began |
| StoreLaws.CompactionKeepsExactly | src/db/db_impl.cc:900-1011 | In every run, a compaction puts in its inputs' place exactly those of their entries that no newer one of their key at or below the bound of its start hides, but for deletions at or below it with no file of a deeper level over their key |
| StoreMachine.BoundIsOk | src/db/db_impl.cc:544-545 | The bound a job captures is the least of the sequences anyone may read at |
| StoreMachine.ReadThrough | src/db/db_impl.cc:1126-1169 | The store's own search code through any reader's layers returns the history's answer |
| StoreMachine.RunKeeps | src/db/db_impl.cc:532-576 | Every state of a run has the invariant: layers ordered by age, levels disjoint, jobs' bounds at or below every live snapshot, all reads faithful |
| StoreMachine.StepKeeps | src/db/db_impl.cc:532-576 | Each step keeps the invariant, whatever happened between capturing a bound and installing |
| StoreMachine.InsertOneKeeps | src/db/db_impl.cc:1237-1252 | Keeps the invariant: inserting an entry not yet published changes no live or pinned read |
| StoreMachine.CommitKeeps | src/db/db_impl.cc:1253-1261 | Keeps the invariant: the batch enters the history and is read at the new last sequence, older reads stay |
| StoreMachine.SwitchKeeps | src/db/db_impl.cc:1376-1404 | Keeps the invariant: a memtable switch changes no read |
| StoreMachine.SnapshotKeeps | src/db/db_impl.cc:1189-1192 | Keeps the invariant: a snapshot taken while jobs run is not below their bounds; that the step takes it is in StoreLaws.SnapshotsAreHeld |
| StoreMachine.ReleaseKeeps | src/db/snapshot.h:62-76 | Keeps the invariant: releasing any snapshot leaves the others sorted and served |
| StoreMachine.InstallFlushKeeps | src/db/db_impl.cc:532-576 | Keeps the invariant: replacing the immutable memtable by its pruned table, at any level it may be placed, changes no live read and keeps the layering, also during a compaction |
| StoreMachine.InstallCompactionKeeps | src/db/db_impl.cc:878-894 | Keeps the invariant: replacing the inputs by any cut of the kept entries that splits at tables flushed meanwhile changes no live read and keeps levels disjoint and layered; outputs may be numbered before those tables |
| StoreMachine.MoveFileKeeps | src/db/db_impl.cc:739-755 | Keeps the invariant: moving a picked file one level down changes no read |
| StoreMachine.EmptyStoreOk | src/db/db_impl.cc:176-210 | A new store satisfies the invariant |
| StoreMachine.GuardsHold | src/db/db_impl.cc:493-530 | What the steps' guards ask of versions, tables and files holds in every state with the invariant, so they exclude no run; the pruned table is sorted |
| StoreMachine.NeverStuck | src/db/db_impl.cc:532-576 | In every state with the invariant a write can insert its next entry and a flush can install its table |
| StoreRun.WorkRuns | src/db/db_impl.cc:532-576 | A run of the machine from a new store in which a write is flushed to level 0, compacted to level 1 and read |
| Scan.ChildrenMerge | src/db/db_impl.cc:1090-1113 | The iterators collected for a view, over memtables, level-0 files and whole deeper levels, are sorted, share no key, and together are the view's layers |
| Scan.ScanThrough | src/db/db_impl.cc:1171-1180 | Any session of the database iterator over the merging iterator over cursors on any reader's layers walks, forward and back and at any skip threshold, the map the write history gives at the reader's sequence |
| VersionSet.PickLevelForMemTableOutput | src/db/version_set.cc:434-458 | The deepest level up to 2 the rules allow: no file from level 0 down to it meets the table's range and no level above it overlaps too much below, and if it is not 2, then level 0 or the next level meets the range or the overlap below is too large |
| VersionSet.PickedLevelPlaceable | src/db/version_set.cc:434-458 | So the machine may install the table there |
| VersionSet.GetOverlappingInputs | src/db/version_set.cc:460-497 | Above level 0 the files meeting the range; at level 0 it ends, with the files of the least span around the range that no file straddles |
| VersionSet.AddBoundaryInputs | src/db/version_set.cc:1210-1261 | Returns its input: the code as written adds no file |
| VersionSet.GetRange | src/db/version_set.cc:1100-1118 | The least smallest and the greatest largest key, which span the files' user keys |
| VersionSet.SetupOtherInputs | src/db/version_set.cc:1263-1318 | Expanded or not, the second inputs are exactly the next level's files that meet the first, and the files first picked stay inputs; they are expanded, to all the files around both inputs, exactly if the sizes allow it and that adds files of the level and none of the next |
| VersionSet.PickedCloses | src/db/version_set.cc:1263-1318 | Inputs so picked, at level 0 or deeper, with clean cuts leave no older version of their keys behind in the two levels |
| VersionSet.LeftOutSide | src/db/version_set.cc:1263-1318 | A next-level file left out lies wholly on one side of everything taken and shares no user key with the first inputs |
| VersionSet.OutputsApart | src/db/version_set.cc:1263-1318 | Outputs built from the inputs overlap no file left in their level |
| VersionSet.ClosedIffCleanCut | src/db/version_set.cc:1242-1261 | Above level 0, taking files leaves no older version behind if and only if no user key is split between a taken file and a later one left |
| VersionSet.PickedClosedIff | src/db/version_set.cc:1242-1318 | A picked compaction above level 0 leaves nothing older behind in its two levels if and only if both cuts are clean |
| VersionSet.Level0Closed | src/db/version_set.cc:460-497 | A level-0 selection nothing straddles leaves nothing older behind |
| Outputs.UncleanCutUncovers | src/db/version_set.cc:1242-1261 | A seven-level version and a file picked alone by an unclean cut: compacting it drops its deletion, moving it puts the deletion below, and by either the search then answers with the older value |
| Outputs.ApartIffSplit | src/db/db_impl.cc:878-894 | The outputs of a cut are apart from a file clear of the list if and only if some cut between outputs, or an end of them, falls where the file is |
| Outputs.EveryCutSplitsIff | src/db/db_impl.cc:939-1011 | Every cut of a sorted list splits at such a file if and only if the list does not lie on both sides of it |
| Outputs.FlushedApartIff | src/db/db_impl.cc:925-935 | For every job and every table a flush may place in its output level: all cuts of the kept entries are apart from the table if and only if they do not lie on both sides of it |
| Outputs.OutsideHullIff | src/db/db_impl.cc:925-935 | The table misses the user-key span of all inputs if and only if they do not lie on both sides of it, and then neither do the kept entries |
| Outputs.LeftApartFrom | src/db/db_impl.cc:878-894 | Outputs that split at every table flushed into their level since the inputs were picked are apart from every file left there |
| Outputs.FlushBetweenInputs | src/db/db_impl.cc:925-935 | A job that picks cleanly and drops nothing, a table the flush may place at its output level, and the one output that overlaps it there |
| VersionBuilder.Builder.Apply | src/db/version_set.cc:557-597 | Deletions gain the edit's and lose the numbers it adds; additions are the old ones and the edit's files, each there itself or by an equivalent one |
| VersionBuilder.Merge | src/db/version_set.cc:599-638 | Base and added files merge in key order, less the deleted, none lost or doubled |
| VersionBuilder.Builder.SaveTo | src/db/version_set.cc:599-652 | Each level is sorted by smallest key and is exactly base plus added minus deleted |
| VersionBuilder.Replay | src/db/version_set.cc:847-916 | All edits through one builder on an empty base give each level the files that installing them one by one gives |
| VersionBuilder.Install | src/db/version_set.cc:743-748 | One edit through a builder on the current version gives each level its files less the deleted and with the added, in order |
| VersionBuilder.InstallEach | src/db/version_set.cc:728-808 | So does one builder per edit, each on the version before, for any number of edits |
| VersionBuilder.ReplayRebuilds | src/db/version_set.cc:810-916 | Replaying all edits through one builder rebuilds, file for file, the version the process had by a builder per edit |
| SkipList.SearchReturnsLeast | src/db/skiplist.h:198-215 | Whatever a writer stores between any two of its loads, a search that returns has the least linked key not below its target as of its last load |
| SkipList.SearchEnds | src/db/skiplist.h:198-215 | A search takes at most twelve turns and one more per linked node, whatever the writer does |
| SkipList.RunKeeps | src/db/skiplist.h:266-288 | In every state of every run from the empty list each level is a sorted list within the one below, also between the store of the height, a node's own pointer and its predecessor's, with a new node's pointers arbitrary until stored |
| SkipList.StepKeeps | src/db/skiplist.h:266-288 | Each single store and each load keeps that |
| SkipList.SearchStopsBelow | src/db/skiplist.h:217-254 | The node a search for a key or for the end stands on when it ends has the greatest linked key below the target, or of all, as of its last load; the head if there is none |
| SkipList.NeverStuck | src/db/skiplist.h:198-288 | In every state that keeps the invariant a search may start, a running search may take its next turn, and a writer's next store is defined |
| SkipList.FindGreaterOrEqual | src/db/skiplist.h:198-215 | Alone, it returns the least key not below the target and, for a new key, the predecessors with which Insert may begin at any height |
| SkipListLaws.SearchFindsInserted | src/db/skiplist.h:198-288 | In every run, a search that returns gives the least key not below what it was started with among all keys whose insertion was begun by its last load, but for one not yet published; Null exactly if there is none |
| SkipListLaws.LinkedAreInserted | src/db/skiplist.h:266-288 | The linked keys are exactly the keys whose insertion was begun, less the one whose node is not yet published |
| SkipListLaws.InsertedOnAllLevels | src/db/skiplist.h:280-287 | Every node but the one being linked is on all of its levels and on no other |
| SkipListLaws.TargetsStay | src/db/skiplist.h:198-254 | The searches are those started, each looking for what it was started with |
| Coding.FixedRoundTrip | src/util/coding.h:40-71 | A 32-bit word decodes to itself whatever follows |
| Coding.VarintRoundTrip | src/util/coding.cc:83-97 | A varint takes at most five bytes and decodes to its value and length whatever follows |
| Coding.VarintEnds | src/util/coding.cc:83-97 | Bytes decode as a 32-bit varint exactly if one of the first five is below 128 |
| Coding.ExtendConcat | src/util/crc32c.h:12-15 | Extending the checksum of A by B is the checksum of A followed by B, for any byte step |
| Coding.MaskRoundTrip | src/util/crc32c.h:24-34 | Unmasking undoes masking |
| Wal.Writer.AddRecord | src/wal/log_writer.cc:31-73 | Appends exactly the record's padded, checksummed fragments, a function of the file's length alone |
| Wal.Writer.Resume | src/wal/log_writer.cc:25-27 | A writer over an existing file starts in the block its length ends in |
| Wal.LogAppend | src/wal/log_writer.cc:25-27 | A record appended by the first writer or by one resumed at the file's length gives the log of the longer list |
| Wal.Reader.ReadPhysicalRecord | src/wal/log_reader.cc:166-234 | Buffered block reading finds the next physical record, end or bad record of the file, and counts what it reports; what these are in terms of the writer's bytes is in WalLaws.DecodeExact |
| Wal.Reader.ReadRecord | src/wal/log_reader.cc:52-152 | Reassembly returns the next logical record, or the end, on any file, with the number of corruptions reported |
| Wal.RecordWhole | src/wal/log_reader.cc:52-152 | A record wholly in the file is returned, across any number of blocks, with nothing reported |
| Wal.RecordCut | src/wal/log_reader.cc:196-214 | A record the file's end cuts at any byte reads as the end of the log, with nothing reported |
| Wal.TornTail | src/wal/log_reader.cc:52-234 | A log cut anywhere gives back exactly the records that end within the cut, then the end, and no corruption |
| Wal.WholeThenAnything | src/wal/log_reader.cc:52-234 | Whatever follows them in the file, whole records are read first, and then what reading from their end gives |
| Wal.CutExists | src/wal/log_reader.cc:52-234 | Every list of records and every cut has such a count of whole records |
| Wal.ReadLog | src/db/db_impl.cc:404-408 | The reading loop returns what reading to the end is defined to be |
| WalLaws.DecodeExact | src/wal/log_reader.cc:189-234 | On any bytes: a fragment exactly if they are the frame the writer makes of that type and payload, checksum and all; otherwise one corruption, none for zeros, and the end of the log for a length beyond the last block |
| WalLaws.FragmentIsFrame | src/wal/log_reader.cc:166-234 | A fragment found in any file is a frame of the writer's at or after the position, with less than a header's room before it |
| WalLaws.RecordIsFrames | src/wal/log_reader.cc:52-152 | Any record returned from any file is what one FULL frame, or a FIRST, any MIDDLEs and a LAST, one after the other in the file, carry |
| WalLaws.EveryRecordIsFrames | src/wal/log_reader.cc:52-152 | So is every record that reading a whole file gives |
| WalLaws.LossReported | src/wal/log_reader.cc:60-148 | A bad frame, a piece without its beginning, one without its end and a frame of unknown type are each reported |
| WalLaws.FrameBytes | src/wal/log_writer.cc:75-95 | The bytes of a frame: the checksum rotated by 15 bits and moved by 0xa282ead8, and the length, low bytes first, the type, the payload |
| WalLaws.RecordTypes | src/wal/log_writer.cc:31-73 | A record that fits in the first block is one frame of type 1; one that fills three has frames of types 2, 3 and 4 |
| Block.EntryRoundTrip | src/table/block.cc:42-62 | An entry decodes to its three lengths whatever follows, by the one-byte shortcut or the loop |
| Block.FastIsSlow | src/table/block.cc:48-56 | The one-byte shortcut decodes what the varint loop decodes |
| Block.Builder.Add | src/table/block_builder.cc:41-70 | The block holds one more pair, sharing the longest prefix with the last key, or none at a restart point every interval entries |
| Block.Builder.Finish | src/table/block_builder.cc:32-39 | The finished bytes hold the pairs, the restart points and their number |
| Block.OpenFinished | src/table/block.cc:21-34 | A finished block opens at the restart array it was given |
| Block.Iter.Next | src/table/block.cc:85-88 | Moves to the next pair |
| Block.Iter.Prev | src/table/block.cc:90-108 | Moves to the pair before, scanning from a restart point, or off the front |
| Block.Iter.Seek | src/table/block.cc:110-158 | From any position, with the skip-seek shortcut or without, stands at the first key not below the target |
| Block.Iter.SeekToFirst | src/table/block.cc:160-163 | Stands at the first pair |
| Block.Iter.SeekToLast | src/table/block.cc:165-170 | Stands at the last pair |
| Block.Iter.ParseNextKey | src/table/block.cc:205-230 | Decodes the pair at the next offset from the key so far and settles the restart index, or reports the end |
| Block.Session | src/table/block.cc:64-243 | For every sorted list, restart interval and mix of operations, what the iterator shows on the built block is what a plain cursor shows on the list |
| Recovery.NothingLost | src/db/db_impl.cc:221-576 | In every state of every run of switches, flushes, compactions, moves, deletions, errors, crashes and reopenings: the MANIFEST's tables are on disk and, with the logs it does not cover, hold the current value of every key logged and show exactly what the logged history shows; so do the live version's tables with the logs from LogNumber on |
| Recovery.OnlyGarbageDeleted | src/db/db_impl.cc:221-282 | Nothing listed for deletion is in a referenced version, pending, in the MANIFEST's version or an uncovered log, and no new table takes a name in use; which versions are referenced is in RecoveryLaws.ReferencedStays |
| RecoveryLaws.ReferencedStays | src/db/db_impl.cc:1090-1124 | In every run, while more references to a version were taken, at states where it was current, than dropped since the last opening, its tables are on disk and not listed for deletion |
| RecoveryLaws.CompactionPins | src/db/db_impl.cc:739-770 | Until it ends, a compaction has the inputs it began with, and the tables of the version it began from are on disk and not listed for deletion |
| RecoveryLaws.CollectionComplete | src/db/db_impl.cc:221-282 | Opening, and without an error installing a flush or a compaction, lists for deletion exactly the tables on disk that are neither pending nor in a referenced version, and the logs before LogNumber |
| RecoveryLaws.ErrorIffFailed | src/db/db_impl.cc:662-668 | The process is in error exactly if a step since it was opened failed |
| RecoveryLaws.HistoryIsLogged | src/db/db_impl.cc:1237-1241 | The history is exactly what was appended to logs, over all crashes |
| RecoveryLaws.Reopens | src/db/db_impl.cc:284-371 | From every state of the invariant, a crash can be followed by a recovery that opens the database, which then reads as the history |
| Recovery.Level0Bounded | src/db/db_impl.cc:1327-1408 | From an opening on, level-0 files and a pending memtable together number at most eight or the count at open |
| RecoveryRun.WorkRuns | src/db/db_impl.cc:221-282 | A run from a new database that installs a flush and deletes the log, installs a compaction and deletes the table, fails a move with its record written, and crashes |
| Durability.ReopenedReads | src/db/db_impl.cc:284-371 | After every run the database, open or reopened from its disk, gives each key the value the history of everything logged gives |
| Durability.HistoryList | src/db/db_impl.cc:1230-1263 | Everything logged can be listed in the order it was written |
| Durability.PremiseHolds | src/db/db_impl.cc:954-981 | What Recovery asks of a compaction's inputs holds of every compaction the store machine has under way |
| Durability.SyncedSurvive | src/db/db_impl.cc:1237-1263 | After any interleaving of writers, a log cut no earlier than its last sync gives back the record of every sync writer that got OK, made of the batches of the writers answered for it |
| Recovery.StepKeeps | src/db/version_set.cc:728-808 | Every step keeps the invariant: what the tables and logs on disk hold, memory, MANIFEST, references and garbage agree |
| Recovery.InstallFlushKeeps | src/db/db_impl.cc:554-572 | Keeps the invariant: the version with the table of what pruning keeps, and the logs from the next memtable's on, read as the history |
| Recovery.InstallCompactionKeeps | src/db/db_impl.cc:762-770 | Keeps the invariant: the version with the outputs in the place of the inputs, also after a flush in its midst, reads as the history and has every table on disk |
| Recovery.InstallMoveKeeps | src/db/db_impl.cc:739-755 | Keeps the invariant: a table moved down a level stays referenced and on disk |
| Recovery.FinishFlushKeeps | src/db/db_impl.cc:493-530 | Keeps the invariant: the table made holds the newest version of every key of the memtable, and overwrites no table a version needs |
| Recovery.FinishCompactionKeeps | src/db/db_impl.cc:878-894 | Keeps the invariant, for outputs that hold what the drop rule keeps of the inputs, also when the MANIFEST is ahead of the process after a failed flush |
| Recovery.RecoverManifestKeeps | src/db/db_impl.cc:1591-1595 | Keeps the invariant: what was replayed is in the tables made or in the log kept, so the new record reads as the history |
| Recovery.FailInstallKeeps | src/db/version_set.cc:757-790 | Keeps the invariant: after a failed MANIFEST write of a flush, with the record written or not, the disk recovers, because deletion stops |
| Recovery.OpenKeeps | src/db/db_impl.cc:1570-1608 | Keeps the invariant: opening after recovery, with a new or a reused log, reads as the history from the version and the memtable |
| WriteQueue.GroupCommit | src/db/db_impl.cc:1207-1282 | In every interleaving: each writer is answered once, in order of arrival; the log holds the taken batches once each, in order, each record exactly those of the writers answered for it, under ascending sequence numbers without gap unless a record failed; whoever got OK is logged, and synced if it asked |
| WriteQueueLaws.OkUnlessFailed | src/db/db_impl.cc:1237-1282 | In every interleaving, a writer whose group was logged is told OK exactly unless the sync of that record, which is then the last, failed |
| WriteQueueLaws.OkIffInserted | src/db/db_impl.cc:1237-1282 | At any time, a writer told OK has its updates in the memtable under consecutive numbers of its record; if one with a record was not, no number of that record is in the memtable |
| WriteQueueLaws.NothingFailed | src/db/db_impl.cc:1207-1282 | If no append, sync or making of room failed, every writer answered was told OK |
| WriteQueueLaws.FromActions | src/db/db_impl.cc:1207-1282 | The writers are those that arrived, later writes are refused exactly after a failed sync, and numbers are skipped exactly after a failed append |
| WriteQueueLaws.NeverStuck | src/db/db_impl.cc:1207-1282 | While a writer waits a step is possible, and without a failed sync one that is no failure; every step but an arrival brings the end nearer |
| WriteQueue.BuildBatchGroup | src/db/db_impl.cc:1284-1325 | The group is the front of the queue the size and sync rules allow, and its batch is their updates in order |
| WriteQueue.Group | src/db/db_impl.cc:1284-1325 | A group is a nonempty front of the queue and has no sync writer behind a leader that does not sync |
| WriteQueue.GroupIsLongest | src/db/db_impl.cc:1284-1325 | The group's bytes stay within 128 KiB more than its first batch, or 1 MiB if that has over 128 KiB, or are its first batch alone; and the next writer is left out only because it would sync when the leader does not or would pass the limit |
| WriteQueue.RecoverLogFile | src/db/db_impl.cc:404-448 | A log of groups cut at any byte restores a prefix of whole groups under the sequence numbers they were written with, and the largest of these |
| Batch.ReplayRoundTrip | src/db/write_batch.cc:35-72 | What a batch encodes is what it replays |
| Batch.HeaderRoundTrip | src/db/write_batch.cc:74-88 | Sequence, count and records read back from the bytes |
| BatchLaws.AcceptedEncodes | src/db/write_batch.cc:35-72 | Any bytes accepted are, one after the other, those of the updates they give: tag 1, key and value, or tag 0 and key, each after a varint of its length |
| BatchLaws.EncodedAccepted | src/db/write_batch.cc:35-72 | All such bytes are accepted, and give those updates |
| Batch.HeaderBytes | src/db/write_batch.cc:74-88 | Eight bytes of sequence and four of count, low bytes first |
| Batch.UpdateBytes | src/db/write_batch.cc:90-101 | The bytes of a put and of a deletion with short key and value |
| Batch.WriteBatch.SetSequence | src/db/write_batch.cc:86-88 | Changes the sequence and no update |
| Batch.WriteBatch.PutUpdate | src/db/write_batch.cc:90-95 | The batch has one more put |
| Batch.WriteBatch.DeleteKey | src/db/write_batch.cc:97-101 | The batch has one more deletion |
| Batch.WriteBatch.Append | src/db/write_batch.cc:137-141 | The batch's updates are followed by the other's |
| Batch.Iterate | src/db/write_batch.cc:35-72 | On any bytes, hands on the updates up to the end or the first malformed one, and is content only if they were well formed and as many as the header says |
| Batch.InsertInto | src/db/write_batch.cc:107-130 | The memtable gets them under consecutive sequence numbers |
| HandleTable.HandleTable.Lookup | src/util/cache.cc:49-51 | Finds the key's handle exactly if the table has it |
| HandleTable.HandleTable.Insert | src/util/cache.cc:53-65 | Maps the key to the new handle and returns the one it replaces, chains and all |
| HandleTable.HandleTable.Remove | src/util/cache.cc:67-75 | Unmaps the key and returns its handle |
| HandleTable.HandleTable.Resize | src/util/cache.cc:87-112 | Rehashing loses no handle and doubles none |
| LruCache.LRUCache.Insert | src/util/cache.cc:228-261 | The new entry replaces the key's; then, oldest first, entries without handles go until the charge fits or none is left, and no further: before the last went the charge did not fit; every held handle stays |
| LruCache.LRUCache.Lookup | src/util/cache.cc:214-221 | A handle on the cached entry, if any, and one reference more |
| LruCache.LRUCache.Release | src/util/cache.cc:223-226 | The entry is freed exactly if this was its last handle and it is no longer cached |
| LruCache.LRUCache.Erase | src/util/cache.cc:274-277 | The key is gone from the cache; its entry lives on while handles remain |
| LruCache.LRUCache.Prune | src/util/cache.cc:279-289 | Exactly entries without handles are dropped, until none is left |
| LruCache.LRUCache.Ref | src/util/cache.cc:181-187 | One reference more; the entry moves to the in-use list if it was evictable |
| LruCache.LRUCache.Unref | src/util/cache.cc:189-200 | One reference less: the last frees the entry, once, and the last but the cache's makes it evictable |
| LruCache.LRUCache.FinishErase | src/util/cache.cc:263-272 | The entry leaves its list, the cache and the charge; it is freed if nobody holds it |
| LruCache.RingRemove | src/util/cache.cc:202-205 | Unlinking a node leaves the circle of the others |
| LruCache.RingAppend | src/util/cache.cc:207-212 | Linking a node before the head puts it last in the circle |
| Bloom.CreateFilter | src/util/bloom.cc:26-51 | Appends a filter of the size asked for whose bits set are exactly those the keys' rounds select, for any bits per key; so it matches every one of the keys, and another key exactly if each of its bits is one of theirs |
| Bloom.KeyMayMatch | src/util/bloom.cc:53-74 | Answers yes exactly if every probed bit is set, or the encoding is unknown |
| FilterBlock.Builder.Finish | src/table/filter_block.cc:32-46 | In the finished bytes a key may match at an offset exactly if the filter of the keys added in the same 2 KiB of offsets matches it, or the offset is beyond them all; so every key added may match at its block |
| FilterBlock.BlockExact | src/table/filter_block.cc:18-97 | Across builder, offset array and reader: the answer at an offset is that of its group's filter |
| FilterBlock.Builder.StartBlock | src/table/filter_block.cc:18-24 | Closes filters up to the block's own and keeps every key in the filter of its block |
| FilterBlock.KeyMayMatch | src/table/filter_block.cc:83-97 | Reads the offset array as the builder lays it out and asks that filter |
| Table.FindShortestSeparator | src/util/comparator.cc:27-46 | Start itself, unless it first differs from limit by more than one; then a string strictly between them, and no string from start up to limit is shorter |
| Table.FindShortSuccessor | src/util/comparator.cc:48-57 | A string not below the key than which none not below the key is shorter; the key itself exactly if all its bytes are 0xff |
| Table.InternalSeparator | src/db/dbformat.cc:62-73 | An internal key from start on and before limit; start itself exactly unless the user keys first differ by more than one at a byte that is not start's last; then with the largest tag and a user key strictly between theirs, than which none from start up to limit is shorter |
| Table.SeparatorNotShortest | src/util/comparator.cc:27-46 | Two keys between which a shorter one lies and for which start is kept |
| Table.InternalSuccessor | src/db/dbformat.cc:75-84 | An internal key not before the given one: the key itself exactly unless some shorter user key is greater; then with such a user key, none shorter, and the largest tag |
| Table.TableBuilder.Add | src/table/table_builder.cc:89-120 | One more entry; blocks, index separators and the filter's keys stay in step wherever blocks are cut |
| Table.TableBuilder.Finish | src/table/table_builder.cc:199-251 | The finished index separates all blocks and the filter may match every entry at its block |
| Table.InternalGet | src/table/table.cc:202-228 | Whenever the table has an entry of the user key at or before the sequence, the newest such entry is delivered, despite shortened separators and the filter; nothing of a block whose filter rejects the key is |
| TwoLevel.Session | src/table/two_level_iterator.cc:71-147 | Any mix of operations shows what one cursor over all of the table's entries shows |
| TwoLevel.TwoLevelIterator.Seek | src/table/two_level_iterator.cc:71-76 | Stands at the first entry not before the target, also when the index leads to a block that ends before it |
| TwoLevel.TwoLevelIterator.Next | src/table/two_level_iterator.cc:92-96 | Moves one entry on, into the next block if need be |
| TwoLevel.TwoLevelIterator.Prev | src/table/two_level_iterator.cc:98-102 | Moves one entry back, into the block before if need be |
| TwoLevel.TwoLevelIterator.InitDataBlock | src/table/two_level_iterator.cc:133-147 | The data cursor is over the index cursor's block, made anew or kept |
| TwoLevel.TwoLevelIterator.SkipEmptyDataBlocksForward | src/table/two_level_iterator.cc:109-119 | From an exhausted block to the first entry of the next, or off the end |
| TwoLevel.TwoLevelIterator.SkipEmptyDataBlocksBackward | src/table/two_level_iterator.cc:121-131 | From before a block to the last entry of the block before, or off the front |

## Left out

- Choosing compactions (Finalize, PickCompaction, seek counts, sizes): which files are picked is nondeterministic; only the closing of the choice is modelled.
- I/O errors inside a single append, unparseable internal keys, and corrupt tables and blocks.
- Compression, block trailers, footers and the metaindex block; a block's handle is its offset in `Table`, and block bytes are the business of `Block`.
- Reading a log from a nonzero initial offset; every caller starts at zero.
- MANIFEST records as bytes and CURRENT; `VersionBuilder` replays well-formed edits and `Recovery` takes the MANIFEST as what its records add up to.
- Descriptor and temporary files in garbage collection; only logs and tables are modelled.
- A machine crash that loses unsynced data: `Recovery` crashes the process, and `Wal` cuts the log.
- A log append that fails half way and is followed by more records: in `WriteQueue` a failed append leaves nothing behind. `Wal.WholeThenAnything` says what is read before such a place; what is read after it depends on bytes taken for headers, since the writer's block offset goes on as if the record were whole.
- SkipList's Contains and iterator, which are one search or one load each; loads and stores are atomic and seen in order.
- Scan.ScanThrough: a session runs against one state of the store; writes between two of its steps are newer than its sequence but are not interleaved here.
- Recovery.FinishCompactionKeeps: that nothing older lies beside the inputs is a guard of the step, which `Durability.PremiseHolds` derives from the store machine's invariant; reads are those at the latest sequence, since snapshots do not outlive the process.
- StoreMachine.InstallCompactionKeeps: runs in which a compaction's cut splits a user key, its outputs do not split at a table flushed meanwhile, or its bound is the largest sequence number are not runs of the machine; in those the code does lose order or reads, as the lemmas named above show.
- Compactor.DoCompactionWork: where ShouldStopBefore and the file size cut the outputs is left open, so the claim holds for every cut; Table.TableBuilder.Add likewise for data blocks.
- Cache sharding and statistics, which only pick one of sixteen independent caches and count.
- SnapshotList's links: snapshots are an ascending list in `StoreMachine`, from which any may be removed; that New appends the newest is the last sequence being the largest.
- HandleTable.HandleTable.Resize: handles are numbers and their fields maps, so freed memory is not modelled; a bucket index is the hash modulo the table length, which is the masking of the source for its power-of-two lengths.
- WriteQueue.RecoverLogFile: flushes of a memtable that grows too large during recovery are in `Recovery`, not here.
- VersionBuilder.Replay: requires that a file number names one file throughout, as the file counter provides; VersionBuilder.InstallEach also that no edit adds a number its level still holds.
- Block.Session: speaks of blocks smaller than 4 GiB, the range of their 32-bit offsets; FilterBlock.Builder.Finish likewise.
- Repair, dump tools, benchmarks, the C interface and GetProperty: reporting and wrappers.
