# FreeToken, modelled and proved

This project models six parts of FreeToken and proves what they are for.

- **The FTW checkpoint format** (`ftw_*.dfy`). One logical byte region is sliced into shard files; an
  index names the entries and the shards. The two writers, the reader, the bank loader, the validator
  and the repair tool are modelled with their loops, buffers and files. A directory (`FtwDisk.FtwDir`)
  records the state after every create, append, delete and index swap, so a statement about its trace
  is a statement about every crash.
- **The serve supervisor** (`supervisor*.dfy`). A state machine whose steps are the regions run under
  the state lock, the blocking calls and the exits of engines. One client holds the lifecycle lock,
  each generation has a monitor, automatic restarts queue; all interleave. The log of events carries
  the claims about whole runs.
- **The accounting outbox** (`outbox.dfy`). Files are whole documents or torn writes; every fault and
  every crash point inside a persist is a case.
- **The log ring and the log stream** (`log_ring.dfy`, `log_stream.dfy`). Appends, queue callbacks and
  turns of the generator interleave freely.
- **The pooled sparse-attention index** (`pooled_*.dfy`, `pool_selection.dfy`). Keys, scores and the
  pooling are abstract: a pooled row is the list of keys it pools.
- **The cache budget** (`cache_budget.dfy`).

Read first: `FtwCompactor.CompactInPlace`, `FtwPatch.PatchInPlace`, `FtwRerun`, `FtwPages.RunPasses`,
`FtwBanks.WriteThenRead`, `SupervisorRuns`, `SupervisorRecord`, `LogStreams.FramesCover`,
`Outbox.RunRefines`, `PooledStore.ChunkingInvariant`, `PoolSelection.SelectedMeans`.

## Assumptions

- A write reaches the disk in the order it was made, and an index replace is one atomic step; a crash
  keeps a prefix of the steps. File and directory syncs are therefore not steps of the model.
- Shard files are identified by the number in their name, whose five-digit format is injective.
- Shard limits are positive whole pages and shards lie on pages, as both writers make them.
  The validator checks neither that nor that a file serves one shard only: `FtwPages.RunPasses` says exactly
  when a compaction gets by without.
- A child's `wait` returns only after its exit, generations are unique, and recording and watching a
  child do not raise.
- Log callbacks run in the order of the record numbers (one appender).
- Tokens of a forward have slots of their own, not those of a cached prefix (`PooledStore.TurnOk`), which the page
  allocator gives.
- A direct read that comes back short stops at a page boundary or at the end of the file.

## Where code and promise differ

- `shard_numbers` sees only five-digit names. `FtwRepair.NextIsFree` says exactly when the numbers of a run are
  free, `FtwRepair.OpenedIsSafe` exactly when taking them does no harm.
- The tool's documentation says that an interrupted run is finished by running the same command again.
  `FtwRerun.ResumeAfterCrash` says when: if no shard has a number the second run takes, which
  `FtwRerun.FinishAfterCrash` shows of every run that stays below number 100000. A run that does not can leave
  a checkpoint on which the second one destroys an entry (`FtwRerun.CutShort`, `FtwRerun.RerunCanDestroy`);
  so does every compaction that takes the number of a clean shard (`FtwRoom.WindowDestroys`).
- The tool repairs what its validator passes. Of a checkpoint whose shards meet inside a page it can write an
  index that the validator refuses, so that a run cut short there exits when it is run again
  (`FtwPages.UnalignedPasses`); of a file that serves two shards it deletes the second one's bytes
  (`FtwPages.SharedIsLost`). `FtwPages.RunPasses` gives the exact condition for both.
- A run that finds nothing to do returns before it removes stray files, so a crash between the last index swap
  and the deletion leaves a file for good; `FtwPatch.PatchInPlace` says exactly which stray files go. Those of
  six digits never do, unless they are written over.
- The stream's comment promises no gap and no duplicate across replay and tail. `LogStreams.FramesCover`
  says exactly when that holds: `wait_for` before Python 3.12 fetches the record in a task of its own,
  and an overflow in between makes the gap frame overtake or count the record (`LogStreams.CanBreak`).
  Records that never existed are declared lost exactly for negative cursors (`LogStreams.GapOfNothing`),
  and a cursor ahead of the ring is ignored (`LogStreams.AheadIsIgnored`).
- A crash receipt that fails sets the stop latch, but a client start that is merely answered clears it
  again (`SupervisorGaps.RestartWithoutReceipt`; `SupervisorRuns.RestartAfterReceipt` and
  `SupervisorRuns.RestartIsQueued` say when). An error that is not the outbox's own ends the monitor
  thread (`SupervisorRuns.MonitorDies`) and wedges the supervisor (`SupervisorRuns.CrashedForEver`).
- The pid file can lose the current child (`SupervisorGaps.RecordCanBeLost`);
  `SupervisorRecord.RecordedWhileChild` says exactly when it does not, and
  `SupervisorRecord.RestartIsSafe` what that decides when the daemon restarts.
- The second overlap test of the cache plan never fires (`CacheBudget.SecondLookIsIdle`).
- The reader's comment calls direct I/O always legal. It is, for every piece, exactly if chunks are whole
  pages or the piece fits one (`FtwReader.CutJobs`, `FtwReader.UnevenChunks`). A range across a shard that ends
  off the page grid cannot be read at all (`FtwReader.UnevenMissing`).
- The supervisor keeps the set of accounted generations in memory. After a restart an engine that was taken
  over can get a crash receipt on top of another: `SupervisorReceipts.ReceiptsSurvive` says exactly when none
  does.
- A layer number of six digits is written into an entry's name but not read back
  (`FtwBanks.LayerNameReads`).

## Model

| member | source | states |
|---|---|---|
| `FtwFormat.SortShardsSorts` | scripts/ftw_hotfix.py:451 | the list sorted by offset is in order, and a list that is in order stays as it is |
| `FtwFormat.SortShardsMembers` | scripts/ftw_hotfix.py:451 | sorting loses no shard and adds none |
| `FtwFormat.TilesOrder` | scripts/ftw_hotfix.py:246-256 | shards that tile a region lie in it one behind the other |
| `FtwFormat.RegionAtShard` | python/freetoken/checkpoint/ftw.py:292-310 | each shard file is exactly its slice of the one logical byte region |
| `FtwDisk.UnreferencedIsInvisible` | scripts/ftw_hotfix.py:421-426 | files the index does not name change neither whether a checkpoint loads nor what it says |
| `FtwDisk.FtwDir.ReplaceIndex` | scripts/ftw_hotfix.py:410-418 | the index is replaced in one step, the shard files stay |
| `FtwLive.LiveRanges` | scripts/ftw_hotfix.py:430-445 | the ranges are disjoint, apart, ascending, and cover exactly the bytes of the shard that some padded block owns |
| `FtwLive.MergeSorted` | scripts/ftw_hotfix.py:439-444 | merging touching neighbours gives separated ranges that cover the same bytes |
| `FtwLive.SumIsLiveCount` | scripts/ftw_hotfix.py:454 | the summed range lengths are the number of live bytes |
| `FtwLive.RemapCountsLive` | scripts/ftw_hotfix.py:489-500 | the bisection over the range table moves every offset, parked zero-byte ones included, to the count of live bytes below it |
| `FtwCompact.RemapMonotone` | scripts/ftw_hotfix.py:502-509 | the offset map keeps order and never stretches a distance |
| `FtwCompact.RemapOnto` | scripts/ftw_hotfix.py:495-500 | every byte of the rewritten shard comes from a live byte of the old one |
| `FtwCompact.MovedBlock` | scripts/ftw_hotfix.py:502-509 | a padded block moves as one, also when it straddles shards |
| `FtwCompact.MovedDisjoint` | scripts/ftw_hotfix.py:502-509 | moved blocks stay disjoint |
| `FtwCompact.RemapAligned` | scripts/ftw_hotfix.py:495-500 | moved offsets stay on pages |
| `FtwCompact.LiveCountMoved` | scripts/ftw_hotfix.py:502-518 | the live bytes of every other shard are as many as before, after the step |
| `FtwCompact.MovedContent` | scripts/ftw_hotfix.py:475-509 | the bytes at the remapped offset of any entry are its old bytes |
| `FtwCompact.MovedShards` | scripts/ftw_hotfix.py:510-518 | the new shard list is the old one with the rewritten shard replaced or dropped and the later ones moved down |
| `FtwCompact.NewRegion` | scripts/ftw_hotfix.py:475-519 | the new region is the old one without the dead bytes of the rewritten shard |
| `FtwCompact.StepWellFormed` | scripts/ftw_hotfix.py:502-519 | one step keeps the index well-formed: the shards tile, on pages, under distinct files, the blocks fit and stay apart |
| `FtwCompact.StepPreservesContents` | scripts/ftw_hotfix.py:460-520 | one step keeps the checkpoint loadable and every entry, in order, with its original bytes |
| `FtwCompact.StepDirtyLives` | scripts/ftw_hotfix.py:448-457 | one step takes exactly the rewritten shard out of the dirty table and leaves every other live count |
| `FtwCompact.CleanIsTight` | scripts/ftw_hotfix.py:448-525 | with no dirty shard left the region is exactly the sum of the padded entry sizes |
| `FtwCompact.LiveIsPadded` | scripts/ftw_hotfix.py:430-445 | disjoint blocks: the live bytes of the region are the padded sizes added up |
| `FtwCompactor.DirtyShards` | scripts/ftw_hotfix.py:448-457 | it lists the dirty shards, as many as there are, each once and in region order, with its ranges and live count |
| `FtwCompactor.CopyRange` | scripts/ftw_hotfix.py:478-485 | it appends exactly the range, in chunks, or fails exactly when the source file is too short; in between only the new file changes |
| `FtwCompactor.CopyLive` | scripts/ftw_hotfix.py:475-488 | the new file gets exactly the live ranges; it fails exactly when a range lies behind the end of the source |
| `FtwCompactor.MovedEntry` | scripts/ftw_hotfix.py:502-509 | the table lookup gives the same offset as counting live bytes |
| `FtwCompactor.MovedIndex` | scripts/ftw_hotfix.py:502-519 | the index built in the loop is the one the step is proved about |
| `FtwCompactor.WriteLive` | scripts/ftw_hotfix.py:471-488 | a new file holds the live bytes; every state on the way is loadable with the old contents and within the budget of bytes and file numbers |
| `FtwCompactor.RewriteShard` | scripts/ftw_hotfix.py:464-523 | one turn: contents kept, one dirty shard fewer, the disk no fuller at the end, no stray file but those there were and not written over, and every state on the way good |
| `FtwCompactor.TurnKeepsGood` | scripts/ftw_hotfix.py:519-521 | after the index swap and after the delete the directory is loadable with its contents; in between the old file is a stray one |
| `FtwCompactor.TurnOrphans` | scripts/ftw_hotfix.py:519-521 | a turn leaves exactly the stray files there were, but the one whose number it took |
| `FtwCompactor.TurnNames` | scripts/ftw_hotfix.py:510-518 | the shards behind a turn have the numbers of those before it, without the rewritten one and with the new one |
| `FtwCompactor.CompactInPlace` | scripts/ftw_hotfix.py:460-525 | compaction, where no shard has one of the numbers it takes, ends with no dirty shard, the same contents and a tight region after exactly as many rewrites as there were dirty shards; a crash anywhere leaves a loadable directory with the original bytes, within the disk space budgeted beforehand and with no other file numbers; the state before the last deletion has a stray file |
| `FtwLayout.PushTwice` | python/freetoken/checkpoint/ftw.py:150-163 | cutting a byte stream in two writes cuts it as in one |
| `FtwLayout.PushTidy` | python/freetoken/checkpoint/ftw.py:150-163 | however many bytes are written, the finished shards tile the stretch, in whole pages, within the limit, under distinct numbers |
| `FtwLayout.EntriesTidy` | python/freetoken/checkpoint/ftw.py:165-181 | the entries of a run are aligned, inside, and own disjoint blocks |
| `FtwLayout.EntryReadsBack` | python/freetoken/checkpoint/ftw.py:165-181 | each entry of a run reads back exactly the bytes that were added |
| `FtwWriters.ChunkIsPush` | python/freetoken/checkpoint/ftw.py:155-163 | one turn of the write loop cuts the stream as byte after byte would |
| `FtwWriters.SmallTensorStaysWhole` | python/freetoken/checkpoint/ftw.py:170-173 | a tensor that fits a shard never straddles two, padding included |
| `FtwWriters.AfterTidy` | python/freetoken/checkpoint/ftw.py:140-163 | whatever a writer does, its finished shards tile what it covered |
| `FtwWriters.AfterStored` | python/freetoken/checkpoint/ftw.py:140-163 | whatever a writer does, its shard files hold exactly what it wrote |
| `FtwWriters.AfterAround` | scripts/ftw_hotfix.py:317-333 | whatever a writer does, files of other numbers keep their bytes |
| `FtwWriters.AfterNamed` | scripts/ftw_hotfix.py:310-322 | every file a writer created has its record |
| `FtwWriters.AfterUsage` | scripts/ftw_hotfix.py:317-333 | whatever a writer does, the disk holds at most what it wrote on top of what was there |
| `FtwWriters.FTWWriter.Roll` | python/freetoken/checkpoint/ftw.py:140-148 | a roll finishes the open shard and starts an empty one where it ends |
| `FtwWriters.FTWWriter.WriteRaw` | python/freetoken/checkpoint/ftw.py:150-163 | the bytes are appended and cut as the byte-at-a-time reference cuts them |
| `FtwWriters.FTWWriter.AddTensor` | python/freetoken/checkpoint/ftw.py:165-181 | the tensor starts on a page, its bytes and zeros up to the next page are appended, and its entry says where |
| `FtwWriters.FTWWriter.AddAll` | python/freetoken/checkpoint/ftw.py:165-181 | a run appends the padded tensors one after the other |
| `FtwWriters.FTWWriter.Finalize` | python/freetoken/checkpoint/ftw.py:183-196 | the index names the entries and all shards and replaces the old one |
| `FtwWriters.ShardWriter.Write` | scripts/ftw_hotfix.py:324-333 | the bytes are appended and cut as the reference cuts them, rolling also when nothing is open |
| `FtwWriters.ShardWriter.Add` | scripts/ftw_hotfix.py:335-349 | an entry that arrives in chunks is stored padded behind the old end; it is refused exactly when the chunks do not add up to its size, and then only those chunks were written |
| `FtwWriters.ShardWriter.AddTensor` | scripts/ftw_hotfix.py:351-354 | a tensor in one chunk |
| `FtwWriters.ShardWriter.Close` | scripts/ftw_hotfix.py:356-359 | the records are those of all shards, the open one included |
| `FtwWriters.ShardWriter.Abort` | scripts/ftw_hotfix.py:361-369 | it removes every file under a number it took and leaves all others and the index as they were |
| `FtwWriters.WriteCheckpoint` | python/freetoken/checkpoint/ftw.py:118-196 | a converter run leaves a safe checkpoint that says exactly what was added, in shards that tile, within the limit |
| `FtwWriters.WriteShards` | scripts/ftw_hotfix.py:294-359 | a run from any shard number and page offset lays the same tensors out behind that offset, under as many numbers as it would take from anywhere; in every state it touches no other file and no index and holds at most the padded tensors on top |
| `FtwWriters.RunAlike` | scripts/ftw_hotfix.py:304-333 | where a run starts changes neither how it is cut nor how many numbers it takes |
| `FtwWriters.WriteBoth` | scripts/ftw_hotfix.py:294-359 | the two writers agree from offset zero: same entries, same shards, same bytes in every shard file |
| `FtwWriters.HoldsDecides` | python/freetoken/checkpoint/ftw.py:150-163 | shards and data decide the shard files |
| `FtwReader.Pieces` | python/freetoken/checkpoint/ftw.py:292-310 | the pieces fill the range one after the other, each at its place in a shard and all but the last up to its end; on tiling shards it succeeds exactly when the range is empty or inside and never reports a gap |
| `FtwReader.CutPiece` | python/freetoken/checkpoint/ftw.py:318-320 | the jobs of a piece fill it up to the rounded end, none longer than the chunk; on a piece that starts on a page they are all legal for direct I/O exactly if chunks are whole pages or the piece fits one |
| `FtwReader.CutJobs` | python/freetoken/checkpoint/ftw.py:316-320 | where every piece starts on a page of the destination the jobs fill it up to the rounded end, every byte once; on pages of the files too, all are legal for direct I/O exactly if that holds of every piece |
| `FtwReader.UnevenChunks` | python/freetoken/checkpoint/ftw.py:316-320 | chunks of 5000 bytes: legal on a piece of one page, not on one of two |
| `FtwReader.ChainedOrder` | python/freetoken/checkpoint/ftw.py:317-323 | the jobs are disjoint, in order and inside the padded destination |
| `FtwReader.JobShard` | python/freetoken/checkpoint/ftw.py:317-323 | on the page grid a job, rounded end included, stays inside the shard file of its piece |
| `FtwReader.PreadInto` | python/freetoken/checkpoint/ftw.py:69-85 | whatever short reads come back, it fills its stretch, or fails exactly when the file ends first |
| `FtwReader.CopyMapped` | python/freetoken/checkpoint/ftw.py:337-345 | the mapped fallback copies its stretch, or fails exactly when the file is too short |
| `FtwReader.RunJobs` | python/freetoken/checkpoint/ftw.py:322-350 | run at once, one read of whichever job at a time, the jobs succeed exactly when every file is long enough and a strict system is given whole pages, and then each stretch is loaded |
| `FtwReader.PoolStep` | python/freetoken/checkpoint/ftw.py:347-350 | a read of one job leaves what all others have read |
| `FtwReader.ReadInto` | python/freetoken/checkpoint/ftw.py:312-350 | every byte of the padded range is one a shard file holds for its offset, nothing else in the destination is touched; on tiling shards never a gap, an error exactly when the range does not fit; on the page grid it fails otherwise only when a shard file is missing or short, or a strict system refuses the chunks |
| `FtwReader.UnevenMissing` | python/freetoken/checkpoint/ftw.py:316-345 | a range across a shard that ends off the page grid cannot be read from complete files: the rounded end of a piece is missing |
| `FtwReader.ReadEntry` | python/freetoken/checkpoint/ftw.py:312-350 | reading any entry of a safe checkpoint gives its bytes, whatever the backend and the order, and succeeds with every chunk that suits the system |
| `FtwBanks.WriteThenRead` | python/freetoken/checkpoint/ftw.py:312-350 | round trip: any tensors, any whole-page limit, any positive chunk that suits the system, either backend, any job order |
| `FtwBanks.Admit` | python/freetoken/checkpoint/ftw.py:482-506 | the checks before anything is read: the number of layers the checkpoint was converted with, and no bank both flat and a layer at a time |
| `FtwBanks.LoadWindow` | python/freetoken/checkpoint/ftw.py:528-534 | carving at the head pad of the page-aligned window gives exactly the bytes asked for |
| `FtwBanks.LoadLayer` | python/freetoken/checkpoint/ftw.py:527-535 | one layer of a flat bank is its slice |
| `FtwBanks.LoadFlat` | python/freetoken/checkpoint/ftw.py:516-535 | the flat layout is taken exactly when the checkpoint is admitted, the rows divide among the layers and are as many bytes as the entry; the layers are its slices and join to the bank |
| `FtwBanks.LayerNameReads` | python/freetoken/checkpoint/ftw.py:60-66 | a layer entry's name is read back as that layer exactly when its number has at most five digits |
| `FtwBanks.GroupLayers` | python/freetoken/checkpoint/ftw.py:495-503 | row entries are grouped by the layer in their name, the last one of a name counting |
| `FtwBanks.LoadPerLayer` | python/freetoken/checkpoint/ftw.py:495-551 | the per-layer layout is taken exactly when the checkpoint is admitted and the bank has entries for all layers and no other; each layer is the last entry of its name |
| `FtwBanks.LoadBothWays` | python/freetoken/checkpoint/ftw.py:495-600 | the same bank converted both ways loads to the same layers |
| `FtwRepair.ShardNumbers` | scripts/ftw_hotfix.py:421-427 | the next number is one more than the largest visible one, and the orphans are the visible files the index does not name |
| `FtwRepair.NextIsFree` | scripts/ftw_hotfix.py:421-427 | the k numbers a run is handed out are free of every known file exactly when no known number of six digits is below the last; the first one is taken exactly when 99999 and 100000 are both known |
| `FtwRepair.OpenedIsSafe` | scripts/ftw_hotfix.py:421-427 | all of them can be opened for writing with the checkpoint still loading exactly when no shard with bytes in it has a number of six digits below the last |
| `FtwRepair.ClearWhen` | scripts/ftw_hotfix.py:421-427 | no shard stands in the way of a run exactly when none of six digits is below its last number |
| `FtwRepair.RemoveOrphans` | scripts/ftw_hotfix.py:903-904 | removing stray files keeps contents and loadability in every state |
| `FtwPatch.AppendedOrder` | scripts/ftw_hotfix.py:921 | new shards come last in region order |
| `FtwPatch.AppendedIsSafe` | scripts/ftw_hotfix.py:920-925 | append mode extends a well-formed index to a well-formed one that says the kept entries and then the new tensors |
| `FtwPatch.AppendTensors` | scripts/ftw_hotfix.py:905-917 | all new tensors are appended under exactly the numbers counted, or, when a write fails at any byte, the directory is as before but for files under those numbers; every state holds at most the padded tensors on top |
| `FtwPatch.AppendedDirty` | scripts/ftw_hotfix.py:841-843 | the dirty table behind the swap is the one computed before anything was written: new shards are fully live, old ones have the counts of the kept entries |
| `FtwPatch.UnchangedContents` | scripts/ftw_hotfix.py:825-831 | a plan that changes no entry keeps every entry in its place |
| `FtwPatch.PatchInPlace` | scripts/ftw_hotfix.py:834-946 | the in-place run, where no shard stands in its way, settles with the new contents or says what it said before; if there was something to do it removes exactly the stray files it sees or writes over; every state on the way is loadable, says the old or the new, stays within the disk space computed first and has only file numbers known before or counted; whenever a shard was rewritten, one of these states leaves a stray file for good |
| `FtwPatch.RepairInPlace` | scripts/ftw_hotfix.py:851-946 | a run that changes no entry: as many rewrites as there were dirty shards, same contents, no dead byte; nothing at all is touched when nothing is dirty |
| `FtwRerun.ResumeAfterCrash` | scripts/ftw_hotfix.py:902-946 | running the same command again on any state a crash left, where no shard stands in its way, settles the directory with the new contents; stray files are swept exactly if that run still finds something to do |
| `FtwRerun.RoomAfterCrash` | scripts/ftw_hotfix.py:421-427 | after a run that took five-digit numbers only, nothing stands in the way of the next that was not there from the start |
| `FtwRerun.FinishAfterCrash` | scripts/ftw_hotfix.py:902-946 | so a run that starts with five-digit numbers and takes no others is finished by running it again after a crash anywhere; a stray file goes exactly if that run still finds something to do |
| `FtwRerun.CutShort` | scripts/ftw_hotfix.py:464-519 | a run on five-digit numbers only, cut short behind its first index swap, when it has taken number 100000 |
| `FtwRerun.RerunCanDestroy` | scripts/ftw_hotfix.py:421-521 | on what that one left the next run is handed the number of a shard in use, truncates it, and the bytes of an entry are in no file afterwards |
| `FtwCopy.FileChunks` | scripts/ftw_hotfix.py:380-389 | chunks of at most the chunk size that add up to the stretch, or a failure exactly when the file is short |
| `FtwCopy.RangeChunks` | scripts/ftw_hotfix.py:372-390 | the chunks of an entry, across shards, add up to its bytes |
| `FtwCopy.TightIsClean` | scripts/ftw_hotfix.py:448-457 | a region as large as its padded entries has no dirty shard |
| `FtwCopy.CopyOut` | scripts/ftw_hotfix.py:838-900 | the copy into a fresh directory ends repaired, says the kept entries, then the new tensors, and holds exactly the space set aside; no state on the way holds more, and none has a new index but a finished one; when a write fails the directory is emptied |
| `FtwCopy.NeedIsWritten` | scripts/ftw_hotfix.py:838-839 | the space set aside is the padded kept entries and new tensors, and what the run writes |
| `FtwValidate.NeighboursSuffice` | scripts/ftw_hotfix.py:286-289 | comparing neighbours of the sorted blocks finds an overlap exactly when any two blocks overlap |
| `FtwValidate.Validate` | scripts/ftw_hotfix.py:242-290 | no finding exactly when the shards tile and are complete, names differ, each entry has the size and declaration the model gives it, is aligned and inside, and no blocks overlap |
| `FtwPages.RewriteAny` | scripts/ftw_hotfix.py:464-521 | one turn, step by step, on any directory whose shards tile and are complete: until the swap only the new file differs, then come the swapped state and the one without the old file |
| `FtwPages.TurnPasses` | scripts/ftw_hotfix.py:462-523 | for every checkpoint that passes validation and every dirty shard: behind the index swap, and again behind the deletion, validation passes exactly when no other shard has the file and the dead bytes taken out in front of every entry, inside the shard or behind it, are whole pages |
| `FtwPages.RunPasses` | scripts/ftw_hotfix.py:462-523 | for every checkpoint that passes validation and any number of turns: it goes on passing in every state behind a swap or a deletion exactly when, in the index before the run, every shard these turns take has a file of its own and moves everything by whole pages |
| `FtwPages.SharedIsLost` | scripts/ftw_hotfix.py:510-521 | deleting the old file when a second shard has it: no record of the new index names it, and no record holds any byte of the second shard at its new offset |
| `FtwPages.SafeIsHarmless` | scripts/ftw_hotfix.py:462-523 | shards on pages with a file each meet that condition for any run |
| `FtwPages.UnalignedPasses` | scripts/ftw_hotfix.py:502-520 | shards [0, 5000) and [5000, 12288) with entries at 0 and 8192 pass; the first turn moves the second entry to 7288, which validation refuses |
| `FtwPages.SharedPasses` | scripts/ftw_hotfix.py:510-521 | a file that serves two shards passes; behind the first turn it is gone and no record holds a byte of the entry in its second shard |
| `FtwRoom.WindowDestroys` | scripts/ftw_hotfix.py:462-523 | for every loadable checkpoint with a clean shard whose number is among those the compaction takes: the run comes, over turns that keep contents, to one that opens the file of a shard for writing and leaves the checkpoint unloadable |
| `FtwRoom.NoRoomDestroys` | scripts/ftw_hotfix.py:421-523 | so a run that only repairs and finds no room because of a clean shard writes over one |
| `Supervisor.ReceiptTable` | python/freetoken/daemon/serve_manager.py:466-514 | which receipt a stop writes, for every engine answer, stats answer and force; when there is none |
| `Supervisor.GateNeverWaits` | python/freetoken/daemon/serve_manager.py:278-297 | no start or stop ever finds a spawn in flight or a child being stopped at the gate |
| `Supervisor.EnterStartKeeps` | python/freetoken/daemon/serve_manager.py:264-297 | the admission gate keeps the invariant and always decides |
| `Supervisor.SpawnKeeps` | python/freetoken/daemon/serve_manager.py:299-306 | a spawn happens only with nothing running |
| `Supervisor.PublishKeeps` | python/freetoken/daemon/serve_manager.py:308-325 | publishing, recording and watching the child keep the invariant |
| `Supervisor.EnterStopKeeps` | python/freetoken/daemon/serve_manager.py:352-364 | a stop latches first and never waits for a spawn |
| `Supervisor.SealKeeps` | python/freetoken/daemon/serve_manager.py:366-382 | a failed prepare or persist ends without a receipt, a successful one with it, under the guard |
| `Supervisor.SignalKeeps` | python/freetoken/daemon/serve_manager.py:387-396 | signals go out only in a stop whose receipt is durable |
| `Supervisor.GiveUpKeeps` | python/freetoken/daemon/serve_manager.py:370-382 | a stop that fails makes the child it leaves visible stoppable again |
| `Supervisor.CrashKeeps` | python/freetoken/daemon/serve_manager.py:526-549 | the monitor writes a crash receipt only when no stop receipt is durable |
| `Supervisor.ForgetKeeps` | python/freetoken/daemon/serve_manager.py:785-793 | the child is cleared only by its own monitor, after its exit and its accounting |
| `Supervisor.RunKeeps` | python/freetoken/daemon/serve_manager.py:258-402 | the invariant holds along every interleaving of clients, monitors, restarts and exits |
| `SupervisorRuns.AtMostOneLive` | python/freetoken/daemon/serve_manager.py:264-325 | at most one engine runs in every reachable state, and no stop returns while one does |
| `SupervisorRuns.ReceiptBeforeSignal` | python/freetoken/daemon/serve_manager.py:366-402 | every signal follows the receipt its own stop made durable; a stop without one never signals |
| `SupervisorRuns.NoResurrection` | python/freetoken/daemon/serve_manager.py:272-296 | between a latch and an automatic spawn there is an explicit client start |
| `SupervisorRuns.ShutdownIsFinal` | python/freetoken/daemon/serve_manager.py:331-348 | after a shutdown returned nothing is ever spawned |
| `SupervisorRuns.FailedShutdownReopens` | python/freetoken/daemon/serve_manager.py:344-348 | a failed shutdown reopens admission |
| `SupervisorRuns.OpenGateSpawns` | python/freetoken/daemon/serve_manager.py:268-306 | an open gate with nothing visible lets a client start spawn |
| `SupervisorRuns.CrashAccounting` | python/freetoken/daemon/serve_manager.py:516-549 | a generation is forgotten only with a stop receipt, a crash receipt, or the latch set because neither could be written; no crash receipt follows a stop receipt |
| `SupervisorRuns.RestartAfterReceipt` | python/freetoken/daemon/serve_manager.py:811-837 | an automatic restart replaces a generation without a receipt only after a client start in between |
| `SupervisorRuns.RestartIsQueued` | python/freetoken/daemon/serve_manager.py:766-837 | in every run: a restart is queued exactly when the log showed no stop and no failed crash receipt in effect when the monitor first looked, nor shows one at its end, however much later, and restarts are on |
| `SupervisorRuns.StoppedIsUnrecorded` | python/freetoken/daemon/serve_manager.py:796-801 | on the stop path the pid file is empty when the stop is done |
| `SupervisorRuns.HolderNeverStuck` | python/freetoken/daemon/serve_manager.py:449-464 | whoever holds the lifecycle lock can step, or the monitor with the guard can |
| `SupervisorRuns.ReapProgress` | python/freetoken/daemon/serve_manager.py:766-801 | from every reachable state a dead child can still be announced reaped: a waiting stop is in no deadlock with the monitor |
| `SupervisorRuns.CrashedForEver` | python/freetoken/daemon/serve_manager.py:773-784 | after the monitor thread died of another error the dead child stays visible for ever, nothing is spawned and no stop is ever at its end |
| `SupervisorRuns.MonitorDies` | python/freetoken/daemon/serve_manager.py:774-784 | a monitor thread dies exactly when it holds the guard, no receipt is durable and the crash receipt fails with an error that is not the outbox's own |
| `SupervisorStops.StopEnds` | python/freetoken/daemon/serve_manager.py:350-402 | from every reachable state in which a stop has begun it can come to its end, returned or raised, even if a monitor thread has died; the continuation shown is one in which the engine answers |
| `SupervisorStops.StopIsShort` | python/freetoken/daemon/serve_manager.py:350-402 | on every run, with whatever answers of the engine and whatever steps of others in between, a stop ends within its first steps of its own, at most twelve, or the run is over before it took as many |
| `SupervisorStops.StopReturns` | python/freetoken/daemon/serve_manager.py:382-402 | a stop that has not failed can return once its child has exited, if no monitor thread has died |
| `SupervisorRecord.RecordedWhileChild` | python/freetoken/daemon/serve_manager.py:785-801 | from the moment a generation is recorded the pid file names it as long as it is the child, on every continuation, exactly if no reaper is between forgetting an older one and clearing |
| `SupervisorRecord.RecordingRecords` | python/freetoken/daemon/serve_manager.py:321 | the recording step leads to that moment |
| `SupervisorRecord.SwitchStaysRecorded` | python/freetoken/daemon/serve_manager.py:382-402 | behind a stop that waited for its child to be reaped, the next generation stays recorded as long as it is the child, unless an older reaper lags |
| `SupervisorRecord.RestartIsSafe` | python/freetoken/daemon/serve_manager.py:721-743 | after a restart of the daemon at most one engine runs, whatever happens then, exactly if the pid file named the one that ran |
| `SupervisorRecord.RestartOk` | python/freetoken/daemon/serve_manager.py:721-743 | a daemon that finds the running engine recorded, or nothing running, starts with the invariant |
| `SupervisorReceipts.ReceiptsSurvive` | python/freetoken/daemon/serve_manager.py:526-549 | after a restart of the daemon a generation that had a receipt never gets a crash receipt on top, whatever happens, exactly if it is not the engine taken over |
| `SupervisorReceipts.RunWatched` | python/freetoken/daemon/serve_manager.py:387-549 | in every run a receipt is of a generation that has a monitor |
| `SupervisorGaps.MonitorCanDie` | python/freetoken/daemon/accounting.py:76-88 | the state that theorem is about is reachable: creating the outbox directory fails outside the guarded block |
| `SupervisorGaps.RestartWithoutReceipt` | python/freetoken/daemon/serve_manager.py:773-815 | a run in which a generation with no receipt is replaced automatically, after a client start answered "already running" |
| `SupervisorGaps.RecordCanBeLost` | python/freetoken/daemon/serve_manager.py:785-800 | a run in which the reaper of a crashed generation clears the record of its successor |
| `Outbox.TempIsNotJson` | python/freetoken/daemon/accounting.py:77 | a temporary name is never taken for a receipt |
| `Outbox.MovedInto` | python/freetoken/daemon/accounting.py:86 | moving a complete document into place adds exactly that receipt |
| `Outbox.AccountingOutbox.Persist` | python/freetoken/daemon/accounting.py:62-94 | first write wins; each outcome exactly when, damaged and unreadable files included; a crash anywhere tears no receipt file and leaves the outbox as before or as after |
| `Outbox.AccountingOutbox.Store` | python/freetoken/daemon/accounting.py:78-93 | write, replace, and clean up on any fault |
| `Outbox.AccountingOutbox.Ack` | python/freetoken/daemon/accounting.py:109-123 | it removes exactly that receipt's file, damaged or not, and says whether it was missing |
| `Outbox.AccountingOutbox.Pending` | python/freetoken/daemon/accounting.py:96-107 | exactly the stored receipts, by creation time and id; an error exactly when a receipt file is damaged or unreadable |
| `Outbox.AccountingOutbox.ReadOne` | python/freetoken/daemon/accounting.py:128-146 | the document under its own id, nothing, or an error |
| `Outbox.StepRefines` | python/freetoken/daemon/accounting.py:62-123 | each operation, and each crash inside a persist, is one of a ledger: receipts on which the first write wins, and the ids of damaged files |
| `Outbox.RunRefines` | python/freetoken/daemon/accounting.py:62-123 | over any sequence of persists, acknowledgements, of damaged files too, listings and crashes the directory is that ledger and the answers are its answers |
| `Outbox.FirstWriteStays` | python/freetoken/daemon/accounting.py:65-74 | a stored document is what every later persist of its id returns until it is acknowledged |
| `Outbox.DamageStays` | python/freetoken/daemon/accounting.py:96-146 | a damaged file blocks its id and every listing until it is acknowledged |
| `Outbox.InsertSorts` | python/freetoken/daemon/accounting.py:107 | inserting by (createdAt, receiptId) keeps the order and the members |
| `Outbox.StrTotal` | python/freetoken/daemon/accounting.py:107 | ids are totally ordered |
| `LogRings.LogRing.Append` | python/freetoken/daemon/logring.py:30-44 | the record gets the next number and the ring keeps the newest |
| `LogRings.LogRing.Since` | python/freetoken/daemon/logring.py:46-51 | exactly the kept records from any cursor on, and the all-time count |
| `LogStreams.LogStream.Put` | python/freetoken/daemon/app.py:449-463 | a queue callback skips what the replay covers, and drops and counts the oldest when full; the invariant behind the coverage theorem is kept |
| `LogStreams.LogStream.TakeSnapshot` | python/freetoken/daemon/app.py:469-471 | the backlog is what the ring has from the cursor on, and the boundary is the ring's count |
| `LogStreams.LogStream.Open` | python/freetoken/daemon/app.py:475-479 | the lost prefix is announced before the replay |
| `LogStreams.LogStream.Look` | python/freetoken/daemon/app.py:491-501 | the counter is reported and reset at once; the frames then cover everything up to the record exactly if the queue did not overflow since it was taken |
| `LogStreams.CallbackKeeps` | python/freetoken/daemon/app.py:449-463 | a queue callback keeps the drop counter exact |
| `LogStreams.LookKeeps` | python/freetoken/daemon/app.py:492-504 | the record in hand is never one the client has; its gap frame is right exactly when the queue did not overflow meanwhile |
| `LogStreams.OpenKeeps` | python/freetoken/daemon/app.py:474-480 | the announced prefix is exactly what the ring lost |
| `LogStreams.FramesCover` | python/freetoken/daemon/app.py:425-506 | in every interleaving the frames cover every number exactly once, in order, with exact counts, if and only if no record was looked at after the queue overflowed behind its back |
| `LogStreams.AtomicFramesCover` | python/freetoken/daemon/app.py:485-504 | where taking and looking are one turn the frames always cover |
| `LogStreams.CanBreak` | python/freetoken/daemon/app.py:485-501 | elsewhere a run from the start, of a thousand and two records, breaks coverage |
| `LogStreams.NothingUncounted` | python/freetoken/daemon/app.py:425-506 | in every run, broken or not, records sent, declared lost, waiting and in hand add up |
| `LogStreams.CoveredInOrder` | python/freetoken/daemon/app.py:474-504 | covered frames are honest, increasing and disjoint |
| `LogStreams.CoveredHits` | python/freetoken/daemon/app.py:474-504 | every number of the covered range is in a frame |
| `LogStreams.GapOfNothing` | python/freetoken/daemon/app.py:475-479 | in every run, once opened, records that never existed are declared lost exactly if the cursor is negative |
| `LogStreams.AheadIsIgnored` | python/freetoken/daemon/app.py:470-482 | in every run, what the client has is sent again or declared lost only if its cursor is ahead of the ring, and in unbroken runs exactly then |
| `PooledIndex.QuoRemAreDivMod` | python/freetoken/attention/dsa_indexer_kpool.py:136-137 | the recursive quotient and remainder are the usual ones |
| `PooledIndex.PagedSlots` | python/freetoken/attention/dsa_indexer_kpool.py:133-136 | with pages a multiple of the group size a slot closes a group exactly when its position does |
| `PooledIndex.RingRowDistinct` | python/freetoken/attention/dsa_indexer_kpool.py:145 | ring rows of different requests, or of positions closer than the capacity, differ |
| `PooledStore.RefreshFirst` | python/freetoken/attention/dsa_indexer_kpool.py:175-178 | a compression behind the refresh would read, for an older member, the key of the newest token sharing its ring row: its own exactly if the forward does not reach a capacity beyond it |
| `PooledStore.NoSlabCollision` | python/freetoken/attention/dsa_indexer_kpool.py:136-139 | no two closing rows share a slab row, none hits a scratch row or a group completed before |
| `PooledStore.NoRingCollision` | python/freetoken/attention/dsa_indexer_kpool.py:140-148 | no two kept rows share a ring row |
| `PooledStore.IndexPool.Gather` | python/freetoken/kernel/triton/kpool_compress.py:72-112 | the members read for a closing row, new ones from the forward and older ones from the ring, are its group's raw keys |
| `PooledStore.IndexPool.Compress` | python/freetoken/attention/dsa_indexer_kpool.py:167-174 | in any row order every closing group is pooled and nothing else in the slab changes |
| `PooledStore.IndexPool.Refresh` | python/freetoken/attention/dsa_indexer_kpool.py:177-178 | in any row order the kept keys are in the ring and nothing else changes |
| `PooledStore.StoreIndex` | python/freetoken/attention/qsa_sparse.py:318-352 | one forward over many requests keeps slab and ring right for each with its new keys |
| `PooledStore.RingAfter` | python/freetoken/attention/qsa_sparse.py:309-316 | after a forward the ring has the newest keys at position modulo capacity |
| `PooledStore.SlabAfter` | python/freetoken/attention/qsa_sparse.py:304-308 | after a forward every complete group is pooled in its own row |
| `PooledStore.CachedStays` | python/freetoken/attention/qsa_sparse.py:304-308 | a forward leaves the pooled groups of cached prefixes alone |
| `PooledStore.SharedIsRight` | python/freetoken/attention/qsa_sparse.py:304-308 | a cached prefix is right for whoever shares its pages |
| `PooledStore.Serve` | python/freetoken/attention/dsa_indexer_kpool.py:97-178 | however prompts are cut and batched, and whatever requests come and go between forwards, taking over ring slots and cached prefixes, at the end slab and ring of each running request are those of all the keys it got |
| `PooledStore.ChunkingInvariant` | python/freetoken/attention/dsa_indexer_kpool.py:97-178 | a request that got the same keys in two pools, in any two such sessions, whatever pages and ring slot each gave it, ends with the same pooled groups and the same live ring |
| `PoolSelection.TopKSelects` | python/freetoken/attention/dsv4_indexer.py:70-74 | masked top-k with the sentinel picks the best live pools first, each once, and -1 after them |
| `PoolSelection.ColumnSound` | python/freetoken/attention/dsa_indexer_kpool.py:197-216 | every column is a wanted token at or before the query, inside the bound, or -1; past the bound all are -1 |
| `PoolSelection.ColumnComplete` | python/freetoken/attention/dsa_indexer_kpool.py:197-216 | every token of a picked pool and of the open group has a column inside the bound |
| `PoolSelection.ColumnsDistinct` | python/freetoken/attention/dsa_indexer_kpool.py:197-216 | no token has two columns |
| `PoolSelection.DenseWhenShort` | python/freetoken/attention/dsa_indexer_kpool.py:205-216 | when the complete pools fit the budget the query sees everything up to itself |
| `PoolSelection.SelectOne` | python/freetoken/attention/dsv4_indexer.py:58-84 | one query: picks, rows and count |
| `PoolSelection.SelectPrefill` | python/freetoken/attention/dsa_indexer_kpool.py:250-285 | prefill in chunks gives each query the selection it would get alone, also when no pool is complete |
| `PoolSelection.SelectDecode` | python/freetoken/attention/dsa_indexer_kpool.py:218-248 | decode gives each request the selection of its last position |
| `PoolSelection.SelectedMeans` | python/freetoken/attention/dsa_indexer_kpool.py:181-216 | the rows handed to the kernel: exactly the wanted tokens, each once, dense when short |
| `CacheBudget.PlansWhen` | python/freetoken/engine/cache_budget.py:68-94 | planning succeeds exactly when the floor with its reserve fits and two pages remain |
| `CacheBudget.PlanIsBest` | python/freetoken/engine/cache_budget.py:75-95 | a plan is within floor, cap, reserve and bytes, and no other such plan has more slots, or as many and more pages |
| `CacheBudget.PlanIsTight` | python/freetoken/engine/cache_budget.py:75-95 | one more slot or one more page breaks it |
| `CacheBudget.SecondLookIsIdle` | python/freetoken/engine/cache_budget.py:80-81 | the second look at overlap never changes anything |
| `CacheBudget.MoreMemoryMoreSlots` | python/freetoken/engine/cache_budget.py:75-79 | more memory never plans fewer slots |
| `CacheBudget.ResolvedFits` | python/freetoken/engine/cache_budget.py:98-133 | weights, fixed cache and plan stay within the share of the baseline, and the pages hold the reserved tokens |

## Left out

- File and directory syncs, temporary index files and the ordering of writes in the page cache: assumed, as above.
- `O_DIRECT` probing, memory maps and file handles of the reader: two backends with short reads and end of file; threads interleave read by read.
- Names, kinds, dtypes and shapes of entries: one opaque `info`; the converter's choice of tensors, the repair plan (renames, dequantization, fetches) and the PLE table appear as the kept entries and the new tensors.
- FtwPatch.PatchInPlace: the hot-fix record, the backup of the index and the n-gram table's own files are not part of the directory here; the table is a flag that lets the run go ahead.
- FtwPatch.PatchInPlace: a shard of six digits in the run's way is excluded also where the run itself would drop it before its number comes up.
- FtwPatch.RepairInPlace: the same shards of six digits are excluded; `FtwRoom.NoRoomDestroys` shows that of those without a dead byte none can be let in.
- FtwRerun.ResumeAfterCrash: a crash state with a shard of six digits in the second run's way is excluded also where that run would drop it first.
- FtwBanks.LoadPerLayer: which entries are rows of banks is a parameter, as are the shapes of a flat bank; names are parsed with ASCII digits.
- FtwReader.ReadInto: off the page grid only complete files are modelled; files longer than the index says, where rounded reads of neighbouring pieces would overlap, are not.
- ServeManager as a class: its methods block and interleave inside, so its fields are a state value and its lock-delimited regions functions on it; contents of receipts, totals observed for crash receipts, OOM scores, tailers and the status view are left out.
- Supervisor.GateNeverWaits: the waits inside `start` and `stop` are steps that are never taken, because no reachable state waits; what a thread woken there would do is not modelled.
- Calls that arrive while the lifecycle lock is held are not queued in order: any waiting call may be next.
- Outbox.AccountingOutbox.Pending: a directory that cannot be listed is not a case. Fresh temporary names are assumed fresh.
- HTTP, server-sent event text, heartbeats, disconnects and unsubscribing; a `wait_for` timeout that races with a record.
- GPU kernels: the compression kernel is its documented contract (members of this forward from the raw keys, older ones from the ring), scores and top-k are given; CUDA graph staging, rotary embedding and norms.
- `expand_qsa_block_indices` and the block top-k kernel of the QSA backend are not part of this model; its ring and slab scheme is.
- PooledStore.StoreIndex: padded batches, which repeat one dummy request and its ring slot (python/freetoken/engine/graph.py:206), are excluded: the requests of a forward have ring slots of their own.
- CacheBudget.ResolvedFits: the memory ratio is a real number, so floating-point rounding of the product is not modelled.
- FtwValidate.Validate: what the model declares is a parameter; renames and exemptions of the repair plan are part of it.
- `CheckpointManager`, control interfaces, engine configuration: no claims that span steps.
