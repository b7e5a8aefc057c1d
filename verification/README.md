# A model of the LTFS write-back scheduler and its neighbours

LTFS shows a tape as a file system. Between the file system calls and the drive sits the *unified*
I/O scheduler: a write-back cache that keeps, for every file, a sorted list of write requests, each
holding up to one cache block. The requests lie over the file on tape; a background thread writes
them out through three queues, either to the data partition (after which they are gone) or, for files
a placement policy selects, to the data partition and then as index-partition extents. To its callers
the scheduler has to look like a plain byte-array file.

The project has three layers for it.

- *Values.* `Requests`, `RequestOps`, `WriteWalk`, `UnifiedWrite`, `UnifiedRead`, `UnifiedDrain`,
  `UnifiedSweep` and `WriteErrors` say what each routine makes of a request list and a tape file;
  `RequestStates` says when a request is due for tape and how far a merge goes; `WriteTidy`, `WriteMeaning`,
  `WriteShape`, `WriteExact`, `WriteTame` and `WriteOffsets` say when a write is right, and `WriteBlocks`,
  `WriteQueue`, `WritePaint` and `WriteLocal` what it does to cache blocks, to queued bytes, to the partition
  they are queued for and to the rest of the list; `SweepCounts` and `SweepQueue` say what a pass takes and
  leaves, `DrainOrder` what a flush makes of a list that is not in order, and `ReadPlan` when a read needs the
  tape; `FileRun` runs any sequence of operations against a plain file, and `Placement` says which files are on
  the index partition; `Threads` interleaves the threads lock by lock, closing files and failing tape writes
  included, and `ThreadLocks`, `ThreadFile`, `Protocol` and `ProtocolRuns` prove what holds of every run and
  show the runs in which a caller gets less; `Progress` is about waiting for a block and `WriterChoice` about
  what the background thread goes for; `AltExtents`, `ExtentShape` and `IndexPass` are the list of
  index-partition extents and what they find.
- *State changed in place.* `SchedulerState`, `SchedulerRequests`, `SchedulerWrite`, `SchedulerRead`,
  `SchedulerPlace`, `SchedulerExtents` and `SchedulerDrain` are the routines as loops and assignments over
  the record of one file and the shared queues, each proved to do what its value function says, to keep
  every counter and queue link right on every list, and to keep a right `file_size` right, tape errors
  included; only a truncation can make `file_size` wrong, and it is proved when. The background pass is
  split where it lets go of the file's lock. `Counts` holds what counters need.
- *All files.* `Scheduler` puts the files together: the shared counters are the sums over the files
  from the start and after every operation, and a turn of the background thread is the pass `Progress`
  reasons about.

Beside it stand the block pool (`CachePool`), the glob matcher of the placement policy (`Glob`, with
`GlobSigns` on its two signs), the path walk and its inverse over a tree with reference counts and locks
(`Paths`, `DentryTree`, `DentryPath`, and `PathPoints` on the length of names), and the key list parser over
base64 (`KeyFormat` and `Base64`, with `KeyDigits` and `Base64Text` on their characters). `Bytes` has the byte-array
file itself.

## When a write is right

The write loop is not right for every write, and the model keeps it as it is.

- `_unified_insert_new_request` stores at most one cache block but reports the whole count.
- The test that passes over a request uses the offset as already advanced. Once a request was met, a
  later one that ends before the new offset is passed over and keeps its old bytes
  (`UntameWriteLeavesStaleBytes`).
- Where two index-partition requests touch, the merge at the top of the loop can pull old bytes over
  the write position.

A write is *clean* when none of this happens on the way: no request is passed over once one was
settled, every inserted request holds all that is left, and a merge does not push the visited request
behind the write position. Cleanness depends on the place and length of the write only
(`CleanByLength`). `CorrectExactlyWhenClean` proves that every write of a length at a place is correct if
and only if such a write is clean. `CleanExactly` gives cleanness as a condition on offsets, if and only
if, for lists without index-partition requests and writes of any length; `Tame` is a simpler condition,
sufficient on every list (`TameWriteIsClean`).

A list out of order also makes a flush differ from a read: a read takes a byte from the first request that
has it, but on tape the last one wins. After the write of `UntameWriteLeavesStaleBytes` the old bytes reach
the tape (`StaleBytesReachTape`). For any list for the data partition a flush puts on tape what reads
return if and only if for every byte the first request that has it and the last one agree
(`FlushKeepsFileExactly`).

## Truncation out of order

The loop of `unified_truncate` goes back from the end of the list and stops at the first request that
ends in time. On a list that a write left out of order it can stop before a request it has to cut. After
the write of `UntameWriteLeavesStaleBytes` a truncation to 40 stops at [20,30) and keeps [0,60):
`file_size` is 40, the file is still 60 bytes long, and so is the tape file after the next flush
(`TruncationStopsShort`). From a right `file_size` a truncation to `n` leaves it right if and only if the
file does not get shorter or no request that ends by `n` comes after one that does not
(`SizeRightAfterTruncation`), and that is also exactly when the file is cut to `n` bytes
(`TruncateResizes`); bytes before `n` never change. Counters and links are right either way.

## Errors that no caller hears of

The comment in `_unified_handle_write_error` says that every failed write is reported but for an index
partition that is merely full, where nothing is lost. Three ways of failing do not keep to that.

- `_unified_process_index_queue` fails and no error is kept. After a permanent error it puts the result of
  setting the lock status over the error code (unified.c:1192-1195), and that is 0 if the status is set
  already or can be set (tape.c:1818-1860): the handler clears every request of the file and keeps no
  error. And if the index partition is full while the data partition is read-only or out of space,
  requests not on tape yet are cleared without an error too. `SilentLossExactly` proves that of the values
  the handler can be given no others have this effect; `LostWrite` has the input.
- `_unified_process_index_queue` fails, keeps an error, and gives the record back with the error in it, as
  the file has no open handle, no requests and no extents any more (unified.c:1210).
- A close meets the background pass between the detaching of requests and their writing. With nothing
  queued it does not wait for the tape write; if that fails, the close has already looked for an error,
  and gives the record back before the background thread can keep one in it (unified.c:457-464 and
  1323-1332). `LostAtClose` is the run, from every state in which the background thread is writing and nothing
  is queued, and `ByteLostAtClose` shows that it comes about.

`LossIsReported` proves over all interleavings, whatever is written and whatever fails, that these are all:
given-up requests stay unreported if and only if a step of the run is one of these (`Swallows`).

## Files without a record

Reads and truncations of a file that has no record take no lock in it. A read that finds none can return
bytes the file never held, as a record may be made, written to and drained while it reads (`TornRead`);
it returns the file if the tape has not changed meanwhile (`InterleavedReadsSeeTheFile`). A truncation that
finds none cuts the tape later, whatever happens in between. If a record was made, the size kept in it is
right afterwards if and only if the truncation was to that size, or to less while a request reaches that
far (`OvertakenTruncation`); `OvertakenRun` has the input.

## Other differences

Where else documentation and code differ the model follows the code: the comment that a file is in the
extent queue exactly when it has extents fails after a truncation that drops all of them
(`TruncationLeavesQueued`), and stays true if and only if there were none or one of them starts before the
new size (`TrimExtents`); the comment on `_unified_insert_new_request` that it returns the bytes copied does
not hold for more than a block (`UncleanWrite`); and the pool cannot hand out its only block if it starts
empty with a maximum of one (`CachePool.Pool.Allocate`).

## Model

| member | source | states |
|---|---|---|
| Requests.SizeLook | src/iosched/unified.c:543-620 | the file size the scheduler means (tape size or last request end, whichever is larger) is where the last present byte lies: nothing is present from there on, and the byte before it is |
| RequestOps.LookupUpdate | src/iosched/unified.c:1811-1848 | updating a request puts exactly the bytes that fit its block at the write offset and changes no other byte of the file |
| RequestOps.LookupInsert | src/iosched/unified.c:1740-1794 | a new request in its place shows its own bytes and changes no other byte |
| RequestOps.LookupMerge | src/iosched/unified.c:1864-1915 | merging a request into its immediate predecessor never changes the first-request-wins view of the file |
| RequestOps.MergeIsMerged | src/iosched/unified.c:1864-1915 | after a merge the source is gone or starts at or behind the destination's end, keeping its own end; no third request changes its bytes; all requests keep between 1 byte and one block |
| RequestOps.MergeIPAgree | src/iosched/unified.c:1877-1890 | a merge keeps every index-partition request equal to the data partition's bytes |
| RequestStates.NewIsFull | src/iosched/unified.c:1740-1794 | a new request takes a block of the write at most, and waits for the data partition exactly when it fills its block; otherwise it is partial |
| RequestStates.UpdatePromotes | src/iosched/unified.c:1833-1841 | when an update fills the block of a partial request, it and every partial request that starts at or before the write position wait for the data partition; no other state changes, and none otherwise |
| RequestStates.MergeReaches | src/iosched/unified.c:1864-1915 | of two requests that touch or overlap and are for the same partition the first is filled as far as the second has bytes for it; between partitions nothing moves; the second goes exactly when the first now covers it to its end |
| RequestStates.CutIsPartial | src/iosched/unified.c:1890-1900 | what a merge leaves of the second request waits for the data partition no longer, its block not being full |
| WriteTidy.StepTidy | src/iosched/unified.c:734-864 | every clean step of the write loop keeps the list sorted, with only the settled request reaching over the unvisited ones |
| WriteMeaning.StepHolds | src/iosched/unified.c:734-864 | every clean step of the write loop keeps the invariant that list and tape show the old file with the placed part of the write over it |
| UnifiedWrite.CleanWrite | src/iosched/unified.c:699-864 | a clean write, as far as it got, is a write to a byte array: the list stays sorted and disjoint with no full partial request, index-partition requests still agree with tape, and the file is the old one overlaid with the placed prefix |
| WriteShape.CleanByLength | src/iosched/unified.c:734-864 | whether a write is clean depends on its place and length and on the offsets, counts and states of the list, not on any byte |
| WriteExact.CleanCompletes | src/iosched/unified.c:1690-1720 | with two blocks to be had a clean write never stalls and places everything |
| WriteExact.UncleanWrite | src/iosched/unified.c:776 | a write with an unclean step leaves two overlapping requests, or stores the same bytes whatever its own last byte is |
| WriteExact.CorrectExactlyWhenClean | src/iosched/unified.c:699-864 | every write of a given length at a given place is correct (file overlaid, list in order), whatever its bytes, if and only if such a write is clean |
| WriteTame.TameWriteIsClean | src/iosched/unified.c:776-864 | a write of at most one block, with every request behind the first one met reaching to its end and not starting at a seam of index-partition requests, is clean |
| WriteTame.TameWrite | src/iosched/unified.c:734-864 | after a tame write the whole write is in the file and nothing else changed; list sorted, disjoint, counts between 1 and the block size, no full partial request; index-partition requests still agree with tape |
| WriteOffsets.CleanExactly | src/iosched/unified.c:734-864 | without index-partition requests a write of any length is clean if and only if the requests from the first one it meets on are placed so that it goes through: none ends before the write position behind a filled one, the rest fits a block or the next request can be filled, and what follows the last one touched reaches to the end of the write |
| WriteOffsets.CorrectExactlyByOffsets | src/iosched/unified.c:699-864 | so every write of that length at that place is correct, whatever its bytes, if and only if the offsets meet that condition |
| WriteBlocks.StepBlocks | src/iosched/unified.c:734-864 | every step of the loop, on any list, keeps the number of blocks in the list and to be had together, the block of an overwritten index-partition request included, and stalls only when there is none to be had |
| WriteBlocks.AttemptBlocks | src/iosched/unified.c:699-864 | so for every list and every write an attempt neither loses nor gains a cache block, and leaves part of the write over only if there is none to be had any more |
| WriteBlocks.OverwritingNeedsNoBlock | src/iosched/unified.c:818-830 | the block of an overwritten index-partition request is used for the new bytes: with no block to be had such a write is placed whole |
| WriteQueue.StepGoes | src/iosched/unified.c:734-864 | every clean step keeps each byte outside of the write in the list, or out of it, whether it is on tape as well or not |
| WriteQueue.CleanWriteQueues | src/iosched/unified.c:699-864 | so a clean attempt leaves in the list what it has placed and, outside of the write, exactly the bytes that were there |
| WritePaint.PaintAttempt | src/iosched/unified.c:699-864 | the attempt does the same on a list whose bytes are replaced by the partition of their request: no byte moves between requests for different partitions, on any list |
| WritePaint.QueuedForFirst | src/iosched/unified.c:543-580 | the partition a byte is queued for is that of the first request that has it |
| WritePaint.CleanWriteKeepsPartitions | src/iosched/unified.c:699-864 | so after a clean attempt what it has placed is queued for the data partition, and every byte outside of the write for the partition it was queued for |
| WriteLocal.WriteStopsAtGap | src/iosched/unified.c:734-864 | for every list and every write: behind a gap that starts past the end of the write no request changes, in bytes, place or state |
| WriteTame.UntameWriteLeavesStaleBytes | src/iosched/unified.c:776 | the offset test sees the already advanced offset: requests [0,10) and [20,30), then a write of [5,60), leave the second request with its old bytes inside the first |
| DrainOrder.FlushKeepsFileExactly | src/iosched/unified.c:1950-1976 | on any list for the data partition a flush puts on tape what reads of the file return if and only if for every byte the first request that has it and the last one agree |
| DrainOrder.StaleBytesReachTape | src/iosched/unified.c:1950-1976 | the input: after that write a flush puts the old bytes of [20,30) on tape |
| UnifiedRead.ReadIsSlice | src/iosched/unified.c:536-636 | for every disjoint list and tape the read returns the slice of the overlaid file: zeros in holes before a queued request, min(size, max(0, end - offset)) bytes |
| SchedulerRead.ReadHere | src/iosched/unified.c:536-636 | the buffer loops fill exactly that slice, with holes noted first and read from tape afterwards |
| SchedulerRead.ScanRequest | src/iosched/unified.c:543-583 | one turn of the scan: every byte dealt with is right or waits for a queued tape read, and all requests passed end at or before the new offset |
| SchedulerRead.FillHole | src/iosched/unified.c:593-620 | a hole is filled with what tape has and zeros behind its end, also when an earlier read came up short |
| ReadPlan.TapeIfNotQueued | src/iosched/unified.c:536-636 | a read of a list in order needs the tape, and its lock, if and only if one of the bytes asked for is not in the list |
| UnifiedDrain.WriteAllView | src/iosched/unified.c:1302-1320 | writing the detached requests to tape in order leaves the file as it was, whatever was queued meanwhile |
| UnifiedDrain.TruncateResizes | src/iosched/unified.c:952-977 | on any list a truncation changes no byte before n, and cuts or zero-extends the file to n bytes if and only if the file does not get shorter or no request ending by n comes after one that does not |
| UnifiedDrain.TruncateKeepsOrder | src/iosched/unified.c:952-977 | a list in order always meets that condition, stays in order, and its index-partition requests still agree with tape |
| FileRun.TruncationStopsShort | src/iosched/unified.c:953-963 | the input: after an unclean write a truncation to 40 leaves a file of 60 bytes, and the next flush a tape file of 60 |
| UnifiedDrain.DropIPView | src/iosched/unified.c:2128-2136 | dropping all index-partition requests that agree with tape loses no byte of the file |
| UnifiedSweep.SweepKeepsFile | src/iosched/unified.c:1268-1299 | the pass over one file leaves the file as it was, counting the requests it detached, for files of both placements |
| UnifiedSweep.SweepLeaves | src/iosched/unified.c:1268-1299 | after the pass no request it selects is queued any more |
| SweepCounts.PassTakesFull | src/iosched/unified.c:1268-1299 | a pass over full requests of a file for the data partition detaches exactly those, in their order, and leaves the partial ones in theirs |
| SweepQueue.SweepKeepsQueue | src/iosched/unified.c:1268-1299 | a pass over a file with write_ip set keeps every byte of the list in it and adds none; what it takes is queued for the index partition afterwards, everything else for the partition it was queued for |
| SweepQueue.SweepJoins | src/iosched/unified.c:1268-1299 | and of two touching requests for the index partition the first is full afterwards |
| FileRun.StepRefines | src/iosched/unified.c:487-1009 | every operation keeps the file in order and does to the byte array what its effect says; a read returns the byte array's slice |
| FileRun.RunRefinesPlainFile | src/iosched/unified.c:487-1009 | for every run of clean writes, reads, truncates, flushes, passes and placement changes each read returns what a plain byte-array file would, and the file ends up the same |
| FileRun.TameRunRefinesPlainFile | src/iosched/unified.c:487-1009 | so does every run whose writes are tame, a condition on offsets checked before each call |
| FileRun.ResumedWrite | src/iosched/unified.c:690-711 | a write that stalled for a block and is resumed with what was left writes what one uninterrupted write does, whatever reads, flushes, passes and placement changes come in between |
| FileRun.FlushForIndexPartition | src/iosched/unified.c:1950-1976 | after a flush with write_ip set only index-partition requests are left, equal to tape; trimming them or dropping them all loses no byte |
| FileRun.FlushForDataPartition | src/iosched/unified.c:1950-1976 | after a flush without write_ip nothing is queued and the tape file is the file |
| Placement.PlacedExactly | src/iosched/unified.c:1085-1089 | after a placement decision the file is placed on the index partition if and only if it is within the maximum size, its name matches, it is not deleted, and it was placed or the maximum is not zero; if it is not, no request for that partition is left, and if it is, no request is gone |
| Placement.PlacedAsNew | src/iosched/unified.c:1402-1407 | for a file without requests that is not placed and not deleted it is the decision made for a new record |
| Placement.TruncatedExactly | src/iosched/unified.c:986-993 | the same after a truncation, where a file that was not placed has to have been cut to nothing |
| Placement.WrittenExactly | src/iosched/unified.c:726-732 | before a write the placement is taken back exactly if the write would end past the maximum size or the index partition is full |
| Placement.OthersDoNotPlace | src/iosched/unified.c:487-925 | reads, flushes, background passes and the index-partition pass do not change the placement |
| Placement.OffAfter | src/iosched/unified.c:1077-1089 | no operation leaves a request for the index partition in a file that is not placed there, and one that decides for a deleted file, or one whose name does not match, leaves it not placed |
| Placement.DeclinedStaysOff | src/iosched/unified.c:487-1097 | over all runs: a file whose last decision was for a deleted file or a name that does not match is not on the index partition, whatever came before and whatever is written afterwards |
| Placement.TooLargeStaysOff | src/iosched/unified.c:986-1089 | only a decision for a matching name within the maximum size, or at a truncation to nothing, places a file that was not placed |
| ThreadLocks.MoveCore | src/iosched/unified.c:1215-1345 | every step of every thread, whatever is written and whatever fails, keeps each lock with the one thread whose state says so, and leaves nothing behind in a record that is given back |
| ThreadFile.MoveKeeps | src/iosched/unified.c:1257-1345 | while writes are clean and no truncation is overtaken every step keeps requests, detached requests and tape together equal to the users' file, closes and failed tape writes included |
| Protocol.NextInv | src/iosched/unified.c:1257-1345 | and every step keeps what reads under way owe, and that a loss has left an error or is silent |
| Protocol.InterleavedReadsSeeTheFile | src/iosched/unified.c:511-636 | over all interleavings of reads, clean writes, truncates, placement changes, flushes, closes, the split background pass and the index-partition pass, tape write errors included, every read that finds a record returns the bytes the file had at one moment of it; one that finds none does unless the tape changes meanwhile |
| Protocol.LossIsNoted | src/iosched/unified.c:2170-2225 | no step but a write or a truncation changes the users' file, unless requests are given up and that is noted or the flush that gives them up fails |
| Protocol.NextTold | src/iosched/unified.c:2170-2250 | a step leaves given-up requests with no error kept, and none to come, if and only if it is one of the three named ways of swallowing an error |
| Protocol.LossIsReported | src/iosched/unified.c:2170-2250 | over all runs, whatever is written and whatever fails, given-up requests have left an error for the next caller, or the background thread is about to leave it, or the loss is silent; and it is silent if and only if a step of the run swallowed the error |
| ProtocolRuns.LostAtClose | src/iosched/unified.c:457-464 | from every state in which the background thread is writing what it detached and nothing is queued: the file is closed without an error, the write fails, and the error has no record to be kept in |
| ProtocolRuns.ByteLostAtClose | src/iosched/unified.c:1323-1332 | and a run comes there: a byte that was written is gone, and no error is left anywhere |
| ProtocolRuns.TornRead | src/iosched/unified.c:526-531 | the input: a read that found no record returns bytes the file never held, in a run whose every write is clean |
| ProtocolRuns.OvertakenTruncation | src/iosched/unified.c:1003-1004 | a truncation that found no record and cuts the tape after one was made leaves the size kept in it right if and only if it was to that size, or to less while a request reaches that far |
| ProtocolRuns.OvertakenRun | src/iosched/unified.c:1003-1004 | the input: the record goes on giving two bytes as the size of the empty file |
| Protocol.NoDeadlock | src/iosched/unified.c:584-636 | in every state the threads come to, whatever is written and whatever fails, while a lock is held some thread can carry on |
| Counts.CountRemove | src/iosched/unified.c:1596-1610 | taking a request out lowers the number of requests in its state by one and no other |
| Counts.CountInsert | src/iosched/unified.c:1782-1787 | putting a request in raises the number of requests in its state by one and no other |
| Counts.MergeSize | src/iosched/unified.c:1864-1915 | a merge never changes the greatest request end or tape size, so file_size stays right |
| Counts.UpdateSize | src/iosched/unified.c:1843-1845 | an update pushes the size to the request's new end and no further |
| Counts.SizeRemove | src/iosched/unified.c:791-800 | an index-partition request, being inside the tape file, can go without the size changing |
| SchedulerState.UpdateQueueMembership | src/iosched/unified.c:1554-1650 | the file's counter goes up, down or to zero; the file is linked exactly while it is positive; the shared counters, less this file's share, and all other files' links are unchanged |
| SchedulerRequests.InsertNewRequest | src/iosched/unified.c:1740-1794 | the list has the new request in place, file_size covers it, and every counter is as far ahead of its requests as before |
| SchedulerRequests.UpdateRequest | src/iosched/unified.c:1811-1848 | the list is the specified update, promotion of partial requests included; counters keep step with the states; the bytes consumed are those that fit |
| SchedulerRequests.MergeRequests | src/iosched/unified.c:1864-1915 | list and result are the specified merge; counters keep step; file_size grows only if bytes move past it, which they do not when it is right |
| SchedulerWrite.StepHere | src/iosched/unified.c:734-864 | one turn of the loop does in place what the step of the walk says, leaves counters and links right, and a right file_size right |
| SchedulerWrite.WriteHere | src/iosched/unified.c:710-864 | one attempt at any write does in place what the specified attempt does, and for every list and every write leaves each counter equal to its requests, links exact, file_size equal to the larger of tape size and last request end if it was so before, and as many cache blocks in the list and to be had as before |
| SchedulerPlace.SetWriteIp | src/iosched/unified.c:2102-2112 | full requests of the file stop counting as freeable, everything else stays |
| SchedulerPlace.UnsetWriteIp | src/iosched/unified.c:2122-2152 | index-partition requests and alternate extents are gone, the counters right, and the full requests count again |
| SchedulerPlace.TruncateHere | src/iosched/unified.c:952-1000 | on any list, list, tape and placement are those of the specified truncation at the size kept, counters and links are right, and file_size, now n, is right exactly under the stated condition |
| SchedulerPlace.SizeRightAfterTruncation | src/iosched/unified.c:952-977 | from a right file_size a truncation to n leaves it right if and only if n is no smaller or no request ending by n comes after one that does not |
| SchedulerPlace.PlaceHere | src/iosched/unified.c:1077-1089 | the placement decision of unified_update_data_placement at the size kept, with counters and links right; the file is placed afterwards if and only if it is within the maximum size, its name matches, it is not deleted, and it was placed or the maximum is not zero |
| SchedulerDrain.HandleWriteError | src/iosched/unified.c:2170-2225 | exactly the requests of the failed partition, and of the other if it is hopeless, are cleared; size, counters and links are right; an error is kept exactly if the value given is one and the index partition is not merely full |
| WriteErrors.FailedWriteShowsTape | src/iosched/unified.c:2190-2225 | after an error that clears the data partition's requests the file is exactly the tape file, so no user sees data that is not on the medium |
| WriteErrors.FullIndexLosesNothing | src/iosched/unified.c:2178-2200 | when only the index partition is full, clearing its requests loses no byte of the file |
| WriteErrors.SilentLossExactly | src/iosched/unified.c:1187-1196 | of the values a failed index-partition write hands to the error handler, bytes can be lost without an error being kept if and only if the index partition was full with the data partition read-only or out of space, or a permanent error was overwritten by a lock status that could be set |
| WriteErrors.LostWrite | src/iosched/unified.c:1192-1195 | the input: one request on its way to the index partition and one not on tape yet; both are gone, and the second one's byte with them |
| SchedulerDrain.FlushHere | src/iosched/unified.c:1925-1981 | with enough successful tape writes the file is what a full pass makes of it; an earlier error is returned once; after a failed write the file of a list in order is exactly the tape file; whatever happens nothing is left for the data partition and counters, links and size are right |
| SchedulerDrain.TakeRequests | src/iosched/unified.c:1257-1299 | up to where the background pass lets go of the file: list and detached requests are what the pass makes of them, counters and links are right, and file_size counts the detached requests |
| SchedulerDrain.SendRequests | src/iosched/unified.c:1301-1345 | from any state that keeps counters and links right: the detached requests are on tape up to the first failure; then what is queued by now is cleared and an error kept, unless the record is gone |
| SchedulerDrain.DrainHere | src/iosched/unified.c:1257-1345 | both parts with nothing in between: what the pass makes of the file, or after a failed write an error is kept and the file of a list in order is exactly the tape file; counters, links and size are right |
| SchedulerDrain.IndexHere | src/iosched/unified.c:1174-1210 | the index-partition pass over one file: exactly when it fails, what list it leaves, what the file then holds, exactly when an error is kept, what extents and stored bytes it adds, and exactly when the record is given back with that error |
| SchedulerDrain.CloseHere | src/iosched/unified.c:446-470 | unified_close while the background thread is not at the file: an earlier error or that of the flush is returned, none is left behind, and exactly when the record is given back |
| IndexPass.StoredFinds | src/iosched/unified.c:1185-1203 | every byte of a request the pass stored is found on the index partition where the extents say, every other byte as before, and the extents are fit for the next pass |
| IndexPass.StoredIsTape | src/iosched/unified.c:1185-1203 | for a list in order those are the bytes the data partition holds in the same places |
| IndexPass.WrittenIs | src/iosched/unified.c:1174-1183 | the requests the pass stores are the first ones for the index partition that writes succeed for, or all of them, in their order |
| Scheduler.StaysCoherent | src/iosched/unified.c:1554-1650 | an operation that leaves one file's counters, links, placement and extents right and the rest of the shared state alone leaves every file so and the shared counters equal to the sums over all files, full requests of write_ip files hidden |
| Scheduler.IdleIsCoherent | src/iosched/unified.c:1379-1381 | a scheduler whose files have no requests is coherent, so every run starts so |
| Scheduler.NewFile | src/iosched/unified.c:1364-1411 | a file that had no record joins the scheduler coherently, with a right size and its placement decided by size and name |
| Scheduler.WriteFile | src/iosched/unified.c:661-887 | unified_write in a scheduler of many files: an earlier error is returned once, a read-only medium refuses, and otherwise one attempt refines the value-level write and keeps all counters right |
| Scheduler.TruncateFile | src/iosched/unified.c:926-1009 | unified_truncate on any list: refused on a read-only medium, otherwise the specified truncation, with file_size right exactly under the stated condition and all counters right |
| Scheduler.UpdateDataPlacement | src/iosched/unified.c:1059-1097 | a placement change keeps all counters right, and places the file under the same condition |
| Scheduler.FlushFile | src/iosched/unified.c:898-925 | a flush of one file keeps all counters right, also after an error |
| Scheduler.FlushAll | src/iosched/unified.c:1990-2025 | a flush of all files either fails, or leaves no request for the data partition in any file and each file as a full pass makes it; without earlier errors and with enough successful writes it does not fail |
| Scheduler.CloseFile | src/iosched/unified.c:446-470 | unified_close keeps all counters right, returns the error kept for the file, and gives the record back exactly if the last handle goes and nothing is held |
| Scheduler.DetachFile | src/iosched/unified.c:1241-1299 | where the background pass lets go of a file every counter of the scheduler is right, with file_size counting what was detached |
| Scheduler.SendFile | src/iosched/unified.c:1301-1345 | whatever was done to the files meanwhile, writing what was detached and a failure of it keep every counter right |
| Scheduler.ProcessDataQueue | src/iosched/unified.c:1215-1349 | as many turns as there were entries empty the served queues, and every file becomes what the pass makes of it unless its error is kept |
| Scheduler.ProcessIndexQueue | src/iosched/unified.c:1162-1213 | the index queue is emptied, and every file, the error kept for it and whether its record is given back become exactly what the failed writes call for |
| Scheduler.WriterTurn | src/iosched/unified.c:1124-1140 | the queue chosen from the shared counters is the one the requests themselves call for, and one turn does to all files what the specified pass does |
| Scheduler.WriterStops | src/iosched/unified.c:1118-1122 | the last turn, when the thread is to stop: unless a flush fails no file has a request left, and the tape file of every file in order is the file, even if writes to the index partition fail; without earlier errors and with enough successful writes none fails |
| Scheduler.TwoTurns | src/iosched/unified.c:1111-1140 | in every scheduler the operations lead to, lists out of order included: if queued requests hold every block of a pool of at least two and no tape write fails, two turns of the writer thread free a block |
| Progress.TwoPassesFreeABlock | src/iosched/unified.c:1124-1135 | the same on values: after the first or the second pass fewer blocks are held |
| Progress.BlockFreedExactly | src/iosched/unified.c:1124-1135 | in any number of turns from two on a block is freed if and only if the pool has at least two or the request holding its only one is for the index partition |
| WriterChoice.MarkIsSixTenths | src/iosched/unified.c:1132 | the high watermark is the greatest number of blocks within six tenths of the pool |
| WriterChoice.FullRequestsFirst | src/iosched/unified.c:1130-1131 | with more than two full requests to be freed for each writer that waits, a turn frees more than two blocks for each and takes no partial request |
| WriterChoice.IndexRequestsAtTheMark | src/iosched/unified.c:1130-1135 | otherwise, from six tenths of the pool on, a turn takes every index-partition request and nothing else |
| WriterChoice.AllRequestsBelowTheMark | src/iosched/unified.c:1130-1133 | and below that it leaves no file a request for the data partition |
| WriterChoice.NoneWaits | src/iosched/unified.c:1137-1140 | while no writer waits a turn frees every full request it may and takes no partial one |
| AltExtents.AddOverlays | src/iosched/unified.c:1423-1507 | adding an extent on fresh tape blocks resolves as the old list overlaid with it, through append, end trim, front trim with carry, deletion and the no-split case, and the list stays fit for the next one |
| AltExtents.TrimToResolves | src/iosched/unified.c:966-974 | after a truncation bytes before the new size resolve as before and none behind it does |
| ExtentShape.FollowsExactly | src/iosched/unified.c:1457-1467 | the new extent is joined to an entry if and only if it goes on where that ends, in the file and on tape, and starts with a block |
| ExtentShape.AddAtEnd | src/iosched/unified.c:1453-1503 | so at the end of the file the list gets no longer if the new extent goes on where the last entry ends on tape, and one entry longer otherwise |
| ExtentShape.ApartExactly | src/iosched/unified.c:1445-1503 | entries that do not overlap stay so if and only if none of them reaches past both ends of the new extent |
| ExtentShape.AddOverOne | src/iosched/unified.c:1474-1480 | one that does is kept whole, with the new extent behind it |
| ExtentShape.AddWithin | src/iosched/unified.c:1487-1494 | every entry keeps starting within its block: whole blocks that are cut off its front are counted in its block number |
| SchedulerExtents.UpdateAltExtentlist | src/iosched/unified.c:1423-1507 | the loop in place does that, and links the record if it had no extents |
| SchedulerExtents.TrimExtents | src/iosched/unified.c:966-974 | the loop in place trims the extents; a record queued exactly because it has extents stays so if and only if it had none or one of them starts before the new size |
| SchedulerExtents.TruncationLeavesQueued | src/iosched/unified.c:966-974 | the input: the last extent goes and the record stays in the queue |
| CachePool.Pool.HasRoom | src/iosched/cache_manager.c:182-188 | there is room exactly when fewer blocks are handed out than the pool may ever have |
| CachePool.Pool.Allocate | src/iosched/cache_manager.c:201-252 | allocation succeeds exactly when there is room, but for a pool with no block yet and at most one; the block was not handed out before; capacity is free plus handed out |
| CachePool.Pool.GetObject | src/iosched/cache_manager.c:259-270 | one more reference, and nothing else changes |
| CachePool.Pool.FreeObject | src/iosched/cache_manager.c:276-310 | only the last reference takes the block back; the pool then shrinks or keeps it wiped, and conservation holds |
| CachePool.GrowthAddsRoom | src/iosched/cache_manager.c:220-230 | the capacity doubles up to its bound, from nothing it becomes half of that, and it grows in every case but that of nothing and a bound of one |
| Glob.MatchesIffCut | src/libltfs/index_criteria.c:630-635 | a pattern matches a name exactly when the name can be cut into one piece for each pattern character: anything for a star, one accepted character for any other |
| Glob.ConsumeStar | src/libltfs/index_criteria.c:678-687 | behind a new star only that star matters: the invariant that the latest position decides is kept |
| Glob.Backtrack | src/libltfs/index_criteria.c:725-740 | going back to the position saved last, one character farther, loses no match |
| Glob.MatchesNameCriteria | src/libltfs/index_criteria.c:636-763 | the machine terminates and accepts exactly the matching names, although its stack keeps only the first and the latest saved position |
| GlobSigns.QuestionMarkTakesOne | src/libltfs/index_criteria.c:691-695 | a question mark, wherever it is in the pattern, takes any one character of the name |
| GlobSigns.StarTakesAny | src/libltfs/index_criteria.c:675-684 | a star takes any part of the name, the empty one included |
| GlobSigns.OtherTakesItself | src/libltfs/index_criteria.c:697-719 | every other character takes exactly itself |
| Paths.SplitJoin | src/libltfs/fs.c:566-574 | cutting a path at its slashes undoes joining slash-free names |
| Paths.JoinSplit | src/libltfs/fs.c:566-574 | and the other way round |
| PathPoints.CutAtSlash | src/libltfs/fs.c:566-574 | a path is cut at the character / and nowhere else |
| PathPoints.PointsCount | src/libltfs/pathname.c:350-363 | the length of a name is the number of code points it is the UTF-8 text of |
| PathPoints.PointsOfByte | src/libltfs/pathname.c:350-363 | in any bytes, well-formed or not, every byte counts but those from 0x80 to 0xbf |
| PathPoints.TooLongFrom256 | src/libltfs/fs.c:507-514 | a name is too long from 256 code points on, however many bytes they take |
| DentryTree.DirectoryLookup | src/libltfs/fs.c:500-534 | a name too long, unknown or found; only what is found has one more handle |
| DentryTree.ReleaseDentryUnlocked | src/libltfs/fs.c:863-872 | one handle less; the dentry goes exactly with its last handle unless out of sync, else its lock is released |
| DentryTree.WalkPath | src/libltfs/fs.c:566-620 | the hand-over-hand loop finds what walking the names finds, and ends with exactly the target and its parent held, or with nothing changed |
| DentryTree.PathLookup | src/libltfs/fs.c:536-639 | for any depth success adds one handle to the target, one to the parent only if a lock on it was asked for, and holds exactly the requested locks; failure leaves all handle and lock counts as before |
| DentryTree.LockedOnce | src/libltfs/fs.c:611-636 | a lookup locks what it found once, and its parent once, for writing if that was asked for, and adds one handle to what is locked or found |
| DentryTree.PathOfDentryFindsIt | src/libltfs/fs.c:420-639 | the path of the names above a dentry leads back to it |
| DentryTree.DentryOfPathHasIt | src/libltfs/fs.c:420-639 | what a path leads to has that path, but for its first character |
| DentryPath.BufferSuffices | src/libltfs/fs.c:475-485 | the buffer of summed lengths plus one byte a name holds every intermediate text and its terminator |
| DentryPath.Glue | src/libltfs/fs.c:475-485 | the strcat loop builds the first text followed by the others joined with slashes |
| DentryPath.DentryLookup | src/libltfs/fs.c:420-498 | the path is built and all locks are free again, or a name is missing and then the contents lock of that dentry's parent stays held |
| DentryPath.BuiltPathLeadsBack | src/libltfs/fs.c:420-639 | looking up the path that was built for a dentry of the tree finds that dentry |
| DentryPath.BuiltPathIsTheWay | src/libltfs/fs.c:420-639 | building the path of what a path leads to gives that path back |
| Base64.QuadsEncode | src/libltfs/base64.c:122-143 | the quads of an encoding give the bytes back |
| Base64.DecodeEncode | src/libltfs/base64.c:69-146 | decoding the encoding of any non-empty byte string, with whitespace put anywhere before the padding, gives that string |
| Base64.AcceptedShape | src/libltfs/base64.c:91-112 | input that passes the checks is, whitespace apart, characters with a value and then at most two padding characters at the very end |
| Base64.DecodedLength | src/libltfs/base64.c:114-115 | the computed output length is the number of bytes the quads give |
| Base64.EncodeDecode | src/libltfs/base64.c:122-143 | accepted text is the encoding of what it decodes to if and only if the bits no byte uses are zero |
| Base64Text.ValueIsPlace | src/libltfs/base64.c:55-89 | the value of a character is its place in the alphabet A-Z, a-z, 0-9, +, /; no other character has one |
| Base64Text.Skipped | src/libltfs/base64.c:100-101 | tab, line feed, carriage return and blank, and no other character, are as good as not there |
| Base64Text.Refused | src/libltfs/base64.c:102-105 | text with a character that is none of these, nor in the alphabet, nor an equals sign is refused |
| Base64Text.PadRefused | src/libltfs/base64.c:94-105 | and so is text with an equals sign before its last two characters, or before a last one that is none |
| Base64Text.QuadIsNumber | src/libltfs/base64.c:128-141 | the three bytes of a quad and its four values are the same 24-bit number |
| Base64Text.PaddedQuadIsFirst | src/libltfs/base64.c:133-140 | a padded quad gives the first one or two bytes of the same quad with zeros in place of the padding |
| Base64.DecodeMap | src/libltfs/base64.c:86-89 | the table holds every character's value and 255 elsewhere |
| Base64.Validate | src/libltfs/base64.c:91-112 | accepts exactly non-empty well-placed input of a length divisible by four, with the real and padding counts |
| Base64.Base64Decode | src/libltfs/base64.c:69-146 | no output on rejection, otherwise a buffer of exactly the decoded bytes with all stores inside it, whatever lies in front of the input |
| KeyFormat.GetNumOfKeys | src/kmi/key_format_ltfs.c:148-207 | a list is accepted with n keys exactly if it is n well-formed pairs separated by slashes and nothing else; shorter than one pair it has none |
| KeyFormat.IsKey | src/kmi/key_format_ltfs.c:82-108 | exactly 43 key characters and one padding character |
| KeyFormat.IsKeyAlias | src/kmi/key_format_ltfs.c:115-141 | exactly three printable characters and 18 hexadecimal digits |
| KeyFormat.ConvertKeyAlias | src/kmi/key_format_ltfs.c:228-239 | the prefix, then the value strtoul gives each two characters, whatever they are |
| KeyDigits.TwoDigitsRead | src/kmi/key_format_ltfs.c:233-238 | the byte made of any two characters is the low byte of what strtoul reads in base 16: blanks, a sign, then digits of either case |
| KeyDigits.DigitIs | src/kmi/key_format_ltfs.c:129-138 | the value of a digit is its place in 0123456789abcdef or 0123456789ABCDEF |
| KeyDigits.SameAliasBytes | src/kmi/key_format_ltfs.c:228-239 | an alias stands for the same bytes whatever the case of its digits |
| KeyDigits.CaseDoesNotMatter | src/kmi/key_format_ltfs.c:148-239 | a list is accepted, and gives the same keys, whatever the case of the digits of its aliases |
| KeyDigits.WrittenInLowerCase | src/kmi/key_format_ltfs.c:148-239 | what an accepted list is written back as is that list with those digits in lower case, if and only if no key has spare bits set |
| KeyDigits.PairIs | src/kmi/key_format_ltfs.c:82-141 | a pair is 43 characters of the base64 alphabet and an equals sign, a colon, 3 characters from blank to tilde and 18 digits |
| KeyDigits.ListsJoin | src/kmi/key_format_ltfs.c:160-196 | two lists with one character between them are a list of the keys of both if and only if that is a slash |
| KeyDigits.LengthOfList | src/kmi/key_format_ltfs.c:148-207 | a text too short for one pair is a list without keys, and any other accepted text has 67 characters for each key, less one |
| KeyFormat.ReadKeys | src/kmi/key_format_ltfs.c:330-346 | the key array is the parsed list, pair by pair |
| KeyFormat.KeyTextDecodes | src/kmi/key_format_ltfs.c:209-220 | after validation decoding never fails: a key text gives 32 bytes |
| KeyFormat.WrittenParses | src/kmi/key_format_ltfs.c:148-239 | every list of 32-byte keys and 12-byte aliases with a printable prefix is accepted in its written form with the exact count and parses back to that list |
| KeyFormat.AcceptedIsWritten | src/kmi/key_format_ltfs.c:148-239 | every accepted non-empty list parses to writable keys, and is their written form if and only if its digits are lower-case and the spare bits are zero |
| KeyFormat.WrittenKeyIsFound | src/kmi/key_format_ltfs.c:359-403 | asking for the alias of a written key that no earlier pair names gives that key |
| KeyFormat.KeyManager.SetDkList | src/kmi/key_format_ltfs.c:307-350 | only from the initialized or cleared state; a rejected list changes nothing, an accepted one is loaded |
| KeyFormat.KeyManager.Destroy | src/kmi/key_format_ltfs.c:289-299 | the state is destroyed and no key is held |
| KeyFormat.KeyManager.GetFrom | src/kmi/key_format_ltfs.c:359-403 | the alias asked for and the key of the first pair that names it, or not found |
| KeyFormat.KeyManager.Clear | src/kmi/key_format_ltfs.c:410-428 | every key of the array is overwritten with zeros before it is let go |
| KeyFormat.KeyManager.GetKey | src/kmi/key_format_ltfs.c:438-464 | a call keeps no key whatever it answers, and answers from its own arguments only |

## Left out

- UpdateQueueMembership: the request counters are unbounded integers, not 32-bit ones; the proofs show they never go below zero, but not that they never pass the 32-bit range.
- WriteFile: the modification time and the volume lock are not modelled, and what follows a stalled attempt is the subject of ResumedWrite and Protocol.
- WriteHere: the wait for a cache block is the end of an attempt; what other threads do before the next attempt is covered by the run theorem, not by this method. Which physical block is spare is abstracted to a number of blocks to be had: an attempt loses none (AttemptBlocks), but what becomes of a spare block through an early error return after such a wait is not claimed.
- FlushHere: a failed tape write is taken to leave the tape file as it was.
- ProcessDataQueue: no request is queued while the pass runs, and each file's tape writes fail after the same number of successes; other failures are other calls of the method that serves one file.
- Protocol: one file only, and tape reads succeed; the placement policy is free to decide either way at every step, and so is whether a record without requests is given back, which in the code the number of handles and the extents decide. A flush of a file that has no record, and a placement change of one, do nothing and are no steps.
- InterleavedReadsSeeTheFile: a write that is not clean, or a truncation overtaken by a new record, ends what is claimed of later reads; when each of the two is harmless is the subject of CorrectExactlyWhenClean and OvertakenTruncation.
- TwoTurns: no tape write fails and no request is queued between the two turns.
- Progress.Watermark: six tenths of the block count in whole numbers, where the code multiplies a double; the rounding of that product is not modelled.
- IndexHere: the write of a block to the index partition either stores all of it or fails and stores nothing; running out of memory for an extent is left out.
- UpdateAltExtentlist: that a record is linked in the extent queue is a flag, not the queue itself; handing extents over at unmount is left out.
- CloseHere: a close that meets the background thread at the file is the subject of Protocol.
- CleanExactly: for lists with index-partition requests cleanness is not given as a condition on offsets; it can be worked out before a call from offsets, counts and states alone (CleanByLength).
- CachePool.Pool: initial capacity at most maximum capacity; the contents of a block matter only where it is wiped; the four bytes of checksum space are not modelled.
- Glob.MatchesNameCriteria: names come as grapheme clusters already case-folded; break iteration and case folding by ICU are not part of this model, nor are failures of its iterators.
- DentryTree.PathLookup: lock counters say what this caller holds; waiting for a lock, and other threads, are not modelled. Every dentry of the tree is required to have the handle of its link, as allocation leaves it. Disposal of a dentry with its last handle is left out, as the walk never causes one.
- DentryTree.DirectoryLookup: comparison errors of case-insensitive systems.
- DentryPath.DentryLookup: strcat is given the end of the text instead of looking for it, which is the same for names without zero bytes.
- Base64.Base64Decode: a one-byte input makes the code read the byte in front of it; the model takes that byte as a parameter and proves the result does not depend on it.
- KeyFormat.KeyManager.GetKey: the alias for formatting is not validated by the code; the model only asks for the 21 bytes the code reads.
- Memory allocation always succeeds throughout.
- unified_open, unified_get_filesize, initialisation, unmounting, the profiler, logging and writing the index after a permanent error.
- Reading the size and name rules of the placement policy from the label, the incremental journal, platform-safe names, configuration files, labels, tape drivers and the FUSE front end: they add easier members, or rest on code outside this model.
