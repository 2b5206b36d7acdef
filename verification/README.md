# ColdStore: models and proofs

ColdStore is an archive-to-tape object store. This project models its control logic in Dafny and
proves what that logic promises. `dafny verify dfyconfig.toml` checks all of it.

## What is modelled

**Metadata.** The state machine over nine maps with its 24 commands (`MetadataTypes`, `MetadataSpec`,
`MetadataMachine`), its invariants over every command run (`MetadataInvariants`), which maps a command
leaves alone (`CommandFrames`), the lives of archive tasks and bundles (`ArchiveLifecycles`), what the
clock decides (`ClockReadings`), the binary snapshot (`Snapshot`) and the propose path over a log and a
snapshot key, with crashes (`Durability`). The clock reading and the iteration order of a hash map are
arguments. Message encoding is a parameter pair that only has to decode the messages of the states at
hand; such pairs are proved to exist.

**Archive and recall.** The scheduler's procedures as a transition system of interleaved threads
(`ArchiveProtocol`), its safety over every run (`ArchiveSafety`), what one procedure after the other
achieves from any reachable world (`ArchiveReadBack`), and the contest of recall agents for one task (`RecallClaims`). The tape may return
any bytes, calls may fail before or after they took effect, threads may crash, and the cache may drop
entries. SHA-256 is an arbitrary function that prints 64 lower-case hexadecimal digits; collisions are
allowed. The safety results do not use the scheduler's active-key sets and tape leases, so they hold with
or without them.

**Tape.** The sequential tape with its cursor (`VirtualTapes`), bundles on a drive (`TapeBundles`), the
medium changer and the simulated backend (`TapeLibraries`). The reference reading of a tape is the list of
byte strings between its filemarks.

**Cache.** Eviction and capacity bounds (`CacheIndexes`, `CacheCapacity`, `CacheServices`), rebuilding the
index (`CacheRebuild`), and the race between overwrites and deletes (`CacheRace`). The bytes available in
the backend, its failures and the watermark are arguments.

**Listing.** Pages by marker (`ObjectListing`) and pages with a delimiter (`DelimiterListing`), over the
lexicographic order of `LexOrder`.

An operation that the source performs step by step is a class method or a loop, proved to compute a pure
function of the old state; the theorems are about that function.

## Where the code falls short of the obvious property

Each of these has a lemma: the exact condition under which the property does hold, or that it never does.

- A version-less lookup depends on the hash-map iteration order when two versions tie for the latest
  update time (`MetadataInvariants.OrderIndependence`).
- A proposal executes its command twice and reads the clock twice; the copies agree iff the command was
  rejected, both readings agree, or the command stores no clock value (`Durability.ClocksMustAgree`).
- Storing a bundle under the id of a completed one replaces it (`ArchiveLifecycles.StoringReplaces`; nothing
  else changes it, `ArchiveLifecycles.BundleRunKeepsContents`).
- The snapshot writer does not check the reader's limits, so a state beyond them is accepted and then
  cannot be opened (`Durability.ReadableIffWithinLimits`).
- A bundle write cuts off the tape at the cursor, and the read of a recall leaves the cursor before the
  end (`TapeBundles.WriteAfterRead`, `TapeBundles.RecallThenArchiveLosesBundle`).
- The filemark counter belongs to the drive and is wrong for another tape
  (`TapeLibraries.FreshTapeReadsBackIff`).
- A failing move, and a load into an occupied drive, lose the tape (`TapeLibraries.MoveConservesIff`,
  `TapeLibraries.LoadConservesIff`).
- A restored overwrite that evicts its own old entry can exceed the budget
  (`CacheServices.SelfEvictionBreaksBudget`); when it does and when the entry is evicted is exact in
  `CacheServices.CacheService.PutBytes`.
- Paging skips the remaining versions of the marker's key (`ObjectListing.NextPageContinuesIff`).
- A recall task is put back for a retry by a transition that is always rejected, so it stays in progress
  and can never be claimed again (`RecallClaims.RetryChangesNothing`, `RecallClaims.StuckInProgress`,
  `RecallClaims.StartedIsNeverClaimedAgain`).
- A PUT between the archive commit of its key and the clean-up loses its staged bytes
  (`ArchiveReadBack.CommitStrandsIff`, `ArchiveReadBack.OverlappingPutIsStranded`).
- An object that is overwritten after it was archived can never be archived with its new content
  (`ArchiveSafety.ArchivedContentIsFinal`).

## Model

| member | source | states |
|---|---|---|
| `MetadataMachine.MetadataStateMachine.ApplyCommand` | crates/metadata/src/state_machine.rs:105-380 | executes any of the 24 commands in place; the nine maps become exactly what the pure transition `Apply` says, and an error leaves all nine maps as they were |
| `MetadataMachine.MetadataStateMachine.CompleteArchive` | crates/metadata/src/state_machine.rs:154-194 | the commit inserts the bundle before its second lookup, yet fails without a trace: the mutable lookup finds the object that the read lookup found, so the second failure cannot happen |
| `MetadataMachine.MetadataStateMachine.FindObject` | crates/metadata/src/state_machine.rs:554-582 | the read lookup returns the named version or the last of the most recently updated versions along the map iteration |
| `MetadataMachine.MetadataStateMachine.FindObjectMut` | crates/metadata/src/state_machine.rs:584-624 | the mutable lookup, written differently, selects the same key for the same iteration order |
| `MetadataMachine.MetadataStateMachine.ValidateArchivePreconditions` | crates/metadata/src/state_machine.rs:633-680 | the commit guard accepts iff version, size, checksum, storage class and update time all are the expected ones, and leaves the state alone |
| `MetadataMachine.MetadataStateMachine.RefreshBucketStats` | crates/metadata/src/state_machine.rs:536-552 | sets the two counters of one bucket to the count and the byte sum of its objects and changes nothing else |
| `MetadataMachine.BucketTotals` | crates/metadata/src/state_machine.rs:536-552 | the counting loops, in whatever order the objects come, give the number and the byte sum of the bucket's objects as wrapping u64 values |
| `MetadataMachine.MetadataStateMachine.ApplyObjectCommand` | crates/metadata/src/state_machine.rs:110-201 | the six object commands refine the pure transition; errors change nothing |
| `MetadataMachine.MetadataStateMachine.ApplyBucketCommand` | crates/metadata/src/state_machine.rs:202-226 | buckets: no second creation, no deletion while an object names the bucket |
| `MetadataMachine.MetadataStateMachine.ApplyClusterCommand` | crates/metadata/src/state_machine.rs:290-380 | tape and worker records change, objects, buckets, bundles and tasks never do |
| `MetadataInvariants.CommandKeepsKeys` | crates/metadata/src/state_machine.rs:105-380 | after every command each map key is still the key derived from its value, for all nine maps |
| `MetadataInvariants.RunKeepsKeys` | crates/metadata/src/state_machine.rs:105-380 | hence in every state that any command run reaches |
| `MetadataInvariants.CommandKeepsStats` | crates/metadata/src/state_machine.rs:110-140 | a command keeps every object in an existing bucket and every bucket counter equal to the count and sum over its objects |
| `MetadataInvariants.RunKeepsStats` | crates/metadata/src/state_machine.rs:202-226 | in every state reachable by commands whose CreateBucket carries zero counters, all statistics are exact |
| `MetadataInvariants.FindReturnsLatest` | crates/metadata/src/state_machine.rs:554-582 | the version-less lookup succeeds iff a version exists and returns one that no other version postdates |
| `MetadataInvariants.OrderIndependence` | crates/metadata/src/state_machine.rs:554-582 | the lookup ignores the hash-map iteration order iff no two versions tie for the latest update time |
| `MetadataInvariants.TieShowsOrder` | crates/metadata/src/state_machine.rs:554-582 | when two versions tie, there are two iteration orders that select different versions |
| `MetadataInvariants.ApplyIgnoresOrder` | crates/metadata/src/state_machine.rs:105-380 | without such a tie the whole transition of every command ignores the iteration order |
| `ClockReadings.ReadingsMatterIffStamped` | crates/metadata/src/state_machine.rs:105-380 | for each of the 24 commands, two executions that read different clock values end in the same state iff the command is rejected or stores no clock value |
| `ArchiveLifecycles.CommandMovesTask` | crates/metadata/src/state_machine.rs:244-266 | no command removes an archive task; a completed one never changes; a task moves back exactly when a failed one is reset to Pending; a task that has started is not claimed |
| `ArchiveLifecycles.OneClaimPerReset` | crates/metadata/src/state_machine.rs:754-780 | in any command run a task is claimed at most once more than it was reset, and one time less if it had started |
| `ArchiveLifecycles.TaskRunAdvances` | crates/metadata/src/state_machine.rs:244-266 | over whole runs archive tasks persist, final ones stay as they are, and without a reset they only advance |
| `ArchiveLifecycles.CommandMovesBundle` | crates/metadata/src/state_machine.rs:227-243 | no command removes a bundle or, short of storing its id again, changes more than status and completion time; a completed bundle does not change, and a completion is stamped |
| `ArchiveLifecycles.BundleRunKeepsContents` | crates/metadata/src/state_machine.rs:723-751 | over whole runs bundles persist; unless a run stores the id again it keeps the contents, and completed bundles entirely |
| `ArchiveLifecycles.StoringReplaces` | crates/metadata/src/state_machine.rs:227-232 | storing a bundle under a known id replaces it in any state, even a completed one |
| `Snapshot.LeRoundTrip` | crates/metadata/src/state_machine.rs:520-525 | eight little-endian bytes decode to the integer they encode |
| `Snapshot.SectionRoundTrip` | crates/metadata/src/state_machine.rs:480-518 | a section of length-prefixed messages reads back as the same messages and leaves the following bytes, iff its count and every message size are within the limits; otherwise it is an error |
| `Snapshot.WriteMessages` | crates/metadata/src/state_machine.rs:480-494 | the writing loop appends exactly the section |
| `Snapshot.ReadMessages` | crates/metadata/src/state_machine.rs:496-518 | the reading loop refines the recursive reader: same messages, same rest, same errors on truncated or oversized input |
| `Snapshot.CollectValues` | crates/metadata/src/state_machine.rs:414-478 | whatever order a map was enumerated in, collecting its values under their derived keys gives the map back |
| `Snapshot.SnapshotRoundTrip` | crates/metadata/src/state_machine.rs:400-478 | decoding an encoded snapshot returns the same state for every enumeration order of the nine maps iff the state is within the section and message limits; beyond them it is an error; the codecs only have to decode the messages of this state |
| `Snapshot.ReachableRoundTrip` | crates/metadata/src/state_machine.rs:400-478 | hence every reachable state within the limits survives a snapshot |
| `Snapshot.CodecsFor` | crates/metadata/src/state_machine.rs:400-478 | any states with few enough messages have codecs that meet every hypothesis made about codecs |
| `Snapshot.WriteSnapshot` | crates/metadata/src/state_machine.rs:400-412 | the encoder writes magic and nine sections in the order that the decoder expects |
| `Snapshot.ReadSnapshot` | crates/metadata/src/state_machine.rs:414-478 | the decoder refines the pure one, including wrong magic and short input |
| `Durability.ProposalAgrees` | crates/metadata/src/raft.rs:103-126 | one proposal: memory, the storage state machine and the reopened snapshot hold the same state again, rejected commands change nothing, the log grows by one index |
| `Durability.CrashKeepsOneState` | crates/metadata/src/raft_storage.rs:110-123 | a crash between any two durable writes of a proposal reopens to the state just before or just after the command, decided by whether the snapshot was written, and the reopened copies agree |
| `Durability.ReadableIffWithinLimits` | crates/metadata/src/raft_storage.rs:76-89 | an accepted command can be read back after a restart iff the new state is within the snapshot limits, which the writer does not check |
| `Durability.ClocksMustAgree` | crates/metadata/src/raft.rs:103-126 | for every command without a lookup tie, memory and storage agree after a proposal iff the command was rejected, both executions read the same clock value, or the command stores no clock value |
| `Durability.RunAgrees` | crates/metadata/src/raft.rs:103-126 | along every run of proposals and crashes all copies agree and follow the pure state machine over exactly the commands that took effect |
| `Durability.OpenedRunIsDurable` | crates/metadata/src/raft_storage.rs:98-123 | from a freshly opened store, after any run with crashes and reopenings anywhere, memory, storage and the reopened snapshot are the state of the pure machine and the log indices are exactly 1..n |
| `Durability.FeasibleRunHasCodecs` | crates/metadata/src/raft_storage.rs:98-123 | every run that stays within the message counts has codecs under which these theorems apply |
| `Durability.LocalSingleNodeMetadataRaft.Open` | crates/metadata/src/raft_storage.rs:98-108 | opening restores the state machine from the durable snapshot, or starts empty |
| `Durability.LocalSingleNodeMetadataRaft.Propose` | crates/metadata/src/raft_storage.rs:110-123 | log record, in-place application and snapshot write in this order; the new machine and disk are those of the storage step |
| `Durability.RaftMetadataBackend.ProposeLocalApply` | crates/metadata/src/raft.rs:103-126 | shared state first, then storage, then the counter; refines the pure proposal |
| `ArchiveSafety.DigestsMatchExactly` | crates/scheduler/src/service.rs:2022-2029 | on printed digests the trimming, prefix-stripping, case-folding comparison is equality |
| `ArchiveSafety.ValidationIsExact` | crates/scheduler/src/service.rs:1957-2020 | validating staged bytes establishes that they are the object's: same identity, length and SHA-256 |
| `ArchiveSafety.CommandKeepsMeta` | crates/metadata/src/state_machine.rs:154-194 | every scheduler command keeps the archive invariant and no recorded bundle ever changes |
| `ArchiveSafety.ThreadStep` | crates/scheduler/src/service.rs:770-939 | every step of every PUT, DELETE, RESTORE, GET, archive and recall procedure keeps the invariant, with an adversarial tape |
| `ArchiveSafety.EventKeepsWorld` | crates/scheduler/src/service.rs:1383-1444 | so does every event: steps, failed calls, lost replies, crashes, evictions |
| `ArchiveSafety.GetReturnsRecordedBytes` | crates/scheduler/src/service.rs:690-768 | in every interleaving of any number of clients and agents, a successful GET returns bytes whose SHA-256 and length are those recorded for the object, although GET compares only sizes |
| `ArchiveSafety.ArchivedObjectNamesItsBundle` | crates/scheduler/src/service.rs:848-904 | in every reachable state a Cold object names a recorded bundle whose single entry has exactly its bucket, key, version, size, checksum and tape position, and that bundle never changes afterwards, whatever the clocks return |
| `ArchiveSafety.ArchivedContentIsFinal` | crates/scheduler/src/service.rs:848-904 | a key that was archived once is never archived with other content or elsewhere, so an object overwritten with other content cannot be archived again |
| `ArchiveReadBack.BodyCanBeReadBack` | crates/scheduler/src/service.rs:770-1444 | from every reachable world, for every existing bucket, every key that was never archived and every body, some continuation puts, archives, restores, recalls and reads the body back byte for byte |
| `ArchiveReadBack.Finds` | crates/metadata/src/state_machine.rs:554-582 | for every iteration order a version-less lookup finds an object that is the only version of its key |
| `ArchiveReadBack.PutPhase` | crates/scheduler/src/service.rs:1520-1570 | from any reachable world a PUT can stage the body and record a ColdPending object with its length and digest, leaving all tasks and bundles alone |
| `ArchiveReadBack.ArchivePhase` | crates/scheduler/src/service.rs:825-904 | an agent that holds the archive task writes the staged bytes to tape and turns the object Cold at the reported place, whatever else the store holds |
| `ArchiveReadBack.ArchiveCommits` | crates/scheduler/src/service.rs:848-904 | the commit step, in any world where the object is unchanged since the re-check: exactly one bundle and one object change |
| `ArchiveReadBack.RestorePhase` | crates/scheduler/src/service.rs:1587-1690 | a restore request on an archived object marks it pending and queues a recall task with its size, digest and tape position |
| `ArchiveReadBack.ClaimRecallPhase` | crates/scheduler/src/service.rs:1164-1186 | an unopposed recall agent takes the recall task and marks the object in progress |
| `ArchiveReadBack.FetchPhase` | crates/scheduler/src/service.rs:1383-1429 | the agent checks object, length and digest and puts the bytes into the restored cache |
| `ArchiveReadBack.CommitStrandsIff` | crates/scheduler/src/service.rs:905-908 | the clean-up after a commit deletes staging by key; it strands the object, pending without staged bytes, iff a PUT has made it pending again |
| `ArchiveReadBack.OverlappingPutIsStranded` | crates/scheduler/src/service.rs:848-908 | from every reachable world, for any two bodies, a PUT between commit and clean-up of a key leaves its object recorded and its bytes gone |
| `RecallClaims.UpdateMovesForward` | crates/metadata/src/state_machine.rs:682-720 | an accepted status update never moves a task back, moves a started task strictly forward and never touches a failed or expired one |
| `RecallClaims.CommandAdvances` | crates/metadata/src/state_machine.rs:267-289 | no command of the 24 removes a recall task, moves it back or changes a final one |
| `RecallClaims.EntersInProgressOnce` | crates/metadata/src/state_machine.rs:682-720 | in any command run a recall task enters InProgress at most once, and never after it was further |
| `RecallClaims.RunAdvances` | crates/metadata/src/state_machine.rs:682-720 | over whole runs tasks persist, only advance, and failed or expired ones stay as they are |
| `RecallClaims.AtMostOneClaimSucceeds` | crates/scheduler/src/service.rs:1140-1194 | however many claims interleave their put, get and update calls with any other commands, at most one claim of a task ever returns true, and that recall task is then at least in progress |
| `RecallClaims.LoneClaimSucceedsIff` | crates/scheduler/src/service.rs:1140-1194 | a claim without competitors takes the recall task, and returns true iff the object may go to InProgress |
| `RecallClaims.RetryChangesNothing` | crates/scheduler/src/service.rs:1253-1281 | the retry of a task in progress asks for a transition that the service refuses: nothing changes anywhere |
| `RecallClaims.StuckInProgress` | crates/metadata/src/state_machine.rs:682-720 | such a task stays in progress, unchanged, in every continuation without an update that completes or fails it |
| `RecallClaims.StartedIsNeverClaimedAgain` | crates/scheduler/src/service.rs:1140-1194 | and whatever interleaving follows, no claim of a started task ever succeeds |
| `VirtualTapes.VirtualTape.Read` | crates/vtl/src/model.rs:181-205 | the reading loop refines the recursive read, cursor included |
| `VirtualTapes.VirtualTape.SeekFilemark` | crates/vtl/src/model.rs:207-222 | the seeking loop refines the recursive seek |
| `VirtualTapes.VirtualTape.AppendData` | crates/vtl/src/model.rs:163-170 | cuts off what follows the cursor, appends the record and stands behind it |
| `VirtualTapes.VirtualTape.AppendFilemark` | crates/vtl/src/model.rs:172-179 | likewise for a filemark |
| `VirtualTapes.VirtualTape.CurrentPosition` | crates/vtl/src/model.rs:141-151 | the bytes of all passed records plus the offset in the current one |
| `VirtualTapes.ReadAdvances` | crates/vtl/src/model.rs:181-205 | a read keeps the records and advances the position by exactly the bytes returned |
| `VirtualTapes.ReadStaysInSegment` | crates/vtl/src/model.rs:181-205 | a read returns the next n bytes of the filemark-delimited segment under the cursor and never crosses its filemark |
| `VirtualTapes.ReadLeavesRest` | crates/vtl/src/model.rs:181-205 | what lies ahead afterwards: the rest of the segment, or, when more was asked for than it had, the next segment |
| `VirtualTapes.ReadsAdvance` | crates/vtl/src/model.rs:141-151 | any sequence of reads advances the position by exactly the bytes returned |
| `VirtualTapes.ChunksConcatenate` | crates/vtl/src/model.rs:181-205 | chunked reads within a segment return the same bytes as one read of the total |
| `VirtualTapes.SeekFindsSegment` | crates/vtl/src/model.rs:207-222 | seeking succeeds iff enough filemarks lie ahead, and then stands at that segment |
| `VirtualTapes.RewindSeekRead` | crates/vtl/src/model.rs:158-222 | for any tape, rewind, seek k and read n returns the first n bytes of the k-th segment; the seek fails iff there are fewer than k filemarks |
| `TapeBundles.WriteAppendsIffAtEnd` | crates/tape/src/service.rs:428-438 | a write to a tape of complete bundles keeps them all and adds one iff the cursor stands at the end of the records |
| `TapeBundles.ReadReturnsBundle` | crates/tape/src/service.rs:440-456 | a bundle read at any filemark returns that bundle up to the limit, nothing at the end, an error beyond, and keeps the records |
| `TapeBundles.RunStoresBundles` | crates/tape/src/service.rs:428-456 | any interleaving of reads, rewinds and end-of-data writes stores exactly the bundles written, in order, with the counter equal to their number |
| `TapeBundles.BlankTapeRoundTrip` | crates/tape/src/service.rs:428-456 | on a blank tape n writes return the pairs (i, i + 1); afterwards any reads in any order return each bundle's exact bytes and keep the records |
| `TapeBundles.CursorAfterRead` | crates/tape/src/service.rs:440-456 | at any filemark: a read leaves the cursor at the end iff it read past the last filemark or found nothing left to read |
| `TapeBundles.WriteAfterRead` | crates/tape/src/service.rs:428-456 | a write that follows a read at any filemark keeps all bundles iff the read was at or past the end, or of the last bundle with no limit or one beyond its size |
| `TapeBundles.RecallThenArchiveLosesBundle` | crates/tape/src/service.rs:428-456 | after a recall, which asks for the exact size of a non-empty object, the next archive write never keeps all bundles |
| `TapeLibraries.VirtualTapeLibrary.MoveMedium` | crates/vtl/src/simulator.rs:193-215 | takes the tape out first and then puts it into the destination; refines the pure move, errors included |
| `TapeLibraries.MoveDelivers` | crates/vtl/src/simulator.rs:193-215 | a move succeeds iff there is a tape to move and a free cell for it, and then delivers it with records and cursor |
| `TapeLibraries.MoveConservesIff` | crates/vtl/src/simulator.rs:193-215 | tapes are conserved iff the move is not from an occupied cell to another cell that is missing or occupied; such a move drops exactly the tape it took |
| `TapeLibraries.VirtualTapeLibrary.InsertTape` | crates/vtl/src/simulator.rs:186-190 | a fresh tape is accepted iff the slot exists and is empty, and goes there |
| `TapeLibraries.LoadDelivers` | crates/tape/src/service.rs:318-334 | a load succeeds iff the drive exists and is free and the slot holds the tape; the drive then holds it |
| `TapeLibraries.LoadConservesIff` | crates/tape/src/service.rs:318-334 | a load loses its tape iff the drive was occupied |
| `TapeLibraries.UnloadConservesIff` | crates/tape/src/service.rs:336-346 | an unload that picks its own slot never loses a tape; with a given slot it does iff that slot cannot take it |
| `TapeLibraries.SimulatorTapeBackend.AcquireDrive` | crates/tape/src/service.rs:255-309 | only a free drive with the required tape is handed out and is marked at once; without a preference it is the first such drive; each error has its condition |
| `TapeLibraries.SimulatorTapeBackend.LoadTape` | crates/tape/src/service.rs:318-334 | searches the slot in a loop and refines the pure load |
| `TapeLibraries.SimulatorTapeBackend.UnloadTape` | crates/tape/src/service.rs:336-346 | searches an empty slot in a loop and refines the pure unload |
| `TapeLibraries.SimulatorTapeBackend.WriteBundle` | crates/tape/src/service.rs:428-438 | writes data and filemark on that drive's tape only and hands out its counter; errors change nothing |
| `TapeLibraries.SimulatorTapeBackend.ReadBundle` | crates/tape/src/service.rs:440-456 | rewinds, seeks and reads on that drive's tape only |
| `TapeLibraries.FreshTapeReadsBackIff` | crates/tape/src/service.rs:428-456 | the counter belongs to the drive: on a fresh tape a bundle can be read back under the number handed out iff nothing was counted on the drive before |
| `CacheIndexes.SelectCandidate` | crates/cache/src/service.rs:750-787 | returns an entry that no restored entry precedes in the LRU or LFU order, and nothing iff there is none |
| `CacheIndexes.UsedBytes` | crates/cache/src/service.rs:91-106 | the sum of the entry sizes, whatever order the map yields them in |
| `CacheServices.CacheService.EvictIfNeeded` | crates/cache/src/service.rs:472-667 | never changes staging, evicts at most a batch, each victim least among what is left and only while bounds are broken, evicts nothing if the object fits; success means all bounds hold; a staging rejection evicts nothing; every rejection is truthful; the no-candidate error is unreachable |
| `CacheServices.CacheService.RejectOrRoom` | crates/cache/src/service.rs:612-667 | the final check accepts iff no bound is broken; its trailing success branch cannot be reached |
| `CacheServices.EvictedIsDownSet` | crates/cache/src/service.rs:472-667 | the evicted entries are a down-set of the order: none comes after an entry that stayed |
| `CacheServices.CacheService.EvictOne` | crates/cache/src/service.rs:553-609 | takes the victim out of the index and the backend; if the backend fails, the index is as before |
| `CacheServices.CacheService.ReclaimExpired` | crates/cache/src/service.rs:428-446 | drops exactly the expired restored entries whose blob can be deleted, except the one about to be overwritten |
| `CacheServices.CacheService.PutBytes` | crates/cache/src/service.rs:351-387 | the plan is that of the capacity observed after reclaiming; after a put that grew the object, usage is within its budgets, capacity and watermark, unless the put evicted the entry it replaces, and then iff what is left plus the whole new object is within them; an entry without rank ties is evicted by its own put iff evicting all entries before it would not make room; an object that fits is stored and evicts nothing |
| `CacheServices.VictimIff` | crates/cache/src/service.rs:472-667 | when the loop makes room, an entry without rank ties is a victim iff evicting everything strictly before it would not have made room |
| `CacheServices.SelfEvictionBreaksBudget` | crates/cache/src/service.rs:356-366 | the excluded case is real: in a cache within its budget, growing the least recent entry evicts that entry, in every run of the loop, and the insertion then exceeds the budget |
| `CacheServices.SelfEvictionHappens` | crates/cache/src/service.rs:356-366 | and the loop does take that run |
| `CacheCapacity.SplitIsProportional` | crates/cache/src/service.rs:458-470 | the two budgets sum to the total; the staging budget never exceeds the exact proportional floor and equals it when the product fits in 64 bits |
| `CacheCapacity.SplitRecoversConfiguration` | crates/cache/src/service.rs:458-470 | when the observed total is the configured sum and the product fits, the configured split comes back |
| `CacheCapacity.BudgetsSumToTotal` | crates/cache/src/service.rs:1188-1200 | for any configured ratios the budgets of any observed capacity sum to it |
| `CacheCapacity.ClippedProduct` | crates/cache/src/service.rs:466-467 | with large capacities the saturated product puts the staging budget below its share |
| `CacheRebuild.RebuildIndex` | crates/cache/src/service.rs:191-252 | per category and key the entry with the greatest (cached_at, storage id) is indexed; every listed id is either indexed or stale, exactly once; the stored total is the sum of sizes |
| `CacheRebuild.RebuildIgnoresOrder` | crates/cache/src/service.rs:109-112 | any two orderings of the same listing rebuild the same index |
| `CacheRebuild.DiscoverNextId` | crates/cache/src/hdd.rs:154-167 | the id counter restarts one above the greatest id of any metadata file, readable or not |
| `CacheRace.EventIsGood` | crates/cache/src/service.rs:300-387 | every interleaved step of puts and deletes keeps the invariant of index, blobs and operations under way |
| `CacheRace.IndexedIdsAreLive` | crates/cache/src/service.rs:300-387 | however puts and deletes interleave, every indexed id is live in the backend unless a delete of that same id stands between its backend delete and its index removal |
| `CacheRace.QuiescentIndexIsLive` | crates/cache/src/service.rs:300-387 | once all operations have finished, every indexed id is live |
| `CacheRace.RemovedIsWhatWasRead` | crates/cache/src/service.rs:318-349 | an entry disappears only by a delete that had read exactly the id it held, never a newer one |
| `CacheRace.LaterEntriesSurvive` | crates/cache/src/service.rs:318-349 | over every run: an entry put in place after a delete has read its id is never removed by that delete |
| `CacheRace.RestartIsRebuilt` | crates/cache/src/service.rs:191-252 | what the rebuilt index and the restarted id counter satisfy is the state from which the race theorems start |
| `CacheRace.InsertedIsFresh` | crates/cache/src/hdd.rs:100-106 | the id that a put is about to index is live, not indexed and known to no other operation |
| `CacheRace.PutAlone` | crates/cache/src/service.rs:367-387 | a put that runs alone leaves its fresh blob indexed and live and the replaced blob deleted |
| `CacheRace.DeleteAlone` | crates/cache/src/service.rs:300-349 | a delete that runs alone removes the entry and its blob |
| `ObjectListing.SortObjectsSorts` | crates/metadata/src/service.rs:234-238 | sorting yields a sorted permutation |
| `ObjectListing.NextIsShorter` | crates/metadata/src/service.rs:240-251 | following the marker of a truncated page leaves strictly fewer objects, so paging ends |
| `ObjectListing.PagesConcatenate` | crates/metadata/src/service.rs:205-252 | with one version per key, following next_marker with any limit concatenates to exactly the sorted list of matching objects |
| `ObjectListing.NextPageContinuesIff` | crates/metadata/src/service.rs:240-245 | the next page continues exactly where a truncated page stopped iff the cut does not split the versions of one key |
| `ObjectListing.SplitVersionsAreSkipped` | crates/metadata/src/service.rs:240-245 | with two versions of a key and pages of one, the second version is never listed |
| `ObjectListing.VersionlessPagesConcatenate` | crates/metadata/src/service.rs:205-252 | in every store of version-less objects, for any map iteration order, the pages concatenate to the whole listing |
| `ObjectListing.StateVersionsDistinct` | crates/metadata/src/service.rs:226-233 | in a state whose keys are derived from its objects, a listing never meets one version twice, whatever the map iteration order |
| `DelimiterListing.CommonPrefixesInOrder` | crates/scheduler/src/service.rs:1886-1899 | keys in order have common prefixes in order, because no common prefix is a proper prefix of another |
| `DelimiterListing.FoldedIncreasing` | crates/scheduler/src/service.rs:1886-1899 | sorted keys list their common prefixes in strictly increasing order |
| `DelimiterListing.FoldedMembers` | crates/scheduler/src/service.rs:1886-1899 | exactly the common prefixes of the visited objects are listed |
| `DelimiterListing.BuildListObjectsPage` | crates/scheduler/src/service.rs:1843-1918 | a page emits at most max_keys items, is truncated iff a matching object was left unvisited, and shows the visited objects in order as themselves or under their common prefixes, which strictly increase |
| `DelimiterListing.FullPageIsExact` | crates/scheduler/src/service.rs:1843-1918 | an unbounded page represents every matching object exactly once, as content or under its one common prefix |

## Left out

- gRPC and HTTP plumbing, streaming, client retries, process start-up and configuration loading.
- The S3 gateway: range headers, conditional requests, XML, error texts; only status codes are kept where a caller branches on them.
- RocksDB and file-system internals: storage is a log map and one snapshot key written atomically, the blob store a set of live ids.
- Vote records, multi-node Raft and `bootstrap_state_if_empty`, which saves a snapshot without updating the storage's own state machine; durability starts from `open`.
- Floating-point rounding: ratios are exact reals and the watermark is an arbitrary function of the total.
- Text parsing of drive and slot names; drives and slots are numbers here.
- The active-key sets, concurrency slots and tape leases of the scheduler; adding them would only remove runs.
- The choice and loading of drives by the scheduler's tape clients, the block-offset reads that are not implemented, and the SPDK and mhVTL backends.
- Liveness of recall retries and archiving after an overwrite, which the transition table and the fixed task ids do not support.
- Delimiter paging across pages: a common-prefix marker can repeat its prefix.
- CacheServices.CacheService.EvictIfNeeded: the loop runs alone against the index, so the branch that skips a victim which vanished meanwhile, and concurrent deletes and hits, are not modelled.
- Checksum, content type and etag of cache entries, which the modelled code only carries along.
- CacheServices.CacheService.PutBytes: sums of sizes are unbounded integers, and the bounds are stated for a capacity below 2^64 - 1, because saturated sums cannot be told apart at that value.
- CacheRebuild.DiscoverNextId: does not model the wrap-around above the greatest 64-bit id.
- VirtualTapes.VirtualTape.Read: does not model the 64-bit overflow of offset plus length, which needs a read of the greatest length from inside a record.
- TapeLibraries.SimulatorTapeBackend.WriteBundle: the 32-bit counter wraps around as in a release build, and the numbering theorems are for fewer than 2^32 bundles.
- TapeLibraries.VirtualTapeLibrary.MoveMedium: error values do not carry the element number.
- ArchiveReadBack.BodyCanBeReadBack: shows that one continuation exists; it does not claim that every run ends this way.
- Durability.FeasibleRunHasCodecs: numbers the messages of the run, so it is stated for fewer than 2^64 of them.
