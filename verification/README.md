# Verified model of Starkstream DNA

Starkstream DNA keeps a reorg-aware copy of a remote chain, compacts it into segments and groups, and serves
filtered streams of it. This project models that core in Dafny and proves what it promises, for every input and
every run. All modules are independent of any other library; `dafny verify dfyconfig.toml` covers the project.

## How it is built

1. **The chain.** `Chain` gives the canonical chain builder as values, `ChainBuilder` as a class that updates its
   fields. `Ledgers` says what a builder, a segment or an archive means to a reader: the canonical hashes and where
   each removed block leads. `ChainHistory` follows any run of operations; `RemoteChain` is the environment.
2. **Ingestion and publication.** `Ingestion` and the class in `IngestionService` are the ticks. `IngestionSystem`
   puts them together with the remote chain, the object store and the etcd key that names the recent snapshot, as a
   step system in which every awaited write, answer, crash and restart is a step of its own. `IngestionInvariant`,
   `IngestionRecovery` and `IngestionSafety` prove its invariant and what follows from it; `RecoverySafety` is about
   recovery and restarts. `IngestionTicks` says of each single action what it does to the chain, the queue, the store
   and the publications.
3. **Compaction.** `StateClient` is the compare-and-swap protocol, `Watermarks` the alignment arithmetic. `Compaction`
   joins any number of segment, group and prune jobs at once to the ingestion system: a job reads the chain of some
   publication under the guard of the source, and the state remembers, as history, whether each block it read was on
   the remote chain at that moment. `CompactionSafety` says what readers are served. `CompactionService` has the
   loops and `CompactedGroups` what they build.
4. **Readers.** `ChainView` and `StoredChain` read stored segments and a snapshot as one chain. `ClientStream` adds to
   the joint system a client whose server may switch to any later publication at any time and serves it blocks or
   stored segments; `DataStreams` is the stream's own loop. `JointTrace` builds whole runs of this system, step by
   step: in `StaleRun` compaction has read a chain that turns out stale, in `RestartRun` a restart forgets a client,
   and `PruneWatermark` says when prune jobs lower their own watermark; `PruneRun` shows that a prune job on its own
   is the prune loop.
5. **Queries.** `Indexes`, `Joins`, `Query`, `GroupBuilder`, `Filtering`, `FilterFragment`, `FilteredItems` and
   `FilterAgreement` are the query engine and its meaning. `SegmentBuilding`, `SegmentStream`, `SegmentSelection`,
   `SegmentTiling`, `FastPath` and `FastPathRefinement` are the fast path and its refinement of the slow one; `Sending`
   says which blocks either of them sends, in terms of the filters and of the bytes. `Wire` and `WireBlock` are the
   encoder, with a parser for the Protocol Buffers encoding (sections "Base 128 Varints", "Length-Delimited
   Records" and "Packed Repeated Fields").
6. **Starknet.** `StarknetRows`, `StarknetCollector`, `StarknetState`, `StarknetFilter` and `StarknetBlock` go from
   transactions, state updates and client filters to the rows that are sent; `StarknetServing` shows that such blocks
   meet all the hypotheses of the fast path. `StarknetAsked` says what a client is sent once more, from the fields of
   its filters and the contents of the blocks alone.

Imperative code is a method or a class proved against a function; the functions carry the properties.

## What the code needs

- Block hashes are not zero: a builder whose last hash is zero accepts any block.
- `take_segment` is called with a size of at least 1, and sizes of segments and groups are at least 1.
- Block numbers and row counts are below 2^32 where the source casts to `u32`; the casts themselves are modelled.
- Index ids count up from 0, each index has one scalar variant and none is empty. `StarknetServing` proves this of
  Starknet blocks; `Indexes.MixedVariantsCanMiss` and `GroupBuilder.EmptyIndexHidesBlocks` show why it is needed.
- One ingester runs at a time. The compaction proofs do not need their lock: any number of jobs may overlap.
- The provider does not report a finalized block above the one its own chain has finalized.
- Compaction reads soundly: the last block of a segment is on the remote chain when the segment job reads it
  (`CompactionSafety.LastOnChain`; one query before the job would tell). The guard of the source does not ask for it.
  Under it every final block stays readable, and without it one does not (`NothingIsLost`, `UnsoundReadIsNotServed`).
- A client is served from segments under a view that holds the last block it is sent (`ClientStream.Faithful`, exact by
  `BackfillSafeIffFaithful`). It is enough that compaction reads soundly and that the view is no older than a
  publication with that block (`SoundRunsLeadSafely`). The server's view of the chain and of the watermark come from
  independent watch events, so the code does not order them.

## What turned out not to hold

- `is_equivalent` is no equivalence relation once empty hashes take part (`Core.UnhashedIsNotTransitive`).
- A restart forgets reorg entries past the last block, so a client there is refused
  (`RecoverySafety.RestartForgetsPastTheEnd`, exact, and the run in `RestartRun.AClientIsForgotten`).
- An upload offset of 0 stops the service when a segment is full (`RecoverySafety.FullBuilderStops`, exact) and, with
  segments of two or more blocks, nothing is ever stored (`RecoverySafety.ZeroOffsetNeverStores`).
- The published finalized number may be ahead of a chain that is stale, and compaction's guard then admits a segment
  of blocks that are not final. For every fork of four blocks there is a run of the joint system in which such a
  segment is stored, grouped and pruned over: a final and published block is no longer readable
  (`StaleRun.ACanonicalBlockIsLost`), a client that was sent the stale block is refused during recovery
  (`StaleRun.AClientIsRefused`), and after it is sent on to a block that is no child of the one it holds
  (`StaleRun.AClientIsMisled`). The exact conditions are those above.
- `pruned` does not only rise: it is a plain put, and a prune job that was overtaken lowers it. A run from the first
  start to such a put is `PruneWatermark.APrunedWatermarkFalls`. The exact conditions: a step lowers it iff it is the
  put of a job that is not past the value stored (`StepLowersIff`); overlapping prune jobs can bring that about iff more
  than one round is left to prune (`OverlapLowersIff`); and with one prune job at a time, which is what the compaction
  lock is for, it never falls in any run (`PrunedRisesAlone`).
- The event filter's keys are documented as a prefix match, but only four are looked at
  (`StarknetFilter.PrefixMatchNeedsFourKeys`, exact). The model follows the code.
- A block with some traces, but none for an event or message, cannot serve every filter
  (`StarknetServing.FiltersWorkIffTracesReach`, exact).
- The grouped watermark is read again during a stream exactly when a group is a single block
  (`SegmentTiling.RereadIffSingleBlocks`).

## Model

| member | source | states |
|---|---|---|
| `Core.EquivalentIffSameValue` | common/src/core.rs:61-87 | on non-empty hashes `is_equivalent` holds iff the numbers match and the hashes are the same big-endian integer |
| `Core.EquivalenceRelation` | common/src/core.rs:61-87 | hence it is reflexive, symmetric and transitive on non-empty hashes |
| `Core.UnhashedIsNotTransitive` | common/src/core.rs:61-87 | with empty hashes transitivity fails: two different blocks of one height are both equivalent to the cursor without a hash |
| `ChainBuilder.CanonicalChainBuilder.RestoreFromSegment` | common/src/chain.rs:122-142 | the fields after restoring denote `Chain.Restore` of the segment and describe its blocks |
| `ChainBuilder.CanonicalChainBuilder.Grow` | common/src/chain.rs:159-206 | accepts exactly a child of the last block (anything after a zero hash or on an empty builder) and appends it; otherwise nothing changes |
| `ChainBuilder.CanonicalChainBuilder.RecordRemoved` | common/src/chain.rs:252-268 | the loop of `shrink` returns the removed blocks in order and adds one entry for each at its own height, next to older entries |
| `ChainBuilder.CanonicalChainBuilder.Shrink` | common/src/chain.rs:212-277 | the new fields are those of `Chain.Shrink`; a head that is not a block of the chain is refused and nothing changes |
| `ChainBuilder.CanonicalChainBuilder.CurrentSegment` | common/src/chain.rs:280-331 | the loops give every block its reorgs and list the entries past the last block from the lowest height up |
| `ChainBuilder.CanonicalChainBuilder.TakeSegment` | common/src/chain.rs:333-395 | the first `size` blocks leave with their reorgs, the rest stays; refused when fewer than `size` + 1 blocks are there |
| `Ledgers.GrowOnLedger` | common/src/chain.rs:159-206 | growing appends one hash to what readers see and leaves every reorg entry |
| `Ledgers.ShrinkOnLedger` | common/src/chain.rs:212-277 | shrinking succeeds iff the new head is canonical, and then cuts the chain there and makes exactly the removed blocks lead to it |
| `Ledgers.CurrentSegmentOnLedger` | common/src/chain.rs:280-331 | the written segment denotes the same chain and the same reorg entries as the builder |
| `Ledgers.TakeSegmentOnLedger` | common/src/chain.rs:333-395 | the taken segment and the remaining builder join to the chain before the split, entries included |
| `Ledgers.RestoreOnLedger` | common/src/chain.rs:122-142 | a restart keeps the chain and loses exactly the reorg entries past its last block |
| `Ledgers.RestoreAfterCurrent` | common/src/chain.rs:122-142 | restoring `current_segment` gives the builder back, height by height, but for those entries |
| `Ledgers.WholeAfterTake` | common/src/chain.rs:333-395 | taken segments followed by the builder concatenate to the unsplit chain after every split |
| `Ledgers.SegmentReads` | common/src/chain.rs:399-511 | `canonical` and `reconnect` answer from the chain a segment denotes: Continue on it, OfflineReorg for an entry, otherwise Unknown or an error |
| `ChainHistory.ApplyKeepsInv` | common/src/chain.rs:159-395 | grow, shrink, take and every refused call keep a linked chain in which each block ever canonical is remembered |
| `ChainHistory.RunRemembersEveryBlock` | common/src/chain.rs:212-277 | after any run each block ever canonical still is, or its entry names a strictly lower ancestor, and following entries ends at a canonical ancestor, also for reorgs on top of reorgs |
| `ChainHistory.SettlesOnCanonical` | common/src/chain.rs:470-511 | following reorg entries from a remembered cursor ends at a canonical block that is the cursor or an ancestor |
| `RemoteChain.NextKeepsInv` | spec/reorg_detection/chain.qnt:83-145 | hash uniqueness, the write-once parent map and the shape of the chain survive advancing, finalizing and reorganizing |
| `RemoteChain.NextSucceeds` | spec/reorg_detection/chain.qnt:99-135 | blocks keep height and parent for ever, final blocks stay, and a dropped block never comes back |
| `RemoteChain.RemoteIsLinked` | spec/reorg_detection/chain.qnt:137-145 | the remote chain is parent-linked from genesis and holds one block for each height |
| `IngestionService.IngestionService.PushTasks` | common/src/ingestion/service.rs:501-510 | the push loop queues consecutive numbers up to the head or the queue limit |
| `IngestionService.IngestionService.TickRefreshHead` | common/src/ingestion/service.rs:467-517 | the new state is that of `Ingestion.TickRefreshHead`, for any queue; `IngestionTicks.HeadTickMeans` says which that is |
| `IngestionService.IngestionService.IngestBlock` | common/src/ingestion/service.rs:606-649 | a block that follows is appended, a full chain is split, and the writes that are awaited are listed in order; another block starts recovery |
| `IngestionService.IngestionService.TickWithTaskResult` | common/src/ingestion/service.rs:542-669 | whole new state and writes for each kind of answer |
| `IngestionService.IngestionService.TickRecover` | common/src/ingestion/service.rs:671-773 | walks down block by block until the remote agrees, then shrinks to that block; the number of queries is counted |
| `IngestionTicks.HeadTickMeans` | common/src/ingestion/service.rs:467-517 | whatever is queued, a new head starts recovery iff it is above neither the known head nor the last ingested block; otherwise it is recorded and the following numbers are queued, stopping only at a full queue or at the head |
| `IngestionTicks.PushMeans` | common/src/ingestion/service.rs:501-510 | the queue gains the next numbers in order, and pushing stops only because the queue is full or the head is queued |
| `IngestionTicks.FinalizedTickMeans` | common/src/ingestion/service.rs:436-465 | a finalized block below the known one stops the service, and only that; any other is recorded and published |
| `IngestionTicks.PendingTickMeans` | common/src/ingestion/service.rs:519-540 | a pending block is fetched iff none is being fetched and the head is ingested, for the next generation |
| `IngestionTicks.OtherAnswerMeans` | common/src/ingestion/service.rs:542-605 | an error stops the service, a missing block starts recovery, and a pending answer is taken in |
| `IngestionTicks.StrayBlockMeans` | common/src/ingestion/service.rs:606-624 | a block that is no child of the last one starts recovery |
| `IngestionTicks.NextBlockMeans` | common/src/ingestion/service.rs:606-669 | a child is appended; if the blocks reach a segment and the offset, the oldest are stored as a segment and then the rest is published; otherwise the chain is published iff the block is not below the finalized one |
| `IngestionTicks.TaskEndsMeans` | common/src/ingestion/service.rs:963-1062 | the answer of a task is the remote block at its number, unless the request fails, and no other task changes |
| `IngestionTicks.ProbeAgreesMeans` | common/src/ingestion/service.rs:742-773 | recovery that finds a block of the remote cuts the chain there, publishes it, drops the queue and goes on from it |
| `IngestionTicks.ProbeDisagreesMeans` | common/src/ingestion/service.rs:697-741 | a block the remote does not have leads to the one below it, and below the first block of the builder recovery gives up |
| `IngestionTicks.RecoveryBeginsMeans` | common/src/ingestion/service.rs:671-694 | recovery looks first at the last ingested block |
| `IngestionTicks.FirstStartMeans` | common/src/ingestion/service.rs:262-362 | a first start takes in and publishes the remote block at the starting number |
| `IngestionTicks.RestartMeans` | common/src/ingestion/service.rs:262-362 | a restart goes on ingesting iff the remote still has the last published block, and otherwise recovers; it forgets exactly the entries past that block |
| `IngestionTicks.LandMeans` | common/src/ingestion/service.rs:817-839 | writes land one by one in order, and a chain counts as published with the key that names its snapshot |
| `IngestionSafety.StepKeepsInv` | common/src/ingestion/service.rs:262-930 | the joint invariant of remote chain, ingester and store is kept by every tick, remote step, landing write, crash and restart |
| `IngestionSafety.ReachableInv` | common/src/ingestion/service.rs:262-930 | it holds in every state of every run from a fresh deployment, together with what the code takes for granted |
| `IngestionSafety.QueueFollowsTheChain` | common/src/ingestion/service.rs:467-694 | the builder is parent-linked, ends at `last_ingested`, queued blocks are exactly the following numbers in order, and the mismatch branch of recovery is unreachable |
| `IngestionSafety.ReadersKeepTheirChain` | common/src/ingestion/service.rs:817-839 | crash consistency: from its publication on, each snapshot and the stored segments below it are the same gap-free linked chain in every later state, and the etcd key names the last published snapshot |
| `IngestionSafety.VisibleSegmentsStay` | common/src/ingestion/service.rs:625-648 | a segment that a reader of some publication looks at is never written again |
| `IngestionSafety.FinalBlocksStay` | common/src/ingestion/service.rs:671-773 | a published block that is final on the remote is in every later publication |
| `IngestionSafety.LaterPublicationsFollow` | common/src/ingestion/service.rs:872-930 | over any run, each later publication counts no fewer segments, knows every cursor an earlier one knew unless a restart dropped its entry, and holds those of the earlier blocks that the remote chain then has |
| `RecoverySafety.RecoveryKeepsCommonBlocks` | common/src/ingestion/service.rs:671-773 | when recovery returns to ingesting, the chain is exactly the old blocks that are on the remote at that query: the head is the highest common block and nothing final is removed |
| `RecoverySafety.RecoveryQueries` | common/src/ingestion/service.rs:671-773 | whatever the remote answers, there are at most as many queries as blocks in the segment, and recovery stops at the first block the remote agrees with |
| `RecoverySafety.RecoveryGivesUp` | common/src/ingestion/service.rs:728-741 | it fails only at the bottom of the segment, when no block of it is on the remote chain |
| `RecoverySafety.RestartForgetsPastTheEnd` | common/src/chain.rs:122-142 | after a restart a client past the last block is refused and every other removed block still leads where it did |
| `RestartRun.AClientIsForgotten` | common/src/chain.rs:122-142 | such entries arise, for every fork: a run of the whole deployment in which a client is led back before a restart and refused after it |
| `RecoverySafety.FullBuilderStops` | common/src/ingestion/service.rs:625-648 | ingesting a following block stops the service iff the upload offset is 0 and the block fills a segment |
| `RecoverySafety.ZeroOffsetNeverStores` | common/src/ingestion/service.rs:625-648 | with offset 0 and segments of two blocks or more no run ever stores or splits off a segment |
| `ChainView.ViewReads` | common/src/chain_view/full.rs:136-174 | every lookup through `get_chain_segment` answers from one chain made of stored segments and the snapshot |
| `ChainView.CanonicalAtReads` | common/src/chain_view/full.rs:113-169 | `get_canonical(n)` is the n-th block of that chain |
| `ChainView.NextCursorIsSafe` | common/src/chain_view/full.rs:55-83 | for a remembered cursor `get_next_cursor` does not fail: it waits at the head, names a child, or names a strictly lower remembered ancestor |
| `ChainView.InvalidationsStop` | common/src/chain_view/full.rs:55-83 | on one view consecutive Invalidate answers stop at a canonical ancestor within as many steps as there are blocks below |
| `ChainView.UnknownIsRefused` | common/src/chain_view/full.rs:55-83 | a cursor the view does not remember is refused, never led anywhere |
| `ChainView.UnhashedContinues` | common/src/chain_view/full.rs:55-83 | a cursor without a hash stands for the canonical block of its height |
| `ChainView.ValidateCursor` | common/src/chain_view/full.rs:85-107 | the answer on the chain the view denotes: an error iff the height is past the head; otherwise Valid, with a known block equivalent to the cursor (the canonical one first), iff there is one, and else Invalid with exactly the known blocks of that height; a Valid answer reconnects as Continue or OfflineReorg |
| `ChainView.FoundIffKnown` | common/src/chain_view/full.rs:85-107 | a cursor is found by the lookups of a view iff the chain of the view has it or an entry for it |
| `ChainView.FoundIsRemembered` | common/src/chain_view/full.rs:85-107 | a cursor found valid is one the view remembers, so a stream from it is safe |
| `ClientStream.ClientStepKeepsInv` | common/src/data_stream/stream.rs:227-293 | a client that stands safely still does after joining, a tick, a change of view and a faithful segment stream |
| `ClientStream.BackfillSafeIffFaithful` | common/src/data_stream/stream.rs:316-406 | after a step of a segment stream, of one block or many, the client stands safely if and only if every block it was sent had been read soundly and the view holds the last of them |
| `ClientStream.ClientsAreLedSafely` | common/src/data_stream/stream.rs:227-406 | in every state of every run of remote chain, ingester, compaction, server and client, with views and watermarks changing during segment streams too, if the streams were faithful the next answer is safe, and while no restart dropped an entry it is not refused |
| `ClientStream.SoundRunsLeadSafely` | common/src/data_stream/stream.rs:227-406 | the same from two conditions on the run alone: the last block of each segment job was on the remote chain when read, and views are no older than a publication that holds what they serve |
| `ClientStream.InvalidationsAreBounded` | common/src/data_stream/stream.rs:238-260 | over any stretch of a run in which every tick is answered Invalidate, with changes of view and steps of all others in between, there are at most as many ticks as blocks below the cursor |
| `ClientStream.StaleBackfillMisleads` | common/src/data_stream/stream.rs:316-406 | once a view has the block of the remote, a client that was sent another block of that height from a segment gets an unsafe answer |
| `ClientStream.UnhashedSafeIffCanonical` | common/src/chain_view/full.rs:55-83 | a client whose cursor has no hash is led safely if and only if the view holds the block it stands for |
| `StaleRun.AClientIsRefused` | common/src/data_stream/stream.rs:316-406 | for every fork: a run in which a client sent a stale block from a segment is refused, although no restart dropped anything |
| `StaleRun.AClientIsMisled` | common/src/data_stream/stream.rs:316-406 | for every fork: a run in which such a client is then sent on to a block that is no child of the one it holds |
| `StateClient.EtcdKey.PutIfHigher` | common/src/ingestion/state_client.rs:367-420 | the retry loop ends at or past its block, never lowers the value, retries only after others wrote, and writes nothing if the value is already as high |
| `StateClient.StepKeepsInv` | etcd/src/kv.rs:60-88 | the joint invariant of any number of interleaved readers and conditional puts is kept by each read, put and crash |
| `StateClient.ValueOnlyGrows` | common/src/ingestion/state_client.rs:367-420 | over any run of concurrent writers the stored value never decreases |
| `StateClient.ReturnedMeansStored` | common/src/ingestion/state_client.rs:367-420 | a returned call leaves a value at least its block, for ever |
| `StateClient.FinalValueIsTheMaximum` | common/src/ingestion/state_client.rs:367-420 | when all calls have returned the value is the maximum of their blocks and the initial value |
| `StateClient.AttemptsAreBounded` | common/src/ingestion/state_client.rs:367-420 | a call makes at most as many conditional puts as there are writers |
| `Watermarks.HasSegmentIffSegmented` | common/src/chain_view/view.rs:285-303 | `has_segment_for_block` holds exactly up to an aligned watermark |
| `Watermarks.HasGroupIffGrouped` | common/src/chain_view/view.rs:305-324 | `has_group_for_block` holds exactly up to an aligned watermark |
| `Watermarks.GroupAlignedIsSegmentAligned` | common/src/chain_view/view.rs:285-324 | the end of a group is the end of a segment |
| `Compaction.StepKeepsInv` | common/src/compaction/segment.rs:53-303 | any interleaving of the ingester, the remote chain and any number of segment, group and prune jobs keeps: watermarks aligned and below what is final, their objects uploaded as read, blocks deleted only below `grouped` |
| `Compaction.ReachableInv` | common/src/compaction/segment.rs:53-303 | hence that holds in every state of every joint run, and what a step takes for granted holds before it |
| `Compaction.WatermarksInOrder` | common/src/compaction/group.rs:109-113 | in every reachable state pruned <= grouped < segmented < finalized, all aligned |
| `CompactionSafety.NothingIsLost` | common/src/compaction/prune.rs:57-123 | in every state of every run whose segment jobs read soundly, each block that is final on the remote and was ever published or compacted is served: its own object above `segmented`, else its segment in every fragment and its group |
| `CompactionSafety.LaggingViewServesIff` | common/src/chain_view/view.rs:285-303 | through a view that lags such a block is served iff it is at or below the watermark the view has seen or its object is not deleted yet; so always, if published, once the view has seen a watermark not below `grouped` |
| `CompactionSafety.UnsoundReadIsNotServed` | common/src/compaction/segment.rs:77-103 | conversely, once a segment whose last block was not on the remote chain as read is stored and counted, readers of that height are never served the final block |
| `CompactionSafety.ServedIffSound` | common/src/compaction/prune.rs:57-123 | in every state that the invariant allows, all such blocks are served if and only if everything stored up to `segmented` was on the remote chain when it was read |
| `CompactionSafety.ReadsSoundIffLastOnChain` | common/src/compaction/segment.rs:77-103 | all blocks that a job reads under the guard are on the remote chain if and only if the last one is |
| `StaleRun.ACanonicalBlockIsLost` | common/src/compaction/prune.rs:89-119 | for every fork: a run through publication, segment, group, recovery and pruning after which a final, published block has no object and its segment holds the stale one |
| `Compaction.RunKeeps` | common/src/compaction/segment.rs:278-303 | over any run `segmented` and `grouped` only rise, an uploaded object stays as it was read, and a final block stays final |
| `PruneWatermark.PrunedRisesAlone` | common/src/compaction/prune.rs:57-123 | in every run with at most one prune job under way at a time `pruned` never falls, whatever else happens |
| `PruneWatermark.StepLowersIff` | common/src/compaction/prune.rs:108-121 | a step lowers `pruned` iff it is the put of a prune job that has not got past the stored value |
| `PruneWatermark.OverlapLowersIff` | common/src/compaction/prune.rs:57-123 | from any reachable state without a prune job under way, prune jobs alone can lower `pruned` iff more than a round is left to prune |
| `PruneWatermark.APrunedWatermarkFalls` | common/src/compaction/prune.rs:57-123 | for every fork: a run from the first start in which it falls |
| `PruneRun.PruneJobIsTheLoop` | common/src/compaction/prune.rs:57-123 | from every state of every joint run, a prune job that nothing overlaps deletes the heights that `PruneLoop` deletes and leaves `pruned` as it does |
| `CompactionSafety.FinalUpToIffOnChain` | common/src/compaction/segment.rs:77-103 | a view's blocks up to a finalized height are final iff its block at that height is on the remote chain |
| `CompactionService.CompactSegment` | common/src/compaction/segment.rs:121-260 | whatever the queue and however the view changes between questions, it succeeds iff each view asked goes on from the block the one before answered, and then the blocks are one consecutive stretch of the chain of the last view asked |
| `CompactionService.WalkIsInLast` | common/src/compaction/segment.rs:121-260 | why: blocks linked in an earlier view are linked in every view that holds the last of them |
| `CompactionService.CompactGroup` | common/src/compaction/group.rs:126-228 | however many segments are downloaded ahead, the group is built from all blocks of its segments in order; it fails iff one is missing or there are none |
| `CompactedGroups.CompactedGroupIsStored` | common/src/compaction/group.rs:126-246 | what is built from stored segments is the index of all blocks of the group, with its exact range and first block, as the fast path expects it |
| `CompactionService.BlockStore.PruneLoop` | common/src/compaction/prune.rs:57-123 | deletes exactly the heights up to a closed-form end, never past `grouped`, and records the last one |
| `SegmentBuilding.SegmentBuilder.AddBlock` | common/src/compaction/segment_builder.rs:43-110 | a block with another number of fragments is refused and leaves no trace; otherwise it is filed under every fragment |
| `SegmentBuilding.SegmentBuilder.TakeSegmentData` | common/src/compaction/segment_builder.rs:112-215 | succeeds iff a segment was started and every fragment has one entry per block, and then is the transposition of the added blocks |
| `SegmentBuilding.BuildSegment` | common/src/compaction/segment.rs:125-270 | a segment job's use of the builder: it fails iff the number of blocks is wrong, their numbers of fragments differ or an id has another number of entries, and otherwise gives the transposition of the blocks |
| `SegmentBuilding.EntryIsOwn` | common/src/compaction/segment_builder.rs:43-110 | with as many entries as blocks and distinct ids, entry i of a fragment is block i's own |
| `SegmentBuilding.SegmentReadsLikeBlocks` | common/src/data_stream/segment_access.rs:105-206 | reading at a block's offset in the segment gives the block's own index, join, header and body fragments |
| `Indexes.GetFinds` | common/src/index.rs:88-99 | binary search finds a key's bitmap iff the key is there |
| `Indexes.BuiltHolds` | common/src/index.rs:63-75 | the built index holds a row under a key iff it was inserted there |
| `Indexes.MixedVariantsCanMiss` | common/src/index.rs:101-123 | with mixed scalar variants the comparison is no order and a present key can be missed |
| `Joins.BuiltOne` | common/src/join.rs:28-84 | lookup in the built join gives exactly the row that was inserted last |
| `Joins.BuiltMany` | common/src/join.rs:47-97 | lookup in the built join gives exactly the rows that were inserted |
| `Query.FilterRows` | common/src/query.rs:106-134 | the narrowing loop, with its early exit and its errors, is the recursive narrowing |
| `Query.FilterMeans` | common/src/query.rs:106-134 | a filter selects exactly the rows of the range that satisfy every condition |
| `GroupBuilder.SegmentGroupBuilder.AddSegment` | common/src/compaction/group_builder.rs:32-71 | the nested loops add every block of the segment and move the range |
| `GroupBuilder.SegmentGroupBuilder.Finish` | common/src/compaction/group_builder.rs:73-108 | an error iff no segment was added; otherwise the loops over fragments and indexes and the final sort give one bitmap per fragment, index and key, in ascending order |
| `GroupBuilder.SortSorts` | common/src/compaction/group_builder.rs:103 | the final sort orders the fragments and loses none |
| `GroupBuilder.AscendingIsSorted` | common/src/compaction/group_builder.rs:103 | and leaves fragments that ascend as they are, which the walk over the tree map always gives |
| `GroupBuilder.BlocksAdded` | common/src/compaction/group_builder.rs:32-71 | for each fragment, index and key the group lists exactly the blocks that hold it |
| `GroupBuilder.GroupKeepsMatchingBlocks` | common/src/compaction/group_builder.rs:32-108 | no false negatives: a filter that matches a row of a block selects the block in the group |
| `GroupBuilder.EmptyIndexHidesBlocks` | common/src/compaction/group_builder.rs:55-66 | why no index may be empty: such a block matches on its own and is missing in the group |
| `Filtering.FilterMatches.AddMatch` | common/src/data_stream/filter.rs:42-50 | adding a bitmap row by row adds the filter id to exactly its rows |
| `Filtering.WantedMeans` | common/src/data_stream/stream.rs:639-717 | a row carries filter id f iff a filter f selects it, or one with that join selects a row joined to it; one hop only |
| `FilterFragment.FilterOne` | common/src/data_stream/stream.rs:620-797 | the loops over fragments, filters, joins and rows, with all their errors, give what the declarative filter says |
| `FilteredItems.ItemsAreWanted` | common/src/data_stream/stream.rs:728-797 | items come in fragment and row order, one for exactly the rows that some filter selects or brings along by a join, each with exactly those filters and its own message |
| `FilteredItems.HeaderSentIff` | common/src/data_stream/stream.rs:719-735 | the header goes with a block iff it is always wanted, some filter selects a row, or the block is live and the filter also wants new heads; and it is the block's own |
| `FilteredItems.FilterWorksIff` | common/src/data_stream/stream.rs:639-751 | filtering works iff every filter has its index, every join asked for by a filter with a row is there, the fragments to be sent have a name and a body with those rows, and the header is there if due |
| `FilterAgreement.FilteredAgrees` | common/src/data_stream/stream.rs:620-797 | only bodies of matched fragments are read, so a segment fetched with those gives the same result |
| `SegmentStream.SelectBlocks` | common/src/data_stream/segment_stream.rs:133-182 | one group's selection: blocks with data and the fragments to fetch for them |
| `SegmentSelection.SelectionMeans` | common/src/data_stream/segment_stream.rs:133-182 | the selection is exact: a block is in it iff some filter finds it in the group or all headers are wanted, a fragment iff some filter that finds something is for it or asks for it |
| `SegmentSelection.GroupFetchesMean` | common/src/data_stream/segment_stream.rs:184-222 | exactly the segments with a selected block are fetched, with those blocks; an error iff there is one and a fragment has no name |
| `SegmentSelection.GroupWorksIff` | common/src/data_stream/segment_stream.rs:160-222 | a group works iff its index is there, has an index for every filter and every fragment to fetch has a name |
| `SegmentSelection.AllNeededMeans` | common/src/data_stream/segment_stream.rs:245-306 | without groups, exactly the fragments that filters are for or ask for are fetched |
| `SegmentStream.RunGroups` | common/src/data_stream/segment_stream.rs:73-243 | the queue of groups fetched ahead changes nothing: the phase is the plain walk over groups, and its order check never fails |
| `SegmentStream.RunSegments` | common/src/data_stream/segment_stream.rs:245-306 | the segment phase is the plain walk over segments |
| `SegmentStream.Start` | common/src/data_stream/segment_stream.rs:54-311 | both phases and the hand-over between them |
| `SegmentTiling.StreamTiles` | common/src/data_stream/segment_stream.rs:54-311 | fetched segments are ascending, disjoint, start at the aligned group, and the last ends exactly at `segmented` |
| `SegmentTiling.RereadIffSingleBlocks` | common/src/data_stream/segment_stream.rs:227-241 | the watermark is read again, and the stream ends if it is gone, exactly when a group is a single block; otherwise the phase always ends right after the watermark |
| `SegmentTiling.GoneWatermarkEnds` | common/src/data_stream/segment_stream.rs:227-241 | if the watermark is then gone, the whole stream ends there and nothing from it on is fetched |
| `FastPath.UnselectedIsQuiet` | common/src/data_stream/segment_stream.rs:133-220 | a block the group selection leaves out can be filtered and has nothing to send |
| `FastPath.NeededIsEnough` | common/src/data_stream/segment_stream.rs:133-220 | every fragment read for a block of the group is among those fetched |
| `FastPathRefinement.FastIsSlow` | common/src/data_stream/stream.rs:316-406 | the segment stream and its consumer send exactly the messages of filtering each block from the cursor to `segmented` on its own, up to the same error if there is one |
| `FastPath.SlowFails` | common/src/data_stream/stream.rs:409-480 | which is when some block from the cursor on cannot be filtered |
| `Sending.OutputsMean` | common/src/data_stream/stream.rs:620-640 | one output for each filter, its own, in order; the block fails iff one filter does |
| `Sending.HasDataIffBytes` | common/src/data_stream/stream.rs:799-808 | there is data iff the bytes of one filter's output are not empty |
| `Sending.HasDataIffDue` | common/src/data_stream/stream.rs:719-824 | there is data iff some filter, whichever, selects a row or is due the header |
| `Sending.SlowSends` | common/src/data_stream/stream.rs:409-480 | block by block: exactly the blocks with something due are sent, up to the first that fails, once each and in order, with what the filters make of them |
| `Sending.FastSends` | common/src/data_stream/stream.rs:316-406 | and so by the segment stream |
| `Sending.SingleSends` | common/src/data_stream/stream.rs:446-480 | a block on its own is sent iff something is due, at the head also a header for its own sake |
| `Sending.PendingSends` | common/src/data_stream/stream.rs:543-618 | a pending block with something due is sent, unless its data is what was sent last |
| `DataStreams.DataStream.Tick` | common/src/data_stream/stream.rs:227-293 | whole new state and messages for every answer of the chain view, with the finality filter and the wait at the head |
| `DataStreams.DataStream.TickAtHead` | common/src/data_stream/stream.rs:486-618 | the wait at the head, with or without pending blocks: messages, finalized cursor and errors for any list of events |
| `DataStreams.WaitTellsAll` | common/src/data_stream/stream.rs:486-618 | during a wait each move of the finalized cursor is told, in order, the same pending data is never sent twice in a row, none goes to a stream that did not ask for it, and nothing else is sent: all data is pending and live, from the head to the number after it, made of a pending block of the wait |
| `DataStreams.WaitWorksIff` | common/src/data_stream/stream.rs:486-618 | a wait fails iff a finalized cursor or, if asked for, a pending block cannot be read or filtered |
| `DataStreams.DataStream.TickSegmentStream` | common/src/data_stream/stream.rs:316-406 | everything fetched is filtered, sent in order, and the cursor moves to the last block |
| `DataStreams.DataStream.TickSingle` | common/src/data_stream/stream.rs:409-480 | one block is filtered and sent, from the stream's cursor to the block's, finalized iff it is not above the finalized cursor, live iff it is the head; or nothing changes |
| `DataStreams.EndsAtTheLastBlock` | common/src/data_stream/stream.rs:316-406 | after the stream the cursor is the last block of the last segment |
| `DataStreams.EndsAtTheLastRead` | common/src/data_stream/stream.rs:360-404 | in general it is the last block read that is not before the start, without a hash, and unchanged if there is none |
| `DataStreams.SameButForHashes` | common/src/data_stream/stream.rs:366-480 | a block sent from a segment and on its own gives the same data, finality and production, and equivalent cursors |
| `Wire.EncodedLenIsLength` | common/src/data_stream/stream.rs:49-62 | the varint length formula is the length of the encoding for every 64-bit number |
| `Wire.BodyItemLenPredicts` | common/src/data_stream/stream.rs:64-111 | the predicted item length is the number of bytes written, or an error iff it does not fit |
| `WireBlock.WriteBlock` | common/src/data_stream/stream.rs:753-797 | the predicted size is an error iff the block does not fit, and otherwise exactly the bytes written |
| `WireBlock.VarintRoundTrip` | common/src/data_stream/stream.rs:113-131 | a varint parser reads back every number |
| `WireBlock.FieldRoundTrip` | common/src/data_stream/stream.rs:113-174 | a field parses back to its payload and to its tag if that fits into a 32-bit key, and otherwise to what fits |
| `WireBlock.BlockRoundTrip` | common/src/data_stream/stream.rs:113-174 | a protobuf parser recovers the header and then each row: its tag, packed filter ids and original message |
| `WireBlock.FilteredRoundTrip` | common/src/data_stream/stream.rs:753-797 | the parsed block gives every item of the filter's result its fragment, filters and message, in order |
| `WireBlock.EmptyBlockIsEmpty` | common/src/data_stream/stream.rs:797-808 | nothing is written iff there is neither header nor item |
| `StarknetCollector.LinkSiblings` | starknet/src/ingestion.rs:596-617 | the double loop links every two different rows both ways and no row to itself |
| `StarknetCollector.LinkMessages` | starknet/src/ingestion.rs:596-608 | the double loop links each event with each message of the transaction, both ways |
| `StarknetCollector.BlockCollector.AddTransaction` | starknet/src/ingestion.rs:478-659 | after each transaction every index says exactly what the rows say and every join leads exactly to the rows of the same transaction |
| `StarknetCollector.BlockCollector.Collect` | starknet/src/ingestion.rs:428-659 | hence for the whole block |
| `StarknetState.CollectStateUpdate` | starknet/src/ingestion.rs:1013-1110 | the six loops over a state update: each index says exactly what the rows of its fragment hold, counted over all lists of the fragment |
| `StarknetBlock.IngestBlock` | starknet/src/ingestion.rs:376-417 | the stored block has eight index, join and body fragments in order, which describe its transactions, traces and state update, with one message made from each row |
| `StarknetServing.IngestedHasBodies` | starknet/src/ingestion.rs:988-1217 | its bodies have distinct ids and one message for each row |
| `StarknetFilter.CompileToBlockFilter` | starknet/src/filter/mod.rs:63-108 | fails iff one filter of the six lists does; otherwise exactly the compiled filters, each under its fragment, and header filter Always iff the number is 1, OnData iff it is 2, else the default |
| `StarknetFilter.CreateBlockFilter` | starknet/src/filter/mod.rs:27-60 | a client is accepted iff it sends one to five messages that all compile and one of which asks for headers or rows; its filters are then those of its messages |
| `StarknetFilter.PrefixMatchNeedsFourKeys` | protocol/proto/starknet/v2/filter.proto:37-38 | the documented prefix match is what the four indexed keys give iff all later keys of the filter are wildcards |
| `StarknetBlock.EventsSelected` | starknet/src/filter/event.rs:17-117 | the compiled filter on the built index selects exactly the events with that address, first four keys, strict length and status |
| `StarknetBlock.MessagesSelected` | starknet/src/filter/message.rs:16-89 | likewise for messages: sender, receiver and status |
| `StarknetBlock.TransactionsSelected` | starknet/src/filter/transaction.rs:34-111 | likewise for transactions: type and status |
| `StarknetBlock.AddressesSelected` | starknet/src/filter/storage_diff.rs:11-28 | likewise for storage diffs and nonces: the contract |
| `StarknetBlock.ChangesSelected` | starknet/src/filter/contract_change.rs:19-43 | likewise for contract changes: the kind of change |
| `StarknetBlock.EventLeads` | starknet/src/ingestion.rs:834-875 | event joins lead exactly to the transaction, receipt, trace, messages and other events of the same transaction |
| `StarknetBlock.MessageLeads` | starknet/src/ingestion.rs:911-957 | likewise for messages |
| `StarknetBlock.TransactionLeads` | starknet/src/ingestion.rs:701-738 | likewise for transactions |
| `StarknetBlock.SentIffAskedFor` | starknet/src/ingestion.rs:376-417 | end to end, for all six kinds of filters: a row is sent for filter id f iff a client filter f describes it, or describes a row of the same transaction and asks for its fragment |
| `StarknetFilter.ListedMeans` | starknet/src/filter/mod.rs:79-107 | the filters compiled are exactly those in the six lists of the message |
| `StarknetAsked.CompilesIff` | starknet/src/filter/event.rs:60-71 | a filter is refused iff its status is a number outside 0 to 3 |
| `StarknetAsked.IncludesIff` | starknet/src/filter/event.rs:91-110 | a compiled filter joins with exactly the fragments whose include field is true, for all three kinds of filters with such fields |
| `StarknetAsked.EventRowIs` | starknet/src/ingestion.rs:478-520 | row Σ + i of the events, Σ counting those of earlier transactions, is event i of its transaction with that transaction's status |
| `StarknetAsked.MessageRowIs` | starknet/src/ingestion.rs:478-520 | likewise for messages |
| `StarknetAsked.DescribesIff` | protocol/proto/starknet/v2/filter.proto:31-163 | a filter describes exactly the rows its fields ask for, said of the transactions, their reverted flag and the lists of the state update |
| `StarknetAsked.LeadsIff` | starknet/src/ingestion.rs:596-617 | joins lead exactly to the other rows of the same transaction |
| `StarknetAsked.AsksIff` | protocol/proto/starknet/v2/filter.proto:31-163 | what `SentIffAskedFor` says a client asked for is what its fields say |
| `StarknetAsked.SentIffAsked` | common/src/data_stream/stream.rs:620-797 | end to end: an item is sent for filter id f iff a filter f in one of the message's lists asks for its row by its fields |
| `StarknetAsked.SentAsEncoded` | starknet/src/ingestion.rs:478-659 | and its message is the encoding of that row's own transaction, receipt, event, message or change |
| `StarknetAsked.DueIff` | common/src/data_stream/stream.rs:719-824 | something of a block is due to a client iff one of its messages wants all headers, describes a row, or wants new heads at the head |
| `StarknetServing.NoFilterFails` | common/src/data_stream/stream.rs:620-797 | on an ingested block whose traces reach its events and messages no client filter fails |
| `StarknetServing.ShortTracesFail` | starknet/src/ingestion.rs:513-515 | if traces run short of an event or message, a filter that some client may send fails |
| `StarknetServing.FiltersWorkIffTracesReach` | starknet/src/ingestion.rs:513-515 | so on an ingested block every filter of every client works if and only if the traces reach or there are none |
| `StarknetServing.ClientsAreServedFast` | common/src/data_stream/segment_stream.rs:54-311 | over ingested and compacted Starknet blocks, and for all filters a client may send, the fast path sends exactly what the slow path would and fails exactly when that does, which is never if the traces of the blocks reach |
| `StarknetAsked.ClientIsSent` | common/src/data_stream/segment_stream.rs:54-311 | ingestion, compaction, filters and streaming together: the segment stream sends an accepted client exactly the blocks of which a message wants all headers or describes a row, in order and once each |

## Left out

- Progress of ingestion: recovery keeps the old head and an unchanged head queues nothing, so only safety is stated.
- Object stores, compression, checksums, rkyv bytes and the cache: the store is a map and serialization the identity.
- The etcd client, leases, lock keep-alive and watches: etcd is a map with growing revisions.
- Roaring bitmaps: finite sets of numbers; failures while building one are not modelled.
- The contents of encoded Starknet messages and `starknet/src/proto.rs`: field copying; one message for each row is
  stored, any function of the row. Other members of `TransactionFilter` messages than the transaction type likewise. Field elements are
  numbers, so `to_bytes` is injective.
- The legacy `canon/recent` migration and the fallback for a missing snapshot: published snapshots exist.
- Heartbeats, timers and SHA-256: ticks are steps that may happen at any time, and the content hash is any function.
- The gRPC server, metrics, logging and command line.
- The order of `siblings` and of the filter ids inside one item: both come from unordered or sorted maps and are sets here.
- Cancellation: a cancelled loop is a crash of its job in `Compaction` and is not modelled in the streams.
- Compaction.StepKeepsInv: a segment job reads all its blocks in one step. By `CompactionService.CompactSegment` what it
  reads is a stretch of the last view it asked, which is the publication of that step; but a job that loaded a block
  before an overlapping prune job deleted the block is left out, since all blocks must be there in that step.
- DataStreams.SameButForHashes: leaves out the very first block of a chain that does not start at 0, for which data
  from a segment names the number before it as its cursor and data sent on its own names none.
- FastPathRefinement.FastIsSlow: takes as hypotheses that every block has the indexes that filters name, dense and of
  one variant each, and fragments with distinct ids. `StarknetServing` proves them of Starknet blocks.
- StarknetCollector.BlockCollector.Collect: row numbers are not cut to 32 bits.
