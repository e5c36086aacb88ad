/**
 * Ingested Starknet blocks meet everything the common stream needs: no client filter fails on them, and the fast path
 * serves them.
 */
module StarknetServing {
  import opened Core
  import opened Sorting
  import opened Indexes
  import opened Joins
  import opened Fragments
  import opened Query
  import opened Filtering
  import opened FilterFragment
  import opened FilteredItems
  import opened GroupBuilder
  import opened SegmentBuilding
  import opened Watermarks
  import opened SegmentStream
  import opened FastPath
  import opened FastPathRefinement
  import opened StarknetRows
  import opened StarknetCollector
  import opened StarknetState
  import opened StarknetFilter
  import opened StarknetBlock

  const OWN_FRAGMENTS: set<nat> :=
    {TRANSACTION_FRAGMENT_ID, RECEIPT_FRAGMENT_ID, EVENT_FRAGMENT_ID, MESSAGE_FRAGMENT_ID, TRACE_FRAGMENT_ID,
     STORAGE_DIFF_FRAGMENT_ID, CONTRACT_CHANGE_FRAGMENT_ID, NONCE_UPDATE_FRAGMENT_ID}

  /** One message for each row. */
  ghost predicate HasBodies(block: Block, d: Contents) {
    forall id :: id in OWN_FRAGMENTS ==>
      FindBody(block.body, id).Ok? && |FindBody(block.body, id).value.data| == RowCount(d, id)
  }

  ghost predicate StarknetKinds(kind: (nat, nat) -> nat) {
    forall i: nat ::
      && kind(EVENT_FRAGMENT_ID, i) == EventKind(i) && kind(MESSAGE_FRAGMENT_ID, i) == MessageKind(i)
      && kind(TRANSACTION_FRAGMENT_ID, i) == TransactionKind(i) && kind(STORAGE_DIFF_FRAGMENT_ID, i) == 8
      && kind(CONTRACT_CHANGE_FRAGMENT_ID, i) == 5 && kind(NONCE_UPDATE_FRAGMENT_ID, i) == 8
  }

  /** There is a trace for every event and message, or there are none at all. */
  ghost predicate TracesReach(d: Contents) {
    d.traces > 0 ==>
      AllBelow(EventOwners(AllEvents(d.transactions)), d.traces)
      && AllBelow(MessageOwners(AllMessages(d.transactions)), d.traces)
  }

  /** A block as it is stored. */
  ghost predicate Ingested(block: Block, c: Collected, d: Contents) {
    Stores(block, c, d) && HasBodies(block, d) && DistinctIds(block.body)
  }

  lemma {:induction false} FindBodyAt(fragments: seq<BodyFragment>, k: nat)
    requires k < |fragments| && forall i :: 0 <= i < k ==> fragments[i].fragmentId != fragments[k].fragmentId
    ensures FindBody(fragments, fragments[k].fragmentId) == Ok(fragments[k])
    decreases k
  {
    if k > 0 { FindBodyAt(fragments[1..], k - 1); }
  }

  /** Everything that `IngestBlock` makes is such a block. */
  lemma IngestedHasBodies(block: Block, d: Contents, encode: (nat, RowData) -> Bytes)
    requires block.body == EncodedBodies(d, encode, BODY_IDS)
    ensures HasBodies(block, d) && DistinctIds(block.body)
  {
    hide RowCount, RowAt, FindBody;
    forall id | id in OWN_FRAGMENTS
      ensures FindBody(block.body, id).Ok? && |FindBody(block.body, id).value.data| == RowCount(d, id)
    {
      assert id in BODY_IDS;
      var k :| 0 <= k < |BODY_IDS| && BODY_IDS[k] == id;
      FindBodyAt(block.body, k);
    }
  }

  // ------------------------------------------------------------------ every row a client is sent is there

  lemma AsksForOwn(f: ClientFilter, target: nat)
    requires target in AsksFor(f) || target == SourceOf(f)
    ensures target in OWN_FRAGMENTS
  {
  }

  lemma LeadsToARow(d: Contents, source: nat, target: nat, a: nat, b: nat)
    requires target in OWN_FRAGMENTS && TracesReach(d) && Leads(d, source, target, a, b)
    ensures b < RowCount(d, target)
  {
    hide AllEvents, AllMessages;
    OwnersBelow(d.transactions);
  }

  lemma AskedRowExists(f: ClientFilter, d: Contents, target: nat, row: nat)
    requires TracesReach(d) && AskedFor(f, d, target, row)
    ensures target in OWN_FRAGMENTS && row < RowCount(d, target)
  {
    hide AllEvents, AllMessages, Leads, AsksFor, EventMatches, MessageMatches, TransactionMatches;
    AsksForOwn(f, target);
    if !(target == SourceOf(f) && Describing(f, d, row)) {
      var n: nat :| Describing(f, d, n) && Leads(d, SourceOf(f), target, n, row);
      LeadsToARow(d, SourceOf(f), target, n, row);
    }
  }

  lemma WantedRowExists(block: Block, c: Collected, d: Contents, all: seq<ClientFilter>,
                        filters: map<nat, seq<Filter>>, target: nat, row: nat)
    requires row in Wanted(OfBlock(block), filters, target) && CompiledTo(filters, all) && TracesReach(d)
             && Ingested(block, c, d)
    ensures target in OWN_FRAGMENTS && row < RowCount(d, target)
  {
    hide MergeAll, Stores, HasBodies, BlockOk, CompiledTo, AskedFor, RowCount, IdsAt;
    WantedIsNonEmpty(OfBlock(block), filters, Sorted(filters.Keys), target, row);
    var id :| id in IdsAt(Wanted(OfBlock(block), filters, target), row);
    SentIffAskedFor(block, c, d, all, filters, target, row, id);
    var k :| 0 <= k < |all| && IdOf(all[k]) == id && AskedFor(all[k], d, target, row);
    AskedRowExists(all[k], d, target, row);
  }

  // ------------------------------------------------------------------ no filter fails

  lemma FilterComesFrom(filters: map<nat, seq<Filter>>, all: seq<ClientFilter>, id: nat, f: Filter) returns (k: nat)
    requires CompiledTo(filters, all) && id in filters && f in filters[id]
    ensures k < |all| && Compile(all[k]) == Ok(f) && id == SourceOf(all[k]) && f.joins == AsksFor(all[k])
  {
    hide Compile, SourceOf, AsksFor;
    assert f in FiltersOf(filters, id);
    k :| 0 <= k < |all| && Compile(all[k]) == Ok(f);
    CompiledShape(all[k]);
  }

  /** The index a compiled filter needs is there, with every condition's index in it. */
  lemma CompiledEvaluates(block: Block, c: Collected, d: Contents, f: ClientFilter)
    requires Stores(block, c, d) && Compile(f).Ok?
    ensures GetIndexFragment(OfBlock(block), SourceOf(f)).Ok?
    ensures Rows(Compile(f).value, GetIndexFragment(OfBlock(block), SourceOf(f)).value).Ok?
    ensures forall cond :: cond in Compile(f).value.conditions ==>
              cond.indexId < |GetIndexFragment(OfBlock(block), SourceOf(f)).value.indexes|
  {
    hide Rows, Describes, GetIndexFragment, IndexFragments, JoinFragments, IndexFragmentOf, Compile;
    IndexesFound(block, c, d, f);
    OwnFragmentSelects(c, d, f, 0);
    IndexIdsFit(c, d, f);
  }

  lemma IndexIdsFit(c: Collected, d: Contents, f: ClientFilter)
    requires Compile(f).Ok?
    ensures forall cond :: cond in Compile(f).value.conditions ==> cond.indexId < |IndexFragmentOf(c, d, f).indexes|
  {
    hide AllEvents, AllMessages, CompileEvent, Build;
    if f.OfEvents? { EventIndexIds(f.events); }
  }

  /** The fragments that a source is joined to, in the order of its joins. */
  function JoinTargets(f: ClientFilter): seq<nat> {
    if f.OfTransactions? then [RECEIPT_FRAGMENT_ID, EVENT_FRAGMENT_ID, MESSAGE_FRAGMENT_ID, TRACE_FRAGMENT_ID]
    else if f.OfStorageDiffs? || f.OfContractChanges? || f.OfNonceUpdates? then []
    else [TRANSACTION_FRAGMENT_ID, RECEIPT_FRAGMENT_ID, EVENT_FRAGMENT_ID, MESSAGE_FRAGMENT_ID, TRACE_FRAGMENT_ID]
  }

  lemma AsksForTarget(f: ClientFilter, target: nat)
    requires target in AsksFor(f)
    ensures target in JoinTargets(f)
  {
  }

  lemma JoinIds(c: Collected, f: ClientFilter)
    ensures var joins := JoinFragmentOf(c, f).joins;
            |joins| == |JoinTargets(f)| && forall i :: 0 <= i < |joins| ==> joins[i].toFragmentId == JoinTargets(f)[i]
  {
    hide BuildOne, BuildMany;
  }

  lemma CompiledJoins(block: Block, c: Collected, d: Contents, f: ClientFilter, target: nat)
    requires Stores(block, c, d) && target in AsksFor(f)
    ensures HasJoin(OfBlock(block), SourceOf(f), target)
  {
    hide Describes, FindTarget, AsksFor, JoinFragmentOf, JoinTargets, JoinFragments, IndexFragments, FindJoin;
    AsksForTarget(f, target);
    JoinIds(c, f);
    FindsJoins(c, f);
    FindTargetAt(JoinFragmentOf(c, f).joins, JoinTargets(f), target, Place(JoinTargets(f), target));
  }

  lemma FiltersEvaluate(block: Block, c: Collected, d: Contents, all: seq<ClientFilter>, filters: map<nat, seq<Filter>>)
    requires Stores(block, c, d) && CompiledTo(filters, all) && WfFilters(filters)
    ensures Evaluable(OfBlock(block), filters) && Joinable(OfBlock(block), filters)
  {
    hide Stores, CompiledTo, Compile, SourceOf, AsksFor, GetIndexFragment, Rows, HasJoin, RowsIn;
    forall id | id in filters
      ensures EvaluableAt(OfBlock(block), id, filters[id])
    {
      var first := FilterComesFrom(filters, all, id, filters[id][0]);
      CompiledEvaluates(block, c, d, all[first]);
      forall f | f in filters[id]
        ensures Rows(f, GetIndexFragment(OfBlock(block), id).value).Ok?
      {
        var k := FilterComesFrom(filters, all, id, f);
        CompiledEvaluates(block, c, d, all[k]);
      }
    }
    forall source, target | source in filters && target in AskedBy(OfBlock(block), filters[source])
      ensures HasJoin(OfBlock(block), source, target)
    {
      var f :| f in filters[source] && RowsIn(OfBlock(block), f) != {} && target in f.joins;
      var k := FilterComesFrom(filters, all, source, f);
      CompiledJoins(block, c, d, all[k], target);
    }
  }

  lemma MatchedIsOwn(a: Access, all: seq<ClientFilter>, filters: map<nat, seq<Filter>>, id: nat)
    requires CompiledTo(filters, all) && id in MatchedFragments(a, filters)
    ensures id in OWN_FRAGMENTS
  {
    hide CompiledTo, MatchedFragments, Compile, RowsIn, SourceOf, AsksFor;
    MatchedMeans(a, filters, id);
    var source, f :| source in filters && f in filters[source] && RowsIn(a, f) != {} && (source == id || id in f.joins);
    var k := FilterComesFrom(filters, all, source, f);
    AsksForOwn(all[k], id);
  }

  /** On an ingested block no client filter fails, whatever it asks for. */
  lemma NoFilterFails(block: Block, c: Collected, d: Contents, all: seq<ClientFilter>,
                      bf: BlockFilter, names: set<nat>, isLive: bool)
    requires OWN_FRAGMENTS <= names && CompiledTo(bf.filters, all) && WfFilters(bf.filters) && TracesReach(d)
             && Ingested(block, c, d)
    ensures FilterBlock(OfBlock(block), bf, names, isLive).Ok?
  {
    hide Stores, BlockOk, CompiledTo, WfFilters, Wanted, Evaluable, Joinable, MatchedFragments, RowCount;
    var a := OfBlock(block);
    FiltersEvaluate(block, c, d, all, bf.filters);
    var matches := AllMatches(a, bf.filters);
    var ids := Sorted(matches.Keys);
    forall i | 0 <= i < |ids|
      ensures ItemsThere(a, names, matches, ids[i])
    {
      SortedHolds(matches.Keys, ids[i]);
      MatchedIsOwn(a, all, bf.filters, ids[i]);
      forall row | row in matches[ids[i]]
        ensures row < |GetBodyFragment(a, ids[i]).value.data|
      {
        WantedRowExists(block, c, d, all, bf.filters, ids[i], row);
      }
    }
    ItemsWorkIff(a, names, matches, ids);
  }

  /** Everything of one kind, with traces. */
  function AnyEvent(): ClientFilter {
    OfEvents(EventFilter(0, None, [], None, Some(3), None, None, None, None, Some(true)))
  }

  function AnyMessage(): ClientFilter {
    OfMessages(MessageToL1Filter(0, None, None, Some(3), None, None, None, None, Some(true)))
  }

  function Alone(f: ClientFilter): map<nat, seq<Filter>>
    requires Compile(f).Ok?
  {
    map[SourceOf(f) := [Compile(f).value]]
  }

  lemma CompiledAlone(f: ClientFilter)
    requires Compile(f).Ok?
    ensures CompiledTo(Alone(f), [f])
  {
    hide Compile, AsksFor;
    CompiledShape(f);
    var r := Compile(f).value;
    assert forall g :: Compiles([f], g) <==> g == r by {
      assert [f][0] == f && Compile([f][0]) == Ok(r);
    }
  }

  /** If a described row's trace is asked for but missing, the filter fails on the block. */
  lemma MissingTraceFails(block: Block, c: Collected, d: Contents, names: set<nat>, f: ClientFilter, n: nat, t: nat)
    requires Stores(block, c, d) && HasBodies(block, d) && Compile(f).Ok?
    requires TRACE_FRAGMENT_ID in AsksFor(f) && Describing(f, d, n)
    requires t >= d.traces && Leads(d, SourceOf(f), TRACE_FRAGMENT_ID, n, t)
    ensures FilterBlock(OfBlock(block), BlockFilter(OnData, Alone(f)), names, false).Rejected?
  {
    hide Stores, FilterBlock, Wanted, MatchedFragments, Compile, CompiledTo, Describing, Leads, AsksFor, SourceOf,
         RowsIn, IdOf;
    var a, bf := OfBlock(block), BlockFilter(OnData, Alone(f));
    CompiledAlone(f);
    assert AskedFor(f, d, TRACE_FRAGMENT_ID, t);
    assert [f][0] == f;
    SentIffAskedFor(block, c, d, [f], Alone(f), TRACE_FRAGMENT_ID, t, IdOf(f));
    if FilterBlock(a, bf, names, false).Ok? {
      HitMeans(a, bf.filters, TRACE_FRAGMENT_ID, t, IdOf(f));
      ItemsAreWanted(a, bf, names, false, TRACE_FRAGMENT_ID, t);
    }
  }

  /** If traces run short, some client's filter fails. */
  lemma ShortTracesFail(block: Block, c: Collected, d: Contents, names: set<nat>) returns (f: ClientFilter)
    requires Stores(block, c, d) && HasBodies(block, d) && !TracesReach(d)
    ensures Compile(f).Ok? && FilterBlock(OfBlock(block), BlockFilter(OnData, Alone(f)), names, false).Rejected?
  {
    hide Stores, HasBodies, FilterBlock, AllEvents, AllMessages;
    var events, messages := EventOwners(AllEvents(d.transactions)), MessageOwners(AllMessages(d.transactions));
    if n :| 0 <= n < |events| && events[n] >= d.traces {
      f := AnyEvent();
      MissingTraceFails(block, c, d, names, f, n, events[n]);
    } else {
      var n :| 0 <= n < |messages| && messages[n] >= d.traces;
      f := AnyMessage();
      MissingTraceFails(block, c, d, names, f, n, messages[n]);
    }
  }

  /** No filter of any client fails on the block. */
  ghost predicate EveryFilterWorks(block: Block, names: set<nat>) {
    forall all, bf: BlockFilter, isLive :: CompiledTo(bf.filters, all) && WfFilters(bf.filters) ==>
      FilterBlock(OfBlock(block), bf, names, isLive).Ok?
  }

  lemma FiltersWorkIffTracesReach(block: Block, c: Collected, d: Contents, names: set<nat>)
    requires OWN_FRAGMENTS <= names && Ingested(block, c, d)
    ensures EveryFilterWorks(block, names) <==> TracesReach(d)
  {
    hide Stores, HasBodies, CompiledTo, FilterBlock, TracesReach, DistinctIds, Compile, SourceOf;
    if TracesReach(d) {
      forall all, bf: BlockFilter, isLive | CompiledTo(bf.filters, all) && WfFilters(bf.filters)
        ensures FilterBlock(OfBlock(block), bf, names, isLive).Ok?
      {
        NoFilterFails(block, c, d, all, bf, names, isLive);
      }
    } else {
      var f := ShortTracesFail(block, c, d, names);
      CompiledAlone(f);
      CompiledShape(f);
      var bf := BlockFilter(OnData, Alone(f));
      assert CompiledTo(bf.filters, [f]) && WfFilters(bf.filters)
             && FilterBlock(OfBlock(block), bf, names, false).Rejected?;
    }
  }

  // ------------------------------------------------------------------ the fast path serves them

  lemma FragmentIsOk(id: nat, entries: seq<Entries>, said: nat -> seq<Option<Scalar>>, count: nat,
                     kind: (nat, nat) -> nat)
    requires FragmentSays(entries, said, (i: nat) => kind(id, i), count)
    ensures IndexesOk(FragmentOf(id, entries, count).indexes, id, kind)
  {
    hide Says, Build, WfIndex;
    forall i: nat | i < |entries|
      ensures WfIndex(Build(entries[i])) && forall key :: key in Build(entries[i]).keys ==> Variant(key) == kind(id, i)
    {
      BuiltHolds(entries[i], NullValue, 0);
      forall key | key in entries[i]
        ensures Variant(key) == kind(id, i)
      {
        KeyWasSaid(entries[i], said(i), key);
      }
    }
  }

  lemma KeyWasSaid(entries: Entries, said: seq<Option<Scalar>>, key: Scalar)
    requires Says(entries, said) && key in entries
    ensures exists n :: 0 <= n < |said| && said[n] == Some(key)
  {
  }

  lemma EventIndexesOk(e: EventIndexes, rows: seq<EventRow>, kind: (nat, nat) -> nat)
    requires StarknetKinds(kind) && EventsIndexed(e, rows)
    ensures IndexesOk(EventFragment(e, |rows|).indexes, EVENT_FRAGMENT_ID, kind)
  {
    hide Says, IndexesOk;
    var entries := [e.address, e.key0, e.key1, e.key2, e.key3, e.keyLength, e.status];
    var said := (i: nat) => EventsSay(rows, i);
    forall i: nat | i < |entries|
      ensures Says(entries[i], said(i))
    {
      assert entries[i] == EventEntries(e, i);
    }
    EventKinds(rows);
    FragmentIsOk(EVENT_FRAGMENT_ID, entries, said, |rows|, kind);
  }

  lemma MessageIndexesOk(m: MessageIndexes, rows: seq<MessageRow>, kind: (nat, nat) -> nat)
    requires StarknetKinds(kind) && MessagesIndexed(m, rows)
    ensures IndexesOk(MessageFragment(m, |rows|).indexes, MESSAGE_FRAGMENT_ID, kind)
  {
    hide Says, IndexesOk;
    var entries := [m.from, m.to, m.status];
    var said := (i: nat) => MessagesSay(rows, i);
    forall i: nat | i < |entries|
      ensures Says(entries[i], said(i))
    {
      assert entries[i] == MessageEntries(m, i);
    }
    FragmentIsOk(MESSAGE_FRAGMENT_ID, entries, said, |rows|, kind);
  }

  lemma TransactionIndexesOk(t: TransactionIndexes, rows: seq<Transaction>, kind: (nat, nat) -> nat)
    requires StarknetKinds(kind) && TransactionsIndexed(t, rows)
    ensures IndexesOk(TransactionFragment(t, |rows|).indexes, TRANSACTION_FRAGMENT_ID, kind)
  {
    hide Says, IndexesOk;
    var entries := [t.status, t.kind];
    var said := (i: nat) => TransactionsSay(rows, i);
    forall i: nat | i < |entries|
      ensures Says(entries[i], said(i))
    {
      assert entries[i] == TransactionEntries(t, i);
    }
    FragmentIsOk(TRANSACTION_FRAGMENT_ID, entries, said, |rows|, kind);
  }

  lemma StateIndexesOk(s: StateIndexes, diff: StateDiff, kind: (nat, nat) -> nat)
    requires StarknetKinds(kind) && StateIndexed(s, diff)
    ensures IndexesOk(StorageDiffFragment(s, |diff.storageDiffs|).indexes, STORAGE_DIFF_FRAGMENT_ID, kind)
    ensures IndexesOk(ContractChangeFragment(s, |Changes(diff)|).indexes, CONTRACT_CHANGE_FRAGMENT_ID, kind)
    ensures IndexesOk(NonceUpdateFragment(s, |diff.nonces|).indexes, NONCE_UPDATE_FRAGMENT_ID, kind)
  {
    hide Says, IndexesOk, Changes;
    FragmentIsOk(STORAGE_DIFF_FRAGMENT_ID, [s.storage], (i: nat) => AddressesSay(diff.storageDiffs),
                 |diff.storageDiffs|, kind);
    FragmentIsOk(CONTRACT_CHANGE_FRAGMENT_ID, [s.change], (i: nat) => ChangesSay(Changes(diff)), |Changes(diff)|, kind);
    FragmentIsOk(NONCE_UPDATE_FRAGMENT_ID, [s.nonce], (i: nat) => AddressesSay(diff.nonces), |diff.nonces|, kind);
  }

  lemma OwnIndexesOk(c: Collected, d: Contents, kind: (nat, nat) -> nat)
    requires StarknetKinds(kind) && Describes(c, d)
    ensures BlockOk(IndexFragments(c, d), kind)
  {
    hide AllEvents, AllMessages, EventsIndexed, MessagesIndexed, TransactionsIndexed, RowsJoined, PeersJoined, ToOwner,
         Build, WfIndex, StateIndexed, Changes;
    EventIndexesOk(c.eventIndexes, AllEvents(d.transactions), kind);
    MessageIndexesOk(c.messageIndexes, AllMessages(d.transactions), kind);
    TransactionIndexesOk(c.transactionIndexes, d.transactions, kind);
    StateIndexesOk(c.state, d.diff, kind);
    hide IndexesOk;
    assert IndexesOk([], RECEIPT_FRAGMENT_ID, kind)
           && IndexesOk([], TRACE_FRAGMENT_ID, kind) by { NothingIndexed(kind); }
  }

  lemma NothingIndexed(kind: (nat, nat) -> nat)
    ensures IndexesOk([], RECEIPT_FRAGMENT_ID, kind) && IndexesOk([], TRACE_FRAGMENT_ID, kind)
  {
  }

  lemma {:induction false} OutputsOk(block: Block, c: Collected, d: Contents,
                                     clients: seq<seq<ClientFilter>>, filters: seq<BlockFilter>, names: set<nat>)
    requires OWN_FRAGMENTS <= names && Compiled(filters, clients) && TracesReach(d) && Ingested(block, c, d)
    ensures Outputs(OfBlock(block), filters, names, false).Ok?
    decreases |filters|
  {
    hide Ingested, FilterBlock, WfFilters, CompiledTo;
    if filters != [] {
      var k := |filters| - 1;
      OutputsOk(block, c, d, clients[..k], filters[..k], names);
      NoFilterFails(block, c, d, clients[k], filters[k], names, false);
    }
  }

  /** An ingested block is one the fast path can serve, for every client. */
  lemma IngestedIsFine(w: World, n: nat, c: Collected, d: Contents, kind: (nat, nat) -> nat,
                       clients: seq<seq<ClientFilter>>, filters: seq<BlockFilter>, names: set<nat>)
    requires OWN_FRAGMENTS <= names && StarknetKinds(kind) && Compiled(filters, clients) && Ingested(w.block(n), c, d)
    ensures BlockFine(w, filters, names, kind, n)
  {
    hide HasBodies, BlockOk, CompiledTo, Outputs, Describes, IndexFragments, JoinFragments, GetIndexFragment, Rows,
         Compile;
    var block := w.block(n);
    OwnIndexesOk(c, d, kind);
    forall k, id, f | 0 <= k < |filters| && id in filters[k].filters && f in filters[k].filters[id]
      ensures FilterFine(w, kind, n, id, f)
    {
      var i := FilterComesFrom(filters[k].filters, clients[k], id, f);
      CompiledEvaluates(block, c, d, clients[k][i]);
    }
  }

  /** What an ingested block was made of. */
  datatype Source = Source(collected: Collected, contents: Contents)

  /** All blocks up to `segmented` are ingested Starknet blocks, compacted as the watermarks say. */
  ghost predicate Compacted(w: World, sources: nat -> Source, segmented: nat, top: Option<nat>) {
    && ValidSizes(w.z) && Aligned(segmented, w.z.start, w.z.segmentSize) && segmented + 1 < 0x1_0000_0000
    && (forall n: nat :: w.z.start <= n <= segmented ==>
          Ingested(w.block(n), sources(n).collected, sources(n).contents))
    && (forall k: nat :: Edge(w.z.start, w.z.segmentSize, k) <= segmented ==>
        StoredSegment(w, Edge(w.z.start, w.z.segmentSize, k)))
    && (top.Some? ==>
          && Aligned(top.value, w.z.start, BlocksInGroup(w.z)) && top.value < segmented
          && forall k: nat :: Edge(w.z.start, BlocksInGroup(w.z), k) <= top.value ==>
            StoredGroup(w, Edge(w.z.start, BlocksInGroup(w.z), k)))
  }

  lemma CompactedIsServed(w: World, sources: nat -> Source, kind: (nat, nat) -> nat, segmented: nat, top: Option<nat>,
                          clients: seq<seq<ClientFilter>>, filters: seq<BlockFilter>, names: set<nat>)
    requires {INDEX_FRAGMENT_ID, JOIN_FRAGMENT_ID, HEADER_FRAGMENT_ID} + OWN_FRAGMENTS <= names && StarknetKinds(kind)
    requires Compiled(filters, clients) && Compacted(w, sources, segmented, top)
    ensures Served(w, filters, names, kind, segmented, top)
  {
    hide Ingested, BlockFine, CompiledTo, StoredSegment, StoredGroup, Compile, WfFilters;
    forall n: nat | w.z.start <= n <= segmented
      ensures BlockFine(w, filters, names, kind, n)
    {
      IngestedIsFine(w, n, sources(n).collected, sources(n).contents, kind, clients, filters, names);
    }
    NeedsOwn(filters, clients);
  }

  lemma {:induction false} NeedsOwn(filters: seq<BlockFilter>, clients: seq<seq<ClientFilter>>)
    requires Compiled(filters, clients)
    ensures AllNeeded(filters) <= OWN_FRAGMENTS
    decreases |filters|
  {
    hide WfFilters, CompiledTo, Compile, SourceOf, AsksFor;
    if filters != [] {
      var k := |filters| - 1;
      NeedsOwn(filters[..k], clients[..k]);
      forall id | id in AllFragmentIds(filters[k].filters)
        ensures id in OWN_FRAGMENTS
      {
        OneNeedsOwn(filters[k].filters, clients[k], id);
      }
    }
  }

  lemma OneNeedsOwn(filters: map<nat, seq<Filter>>, all: seq<ClientFilter>, id: nat)
    requires WfFilters(filters) && CompiledTo(filters, all) && id in AllFragmentIds(filters)
    ensures id in OWN_FRAGMENTS
  {
    hide CompiledTo, Compile, SourceOf, AsksFor;
    if id in filters {
      var i := FilterComesFrom(filters, all, id, filters[id][0]);
      AsksForOwn(all[i], id);
    } else {
      var source, f :| source in filters && f in filters[source] && id in f.joins;
      var i := FilterComesFrom(filters, all, source, f);
      AsksForOwn(all[i], id);
    }
  }

  /**
   * Ingestion, compaction and streaming together: over ingested Starknet blocks, and for any clients' filters, the
   * segment stream sends exactly what filtering every block on its own would send, and fails exactly when that
   * would; which it never does if the traces of each block reach.
   */
  lemma ClientsAreServedFast(w: World, sources: nat -> Source, kind: (nat, nat) -> nat, segmented: nat,
                             top: Option<nat>, clients: seq<seq<ClientFilter>>, filters: seq<BlockFilter>,
                             names: set<nat>, from: nat, grouped: Option<nat>, rereads: seq<Option<nat>>)
    requires {INDEX_FRAGMENT_ID, JOIN_FRAGMENT_ID, HEADER_FRAGMENT_ID} + OWN_FRAGMENTS <= names && StarknetKinds(kind)
    requires Compiled(filters, clients) && Compacted(w, sources, segmented, top) && w.z.start <= from <= segmented
    requires grouped.Some? ==> GoodGrouped(w, top, grouped.value)
    requires forall i :: 0 <= i < |rereads| ==> rereads[i].Some? && GoodGrouped(w, top, rereads[i].value)
    ensures var fetches := Streamed(w.z, filters, names, w.groups, from, grouped, rereads, Some(segmented));
            && fetches.Ok?
            && ConsumeFetches(w, filters, names, from, fetches.value) ==
              Slow(w, filters, names, from, from, segmented + 1 - from)
    ensures (forall n: nat :: from <= n <= segmented ==> TracesReach(sources(n).contents)) ==>
              Slow(w, filters, names, from, from, segmented + 1 - from).ok
  {
    hide Streamed, ConsumeFetches, Slow, Served, Compiled, GoodGrouped, Ingested, StoredSegment, StoredGroup,
         TracesReach, Outputs;
    CompactedIsServed(w, sources, kind, segmented, top, clients, filters, names);
    FastIsSlow(w, filters, names, kind, segmented, top, from, grouped, rereads);
    SlowFails(w, filters, names, from, from, segmented + 1 - from);
    if forall n: nat :: from <= n <= segmented ==> TracesReach(sources(n).contents) {
      forall n: nat | from <= n <= segmented
        ensures Outputs(OfBlock(w.block(n)), filters, names, false).Ok?
      {
        OutputsOk(w.block(n), sources(n).collected, sources(n).contents, clients, filters, names);
      }
    }
  }
}
