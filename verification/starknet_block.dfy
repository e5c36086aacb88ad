/**
 * A Starknet block from its transactions to what a client is sent of it: ingestion, indexes, filters and joins
 * together.
 */
module StarknetBlock {
  import opened Core
  import opened Sorting
  import opened Indexes
  import opened Joins
  import opened Fragments
  import opened Query
  import opened Filtering
  import opened GroupBuilder
  import opened StarknetRows
  import opened StarknetCollector
  import opened StarknetState
  import opened StarknetFilter

  /** What the loops over a block leave. */
  datatype Collected = Collected(eventIndexes: EventIndexes, messageIndexes: MessageIndexes,
                                 transactionIndexes: TransactionIndexes, eventJoins: RowJoins, messageJoins: RowJoins,
                                 peers: PeerJoins, transactionToReceipt: map<nat, nat>,
                                 transactionToTrace: map<nat, nat>, state: StateIndexes)

  ghost predicate Describes(c: Collected, d: Contents) {
    var events, messages := AllEvents(d.transactions), AllMessages(d.transactions);
    && EventsIndexed(c.eventIndexes, events) && MessagesIndexed(c.messageIndexes, messages)
    && TransactionsIndexed(c.transactionIndexes, d.transactions)
    && RowsJoined(c.eventJoins, EventOwners(events), d.traces > 0)
    && RowsJoined(c.messageJoins, MessageOwners(messages), d.traces > 0)
    && PeersJoined(c.peers, EventOwners(events), MessageOwners(messages))
    && ToOwner(c.transactionToReceipt, Identity(|d.transactions|)) && ToOwner(c.transactionToTrace, Identity(d.traces))
    && StateIndexed(c.state, d.diff)
  }

  // ------------------------------------------------------------------ fragments

  /** Indexes are numbered by their place. */
  function FragmentOf(id: nat, entries: seq<Entries>, count: nat): IndexFragment {
    IndexFragment(id, 0, count, seq(|entries|, i requires 0 <= i < |entries| => Index(i, Bitmap(Build(entries[i])))))
  }

  function EventFragment(e: EventIndexes, count: nat): IndexFragment {
    FragmentOf(EVENT_FRAGMENT_ID, [e.address, e.key0, e.key1, e.key2, e.key3, e.keyLength, e.status], count)
  }

  function MessageFragment(m: MessageIndexes, count: nat): IndexFragment {
    FragmentOf(MESSAGE_FRAGMENT_ID, [m.from, m.to, m.status], count)
  }

  function TransactionFragment(t: TransactionIndexes, count: nat): IndexFragment {
    FragmentOf(TRANSACTION_FRAGMENT_ID, [t.status, t.kind], count)
  }

  function StorageDiffFragment(s: StateIndexes, count: nat): IndexFragment {
    FragmentOf(STORAGE_DIFF_FRAGMENT_ID, [s.storage], count)
  }

  function ContractChangeFragment(s: StateIndexes, count: nat): IndexFragment {
    FragmentOf(CONTRACT_CHANGE_FRAGMENT_ID, [s.change], count)
  }

  function NonceUpdateFragment(s: StateIndexes, count: nat): IndexFragment {
    FragmentOf(NONCE_UPDATE_FRAGMENT_ID, [s.nonce], count)
  }

  /** The number of rows of a fragment; it is below 2^32. */
  function RowCount(d: Contents, id: nat): nat {
    if id == EVENT_FRAGMENT_ID then |AllEvents(d.transactions)|
    else if id == MESSAGE_FRAGMENT_ID then |AllMessages(d.transactions)|
    else if id == TRACE_FRAGMENT_ID then d.traces
    else if id == STORAGE_DIFF_FRAGMENT_ID then |d.diff.storageDiffs|
    else if id == CONTRACT_CHANGE_FRAGMENT_ID then |Changes(d.diff)|
    else if id == NONCE_UPDATE_FRAGMENT_ID then |d.diff.nonces|
    else |d.transactions|
  }

  function IndexFragments(c: Collected, d: Contents): seq<IndexFragment> {
    [TransactionFragment(c.transactionIndexes, |d.transactions|), FragmentOf(RECEIPT_FRAGMENT_ID, [], |d.transactions|),
     EventFragment(c.eventIndexes, |AllEvents(d.transactions)|),
       MessageFragment(c.messageIndexes, |AllMessages(d.transactions)|),
     FragmentOf(TRACE_FRAGMENT_ID, [], d.traces),
     StorageDiffFragment(c.state, |d.diff.storageDiffs|), ContractChangeFragment(c.state, |Changes(d.diff)|),
     NonceUpdateFragment(c.state, |d.diff.nonces|)]
  }

  function TransactionJoinFragment(c: Collected): JoinFragment {
    JoinFragment(TRANSACTION_FRAGMENT_ID,
                 [Join(RECEIPT_FRAGMENT_ID, BuildOne(c.transactionToReceipt)),
                  Join(EVENT_FRAGMENT_ID, BuildMany(c.eventJoins.transactionToRows)),
                  Join(MESSAGE_FRAGMENT_ID, BuildMany(c.messageJoins.transactionToRows)),
                    Join(TRACE_FRAGMENT_ID, BuildOne(c.transactionToTrace))])
  }

  function EventJoinFragment(c: Collected): JoinFragment {
    JoinFragment(EVENT_FRAGMENT_ID,
                 [Join(TRANSACTION_FRAGMENT_ID, BuildOne(c.eventJoins.toTransaction)),
                  Join(RECEIPT_FRAGMENT_ID, BuildOne(c.eventJoins.toReceipt)),
                  Join(EVENT_FRAGMENT_ID, BuildMany(c.peers.eventToSiblings)),
                    Join(MESSAGE_FRAGMENT_ID, BuildMany(c.peers.eventToMessages)),
                  Join(TRACE_FRAGMENT_ID, BuildOne(c.eventJoins.toTrace))])
  }

  function MessageJoinFragment(c: Collected): JoinFragment {
    JoinFragment(MESSAGE_FRAGMENT_ID,
                 [Join(TRANSACTION_FRAGMENT_ID, BuildOne(c.messageJoins.toTransaction)),
                  Join(RECEIPT_FRAGMENT_ID, BuildOne(c.messageJoins.toReceipt)),
                  Join(EVENT_FRAGMENT_ID, BuildMany(c.peers.messageToEvents)),
                    Join(MESSAGE_FRAGMENT_ID, BuildMany(c.peers.messageToSiblings)),
                  Join(TRACE_FRAGMENT_ID, BuildOne(c.messageJoins.toTrace))])
  }

  function JoinFragments(c: Collected): seq<JoinFragment> {
    [TransactionJoinFragment(c), JoinFragment(RECEIPT_FRAGMENT_ID, []), EventJoinFragment(c), MessageJoinFragment(c),
     JoinFragment(TRACE_FRAGMENT_ID, []), JoinFragment(STORAGE_DIFF_FRAGMENT_ID, []),
       JoinFragment(CONTRACT_CHANGE_FRAGMENT_ID, []),
     JoinFragment(NONCE_UPDATE_FRAGMENT_ID, [])]
  }

  // ------------------------------------------------------------------ indexes

  /** Every index of a fragment says what its rows say, with keys of one variant. */
  ghost predicate FragmentSays(entries: seq<Entries>, said: nat -> seq<Option<Scalar>>, kind: nat -> nat, count: nat) {
    forall i: nat :: i < |entries| ==>
      && Says(entries[i], said(i)) && |said(i)| == count
      && forall n :: 0 <= n < count && said(i)[n].Some? ==> Variant(said(i)[n].value) == kind(i)
  }

  lemma IndexSays(entries: Entries, said: seq<Option<Scalar>>, variant: nat, key: Scalar, n: nat)
    requires Says(entries, said) && forall k :: 0 <= k < |said| && said[k].Some? ==> Variant(said[k].value) == variant
    ensures WfIndex(Build(entries)) && OneVariant(Build(entries))
    ensures Holds(Build(entries), key, n) <==> n < |said| && said[n] == Some(key)
  {
    hide Build, WfIndex, OneVariant, Holds;
    forall k | k in entries
      ensures Variant(k) == variant
    {
      var row :| 0 <= row < |said| && said[row] == Some(k);
    }
    OneKind(entries, variant);
    BuiltHolds(entries, key, n);
    assert n in Indexes.RowsAt(entries, key) <==> n < |said| && said[n] == Some(key);
  }

  /** A filter selects the rows that say to each of its indexes what its conditions ask. */
  lemma FilterSelects(id: nat, entries: seq<Entries>, said: nat -> seq<Option<Scalar>>, kind: nat -> nat, count: nat,
                      f: Filter, n: nat, say: nat -> Option<Scalar>)
    requires FragmentSays(entries, said, kind, count) && forall c :: c in f.conditions ==> c.indexId < |entries|
    requires n < count ==> forall i: nat :: i < |entries| ==> say(i) == said(i)[n]
    ensures Rows(f, FragmentOf(id, entries, count)).Ok?
    ensures n in Rows(f, FragmentOf(id, entries, count)).value <==> n < count && AllSay(f.conditions, say)
  {
    hide Says, Build, WfIndex, OneVariant, Indexes.Holds, Rows;
    var fragment := FragmentOf(id, entries, count);
    forall c | c in f.conditions
      ensures SearchableAt(fragment, c.indexId)
      ensures Satisfies(c, fragment, n) <==> n < count && say(c.indexId) == Some(c.key)
    {
      IndexSays(entries[c.indexId], said(c.indexId), kind(c.indexId), c.key, n);
    }
    FilterMeans(f, fragment, n);
  }

  // ------------------------------------------------------------------ what filters select

  function SourceOf(f: ClientFilter): nat {
    match f
    case OfTransactions(_) => TRANSACTION_FRAGMENT_ID
    case OfEvents(_) => EVENT_FRAGMENT_ID
    case OfMessages(_) => MESSAGE_FRAGMENT_ID
    case OfStorageDiffs(_) => STORAGE_DIFF_FRAGMENT_ID
    case OfContractChanges(_) => CONTRACT_CHANGE_FRAGMENT_ID
    case OfNonceUpdates(_) => NONCE_UPDATE_FRAGMENT_ID
  }

  function IdOf(f: ClientFilter): nat {
    match f
    case OfTransactions(t) => t.id
    case OfEvents(e) => e.id
    case OfMessages(m) => m.id
    case OfStorageDiffs(u) => u.id
    case OfContractChanges(u) => u.id
    case OfNonceUpdates(u) => u.id
  }

  function AsksFor(f: ClientFilter): seq<nat> {
    match f
    case OfTransactions(t) => TransactionJoins(t)
    case OfEvents(e) => EventJoins(e)
    case OfMessages(m) => MessageJoins(m)
    case _ => []
  }

  /** The row of its fragment is one the client's filter describes. */
  predicate Describing(f: ClientFilter, d: Contents, row: nat) {
    row < RowCount(d, SourceOf(f)) &&
    match f
    case OfTransactions(t) => TransactionMatches(t, d.transactions[row])
    case OfEvents(e) => EventMatches(e, AllEvents(d.transactions)[row])
    case OfMessages(m) => MessageMatches(m, AllMessages(d.transactions)[row])
    case OfStorageDiffs(u) => AddressMatches(u.address, d.diff.storageDiffs[row])
    case OfContractChanges(u) => ChangeMatches(u, Changes(d.diff)[row])
    case OfNonceUpdates(u) => AddressMatches(u.address, d.diff.nonces[row])
  }

  lemma EventsSelected(e: EventIndexes, rows: seq<EventRow>, f: EventFilter, n: nat)
    requires EventsIndexed(e, rows) && CompileEvent(f).Ok?
    ensures Rows(CompileEvent(f).value, EventFragment(e, |rows|)).Ok?
    ensures n in Rows(CompileEvent(f).value, EventFragment(e, |rows|)).value <==> n < |rows| && EventMatches(f, rows[n])
  {
    hide Says, Rows, EventMatches, AllSay;
    var entries := [e.address, e.key0, e.key1, e.key2, e.key3, e.keyLength, e.status];
    var said, kind := (i: nat) => EventsSay(rows, i), (i: nat) => EventKind(i);
    var say: nat -> Option<Scalar> := (i: nat) => if n < |rows| then EventScalar(rows[n], i) else None;
    forall i: nat | i < |entries|
      ensures Says(entries[i], said(i))
    {
      assert entries[i] == EventEntries(e, i);
    }
    EventKinds(rows);
    EventIndexIds(f);
    FilterSelects(EVENT_FRAGMENT_ID, entries, said, kind, |rows|, CompileEvent(f).value, n, say);
    if n < |rows| { EventConditionsMean(f, rows[n], say); }
  }

  lemma EventKinds(rows: seq<EventRow>)
    ensures forall i: nat, n :: i <= 6 && 0 <= n < |rows| && EventsSay(rows, i)[n].Some? ==>
              Variant(EventsSay(rows, i)[n].value) == EventKind(i)
  {
  }

  ghost predicate UpToSix(conditions: seq<Condition>) {
    forall c :: c in conditions ==> c.indexId <= 6
  }

  lemma UpToSixJoins(a: seq<Condition>, b: seq<Condition>)
    requires UpToSix(a) && UpToSix(b)
    ensures UpToSix(a + b)
  {
  }

  lemma EventIndexIds(f: EventFilter)
    requires CompileEvent(f).Ok?
    ensures UpToSix(CompileEvent(f).value.conditions)
  {
    var first, status := AddressConditions(f.address, 0) + LengthConditions(f),
      StatusConditions(StatusOf(f.status).value, 6);
    var k0, k1, k2, k3 := KeyConditions(f.keys, 0), KeyConditions(f.keys, 1), KeyConditions(f.keys, 2),
      KeyConditions(f.keys, 3);
    assert UpToSix(first) && UpToSix(status) && UpToSix(k0) && UpToSix(k1) && UpToSix(k2) && UpToSix(k3);
    hide UpToSix, KeyConditions, AddressConditions, LengthConditions, StatusConditions;
    UpToSixJoins(first, k0);
    UpToSixJoins(first + k0, k1);
    UpToSixJoins(first + k0 + k1, k2);
    UpToSixJoins(first + k0 + k1 + k2, k3);
    UpToSixJoins(first + k0 + k1 + k2 + k3, status);
  }

  lemma MessagesSelected(m: MessageIndexes, rows: seq<MessageRow>, f: MessageToL1Filter, n: nat)
    requires MessagesIndexed(m, rows) && CompileMessage(f).Ok?
    ensures Rows(CompileMessage(f).value, MessageFragment(m, |rows|)).Ok?
    ensures n in Rows(CompileMessage(f).value, MessageFragment(m, |rows|)).value <==>
            n < |rows| && MessageMatches(f, rows[n])
  {
    hide Says, Rows, MessageMatches, AllSay;
    var entries := [m.from, m.to, m.status];
    var said, kind := (i: nat) => MessagesSay(rows, i), (i: nat) => MessageKind(i);
    var say: nat -> Option<Scalar> := (i: nat) => if n < |rows| then MessageScalar(rows[n], i) else None;
    forall i: nat | i < |entries|
      ensures Says(entries[i], said(i))
    {
      assert entries[i] == MessageEntries(m, i);
    }
    FilterSelects(MESSAGE_FRAGMENT_ID, entries, said, kind, |rows|, CompileMessage(f).value, n, say);
    if n < |rows| { MessageConditionsMean(f, rows[n], say); }
  }

  lemma TransactionsSelected(t: TransactionIndexes, rows: seq<Transaction>, f: TransactionFilter, n: nat)
    requires TransactionsIndexed(t, rows) && CompileTransaction(f).Ok?
    ensures Rows(CompileTransaction(f).value, TransactionFragment(t, |rows|)).Ok?
    ensures n in Rows(CompileTransaction(f).value, TransactionFragment(t, |rows|)).value <==>
            n < |rows| && TransactionMatches(f, rows[n])
  {
    hide Says, Rows, TransactionMatches, AllSay;
    var entries := [t.status, t.kind];
    var said, kind := (i: nat) => TransactionsSay(rows, i), (i: nat) => TransactionKind(i);
    var say: nat -> Option<Scalar> := (i: nat) => if n < |rows| then TransactionScalar(rows[n], i) else None;
    forall i: nat | i < |entries|
      ensures Says(entries[i], said(i))
    {
      assert entries[i] == TransactionEntries(t, i);
    }
    FilterSelects(TRANSACTION_FRAGMENT_ID, entries, said, kind, |rows|, CompileTransaction(f).value, n, say);
    if n < |rows| { TransactionConditionsMean(f, rows[n], say); }
  }

  /** Storage diffs and nonces: the rows of the contract, or all of them. */
  lemma AddressesSelected(id: nat, entries: Entries, rows: seq<Option<nat>>, wanted: Option<nat>, f: Filter, n: nat)
    requires Says(entries, AddressesSay(rows)) && f.conditions == AddressConditions(wanted, 0)
    ensures Rows(f, FragmentOf(id, [entries], |rows|)).Ok?
    ensures n in Rows(f, FragmentOf(id, [entries], |rows|)).value <==> n < |rows| && AddressMatches(wanted, rows[n])
  {
    hide Says, Rows, AllSay;
    var say: nat -> Option<Scalar> := (i: nat) => if n < |rows| then AddressScalar(rows[n]) else None;
    FilterSelects(id, [entries], (i: nat) => AddressesSay(rows), (i: nat) => 8, |rows|, f, n, say);
    if n < |rows| { AddressSays(wanted, 0, say, rows[n]); }
  }

  lemma ChangesSelected(entries: Entries, rows: seq<ContractChangeType>, f: ContractChangeFilter, n: nat)
    requires Says(entries, ChangesSay(rows))
    ensures Rows(CompileContractChange(f), FragmentOf(CONTRACT_CHANGE_FRAGMENT_ID, [entries], |rows|)).Ok?
    ensures n in Rows(CompileContractChange(f), FragmentOf(CONTRACT_CHANGE_FRAGMENT_ID, [entries], |rows|)).value <==>
            n < |rows| && ChangeMatches(f, rows[n])
  {
    hide Says, Rows, AllSay;
    var say: nat -> Option<Scalar> := (i: nat) => if n < |rows| then Some(ChangeScalar(rows[n])) else None;
    FilterSelects(CONTRACT_CHANGE_FRAGMENT_ID, [entries], (i: nat) => ChangesSay(rows), (i: nat) => 5, |rows|,
                  CompileContractChange(f), n, say);
    if n < |rows| { ChangeConditionsMean(f, rows[n], say); }
  }

  // ------------------------------------------------------------------ what joins lead to

  /** The transaction of each row of a fragment. */
  function Owners(transactions: seq<Transaction>, id: nat): seq<nat> {
    if id == TRANSACTION_FRAGMENT_ID then Identity(|transactions|)
    else if id == EVENT_FRAGMENT_ID then EventOwners(AllEvents(transactions))
    else if id == MESSAGE_FRAGMENT_ID then MessageOwners(AllMessages(transactions))
    else []
  }

  /**
   * Row `b` of `target` comes with row `a` of `source`: it belongs to the same transaction and is not the row itself.
   * A transaction's own trace comes only if there is one; other rows name it whenever the block has traces.
   */
  predicate Leads(d: Contents, source: nat, target: nat, a: nat, b: nat) {
    var from, to := Owners(d.transactions, source), Owners(d.transactions, target);
    && a < |from|
    && (if target == RECEIPT_FRAGMENT_ID then b == from[a]
        else if target == TRACE_FRAGMENT_ID then b == from[a]
        && (if source == TRANSACTION_FRAGMENT_ID then a < d.traces else d.traces > 0)
        else b < |to| && to[b] == from[a] && (source != target || (a != b && source != TRANSACTION_FRAGMENT_ID)))
  }

  lemma ManyTargets(j: ManyJoin, a: nat)
    ensures Targets(BuildMany(j), a) == Joined(j, a)
  {
    hide BuildMany, Targets;
    BuiltMany(j, a);
  }

  lemma OneTarget(j: map<nat, nat>, owners: seq<nat>, a: nat, b: nat)
    requires ToOwner(j, owners)
    ensures b in Targets(BuildOne(j), a) <==> a < |owners| && b == owners[a]
  {
    hide BuildOne, Targets;
    BuiltOne(j, a);
  }

  /** With the ids in `ids`, all different, a target is the join at its id's place. */
  lemma {:induction false} FindTargetAt(joins: seq<Join>, ids: seq<nat>, target: nat, k: nat)
    requires |joins| == |ids| && forall i :: 0 <= i < |ids| ==> joins[i].toFragmentId == ids[i]
    requires k <= |ids| && (forall i :: 0 <= i < k ==> ids[i] != target) && (k < |ids| ==> ids[k] == target)
    ensures FindTarget(joins, target) == if k < |ids| then Ok(joins[k].to) else Rejected
    decreases |joins|
  {
    if k > 0 {
      FindTargetAt(joins[1..], ids[1..], target, k - 1);
    }
  }

  /** Where an id is first. */
  function Place(ids: seq<nat>, target: nat): (k: nat)
    ensures k <= |ids| && (forall i :: 0 <= i < k ==> ids[i] != target) && (k < |ids| ==> ids[k] == target)
    ensures k < |ids| <==> target in ids
  {
    if ids == [] || ids[0] == target then 0 else 1 + Place(ids[1..], target)
  }

  lemma EventLeads(c: Collected, d: Contents, target: nat, a: nat, b: nat)
    requires Describes(c, d) && a < |AllEvents(d.transactions)|
    ensures var to := FindTarget(EventJoinFragment(c).joins, target);
            (to.Ok? && b in Targets(to.value, a)) <==> Leads(d, EVENT_FRAGMENT_ID, target, a, b)
  {
    hide BuildOne, BuildMany, Targets, EventsIndexed, MessagesIndexed, TransactionsIndexed, AllEvents, AllMessages,
         ToOwner;
    var ids := [TRANSACTION_FRAGMENT_ID, RECEIPT_FRAGMENT_ID, EVENT_FRAGMENT_ID, MESSAGE_FRAGMENT_ID,
                TRACE_FRAGMENT_ID];
    FindTargetAt(EventJoinFragment(c).joins, ids, target, Place(ids, target));
    OwnersBelow(d.transactions);
    var owners := EventOwners(AllEvents(d.transactions));
    OneTarget(c.eventJoins.toTransaction, owners, a, b);
    OneTarget(c.eventJoins.toReceipt, owners, a, b);
    OneTarget(c.eventJoins.toTrace, if d.traces > 0 then owners else [], a, b);
    ManyTargets(c.peers.eventToSiblings, a);
    ManyTargets(c.peers.eventToMessages, a);
    if target == RECEIPT_FRAGMENT_ID || target == TRACE_FRAGMENT_ID {
    } else if target == TRANSACTION_FRAGMENT_ID {
    } else if target == EVENT_FRAGMENT_ID {
    } else {
    }
  }

  lemma MessageLeads(c: Collected, d: Contents, target: nat, a: nat, b: nat)
    requires Describes(c, d) && a < |AllMessages(d.transactions)|
    ensures var to := FindTarget(MessageJoinFragment(c).joins, target);
            (to.Ok? && b in Targets(to.value, a)) <==> Leads(d, MESSAGE_FRAGMENT_ID, target, a, b)
  {
    hide BuildOne, BuildMany, Targets, EventsIndexed, MessagesIndexed, TransactionsIndexed, AllEvents, AllMessages,
         ToOwner;
    var ids := [TRANSACTION_FRAGMENT_ID, RECEIPT_FRAGMENT_ID, EVENT_FRAGMENT_ID, MESSAGE_FRAGMENT_ID,
                TRACE_FRAGMENT_ID];
    FindTargetAt(MessageJoinFragment(c).joins, ids, target, Place(ids, target));
    OwnersBelow(d.transactions);
    var owners := MessageOwners(AllMessages(d.transactions));
    OneTarget(c.messageJoins.toTransaction, owners, a, b);
    OneTarget(c.messageJoins.toReceipt, owners, a, b);
    OneTarget(c.messageJoins.toTrace, if d.traces > 0 then owners else [], a, b);
    ManyTargets(c.peers.messageToSiblings, a);
    ManyTargets(c.peers.messageToEvents, a);
    if target == RECEIPT_FRAGMENT_ID || target == TRACE_FRAGMENT_ID {
    } else if target == TRANSACTION_FRAGMENT_ID {
    } else if target == EVENT_FRAGMENT_ID {
    } else {
    }
  }

  lemma TransactionLeads(c: Collected, d: Contents, target: nat, a: nat, b: nat)
    requires Describes(c, d) && a < |d.transactions|
    ensures var to := FindTarget(TransactionJoinFragment(c).joins, target);
            (to.Ok? && b in Targets(to.value, a)) <==> Leads(d, TRANSACTION_FRAGMENT_ID, target, a, b)
  {
    hide BuildOne, BuildMany, Targets, EventsIndexed, MessagesIndexed, TransactionsIndexed, AllEvents, AllMessages,
         ToOwner;
    var ids := [RECEIPT_FRAGMENT_ID, EVENT_FRAGMENT_ID, MESSAGE_FRAGMENT_ID, TRACE_FRAGMENT_ID];
    FindTargetAt(TransactionJoinFragment(c).joins, ids, target, Place(ids, target));
    OneTarget(c.transactionToReceipt, Identity(|d.transactions|), a, b);
    OneTarget(c.transactionToTrace, Identity(d.traces), a, b);
    ManyTargets(c.eventJoins.transactionToRows, a);
    ManyTargets(c.messageJoins.transactionToRows, a);
  }

  // ------------------------------------------------------------------ what a client is sent

  /** A stored block with these contents; its header and bodies may be any. */
  ghost predicate Stores(block: Block, c: Collected, d: Contents) {
    Describes(c, d) && block.index == IndexFragments(c, d) && block.join == JoinFragments(c)
  }

  lemma {:induction false} FindIndexAt(fragments: seq<IndexFragment>, k: nat)
    requires k < |fragments| && forall i :: 0 <= i < k ==> fragments[i].fragmentId != fragments[k].fragmentId
    ensures FindIndex(fragments, fragments[k].fragmentId) == Ok(fragments[k])
    decreases k
  {
    if k > 0 { FindIndexAt(fragments[1..], k - 1); }
  }

  lemma {:induction false} FindJoinAt(fragments: seq<JoinFragment>, k: nat)
    requires k < |fragments| && forall i :: 0 <= i < k ==> fragments[i].fragmentId != fragments[k].fragmentId
    ensures FindJoin(fragments, fragments[k].fragmentId) == Ok(fragments[k])
    decreases k
  {
    if k > 0 { FindJoinAt(fragments[1..], k - 1); }
  }

  lemma FindsIndexes(c: Collected, d: Contents)
    ensures var index := IndexFragments(c, d);
            && FindIndex(index, TRANSACTION_FRAGMENT_ID) ==
              Ok(TransactionFragment(c.transactionIndexes, |d.transactions|))
            && FindIndex(index, EVENT_FRAGMENT_ID) == Ok(EventFragment(c.eventIndexes, |AllEvents(d.transactions)|))
            && FindIndex(index, MESSAGE_FRAGMENT_ID) ==
              Ok(MessageFragment(c.messageIndexes, |AllMessages(d.transactions)|))
            && FindIndex(index, STORAGE_DIFF_FRAGMENT_ID) == Ok(StorageDiffFragment(c.state, |d.diff.storageDiffs|))
            && FindIndex(index, CONTRACT_CHANGE_FRAGMENT_ID) == Ok(ContractChangeFragment(c.state, |Changes(d.diff)|))
            && FindIndex(index, NONCE_UPDATE_FRAGMENT_ID) == Ok(NonceUpdateFragment(c.state, |d.diff.nonces|))
  {
    hide FindIndex, Build, AllEvents, AllMessages, Changes;
    var index := IndexFragments(c, d);
    FindIndexAt(index, 0);
    FindIndexAt(index, 2);
    FindIndexAt(index, 3);
    FindIndexAt(index, 5);
    FindIndexAt(index, 6);
    FindIndexAt(index, 7);
  }

  /** The joins of the fragment that a client's filter is about. */
  function JoinFragmentOf(c: Collected, f: ClientFilter): JoinFragment {
    match f
    case OfTransactions(_) => TransactionJoinFragment(c)
    case OfEvents(_) => EventJoinFragment(c)
    case OfMessages(_) => MessageJoinFragment(c)
    case _ => JoinFragment(SourceOf(f), [])
  }

  lemma FindsJoins(c: Collected, f: ClientFilter)
    ensures FindJoin(JoinFragments(c), SourceOf(f)) == Ok(JoinFragmentOf(c, f))
  {
    hide FindJoin, BuildOne, BuildMany;
    var join := JoinFragments(c);
    match f
    case OfTransactions(_) => FindJoinAt(join, 0);
    case OfEvents(_) => FindJoinAt(join, 2);
    case OfMessages(_) => FindJoinAt(join, 3);
    case OfStorageDiffs(_) => FindJoinAt(join, 5);
    case OfContractChanges(_) => FindJoinAt(join, 6);
    case OfNonceUpdates(_) => FindJoinAt(join, 7);
  }

  lemma CompiledShape(f: ClientFilter)
    requires Compile(f).Ok?
    ensures var r := Compile(f).value; r.filterId == IdOf(f) && r.fragmentId == SourceOf(f) && r.joins == AsksFor(f)
  {
  }

  /** The index fragment that a client's filter is about. */
  function IndexFragmentOf(c: Collected, d: Contents, f: ClientFilter): IndexFragment {
    match f
    case OfTransactions(_) => TransactionFragment(c.transactionIndexes, |d.transactions|)
    case OfEvents(_) => EventFragment(c.eventIndexes, |AllEvents(d.transactions)|)
    case OfMessages(_) => MessageFragment(c.messageIndexes, |AllMessages(d.transactions)|)
    case OfStorageDiffs(_) => StorageDiffFragment(c.state, |d.diff.storageDiffs|)
    case OfContractChanges(_) => ContractChangeFragment(c.state, |Changes(d.diff)|)
    case OfNonceUpdates(_) => NonceUpdateFragment(c.state, |d.diff.nonces|)
  }

  lemma IndexesFound(block: Block, c: Collected, d: Contents, f: ClientFilter)
    requires Stores(block, c, d)
    ensures GetIndexFragment(OfBlock(block), SourceOf(f)) == Ok(IndexFragmentOf(c, d, f))
  {
    hide Describes, IndexFragments, JoinFragments, EventFragment, MessageFragment, TransactionFragment, AllEvents,
         AllMessages, FindIndex, StorageDiffFragment, ContractChangeFragment, NonceUpdateFragment, Changes;
    FindsIndexes(c, d);
  }

  /** A compiled filter selects, from its own fragment, exactly the rows the client described. */
  lemma OwnFragmentSelects(c: Collected, d: Contents, f: ClientFilter, row: nat)
    requires Describes(c, d) && Compile(f).Ok?
    ensures Rows(Compile(f).value, IndexFragmentOf(c, d, f)).Ok?
    ensures row in Rows(Compile(f).value, IndexFragmentOf(c, d, f)).value <==> Describing(f, d, row)
  {
    hide Rows, EventMatches, MessageMatches, TransactionMatches, EventsIndexed, MessagesIndexed, TransactionsIndexed,
         Says, RowsJoined, PeersJoined, EventFragment, MessageFragment, TransactionFragment, AllEvents, AllMessages,
         CompileEvent, CompileMessage, CompileTransaction, Changes, AddressMatches, ChangeMatches, AddressConditions,
         ChangeConditions;
    match f
    case OfTransactions(t) => TransactionsSelected(c.transactionIndexes, d.transactions, t, row);
    case OfEvents(e) => EventsSelected(c.eventIndexes, AllEvents(d.transactions), e, row);
    case OfMessages(m) => MessagesSelected(c.messageIndexes, AllMessages(d.transactions), m, row);
    case OfStorageDiffs(u) =>
      AddressesSelected(STORAGE_DIFF_FRAGMENT_ID, c.state.storage, d.diff.storageDiffs, u.address,
                        CompileStorageDiff(u), row);
    case OfContractChanges(u) => ChangesSelected(c.state.change, Changes(d.diff), u, row);
    case OfNonceUpdates(u) =>
      AddressesSelected(NONCE_UPDATE_FRAGMENT_ID, c.state.nonce, d.diff.nonces, u.address, CompileNonceUpdate(u), row);
  }

  lemma CompiledSelects(block: Block, c: Collected, d: Contents, f: ClientFilter, row: nat)
    requires Compile(f).Ok? && Stores(block, c, d)
    ensures row in RowsIn(OfBlock(block), Compile(f).value) <==> Describing(f, d, row)
  {
    hide Rows, Describes, IndexFragmentOf, IndexFragments, JoinFragments, Compile, Describing, GetIndexFragment,
         SourceOf;
    IndexesFound(block, c, d, f);
    CompiledShape(f);
    OwnFragmentSelects(c, d, f, row);
  }

  /** Following a join from a row of a client's filter leads where it should. */
  lemma JoinLeads(block: Block, c: Collected, d: Contents, f: ClientFilter, target: nat, a: nat, b: nat)
    requires Stores(block, c, d) && Describing(f, d, a)
    ensures b in TargetsOf(OfBlock(block), SourceOf(f), target, a) <==> Leads(d, SourceOf(f), target, a, b)
  {
    hide Describes, EventMatches, MessageMatches, TransactionMatches, IndexFragments, JoinFragments, EventJoinFragment,
         MessageJoinFragment, TransactionJoinFragment, AllEvents, AllMessages, FindIndex, FindJoin, Leads, Targets,
         Changes;
    FindsJoins(c, f);
    match f
    case OfTransactions(_) => TransactionLeads(c, d, target, a, b);
    case OfEvents(_) => EventLeads(c, d, target, a, b);
    case OfMessages(_) => MessageLeads(c, d, target, a, b);
    case _ => NothingLeads(d, SourceOf(f), target, a, b);
  }

  /** Rows of the state update belong to no transaction and lead nowhere. */
  lemma NothingLeads(d: Contents, source: nat, target: nat, a: nat, b: nat)
    requires source in {STORAGE_DIFF_FRAGMENT_ID, CONTRACT_CHANGE_FRAGMENT_ID, NONCE_UPDATE_FRAGMENT_ID}
    ensures !Leads(d, source, target, a, b)
  {
  }

  /** What a client asked for with one filter: the rows it describes, and the rows that come with them. */
  ghost predicate AskedFor(f: ClientFilter, d: Contents, target: nat, row: nat) {
    || (target == SourceOf(f) && Describing(f, d, row))
    || (target in AsksFor(f) && exists n: nat :: Describing(f, d, n) && Leads(d, SourceOf(f), target, n, row))
  }

  lemma DirectlyAsked(block: Block, c: Collected, d: Contents, f: ClientFilter, target: nat, row: nat)
    requires Stores(block, c, d) && Compile(f).Ok?
    ensures AskedFor(f, d, target, row) <==>
            || (target == SourceOf(f) && row in RowsIn(OfBlock(block), Compile(f).value))
            || (target in AsksFor(f) && exists n: nat ::
                  n in RowsIn(OfBlock(block), Compile(f).value)
                  && row in TargetsOf(OfBlock(block), SourceOf(f), target, n))
  {
    hide Stores, Compile, Describing, Leads, RowsIn, TargetsOf, AsksFor;
    CompiledSelects(block, c, d, f, row);
    forall n: nat
      ensures n in RowsIn(OfBlock(block), Compile(f).value) <==> Describing(f, d, n)
      ensures Describing(f, d, n) ==>
              (row in TargetsOf(OfBlock(block), SourceOf(f), target, n) <==> Leads(d, SourceOf(f), target, n, row))
    {
      CompiledSelects(block, c, d, f, n);
      if Describing(f, d, n) { JoinLeads(block, c, d, f, target, n, row); }
    }
  }

  ghost predicate SomeoneAsked(all: seq<ClientFilter>, d: Contents, target: nat, row: nat, id: nat) {
    exists k :: 0 <= k < |all| && IdOf(all[k]) == id && AskedFor(all[k], d, target, row)
  }

  /**
   * From transactions to what is sent: a row of a stored block is sent to a client for filter id `id` if and only if
   * the client has a filter with that id that describes the row, or describes a row of the same transaction and asks
   * for this one's fragment.
   */
  lemma SentIffAskedFor(block: Block, c: Collected, d: Contents, all: seq<ClientFilter>,
                        filters: map<nat, seq<Filter>>, target: nat, row: nat, id: nat)
    requires Stores(block, c, d) && CompiledTo(filters, all)
    ensures id in IdsAt(Wanted(OfBlock(block), filters, target), row) <==> SomeoneAsked(all, d, target, row, id)
  {
    hide Stores, Compile, AskedFor, RowsIn, TargetsOf, AsksFor, Wanted, IdsAt, SourceOf, IdOf;
    WantedMeans(OfBlock(block), filters, target, row, id);
    if SomeoneAsked(all, d, target, row, id) {
      AskedIsSent(block, c, d, all, filters, target, row, id);
    }
    if DirectHit(OfBlock(block), filters, target, row, id) {
      var f :| f in FiltersOf(filters, target) && f.filterId == id && row in RowsIn(OfBlock(block), f);
      var k :| 0 <= k < |all| && Compile(all[k]) == Ok(f);
      CompiledShape(all[k]);
      DirectlyAsked(block, c, d, all[k], target, row);
    } else if source :| source in filters && JoinHit(OfBlock(block), filters, source, target, row, id) {
      var f, n :| f in FiltersOf(filters, source) && target in f.joins && f.filterId == id
      && n in RowsIn(OfBlock(block), f)
                  && row in TargetsOf(OfBlock(block), source, target, n);
      var k :| 0 <= k < |all| && Compile(all[k]) == Ok(f);
      CompiledShape(all[k]);
      DirectlyAsked(block, c, d, all[k], target, row);
    }
  }

  lemma AskedIsSent(block: Block, c: Collected, d: Contents, all: seq<ClientFilter>,
                    filters: map<nat, seq<Filter>>, target: nat, row: nat, id: nat)
    requires Stores(block, c, d) && CompiledTo(filters, all) && SomeoneAsked(all, d, target, row, id)
    ensures DirectHit(OfBlock(block), filters, target, row, id)
            || exists source :: source in filters && JoinHit(OfBlock(block), filters, source, target, row, id)
  {
    hide Stores, Compile, AskedFor, RowsIn, TargetsOf, AsksFor, SourceOf, IdOf;
    var k :| 0 <= k < |all| && IdOf(all[k]) == id && AskedFor(all[k], d, target, row);
    var f := Compile(all[k]).value;
    CompiledShape(all[k]);
    assert Compiles(all, f) && f in FiltersOf(filters, f.fragmentId);
    DirectlyAsked(block, c, d, all[k], target, row);
    if !(target == f.fragmentId && row in RowsIn(OfBlock(block), f)) {
      var n: nat :| n in RowsIn(OfBlock(block), f) && row in TargetsOf(OfBlock(block), f.fragmentId, target, n);
      assert f.fragmentId in filters && JoinHit(OfBlock(block), filters, f.fragmentId, target, row, id);
    }
  }

  function NameOf(id: nat): string {
    if id == TRANSACTION_FRAGMENT_ID then "transaction"
    else if id == RECEIPT_FRAGMENT_ID then "receipt"
    else if id == EVENT_FRAGMENT_ID then "event"
    else if id == MESSAGE_FRAGMENT_ID then "message"
    else if id == STORAGE_DIFF_FRAGMENT_ID then "storage_diff"
    else if id == CONTRACT_CHANGE_FRAGMENT_ID then "contract_change"
    else if id == NONCE_UPDATE_FRAGMENT_ID then "nonce_update"
    else "trace"
  }

  /** What a message is made from; a receipt comes with its transaction, and what a trace holds is not modelled. */
  datatype RowData =
    | TransactionData(transaction: Transaction)
    | ReceiptData(transaction: Transaction)
    | EventData(event: EventRow)
    | MessageData(message: MessageRow)
    | TraceData
    | StorageDiffData(address: Option<nat>)
    | ContractChangeData(change: ContractChangeType)
    | NonceUpdateData(address: Option<nat>)

  function RowAt(d: Contents, id: nat, row: nat): RowData
    requires row < RowCount(d, id)
  {
    if id == EVENT_FRAGMENT_ID then EventData(AllEvents(d.transactions)[row])
    else if id == MESSAGE_FRAGMENT_ID then MessageData(AllMessages(d.transactions)[row])
    else if id == TRACE_FRAGMENT_ID then TraceData
    else if id == STORAGE_DIFF_FRAGMENT_ID then StorageDiffData(d.diff.storageDiffs[row])
    else if id == CONTRACT_CHANGE_FRAGMENT_ID then ContractChangeData(Changes(d.diff)[row])
    else if id == NONCE_UPDATE_FRAGMENT_ID then NonceUpdateData(d.diff.nonces[row])
    else if id == RECEIPT_FRAGMENT_ID then ReceiptData(d.transactions[row])
    else TransactionData(d.transactions[row])
  }

  /** One encoded message for each row; `encode` stands for the conversion of the row and its encoding. */
  function EncodedBodies(d: Contents, encode: (nat, RowData) -> Bytes, ids: seq<nat>): (r: seq<BodyFragment>)
    ensures |r| == |ids|
  {
    seq(|ids|, i requires 0 <= i < |ids| =>
      BodyFragment(ids[i], NameOf(ids[i]),
                   seq(RowCount(d, ids[i]), row requires 0 <= row < RowCount(d, ids[i]) =>
                     encode(row, RowAt(d, ids[i], row)))))
  }

  const BODY_IDS: seq<nat> :=
    [TRANSACTION_FRAGMENT_ID, RECEIPT_FRAGMENT_ID, EVENT_FRAGMENT_ID, MESSAGE_FRAGMENT_ID, TRACE_FRAGMENT_ID,
     STORAGE_DIFF_FRAGMENT_ID, CONTRACT_CHANGE_FRAGMENT_ID, NONCE_UPDATE_FRAGMENT_ID]

  /** Both collections of a block, and the block they make; what the messages hold is `encode`'s. */
  method IngestBlock(header: Bytes, d: Contents, encode: (nat, RowData) -> Bytes) returns (block: Block, c: Collected)
    ensures Stores(block, c, d) && block.header == header && block.body == EncodedBodies(d, encode, BODY_IDS)
  {
    hide EventsIndexed, MessagesIndexed, TransactionsIndexed, RowsJoined, PeersJoined, ToOwner, IndexFragments,
         JoinFragments, AllEvents, AllMessages, StateIndexed, Changes, EncodedBodies;
    var collector := new BlockCollector(d.traces);
    collector.Collect(d.transactions);
    var state, _ := CollectStateUpdate(d.diff);
    c := Collected(collector.eventIndexes, collector.messageIndexes, collector.transactionIndexes, collector.eventJoins,
                   collector.messageJoins, collector.peers, collector.transactionToReceipt,
                     collector.transactionToTrace, state);
    block := Block(header, IndexFragments(c, d), JoinFragments(c), EncodedBodies(d, encode, BODY_IDS));
  }
}
