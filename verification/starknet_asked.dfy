/**
 * What a Starknet client is sent, told from the fields of its filters and the contents of the blocks alone
 * (protocol/proto/starknet/v2/filter.proto).
 */
module StarknetAsked {
  import opened Core
  import opened Sorting
  import opened Fragments
  import opened Query
  import opened Filtering
  import opened FilterFragment
  import opened FilteredItems
  import opened Watermarks
  import opened SegmentStream
  import opened FastPath
  import opened FastPathRefinement
  import opened Sending
  import opened StarknetRows
  import opened StarknetCollector
  import opened StarknetFilter
  import opened StarknetBlock
  import opened StarknetServing

  // ------------------------------------------------------------------ where a transaction's rows are

  function Total(counts: seq<nat>): nat {
    if counts == [] then 0 else Total(counts[..|counts| - 1]) + counts[|counts| - 1]
  }

  /** Row `row` is number `i` of transaction `t`: the rows of earlier transactions come first. */
  ghost predicate IsRow(counts: seq<nat>, row: nat, t: nat, i: nat) {
    t < |counts| && i < counts[t] && row == Total(counts[..t]) + i
  }

  function EventCounts(transactions: seq<Transaction>): (r: seq<nat>)
    ensures |r| == |transactions|
  {
    seq(|transactions|, t requires 0 <= t < |transactions| => |transactions[t].events|)
  }

  function MessageCounts(transactions: seq<Transaction>): (r: seq<nat>)
    ensures |r| == |transactions|
  {
    seq(|transactions|, t requires 0 <= t < |transactions| => |transactions[t].messages|)
  }

  /** The events of a block are those of its transactions, one after the other, with their transaction's status. */
  lemma {:induction false} EventRowIs(transactions: seq<Transaction>, row: nat, t: nat, i: nat)
    ensures |AllEvents(transactions)| == Total(EventCounts(transactions))
    ensures IsRow(EventCounts(transactions), row, t, i) ==>
              var tx := transactions[t];
              row < |AllEvents(transactions)|
              && AllEvents(transactions)[row] == EventRow(tx.events[i], t, if tx.reverted then REVERTED else SUCCEEDED)
    decreases |transactions|
  {
    if transactions != [] {
      var last := |transactions| - 1;
      var init, counts := transactions[..last], EventCounts(transactions);
      EventRowIs(init, row, t, i);
      assert EventCounts(init) == counts[..last];
      if t < last { assert counts[..last][..t] == counts[..t]; }
    }
  }

  lemma {:induction false} MessageRowIs(transactions: seq<Transaction>, row: nat, t: nat, i: nat)
    ensures |AllMessages(transactions)| == Total(MessageCounts(transactions))
    ensures IsRow(MessageCounts(transactions), row, t, i) ==>
              var tx := transactions[t];
              row < |AllMessages(transactions)|
              && AllMessages(transactions)[row] ==
                 MessageRow(tx.messages[i], t, if tx.reverted then REVERTED else SUCCEEDED)
    decreases |transactions|
  {
    if transactions != [] {
      var last := |transactions| - 1;
      var init, counts := transactions[..last], MessageCounts(transactions);
      MessageRowIs(init, row, t, i);
      assert MessageCounts(init) == counts[..last];
      if t < last { assert counts[..last][..t] == counts[..t]; }
    }
  }

  /** Every row is of one transaction. */
  lemma {:induction false} Located(counts: seq<nat>, row: nat) returns (t: nat, i: nat)
    requires row < Total(counts)
    ensures IsRow(counts, row, t, i)
    decreases |counts|
  {
    var last := |counts| - 1;
    var init := counts[..last];
    if row < Total(init) {
      t, i := Located(init, row);
      assert init[..t] == counts[..t];
    } else {
      t, i := last, row - Total(init);
    }
  }

  // ------------------------------------------------------------------ what a filter describes

  /** No status asks for succeeded ones; 1 for succeeded, 2 for reverted, 0 and 3 for any, no other for none. */
  predicate WantsStatus(status: Option<int>, reverted: bool) {
    match status
    case None => !reverted
    case Some(n) => 0 <= n <= 3 && (n == 1 ==> !reverted) && (n == 2 ==> reverted)
  }

  /** Of a filter's keys the first four count; the length of the keys is taken modulo 2^32. */
  predicate WantsEvent(f: EventFilter, event: Event, reverted: bool) {
    && (f.address.Some? ==> event.address == f.address)
    && (f.strict == Some(true) ==> |event.keys| % 0x1_0000_0000 == |f.keys| % 0x1_0000_0000)
    && (forall i :: 0 <= i < |f.keys| && i < 4 && f.keys[i].Some? ==>
          i < |event.keys| && event.keys[i] == f.keys[i].value)
    && WantsStatus(f.status, reverted)
  }

  predicate WantsMessage(f: MessageToL1Filter, message: MessageToL1, reverted: bool) {
    && (f.from.Some? ==> message.from == f.from) && (f.to.Some? ==> message.to == f.to)
    && WantsStatus(f.status, reverted)
  }

  /** Number `i` of transaction `t`. */
  predicate EventWanted(f: EventFilter, d: Contents, t: nat, i: nat) {
    t < |d.transactions| && i < |d.transactions[t].events|
    && WantsEvent(f, d.transactions[t].events[i], d.transactions[t].reverted)
  }

  predicate MessageWanted(f: MessageToL1Filter, d: Contents, t: nat, i: nat) {
    t < |d.transactions| && i < |d.transactions[t].messages|
    && WantsMessage(f, d.transactions[t].messages[i], d.transactions[t].reverted)
  }

  /** Declared classes come first, then replaced ones, then deployed contracts. */
  predicate IsChange(diff: StateDiff, row: nat, change: ContractChangeType) {
    var declared := diff.deprecatedClasses + diff.declaredClasses;
    match change
    case DeclaredClass => row < declared
    case ReplacedClass => declared <= row < declared + diff.replacedClasses
    case DeployedContract =>
      declared + diff.replacedClasses <= row < declared + diff.replacedClasses + diff.deployedContracts
  }

  /** The filter asks for row `row` of its own fragment. */
  ghost predicate Wants(f: ClientFilter, d: Contents, row: nat) {
    match f
    case OfTransactions(q) =>
      && row < |d.transactions| && (q.kind.Some? ==> d.transactions[row].kind == q.kind)
      && WantsStatus(q.status, d.transactions[row].reverted)
    case OfEvents(q) =>
      exists t: nat, i: nat :: IsRow(EventCounts(d.transactions), row, t, i) && EventWanted(q, d, t, i)
    case OfMessages(q) =>
      exists t: nat, i: nat :: IsRow(MessageCounts(d.transactions), row, t, i) && MessageWanted(q, d, t, i)
    case OfStorageDiffs(q) => row < |d.diff.storageDiffs| && (q.address.Some? ==> d.diff.storageDiffs[row] == q.address)
    case OfContractChanges(q) =>
      exists change :: IsChange(d.diff, row, change) && (q.change.Some? ==> q.change.value == change)
    case OfNonceUpdates(q) => row < |d.diff.nonces| && (q.address.Some? ==> d.diff.nonces[row] == q.address)
  }

  /** The filter asks for the rows of `target` that go with its own. */
  predicate Includes(f: ClientFilter, target: nat) {
    match f
    case OfTransactions(q) =>
      || (target == RECEIPT_FRAGMENT_ID && q.includeReceipt == Some(true))
      || (target == EVENT_FRAGMENT_ID && q.includeEvents == Some(true))
      || (target == MESSAGE_FRAGMENT_ID && q.includeMessages == Some(true))
      || (target == TRACE_FRAGMENT_ID && q.includeTrace == Some(true))
    case OfEvents(q) =>
      || (target == TRANSACTION_FRAGMENT_ID && q.includeTransaction == Some(true))
      || (target == RECEIPT_FRAGMENT_ID && q.includeReceipt == Some(true))
      || (target == EVENT_FRAGMENT_ID && q.includeSiblings == Some(true))
      || (target == MESSAGE_FRAGMENT_ID && q.includeMessages == Some(true))
      || (target == TRACE_FRAGMENT_ID && q.includeTrace == Some(true))
    case OfMessages(q) =>
      || (target == TRANSACTION_FRAGMENT_ID && q.includeTransaction == Some(true))
      || (target == RECEIPT_FRAGMENT_ID && q.includeReceipt == Some(true))
      || (target == EVENT_FRAGMENT_ID && q.includeEvents == Some(true))
      || (target == MESSAGE_FRAGMENT_ID && q.includeSiblings == Some(true))
      || (target == TRACE_FRAGMENT_ID && q.includeTrace == Some(true))
    case _ => false
  }

  /** The row is one of transaction `t`. */
  ghost predicate Belongs(d: Contents, id: nat, row: nat, t: nat) {
    if id == EVENT_FRAGMENT_ID then exists i: nat :: IsRow(EventCounts(d.transactions), row, t, i)
    else if id == MESSAGE_FRAGMENT_ID then exists i: nat :: IsRow(MessageCounts(d.transactions), row, t, i)
    else row == t && t < |d.transactions|
  }

  /** Another row of the same transaction; traces only if the block has them. */
  ghost predicate GoesWith(d: Contents, source: nat, a: nat, target: nat, b: nat) {
    && (exists t: nat :: Belongs(d, source, a, t) && Belongs(d, target, b, t))
    && (source == target ==> a != b)
    && (target == TRACE_FRAGMENT_ID ==> if source == TRANSACTION_FRAGMENT_ID then a < d.traces else d.traces > 0)
  }

  /** What one filter asks for: the rows it describes, and of the fragments it includes those that go with them. */
  ghost predicate Asks(f: ClientFilter, d: Contents, target: nat, row: nat) {
    || (target == SourceOf(f) && Wants(f, d, row))
    || (Includes(f, target) && exists n: nat :: Wants(f, d, n) && GoesWith(d, SourceOf(f), n, target, row))
  }

  // ------------------------------------------------------------------ the same, told from the rows

  /** A filter is refused exactly for a status that is no member of the protobuf enum. */
  lemma CompilesIff(f: ClientFilter)
    ensures var status := match f
                          case OfTransactions(q) => q.status
                          case OfEvents(q) => q.status
                          case OfMessages(q) => q.status
                          case _ => None;
            Compile(f).Ok? <==> status.None? || 0 <= status.value <= 3
  {
    hide KeyConditions, AddressConditions, StatusConditions, KindConditions, LengthConditions, EventJoins, MessageJoins,
         TransactionJoins;
  }

  lemma IncludesIff(f: ClientFilter, target: nat)
    ensures target in AsksFor(f) <==> Includes(f, target)
  {
    hide If;
    forall wanted, id
      ensures target in If(wanted, id) <==> wanted == Some(true) && target == id
    {
      IfMeans(wanted, id, target);
    }
  }

  lemma IfMeans(wanted: Option<bool>, id: nat, target: nat)
    ensures target in If(wanted, id) <==> wanted == Some(true) && target == id
  {
  }

  lemma EventIff(f: EventFilter, row: EventRow, reverted: bool)
    requires row.status == if reverted then REVERTED else SUCCEEDED
    ensures EventMatches(f, row) <==> WantsEvent(f, row.event, reverted)
  {
    var matches := forall i :: 0 <= i < |f.keys| && i < 4 && f.keys[i].Some? ==>
                     i < |row.event.keys| && row.event.keys[i] == f.keys[i].value;
    assert FirstKeysMatch(f.keys, row) ==> matches by {
      forall i | 0 <= i < |f.keys| && i < 4
        ensures FirstKeysMatch(f.keys, row) ==> KeyMatches(f.keys, row, i)
      {
        assert i == 0 || i == 1 || i == 2 || i == 3;
      }
    }
  }

  lemma EventsDescribed(f: EventFilter, d: Contents, row: nat)
    ensures Describing(OfEvents(f), d, row) <==> Wants(OfEvents(f), d, row)
  {
    hide EventMatches, EventWanted, IsRow, AllEvents;
    var ts := d.transactions;
    EventRowIs(ts, row, 0, 0);
    if row < |AllEvents(ts)| {
      var t, i := Located(EventCounts(ts), row);
      EventHere(f, d, row, t, i);
    }
    forall t: nat, i: nat | IsRow(EventCounts(ts), row, t, i)
      ensures Describing(OfEvents(f), d, row) <==> EventWanted(f, d, t, i)
    {
      EventHere(f, d, row, t, i);
    }
  }

  lemma EventHere(f: EventFilter, d: Contents, row: nat, t: nat, i: nat)
    requires IsRow(EventCounts(d.transactions), row, t, i)
    ensures t < |d.transactions| && i < |d.transactions[t].events| && row < |AllEvents(d.transactions)|
    ensures Describing(OfEvents(f), d, row) <==> EventWanted(f, d, t, i)
  {
    hide EventMatches, WantsEvent, AllEvents, Total;
    EventRowIs(d.transactions, row, t, i);
    EventIff(f, AllEvents(d.transactions)[row], d.transactions[t].reverted);
  }

  lemma MessagesDescribed(f: MessageToL1Filter, d: Contents, row: nat)
    ensures Describing(OfMessages(f), d, row) <==> Wants(OfMessages(f), d, row)
  {
    hide MessageMatches, MessageWanted, IsRow, AllMessages;
    var ts := d.transactions;
    MessageRowIs(ts, row, 0, 0);
    if row < |AllMessages(ts)| {
      var t, i := Located(MessageCounts(ts), row);
      MessageHere(f, d, row, t, i);
    }
    forall t: nat, i: nat | IsRow(MessageCounts(ts), row, t, i)
      ensures Describing(OfMessages(f), d, row) <==> MessageWanted(f, d, t, i)
    {
      MessageHere(f, d, row, t, i);
    }
  }

  lemma MessageHere(f: MessageToL1Filter, d: Contents, row: nat, t: nat, i: nat)
    requires IsRow(MessageCounts(d.transactions), row, t, i)
    ensures t < |d.transactions| && i < |d.transactions[t].messages| && row < |AllMessages(d.transactions)|
    ensures Describing(OfMessages(f), d, row) <==> MessageWanted(f, d, t, i)
  {
    hide AllMessages, Total;
    MessageRowIs(d.transactions, row, t, i);
  }

  lemma ChangeIs(diff: StateDiff, row: nat, change: ContractChangeType)
    ensures IsChange(diff, row, change) <==> row < |Changes(diff)| && Changes(diff)[row] == change
  {
  }

  /** A compiled filter describes exactly the rows its fields ask for. */
  lemma DescribesIff(f: ClientFilter, d: Contents, row: nat)
    ensures Describing(f, d, row) <==> Wants(f, d, row)
  {
    match f
    case OfEvents(q) => EventsDescribed(q, d, row);
    case OfMessages(q) => MessagesDescribed(q, d, row);
    case OfContractChanges(q) => ChangesDescribed(q, d, row);
    case _ =>
  }

  lemma ChangesDescribed(f: ContractChangeFilter, d: Contents, row: nat)
    ensures Describing(OfContractChanges(f), d, row) <==> Wants(OfContractChanges(f), d, row)
  {
    hide IsChange, Changes;
    forall change
      ensures IsChange(d.diff, row, change) <==> row < |Changes(d.diff)| && Changes(d.diff)[row] == change
    {
      ChangeIs(d.diff, row, change);
    }
    if row < |Changes(d.diff)| { assert IsChange(d.diff, row, Changes(d.diff)[row]); }
  }

  lemma OwnerIs(d: Contents, id: nat, row: nat, t: nat)
    requires id in {TRANSACTION_FRAGMENT_ID, EVENT_FRAGMENT_ID, MESSAGE_FRAGMENT_ID}
    ensures Belongs(d, id, row, t) <==> row < |Owners(d.transactions, id)| && Owners(d.transactions, id)[row] == t
  {
    hide AllEvents, AllMessages, IsRow;
    var ts := d.transactions;
    if id == EVENT_FRAGMENT_ID {
      EventRowIs(ts, row, 0, 0);
      if row < |AllEvents(ts)| {
        var t', i := Located(EventCounts(ts), row);
        EventRowIs(ts, row, t', i);
      }
      forall i: nat | IsRow(EventCounts(ts), row, t, i)
        ensures row < |AllEvents(ts)| && AllEvents(ts)[row].transaction == t
      {
        EventRowIs(ts, row, t, i);
      }
    } else if id == MESSAGE_FRAGMENT_ID {
      MessageRowIs(ts, row, 0, 0);
      if row < |AllMessages(ts)| {
        var t', i := Located(MessageCounts(ts), row);
        MessageRowIs(ts, row, t', i);
      }
      forall i: nat | IsRow(MessageCounts(ts), row, t, i)
        ensures row < |AllMessages(ts)| && AllMessages(ts)[row].transaction == t
      {
        MessageRowIs(ts, row, t, i);
      }
    }
  }

  /** Joins lead to the rows that go with a row. */
  lemma LeadsIff(f: ClientFilter, d: Contents, target: nat, a: nat, b: nat)
    requires Includes(f, target)
    ensures Leads(d, SourceOf(f), target, a, b) <==> GoesWith(d, SourceOf(f), a, target, b)
  {
    hide Belongs, Owners, AllEvents, AllMessages;
    var source := SourceOf(f);
    forall t: nat
      ensures Belongs(d, source, a, t) <==>
              a < |Owners(d.transactions, source)| && Owners(d.transactions, source)[a] == t
    {
      OwnerIs(d, source, a, t);
    }
    forall t: nat | Belongs(d, source, a, t)
      ensures t < |d.transactions|
      ensures target !in {RECEIPT_FRAGMENT_ID, TRACE_FRAGMENT_ID} ==>
              (Belongs(d, target, b, t) <==>
               b < |Owners(d.transactions, target)| && Owners(d.transactions, target)[b] == t)
      ensures target in {RECEIPT_FRAGMENT_ID, TRACE_FRAGMENT_ID} ==> (Belongs(d, target, b, t) <==> b == t)
    {
      BelongsBelow(d, source, a, t);
      if target !in {RECEIPT_FRAGMENT_ID, TRACE_FRAGMENT_ID} {
        OwnerIs(d, target, b, t);
      } else {
        ReceiptBelongs(d, target, b, t);
      }
    }
    var from := Owners(d.transactions, source);
    if a < |from| { assert Belongs(d, source, a, from[a]); }
  }

  lemma BelongsBelow(d: Contents, id: nat, row: nat, t: nat)
    requires Belongs(d, id, row, t)
    ensures t < |d.transactions|
  {
  }

  lemma ReceiptBelongs(d: Contents, id: nat, row: nat, t: nat)
    requires id in {RECEIPT_FRAGMENT_ID, TRACE_FRAGMENT_ID} && t < |d.transactions|
    ensures Belongs(d, id, row, t) <==> row == t
  {
  }

  /** The rows' own account of what was asked for is the client's. */
  lemma AsksIff(f: ClientFilter, d: Contents, target: nat, row: nat)
    ensures AskedFor(f, d, target, row) <==> Asks(f, d, target, row)
  {
    hide Describing, Wants, Leads, GoesWith, AsksFor, Includes;
    IncludesIff(f, target);
    DescribesIff(f, d, row);
    forall n: nat
      ensures Describing(f, d, n) <==> Wants(f, d, n)
      ensures Includes(f, target) ==> (Leads(d, SourceOf(f), target, n, row) <==>
                                       GoesWith(d, SourceOf(f), n, target, row))
    {
      DescribesIff(f, d, n);
      if Includes(f, target) { LeadsIff(f, d, target, n, row); }
    }
  }

  // ------------------------------------------------------------------ what a client is sent of a block

  /** A row is among the items, for filter id `id`. */
  ghost predicate SentFor(items: seq<Item>, target: nat, row: nat, id: nat) {
    exists i :: 0 <= i < |items| && items[i].fragmentId == target && items[i].row == row && id in items[i].filterIds
  }

  /** One of the message's filters has that id and asks for the row. */
  ghost predicate MessageAsks(m: FilterMessage, d: Contents, target: nat, row: nat, id: nat) {
    exists f :: Lists(m, f) && IdOf(f) == id && Asks(f, d, target, row)
  }

  lemma SomeoneAskedIff(m: FilterMessage, d: Contents, target: nat, row: nat, id: nat)
    ensures SomeoneAsked(Listed(m), d, target, row, id) <==> MessageAsks(m, d, target, row, id)
  {
    hide Listed, Lists, AskedFor, Asks, IdOf;
    forall f
      ensures f in Listed(m) <==> Lists(m, f)
      ensures AskedFor(f, d, target, row) <==> Asks(f, d, target, row)
    {
      ListedMeans(m, f);
      AsksIff(f, d, target, row);
    }
    if MessageAsks(m, d, target, row, id) {
      var f :| Lists(m, f) && IdOf(f) == id && Asks(f, d, target, row);
      assert f in Listed(m);
      var k :| 0 <= k < |Listed(m)| && Listed(m)[k] == f;
    }
  }

  /**
   * From the fields of the client's filters to the items it is sent: of a stored block, a row is sent for filter id
   * `id` if and only if a filter of that id asks for it.
   */
  lemma SentIffAsked(block: Block, c: Collected, d: Contents, m: FilterMessage, bf: BlockFilter, names: set<nat>,
                     isLive: bool, target: nat, row: nat, id: nat)
    requires Stores(block, c, d) && CompiledTo(bf.filters, Listed(m))
             && FilterBlock(OfBlock(block), bf, names, isLive).Ok?
    ensures SentFor(FilterBlock(OfBlock(block), bf, names, isLive).value.items, target, row, id) <==>
            MessageAsks(m, d, target, row, id)
  {
    hide Stores, CompiledTo, FilterBlock, Listed, SomeoneAsked, MessageAsks, Hit, Wanted, IdsAt;
    var a := OfBlock(block);
    var items := FilterBlock(a, bf, names, isLive).value.items;
    ItemsAreWanted(a, bf, names, isLive, target, row);
    HitMeans(a, bf.filters, target, row, id);
    SentIffAskedFor(block, c, d, Listed(m), bf.filters, target, row, id);
    SomeoneAskedIff(m, d, target, row, id);
    if Hit(a, bf.filters, target, row, id) {
      var i :| 0 <= i < |items| && items[i].fragmentId == target && items[i].row == row;
      assert ItemSent(a, bf.filters, items[i]);
    }
    if i :| 0 <= i < |items| && items[i].fragmentId == target && items[i].row == row && id in items[i].filterIds {
      assert ItemSent(a, bf.filters, items[i]);
    }
  }

  /** Every message sent is the encoding of its own row. */
  lemma SentAsEncoded(block: Block, d: Contents, encode: (nat, RowData) -> Bytes, bf: BlockFilter, names: set<nat>,
                      isLive: bool, i: nat)
    requires block.body == EncodedBodies(d, encode, BODY_IDS)
    requires var r := FilterBlock(OfBlock(block), bf, names, isLive);
             r.Ok? && i < |r.value.items| && r.value.items[i].fragmentId in OWN_FRAGMENTS
    ensures var item := FilterBlock(OfBlock(block), bf, names, isLive).value.items[i];
            exists data :: item.message == encode(item.row, data) && Holds(d, item.fragmentId, item.row, data)
  {
    hide FilterBlock, RowCount, RowAt, FindBody, Hit, Holds;
    var a := OfBlock(block);
    var item := FilterBlock(a, bf, names, isLive).value.items[i];
    ItemsAreWanted(a, bf, names, isLive, item.fragmentId, item.row);
    assert ItemSent(a, bf.filters, item);
    assert item.fragmentId in BODY_IDS;
    var k :| 0 <= k < |BODY_IDS| && BODY_IDS[k] == item.fragmentId;
    FindBodyAt(block.body, k);
    RowHolds(d, item.fragmentId, item.row);
  }

  /** What the message of a row is made from, by fragment: the transaction's own event or message, and so on. */
  ghost predicate Holds(d: Contents, id: nat, row: nat, data: RowData) {
    match data
    case TransactionData(tx) => id == TRANSACTION_FRAGMENT_ID && row < |d.transactions| && tx == d.transactions[row]
    case ReceiptData(tx) => id == RECEIPT_FRAGMENT_ID && row < |d.transactions| && tx == d.transactions[row]
    case EventData(e) =>
      && id == EVENT_FRAGMENT_ID && e.transaction < |d.transactions|
      && (exists i: nat :: IsRow(EventCounts(d.transactions), row, e.transaction, i) &&
                           e.event == d.transactions[e.transaction].events[i])
      && e.status == (if d.transactions[e.transaction].reverted then REVERTED else SUCCEEDED)
    case MessageData(m) =>
      && id == MESSAGE_FRAGMENT_ID && m.transaction < |d.transactions|
      && (exists i: nat :: IsRow(MessageCounts(d.transactions), row, m.transaction, i) &&
                           m.message == d.transactions[m.transaction].messages[i])
      && m.status == (if d.transactions[m.transaction].reverted then REVERTED else SUCCEEDED)
    case TraceData => id == TRACE_FRAGMENT_ID
    case StorageDiffData(address) =>
      id == STORAGE_DIFF_FRAGMENT_ID && row < |d.diff.storageDiffs| && address == d.diff.storageDiffs[row]
    case ContractChangeData(change) => id == CONTRACT_CHANGE_FRAGMENT_ID && IsChange(d.diff, row, change)
    case NonceUpdateData(address) =>
      id == NONCE_UPDATE_FRAGMENT_ID && row < |d.diff.nonces| && address == d.diff.nonces[row]
  }

  lemma RowHolds(d: Contents, id: nat, row: nat)
    requires id in OWN_FRAGMENTS && row < RowCount(d, id)
    ensures Holds(d, id, row, RowAt(d, id, row))
  {
    hide IsRow, AllEvents, AllMessages, IsChange, Changes;
    var ts := d.transactions;
    if id == EVENT_FRAGMENT_ID {
      EventRowIs(ts, row, 0, 0);
      var t, i := Located(EventCounts(ts), row);
      CountsAt(ts, row, t, i);
      EventRowIs(ts, row, t, i);
    } else if id == MESSAGE_FRAGMENT_ID {
      MessageRowIs(ts, row, 0, 0);
      var t, i := Located(MessageCounts(ts), row);
      CountsAt(ts, row, t, i);
      MessageRowIs(ts, row, t, i);
    } else if id == CONTRACT_CHANGE_FRAGMENT_ID {
      ChangeIs(d.diff, row, Changes(d.diff)[row]);
    }
  }

  lemma CountsAt(transactions: seq<Transaction>, row: nat, t: nat, i: nat)
    ensures IsRow(EventCounts(transactions), row, t, i) ==>
              t < |transactions| && i < |transactions[t].events|
    ensures IsRow(MessageCounts(transactions), row, t, i) ==>
              t < |transactions| && i < |transactions[t].messages|
  {
  }

  // ------------------------------------------------------------------ which blocks a client is sent

  /** The message has a filter that describes a row of the block. */
  ghost predicate MessageWants(m: FilterMessage, d: Contents) {
    exists f, row: nat :: Lists(m, f) && Wants(f, d, row)
  }

  /** Header filter 1 asks for every header, 2 for those with data, any other also for that of a new head. */
  ghost predicate IsOwed(m: FilterMessage, d: Contents, isLive: bool) {
    m.header == 1 || MessageWants(m, d) || (m.header != 2 && isLive)
  }

  lemma SelectsIff(block: Block, c: Collected, d: Contents, m: FilterMessage, filters: map<nat, seq<Filter>>)
    requires Stores(block, c, d) && CompiledTo(filters, Listed(m))
    ensures Selects(OfBlock(block), filters) <==> MessageWants(m, d)
  {
    hide Stores, CompiledTo, Compile, Listed, Lists, Wants, Describing, RowsIn, SourceOf, AsksFor;
    var a := OfBlock(block);
    if Selects(a, filters) {
      var id, f :| id in filters && f in filters[id] && RowsIn(a, f) != {};
      var row: nat :| row in RowsIn(a, f);
      var k := FilterComesFrom(filters, Listed(m), id, f);
      FilterWants(block, c, d, Listed(m)[k], row, f);
      ListedMeans(m, Listed(m)[k]);
    }
    if MessageWants(m, d) {
      var f, row: nat :| Lists(m, f) && Wants(f, d, row);
      ListedMeans(m, f);
      var k :| 0 <= k < |Listed(m)| && Listed(m)[k] == f;
      ListedCompiles(filters, Listed(m), k);
      FilterWants(block, c, d, f, row, Compile(f).value);
    }
  }

  lemma FilterWants(block: Block, c: Collected, d: Contents, f: ClientFilter, row: nat, compiled: Filter)
    requires Stores(block, c, d) && Compile(f) == Ok(compiled)
    ensures row in RowsIn(OfBlock(block), compiled) <==> Wants(f, d, row)
  {
    hide Stores, Compile, Wants, Describing, RowsIn;
    CompiledSelects(block, c, d, f, row);
    DescribesIff(f, d, row);
  }

  lemma ListedCompiles(filters: map<nat, seq<Filter>>, all: seq<ClientFilter>, k: nat)
    requires CompiledTo(filters, all) && k < |all|
    ensures Compile(all[k]).Ok? && Compile(all[k]).value.fragmentId in filters
    ensures Compile(all[k]).value in filters[Compile(all[k]).value.fragmentId]
  {
    hide Compile;
    var f := Compile(all[k]).value;
    assert Compiles(all, f) && f in FiltersOf(filters, f.fragmentId);
  }

  /** The client's filters as `CreateBlockFilter` leaves them. */
  ghost predicate Accepted(filters: seq<BlockFilter>, messages: seq<FilterMessage>) {
    Compiled(filters, AllListed(messages))
    && forall k :: 0 <= k < |messages| ==> filters[k].headerFilter == HeaderOf(messages[k].header)
  }

  /** A block is owed to a client exactly if it is to one of its filter messages. */
  lemma DueIff(block: Block, c: Collected, d: Contents, messages: seq<FilterMessage>, filters: seq<BlockFilter>,
               isLive: bool)
    requires Stores(block, c, d) && Accepted(filters, messages)
    ensures Due(OfBlock(block), filters, isLive) <==> exists k :: 0 <= k < |messages| && IsOwed(messages[k], d, isLive)
  {
    hide Stores, CompiledTo, Listed, WfFilters, Selects, MessageWants;
    forall k | 0 <= k < |messages|
      ensures HeaderDue(OfBlock(block), filters[k], isLive) <==> IsOwed(messages[k], d, isLive)
    {
      assert AllListed(messages)[k] == Listed(messages[k]);
      SelectsIff(block, c, d, messages[k], filters[k].filters);
    }
  }

  /**
   * Ingestion, compaction, filters and streaming together: over ingested Starknet blocks whose traces reach, the
   * segment stream sends an accepted client a block if and only if one of its filter messages asks for every header
   * or describes a row of the block; in order, and each once.
   */
  lemma ClientIsSent(w: World, sources: nat -> Source, kind: (nat, nat) -> nat, segmented: nat, top: Option<nat>,
                     messages: seq<FilterMessage>, filters: seq<BlockFilter>, names: set<nat>, from: nat,
                     grouped: Option<nat>, rereads: seq<Option<nat>>, n: nat)
    requires {INDEX_FRAGMENT_ID, JOIN_FRAGMENT_ID, HEADER_FRAGMENT_ID} + OWN_FRAGMENTS <= names && StarknetKinds(kind)
    requires Accepted(filters, messages) && Compacted(w, sources, segmented, top) && w.z.start <= from <= segmented
    requires grouped.Some? ==> GoodGrouped(w, top, grouped.value)
    requires forall i :: 0 <= i < |rereads| ==> rereads[i].Some? && GoodGrouped(w, top, rereads[i].value)
    requires forall m: nat :: from <= m <= segmented ==> TracesReach(sources(m).contents)
    ensures var fetches := Streamed(w.z, filters, names, w.groups, from, grouped, rereads, Some(segmented));
            && fetches.Ok?
            && var sent := ConsumeFetches(w, filters, names, from, fetches.value);
               && sent.ok && Ordered(w, filters, names, from, sent.messages)
               && (Has(sent.messages, n) <==>
                   from <= n <= segmented &&
                   exists k :: 0 <= k < |messages| && IsOwed(messages[k], sources(n).contents, false))
  {
    hide Streamed, ConsumeFetches, Slow, Compiled, GoodGrouped, StoredSegment, StoredGroup, TracesReach, Outputs,
         Ordered, Has, Due, IsOwed, HasBodies, Stores;
    ClientsAreServedFast(w, sources, kind, segmented, top, AllListed(messages), filters, names, from, grouped, rereads);
    var count := segmented + 1 - from;
    SlowSends(w, filters, names, from, from, count, n);
    SlowFails(w, filters, names, from, from, count);
    if from <= n <= segmented {
      assert Ingested(w.block(n), sources(n).collected, sources(n).contents);
      DueIff(w.block(n), sources(n).collected, sources(n).contents, messages, filters, false);
    }
  }
}
