/** The loops of `collect_block_body_and_index` (starknet/src/ingestion.rs). */
module StarknetCollector {
  import opened Core
  import opened Sorting
  import opened Indexes
  import opened GroupBuilder
  import opened StarknetRows

  datatype EventIndexes = EventIndexes(address: Entries, key0: Entries, key1: Entries, key2: Entries, key3: Entries,
                                       keyLength: Entries, status: Entries)

  datatype MessageIndexes = MessageIndexes(from: Entries, to: Entries, status: Entries)

  datatype TransactionIndexes = TransactionIndexes(status: Entries, kind: Entries)

  function EventEntries(e: EventIndexes, index: nat): Entries {
    match index
    case 0 => e.address
    case 1 => e.key0
    case 2 => e.key1
    case 3 => e.key2
    case 4 => e.key3
    case 5 => e.keyLength
    case _ => e.status
  }

  function MessageEntries(m: MessageIndexes, index: nat): Entries {
    match index
    case 0 => m.from
    case 1 => m.to
    case _ => m.status
  }

  function TransactionEntries(t: TransactionIndexes, index: nat): Entries {
    if index == 0 then t.status else t.kind
  }

  ghost predicate EventsIndexed(e: EventIndexes, rows: seq<EventRow>) {
    forall index: nat :: index <= 6 ==> Says(EventEntries(e, index), EventsSay(rows, index))
  }

  ghost predicate MessagesIndexed(m: MessageIndexes, rows: seq<MessageRow>) {
    forall index: nat :: index <= 2 ==> Says(MessageEntries(m, index), MessagesSay(rows, index))
  }

  ghost predicate TransactionsIndexed(t: TransactionIndexes, rows: seq<Transaction>) {
    forall index: nat :: index <= 1 ==> Says(TransactionEntries(t, index), TransactionsSay(rows, index))
  }

  lemma EventIndexed(e: EventIndexes, after: EventIndexes, rows: seq<EventRow>, row: EventRow)
    requires EventsIndexed(e, rows)
    requires forall index: nat :: index <= 6 ==>
               EventEntries(after, index) == Insert(EventEntries(e, index), EventScalar(row, index), |rows|)
    ensures EventsIndexed(after, rows + [row])
  {
    hide Says, Insert, EventScalar;
    forall index: nat | index <= 6
      ensures Says(EventEntries(after, index), EventsSay(rows + [row], index))
    {
      assert EventsSay(rows + [row], index) == EventsSay(rows, index) + [EventScalar(row, index)];
      InsertSays(EventEntries(e, index), EventsSay(rows, index), EventScalar(row, index));
    }
  }

  lemma MessageIndexed(m: MessageIndexes, after: MessageIndexes, rows: seq<MessageRow>, row: MessageRow)
    requires MessagesIndexed(m, rows)
    requires forall index: nat :: index <= 2 ==>
               MessageEntries(after, index) == Insert(MessageEntries(m, index), MessageScalar(row, index), |rows|)
    ensures MessagesIndexed(after, rows + [row])
  {
    hide Says, Insert, MessageScalar;
    forall index: nat | index <= 2
      ensures Says(MessageEntries(after, index), MessagesSay(rows + [row], index))
    {
      assert MessagesSay(rows + [row], index) == MessagesSay(rows, index) + [MessageScalar(row, index)];
      InsertSays(MessageEntries(m, index), MessagesSay(rows, index), MessageScalar(row, index));
    }
  }

  lemma TransactionIndexed(t: TransactionIndexes, after: TransactionIndexes, rows: seq<Transaction>, row: Transaction)
    requires TransactionsIndexed(t, rows)
    requires forall index: nat :: index <= 1 ==>
               TransactionEntries(after, index) ==
                 Insert(TransactionEntries(t, index), TransactionScalar(row, index), |rows|)
    ensures TransactionsIndexed(after, rows + [row])
  {
    hide Says, Insert, TransactionScalar;
    forall index: nat | index <= 1
      ensures Says(TransactionEntries(after, index), TransactionsSay(rows + [row], index))
    {
      assert TransactionsSay(rows + [row], index) == TransactionsSay(rows, index) + [TransactionScalar(row, index)];
      InsertSays(TransactionEntries(t, index), TransactionsSay(rows, index), TransactionScalar(row, index));
    }
  }

  /** The joins that lead from and to one kind of row. */
  datatype RowJoins = RowJoins(transactionToRows: ManyJoin, toTransaction: map<nat, nat>, toReceipt: map<nat, nat>,
                               toTrace: map<nat, nat>)

  /** `traced`: the block came with traces. */
  ghost predicate RowsJoined(j: RowJoins, owners: seq<nat>, traced: bool) {
    && FromOwner(j.transactionToRows, owners) && ToOwner(j.toTransaction, owners) && ToOwner(j.toReceipt, owners)
    && ToOwner(j.toTrace, if traced then owners else [])
  }

  function WithRow(j: RowJoins, n: nat, t: nat, traced: bool): RowJoins {
    RowJoins(Link(j.transactionToRows, t, n), j.toTransaction[n := t], j.toReceipt[n := t], if traced then
             j.toTrace[n := t] else j.toTrace)
  }

  lemma RowJoined(j: RowJoins, owners: seq<nat>, t: nat, traced: bool)
    requires RowsJoined(j, owners, traced)
    ensures RowsJoined(WithRow(j, |owners|, t, traced), owners + [t], traced)
  {
    LinkAdds(j.transactionToRows, t, |owners|);
    var linked, all := Link(j.transactionToRows, t, |owners|), owners + [t];
    forall u: nat, n: nat
      ensures n in Joined(linked, u) <==> n < |all| && all[n] == u
    {
      assert n in Joined(j.transactionToRows, u) <==> n < |owners| && owners[n] == u;
    }
  }

  /** The joins between rows of the same transaction. */
  datatype PeerJoins = PeerJoins(eventToSiblings: ManyJoin, eventToMessages: ManyJoin, messageToEvents: ManyJoin,
                                 messageToSiblings: ManyJoin)

  ghost predicate PeersJoined(p: PeerJoins, events: seq<nat>, messages: seq<nat>) {
    && ToSiblings(p.eventToSiblings, events) && ToPeers(p.eventToMessages, events, messages)
    && ToPeers(p.messageToEvents, messages, events) && ToSiblings(p.messageToSiblings, messages)
  }

  // ------------------------------------------------------------------ linking the rows of one transaction

  /** The inner loop over siblings: both directions at once, and never a row with itself. */
  method LinkToSiblings(j: ManyJoin, id: nat, ids: seq<nat>) returns (r: ManyJoin)
    ensures forall a: nat, b: nat {:trigger b in Joined(r, a)} :: b in Joined(r, a) <==>
              b in Joined(j, a) || (a != b && ((a == id && b in ids) || (b == id && a in ids)))
  {
    r := j;
    for k := 0 to |ids|
      invariant forall a: nat, b: nat {:trigger b in Joined(r, a)} :: b in Joined(r, a) <==>
                  b in Joined(j, a) || (a != b && ((a == id && b in ids[..k]) || (b == id && a in ids[..k])))
    {
      assert ids[..k + 1] == ids[..k] + [ids[k]];
      if id != ids[k] {
        LinkAdds(r, id, ids[k]);
        LinkAdds(Link(r, id, ids[k]), ids[k], id);
        r := Link(Link(r, id, ids[k]), ids[k], id);
      }
    }
    assert ids[..|ids|] == ids;
  }

  method LinkSiblings(j: ManyJoin, ids: seq<nat>) returns (r: ManyJoin)
    ensures LinksPairs(j, r, ids)
  {
    r := j;
    for k := 0 to |ids|
      invariant forall a: nat, b: nat {:trigger b in Joined(r, a)} :: b in Joined(r, a) <==>
                  b in Joined(j, a) || (a != b && ((a in ids[..k] && b in ids) || (b in ids[..k] && a in ids)))
    {
      assert ids[..k + 1] == ids[..k] + [ids[k]];
      r := LinkToSiblings(r, ids[k], ids);
    }
    assert ids[..|ids|] == ids;
  }

  /** The inner loop over messages, with both joins. */
  method LinkToMessages(j: ManyJoin, back: ManyJoin, id: nat, others: seq<nat>) returns (r: ManyJoin, b: ManyJoin)
    ensures LinksAcross(j, r, [id], others) && LinksAcross(back, b, others, [id])
  {
    r, b := j, back;
    for k := 0 to |others|
      invariant LinksAcross(j, r, [id], others[..k]) && LinksAcross(back, b, others[..k], [id])
    {
      assert others[..k + 1] == others[..k] + [others[k]];
      LinkAdds(r, id, others[k]);
      LinkAdds(b, others[k], id);
      r, b := Link(r, id, others[k]), Link(b, others[k], id);
    }
    assert others[..|others|] == others;
  }

  method LinkMessages(j: ManyJoin, back: ManyJoin, ids: seq<nat>, others: seq<nat>) returns (r: ManyJoin, b: ManyJoin)
    ensures LinksAcross(j, r, ids, others) && LinksAcross(back, b, others, ids)
  {
    r, b := j, back;
    for k := 0 to |ids|
      invariant LinksAcross(j, r, ids[..k], others) && LinksAcross(back, b, others, ids[..k])
    {
      assert ids[..k + 1] == ids[..k] + [ids[k]];
      r, b := LinkToMessages(r, b, ids[k], others);
    }
    assert ids[..|ids|] == ids;
  }

  /** What the loops over a transaction's events and messages do to the joins between them. */
  method LinkPeers(p: PeerJoins, eventIds: seq<nat>, messageIds: seq<nat>) returns (r: PeerJoins)
    ensures LinksPairs(p.eventToSiblings, r.eventToSiblings, eventIds)
            && LinksPairs(p.messageToSiblings, r.messageToSiblings, messageIds)
    ensures LinksAcross(p.eventToMessages, r.eventToMessages, eventIds, messageIds)
    ensures LinksAcross(p.messageToEvents, r.messageToEvents, messageIds, eventIds)
  {
    var siblings := LinkSiblings(p.eventToSiblings, eventIds);
    var toMessages, toEvents := LinkMessages(p.eventToMessages, p.messageToEvents, eventIds, messageIds);
    var messageSiblings := LinkSiblings(p.messageToSiblings, messageIds);
    r := PeerJoins(siblings, toMessages, toEvents, messageSiblings);
  }

  // ------------------------------------------------------------------ the block

  function Identity(count: nat): seq<nat> {
    seq(count, n requires 0 <= n < count => n)
  }

  lemma EventsOwned(rows: seq<EventRow>, events: seq<Event>, t: nat, status: int)
    requires AllBelow(EventOwners(rows), t)
    ensures Extended(EventOwners(rows), EventOwners(rows + EventRows(events, t, status)), t)
  {
    var owners, all := EventOwners(rows), EventOwners(rows + EventRows(events, t, status));
    assert all[..|owners|] == owners;
  }

  lemma MessagesOwned(rows: seq<MessageRow>, messages: seq<MessageToL1>, t: nat, status: int)
    requires AllBelow(MessageOwners(rows), t)
    ensures Extended(MessageOwners(rows), MessageOwners(rows + MessageRows(messages, t, status)), t)
  {
    var owners, all := MessageOwners(rows), MessageOwners(rows + MessageRows(messages, t, status));
    assert all[..|owners|] == owners;
  }

  lemma ExtendedIsBelow(owners: seq<nat>, all: seq<nat>, t: nat)
    requires Extended(owners, all, t)
    ensures AllBelow(all, t + 1)
  {
    forall n | 0 <= n < |all|
      ensures all[n] <= t
    {
      if n < |owners| { assert all[..|owners|][n] == owners[n]; }
    }
  }

  lemma {:induction false} OwnersBelow(transactions: seq<Transaction>)
    ensures AllBelow(EventOwners(AllEvents(transactions)), |transactions|)
            && AllBelow(MessageOwners(AllMessages(transactions)), |transactions|)
    decreases |transactions|
  {
    hide EventOwners, MessageOwners, Extended, EventRows, MessageRows;
    if transactions == [] {
      NoOwners();
    } else {
      var t := |transactions| - 1;
      var init, tx := transactions[..t], transactions[t];
      OwnersBelow(init);
      EventsOwned(AllEvents(init), tx.events, t, Status(tx));
      MessagesOwned(AllMessages(init), tx.messages, t, Status(tx));
      ExtendedIsBelow(EventOwners(AllEvents(init)), EventOwners(AllEvents(transactions)), t);
      ExtendedIsBelow(MessageOwners(AllMessages(init)), MessageOwners(AllMessages(transactions)), t);
    }
  }

  lemma NoOwners()
    ensures EventOwners([]) == [] && MessageOwners([]) == []
  {
  }

  lemma AllRowsStep(transactions: seq<Transaction>, tx: Transaction)
    ensures AllEvents(transactions + [tx]) == AllEvents(transactions) + EventRows(tx.events, |transactions|, Status(tx))
    ensures AllMessages(transactions + [tx]) ==
            AllMessages(transactions) + MessageRows(tx.messages, |transactions|, Status(tx))
  {
    assert (transactions + [tx])[..|transactions|] == transactions;
  }

  lemma ReceiptStep(j: map<nat, nat>, count: nat)
    requires ToOwner(j, Identity(count))
    ensures ToOwner(j[count := count], Identity(count + 1))
  {
  }

  lemma PeersExtended(p: PeerJoins, r: PeerJoins, events: seq<nat>, allEvents: seq<nat>, messages: seq<nat>,
                      allMessages: seq<nat>, t: nat, eventIds: seq<nat>, messageIds: seq<nat>)
    requires PeersJoined(p, events, messages) && Extended(events, allEvents, t) && Extended(messages, allMessages, t)
    requires IsRange(eventIds, |events|, |allEvents|) && IsRange(messageIds, |messages|, |allMessages|)
    requires LinksPairs(p.eventToSiblings, r.eventToSiblings, eventIds)
             && LinksPairs(p.messageToSiblings, r.messageToSiblings, messageIds)
    requires LinksAcross(p.eventToMessages, r.eventToMessages, eventIds, messageIds)
    requires LinksAcross(p.messageToEvents, r.messageToEvents, messageIds, eventIds)
    ensures PeersJoined(r, allEvents, allMessages)
  {
    hide ToSiblings, ToPeers, Extended, LinksPairs, LinksAcross, IsRange;
    SiblingsExtend(p.eventToSiblings, r.eventToSiblings, events, allEvents, t, eventIds);
    SiblingsExtend(p.messageToSiblings, r.messageToSiblings, messages, allMessages, t, messageIds);
    PeersExtend(p.eventToMessages, r.eventToMessages, events, allEvents, messages, allMessages, t, eventIds,
                messageIds);
    PeersExtend(p.messageToEvents, r.messageToEvents, messages, allMessages, events, allEvents, t, messageIds,
                eventIds);
  }

  /**
   * The rows, indexes and joins of a block. Between transactions every index says what the rows say, and every join
   * leads exactly to the rows of the same transaction.
   */
  class BlockCollector {
    const traceCount: nat
    var transactions: seq<Transaction>
    var events: seq<EventRow>
    var messages: seq<MessageRow>
    var eventIndexes: EventIndexes
    var messageIndexes: MessageIndexes
    var transactionIndexes: TransactionIndexes
    var eventJoins: RowJoins
    var messageJoins: RowJoins
    var peers: PeerJoins
    var transactionToReceipt: map<nat, nat>
    var transactionToTrace: map<nat, nat>

    ghost predicate EventsOk()
      reads this
    {
      EventsIndexed(eventIndexes, events) && RowsJoined(eventJoins, EventOwners(events), traceCount > 0)
    }

    ghost predicate MessagesOk()
      reads this
    {
      MessagesIndexed(messageIndexes, messages) && RowsJoined(messageJoins, MessageOwners(messages), traceCount > 0)
    }

    ghost predicate Valid()
      reads this
    {
      && events == AllEvents(transactions) && messages == AllMessages(transactions) && EventsOk() && MessagesOk()
      && TransactionsIndexed(transactionIndexes, transactions)
      && PeersJoined(peers, EventOwners(events), MessageOwners(messages))
      && ToOwner(transactionToReceipt, Identity(|transactions|)) && ToOwner(transactionToTrace, Identity(traceCount))
    }

    constructor (traces: nat)
      ensures Valid() && transactions == [] && traceCount == traces
    {
      traceCount := traces;
      transactions, events, messages := [], [], [];
      eventIndexes := EventIndexes(map[], map[], map[], map[], map[], map[], map[]);
      messageIndexes, transactionIndexes := MessageIndexes(map[], map[], map[]), TransactionIndexes(map[], map[]);
      eventJoins, messageJoins := RowJoins(map[], map[], map[], map[]), RowJoins(map[], map[], map[], map[]);
      peers := PeerJoins(map[], map[], map[], map[]);
      transactionToReceipt, transactionToTrace := map[], map[];
      new;
      NothingSaid();
      for n := 0 to traces
        invariant ToOwner(transactionToTrace, Identity(n)) && traceCount == traces
        invariant transactions == [] && events == [] && messages == [] && transactionToReceipt == map[]
        invariant eventIndexes == EventIndexes(map[], map[], map[], map[], map[], map[], map[])
        invariant messageIndexes == MessageIndexes(map[], map[], map[])
                  && transactionIndexes == TransactionIndexes(map[], map[])
        invariant eventJoins == messageJoins == RowJoins(map[], map[], map[], map[])
                  && peers == PeerJoins(map[], map[], map[], map[])
      {
        transactionToTrace := transactionToTrace[n := n];
      }
      EmptyIndexed();
    }

    method AddEvent(event: Event, t: nat, status: int)
      requires EventsOk()
      modifies this`events, this`eventIndexes, this`eventJoins
      ensures EventsOk() && events == old(events) + [EventRow(event, t, status)]
    {
      hide EventsIndexed, RowsJoined, EventScalar, Insert;
      var row, n := EventRow(event, t, status), |events|;
      RowJoined(eventJoins, EventOwners(events), t, traceCount > 0);
      assert EventOwners(events + [row]) == EventOwners(events) + [t];
      eventJoins := WithRow(eventJoins, n, t, traceCount > 0);
      var after := IndexEvent(eventIndexes, row, n);
      EventIndexed(eventIndexes, after, events, row);
      eventIndexes := after;
      events := events + [row];
    }

    method AddMessage(message: MessageToL1, t: nat, status: int)
      requires MessagesOk()
      modifies this`messages, this`messageIndexes, this`messageJoins
      ensures MessagesOk() && messages == old(messages) + [MessageRow(message, t, status)]
    {
      hide MessagesIndexed, RowsJoined, MessageScalar, Insert;
      var row, n := MessageRow(message, t, status), |messages|;
      RowJoined(messageJoins, MessageOwners(messages), t, traceCount > 0);
      assert MessageOwners(messages + [row]) == MessageOwners(messages) + [t];
      messageJoins := WithRow(messageJoins, n, t, traceCount > 0);
      var after := IndexMessage(messageIndexes, row, n);
      MessageIndexed(messageIndexes, after, messages, row);
      messageIndexes := after;
      messages := messages + [row];
    }

    method AddTransaction(tx: Transaction)
      requires Valid()
      modifies this
      ensures Valid() && transactions == old(transactions) + [tx]
    {
      hide PeersJoined, TransactionsIndexed, EventsIndexed, MessagesIndexed, RowsJoined, AllBelow, Extended,
           LinksPairs, LinksAcross, EventOwners, MessageOwners, Insert, AllEvents, AllMessages, ToOwner, EventRows,
           MessageRows;
      var t, status := |transactions|, Status(tx);
      OwnersBelow(transactions);
      var eventIds := AddEvents(tx.events, t, status);
      var messageIds := AddMessages(tx.messages, t, status);
      EventsOwned(old(events), tx.events, t, status);
      MessagesOwned(old(messages), tx.messages, t, status);
      OwnerLengths(old(events), events, old(messages), messages);
      var linked := LinkPeers(peers, eventIds, messageIds);
      PeersExtended(peers, linked, EventOwners(old(events)), EventOwners(events), MessageOwners(old(messages)),
                    MessageOwners(messages), t,
                    eventIds, messageIds);
      peers := linked;
      var after := IndexTransaction(transactionIndexes, tx, t);
      TransactionIndexed(transactionIndexes, after, transactions, tx);
      transactionIndexes := after;
      ReceiptStep(transactionToReceipt, t);
      AllRowsStep(transactions, tx);
      transactionToReceipt := transactionToReceipt[t := t];
      transactions := transactions + [tx];
    }

    /** Returns the rows the events were given. */
    method AddEvents(added: seq<Event>, t: nat, status: int) returns (ids: seq<nat>)
      requires EventsOk()
      modifies this`events, this`eventIndexes, this`eventJoins
      ensures EventsOk() && events == old(events) + EventRows(added, t, status) && IsRange(ids, |old(events)|, |events|)
    {
      hide EventsIndexed, RowsJoined;
      ids := [];
      for k := 0 to |added|
        invariant EventsOk() && events == old(events) + EventRows(added[..k], t, status)
                  && IsRange(ids, |old(events)|, |events|)
      {
        ids := ids + [|events|];
        AddEvent(added[k], t, status);
        assert EventRows(added[..k + 1], t, status) ==
               EventRows(added[..k], t, status) + [EventRow(added[k], t, status)];
      }
      assert added[..|added|] == added;
    }

    method AddMessages(added: seq<MessageToL1>, t: nat, status: int) returns (ids: seq<nat>)
      requires MessagesOk()
      modifies this`messages, this`messageIndexes, this`messageJoins
      ensures MessagesOk() && messages == old(messages) + MessageRows(added, t, status)
              && IsRange(ids, |old(messages)|, |messages|)
    {
      hide MessagesIndexed, RowsJoined;
      ids := [];
      for k := 0 to |added|
        invariant MessagesOk() && messages == old(messages) + MessageRows(added[..k], t, status)
                  && IsRange(ids, |old(messages)|, |messages|)
      {
        ids := ids + [|messages|];
        AddMessage(added[k], t, status);
        assert MessageRows(added[..k + 1], t, status) ==
               MessageRows(added[..k], t, status) + [MessageRow(added[k], t, status)];
      }
      assert added[..|added|] == added;
    }

    /** The whole block. */
    method Collect(all: seq<Transaction>)
      requires Valid() && transactions == []
      modifies this
      ensures Valid() && transactions == all
    {
      hide PeersJoined, TransactionsIndexed, EventsIndexed, MessagesIndexed, RowsJoined, EventOwners, MessageOwners,
           AllEvents, AllMessages, ToOwner;
      for k := 0 to |all|
        invariant Valid() && transactions == all[..k]
      {
        AddTransaction(all[k]);
        assert all[..k + 1] == all[..k] + [all[k]];
      }
      assert all[..|all|] == all;
    }
  }

  lemma OwnerLengths(events: seq<EventRow>, allEvents: seq<EventRow>, messages: seq<MessageRow>,
                     allMessages: seq<MessageRow>)
    ensures |EventOwners(events)| == |events| && |EventOwners(allEvents)| == |allEvents|
    ensures |MessageOwners(messages)| == |messages| && |MessageOwners(allMessages)| == |allMessages|
  {
  }

  lemma EmptyIndexed()
    ensures EventsIndexed(EventIndexes(map[], map[], map[], map[], map[], map[], map[]), [])
    ensures MessagesIndexed(MessageIndexes(map[], map[], map[]), [])
            && TransactionsIndexed(TransactionIndexes(map[], map[]), [])
    ensures RowsJoined(RowJoins(map[], map[], map[], map[]), EventOwners([]), true)
            && RowsJoined(RowJoins(map[], map[], map[], map[]), EventOwners([]), false)
    ensures RowsJoined(RowJoins(map[], map[], map[], map[]), MessageOwners([]), true)
            && RowsJoined(RowJoins(map[], map[], map[], map[]), MessageOwners([]), false)
    ensures PeersJoined(PeerJoins(map[], map[], map[], map[]), EventOwners([]), MessageOwners([]))
  {
    NothingSaid();
    assert EventOwners([]) == [] && MessageOwners([]) == [];
    assert forall index: nat ::
             EventsSay([], index) == [] && MessagesSay([], index) == [] && TransactionsSay([], index) == [];
  }

  function KeyScalar(keys: seq<nat>, i: nat): Option<Scalar> {
    if i < |keys| then Some(B256(keys[i])) else None
  }

  lemma NothingInserted(entries: Entries, n: nat)
    ensures Insert(entries, None, n) == entries
  {
  }

  /** The first four keys, taken one by one. */
  method IndexKeys(e: EventIndexes, keys: seq<nat>, n: nat) returns (r: EventIndexes)
    ensures r == e.(key0 := Insert(e.key0, KeyScalar(keys, 0), n), key1 := Insert(e.key1, KeyScalar(keys, 1), n),
                    key2 := Insert(e.key2, KeyScalar(keys, 2), n), key3 := Insert(e.key3, KeyScalar(keys, 3), n))
  {
    hide Insert;
    NothingInserted(e.key0, n);
    NothingInserted(e.key1, n);
    NothingInserted(e.key2, n);
    NothingInserted(e.key3, n);
    r := e;
    if |keys| == 0 {
      return;
    }
    r := r.(key0 := Insert(r.key0, Some(B256(keys[0])), n));
    if |keys| == 1 {
      return;
    }
    r := r.(key1 := Insert(r.key1, Some(B256(keys[1])), n));
    if |keys| == 2 {
      return;
    }
    r := r.(key2 := Insert(r.key2, Some(B256(keys[2])), n));
    if |keys| == 3 {
      return;
    }
    r := r.(key3 := Insert(r.key3, Some(B256(keys[3])), n));
  }

  /** The seven inserts of one event. */
  method IndexEvent(e: EventIndexes, row: EventRow, n: nat) returns (r: EventIndexes)
    ensures forall index: nat :: index <= 6 ==>
              EventEntries(r, index) == Insert(EventEntries(e, index), EventScalar(row, index), n)
  {
    hide Insert;
    NothingInserted(e.address, n);
    r := e;
    if row.event.address.Some? {
      r := r.(address := Insert(r.address, Some(B256(row.event.address.value)), n));
    }
    r := IndexKeys(r, row.event.keys, n);
    r := r.(keyLength := Insert(r.keyLength, Some(Uint32(AsU32(|row.event.keys|))), n));
    r := r.(status := Insert(r.status, Some(Int32(row.status)), n));
  }

  method IndexMessage(m: MessageIndexes, row: MessageRow, n: nat) returns (r: MessageIndexes)
    ensures forall index: nat :: index <= 2 ==>
              MessageEntries(r, index) == Insert(MessageEntries(m, index), MessageScalar(row, index), n)
  {
    r := m;
    if row.message.from.Some? {
      r := r.(from := Insert(r.from, Some(B256(row.message.from.value)), n));
    }
    if row.message.to.Some? {
      r := r.(to := Insert(r.to, Some(B256(row.message.to.value)), n));
    }
    r := r.(status := Insert(r.status, Some(Int32(row.status)), n));
  }

  method IndexTransaction(i: TransactionIndexes, tx: Transaction, n: nat) returns (r: TransactionIndexes)
    ensures forall index: nat :: index <= 1 ==>
              TransactionEntries(r, index) == Insert(TransactionEntries(i, index), TransactionScalar(tx, index), n)
  {
    r := i;
    if tx.kind.Some? {
      r := r.(kind := Insert(r.kind, Some(ToScalarValue(tx.kind.value)), n));
    }
    r := r.(status := Insert(r.status, Some(Int32(Status(tx))), n));
  }
}
