/** Compiled Starknet filters (starknet/src/filter) on the indexes of a block. */
module StarknetFilter {
  import opened Core
  import opened Sorting
  import opened Indexes
  import opened Fragments
  import opened Query
  import opened GroupBuilder
  import opened StarknetRows

  const TRANSACTION_FRAGMENT_ID := 2
  const RECEIPT_FRAGMENT_ID := 3
  const EVENT_FRAGMENT_ID := 4
  const MESSAGE_FRAGMENT_ID := 5
  const STORAGE_DIFF_FRAGMENT_ID := 6
  const CONTRACT_CHANGE_FRAGMENT_ID := 7
  const NONCE_UPDATE_FRAGMENT_ID := 8
  const TRACE_FRAGMENT_ID := 9

  // ------------------------------------------------------------------ what clients ask for

  /** A key without a value is a wildcard. */
  datatype EventFilter = EventFilter(id: nat, address: Option<nat>, keys: seq<Option<nat>>, strict: Option<bool>,
                                     status: Option<int>, includeTransaction: Option<bool>,
                                     includeReceipt: Option<bool>, includeMessages: Option<bool>,
                                     includeSiblings: Option<bool>, includeTrace: Option<bool>)

  datatype MessageToL1Filter = MessageToL1Filter(id: nat, from: Option<nat>, to: Option<nat>, status: Option<int>,
                                                 includeTransaction: Option<bool>, includeReceipt: Option<bool>,
                                                 includeEvents: Option<bool>, includeSiblings: Option<bool>,
                                                 includeTrace: Option<bool>)

  datatype TransactionFilter = TransactionFilter(id: nat, kind: Option<TransactionType>, status: Option<int>,
                                                 includeReceipt: Option<bool>, includeEvents: Option<bool>,
                                                 includeMessages: Option<bool>, includeTrace: Option<bool>)

  datatype StorageDiffFilter = StorageDiffFilter(id: nat, address: Option<nat>)

  datatype ContractChangeFilter = ContractChangeFilter(id: nat, change: Option<ContractChangeType>)

  datatype NonceUpdateFilter = NonceUpdateFilter(id: nat, address: Option<nat>)

  datatype StatusFilter = Unspecified | OnlySucceeded | OnlyReverted | AllStatuses

  /** A number that is no member of the protobuf enum is refused; no number means succeeded. */
  function StatusOf(status: Option<int>): Result<StatusFilter> {
    match status
    case None => Ok(OnlySucceeded)
    case Some(n) =>
      if n == 0 then Ok(Unspecified)
      else if n == 1 then Ok(OnlySucceeded)
      else if n == 2 then Ok(OnlyReverted)
      else if n == 3 then Ok(AllStatuses)
      else Rejected
  }

  predicate StatusMatches(status: Option<int>, actual: int) {
    match StatusOf(status)
    case Rejected => false
    case Ok(wanted) => (wanted.OnlySucceeded? ==> actual == SUCCEEDED) && (wanted.OnlyReverted? ==> actual == REVERTED)
  }

  predicate KeyMatches(keys: seq<Option<nat>>, row: EventRow, i: nat) {
    i < |keys| && keys[i].Some? ==> i < |row.event.keys| && row.event.keys[i] == keys[i].value
  }

  predicate FirstKeysMatch(keys: seq<Option<nat>>, row: EventRow) {
    KeyMatches(keys, row, 0) && KeyMatches(keys, row, 1) && KeyMatches(keys, row, 2) && KeyMatches(keys, row, 3)
  }

  predicate EventMatches(f: EventFilter, row: EventRow) {
    && (f.address.Some? ==> row.event.address == f.address)
    && (f.strict == Some(true) ==> AsU32(|row.event.keys|) == AsU32(|f.keys|))
    && FirstKeysMatch(f.keys, row) && StatusMatches(f.status, row.status)
  }

  predicate MessageMatches(f: MessageToL1Filter, row: MessageRow) {
    && (f.from.Some? ==> row.message.from == f.from) && (f.to.Some? ==> row.message.to == f.to)
    && StatusMatches(f.status, row.status)
  }

  predicate TransactionMatches(f: TransactionFilter, row: Transaction) {
    (f.kind.Some? ==> row.kind == f.kind) && StatusMatches(f.status, Status(row))
  }

  /** The rows of storage diffs and of nonces are those of a contract, or all. */
  predicate AddressMatches(wanted: Option<nat>, actual: Option<nat>) {
    wanted.Some? ==> actual == wanted
  }

  predicate ChangeMatches(f: ContractChangeFilter, row: ContractChangeType) {
    f.change.Some? ==> row == f.change.value
  }

  /** The filter's keys are matched in full, as protocol/proto/starknet/v2/filter.proto describes them. */
  ghost predicate PrefixMatches(keys: seq<Option<nat>>, row: EventRow) {
    forall i :: 0 <= i < |keys| ==> KeyMatches(keys, row, i)
  }

  /**
   * Only four keys are looked at, so the description holds of exactly the filters with nothing but wildcards after
   * them.
   */
  lemma PrefixMatchNeedsFourKeys(keys: seq<Option<nat>>)
    ensures (forall row :: FirstKeysMatch(keys, row) <==> PrefixMatches(keys, row)) <==>
            forall i :: 4 <= i < |keys| ==> keys[i].None?
  {
    if i :| 4 <= i < |keys| && keys[i].Some? {
      var row := EventRow(Event(None, seq(4, k => if 0 <= k < |keys| && keys[k].Some? then keys[k].value else 0)), 0,
                          SUCCEEDED);
      assert FirstKeysMatch(keys, row) && !KeyMatches(keys, row, i);
    } else {
      forall row
        ensures FirstKeysMatch(keys, row) <==> PrefixMatches(keys, row)
      {
        if FirstKeysMatch(keys, row) {
          forall i | 0 <= i < |keys|
            ensures KeyMatches(keys, row, i)
          {
            assert i == 0 || i == 1 || i == 2 || i == 3 || i >= 4;
          }
        } else {
          assert forall k: nat :: k >= |keys| ==> KeyMatches(keys, row, k);
          var k: nat :| k < 4 && !KeyMatches(keys, row, k);
        }
      }
    }
  }

  // ------------------------------------------------------------------ compiling

  function StatusConditions(status: StatusFilter, index: nat): seq<Condition> {
    match status
    case Unspecified => []
    case AllStatuses => []
    case OnlySucceeded => [Condition(index, Int32(SUCCEEDED))]
    case OnlyReverted => [Condition(index, Int32(REVERTED))]
  }

  function AddressConditions(address: Option<nat>, index: nat): seq<Condition> {
    if address.Some? then [Condition(index, B256(address.value))] else []
  }

  function KeyConditions(keys: seq<Option<nat>>, i: nat): seq<Condition> {
    if i < |keys| then AddressConditions(keys[i], 1 + i) else []
  }

  function LengthConditions(f: EventFilter): seq<Condition> {
    if f.strict == Some(true) then [Condition(5, Uint32(AsU32(|f.keys|)))] else []
  }

  function KindConditions(kind: Option<TransactionType>): seq<Condition> {
    if kind.Some? then [Condition(1, ToScalarValue(kind.value))] else []
  }

  function If(wanted: Option<bool>, id: nat): seq<nat> {
    if wanted == Some(true) then [id] else []
  }

  function EventJoins(f: EventFilter): seq<nat> {
    If(f.includeTransaction, TRANSACTION_FRAGMENT_ID) + If(f.includeReceipt, RECEIPT_FRAGMENT_ID)
      + If(f.includeMessages, MESSAGE_FRAGMENT_ID)
    + If(f.includeSiblings, EVENT_FRAGMENT_ID) + If(f.includeTrace, TRACE_FRAGMENT_ID)
  }

  function MessageJoins(f: MessageToL1Filter): seq<nat> {
    If(f.includeTransaction, TRANSACTION_FRAGMENT_ID) + If(f.includeReceipt, RECEIPT_FRAGMENT_ID)
      + If(f.includeEvents, EVENT_FRAGMENT_ID)
    + If(f.includeSiblings, MESSAGE_FRAGMENT_ID) + If(f.includeTrace, TRACE_FRAGMENT_ID)
  }

  function TransactionJoins(f: TransactionFilter): seq<nat> {
    If(f.includeReceipt, RECEIPT_FRAGMENT_ID) + If(f.includeEvents, EVENT_FRAGMENT_ID)
      + If(f.includeMessages, MESSAGE_FRAGMENT_ID)
    + If(f.includeTrace, TRACE_FRAGMENT_ID)
  }

  function CompileEvent(f: EventFilter): Result<Filter> {
    match StatusOf(f.status)
    case Rejected => Rejected
    case Ok(status) =>
      Ok(Filter(f.id, EVENT_FRAGMENT_ID,
                AddressConditions(f.address, 0) + LengthConditions(f) + KeyConditions(f.keys, 0)
                  + KeyConditions(f.keys, 1)
                + KeyConditions(f.keys, 2) + KeyConditions(f.keys, 3) + StatusConditions(status, 6),
                EventJoins(f)))
  }

  function CompileMessage(f: MessageToL1Filter): Result<Filter> {
    match StatusOf(f.status)
    case Rejected => Rejected
    case Ok(status) =>
      Ok(Filter(f.id, MESSAGE_FRAGMENT_ID, AddressConditions(f.from, 0) + AddressConditions(f.to, 1)
                + StatusConditions(status, 2),
                MessageJoins(f)))
  }

  function CompileTransaction(f: TransactionFilter): Result<Filter> {
    match StatusOf(f.status)
    case Rejected => Rejected
    case Ok(status) =>
      Ok(Filter(f.id, TRANSACTION_FRAGMENT_ID, StatusConditions(status, 0) + KindConditions(f.kind),
                TransactionJoins(f)))
  }

  function CompileStorageDiff(f: StorageDiffFilter): Filter {
    Filter(f.id, STORAGE_DIFF_FRAGMENT_ID, AddressConditions(f.address, 0), [])
  }

  function ChangeConditions(change: Option<ContractChangeType>): seq<Condition> {
    if change.Some? then [Condition(0, ChangeScalar(change.value))] else []
  }

  function CompileContractChange(f: ContractChangeFilter): Filter {
    Filter(f.id, CONTRACT_CHANGE_FRAGMENT_ID, ChangeConditions(f.change), [])
  }

  function CompileNonceUpdate(f: NonceUpdateFilter): Filter {
    Filter(f.id, NONCE_UPDATE_FRAGMENT_ID, AddressConditions(f.address, 0), [])
  }

  // ------------------------------------------------------------------ the conditions ask what the filter says

  /** `say(i)` is what a row has to say to index i. */
  ghost predicate AllSay(conditions: seq<Condition>, say: nat -> Option<Scalar>) {
    forall c :: c in conditions ==> say(c.indexId) == Some(c.key)
  }

  lemma AllSayJoins(a: seq<Condition>, b: seq<Condition>, say: nat -> Option<Scalar>)
    ensures AllSay(a + b, say) <==> AllSay(a, say) && AllSay(b, say)
  {
    if AllSay(a + b, say) {
      assert forall c :: c in a ==> c in a + b;
      assert forall c :: c in b ==> c in a + b;
    }
  }

  lemma AddressSays(address: Option<nat>, index: nat, say: nat -> Option<Scalar>, actual: Option<nat>)
    requires say(index) == if actual.Some? then Some(B256(actual.value)) else None
    ensures AllSay(AddressConditions(address, index), say) <==> (address.Some? ==> actual == address)
  {
    if address.Some? { assert Condition(index, B256(address.value)) in AddressConditions(address, index); }
  }

  lemma StatusSays(status: Option<int>, index: nat, say: nat -> Option<Scalar>, actual: int)
    requires say(index) == Some(Int32(actual)) && StatusOf(status).Ok?
    ensures AllSay(StatusConditions(StatusOf(status).value, index), say) <==> StatusMatches(status, actual)
  {
    var conditions := StatusConditions(StatusOf(status).value, index);
    if conditions != [] { assert conditions[0] in conditions; }
  }

  lemma KeySays(keys: seq<Option<nat>>, i: nat, row: EventRow, say: nat -> Option<Scalar>)
    requires say(1 + i) == if i < |row.event.keys| then Some(B256(row.event.keys[i])) else None
    ensures AllSay(KeyConditions(keys, i), say) <==> KeyMatches(keys, row, i)
  {
    if i < |keys| {
      AddressSays(keys[i], 1 + i, say, if i < |row.event.keys| then Some(row.event.keys[i]) else None);
    }
  }

  lemma LengthSays(f: EventFilter, row: EventRow, say: nat -> Option<Scalar>)
    requires say(5) == Some(Uint32(AsU32(|row.event.keys|)))
    ensures AllSay(LengthConditions(f), say) <==>
            (f.strict == Some(true) ==> AsU32(|row.event.keys|) == AsU32(|f.keys|))
  {
    if f.strict == Some(true) { assert LengthConditions(f)[0] in LengthConditions(f); }
  }

  lemma KeysSay(f: EventFilter, row: EventRow, say: nat -> Option<Scalar>, before: seq<Condition>)
    requires forall i: nat :: say(i) == EventScalar(row, i)
    ensures AllSay(before + KeyConditions(f.keys, 0) + KeyConditions(f.keys, 1) + KeyConditions(f.keys, 2)
                   + KeyConditions(f.keys, 3), say) <==>
            AllSay(before, say) && FirstKeysMatch(f.keys, row)
  {
    var k0, k1, k2, k3 := KeyConditions(f.keys, 0), KeyConditions(f.keys, 1), KeyConditions(f.keys, 2),
      KeyConditions(f.keys, 3);
    KeySays(f.keys, 0, row, say);
    KeySays(f.keys, 1, row, say);
    KeySays(f.keys, 2, row, say);
    KeySays(f.keys, 3, row, say);
    hide *;
    AllSayJoins(before, k0, say);
    AllSayJoins(before + k0, k1, say);
    AllSayJoins(before + k0 + k1, k2, say);
    AllSayJoins(before + k0 + k1 + k2, k3, say);
    assert FirstKeysMatch(f.keys, row) <==>
           KeyMatches(f.keys, row, 0) && KeyMatches(f.keys, row, 1) && KeyMatches(f.keys, row, 2)
           && KeyMatches(f.keys, row, 3) by {
      FirstKeys(f.keys, row);
    }
  }

  lemma FirstKeys(keys: seq<Option<nat>>, row: EventRow)
    ensures FirstKeysMatch(keys, row) <==>
            KeyMatches(keys, row, 0) && KeyMatches(keys, row, 1) && KeyMatches(keys, row, 2) && KeyMatches(keys, row, 3)
  {
    hide KeyMatches;
  }

  lemma EventConditionsMean(f: EventFilter, row: EventRow, say: nat -> Option<Scalar>)
    requires CompileEvent(f).Ok? && forall i: nat :: say(i) == EventScalar(row, i)
    ensures AllSay(CompileEvent(f).value.conditions, say) <==> EventMatches(f, row)
  {
    hide AllSay, FirstKeysMatch, KeyMatches, KeyConditions, StatusConditions, StatusMatches, LengthConditions,
         AddressConditions;
    var first := AddressConditions(f.address, 0) + LengthConditions(f);
    var keyed := first + KeyConditions(f.keys, 0) + KeyConditions(f.keys, 1) + KeyConditions(f.keys, 2)
      + KeyConditions(f.keys, 3);
    AllSayJoins(keyed, StatusConditions(StatusOf(f.status).value, 6), say);
    KeysSay(f, row, say, first);
    AllSayJoins(AddressConditions(f.address, 0), LengthConditions(f), say);
    AddressSays(f.address, 0, say, row.event.address);
    LengthSays(f, row, say);
    StatusSays(f.status, 6, say, row.status);
  }

  lemma MessageConditionsMean(f: MessageToL1Filter, row: MessageRow, say: nat -> Option<Scalar>)
    requires CompileMessage(f).Ok? && forall i: nat :: say(i) == MessageScalar(row, i)
    ensures AllSay(CompileMessage(f).value.conditions, say) <==> MessageMatches(f, row)
  {
    hide AllSay, StatusConditions, StatusMatches, AddressConditions;
    AllSayJoins(AddressConditions(f.from, 0) + AddressConditions(f.to, 1),
                StatusConditions(StatusOf(f.status).value, 2), say);
    AllSayJoins(AddressConditions(f.from, 0), AddressConditions(f.to, 1), say);
    AddressSays(f.from, 0, say, row.message.from);
    AddressSays(f.to, 1, say, row.message.to);
    StatusSays(f.status, 2, say, row.status);
  }

  lemma TransactionConditionsMean(f: TransactionFilter, row: Transaction, say: nat -> Option<Scalar>)
    requires CompileTransaction(f).Ok? && forall i: nat :: say(i) == TransactionScalar(row, i)
    ensures AllSay(CompileTransaction(f).value.conditions, say) <==> TransactionMatches(f, row)
  {
    AllSayJoins(StatusConditions(StatusOf(f.status).value, 0), KindConditions(f.kind), say);
    StatusSays(f.status, 0, say, Status(row));
    if f.kind.Some? { assert KindConditions(f.kind)[0] in KindConditions(f.kind); }
  }

  lemma ChangeConditionsMean(f: ContractChangeFilter, row: ContractChangeType, say: nat -> Option<Scalar>)
    requires say(0) == Some(ChangeScalar(row))
    ensures AllSay(CompileContractChange(f).conditions, say) <==> ChangeMatches(f, row)
  {
    if f.change.Some? { assert ChangeConditions(f.change)[0] in ChangeConditions(f.change); }
  }

  // ------------------------------------------------------------------ compiling, condition by condition

  method PushStatus(conditions: seq<Condition>, status: Option<int>, index: nat) returns (r: Result<seq<Condition>>)
    ensures r == if StatusOf(status).Rejected? then Rejected
            else Ok(conditions + StatusConditions(StatusOf(status).value, index))
  {
    match StatusOf(status) {
      case Rejected => r := Rejected;
      case Ok(wanted) =>
        var all := conditions;
        match wanted {
          case Unspecified =>
          case AllStatuses =>
          case OnlySucceeded => all := all + [Condition(index, Int32(SUCCEEDED))];
          case OnlyReverted => all := all + [Condition(index, Int32(REVERTED))];
        }
        assert all == conditions + StatusConditions(wanted, index);
        r := Ok(all);
    }
  }

  method PushAddress(conditions: seq<Condition>, address: Option<nat>, index: nat) returns (r: seq<Condition>)
    ensures r == conditions + AddressConditions(address, index)
  {
    r := conditions;
    if address.Some? {
      r := r + [Condition(index, B256(address.value))];
    }
  }

  method PushKey(conditions: seq<Condition>, keys: seq<Option<nat>>, i: nat) returns (r: seq<Condition>)
    ensures r == conditions + KeyConditions(keys, i)
  {
    r := conditions;
    if i < |keys| {
      r := PushAddress(r, keys[i], 1 + i);
    }
  }

  method PushJoin(joins: seq<nat>, wanted: Option<bool>, id: nat) returns (r: seq<nat>)
    ensures r == joins + If(wanted, id)
  {
    r := joins;
    if wanted == Some(true) {
      r := r + [id];
    }
  }

  method CompileEventFilter(f: EventFilter) returns (r: Result<Filter>)
    ensures r == CompileEvent(f)
  {
    hide KeyConditions, StatusConditions, AddressConditions, If;
    var conditions := PushAddress([], f.address, 0);
    if f.strict == Some(true) {
      conditions := conditions + [Condition(5, Uint32(AsU32(|f.keys|)))];
    }
    assert conditions == AddressConditions(f.address, 0) + LengthConditions(f);
    conditions := PushKey(conditions, f.keys, 0);
    conditions := PushKey(conditions, f.keys, 1);
    conditions := PushKey(conditions, f.keys, 2);
    conditions := PushKey(conditions, f.keys, 3);
    var all := PushStatus(conditions, f.status, 6);
    if all.Rejected? {
      return Rejected;
    }
    var joins := PushJoin([], f.includeTransaction, TRANSACTION_FRAGMENT_ID);
    assert joins == If(f.includeTransaction, TRANSACTION_FRAGMENT_ID);
    joins := PushJoin(joins, f.includeReceipt, RECEIPT_FRAGMENT_ID);
    joins := PushJoin(joins, f.includeMessages, MESSAGE_FRAGMENT_ID);
    joins := PushJoin(joins, f.includeSiblings, EVENT_FRAGMENT_ID);
    joins := PushJoin(joins, f.includeTrace, TRACE_FRAGMENT_ID);
    r := Ok(Filter(f.id, EVENT_FRAGMENT_ID, all.value, joins));
  }

  method CompileMessageFilter(f: MessageToL1Filter) returns (r: Result<Filter>)
    ensures r == CompileMessage(f)
  {
    hide StatusConditions, AddressConditions, If;
    var conditions := PushAddress([], f.from, 0);
    assert conditions == AddressConditions(f.from, 0);
    conditions := PushAddress(conditions, f.to, 1);
    var all := PushStatus(conditions, f.status, 2);
    if all.Rejected? {
      return Rejected;
    }
    var joins := PushJoin([], f.includeTransaction, TRANSACTION_FRAGMENT_ID);
    assert joins == If(f.includeTransaction, TRANSACTION_FRAGMENT_ID);
    joins := PushJoin(joins, f.includeReceipt, RECEIPT_FRAGMENT_ID);
    joins := PushJoin(joins, f.includeEvents, EVENT_FRAGMENT_ID);
    joins := PushJoin(joins, f.includeSiblings, MESSAGE_FRAGMENT_ID);
    joins := PushJoin(joins, f.includeTrace, TRACE_FRAGMENT_ID);
    r := Ok(Filter(f.id, MESSAGE_FRAGMENT_ID, all.value, joins));
  }

  method CompileTransactionFilter(f: TransactionFilter) returns (r: Result<Filter>)
    ensures r == CompileTransaction(f)
  {
    hide StatusConditions, If;
    var all := PushStatus([], f.status, 0);
    if all.Rejected? {
      return Rejected;
    }
    var conditions := all.value;
    if f.kind.Some? {
      conditions := conditions + [Condition(1, ToScalarValue(f.kind.value))];
    }
    assert conditions == StatusConditions(StatusOf(f.status).value, 0) + KindConditions(f.kind);
    var joins := PushJoin([], f.includeReceipt, RECEIPT_FRAGMENT_ID);
    assert joins == If(f.includeReceipt, RECEIPT_FRAGMENT_ID);
    joins := PushJoin(joins, f.includeEvents, EVENT_FRAGMENT_ID);
    joins := PushJoin(joins, f.includeMessages, MESSAGE_FRAGMENT_ID);
    joins := PushJoin(joins, f.includeTrace, TRACE_FRAGMENT_ID);
    r := Ok(Filter(f.id, TRANSACTION_FRAGMENT_ID, conditions, joins));
  }

  // ------------------------------------------------------------------ a client's filters together

  datatype ClientFilter =
    | OfTransactions(transactions: TransactionFilter)
    | OfEvents(events: EventFilter)
    | OfMessages(messages: MessageToL1Filter)
    | OfStorageDiffs(storageDiffs: StorageDiffFilter)
    | OfContractChanges(contractChanges: ContractChangeFilter)
    | OfNonceUpdates(nonceUpdates: NonceUpdateFilter)

  function Compile(f: ClientFilter): Result<Filter> {
    match f
    case OfTransactions(t) => CompileTransaction(t)
    case OfEvents(e) => CompileEvent(e)
    case OfMessages(m) => CompileMessage(m)
    case OfStorageDiffs(d) => Ok(CompileStorageDiff(d))
    case OfContractChanges(d) => Ok(CompileContractChange(d))
    case OfNonceUpdates(d) => Ok(CompileNonceUpdate(d))
  }

  ghost predicate Compiles(all: seq<ClientFilter>, f: Filter) {
    exists k :: 0 <= k < |all| && Compile(all[k]) == Ok(f)
  }

  /** The filters of a block filter are the compiled ones, each under its own fragment. */
  ghost predicate CompiledTo(filters: map<nat, seq<Filter>>, all: seq<ClientFilter>) {
    && (forall k :: 0 <= k < |all| ==> Compile(all[k]).Ok?)
    && forall id: nat, f {:trigger f in FiltersOf(filters, id)} :: f in FiltersOf(filters, id) <==>
    Compiles(all, f) && f.fragmentId == id
  }

  lemma CompilesOneMore(all: seq<ClientFilter>, next: ClientFilter, f: Filter)
    ensures Compiles(all + [next], f) <==> Compiles(all, f) || Compile(next) == Ok(f)
  {
    hide Compile;
    var more := all + [next];
    if k :| 0 <= k < |all| && Compile(all[k]) == Ok(f) { assert more[k] == all[k]; }
    if Compile(next) == Ok(f) { assert more[|all|] == next; }
    if k :| 0 <= k < |more| && Compile(more[k]) == Ok(f) { assert k < |all| ==> more[k] == all[k]; }
  }

  lemma CompiledOneMore(filters: map<nat, seq<Filter>>, all: seq<ClientFilter>, next: ClientFilter)
    requires CompiledTo(filters, all) && Compile(next).Ok?
    ensures var f := Compile(next).value;
            CompiledTo(filters[f.fragmentId := FiltersOf(filters, f.fragmentId) + [f]], all + [next])
  {
    hide Compile, Compiles;
    var added := Compile(next).value;
    var after := filters[added.fragmentId := FiltersOf(filters, added.fragmentId) + [added]];
    forall id: nat, f
      ensures f in FiltersOf(after, id) <==> Compiles(all + [next], f) && f.fragmentId == id
    {
      CompilesOneMore(all, next, f);
      assert f in FiltersOf(filters, id) <==> Compiles(all, f) && f.fragmentId == id;
    }
  }

  method CompileFilter(f: ClientFilter) returns (r: Result<Filter>)
    ensures r == Compile(f)
  {
    match f {
      case OfTransactions(t) => r := CompileTransactionFilter(t);
      case OfEvents(e) => r := CompileEventFilter(e);
      case OfMessages(m) => r := CompileMessageFilter(m);
      case OfStorageDiffs(d) =>
        var conditions := PushAddress([], d.address, 0);
        assert conditions == AddressConditions(d.address, 0);
        r := Ok(Filter(d.id, STORAGE_DIFF_FRAGMENT_ID, conditions, []));
      case OfContractChanges(d) =>
        var conditions: seq<Condition> := [];
        if d.change.Some? {
          conditions := conditions + [Condition(0, ChangeScalar(d.change.value))];
        }
        assert conditions == ChangeConditions(d.change);
        r := Ok(Filter(d.id, CONTRACT_CHANGE_FRAGMENT_ID, conditions, []));
      case OfNonceUpdates(d) =>
        var conditions := PushAddress([], d.address, 0);
        assert conditions == AddressConditions(d.address, 0);
        r := Ok(Filter(d.id, NONCE_UPDATE_FRAGMENT_ID, conditions, []));
    }
  }

  /** A number that is no member of the protobuf enum, or the unspecified one, is the default. */
  function HeaderOf(header: int): HeaderFilter {
    if header == 1 then Always else if header == 2 then OnData else OnDataOrOnNewBlock
  }

  /** One filter message of a client. */
  datatype FilterMessage = FilterMessage(header: int, transactions: seq<TransactionFilter>, events: seq<EventFilter>,
                                         messages: seq<MessageToL1Filter>, storageDiffs: seq<StorageDiffFilter>,
                                         contractChanges: seq<ContractChangeFilter>,
                                         nonceUpdates: seq<NonceUpdateFilter>)

  /** Its lists, in order. */
  function Listed(m: FilterMessage): seq<ClientFilter> {
    seq(|m.transactions|, i requires 0 <= i < |m.transactions| => OfTransactions(m.transactions[i]))
    + seq(|m.events|, i requires 0 <= i < |m.events| => OfEvents(m.events[i]))
    + seq(|m.messages|, i requires 0 <= i < |m.messages| => OfMessages(m.messages[i]))
    + seq(|m.storageDiffs|, i requires 0 <= i < |m.storageDiffs| => OfStorageDiffs(m.storageDiffs[i]))
    + seq(|m.contractChanges|, i requires 0 <= i < |m.contractChanges| => OfContractChanges(m.contractChanges[i]))
    + seq(|m.nonceUpdates|, i requires 0 <= i < |m.nonceUpdates| => OfNonceUpdates(m.nonceUpdates[i]))
  }

  /** The message has that filter in one of its lists. */
  predicate Lists(m: FilterMessage, f: ClientFilter) {
    match f
    case OfTransactions(q) => q in m.transactions
    case OfEvents(q) => q in m.events
    case OfMessages(q) => q in m.messages
    case OfStorageDiffs(q) => q in m.storageDiffs
    case OfContractChanges(q) => q in m.contractChanges
    case OfNonceUpdates(q) => q in m.nonceUpdates
  }

  /** No filter is left out, and none is made up. */
  lemma ListedMeans(m: FilterMessage, f: ClientFilter)
    ensures f in Listed(m) <==> Lists(m, f)
  {
    var ts := seq(|m.transactions|, i requires 0 <= i < |m.transactions| => OfTransactions(m.transactions[i]));
    var es := seq(|m.events|, i requires 0 <= i < |m.events| => OfEvents(m.events[i]));
    var ms := seq(|m.messages|, i requires 0 <= i < |m.messages| => OfMessages(m.messages[i]));
    var ss := seq(|m.storageDiffs|, i requires 0 <= i < |m.storageDiffs| => OfStorageDiffs(m.storageDiffs[i]));
    var cs := seq(|m.contractChanges|, i requires 0 <= i < |m.contractChanges| =>
                    OfContractChanges(m.contractChanges[i]));
    var ns := seq(|m.nonceUpdates|, i requires 0 <= i < |m.nonceUpdates| => OfNonceUpdates(m.nonceUpdates[i]));
    assert Listed(m) == ts + es + ms + ss + cs + ns;
    assert f in Listed(m) <==> f in ts || f in es || f in ms || f in ss || f in cs || f in ns;
    assert forall i :: 0 <= i < |ts| ==> ts[i] == OfTransactions(m.transactions[i]);
    assert forall i :: 0 <= i < |es| ==> es[i] == OfEvents(m.events[i]);
    assert forall i :: 0 <= i < |ms| ==> ms[i] == OfMessages(m.messages[i]);
    assert forall i :: 0 <= i < |ss| ==> ss[i] == OfStorageDiffs(m.storageDiffs[i]);
    assert forall i :: 0 <= i < |cs| ==> cs[i] == OfContractChanges(m.contractChanges[i]);
    assert forall i :: 0 <= i < |ns| ==> ns[i] == OfNonceUpdates(m.nonceUpdates[i]);
  }

  ghost predicate AllCompile(all: seq<ClientFilter>) {
    forall k :: 0 <= k < |all| ==> Compile(all[k]).Ok?
  }

  /** The loops over a message's lists. */
  method CompileToBlockFilter(m: FilterMessage) returns (r: Result<BlockFilter>)
    ensures r.Ok? <==> AllCompile(Listed(m))
    ensures r.Ok? ==>
              r.value.headerFilter == HeaderOf(m.header) && WfFilters(r.value.filters)
              && CompiledTo(r.value.filters, Listed(m))
    ensures r.Ok? ==>
              && (r.value.headerFilter.Always? <==> m.header == 1)
              && (r.value.headerFilter.OnData? <==> m.header == 2)
  {
    hide Compile, Listed;
    var all := Listed(m);
    var builder := new BlockFilterBuilder();
    builder.SetHeaderFilter(HeaderOf(m.header));
    for k := 0 to |all|
      invariant builder.headerFilter == HeaderOf(m.header)
      invariant builder.Valid() && CompiledTo(builder.filters, all[..k]) && fresh(builder)
      invariant forall i :: 0 <= i < k ==> Compile(all[i]).Ok?
    {
      var f := CompileFilter(all[k]);
      if f.Rejected? {
        return Rejected;
      }
      CompiledOneMore(builder.filters, all[..k], all[k]);
      builder.AddFilter(f.value);
      assert all[..k + 1] == all[..k] + [all[k]];
    }
    assert all[..|all|] == all;
    r := Ok(BlockFilter(builder.headerFilter, builder.filters));
  }

  // ------------------------------------------------------------------ accepting a client

  /** One block filter for each of a client's filter messages, from its lists. */
  ghost predicate Compiled(filters: seq<BlockFilter>, clients: seq<seq<ClientFilter>>) {
    |clients| == |filters| && forall k :: 0 <= k < |filters| ==>
      WfFilters(filters[k].filters) && CompiledTo(filters[k].filters, clients[k])
  }

  function AllListed(messages: seq<FilterMessage>): seq<seq<ClientFilter>> {
    seq(|messages|, i requires 0 <= i < |messages| => Listed(messages[i]))
  }

  /** A message that asks for something: for the header of every block, or for rows. */
  predicate AsksForData(m: FilterMessage) {
    m.header == 1 || Listed(m) != []
  }

  lemma ProducesIffAsked(f: BlockFilter, m: FilterMessage)
    requires f.headerFilter == HeaderOf(m.header) && WfFilters(f.filters) && CompiledTo(f.filters, Listed(m))
    ensures f.headerFilter.Always? || f.filters != map[] <==> AsksForData(m)
  {
    hide Compile;
    var all := Listed(m);
    if all != [] {
      var first := Compile(all[0]).value;
      assert Compiles(all, first) && first in FiltersOf(f.filters, first.fragmentId);
    } else if id :| id in f.filters {
      HasASource(f.filters, all, id);
    }
  }

  lemma HasASource(filters: map<nat, seq<Filter>>, all: seq<ClientFilter>, id: nat)
    requires WfFilters(filters) && CompiledTo(filters, all) && id in filters
    ensures all != []
  {
    hide Compile;
    assert filters[id][0] in FiltersOf(filters, id);
  }

  /**
   * One to five messages, each of which compiles, at least one of which asks for something. An accepted client's
   * filters are its messages' own.
   */
  method CreateBlockFilter(messages: seq<FilterMessage>) returns (r: Result<seq<BlockFilter>>)
    ensures r.Ok? <==>
            && 1 <= |messages| <= 5 && (forall k :: 0 <= k < |messages| ==> AllCompile(Listed(messages[k])))
            && exists k :: 0 <= k < |messages| && AsksForData(messages[k])
    ensures r.Ok? ==>
              && Compiled(r.value, AllListed(messages))
              && forall k :: 0 <= k < |messages| ==> r.value[k].headerFilter == HeaderOf(messages[k].header)
  {
    hide AllCompile, Listed, AsksForData, CompiledTo, WfFilters;
    if |messages| == 0 || |messages| > 5 {
      return Rejected;
    }
    var filters: seq<BlockFilter>, produces := [], false;
    for i := 0 to |messages|
      invariant |filters| == i && forall k :: 0 <= k < i ==>
                  && AllCompile(Listed(messages[k])) && filters[k].headerFilter == HeaderOf(messages[k].header)
                  && WfFilters(filters[k].filters) && CompiledTo(filters[k].filters, Listed(messages[k]))
    {
      var f := CompileToBlockFilter(messages[i]);
      if f.Rejected? {
        return Rejected;
      }
      filters := filters + [f.value];
    }
    for i := 0 to |filters|
      invariant produces <==> exists k :: 0 <= k < i && AsksForData(messages[k])
    {
      ProducesIffAsked(filters[i], messages[i]);
      if filters[i].headerFilter.Always? || filters[i].filters != map[] {
        produces := true;
      }
    }
    r := if produces then Ok(filters) else Rejected;
  }
}
