/**
 * Indexes and joins of a Starknet block (starknet/src/ingestion.rs). Field elements are numbers; hashes and the
 * encoded messages are not modelled.
 */
module StarknetRows {
  import opened Core
  import opened Sorting
  import opened Indexes
  import opened GroupBuilder

  const SUCCEEDED := 1
  const REVERTED := 2

  datatype TransactionType =
    | InvokeV0 | InvokeV1 | InvokeV3 | Deploy | DeclareV0 | DeclareV1 | DeclareV2 | DeclareV3 | L1Handler
    | DeployAccountV1 | DeployAccountV3

  function ToScalarValue(t: TransactionType): Scalar {
    Uint32(match t
           case InvokeV0 => 0
           case InvokeV1 => 1
           case InvokeV3 => 2
           case Deploy => 3
           case DeclareV0 => 4
           case DeclareV1 => 5
           case DeclareV2 => 6
           case DeclareV3 => 7
           case L1Handler => 8
           case DeployAccountV1 => 9
           case DeployAccountV3 => 10)
  }

  datatype Event = Event(address: Option<nat>, keys: seq<nat>)

  datatype MessageToL1 = MessageToL1(from: Option<nat>, to: Option<nat>)

  /** A transaction with its receipt. */
  datatype Transaction = Transaction(kind: Option<TransactionType>, reverted: bool, events: seq<Event>,
                                     messages: seq<MessageToL1>)

  function Status(t: Transaction): int {
    if t.reverted then REVERTED else SUCCEEDED
  }

  /** Rows of the body fragments: what they hold, and the transaction they belong to. */
  datatype EventRow = EventRow(event: Event, transaction: nat, status: int)

  datatype MessageRow = MessageRow(message: MessageToL1, transaction: nat, status: int)

  function EventRows(events: seq<Event>, transaction: nat, status: int): (r: seq<EventRow>)
    ensures |r| == |events|
  {
    seq(|events|, i requires 0 <= i < |events| => EventRow(events[i], transaction, status))
  }

  function MessageRows(messages: seq<MessageToL1>, transaction: nat, status: int): (r: seq<MessageRow>)
    ensures |r| == |messages|
  {
    seq(|messages|, i requires 0 <= i < |messages| => MessageRow(messages[i], transaction, status))
  }

  /** All events of a block, transaction by transaction. */
  function AllEvents(transactions: seq<Transaction>): seq<EventRow> {
    if transactions == [] then []
    else
      var t := |transactions| - 1;
      AllEvents(transactions[..t]) + EventRows(transactions[t].events, t, Status(transactions[t]))
  }

  function AllMessages(transactions: seq<Transaction>): seq<MessageRow> {
    if transactions == [] then []
    else
      var t := |transactions| - 1;
      AllMessages(transactions[..t]) + MessageRows(transactions[t].messages, t, Status(transactions[t]))
  }

  datatype ContractChangeType = DeclaredClass | DeployedContract | ReplacedClass

  function ChangeScalar(change: ContractChangeType): Scalar {
    Uint32(match change
           case DeclaredClass => 0
           case DeployedContract => 1
           case ReplacedClass => 2)
  }

  /** The state update of a block: the contracts of its storage diffs and nonces, and how many classes changed how. */
  datatype StateDiff = StateDiff(storageDiffs: seq<Option<nat>>, deprecatedClasses: nat, declaredClasses: nat,
                                 replacedClasses: nat, deployedContracts: nat, nonces: seq<Option<nat>>)

  function Repeated(change: ContractChangeType, count: nat): (r: seq<ContractChangeType>)
    ensures |r| == count
  {
    seq(count, _ => change)
  }

  /** All contract changes of a block, in the order of the lists they come from. */
  function Changes(diff: StateDiff): seq<ContractChangeType> {
    Repeated(DeclaredClass, diff.deprecatedClasses) + Repeated(DeclaredClass, diff.declaredClasses)
    + Repeated(ReplacedClass, diff.replacedClasses) + Repeated(DeployedContract, diff.deployedContracts)
  }

  /** What a block is made of. */
  datatype Contents = Contents(transactions: seq<Transaction>, traces: nat, diff: StateDiff)

  // ------------------------------------------------------------------ what each index holds of a row

  function AddressScalar(address: Option<nat>): Option<Scalar> {
    if address.Some? then Some(B256(address.value)) else None
  }

  function EventScalar(row: EventRow, index: nat): Option<Scalar> {
    var keys := row.event.keys;
    match index
    case 0 => if row.event.address.Some? then Some(B256(row.event.address.value)) else None
    case 1 => if |keys| > 0 then Some(B256(keys[0])) else None
    case 2 => if |keys| > 1 then Some(B256(keys[1])) else None
    case 3 => if |keys| > 2 then Some(B256(keys[2])) else None
    case 4 => if |keys| > 3 then Some(B256(keys[3])) else None
    case 5 => Some(Uint32(AsU32(|keys|)))
    case 6 => Some(Int32(row.status))
    case _ => None
  }

  function MessageScalar(row: MessageRow, index: nat): Option<Scalar> {
    match index
    case 0 => if row.message.from.Some? then Some(B256(row.message.from.value)) else None
    case 1 => if row.message.to.Some? then Some(B256(row.message.to.value)) else None
    case 2 => Some(Int32(row.status))
    case _ => None
  }

  function TransactionScalar(t: Transaction, index: nat): Option<Scalar> {
    match index
    case 0 => Some(Int32(Status(t)))
    case 1 => if t.kind.Some? then Some(ToScalarValue(t.kind.value)) else None
    case _ => None
  }

  /** The one variant of each index. */
  function EventKind(index: nat): nat {
    if index <= 4 then 8 else if index == 5 then 5 else 2
  }

  function MessageKind(index: nat): nat {
    if index <= 1 then 8 else 2
  }

  function TransactionKind(index: nat): nat {
    if index == 0 then 2 else 5
  }

  // ------------------------------------------------------------------ an index says what its rows say

  /** `said[n]` is what row n has to say to the index. */
  ghost predicate Says(entries: Entries, said: seq<Option<Scalar>>) {
    && (forall key, n: nat {:trigger n in Indexes.RowsAt(entries, key)} :: n in Indexes.RowsAt(entries, key) <==>
        n < |said| && said[n] == Some(key))
    && (forall key :: key in entries ==> exists n :: 0 <= n < |said| && said[n] == Some(key))
  }

  function Insert(entries: Entries, said: Option<Scalar>, n: nat): Entries {
    if said.None? then entries else entries[said.value := Indexes.RowsAt(entries, said.value) + {n}]
  }

  lemma InsertSays(entries: Entries, said: seq<Option<Scalar>>, next: Option<Scalar>)
    requires Says(entries, said)
    ensures Says(Insert(entries, next, |said|), said + [next])
  {
    var after, all := Insert(entries, next, |said|), said + [next];
    forall key, n: nat
      ensures n in Indexes.RowsAt(after, key) <==> n < |all| && all[n] == Some(key)
    {
      assert n in Indexes.RowsAt(entries, key) <==> n < |said| && said[n] == Some(key);
      assert n in Indexes.RowsAt(after, key) <==>
             n in Indexes.RowsAt(entries, key) || (next == Some(key) && n == |said|);
    }
    forall key | key in after
      ensures exists n :: 0 <= n < |all| && all[n] == Some(key)
    {
      if key in entries {
        var n :| 0 <= n < |said| && said[n] == Some(key);
        assert all[n] == Some(key);
      } else {
        assert all[|said|] == Some(key);
      }
    }
  }

  lemma NothingSaid()
    ensures Says(map[], [])
  {
    forall key, n: nat
      ensures n !in Indexes.RowsAt(map[], key)
    {
      assert Indexes.RowsAt(map[], key) == {};
    }
  }

  function EventsSay(rows: seq<EventRow>, index: nat): seq<Option<Scalar>> {
    seq(|rows|, n requires 0 <= n < |rows| => EventScalar(rows[n], index))
  }

  function MessagesSay(rows: seq<MessageRow>, index: nat): seq<Option<Scalar>> {
    seq(|rows|, n requires 0 <= n < |rows| => MessageScalar(rows[n], index))
  }

  function TransactionsSay(rows: seq<Transaction>, index: nat): seq<Option<Scalar>> {
    seq(|rows|, n requires 0 <= n < |rows| => TransactionScalar(rows[n], index))
  }

  function AddressesSay(rows: seq<Option<nat>>): seq<Option<Scalar>> {
    seq(|rows|, n requires 0 <= n < |rows| => AddressScalar(rows[n]))
  }

  function ChangesSay(rows: seq<ContractChangeType>): seq<Option<Scalar>> {
    seq(|rows|, n requires 0 <= n < |rows| => Some(ChangeScalar(rows[n])))
  }

  // ------------------------------------------------------------------ joins

  type ManyJoin = map<nat, set<nat>>

  function Joined(j: ManyJoin, row: nat): set<nat> {
    if row in j then j[row] else {}
  }

  function Link(j: ManyJoin, from: nat, to: nat): ManyJoin {
    j[from := Joined(j, from) + {to}]
  }

  lemma LinkAdds(j: ManyJoin, from: nat, to: nat)
    ensures forall a: nat, b: nat {:trigger b in Joined(Link(j, from, to), a)} ::
              b in Joined(Link(j, from, to), a) <==> b in Joined(j, a) || (a == from && b == to)
  {
  }

  function EventOwners(rows: seq<EventRow>): seq<nat> {
    seq(|rows|, n requires 0 <= n < |rows| => rows[n].transaction)
  }

  function MessageOwners(rows: seq<MessageRow>): seq<nat> {
    seq(|rows|, n requires 0 <= n < |rows| => rows[n].transaction)
  }

  /** Every row leads to its transaction. */
  ghost predicate ToOwner(j: map<nat, nat>, owners: seq<nat>) {
    forall n: nat :: (n in j <==> n < |owners|) && (n < |owners| ==> j[n] == owners[n])
  }

  /** A transaction leads to its rows. */
  ghost predicate FromOwner(j: ManyJoin, owners: seq<nat>) {
    forall t: nat, n: nat {:trigger n in Joined(j, t)} :: n in Joined(j, t) <==> n < |owners| && owners[n] == t
  }

  /** A row leads to the other rows of its transaction, and not to itself. */
  ghost predicate ToSiblings(j: ManyJoin, owners: seq<nat>) {
    forall a: nat, b: nat {:trigger b in Joined(j, a)} :: b in Joined(j, a) <==>
    a < |owners| && b < |owners| && a != b && owners[a] == owners[b]
  }

  /** A row leads to the rows of another fragment with the same transaction. */
  ghost predicate ToPeers(j: ManyJoin, owners: seq<nat>, others: seq<nat>) {
    forall a: nat, b: nat {:trigger b in Joined(j, a)} :: b in Joined(j, a) <==>
    a < |owners| && b < |others| && owners[a] == others[b]
  }

  ghost predicate AllBelow(owners: seq<nat>, t: nat) {
    forall n :: 0 <= n < |owners| ==> owners[n] < t
  }

  /** The rows of one transaction come last. */
  ghost predicate Extended(owners: seq<nat>, all: seq<nat>, t: nat) {
    && AllBelow(owners, t) && |owners| <= |all| && all[..|owners|] == owners
    && forall n :: |owners| <= n < |all| ==> all[n] == t
  }

  ghost predicate IsRange(ids: seq<nat>, from: nat, to: nat) {
    |ids| == to - from && forall i :: 0 <= i < |ids| ==> ids[i] == from + i
  }

  lemma InRange(ids: seq<nat>, from: nat, to: nat, n: nat)
    requires IsRange(ids, from, to)
    ensures n in ids <==> from <= n < to
  {
    if from <= n < to { assert ids[n - from] == n; }
  }

  /** All pairs of different ids are linked. */
  ghost predicate LinksPairs(before: ManyJoin, after: ManyJoin, ids: seq<nat>) {
    forall a: nat, b: nat {:trigger b in Joined(after, a)} :: b in Joined(after, a) <==>
    b in Joined(before, a) || (a in ids && b in ids && a != b)
  }

  /** Every id of one list is linked to every id of another. */
  ghost predicate LinksAcross(before: ManyJoin, after: ManyJoin, ids: seq<nat>, others: seq<nat>) {
    forall a: nat, b: nat {:trigger b in Joined(after, a)} :: b in Joined(after, a) <==>
    b in Joined(before, a) || (a in ids && b in others)
  }

  lemma SiblingsExtend(before: ManyJoin, after: ManyJoin, owners: seq<nat>, all: seq<nat>, t: nat, ids: seq<nat>)
    requires ToSiblings(before, owners) && Extended(owners, all, t) && IsRange(ids, |owners|, |all|)
             && LinksPairs(before, after, ids)
    ensures ToSiblings(after, all)
  {
    forall a: nat, b: nat
      ensures b in Joined(after, a) <==> a < |all| && b < |all| && a != b && all[a] == all[b]
    {
      InRange(ids, |owners|, |all|, a);
      InRange(ids, |owners|, |all|, b);
      assert a < |owners| ==> all[a] == owners[a] < t;
      assert b < |owners| ==> all[b] == owners[b] < t;
      assert b in Joined(before, a) <==> a < |owners| && b < |owners| && a != b && owners[a] == owners[b];
    }
  }

  lemma PeersExtend(before: ManyJoin, after: ManyJoin, owners: seq<nat>, all: seq<nat>, others: seq<nat>,
                    allOthers: seq<nat>, t: nat, ids: seq<nat>, otherIds: seq<nat>)
    requires ToPeers(before, owners, others) && Extended(owners, all, t) && Extended(others, allOthers, t)
    requires IsRange(ids, |owners|, |all|) && IsRange(otherIds, |others|, |allOthers|)
             && LinksAcross(before, after, ids, otherIds)
    ensures ToPeers(after, all, allOthers)
  {
    forall a: nat, b: nat
      ensures b in Joined(after, a) <==> a < |all| && b < |allOthers| && all[a] == allOthers[b]
    {
      InRange(ids, |owners|, |all|, a);
      InRange(otherIds, |others|, |allOthers|, b);
      assert a < |owners| ==> all[a] == owners[a] < t;
      assert b < |others| ==> allOthers[b] == others[b] < t;
    }
  }
}
