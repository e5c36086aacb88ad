/** The loops of `collect_state_update_body_and_index` (starknet/src/ingestion.rs). */
module StarknetState {
  import opened Core
  import opened Indexes
  import opened GroupBuilder
  import opened StarknetRows

  datatype StateIndexes = StateIndexes(storage: Entries, change: Entries, nonce: Entries)

  ghost predicate StateIndexed(s: StateIndexes, diff: StateDiff) {
    && Says(s.storage, AddressesSay(diff.storageDiffs)) && Says(s.change, ChangesSay(Changes(diff)))
    && Says(s.nonce, AddressesSay(diff.nonces))
  }

  /** The loops over storage diffs and over nonces: a row without an address is stored and not indexed. */
  method IndexAddresses(rows: seq<Option<nat>>) returns (entries: Entries)
    ensures Says(entries, AddressesSay(rows))
  {
    hide Says;
    entries := map[];
    NothingSaid();
    assert AddressesSay(rows[..0]) == [];
    for n := 0 to |rows|
      invariant Says(entries, AddressesSay(rows[..n]))
    {
      InsertSays(entries, AddressesSay(rows[..n]), AddressScalar(rows[n]));
      assert AddressesSay(rows[..n + 1]) == AddressesSay(rows[..n]) + [AddressScalar(rows[n])];
      if rows[n].Some? {
        var key := B256(rows[n].value);
        entries := entries[key := Indexes.RowsAt(entries, key) + {n}];
      }
    }
    assert rows[..|rows|] == rows;
  }

  /** One loop over a list of changes of the same kind, after those in `before`. */
  method IndexChanges(indexed: Entries, ghost before: seq<ContractChangeType>, rows: nat, change: ContractChangeType,
                      count: nat)
    returns (entries: Entries, after: nat)
    requires rows == |before| && Says(indexed, ChangesSay(before))
    ensures after == rows + count && Says(entries, ChangesSay(before + Repeated(change, count)))
  {
    hide Says;
    entries, after := indexed, rows;
    assert before + Repeated(change, 0) == before;
    for k := 0 to count
      invariant after == rows + k && Says(entries, ChangesSay(before + Repeated(change, k)))
    {
      ghost var so := before + Repeated(change, k);
      InsertSays(entries, ChangesSay(so), Some(ChangeScalar(change)));
      assert before + Repeated(change, k + 1) == so + [change];
      assert ChangesSay(so + [change]) == ChangesSay(so) + [Some(ChangeScalar(change))];
      var key := ChangeScalar(change);
      entries := entries[key := Indexes.RowsAt(entries, key) + {after}];
      after := after + 1;
    }
  }

  /** Each index says of every row of its fragment what the row holds; rows are counted over all lists of a fragment. */
  method CollectStateUpdate(diff: StateDiff) returns (s: StateIndexes, changes: nat)
    ensures StateIndexed(s, diff) && changes == |Changes(diff)|
  {
    hide Says, ChangesSay, AddressesSay;
    var storage := IndexAddresses(diff.storageDiffs);
    ghost var before: seq<ContractChangeType> := [];
    assert Says(map[], ChangesSay([])) by { NothingChanged(); }
    var change, rows := IndexChanges(map[], before, 0, DeclaredClass, diff.deprecatedClasses);
    before := Repeated(DeclaredClass, diff.deprecatedClasses);
    assert [] + before == before;
    change, rows := IndexChanges(change, before, rows, DeclaredClass, diff.declaredClasses);
    before := before + Repeated(DeclaredClass, diff.declaredClasses);
    change, rows := IndexChanges(change, before, rows, ReplacedClass, diff.replacedClasses);
    before := before + Repeated(ReplacedClass, diff.replacedClasses);
    change, rows := IndexChanges(change, before, rows, DeployedContract, diff.deployedContracts);
    var nonce := IndexAddresses(diff.nonces);
    s, changes := StateIndexes(storage, change, nonce), rows;
  }

  lemma NothingChanged()
    ensures Says(map[], ChangesSay([]))
  {
    NothingSaid();
  }
}
