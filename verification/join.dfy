/** Join indexes from the rows of one fragment to the rows of another (common/src/join.rs). */
module Joins {
  import opened Core
  import opened Sorting

  datatype JoinTo = One(oneKeys: seq<nat>, one: seq<nat>) | Many(manyKeys: seq<nat>, many: seq<set<nat>>)

  function Keys(join: JoinTo): seq<nat> {
    if join.One? then join.oneKeys else join.manyKeys
  }

  /** The rows a row is joined to, as the two lookups find them by binary search. */
  function Targets(join: JoinTo, row: nat): set<nat> {
    var keys := Keys(join);
    match BinarySearchBy(|keys|, (i: nat) => if i < |keys| then keys[i] - row else 1)
    case None => {}
    case Some(i) =>
      match join
      case One(_, values) => if i < |values| then {values[i]} else {}
      case Many(_, values) => if i < |values| then values[i] else {}
  }

  function BuildOne(entries: map<nat, nat>): JoinTo {
    var keys := Sorted(entries.Keys);
    One(keys, seq(|keys|, i requires 0 <= i < |keys| => if keys[i] in entries then entries[keys[i]] else 0))
  }

  function BuildMany(entries: map<nat, set<nat>>): JoinTo {
    var keys := Sorted(entries.Keys);
    Many(keys, seq(|keys|, i requires 0 <= i < |keys| => if keys[i] in entries then entries[keys[i]] else {}))
  }

  /** Looking a row up in ascending keys. */
  lemma SortedLookup(keys: set<nat>, row: nat)
    ensures var sorted := Sorted(keys);
            match BinarySearchBy(|sorted|, (i: nat) => if i < |sorted| then sorted[i] - row else 1)
            case None => row !in keys
            case Some(i) => i < |sorted| && sorted[i] == row && row in keys
  {
    var sorted := Sorted(keys);
    var cmp := (i: nat) => if i < |sorted| then sorted[i] - row else 1;
    forall i: nat, j: nat | i < j < |sorted| && cmp(i) >= 0
      ensures cmp(j) > 0
    {
      SortedAscends(keys, i, j);
    }
    SearchFinds(|sorted|, cmp);
    SortedHolds(keys, row);
    assert forall i: nat :: i < |sorted| ==> cmp(i) == sorted[i] - row;
  }

  lemma BuiltOne(entries: map<nat, nat>, row: nat)
    ensures Targets(BuildOne(entries), row) == if row in entries then {entries[row]} else {}
  {
    SortedLookup(entries.Keys, row);
  }

  lemma BuiltMany(entries: map<nat, set<nat>>, row: nat)
    ensures Targets(BuildMany(entries), row) == if row in entries then entries[row] else {}
  {
    SortedLookup(entries.Keys, row);
  }

  function RowsAt(entries: map<nat, set<nat>>, row: nat): set<nat> {
    if row in entries then entries[row] else {}
  }

  class JoinToOneIndexBuilder {
    var entries: map<nat, nat>

    constructor ()
      ensures entries == map[]
    {
      entries := map[];
    }

    method Insert(key: nat, value: nat)
      modifies this
      ensures entries == old(entries)[key := value]
    {
      entries := entries[key := value];
    }

    /** The built join leads every row where it was last inserted to, and no other row anywhere. */
    method Finish() returns (join: JoinTo)
      ensures join == BuildOne(entries)
      ensures forall row :: Targets(join, row) == if row in entries then {entries[row]} else {}
    {
      join := BuildOne(entries);
      forall row
        ensures Targets(join, row) == if row in entries then {entries[row]} else {}
      {
        BuiltOne(entries, row);
      }
    }
  }

  class JoinToManyIndexBuilder {
    var entries: map<nat, set<nat>>

    constructor ()
      ensures entries == map[]
    {
      entries := map[];
    }

    method Insert(key: nat, value: nat)
      modifies this
      ensures entries == old(entries)[key := RowsAt(old(entries), key) + {value}]
    {
      entries := entries[key := RowsAt(entries, key) + {value}];
    }

    method Finish() returns (join: JoinTo)
      ensures join == BuildMany(entries)
      ensures forall row :: Targets(join, row) == RowsAt(entries, row)
    {
      join := BuildMany(entries);
      forall row
        ensures Targets(join, row) == RowsAt(entries, row)
      {
        BuiltMany(entries, row);
      }
    }
  }
}
