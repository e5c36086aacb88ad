/** Bitmap indexes over the rows of a fragment (common/src/index.rs). Roaring bitmaps are sets of row numbers. */
module Indexes {
  import opened Core
  import opened Sorting

  /** Fixed-size byte arrays compare like the big-endian numbers they spell. */
  datatype Scalar =
    | NullValue
    | BoolValue(b: bool)
    | Int32(i: int)
    | Uint8(n: nat)
    | Uint16(n: nat)
    | Uint32(n: nat)
    | Uint64(n: nat)
    | B160(n: nat)
    | B256(n: nat)
    | B384(n: nat)

  /** The order of the variants in the source, which derives its ordering. */
  function Variant(s: Scalar): nat {
    match s
    case NullValue => 0
    case BoolValue(_) => 1
    case Int32(_) => 2
    case Uint8(_) => 3
    case Uint16(_) => 4
    case Uint32(_) => 5
    case Uint64(_) => 6
    case B160(_) => 7
    case B256(_) => 8
    case B384(_) => 9
  }

  function Payload(s: Scalar): int {
    match s
    case NullValue => 0
    case BoolValue(b) => if b then 1 else 0
    case Int32(i) => i
    case Uint8(n) => n
    case Uint16(n) => n
    case Uint32(n) => n
    case Uint64(n) => n
    case B160(n) => n
    case B256(n) => n
    case B384(n) => n
  }

  lemma SameScalar(a: Scalar, b: Scalar)
    requires Variant(a) == Variant(b) && Payload(a) == Payload(b)
    ensures a == b
  {
  }

  /** The derived order, by which a builder's keys are kept. */
  predicate Less(a: Scalar, b: Scalar) {
    Variant(a) < Variant(b) || (Variant(a) == Variant(b) && Payload(a) < Payload(b))
  }

  /** The comparison of the lookup: an entry of another variant counts as greater, whichever comes first. */
  function CmpScalarValue(entry: Scalar, key: Scalar): int {
    if Variant(entry) == Variant(key) then Payload(entry) - Payload(key) else 1
  }

  datatype BitmapIndex = BitmapIndex(keys: seq<Scalar>, values: seq<set<nat>>)

  /** Keys ascend and each has its bitmap. */
  ghost predicate WfIndex(index: BitmapIndex) {
    |index.keys| == |index.values| && forall i, j :: 0 <= i < j < |index.keys| ==> Less(index.keys[i], index.keys[j])
  }

  /** Every key has the same variant; the lookup needs it. */
  ghost predicate OneVariant(index: BitmapIndex) {
    forall i, j :: 0 <= i < |index.keys| && 0 <= j < |index.keys| ==> Variant(index.keys[i]) == Variant(index.keys[j])
  }

  function Get(index: BitmapIndex, key: Scalar): Option<set<nat>>
  {
    var cmp := (i: nat) => if i < |index.keys| then CmpScalarValue(index.keys[i], key) else 1;
    match BinarySearchBy(|index.keys|, cmp)
    case Some(i) => if i < |index.values| then Some(index.values[i]) else None
    case None => None
  }

  /** What an index says of a key. */
  ghost predicate Holds(index: BitmapIndex, key: Scalar, row: nat) {
    exists i :: 0 <= i < |index.keys| && i < |index.values| && index.keys[i] == key && row in index.values[i]
  }

  lemma KeysDiffer(index: BitmapIndex, i: nat, j: nat)
    requires WfIndex(index) && i < |index.keys| && j < |index.keys| && i != j
    ensures index.keys[i] != index.keys[j]
  {
    assert Less(index.keys[if i < j then i else j], index.keys[if i < j then j else i]);
  }

  /** The lookup finds a key's bitmap, and nothing for a key that is not there. */
  lemma GetFinds(index: BitmapIndex, key: Scalar)
    requires WfIndex(index) && OneVariant(index)
    ensures Get(index, key).Some? <==> key in index.keys
    ensures forall row :: (Get(index, key).Some? && row in Get(index, key).value) <==> Holds(index, key, row)
  {
    var cmp := (i: nat) => if i < |index.keys| then CmpScalarValue(index.keys[i], key) else 1;
    forall i: nat, j: nat | i < j < |index.keys| && cmp(i) >= 0
      ensures cmp(j) > 0
    {
      assert Less(index.keys[i], index.keys[j]) && Variant(index.keys[i]) == Variant(index.keys[j]);
    }
    SearchFinds(|index.keys|, cmp);
    match BinarySearchBy(|index.keys|, cmp)
    case None =>
      assert forall i: nat :: i < |index.keys| ==> index.keys[i] != key by {
        forall i: nat | i < |index.keys| ensures index.keys[i] != key { assert cmp(i) != 0; }
      }
    case Some(i) =>
      SameScalar(index.keys[i], key);
      forall j | 0 <= j < |index.keys| && index.keys[j] == key
        ensures j == i
      {
        if i != j { KeysDiffer(index, i, j); }
      }
  }

  /** With mixed variants the lookup can miss a key that is there. */
  lemma MixedVariantsCanMiss()
    ensures var index := BitmapIndex([NullValue, BoolValue(false), Uint8(7)], [{0}, {1}, {2}]);
            WfIndex(index) && Holds(index, Uint8(7), 2) && Get(index, Uint8(7)) == None
  {
    var index := BitmapIndex([NullValue, BoolValue(false), Uint8(7)], [{0}, {1}, {2}]);
    assert index.keys[2] == Uint8(7) && 2 in index.values[2];
  }

  // ------------------------------------------------------------------ building

  lemma {:induction false} LeastScalarExists(s: set<Scalar>)
    requires s != {}
    ensures exists least :: IsLeastScalar(least, s)
    decreases |s|
  {
    var some :| some in s;
    var rest := s - {some};
    assert forall other :: other in s ==> other == some || other in rest;
    if rest == {} {
      assert IsLeastScalar(some, s);
    } else {
      LeastScalarExists(rest);
      var low :| IsLeastScalar(low, rest);
      Comparable(some, low);
      assert IsLeastScalar(some, s) || IsLeastScalar(low, s);
    }
  }

  ghost predicate IsLeastScalar(k: Scalar, s: set<Scalar>) {
    k in s && forall other :: other in s && other != k ==> Less(k, other)
  }

  lemma Comparable(a: Scalar, b: Scalar)
    ensures a == b || Less(a, b) || Less(b, a)
  {
    if Variant(a) == Variant(b) && Payload(a) == Payload(b) { SameScalar(a, b); }
  }

  function LeastScalar(s: set<Scalar>): (least: Scalar)
    requires s != {}
    ensures IsLeastScalar(least, s)
  {
    assert exists k :: k in s && forall other :: other in s && other != k ==> Less(k, other) by {
      LeastScalarExists(s);
      var least :| IsLeastScalar(least, s);
    }
    var k :| k in s && forall other :: other in s && other != k ==> Less(k, other);
    k
  }

  /** The keys of a tree map in its order. */
  function SortedScalars(s: set<Scalar>): (r: seq<Scalar>) {
    if s == {} then []
    else
      var least := LeastScalar(s);
      [least] + SortedScalars(s - {least})
  }

  lemma {:induction false} SortedScalarsHold(s: set<Scalar>, key: Scalar)
    ensures key in SortedScalars(s) <==> key in s
    decreases |s|
  {
    if s != {} {
      SortedScalarsHold(s - {LeastScalar(s)}, key);
    }
  }

  lemma {:induction false} SortedScalarsAscend(s: set<Scalar>, i: nat, j: nat)
    requires i < j < |SortedScalars(s)|
    ensures Less(SortedScalars(s)[i], SortedScalars(s)[j])
    decreases |s|
  {
    var least := LeastScalar(s);
    var rest := SortedScalars(s - {least});
    if i == 0 {
      SortedScalarsHold(s - {least}, rest[j - 1]);
    } else {
      SortedScalarsAscend(s - {least}, i - 1, j - 1);
    }
  }

  function Build(entries: map<Scalar, set<nat>>): BitmapIndex {
    var keys := SortedScalars(entries.Keys);
    BitmapIndex(keys, seq(|keys|, i requires 0 <= i < |keys| => if keys[i] in entries then entries[keys[i]] else {}))
  }

  /** The built index says of every key and row exactly what was inserted. */
  lemma BuiltHolds(entries: map<Scalar, set<nat>>, key: Scalar, row: nat)
    ensures WfIndex(Build(entries))
    ensures forall k :: k in Build(entries).keys <==> k in entries
    ensures Holds(Build(entries), key, row) <==> key in entries && row in entries[key]
  {
    var index := Build(entries);
    forall i, j | 0 <= i < j < |index.keys|
      ensures Less(index.keys[i], index.keys[j])
    {
      SortedScalarsAscend(entries.Keys, i, j);
    }
    forall k
      ensures k in index.keys <==> k in entries
    {
      SortedScalarsHold(entries.Keys, k);
    }
    if key in entries && row in entries[key] {
      var i :| 0 <= i < |index.keys| && index.keys[i] == key;
      assert row in index.values[i];
    }
  }

  function RowsAt(entries: map<Scalar, set<nat>>, key: Scalar): set<nat> {
    if key in entries then entries[key] else {}
  }

  class BitmapIndexBuilder {
    var entries: map<Scalar, set<nat>>

    constructor ()
      ensures entries == map[]
    {
      entries := map[];
    }

    method Insert(key: Scalar, value: nat)
      modifies this
      ensures entries == old(entries)[key := RowsAt(old(entries), key) + {value}]
    {
      entries := entries[key := RowsAt(entries, key) + {value}];
    }

    method Finish() returns (index: BitmapIndex)
      ensures WfIndex(index) && index == Build(entries)
      ensures forall key, row :: Holds(index, key, row) <==> row in RowsAt(entries, key)
    {
      index := Build(entries);
      forall key, row
        ensures Holds(index, key, row) <==> row in RowsAt(entries, key)
      {
        BuiltHolds(entries, key, row);
      }
      BuiltHolds(entries, NullValue, 0);
    }
  }
}
