/** Group indexes: which blocks of a group hold a key at all (common/src/compaction/group_builder.rs). */
module GroupBuilder {
  import opened Core
  import opened Sorting
  import opened Indexes
  import opened Fragments
  import opened Query

  /** Rows of a group index are block numbers, cast to 32 bits. */
  function AsU32(n: nat): nat {
    n % 0x1_0000_0000
  }

  type Entries = map<Scalar, set<nat>>
  type FragmentEntries = map<nat, Entries>
  type BlockEntries = map<nat, FragmentEntries>
  type BlockIndexes = FragmentData<seq<IndexFragment>>

  datatype SegmentGroup = SegmentGroup(firstBlock: Cursor, index: seq<IndexFragment>)

  // ------------------------------------------------------------------ what each loop adds

  function WithKeys(entries: Entries, keys: seq<Scalar>, n: nat): Entries {
    if keys == [] then entries
    else
      var before := WithKeys(entries, keys[..|keys| - 1], n);
      var key := keys[|keys| - 1];
      before[key := RowsAt(before, key) + {n}]
  }

  function EntriesAt(fragment: FragmentEntries, id: nat): Entries {
    if id in fragment then fragment[id] else map[]
  }

  function KeysOf(index: Index): seq<Scalar> {
    if index.body.Bitmap? then index.body.bitmap.keys else []
  }

  function WithIndexes(fragment: FragmentEntries, indexes: seq<Index>, n: nat): FragmentEntries {
    if indexes == [] then fragment
    else
      var before := WithIndexes(fragment, indexes[..|indexes| - 1], n);
      var index := indexes[|indexes| - 1];
      before[index.indexId := WithKeys(EntriesAt(before, index.indexId), KeysOf(index), n)]
  }

  function FragmentAt(blocks: BlockEntries, id: nat): FragmentEntries {
    if id in blocks then blocks[id] else map[]
  }

  function WithFragments(blocks: BlockEntries, fragments: seq<IndexFragment>, n: nat): BlockEntries {
    if fragments == [] then blocks
    else
      var before := WithFragments(blocks, fragments[..|fragments| - 1], n);
      var fragment := fragments[|fragments| - 1];
      before[fragment.fragmentId := WithIndexes(FragmentAt(before, fragment.fragmentId), fragment.indexes, n)]
  }

  function WithBlocks(blocks: BlockEntries, data: seq<BlockIndexes>): BlockEntries {
    if data == [] then blocks
    else
      var before := WithBlocks(blocks, data[..|data| - 1]);
      var last := data[|data| - 1];
      WithFragments(before, last.data, AsU32(last.cursor.number))
  }

  // ------------------------------------------------------------------ the builder

  class SegmentGroupBuilder {
    const segmentSize: nat
    var segmentCount: nat
    var blockRange: Option<(Cursor, nat)>
    var blockIndexes: BlockEntries

    constructor (size: nat)
      ensures segmentSize == size && segmentCount == 0 && blockRange == None && blockIndexes == map[]
    {
      segmentSize, segmentCount, blockRange, blockIndexes := size, 0, None, map[];
    }

    /** A size of 0 underflows at block 0 in the source. */
    method AddSegment(segment: SegmentOf<seq<IndexFragment>>)
      requires segment.firstBlock.number + segmentSize >= 1
      modifies this
      ensures segmentCount == old(segmentCount) + 1
      ensures blockRange == Some((if old(blockRange).Some? then old(blockRange).value.0 else segment.firstBlock,
                                  segment.firstBlock.number + segmentSize - 1))
      ensures blockIndexes == WithBlocks(old(blockIndexes), segment.data)
    {
      var end := segment.firstBlock.number + segmentSize - 1;
      blockRange := if blockRange.None? then Some((segment.firstBlock, end)) else Some((blockRange.value.0, end));

      for b := 0 to |segment.data|
        invariant segmentCount == old(segmentCount)
        invariant blockRange == Some((if old(blockRange).Some? then old(blockRange).value.0
                                      else segment.firstBlock, end))
        invariant blockIndexes == WithBlocks(old(blockIndexes), segment.data[..b])
      {
        assert segment.data[..b + 1][..b] == segment.data[..b];
        AddBlock(segment.data[b]);
      }
      assert segment.data[..|segment.data|] == segment.data;
      segmentCount := segmentCount + 1;
    }

    method AddBlock(block: BlockIndexes)
      modifies this`blockIndexes
      ensures blockIndexes == WithFragments(old(blockIndexes), block.data, AsU32(block.cursor.number))
    {
      var n := AsU32(block.cursor.number);
      for f := 0 to |block.data|
        invariant blockIndexes == WithFragments(old(blockIndexes), block.data[..f], n)
      {
        var fragment := block.data[f];
        assert block.data[..f + 1][..f] == block.data[..f];
        var entries := FragmentAt(blockIndexes, fragment.fragmentId);
        for i := 0 to |fragment.indexes|
          invariant entries == WithIndexes(FragmentAt(blockIndexes, fragment.fragmentId), fragment.indexes[..i], n)
          invariant blockIndexes == WithFragments(old(blockIndexes), block.data[..f], n)
        {
          var index := fragment.indexes[i];
          assert fragment.indexes[..i + 1][..i] == fragment.indexes[..i];
          var keyed := InsertKeys(EntriesAt(entries, index.indexId), KeysOf(index), n);
          entries := entries[index.indexId := keyed];
        }
        assert fragment.indexes[..|fragment.indexes|] == fragment.indexes;
        blockIndexes := blockIndexes[fragment.fragmentId := entries];
      }
      assert block.data[..|block.data|] == block.data;
    }

    /**
     * Walks the fragments and their indexes in ascending order of their ids, and sorts what it has built by fragment
     * id.
     */
    method Finish() returns (r: Result<SegmentGroup>)
      ensures r == BuildGroup(blockRange, blockIndexes)
      ensures r.Ok? <==> blockRange.Some?
    {
      if blockRange.None? {
        return Rejected;
      }
      var (first, last) := blockRange.value;
      var fragments := BuildEach(blockIndexes, first.number, last);
      ghost var built := fragments;
      BuiltAscends(blockIndexes, first.number, last);
      AscendingIsSorted(built);
      fragments := SortByFragment(fragments);
      r := Ok(SegmentGroup(first, fragments));
    }
  }

  method BuildEach(blocks: BlockEntries, first: nat, last: nat) returns (fragments: seq<IndexFragment>)
    ensures fragments == BuildFragments(blocks, first, last)
  {
    hide BuildIndexes, Sorted, RangeLen, AsU32;
    var ids := Sorted(blocks.Keys);
    fragments := [];
    for f := 0 to |ids|
      invariant fragments == BuildFragments(blocks, first, last)[..f]
    {
      var indexes := BuildEachIndex(FragmentAt(blocks, ids[f]));
      fragments := fragments + [IndexFragment(ids[f], AsU32(first), RangeLen(first, last), indexes)];
    }
  }

  method BuildEachIndex(fragment: FragmentEntries) returns (indexes: seq<Index>)
    ensures indexes == BuildIndexes(fragment)
  {
    hide Build, Sorted;
    var ids := Sorted(fragment.Keys);
    indexes := [];
    for i := 0 to |ids|
      invariant indexes == BuildIndexes(fragment)[..i]
    {
      indexes := indexes + [Index(ids[i], Bitmap(Build(EntriesAt(fragment, ids[i]))))];
    }
  }

  // ------------------------------------------------------------------ the final sort

  predicate InOrder(fragments: seq<IndexFragment>) {
    forall i, j :: 0 <= i < j < |fragments| ==> fragments[i].fragmentId <= fragments[j].fragmentId
  }

  /** Puts a fragment behind those whose id is not greater. */
  function InsertFragment(sorted: seq<IndexFragment>, fragment: IndexFragment): seq<IndexFragment> {
    if sorted == [] || sorted[|sorted| - 1].fragmentId <= fragment.fragmentId then sorted + [fragment]
    else InsertFragment(sorted[..|sorted| - 1], fragment) + [sorted[|sorted| - 1]]
  }

  /** `slice::sort_by_key` on the fragment id: stable. */
  function SortByFragment(fragments: seq<IndexFragment>): seq<IndexFragment> {
    if fragments == [] then []
    else InsertFragment(SortByFragment(fragments[..|fragments| - 1]), fragments[|fragments| - 1])
  }

  lemma {:induction false} InsertLosesNothing(sorted: seq<IndexFragment>, fragment: IndexFragment)
    ensures multiset(InsertFragment(sorted, fragment)) == multiset(sorted) + multiset{fragment}
    decreases |sorted|
  {
    if sorted != [] && sorted[|sorted| - 1].fragmentId > fragment.fragmentId {
      InsertLosesNothing(sorted[..|sorted| - 1], fragment);
      assert sorted == sorted[..|sorted| - 1] + [sorted[|sorted| - 1]];
    }
  }

  lemma InsertedIsOld(sorted: seq<IndexFragment>, fragment: IndexFragment, i: nat)
    requires i < |InsertFragment(sorted, fragment)|
    ensures var inserted := InsertFragment(sorted, fragment)[i]; inserted == fragment || inserted in sorted
  {
    hide InsertFragment;
    InsertLosesNothing(sorted, fragment);
    var r := InsertFragment(sorted, fragment);
    assert r[i] in multiset(r);
  }

  lemma {:induction false} InsertKeepsOrder(sorted: seq<IndexFragment>, fragment: IndexFragment)
    requires InOrder(sorted)
    ensures InOrder(InsertFragment(sorted, fragment))
    decreases |sorted|
  {
    if sorted != [] && sorted[|sorted| - 1].fragmentId > fragment.fragmentId {
      var init, last := sorted[..|sorted| - 1], sorted[|sorted| - 1];
      InsertKeepsOrder(init, fragment);
      forall i | 0 <= i < |InsertFragment(init, fragment)|
        ensures InsertFragment(init, fragment)[i].fragmentId <= last.fragmentId
      {
        InsertedIsOld(init, fragment, i);
      }
    }
  }

  /** It sorts, and loses nothing. */
  lemma {:induction false} SortSorts(fragments: seq<IndexFragment>)
    ensures InOrder(SortByFragment(fragments)) && multiset(SortByFragment(fragments)) == multiset(fragments)
    decreases |fragments|
  {
    if fragments != [] {
      var init, last := fragments[..|fragments| - 1], fragments[|fragments| - 1];
      assert fragments == init + [last];
      SortSorts(init);
      InsertKeepsOrder(SortByFragment(init), last);
      InsertLosesNothing(SortByFragment(init), last);
    }
  }

  lemma {:induction false} AscendingIsSorted(fragments: seq<IndexFragment>)
    requires InOrder(fragments)
    ensures SortByFragment(fragments) == fragments
    decreases |fragments|
  {
    if fragments != [] {
      var init, last := fragments[..|fragments| - 1], fragments[|fragments| - 1];
      assert fragments == init + [last];
      AscendingIsSorted(init);
    }
  }

  lemma BuiltAscends(blocks: BlockEntries, first: nat, last: nat)
    ensures InOrder(BuildFragments(blocks, first, last))
  {
    var ids := Sorted(blocks.Keys);
    forall i, j | 0 <= i < j < |ids|
      ensures ids[i] < ids[j]
    {
      SortedAscends(blocks.Keys, i, j);
    }
  }

  /** What the loops over the keys of one index do. */
  method InsertKeys(entries: Entries, keys: seq<Scalar>, n: nat) returns (r: Entries)
    ensures r == WithKeys(entries, keys, n)
  {
    r := entries;
    for k := 0 to |keys|
      invariant r == WithKeys(entries, keys[..k], n)
    {
      assert keys[..k + 1][..k] == keys[..k];
      r := r[keys[k] := RowsAt(r, keys[k]) + {n}];
    }
    assert keys[..|keys|] == keys;
  }

  // ------------------------------------------------------------------ the built group

  function BuildIndexes(fragment: FragmentEntries): seq<Index> {
    var ids := Sorted(fragment.Keys);
    seq(|ids|, i requires 0 <= i < |ids| => Index(ids[i], Bitmap(Build(EntriesAt(fragment, ids[i])))))
  }

  /** The number of blocks of a range, cut to 32 bits; it wraps around when the range ends before it starts. */
  function RangeLen(first: nat, last: nat): nat {
    (last + 1 - first) % 0x1_0000_0000
  }

  function BuildFragments(blocks: BlockEntries, first: nat, last: nat): seq<IndexFragment> {
    var ids := Sorted(blocks.Keys);
    seq(|ids|, i requires 0 <= i < |ids| =>
      IndexFragment(ids[i], AsU32(first), RangeLen(first, last), BuildIndexes(FragmentAt(blocks, ids[i]))))
  }

  /** The group without the final sort: fragments come out in ascending order already. */
  function BuildGroup(range: Option<(Cursor, nat)>, blocks: BlockEntries): Result<SegmentGroup> {
    match range
    case None => Rejected
    case Some((first, last)) => Ok(SegmentGroup(first, BuildFragments(blocks, first.number, last)))
  }

  // ------------------------------------------------------------------ the group index is exact for each key

  ghost predicate InIndexes(indexes: seq<Index>, iid: nat, key: Scalar) {
    exists i :: 0 <= i < |indexes| && indexes[i].indexId == iid && key in KeysOf(indexes[i])
  }

  ghost predicate InFragments(fragments: seq<IndexFragment>, fid: nat, iid: nat, key: Scalar) {
    exists f :: 0 <= f < |fragments| && fragments[f].fragmentId == fid && InIndexes(fragments[f].indexes, iid, key)
  }

  /** Some block of that number holds the key. */
  ghost predicate InBlocks(data: seq<BlockIndexes>, fid: nat, iid: nat, key: Scalar, n: nat) {
    exists b :: 0 <= b < |data| && AsU32(data[b].cursor.number) == n && InFragments(data[b].data, fid, iid, key)
  }

  function RowsFor(blocks: BlockEntries, fid: nat, iid: nat, key: Scalar): set<nat> {
    RowsAt(EntriesAt(FragmentAt(blocks, fid), iid), key)
  }

  lemma {:induction false} KeysAdded(entries: Entries, keys: seq<Scalar>, n: nat, key: Scalar, m: nat)
    ensures m in RowsAt(WithKeys(entries, keys, n), key) <==> m in RowsAt(entries, key) || (m == n && key in keys)
    ensures key in WithKeys(entries, keys, n) <==> key in entries || key in keys
    decreases |keys|
  {
    if keys != [] {
      KeysAdded(entries, keys[..|keys| - 1], n, key, m);
      assert keys == keys[..|keys| - 1] + [keys[|keys| - 1]];
    }
  }

  lemma {:induction false} IndexesAdded(fragment: FragmentEntries, indexes: seq<Index>, n: nat, iid: nat, key: Scalar,
                                        m: nat)
    ensures m in RowsAt(EntriesAt(WithIndexes(fragment, indexes, n), iid), key) <==>
            m in RowsAt(EntriesAt(fragment, iid), key) || (m == n && InIndexes(indexes, iid, key))
    decreases |indexes|
  {
    if indexes != [] {
      var before, last := indexes[..|indexes| - 1], indexes[|indexes| - 1];
      IndexesAdded(fragment, before, n, iid, key, m);
      KeysAdded(EntriesAt(WithIndexes(fragment, before, n), last.indexId), KeysOf(last), n, key, m);
      assert InIndexes(indexes, iid, key) <==>
             InIndexes(before, iid, key) || (last.indexId == iid && key in KeysOf(last)) by {
        assert forall i :: 0 <= i < |before| ==> indexes[i] == before[i];
      }
    }
  }

  lemma {:induction false} FragmentsAdded(blocks: BlockEntries, fragments: seq<IndexFragment>, n: nat, fid: nat,
                                          iid: nat, key: Scalar, m: nat)
    ensures m in RowsFor(WithFragments(blocks, fragments, n), fid, iid, key) <==>
            m in RowsFor(blocks, fid, iid, key) || (m == n && InFragments(fragments, fid, iid, key))
    decreases |fragments|
  {
    hide InIndexes, WithIndexes;
    if fragments != [] {
      var before, last := fragments[..|fragments| - 1], fragments[|fragments| - 1];
      FragmentsAdded(blocks, before, n, fid, iid, key, m);
      IndexesAdded(FragmentAt(WithFragments(blocks, before, n), last.fragmentId), last.indexes, n, iid, key, m);
      assert InFragments(fragments, fid, iid, key) <==>
             InFragments(before, fid, iid, key) || (last.fragmentId == fid && InIndexes(last.indexes, iid, key)) by {
        assert forall f :: 0 <= f < |before| ==> fragments[f] == before[f];
      }
    }
  }

  /** For each fragment, index and key, the group lists exactly the blocks that hold it. */
  lemma {:induction false} BlocksAdded(blocks: BlockEntries, data: seq<BlockIndexes>, fid: nat, iid: nat, key: Scalar,
                                       m: nat)
    ensures m in RowsFor(WithBlocks(blocks, data), fid, iid, key) <==>
            m in RowsFor(blocks, fid, iid, key) || InBlocks(data, fid, iid, key, m)
    decreases |data|
  {
    hide InFragments, WithFragments;
    if data != [] {
      var before, last := data[..|data| - 1], data[|data| - 1];
      BlocksAdded(blocks, before, fid, iid, key, m);
      FragmentsAdded(WithBlocks(blocks, before), last.data, AsU32(last.cursor.number), fid, iid, key, m);
      assert InBlocks(data, fid, iid, key, m) <==>
             InBlocks(before, fid, iid, key, m)
             || (AsU32(last.cursor.number) == m && InFragments(last.data, fid, iid, key)) by {
        assert forall b :: 0 <= b < |before| ==> data[b] == before[b];
      }
    }
  }

  // ------------------------------------------------------------------ its shape

  /** Index ids count up from 0, no index is empty, and the keys of an index have its one variant. */
  ghost predicate IndexesOk(indexes: seq<Index>, fid: nat, kind: (nat, nat) -> nat) {
    forall i :: 0 <= i < |indexes| ==>
      && indexes[i].indexId == i && indexes[i].body.Bitmap? && WfIndex(indexes[i].body.bitmap)
      && forall key :: key in indexes[i].body.bitmap.keys ==> Variant(key) == kind(fid, i)
  }

  ghost predicate BlockOk(fragments: seq<IndexFragment>, kind: (nat, nat) -> nat) {
    forall f :: 0 <= f < |fragments| ==> IndexesOk(fragments[f].indexes, fragments[f].fragmentId, kind)
  }

  ghost predicate FragmentOk(fragment: FragmentEntries, fid: nat, kind: (nat, nat) -> nat) {
    && Dense(fragment.Keys, 0)
    && forall iid, key :: iid in fragment && key in fragment[iid] ==> Variant(key) == kind(fid, iid)
  }

  ghost predicate BlocksOk(blocks: BlockEntries, kind: (nat, nat) -> nat) {
    forall fid :: fid in blocks ==> FragmentOk(blocks[fid], fid, kind)
  }

  lemma {:induction false} WithIndexesOk(fragment: FragmentEntries, indexes: seq<Index>, n: nat, fid: nat,
                                         kind: (nat, nat) -> nat)
    requires FragmentOk(fragment, fid, kind) && IndexesOk(indexes, fid, kind)
    ensures FragmentOk(WithIndexes(fragment, indexes, n), fid, kind)
    ensures forall iid: nat :: iid in WithIndexes(fragment, indexes, n) <==> iid in fragment || iid < |indexes|
    decreases |indexes|
  {
    if indexes != [] {
      var init, last := indexes[..|indexes| - 1], indexes[|indexes| - 1];
      WithIndexesOk(fragment, init, n, fid, kind);
      var before := WithIndexes(fragment, init, n);
      forall key
        ensures key in WithKeys(EntriesAt(before, last.indexId), KeysOf(last), n) <==>
                key in EntriesAt(before, last.indexId) || key in KeysOf(last)
      {
        KeysAdded(EntriesAt(before, last.indexId), KeysOf(last), n, key, n);
      }
    }
  }

  ghost predicate HasId(fragments: seq<IndexFragment>, fid: nat) {
    exists f :: 0 <= f < |fragments| && fragments[f].fragmentId == fid
  }

  lemma {:induction false} WithFragmentsOk(blocks: BlockEntries, fragments: seq<IndexFragment>, n: nat,
                                           kind: (nat, nat) -> nat)
    requires BlocksOk(blocks, kind) && BlockOk(fragments, kind)
    ensures BlocksOk(WithFragments(blocks, fragments, n), kind)
    ensures forall fid :: fid in WithFragments(blocks, fragments, n) <==> fid in blocks || HasId(fragments, fid)
    decreases |fragments|
  {
    hide WithIndexes, FragmentOk, IndexesOk;
    if fragments != [] {
      var init, last := fragments[..|fragments| - 1], fragments[|fragments| - 1];
      assert forall f :: 0 <= f < |init| ==> fragments[f] == init[f];
      WithFragmentsOk(blocks, init, n, kind);
      var before := WithFragments(blocks, init, n);
      assert FragmentOk(map[], last.fragmentId, kind) by { EmptyFragmentOk(last.fragmentId, kind); }
      WithIndexesOk(FragmentAt(before, last.fragmentId), last.indexes, n, last.fragmentId, kind);
      assert fragments[|fragments| - 1] == last;
      assert forall fid :: HasId(fragments, fid) <==> fid == last.fragmentId || HasId(init, fid);
    }
  }

  lemma EmptyFragmentOk(fid: nat, kind: (nat, nat) -> nat)
    ensures FragmentOk(map[], fid, kind)
  {
  }

  ghost predicate HasFragment(data: seq<BlockIndexes>, fid: nat) {
    exists b :: 0 <= b < |data| && HasId(data[b].data, fid)
  }

  lemma {:induction false} WithBlocksOk(data: seq<BlockIndexes>, kind: (nat, nat) -> nat)
    requires forall b :: 0 <= b < |data| ==> BlockOk(data[b].data, kind)
    ensures BlocksOk(WithBlocks(map[], data), kind)
    ensures forall fid :: fid in WithBlocks(map[], data) <==> HasFragment(data, fid)
    decreases |data|
  {
    hide WithFragments, FragmentOk, BlockOk, HasId;
    if data != [] {
      var init, last := data[..|data| - 1], data[|data| - 1];
      assert forall b :: 0 <= b < |init| ==> data[b] == init[b];
      WithBlocksOk(init, kind);
      WithFragmentsOk(WithBlocks(map[], init), last.data, AsU32(last.cursor.number), kind);
      assert data[|data| - 1] == last;
      assert forall fid :: HasFragment(data, fid) <==> HasFragment(init, fid) || HasId(last.data, fid);
    }
  }

  ghost predicate InIds(indexes: seq<Index>, iid: nat) {
    exists i :: 0 <= i < |indexes| && indexes[i].indexId == iid
  }

  ghost predicate IdInFragments(fragments: seq<IndexFragment>, fid: nat, iid: nat) {
    exists f :: 0 <= f < |fragments| && fragments[f].fragmentId == fid && InIds(fragments[f].indexes, iid)
  }

  ghost predicate IdInBlocks(data: seq<BlockIndexes>, fid: nat, iid: nat) {
    exists b :: 0 <= b < |data| && IdInFragments(data[b].data, fid, iid)
  }

  lemma {:induction false} IndexIdsAdded(fragment: FragmentEntries, indexes: seq<Index>, n: nat, iid: nat)
    ensures iid in WithIndexes(fragment, indexes, n) <==> iid in fragment || InIds(indexes, iid)
    decreases |indexes|
  {
    if indexes != [] {
      var before := indexes[..|indexes| - 1];
      IndexIdsAdded(fragment, before, n, iid);
      assert forall i :: 0 <= i < |before| ==> indexes[i] == before[i];
    }
  }

  lemma {:induction false} FragmentIdsAdded(blocks: BlockEntries, fragments: seq<IndexFragment>, n: nat, fid: nat,
                                            iid: nat)
    ensures iid in FragmentAt(WithFragments(blocks, fragments, n), fid) <==>
            iid in FragmentAt(blocks, fid) || IdInFragments(fragments, fid, iid)
    decreases |fragments|
  {
    hide InIds, WithIndexes;
    if fragments != [] {
      var before, last := fragments[..|fragments| - 1], fragments[|fragments| - 1];
      FragmentIdsAdded(blocks, before, n, fid, iid);
      IndexIdsAdded(FragmentAt(WithFragments(blocks, before, n), last.fragmentId), last.indexes, n, iid);
      assert forall f :: 0 <= f < |before| ==> fragments[f] == before[f];
    }
  }

  /** The group has an index for every id that a block has one for. */
  lemma {:induction false} BlockIdsAdded(blocks: BlockEntries, data: seq<BlockIndexes>, fid: nat, iid: nat)
    ensures iid in FragmentAt(WithBlocks(blocks, data), fid) <==>
            iid in FragmentAt(blocks, fid) || IdInBlocks(data, fid, iid)
    decreases |data|
  {
    hide IdInFragments, WithFragments;
    if data != [] {
      var before, last := data[..|data| - 1], data[|data| - 1];
      BlockIdsAdded(blocks, before, fid, iid);
      FragmentIdsAdded(WithBlocks(blocks, before), last.data, AsU32(last.cursor.number), fid, iid);
      assert forall b :: 0 <= b < |before| ==> data[b] == before[b];
    }
  }

  /** Adding segments one after another is adding all their blocks. */
  lemma {:induction false} SegmentsJoin(blocks: BlockEntries, a: seq<BlockIndexes>, b: seq<BlockIndexes>)
    ensures WithBlocks(WithBlocks(blocks, a), b) == WithBlocks(blocks, a + b)
    decreases |b|
  {
    if b == [] {
      assert a + b == a;
    } else {
      SegmentsJoin(blocks, a, b[..|b| - 1]);
      assert (a + b)[..|a + b| - 1] == a + b[..|b| - 1];
    }
  }

  // ------------------------------------------------------------------ no false negatives

  lemma {:induction false} FoundById(fragments: seq<IndexFragment>, fid: nat)
    ensures FindIndex(fragments, fid).Ok? <==> HasId(fragments, fid)
    ensures FindIndex(fragments, fid).Ok? ==>
              FindIndex(fragments, fid).value.fragmentId == fid && FindIndex(fragments, fid).value in fragments
  {
    if fragments != [] {
      FoundById(fragments[1..], fid);
      if HasId(fragments, fid) && fragments[0].fragmentId != fid {
        var f :| 0 <= f < |fragments| && fragments[f].fragmentId == fid;
        assert fragments[1..][f - 1].fragmentId == fid;
      }
      if HasId(fragments[1..], fid) {
        var f :| 0 <= f < |fragments[1..]| && fragments[1..][f].fragmentId == fid;
        assert fragments[f + 1].fragmentId == fid;
      }
    }
  }

  /** The group's fragment is found under its id and covers the group's range. */
  lemma GroupFragmentFound(blocks: BlockEntries, first: nat, last: nat, fid: nat)
    requires fid in blocks && first <= last
    ensures FindIndex(BuildFragments(blocks, first, last), fid) ==
            Ok(IndexFragment(fid, AsU32(first), AsU32(last + 1 - first), BuildIndexes(blocks[fid])))
  {
    var built, ids := BuildFragments(blocks, first, last), Sorted(blocks.Keys);
    SortedHolds(blocks.Keys, fid);
    var i :| 0 <= i < |ids| && ids[i] == fid;
    assert built[i].fragmentId == fid;
    FoundById(built, fid);
    var found := FindIndex(built, fid).value;
    var j :| 0 <= j < |built| && built[j] == found;
    assert ids[j] == fid;
    if i < j { SortedAscends(blocks.Keys, i, j); }
    if j < i { SortedAscends(blocks.Keys, j, i); }
  }

  lemma OneKind(entries: Entries, variant: nat)
    requires forall key :: key in entries ==> Variant(key) == variant
    ensures WfIndex(Build(entries)) && OneVariant(Build(entries))
  {
    hide Build, WfIndex;
    BuiltHolds(entries, NullValue, 0);
    var keys := Build(entries).keys;
    assert forall i :: 0 <= i < |keys| ==> keys[i] in keys;
  }

  /** Positions in the group's index list are index ids, and each index says what its entries say. */
  lemma GroupIndexAt(fragment: FragmentEntries, fid: nat, kind: (nat, nat) -> nat, iid: nat)
    requires FragmentOk(fragment, fid, kind) && iid in fragment
    ensures var indexes := BuildIndexes(fragment);
            && iid < |indexes| && indexes[iid] == Index(iid, Bitmap(Build(fragment[iid])))
            && WfIndex(Build(fragment[iid])) && OneVariant(Build(fragment[iid]))
  {
    hide Build, WfIndex, OneVariant;
    var ids := Sorted(fragment.Keys);
    SortedHolds(fragment.Keys, iid);
    var i :| 0 <= i < |ids| && ids[i] == iid;
    SortedDense(fragment.Keys, 0, i);
    OneKind(fragment[iid], kind(fid, iid));
  }

  /** Where a group's blocks lie: within its range, and below 2^32. */
  ghost predicate InRange(data: seq<BlockIndexes>, first: nat, last: nat) {
    first <= last < 0x1_0000_0000 - 1 && forall b :: 0 <= b < |data| ==> first <= data[b].cursor.number <= last
  }

  lemma {:induction false} ConditionCarries(data: seq<BlockIndexes>, b: nat, f: nat, c: Condition, row: nat,
                                            kind: (nat, nat) -> nat)
    requires forall k :: 0 <= k < |data| ==> BlockOk(data[k].data, kind)
    requires b < |data| && f < |data[b].data| && data[b].cursor.number < 0x1_0000_0000
    requires Satisfies(c, data[b].data[f], row)
    ensures var fid := data[b].data[f].fragmentId;
            && fid in WithBlocks(map[], data) && c.indexId in WithBlocks(map[], data)[fid]
            && Holds(Build(WithBlocks(map[], data)[fid][c.indexId]), c.key, data[b].cursor.number)
  {
    hide WfIndex, WithBlocks, Build;
    var fid, n := data[b].data[f].fragmentId, data[b].cursor.number;
    var indexes := data[b].data[f].indexes;
    assert IndexesOk(indexes, fid, kind);
    assert c.key in KeysOf(indexes[c.indexId]);
    assert InIndexes(indexes, c.indexId, c.key);
    assert InFragments(data[b].data, fid, c.indexId, c.key);
    BlocksAdded(map[], data, fid, c.indexId, c.key, n);
    BuiltHolds(EntriesAt(FragmentAt(WithBlocks(map[], data), fid), c.indexId), c.key, n);
  }

  lemma NoWrap(n: nat)
    requires n < 0x1_0000_0000
    ensures AsU32(n) == n
  {
  }

  /** On the group's fragment a filter can be evaluated and selects the block. */
  lemma {:induction false} GroupFragmentMatches(data: seq<BlockIndexes>, first: nat, last: nat, b: nat, f: nat,
                                                filter: Filter, row: nat, kind: (nat, nat) -> nat)
    requires InRange(data, first, last) && b < |data| && f < |data[b].data|
    requires forall k :: 0 <= k < |data| ==> BlockOk(data[k].data, kind)
    requires Matches(filter, data[b].data[f], row)
    requires data[b].data[f].fragmentId in WithBlocks(map[], data)
    ensures var fid := data[b].data[f].fragmentId;
            var found := IndexFragment(fid, AsU32(first), AsU32(last + 1 - first),
                                       BuildIndexes(WithBlocks(map[], data)[fid]));
            Rows(filter, found).Ok? && data[b].cursor.number in Rows(filter, found).value
  {
    hide WfIndex, WithBlocks, Build, Rows, BlockOk, FragmentOk, BuildIndexes, OneVariant, AsU32, Holds;
    var fid, n, blocks := data[b].data[f].fragmentId, data[b].cursor.number, WithBlocks(map[], data);
    NoWrap(first);
    NoWrap(last + 1 - first);
    WithBlocksOk(data, kind);
    var found := IndexFragment(fid, AsU32(first), AsU32(last + 1 - first), BuildIndexes(blocks[fid]));
    forall c | c in filter.conditions
      ensures SearchableAt(found, c.indexId) && Satisfies(c, found, n)
    {
      ConditionCarries(data, b, f, c, row, kind);
      GroupIndexAt(blocks[fid], fid, kind, c.indexId);
    }
    FilterMeans(filter, found, n);
  }

  /**
   * No false negatives: if a filter matches any row of a block, the same filter on the group index selects the
   * block's number.
   */
  lemma {:induction false} GroupKeepsMatchingBlocks(data: seq<BlockIndexes>, first: Cursor, last: nat, b: nat,
                                                    filter: Filter, row: nat, kind: (nat, nat) -> nat)
    requires InRange(data, first.number, last) && b < |data|
    requires forall k :: 0 <= k < |data| ==> BlockOk(data[k].data, kind)
    requires FindIndex(data[b].data, filter.fragmentId).Ok?
             && Matches(filter, FindIndex(data[b].data, filter.fragmentId).value, row)
    ensures var group := BuildGroup(Some((first, last)), WithBlocks(map[], data)).value;
            && FindIndex(group.index, filter.fragmentId).Ok?
            && Rows(filter, FindIndex(group.index, filter.fragmentId).value).Ok?
            && data[b].cursor.number in Rows(filter, FindIndex(group.index, filter.fragmentId).value).value
  {
    hide WithBlocks, Rows, BlockOk, BuildIndexes, AsU32, Matches, BuildFragments, BlocksOk;
    var fid, blocks := filter.fragmentId, WithBlocks(map[], data);
    FoundById(data[b].data, fid);
    var f :| 0 <= f < |data[b].data| && data[b].data[f] == FindIndex(data[b].data, fid).value;
    WithBlocksOk(data, kind);
    assert HasId(data[b].data, fid) && HasFragment(data, fid);
    GroupFragmentFound(blocks, first.number, last, fid);
    GroupFragmentMatches(data, first.number, last, b, f, filter, row, kind);
  }

  /** A filter whose index ids some block has can be evaluated on the group. */
  lemma {:induction false} GroupIsSearchable(data: seq<BlockIndexes>, first: nat, last: nat, b: nat, filter: Filter,
                                             kind: (nat, nat) -> nat)
    requires b < |data| && first <= last && forall k :: 0 <= k < |data| ==> BlockOk(data[k].data, kind)
    requires FindIndex(data[b].data, filter.fragmentId).Ok?
    requires forall c :: c in filter.conditions ==>
               c.indexId < |FindIndex(data[b].data, filter.fragmentId).value.indexes|
    ensures var group := BuildFragments(WithBlocks(map[], data), first, last);
            FindIndex(group, filter.fragmentId).Ok? && Rows(filter, FindIndex(group, filter.fragmentId).value).Ok?
  {
    hide WithBlocks, Rows, BuildIndexes, AsU32, BuildFragments, FragmentOk, Build, WfIndex, OneVariant;
    var fid, blocks := filter.fragmentId, WithBlocks(map[], data);
    FoundById(data[b].data, fid);
    var f :| 0 <= f < |data[b].data| && data[b].data[f] == FindIndex(data[b].data, fid).value;
    WithBlocksOk(data, kind);
    assert HasId(data[b].data, fid) && HasFragment(data, fid);
    GroupFragmentFound(blocks, first, last, fid);
    var found := FindIndex(BuildFragments(blocks, first, last), fid).value;
    forall c | c in filter.conditions
      ensures SearchableAt(found, c.indexId)
    {
      assert IndexesOk(data[b].data[f].indexes, fid, kind);
      assert data[b].data[f].indexes[c.indexId].indexId == c.indexId;
      assert InIds(data[b].data[f].indexes, c.indexId) && IdInFragments(data[b].data, fid, c.indexId);
      BlockIdsAdded(map[], data, fid, c.indexId);
      GroupIndexAt(blocks[fid], fid, kind, c.indexId);
    }
    FilterMeans(filter, found, 0);
  }

  /** A block with one empty index. */
  const EMPTY_INDEXED: BlockIndexes := FragmentData(Cursor(7, []), [IndexFragment(2, 0, 1, [Index(0, EmptyIndex)])])

  lemma EmptyIndexAdded()
    ensures WithBlocks(map[], [EMPTY_INDEXED]) == map[2 := map[0 := map[]]]
  {
    var indexes, data := EMPTY_INDEXED.data[0].indexes, EMPTY_INDEXED.data;
    assert WithIndexes(map[], indexes[..0], 7) == map[];
    assert WithIndexes(map[], indexes, 7) == map[0 := map[]];
    assert WithFragments(map[], data[..0], 7) == map[];
    assert WithFragments(map[], data, 7) == map[2 := map[0 := map[]]];
    assert WithBlocks(map[], [EMPTY_INDEXED][..0]) == map[];
  }

  /** Why no index may be empty: the block's filter passes an empty index, the group's finds no key there. */
  lemma EmptyIndexHidesBlocks()
    ensures var filter := Filter(1, 2, [Condition(0, NullValue)], []);
            var group := BuildFragments(WithBlocks(map[], [EMPTY_INDEXED]), 7, 7);
            && Rows(filter, EMPTY_INDEXED.data[0]) == Ok({0})
            && FindIndex(group, 2).Ok? && Rows(filter, FindIndex(group, 2).value) == Ok({})
  {
    hide WithBlocks;
    EmptyIndexAdded();
    var blocks := WithBlocks(map[], [EMPTY_INDEXED]);
    assert Interval(0, 1) == {0};
    GroupFragmentFound(blocks, 7, 7, 2);
    assert Dense({0}, 0);
    assert blocks[2].Keys == {0};
    SortedHolds({0}, 0);
    SortedDense({0}, 0, 0);
  }
}
