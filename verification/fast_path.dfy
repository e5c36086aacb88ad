/**
 * The fast path sends what the slow one would: streaming from group indexes and segments gives the same messages,
 * in the same order, as filtering every block on its own (common/src/data_stream).
 */
module FastPath {
  import opened Core
  import opened Sorting
  import opened Indexes
  import opened Fragments
  import opened Query
  import opened Watermarks
  import opened Filtering
  import opened FilterFragment
  import opened FilterAgreement
  import opened SegmentBuilding
  import opened GroupBuilder
  import opened SegmentStream

  /** The finalized blocks, and the segments and groups made of them. */
  datatype World = World(z: Sizes, block: nat -> Block, hash: nat -> Hash, segments: nat -> SegmentData,
                         groups: map<nat, seq<IndexFragment>>)

  /** What the filters make of one block; a block is sent if any of them has data. */
  datatype Message = Message(number: nat, outputs: seq<Filtered>)

  ghost function Outputs(a: Access, filters: seq<BlockFilter>, names: set<nat>, isLive: bool): Result<seq<Filtered>> {
    if filters == [] then Ok([])
    else
      var before, last := Outputs(a, filters[..|filters| - 1], names, isLive),
        FilterBlock(a, filters[|filters| - 1], names, isLive);
      if before.Rejected? || last.Rejected? then Rejected else Ok(before.value + [last.value])
  }

  predicate HasData(outputs: seq<Filtered>) {
    exists i :: 0 <= i < |outputs| && outputs[i] != Filtered(None, [])
  }

  function Send(n: nat, outputs: seq<Filtered>): seq<Message> {
    if HasData(outputs) then [Message(n, outputs)] else []
  }

  /** What has been sent, up to the end or to an error. */
  datatype Sent = Sent(messages: seq<Message>, ok: bool)

  const NOTHING := Sent([], true)
  const FAILED := Sent([], false)

  /** One stretch after the other: after an error nothing more is sent. */
  function Then(a: Sent, b: Sent): Sent {
    if a.ok then Sent(a.messages + b.messages, b.ok) else a
  }

  lemma ThenJoins(a: Sent, b: Sent, c: Sent)
    ensures Then(Then(a, b), c) == Then(a, Then(b, c))
  {
    assert a.messages + b.messages + c.messages == a.messages + (b.messages + c.messages);
  }

  lemma NothingThen(a: Sent)
    ensures Then(NOTHING, a) == a == Then(a, NOTHING)
  {
    assert [] + a.messages == a.messages == a.messages + [];
  }

  // ------------------------------------------------------------------ the slow path

  ghost function MessageAt(w: World, filters: seq<BlockFilter>, names: set<nat>, from: nat,
                           n: nat): Sent {
    var outputs := Outputs(OfBlock(w.block(n)), filters, names, false);
    if n < from then NOTHING else if outputs.Rejected? then FAILED else Sent(Send(n, outputs.value), true)
  }

  /**
   * Every block of a range on its own, in order, leaving out those before `from`; one that cannot be filtered is an
   * error.
   */
  ghost function Slow(w: World, filters: seq<BlockFilter>, names: set<nat>, from: nat, first: nat,
                      count: nat): Sent
    decreases count
  {
    if count == 0 then NOTHING else Then(MessageAt(w, filters, names, from, first),
                                        Slow(w, filters, names, from, first + 1, count - 1))
  }

  lemma {:induction false} SlowJoins(w: World, filters: seq<BlockFilter>, names: set<nat>, from: nat, first: nat,
                                     a: nat, b: nat)
    ensures Then(Slow(w, filters, names, from, first, a), Slow(w, filters, names, from, first + a, b)) ==
            Slow(w, filters, names, from, first, a + b)
    decreases a
  {
    hide MessageAt, Then;
    var rest := Slow(w, filters, names, from, first + a, b);
    if a == 0 {
      NothingThen(rest);
    } else {
      SlowJoins(w, filters, names, from, first + 1, a - 1, b);
      ThenJoins(MessageAt(w, filters, names, from, first), Slow(w, filters, names, from, first + 1, a - 1), rest);
    }
  }

  lemma {:induction false} SlowBefore(w: World, filters: seq<BlockFilter>, names: set<nat>, from: nat, first: nat,
                                      count: nat)
    requires first + count <= from
    ensures Slow(w, filters, names, from, first, count) == NOTHING
    decreases count
  {
    if count > 0 {
      SlowBefore(w, filters, names, from, first + 1, count - 1);
      NothingThen(NOTHING);
    }
  }

  /** It fails exactly when some block from `from` on cannot be filtered. */
  lemma {:induction false} SlowFails(w: World, filters: seq<BlockFilter>, names: set<nat>, from: nat, first: nat,
                                     count: nat)
    ensures !Slow(w, filters, names, from, first, count).ok <==>
            exists n: nat ::
              first <= n < first + count && from <= n && Outputs(OfBlock(w.block(n)), filters, names, false).Rejected?
    decreases count
  {
    hide Outputs;
    if count > 0 { SlowFails(w, filters, names, from, first + 1, count - 1); }
  }

  // ------------------------------------------------------------------ the consumer of the segment stream

  /** The blocks of one fetch, in ascending order; those before `from` are passed over. */
  ghost function ConsumeRows(s: SegmentAccess, filters: seq<BlockFilter>, names: set<nat>, from: nat,
                             rows: seq<nat>): Sent {
    if rows == [] then NOTHING
    else
      var n, rest := rows[0], ConsumeRows(s, filters, names, from, rows[1..]);
      if n < from then rest
      else if n < s.firstBlock then FAILED
      else
        var outputs := Outputs(OfSegment(s, n - s.firstBlock), filters, names, false);
        if outputs.Rejected? then FAILED else Then(Sent(Send(n, outputs.value), true), rest)
  }

  ghost function ConsumeFetches(w: World, filters: seq<BlockFilter>, names: set<nat>, from: nat,
                                fetches: seq<Fetch>): Sent {
    if fetches == [] then NOTHING
    else
      var fetch := fetches[0];
      var s := Fetched(w.segments(fetch.first), fetch.fragments);
      Then(ConsumeRows(s, filters, names, from, Sorted(fetch.blocks)),
           ConsumeFetches(w, filters, names, from, fetches[1..]))
  }

  lemma {:induction false} ConsumeJoins(w: World, filters: seq<BlockFilter>, names: set<nat>, from: nat, a: seq<Fetch>,
                                        b: seq<Fetch>)
    ensures ConsumeFetches(w, filters, names, from, a + b) ==
            Then(ConsumeFetches(w, filters, names, from, a), ConsumeFetches(w, filters, names, from, b))
    decreases |a|
  {
    hide ConsumeRows, Sorted, Then;
    if a == [] {
      assert a + b == b;
      NothingThen(ConsumeFetches(w, filters, names, from, b));
    } else {
      ConsumeJoins(w, filters, names, from, a[1..], b);
      assert (a + b)[1..] == a[1..] + b && (a + b)[0] == a[0];
      ThenJoins(ConsumeRows(Fetched(w.segments(a[0].first), a[0].fragments), filters, names, from, Sorted(a[0].blocks)),
                ConsumeFetches(w, filters, names, from, a[1..]), ConsumeFetches(w, filters, names, from, b));
    }
  }

  // ------------------------------------------------------------------ what is stored

  function Range(w: World, first: nat, count: nat): seq<Added> {
    seq(count, i requires 0 <= i < count => Added(Cursor(first + i, w.hash(first + i)), w.block(first + i)))
  }

  /** The segment that starts at `first` was built from its blocks. */
  ghost predicate StoredSegment(w: World, first: nat) {
    var added := Range(w, first, w.z.segmentSize);
    Transposed(w.segments(first), Cursor(first, w.hash(first)), added) && OneEach(added)
  }

  /** The group that starts at `first` was built from the indexes of its blocks. */
  ghost predicate StoredGroup(w: World, first: nat)
    requires ValidSizes(w.z)
  {
    GroupIsPositive(w.z);
    && first in w.groups
    && w.groups[first] == BuildFragments(WithBlocks(map[], IndexesOf(Range(w, first, BlocksInGroup(w.z)))), first,
                                         first + BlocksInGroup(w.z) - 1)
  }

  /**
   * What the network code must provide of a block: fragments with distinct ids, dense bitmap indexes of one
   * variant each, and every index the filters use. Joins and body rows may be missing.
   */
  ghost predicate BlockFine(w: World, filters: seq<BlockFilter>, names: set<nat>, kind: (nat, nat) -> nat, n: nat) {
    && DistinctIds(w.block(n).body) && BlockOk(w.block(n).index, kind)
    && forall k, id, f :: 0 <= k < |filters| && id in filters[k].filters && f in filters[k].filters[id] ==>
      FilterFine(w, kind, n, id, f)
  }

  ghost predicate FilterFine(w: World, kind: (nat, nat) -> nat, n: nat, id: nat, f: Filter) {
    && f.fragmentId == id && GetIndexFragment(OfBlock(w.block(n)), id).Ok?
    && forall c :: c in f.conditions ==> c.indexId < |GetIndexFragment(OfBlock(w.block(n)), id).value.indexes|
  }

  // ------------------------------------------------------------------ one segment

  /** Reading block n through its segment gives the same outputs, if the bodies it needs were fetched. */
  lemma {:induction false} OutputsAgree(a: Access, b: Access, filters: seq<BlockFilter>, names: set<nat>,
                                        wanted: set<nat>)
    requires Agree(a, b, wanted) && forall k :: 0 <= k < |filters| ==> MatchedFragments(b, filters[k].filters) <= wanted
    ensures Outputs(a, filters, names, false) == Outputs(b, filters, names, false)
    decreases |filters|
  {
    hide FilterBlock, MatchedFragments, Agree;
    if filters != [] {
      var init := filters[..|filters| - 1];
      assert forall k :: 0 <= k < |init| ==> init[k] == filters[k];
      OutputsAgree(a, b, init, names, wanted);
      FilteredAgrees(a, b, wanted, filters[|filters| - 1], names, false);
    }
  }

  lemma SegmentAgrees(w: World, first: nat, wanted: set<nat>, i: nat)
    requires StoredSegment(w, first) && i < w.z.segmentSize
    requires forall n :: first <= n < first + w.z.segmentSize ==> DistinctIds(w.block(n).body)
    ensures Agree(OfSegment(Fetched(w.segments(first), wanted), i), OfBlock(w.block(first + i)), wanted)
    ensures Fetched(w.segments(first), wanted).firstBlock == first
  {
    hide GetIndexFragment, GetJoinFragment, GetHeaderFragment, GetBodyFragment, DistinctIds, OneEach;
    var d, added := w.segments(first), Range(w, first, w.z.segmentSize);
    forall k | 0 <= k < |added|
      ensures DistinctIds(added[k].block.body)
    {
      assert added[k].block == w.block(first + k);
    }
    var s, b := OfSegment(Fetched(d, wanted), i), OfBlock(w.block(first + i));
    assert added[i].block == w.block(first + i);
    SegmentReadsLikeBlocks(d, Cursor(first, w.hash(first)), added, wanted, i, 0);
    forall id
      ensures GetIndexFragment(s, id) == GetIndexFragment(b, id)
      ensures GetJoinFragment(s, id) == GetJoinFragment(b, id)
      ensures id in wanted ==> GetBodyFragment(s, id) == GetBodyFragment(b, id)
    {
      SegmentReadsLikeBlocks(d, Cursor(first, w.hash(first)), added, wanted, i, id);
    }
  }

  /** A fetch that leaves out only blocks with nothing to send, and brings along what the others need. */
  ghost predicate GoodFetch(w: World, filters: seq<BlockFilter>, names: set<nat>, first: nat, blocks: set<nat>,
                            wanted: set<nat>) {
    && blocks <= Interval(first, w.z.segmentSize)
    && forall n :: first <= n < first + w.z.segmentSize ==>
         if n in blocks then forall k :: 0 <= k < |filters| ==>
           MatchedFragments(OfBlock(w.block(n)), filters[k].filters) <= wanted
         else Quiet(w, filters, names, n)
  }

  ghost predicate Quiet(w: World, filters: seq<BlockFilter>, names: set<nat>, n: nat) {
    Outputs(OfBlock(w.block(n)), filters, names, false).Ok?
    && !HasData(Outputs(OfBlock(w.block(n)), filters, names, false).value)
  }

  lemma ConsumeOne(w: World, s: SegmentAccess, filters: seq<BlockFilter>, names: set<nat>, from: nat, n: nat,
                   rest: seq<nat>)
    requires n >= s.firstBlock
    requires Outputs(OfSegment(s, n - s.firstBlock), filters, names, false) ==
             Outputs(OfBlock(w.block(n)), filters, names, false)
    ensures ConsumeRows(s, filters, names, from, [n] + rest) ==
            Then(MessageAt(w, filters, names, from, n), ConsumeRows(s, filters, names, from, rest))
  {
    hide Outputs, Send;
    assert ([n] + rest)[1..] == rest;
    NothingThen(ConsumeRows(s, filters, names, from, rest));
  }

  lemma QuietSendsNothing(w: World, filters: seq<BlockFilter>, names: set<nat>, from: nat, n: nat)
    requires Quiet(w, filters, names, n)
    ensures MessageAt(w, filters, names, from, n) == NOTHING
  {
    hide Outputs;
  }

  /** The blocks of a good fetch from height `at` on send what the blocks of the segment from there on send. */
  lemma {:induction false} RowsAreSlow(w: World, filters: seq<BlockFilter>, names: set<nat>, kind: (nat, nat) -> nat,
                                       from: nat, first: nat, blocks: set<nat>, wanted: set<nat>, at: nat,
                                       left: set<nat>)
    requires StoredSegment(w, first) && GoodFetch(w, filters, names, first, blocks, wanted)
    requires forall n :: first <= n < first + w.z.segmentSize ==> BlockFine(w, filters, names, kind, n)
    requires first <= at <= first + w.z.segmentSize && left == (set n | n in blocks && n >= at)
    ensures ConsumeRows(Fetched(w.segments(first), wanted), filters, names, from, Sorted(left)) ==
            Slow(w, filters, names, from, at, first + w.z.segmentSize - at)
    decreases first + w.z.segmentSize - at
  {
    hide StoredSegment, Outputs, HasData, Quiet, MatchedFragments, Fetched, BlockFine, Sorted, ConsumeRows, Send,
         MessageAt;
    var s, end := Fetched(w.segments(first), wanted), first + w.z.segmentSize;
    if at == end {
      assert left == {};
      SortedNothing();
      ConsumeNothing(s, filters, names, from);
    } else {
      var rest := set n | n in blocks && n >= at + 1;
      RowsAreSlow(w, filters, names, kind, from, first, blocks, wanted, at + 1, rest);
      if at in left {
        assert rest == left - {at};
        SortedFirst(left, at);
        OneRow(w, filters, names, kind, first, blocks, wanted, at);
        ConsumeOne(w, s, filters, names, from, at, Sorted(rest));
      } else {
        assert rest == left;
        QuietSendsNothing(w, filters, names, from, at);
        NothingThen(Slow(w, filters, names, from, at + 1, end - at - 1));
      }
    }
  }

  lemma ConsumeNothing(s: SegmentAccess, filters: seq<BlockFilter>, names: set<nat>, from: nat)
    ensures ConsumeRows(s, filters, names, from, []) == NOTHING
  {
  }

  lemma SortedNothing()
    ensures Sorted({}) == []
  {
  }

  lemma {:induction false} SortedFirst(s: set<nat>, least: nat)
    requires least in s && forall n :: n in s ==> least <= n
    ensures Sorted(s) == [least] + Sorted(s - {least})
  {
    assert Least(s) == least;
  }

  lemma OneRow(w: World, filters: seq<BlockFilter>, names: set<nat>, kind: (nat, nat) -> nat, first: nat,
               blocks: set<nat>, wanted: set<nat>, n: nat)
    requires StoredSegment(w, first) && GoodFetch(w, filters, names, first, blocks, wanted) && n in blocks
    requires forall k :: first <= k < first + w.z.segmentSize ==> BlockFine(w, filters, names, kind, k)
    ensures Fetched(w.segments(first), wanted).firstBlock == first <= n
    ensures Outputs(OfSegment(Fetched(w.segments(first), wanted), n - first), filters, names, false) ==
            Outputs(OfBlock(w.block(n)), filters, names, false)
  {
    hide StoredSegment, Outputs, MatchedFragments, Fetched, FilterFine, Agree, Quiet;
    forall k | first <= k < first + w.z.segmentSize
      ensures DistinctIds(w.block(k).body)
    {
      assert BlockFine(w, filters, names, kind, k);
    }
    SegmentAgrees(w, first, wanted, n - first);
    OutputsAgree(OfSegment(Fetched(w.segments(first), wanted), n - first), OfBlock(w.block(n)), filters, names, wanted);
  }

  // ------------------------------------------------------------------ one group

  /** Everything the stream relies on for the blocks of a stretch. */
  ghost predicate AllFine(w: World, filters: seq<BlockFilter>, names: set<nat>, kind: (nat, nat) -> nat, first: nat,
                          count: nat) {
    forall n :: first <= n < first + count ==> BlockFine(w, filters, names, kind, n)
  }

  lemma BlockSearchable(indexes: IndexFragment, f: Filter, kind: (nat, nat) -> nat)
    requires IndexesOk(indexes.indexes, indexes.fragmentId, kind) && forall c :: c in f.conditions ==>
               c.indexId < |indexes.indexes|
    ensures Searchable(f, indexes)
  {
    hide WfIndex;
    forall c | c in f.conditions
      ensures SearchableAt(indexes, c.indexId)
    {
      var keys := indexes.indexes[c.indexId].body.bitmap.keys;
      assert forall i :: 0 <= i < |keys| ==> keys[i] in keys;
    }
  }

  lemma FineFilter(w: World, filters: seq<BlockFilter>, names: set<nat>, kind: (nat, nat) -> nat, n: nat, k: nat,
                   id: nat, f: Filter)
    requires BlockFine(w, filters, names, kind, n) && k < |filters| && id in filters[k].filters
             && f in filters[k].filters[id]
    ensures FilterFine(w, kind, n, id, f) && BlockOk(w.block(n).index, kind)
  {
    hide Outputs;
  }

  lemma MatchingRow(w: World, kind: (nat, nat) -> nat, n: nat, id: nat, f: Filter) returns (row: nat)
    requires FilterFine(w, kind, n, id, f) && BlockOk(w.block(n).index, kind) && RowsIn(OfBlock(w.block(n)), f) != {}
    ensures Matches(f, FindIndex(w.block(n).index, id).value, row)
  {
    hide Rows, IndexesOk, Matches, Searchable;
    var indexes := FindIndex(w.block(n).index, id).value;
    row :| row in RowsIn(OfBlock(w.block(n)), f);
    FoundById(w.block(n).index, id);
    BlockSearchable(indexes, f, kind);
    FilterMeans(f, indexes, row);
  }

  /** If a filter selects a row of a block, the group index selects the block. */
  lemma GroupSees(w: World, filters: seq<BlockFilter>, names: set<nat>, kind: (nat, nat) -> nat, first: nat, n: nat,
                  k: nat, id: nat, f: Filter)
    requires ValidSizes(w.z) && StoredGroup(w, first) && AllFine(w, filters, names, kind, first, BlocksInGroup(w.z))
    requires first + BlocksInGroup(w.z) < 0x1_0000_0000 && first <= n < first + BlocksInGroup(w.z)
    requires k < |filters| && id in filters[k].filters && f in filters[k].filters[id]
             && RowsIn(OfBlock(w.block(n)), f) != {}
    ensures n in GroupRows(w.groups[first], id, f)
  {
    hide BlockFine, FilterFine, WithBlocks, Rows, RowsIn, Matches, BuildFragments, BlocksInGroup, BlockOk;
    GroupIsPositive(w.z);
    var count := BlocksInGroup(w.z);
    var data := IndexesOf(Range(w, first, count));
    forall b | 0 <= b < |data|
      ensures BlockOk(data[b].data, kind)
    {
      assert BlockFine(w, filters, names, kind, first + b);
      FineFilter(w, filters, names, kind, first + b, k, id, f);
    }
    assert BlockFine(w, filters, names, kind, n);
    FineFilter(w, filters, names, kind, n, k, id, f);
    FineMeans(w, kind, n, id, f);
    var row := MatchingRow(w, kind, n, id, f);
    GroupKeepsMatchingBlocks(data, Cursor(first, w.hash(first)), first + count - 1, n - first, f, row, kind);
  }

  lemma FineMeans(w: World, kind: (nat, nat) -> nat, n: nat, id: nat, f: Filter)
    requires FilterFine(w, kind, n, id, f)
    ensures f.fragmentId == id && FindIndex(w.block(n).index, id).Ok?
    ensures forall c :: c in f.conditions ==> c.indexId < |FindIndex(w.block(n).index, id).value.indexes|
  {
  }

  /** Every filter can be evaluated on the group's index. */
  lemma GroupCanEvaluate(w: World, filters: seq<BlockFilter>, names: set<nat>, kind: (nat, nat) -> nat, first: nat)
    requires ValidSizes(w.z) && StoredGroup(w, first) && AllFine(w, filters, names, kind, first, BlocksInGroup(w.z))
    requires forall k :: 0 <= k < |filters| ==> WfFilters(filters[k].filters)
    ensures GroupEvaluates(w.groups[first], filters)
  {
    hide BlockFine, FilterFine, WithBlocks, Rows, BuildFragments, BlocksInGroup, BlockOk;
    GroupIsPositive(w.z);
    var count, group := BlocksInGroup(w.z), w.groups[first];
    var data := IndexesOf(Range(w, first, count));
    forall k, id | 0 <= k < |filters| && id in filters[k].filters
      ensures IdEvaluates(group, id, filters[k].filters[id])
    {
      forall f | f in filters[k].filters[id]
        ensures Evaluates(group, id, f)
      {
        forall b | 0 <= b < |data|
          ensures BlockOk(data[b].data, kind)
        {
          assert BlockFine(w, filters, names, kind, first + b);
          FineFilter(w, filters, names, kind, first + b, k, id, f);
        }
        assert BlockFine(w, filters, names, kind, first);
        FineFilter(w, filters, names, kind, first, k, id, f);
        FineMeans(w, kind, first, id, f);
        GroupIsSearchable(data, first, first + count - 1, 0, f, kind);
      }
      assert filters[k].filters[id] != [] && filters[k].filters[id][0] in filters[k].filters[id];
    }
  }

  ghost function GroupSelection(w: World, filters: seq<BlockFilter>, first: nat): Selection
    requires first in w.groups
  {
    SelectionOf(w.groups[first], filters, first, BlocksInGroup(w.z))
  }

  ghost predicate GroupReady(w: World, filters: seq<BlockFilter>, names: set<nat>, kind: (nat, nat) -> nat,
                             first: nat) {
    && ValidSizes(w.z) && StoredGroup(w, first) && AllFine(w, filters, names, kind, first, BlocksInGroup(w.z))
    && first + BlocksInGroup(w.z) < 0x1_0000_0000 && first in w.groups
    && forall k :: 0 <= k < |filters| ==> WfFilters(filters[k].filters)
  }

  lemma SeenIsSelected(w: World, filters: seq<BlockFilter>, names: set<nat>, kind: (nat, nat) -> nat, first: nat,
                       n: nat, k: nat, id: nat, f: Filter)
    requires GroupReady(w, filters, names, kind, first) && first <= n < first + BlocksInGroup(w.z)
    requires k < |filters| && id in filters[k].filters && f in filters[k].filters[id]
             && RowsIn(OfBlock(w.block(n)), f) != {}
    ensures var s := GroupSelection(w, filters, first);
            n in s.blocks && id in s.needed && forall to :: to in f.joins ==> to in s.needed
  {
    hide AllFine, StoredGroup, RowsIn, GroupRows, BlocksInGroup, U32Range, WithBlockFilters;
    GroupSees(w, filters, names, kind, first, n, k, id, f);
    SelectionHolds(w.groups[first], Selection({}, BaseFragments(filters)), filters, first, BlocksInGroup(w.z), k);
    assert Covers(GroupSelection(w, filters, first), w.groups[first], id, f);
  }

  /** What the selection needs is enough for every block of the group. */
  lemma NeededIsEnough(w: World, filters: seq<BlockFilter>, names: set<nat>, kind: (nat, nat) -> nat, first: nat,
                       n: nat, k: nat)
    requires GroupReady(w, filters, names, kind, first) && first <= n < first + BlocksInGroup(w.z) && k < |filters|
    ensures MatchedFragments(OfBlock(w.block(n)), filters[k].filters) <= GroupSelection(w, filters, first).needed
  {
    hide GroupReady, RowsIn, MatchedFragments, GroupSelection;
    assert first in w.groups by { ReadyMeans(w, filters, names, kind, first); }
    var a := OfBlock(w.block(n));
    forall target | target in MatchedFragments(a, filters[k].filters)
      ensures target in GroupSelection(w, filters, first).needed
    {
      MatchedMeans(a, filters[k].filters, target);
      var id, f :| id in filters[k].filters && f in filters[k].filters[id] && RowsIn(a, f) != {}
      && (id == target || target in f.joins);
      SeenIsSelected(w, filters, names, kind, first, n, k, id, f);
    }
  }

  lemma ReadyMeans(w: World, filters: seq<BlockFilter>, names: set<nat>, kind: (nat, nat) -> nat, first: nat)
    requires GroupReady(w, filters, names, kind, first)
    ensures first in w.groups && ValidSizes(w.z) && first + BlocksInGroup(w.z) < 0x1_0000_0000
    ensures forall k :: 0 <= k < |filters| ==> WfFilters(filters[k].filters)
    ensures AllFine(w, filters, names, kind, first, BlocksInGroup(w.z))
  {
  }

  /** The selection of a group leaves out only quiet blocks. */
  lemma UnselectedIsQuiet(w: World, filters: seq<BlockFilter>, names: set<nat>, kind: (nat, nat) -> nat, first: nat,
                          n: nat)
    requires GroupReady(w, filters, names, kind, first) && first <= n < first + BlocksInGroup(w.z)
    requires n !in GroupSelection(w, filters, first).blocks
    ensures Quiet(w, filters, names, n)
  {
    hide GroupReady, RowsIn, BlockFine, BlocksInGroup, U32Range, WithBlockFilters, GroupRows, Quiet;
    ReadyMeans(w, filters, names, kind, first);
    forall k, id, f | 0 <= k < |filters| && id in filters[k].filters && f in filters[k].filters[id]
      ensures RowsIn(OfBlock(w.block(n)), f) == {}
    {
      if RowsIn(OfBlock(w.block(n)), f) != {} { SeenIsSelected(w, filters, names, kind, first, n, k, id, f); }
    }
    U32RangeIsRange(first, BlocksInGroup(w.z));
    forall k | 0 <= k < |filters|
      ensures !filters[k].headerFilter.Always?
    {
      SelectionHolds(w.groups[first], Selection({}, BaseFragments(filters)), filters, first, BlocksInGroup(w.z), k);
    }
    assert BlockFine(w, filters, names, kind, n);
    FineEvaluates(w, filters, names, kind, n);
    QuietWithoutRows(w, filters, names, n);
  }

  /** Every filter can be evaluated on the block. */
  lemma FineEvaluates(w: World, filters: seq<BlockFilter>, names: set<nat>, kind: (nat, nat) -> nat, n: nat)
    requires BlockFine(w, filters, names, kind, n) && forall k :: 0 <= k < |filters| ==> WfFilters(filters[k].filters)
    ensures forall k :: 0 <= k < |filters| ==> Evaluable(OfBlock(w.block(n)), filters[k].filters)
  {
    hide BlockFine, FilterFine, Rows, GetIndexFragment;
    forall k, id | 0 <= k < |filters| && id in filters[k].filters
      ensures EvaluableAt(OfBlock(w.block(n)), id, filters[k].filters[id])
    {
      forall f | f in filters[k].filters[id]
        ensures GetIndexFragment(OfBlock(w.block(n)), id).Ok?
                && Rows(f, GetIndexFragment(OfBlock(w.block(n)), id).value).Ok?
      {
        FineFilter(w, filters, names, kind, n, k, id, f);
        FilterEvaluates(w, kind, n, id, f);
      }
      assert filters[k].filters[id][0] in filters[k].filters[id];
    }
  }

  lemma FilterEvaluates(w: World, kind: (nat, nat) -> nat, n: nat, id: nat, f: Filter)
    requires FilterFine(w, kind, n, id, f) && BlockOk(w.block(n).index, kind)
    ensures GetIndexFragment(OfBlock(w.block(n)), id).Ok?
            && Rows(f, GetIndexFragment(OfBlock(w.block(n)), id).value).Ok?
  {
    hide Rows, IndexesOk, Searchable;
    var indexes := FindIndex(w.block(n).index, id).value;
    FoundById(w.block(n).index, id);
    BlockSearchable(indexes, f, kind);
    FilterMeans(f, indexes, 0);
  }

  lemma {:induction false} NoOutputs(a: Access, filters: seq<BlockFilter>, names: set<nat>)
    requires forall k :: 0 <= k < |filters| ==> !filters[k].headerFilter.Always? && Evaluable(a, filters[k].filters)
    requires forall k, id, f :: 0 <= k < |filters| && id in filters[k].filters && f in filters[k].filters[id] ==>
               RowsIn(a, f) == {}
    ensures Outputs(a, filters, names, false).Ok?
    ensures forall i :: 0 <= i < |Outputs(a, filters, names, false).value| ==>
              Outputs(a, filters, names, false).value[i] == Filtered(None, [])
    decreases |filters|
  {
    hide RowsIn, FilterBlock, Evaluable;
    if filters != [] {
      var init := filters[..|filters| - 1];
      assert forall k :: 0 <= k < |init| ==> init[k] == filters[k];
      NoOutputs(a, init, names);
      NothingToSend(a, filters[|filters| - 1], names);
    }
  }

  lemma QuietWithoutRows(w: World, filters: seq<BlockFilter>, names: set<nat>, n: nat)
    requires forall k :: 0 <= k < |filters| ==>
               !filters[k].headerFilter.Always? && Evaluable(OfBlock(w.block(n)), filters[k].filters)
    requires forall k, id, f :: 0 <= k < |filters| && id in filters[k].filters && f in filters[k].filters[id] ==>
               RowsIn(OfBlock(w.block(n)), f) == {}
    ensures Quiet(w, filters, names, n)
  {
    hide RowsIn, Outputs, Evaluable;
    NoOutputs(OfBlock(w.block(n)), filters, names);
  }

  lemma {:induction false} QuietRange(w: World, filters: seq<BlockFilter>, names: set<nat>, from: nat, first: nat,
                                      count: nat)
    requires forall n :: first <= n < first + count ==> Quiet(w, filters, names, n)
    ensures Slow(w, filters, names, from, first, count) == NOTHING
    decreases count
  {
    hide Quiet, MessageAt;
    if count > 0 {
      assert Quiet(w, filters, names, first);
      QuietSendsNothing(w, filters, names, from, first);
      QuietRange(w, filters, names, from, first + 1, count - 1);
      NothingThen(NOTHING);
    }
  }

  /** Fetching one segment and consuming it is filtering its blocks one by one. */
  lemma FetchIsSlow(w: World, filters: seq<BlockFilter>, names: set<nat>, kind: (nat, nat) -> nat, from: nat,
                    first: nat, blocks: set<nat>, wanted: set<nat>)
    requires StoredSegment(w, first) && GoodFetch(w, filters, names, first, blocks, wanted)
    requires AllFine(w, filters, names, kind, first, w.z.segmentSize)
    ensures ConsumeFetches(w, filters, names, from, [Fetch(first, blocks, wanted)]) ==
            Slow(w, filters, names, from, first, w.z.segmentSize)
  {
    hide StoredSegment, BlockFine, Slow, ConsumeRows, Sorted;
    assert blocks == set n | n in blocks && n >= first;
    RowsAreSlow(w, filters, names, kind, from, first, blocks, wanted, first, blocks);
    NothingThen(Slow(w, filters, names, from, first, w.z.segmentSize));
    assert [Fetch(first, blocks, wanted)][1..] == [];
  }

  lemma GroupSegmentIsGood(w: World, filters: seq<BlockFilter>, names: set<nat>, kind: (nat, nat) -> nat, first: nat,
                           start: nat)
    requires GroupReady(w, filters, names, kind, first) && first <= start
             && start + w.z.segmentSize <= first + BlocksInGroup(w.z)
    ensures var s := GroupSelection(w, filters, first);
            GoodFetch(w, filters, names, start, U32Range(start, start + w.z.segmentSize) * s.blocks, s.needed)
  {
    hide GroupReady, MatchedFragments, Quiet, GroupSelection, BlocksInGroup, U32Range;
    ReadyMeans(w, filters, names, kind, first);
    U32RangeIsRange(start, w.z.segmentSize);
    forall n | start <= n < start + w.z.segmentSize
      ensures n in GroupSelection(w, filters, first).blocks || Quiet(w, filters, names, n)
    {
      if n !in GroupSelection(w, filters, first).blocks { UnselectedIsQuiet(w, filters, names, kind, first, n); }
    }
    forall n, k | start <= n < start + w.z.segmentSize && 0 <= k < |filters|
      ensures MatchedFragments(OfBlock(w.block(n)), filters[k].filters) <= GroupSelection(w, filters, first).needed
    {
      NeededIsEnough(w, filters, names, kind, first, n, k);
    }
  }

  function BlocksIn(z: Sizes, segments: nat): nat {
    segments * z.segmentSize
  }

  /** The fetches for the first `count` segments of a group send what the blocks of those segments would. */
  ghost predicate SegmentsServed(w: World, filters: seq<BlockFilter>, names: set<nat>, from: nat, first: nat,
                                 count: nat) {
    && first in w.groups
    && var fetches := GroupFetches(w.z, GroupSelection(w, filters, first), names, first, count);
       && fetches.Ok?
       && ConsumeFetches(w, filters, names, from, fetches.value) ==
         Slow(w, filters, names, from, first, BlocksIn(w.z, count))
  }

  lemma {:induction false} GroupFetchesAreSlow(w: World, filters: seq<BlockFilter>, names: set<nat>,
                                               kind: (nat, nat) -> nat, from: nat, first: nat, count: nat)
    requires first in w.groups && GroupSelection(w, filters, first).needed <= names && count <= w.z.groupSize
    requires GroupReady(w, filters, names, kind, first)
    requires forall j :: 0 <= j < count ==> StoredSegment(w, Edge(first, w.z.segmentSize, j))
    ensures SegmentsServed(w, filters, names, from, first, count)
    decreases count
  {
    hide GroupReady, StoredSegment, GroupSelection, U32Range, ConsumeFetches, Slow, GoodFetch, Edge, BlocksInGroup;
    ReadyMeans(w, filters, names, kind, first);
    if count == 0 {
      NothingConsumed(w, filters, names, from, first);
    } else {
      var size, s := w.z.segmentSize, GroupSelection(w, filters, first);
      var start := Edge(first, size, count - 1);
      GroupFetchesAreSlow(w, filters, names, kind, from, first, count - 1);
      SegmentInGroup(w.z, first, count - 1);
      SlowJoins(w, filters, names, from, first, (count - 1) * size, size);
      assert count * size == (count - 1) * size + size;
      GroupSegmentIsGood(w, filters, names, kind, first, start);
      var blocks := U32Range(start, start + size) * s.blocks;
      var before := GroupFetches(w.z, s, names, first, count - 1).value;
      assert AllFine(w, filters, names, kind, start, size);
      FetchIsSlow(w, filters, names, kind, from, start, blocks, s.needed);
      if blocks == {} {
        EmptyFetchIsQuiet(w, filters, names, start, s.needed);
        QuietRange(w, filters, names, from, start, size);
        NothingThen(Slow(w, filters, names, from, first, (count - 1) * size));
      } else {
        ConsumeJoins(w, filters, names, from, before, [Fetch(start, blocks, s.needed)]);
      }
    }
  }

  lemma NothingConsumed(w: World, filters: seq<BlockFilter>, names: set<nat>, from: nat, first: nat)
    ensures ConsumeFetches(w, filters, names, from, []) == NOTHING == Slow(w, filters, names, from, first, 0)
  {
  }

  lemma EmptyFetchIsQuiet(w: World, filters: seq<BlockFilter>, names: set<nat>, first: nat, wanted: set<nat>)
    requires GoodFetch(w, filters, names, first, {}, wanted)
    ensures forall n :: first <= n < first + w.z.segmentSize ==> Quiet(w, filters, names, n)
  {
    hide Quiet, MatchedFragments;
  }

  lemma SegmentInGroup(z: Sizes, first: nat, j: nat)
    requires ValidSizes(z) && j < z.groupSize
    ensures Edge(first, z.segmentSize, j) == first + j * z.segmentSize
    ensures first <= Edge(first, z.segmentSize, j)
            && Edge(first, z.segmentSize, j) + z.segmentSize <= first + BlocksInGroup(z)
  {
    EdgeMonotone(first, z.segmentSize, j, z.groupSize);
    EdgeStep(first, z.segmentSize, 0);
    EdgeMonotone(first, z.segmentSize, 0, j);
  }
}
