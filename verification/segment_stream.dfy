/** Streaming from groups and segments (common/src/data_stream/segment_stream.rs). */
module SegmentStream {
  import opened Core
  import opened Sorting
  import opened Fragments
  import opened Query
  import opened Watermarks
  import opened GroupBuilder

  const GROUP_QUEUE_SIZE := 4

  /** What is asked of one segment: some of its blocks, and the fragments to fetch for them. */
  datatype Fetch = Fetch(first: nat, blocks: set<nat>, fragments: set<nat>)

  /** `from..to` after both ends were cast to 32 bits. */
  function U32Range(from: nat, to: nat): set<nat> {
    if AsU32(from) <= AsU32(to) then Interval(AsU32(from), AsU32(to) - AsU32(from)) else {}
  }

  lemma U32RangeIsRange(from: nat, count: nat)
    requires from + count < 0x1_0000_0000
    ensures U32Range(from, from + count) == Interval(from, count)
  {
    NoWrap(from);
    NoWrap(from + count);
  }

  // ------------------------------------------------------------------ what a group index selects

  predicate Evaluates(group: seq<IndexFragment>, id: nat, f: Filter) {
    FindIndex(group, id).Ok? && Rows(f, FindIndex(group, id).value).Ok?
  }

  function GroupRows(group: seq<IndexFragment>, id: nat, f: Filter): set<nat> {
    if Evaluates(group, id, f) then Rows(f, FindIndex(group, id).value).value else {}
  }

  /** The blocks with data so far, and the fragments to fetch for them. */
  datatype Selection = Selection(blocks: set<nat>, needed: set<nat>)

  /** A filter that finds nothing in the group needs nothing. */
  function WithFilter(group: seq<IndexFragment>, id: nat, s: Selection, f: Filter): Selection {
    var rows := GroupRows(group, id, f);
    if rows == {} then s else Selection(s.blocks + rows, s.needed + {id} + set to | to in f.joins)
  }

  function WithFilters(group: seq<IndexFragment>, id: nat, s: Selection, filters: seq<Filter>): Selection {
    if filters == [] then s
    else WithFilter(group, id, WithFilters(group, id, s, filters[..|filters| - 1]), filters[|filters| - 1])
  }

  function WithIds(group: seq<IndexFragment>, filters: map<nat, seq<Filter>>, s: Selection, ids: seq<nat>): Selection {
    if ids == [] then s
    else
      var id := ids[|ids| - 1];
      WithFilters(group, id, WithIds(group, filters, s, ids[..|ids| - 1]), FiltersOf(filters, id))
  }

  /** All blocks of the group if headers are always wanted. */
  function WithHeaders(header: HeaderFilter, s: Selection, first: nat, count: nat): Selection {
    if header.Always? then s.(blocks := s.blocks + U32Range(first, first + count)) else s
  }

  function WithBlockFilters(group: seq<IndexFragment>, s: Selection, filters: seq<BlockFilter>, first: nat,
                            count: nat): Selection {
    if filters == [] then s
    else
      var bf := filters[|filters| - 1];
      WithIds(group, bf.filters, WithHeaders(bf.headerFilter,
                                             WithBlockFilters(group, s, filters[..|filters| - 1], first, count), first,
                                             count),
              Sorted(bf.filters.Keys))
  }

  function SelectionOf(group: seq<IndexFragment>, filters: seq<BlockFilter>, first: nat, count: nat): Selection {
    WithBlockFilters(group, Selection({}, BaseFragments(filters)), filters, first, count)
  }

  function BaseFragments(filters: seq<BlockFilter>): set<nat> {
    if filters == [] then {HEADER_FRAGMENT_ID} else {INDEX_FRAGMENT_ID, JOIN_FRAGMENT_ID, HEADER_FRAGMENT_ID}
  }

  function AllNeeded(filters: seq<BlockFilter>): set<nat> {
    if filters == [] then {}
    else AllNeeded(filters[..|filters| - 1]) + AllFragmentIds(filters[|filters| - 1].filters)
  }

  /** Every filter can be evaluated on the group's index. */
  ghost predicate GroupEvaluates(group: seq<IndexFragment>, filters: seq<BlockFilter>) {
    forall k, id :: 0 <= k < |filters| && id in filters[k].filters ==> IdEvaluates(group, id, filters[k].filters[id])
  }

  ghost predicate IdEvaluates(group: seq<IndexFragment>, id: nat, filters: seq<Filter>) {
    FindIndex(group, id).Ok? && forall f :: f in filters ==> Evaluates(group, id, f)
  }

  /** The innermost loop: the filters of one fragment. */
  method SelectByFilters(group: seq<IndexFragment>, id: nat, filters: seq<Filter>, before: Selection)
    returns (r: Result<Selection>)
    ensures r.Ok? <==> IdEvaluates(group, id, filters)
    ensures r.Ok? ==> r.value == WithFilters(group, id, before, filters)
  {
    hide Rows;
    var found := FindIndex(group, id);
    if found.Rejected? {
      return Rejected;
    }
    var selection := before;
    for k := 0 to |filters|
      invariant selection == WithFilters(group, id, before, filters[..k])
      invariant forall f :: f in filters[..k] ==> Evaluates(group, id, f)
    {
      var f := filters[k];
      assert filters[..k + 1][..k] == filters[..k] && filters[..k + 1] == filters[..k] + [f];
      var rows := FilterRows(f, found.value);
      if rows.Rejected? {
        assert !Evaluates(group, id, f);
        return Rejected;
      }
      if rows.value != {} {
        selection := Selection(selection.blocks + rows.value, selection.needed + {id} + set to | to in f.joins);
      }
    }
    assert filters[..|filters|] == filters;
    r := Ok(selection);
  }

  method SelectByIds(group: seq<IndexFragment>, filters: map<nat, seq<Filter>>, before: Selection)
    returns (r: Result<Selection>)
    ensures r.Ok? <==> forall id :: id in filters ==> IdEvaluates(group, id, filters[id])
    ensures r.Ok? ==> r.value == WithIds(group, filters, before, Sorted(filters.Keys))
  {
    hide Sorted, IdEvaluates, WithFilters;
    var ids, selection := Sorted(filters.Keys), before;
    for k := 0 to |ids|
      invariant selection == WithIds(group, filters, before, ids[..k])
      invariant forall id :: id in ids[..k] && id in filters ==> IdEvaluates(group, id, filters[id])
    {
      var id := ids[k];
      SortedHolds(filters.Keys, id);
      assert ids[..k + 1][..k] == ids[..k] && ids[..k + 1] == ids[..k] + [id];
      var next := SelectByFilters(group, id, filters[id], selection);
      if next.Rejected? {
        return Rejected;
      }
      selection := next.value;
    }
    assert ids[..|ids|] == ids;
    forall id | id in filters
      ensures id in ids
    {
      SortedHolds(filters.Keys, id);
    }
    r := Ok(selection);
  }

  /** Uses the group's index to find the blocks with data and the fragments to fetch for them. */
  method SelectBlocks(group: seq<IndexFragment>, filters: seq<BlockFilter>, first: nat, count: nat)
    returns (r: Result<Selection>)
    ensures r.Ok? <==> GroupEvaluates(group, filters)
    ensures r.Ok? ==> r.value == SelectionOf(group, filters, first, count)
  {
    hide Sorted, IdEvaluates, WithIds, U32Range, BaseFragments;
    var selection := Selection({}, BaseFragments(filters));
    for k := 0 to |filters|
      invariant selection == WithBlockFilters(group, Selection({}, BaseFragments(filters)), filters[..k], first, count)
      invariant forall j, id :: 0 <= j < k && id in filters[j].filters ==>
                  IdEvaluates(group, id, filters[j].filters[id])
    {
      var bf := filters[k];
      assert filters[..k + 1][..k] == filters[..k];
      if bf.headerFilter.Always? {
        selection := selection.(blocks := selection.blocks + U32Range(first, first + count));
      }
      var next := SelectByIds(group, bf.filters, selection);
      if next.Rejected? {
        return Rejected;
      }
      selection := next.value;
    }
    assert filters[..|filters|] == filters;
    r := Ok(selection);
  }

  // ------------------------------------------------------------------ what the selection contains

  ghost predicate Within(s: Selection, t: Selection) {
    s.blocks <= t.blocks && s.needed <= t.needed
  }

  lemma {:induction false} FiltersOnlyAdd(group: seq<IndexFragment>, id: nat, s: Selection, filters: seq<Filter>)
    ensures Within(s, WithFilters(group, id, s, filters))
    decreases |filters|
  {
    if filters != [] { FiltersOnlyAdd(group, id, s, filters[..|filters| - 1]); }
  }

  lemma {:induction false} IdsOnlyAdd(group: seq<IndexFragment>, filters: map<nat, seq<Filter>>, s: Selection,
                                      ids: seq<nat>)
    ensures Within(s, WithIds(group, filters, s, ids))
    decreases |ids|
  {
    if ids != [] {
      var init := ids[..|ids| - 1];
      IdsOnlyAdd(group, filters, s, init);
      FiltersOnlyAdd(group, ids[|ids| - 1], WithIds(group, filters, s, init), FiltersOf(filters, ids[|ids| - 1]));
    }
  }

  /** What a filter finds in the group: the blocks, its fragment and the fragments it joins with. */
  ghost predicate Covers(s: Selection, group: seq<IndexFragment>, id: nat, f: Filter) {
    && GroupRows(group, id, f) <= s.blocks
    && (GroupRows(group, id, f) != {} ==> id in s.needed && forall to :: to in f.joins ==> to in s.needed)
  }

  lemma {:induction false} FiltersHold(group: seq<IndexFragment>, id: nat, s: Selection, filters: seq<Filter>,
                                       f: Filter)
    requires f in filters
    ensures Covers(WithFilters(group, id, s, filters), group, id, f)
    decreases |filters|
  {
    hide GroupRows;
    var init, last := filters[..|filters| - 1], filters[|filters| - 1];
    assert filters == init + [last];
    if f in init { FiltersHold(group, id, s, init, f); }
  }

  lemma {:induction false} IdsHold(group: seq<IndexFragment>, filters: map<nat, seq<Filter>>, s: Selection,
                                   ids: seq<nat>, id: nat, f: Filter)
    requires id in ids && f in FiltersOf(filters, id)
    ensures Covers(WithIds(group, filters, s, ids), group, id, f)
    decreases |ids|
  {
    hide GroupRows;
    var init, last := ids[..|ids| - 1], ids[|ids| - 1];
    assert ids == init + [last];
    var before := WithIds(group, filters, s, init);
    if last == id {
      FiltersHold(group, id, before, FiltersOf(filters, id), f);
    } else {
      IdsHold(group, filters, s, init, id, f);
      FiltersOnlyAdd(group, last, before, FiltersOf(filters, last));
    }
  }

  /** Every filter's findings are in the selection, and with headers always wanted so is every block. */
  lemma {:induction false} SelectionHolds(group: seq<IndexFragment>, s: Selection, filters: seq<BlockFilter>,
                                          first: nat, count: nat, k: nat)
    requires k < |filters|
    ensures var all := WithBlockFilters(group, s, filters, first, count);
            && Within(s, all)
            && (forall id, f :: id in filters[k].filters && f in filters[k].filters[id] ==> Covers(all, group, id, f))
            && (filters[k].headerFilter.Always? ==> U32Range(first, first + count) <= all.blocks)
    decreases |filters|
  {
    hide GroupRows, U32Range, Sorted;
    var init, bf := filters[..|filters| - 1], filters[|filters| - 1];
    var before := WithBlockFilters(group, s, init, first, count);
    var headed := WithHeaders(bf.headerFilter, before, first, count);
    var all := WithIds(group, bf.filters, headed, Sorted(bf.filters.Keys));
    IdsOnlyAdd(group, bf.filters, headed, Sorted(bf.filters.Keys));
    if k < |init| {
      SelectionHolds(group, s, init, first, count, k);
    } else {
      if init != [] { SelectionHolds(group, s, init, first, count, 0); }
      forall id, f | id in bf.filters && f in bf.filters[id]
        ensures Covers(all, group, id, f)
      {
        SortedHolds(bf.filters.Keys, id);
        IdsHold(group, bf.filters, headed, Sorted(bf.filters.Keys), id, f);
      }
    }
  }

  // ------------------------------------------------------------------ one group

  /** One fetch for each of the first `count` segments of a group that has blocks with data. */
  function GroupFetches(z: Sizes, s: Selection, names: set<nat>, first: nat, count: nat): Result<seq<Fetch>> {
    if count == 0 then Ok([])
    else
      var before, start := GroupFetches(z, s, names, first, count - 1), Edge(first, z.segmentSize, count - 1);
      var blocks := U32Range(start, start + z.segmentSize) * s.blocks;
      if before.Rejected? || blocks == {} then before
      else if !(s.needed <= names) then Rejected
      else Ok(before.value + [Fetch(start, blocks, s.needed)])
  }

  lemma {:induction false} GroupFetchesStopped(z: Sizes, s: Selection, names: set<nat>, first: nat, count: nat,
                                               more: nat)
    requires count <= more && GroupFetches(z, s, names, first, count).Rejected?
    ensures GroupFetches(z, s, names, first, more).Rejected?
    decreases more
  {
    if count < more { GroupFetchesStopped(z, s, names, first, count, more - 1); }
  }

  method FetchGroup(z: Sizes, s: Selection, names: set<nat>, first: nat) returns (r: Result<seq<Fetch>>)
    ensures r == GroupFetches(z, s, names, first, z.groupSize)
  {
    hide U32Range;
    var fetches := [];
    for offset := 0 to z.groupSize
      invariant GroupFetches(z, s, names, first, offset) == Ok(fetches)
    {
      var start := first + offset * z.segmentSize;
      var blocks := U32Range(start, start + z.segmentSize) * s.blocks;
      if blocks != {} {
        if !(s.needed <= names) {
          GroupFetchesStopped(z, s, names, first, offset + 1, z.groupSize);
          return Rejected;
        }
        fetches := fetches + [Fetch(start, blocks, s.needed)];
      }
    }
    r := Ok(fetches);
  }

  // ------------------------------------------------------------------ the group phase

  datatype Phase = Phase(fetches: seq<Fetch>, current: nat, stopped: bool)

  function After(fetches: seq<Fetch>, rest: Result<Phase>): Result<Phase> {
    if rest.Rejected? then Rejected else Ok(rest.value.(fetches := fetches + rest.value.fetches))
  }

  ghost function OneGroup(z: Sizes, filters: seq<BlockFilter>, names: set<nat>, groups: map<nat, seq<IndexFragment>>,
                          current: nat): Result<seq<Fetch>> {
    if current !in groups || !GroupEvaluates(groups[current], filters) then Rejected
    else GroupFetches(z, SelectionOf(groups[current], filters, current, BlocksInGroup(z)), names, current, z.groupSize)
  }

  /** `rereads` are the answers to reading the grouped cursor again; when they are used up it has not changed. */
  ghost function GroupPhase(z: Sizes, filters: seq<BlockFilter>, names: set<nat>, groups: map<nat, seq<IndexFragment>>,
                            current: nat, grouped: nat, rereads: seq<Option<nat>>): Result<Phase>
    requires ValidSizes(z)
    decreases |rereads|, if current <= grouped then grouped + 1 - current else 0
  {
    GroupIsPositive(z);
    if current > grouped then Ok(Phase([], current, false))
    else
      var fetches, next := OneGroup(z, filters, names, groups, current), current + BlocksInGroup(z);
      if fetches.Rejected? then Rejected
      else if grouped == next && rereads != [] then
        if rereads[0].None? then Ok(Phase(fetches.value, next, true))
        else After(fetches.value, GroupPhase(z, filters, names, groups, next, rereads[0].value, rereads[1..]))
      else After(fetches.value, GroupPhase(z, filters, names, groups, next, grouped, rereads))
  }

  /** The prefetch queue holds the next groups in order. */
  ghost predicate InQueue(z: Sizes, queue: seq<nat>, current: nat, next: nat) {
    next == Edge(current, BlocksInGroup(z), |queue|) && forall i :: 0 <= i < |queue| ==>
      queue[i] == Edge(current, BlocksInGroup(z), i)
  }

  lemma QueuePops(z: Sizes, queue: seq<nat>, current: nat, next: nat)
    requires InQueue(z, queue, current, next) && queue != []
    ensures queue[0] == current && InQueue(z, queue[1..], current + BlocksInGroup(z), next)
  {
    hide BlocksInGroup;
    var step, rest := BlocksInGroup(z), queue[1..];
    EdgeStep(current, step, 0);
    forall i | 0 <= i < |rest|
      ensures rest[i] == Edge(current + step, step, i)
    {
      EdgeShift(current, step, i);
    }
    EdgeShift(current, step, |rest|);
  }

  lemma EdgeShift(start: nat, step: nat, i: nat)
    ensures Edge(start + step, step, i) == Edge(start, step, i + 1)
  {
  }

  lemma AfterJoins(a: seq<Fetch>, b: seq<Fetch>, rest: Result<Phase>)
    ensures After(a, After(b, rest)) == After(a + b, rest) && After([], rest) == rest
  {
    if rest.Ok? {
      assert a + (b + rest.value.fetches) == a + b + rest.value.fetches;
      assert [] + rest.value.fetches == rest.value.fetches;
    }
  }

  method FillQueue(z: Sizes, queue: seq<nat>, current: nat, next: nat, grouped: nat)
    returns (queue': seq<nat>, next': nat)
    requires ValidSizes(z) && InQueue(z, queue, current, next) && current <= grouped && |queue| <= GROUP_QUEUE_SIZE
    ensures InQueue(z, queue', current, next') && queue' != [] && |queue'| <= GROUP_QUEUE_SIZE
  {
    hide BlocksInGroup;
    queue', next' := queue, next;
    while |queue'| < GROUP_QUEUE_SIZE && next' <= grouped
      invariant InQueue(z, queue', current, next') && |queue'| <= GROUP_QUEUE_SIZE
      decreases GROUP_QUEUE_SIZE - |queue'|
    {
      EdgeStep(current, BlocksInGroup(z), |queue'|);
      queue', next' := queue' + [next'], next' + BlocksInGroup(z);
    }
    EdgeStep(current, BlocksInGroup(z), 0);
  }

  /** The group phase as the source runs it, with groups fetched ahead; the order check never fails. */
  method RunGroups(z: Sizes, filters: seq<BlockFilter>, names: set<nat>, groups: map<nat, seq<IndexFragment>>,
                   first: nat, firstGrouped: nat, rereads: seq<Option<nat>>) returns (r: Result<Phase>)
    requires ValidSizes(z)
    ensures r == GroupPhase(z, filters, names, groups, first, firstGrouped, rereads)
  {
    hide InQueue, GroupFetches, GroupEvaluates, SelectionOf, BlocksInGroup;
    var current: nat, grouped: nat, next: nat, used: nat := first, firstGrouped, first, 0;
    var queue: seq<nat>, fetches: seq<Fetch> := [], [];
    assert InQueue(z, [], first, first) by { EmptyQueue(z, first); }
    assert rereads[0..] == rereads;
    AfterJoins([], [], GroupPhase(z, filters, names, groups, first, firstGrouped, rereads));
    while current <= grouped
      invariant InQueue(z, queue, current, next) && |queue| <= GROUP_QUEUE_SIZE && used <= |rereads|
      invariant GroupPhase(z, filters, names, groups, first, firstGrouped, rereads) ==
                After(fetches, GroupPhase(z, filters, names, groups, current, grouped, rereads[used..]))
      decreases |rereads| - used, if current <= grouped then grouped + 1 - current else 0
    {
      GroupIsPositive(z);
      queue, next := FillQueue(z, queue, current, next, grouped);
      QueuePops(z, queue, current, next);
      var fetched := queue[0];
      queue := queue[1..];
      if fetched != current {
        assert false;
        return Rejected;
      }
      if current !in groups {
        return Rejected;
      }
      var selection := SelectBlocks(groups[current], filters, current, BlocksInGroup(z));
      if selection.Rejected? {
        return Rejected;
      }
      var found := FetchGroup(z, selection.value, names, current);
      if found.Rejected? {
        return Rejected;
      }
      ghost var before, left := fetches, rereads[used..];
      assert OneGroup(z, filters, names, groups, current) == found;
      fetches := fetches + found.value;
      current := current + BlocksInGroup(z);
      if grouped == current && used < |rereads| {
        assert left != [] && left[0] == rereads[used] && left[1..] == rereads[used + 1..];
        if rereads[used].None? {
          return Ok(Phase(fetches, current, true));
        }
        AfterJoins(before, found.value, GroupPhase(z, filters, names, groups, current, rereads[used].value, left[1..]));
        grouped, used := rereads[used].value, used + 1;
      } else {
        AfterJoins(before, found.value, GroupPhase(z, filters, names, groups, current, grouped, left));
      }
    }
    assert fetches + [] == fetches;
    r := Ok(Phase(fetches, current, false));
  }

  lemma EmptyQueue(z: Sizes, first: nat)
    ensures InQueue(z, [], first, first)
  {
  }

  // ------------------------------------------------------------------ the segment phase

  /** Every fragment any filter may use. */
  function SegmentFetch(z: Sizes, filters: seq<BlockFilter>, current: nat): Fetch {
    Fetch(current, U32Range(current, current + z.segmentSize),
          {INDEX_FRAGMENT_ID, JOIN_FRAGMENT_ID, HEADER_FRAGMENT_ID} + AllNeeded(filters))
  }

  function SegmentPhase(z: Sizes, filters: seq<BlockFilter>, names: set<nat>, current: nat,
                        segmented: nat): Result<seq<Fetch>>
    requires ValidSizes(z)
    decreases if current <= segmented then segmented + 1 - current else 0
  {
    if current > segmented then Ok([])
    else if !(SegmentFetch(z, filters, current).fragments <= names) then Rejected
    else
      match SegmentPhase(z, filters, names, current + z.segmentSize, segmented)
      case Rejected => Rejected
      case Ok(rest) => Ok([SegmentFetch(z, filters, current)] + rest)
  }

  method NeededFragments(filters: seq<BlockFilter>) returns (needed: set<nat>)
    ensures needed == {INDEX_FRAGMENT_ID, JOIN_FRAGMENT_ID, HEADER_FRAGMENT_ID} + AllNeeded(filters)
  {
    needed := {INDEX_FRAGMENT_ID, JOIN_FRAGMENT_ID, HEADER_FRAGMENT_ID};
    for k := 0 to |filters|
      invariant needed == {INDEX_FRAGMENT_ID, JOIN_FRAGMENT_ID, HEADER_FRAGMENT_ID} + AllNeeded(filters[..k])
    {
      assert filters[..k + 1][..k] == filters[..k];
      needed := needed + AllFragmentIds(filters[k].filters);
    }
    assert filters[..|filters|] == filters;
  }

  method RunSegments(z: Sizes, filters: seq<BlockFilter>, names: set<nat>, first: nat, segmented: nat)
    returns (r: Result<seq<Fetch>>)
    requires ValidSizes(z)
    ensures r == SegmentPhase(z, filters, names, first, segmented)
  {
    hide U32Range, AllNeeded;
    var current: nat, fetches: seq<Fetch> := first, [];
    ghost var whole := SegmentPhase(z, filters, names, first, segmented);
    assert whole.Ok? ==> [] + whole.value == whole.value;
    while current <= segmented
      invariant SegmentPhase(z, filters, names, first, segmented) ==
                match SegmentPhase(z, filters, names, current,
                                   segmented) { case Rejected => Rejected case Ok(rest) => Ok(fetches + rest) }
      decreases if current <= segmented then segmented + 1 - current else 0
    {
      var needed := NeededFragments(filters);
      if !(needed <= names) {
        return Rejected;
      }
      var fetch := Fetch(current, U32Range(current, current + z.segmentSize), needed);
      assert forall rest :: fetches + ([fetch] + rest) == fetches + [fetch] + rest;
      fetches := fetches + [fetch];
      current := current + z.segmentSize;
    }
    assert fetches + [] == fetches;
    r := Ok(fetches);
  }

  // ------------------------------------------------------------------ the stream

  /** Everything asked for, in order: groups up to the grouped cursor, then single segments up to the segmented one. */
  ghost function Streamed(z: Sizes, filters: seq<BlockFilter>, names: set<nat>, groups: map<nat, seq<IndexFragment>>,
                          from: nat, grouped: Option<nat>, rereads: seq<Option<nat>>,
                          segmented: Option<nat>): Result<seq<Fetch>>
    requires ValidSizes(z) && from >= z.start
  {
    var first := GroupStartBlock(z, from);
    var phase := if grouped.None? then Ok(Phase([], first, false))
    else GroupPhase(z, filters, names, groups, first, grouped.value, rereads);
    if phase.Rejected? then Rejected
    else if phase.value.stopped || segmented.None? then Ok(phase.value.fetches)
    else
      match SegmentPhase(z, filters, names, phase.value.current, segmented.value)
      case Rejected => Rejected
      case Ok(rest) => Ok(phase.value.fetches + rest)
  }

  method Start(z: Sizes, filters: seq<BlockFilter>, names: set<nat>, groups: map<nat, seq<IndexFragment>>, from: nat,
               grouped: Option<nat>, rereads: seq<Option<nat>>, segmented: Option<nat>) returns (r: Result<seq<Fetch>>)
    requires ValidSizes(z) && from >= z.start
    ensures r == Streamed(z, filters, names, groups, from, grouped, rereads, segmented)
  {
    hide GroupPhase, SegmentPhase, GroupStartBlock;
    var current, fetches := GroupStartBlock(z, from), [];
    if grouped.Some? {
      var phase := RunGroups(z, filters, names, groups, current, grouped.value, rereads);
      if phase.Rejected? {
        return Rejected;
      }
      if phase.value.stopped {
        return Ok(phase.value.fetches);
      }
      current, fetches := phase.value.current, phase.value.fetches;
    }
    if segmented.None? {
      return Ok(fetches);
    }
    var rest := RunSegments(z, filters, names, current, segmented.value);
    if rest.Rejected? {
      return Rejected;
    }
    r := Ok(fetches + rest.value);
  }
}
