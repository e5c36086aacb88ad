/** The whole segment stream against the block-by-block path, across the hand-over from groups to segments. */
module FastPathRefinement {
  import opened Core
  import opened Sorting
  import opened Fragments
  import opened Query
  import opened Watermarks
  import opened Filtering
  import opened GroupBuilder
  import opened SegmentStream
  import opened FastPath

  /**
   * Everything below the `segmented` watermark is stored as compaction leaves it: all segments up to it, and all
   * groups up to `top`, the highest value of the `grouped` watermark.
   */
  ghost predicate Served(w: World, filters: seq<BlockFilter>, names: set<nat>, kind: (nat, nat) -> nat, segmented: nat,
                         top: Option<nat>) {
    && ValidSizes(w.z) && Aligned(segmented, w.z.start, w.z.segmentSize) && segmented + 1 < 0x1_0000_0000
    && (forall k :: 0 <= k < |filters| ==> WfFilters(filters[k].filters))
    && {INDEX_FRAGMENT_ID, JOIN_FRAGMENT_ID, HEADER_FRAGMENT_ID} + AllNeeded(filters) <= names
    && AllFine(w, filters, names, kind, w.z.start, segmented + 1 - w.z.start)
    && (forall k: nat :: Edge(w.z.start, w.z.segmentSize, k) <= segmented ==>
        StoredSegment(w, Edge(w.z.start, w.z.segmentSize, k)))
    && (top.Some? ==>
          && Aligned(top.value, w.z.start, BlocksInGroup(w.z)) && top.value < segmented
          && forall k: nat :: Edge(w.z.start, BlocksInGroup(w.z), k) <= top.value ==>
            StoredGroup(w, Edge(w.z.start, BlocksInGroup(w.z), k)))
  }

  /** A value read for the `grouped` watermark. */
  ghost predicate GoodGrouped(w: World, top: Option<nat>, grouped: nat) {
    Aligned(grouped, w.z.start, BlocksInGroup(w.z)) && top.Some? && grouped <= top.value
  }

  // ------------------------------------------------------------------ what is needed is known

  lemma {:induction false} FiltersNeed(group: seq<IndexFragment>, id: nat, s: Selection, filters: seq<Filter>,
                                       allowed: set<nat>)
    requires s.needed <= allowed && id in allowed && forall f, to :: f in filters && to in f.joins ==> to in allowed
    ensures WithFilters(group, id, s, filters).needed <= allowed
    decreases |filters|
  {
    hide GroupRows;
    if filters != [] {
      var init := filters[..|filters| - 1];
      assert filters == init + [filters[|filters| - 1]];
      FiltersNeed(group, id, s, init, allowed);
    }
  }

  lemma {:induction false} IdsNeed(group: seq<IndexFragment>, filters: map<nat, seq<Filter>>, s: Selection,
                                   ids: seq<nat>, allowed: set<nat>)
    requires s.needed <= allowed && AllFragmentIds(filters) <= allowed && forall id :: id in ids ==> id in filters
    ensures WithIds(group, filters, s, ids).needed <= allowed
    decreases |ids|
  {
    hide WithFilters;
    if ids != [] {
      var init, id := ids[..|ids| - 1], ids[|ids| - 1];
      assert ids == init + [id];
      IdsNeed(group, filters, s, init, allowed);
      forall f, to | f in filters[id] && to in f.joins
        ensures to in AllFragmentIds(filters)
      {
      }
      FiltersNeed(group, id, WithIds(group, filters, s, init), filters[id], allowed);
    }
  }

  lemma {:induction false} SelectionNeeds(group: seq<IndexFragment>, s: Selection, filters: seq<BlockFilter>,
                                          first: nat, count: nat, allowed: set<nat>)
    requires s.needed <= allowed && AllNeeded(filters) <= allowed
    ensures WithBlockFilters(group, s, filters, first, count).needed <= allowed
    decreases |filters|
  {
    hide WithIds, U32Range, Sorted, AllFragmentIds;
    if filters != [] {
      var init, bf := filters[..|filters| - 1], filters[|filters| - 1];
      SelectionNeeds(group, s, init, first, count, allowed);
      forall id | id in Sorted(bf.filters.Keys)
        ensures id in bf.filters
      {
        SortedHolds(bf.filters.Keys, id);
      }
      IdsNeed(group, bf.filters, WithHeaders(bf.headerFilter, WithBlockFilters(group, s, init, first, count), first,
                                             count),
              Sorted(bf.filters.Keys), allowed);
    }
  }

  lemma {:induction false} AllNeededHolds(filters: seq<BlockFilter>, k: nat)
    requires k < |filters|
    ensures AllFragmentIds(filters[k].filters) <= AllNeeded(filters)
    decreases |filters|
  {
    hide AllFragmentIds;
    if k < |filters| - 1 { AllNeededHolds(filters[..|filters| - 1], k); }
  }

  /** A fragment with an entry is one the filters name. */
  lemma MatchedIsNeeded(a: Access, filters: seq<BlockFilter>, k: nat)
    requires k < |filters|
    ensures MatchedFragments(a, filters[k].filters) <= AllNeeded(filters)
  {
    hide RowsIn, MatchedFragments, AllNeeded;
    AllNeededHolds(filters, k);
    forall target | target in MatchedFragments(a, filters[k].filters)
      ensures target in AllFragmentIds(filters[k].filters)
    {
      MatchedMeans(a, filters[k].filters, target);
    }
  }

  // ------------------------------------------------------------------ one group of the stream

  lemma GroupServed(w: World, filters: seq<BlockFilter>, names: set<nat>, kind: (nat, nat) -> nat, segmented: nat,
                    top: Option<nat>, grouped: nat, g: nat)
    requires Served(w, filters, names, kind, segmented, top) && GoodGrouped(w, top, grouped)
             && Edge(w.z.start, BlocksInGroup(w.z), g) <= grouped
    ensures GroupReady(w, filters, names, kind, Edge(w.z.start, BlocksInGroup(w.z), g))
    ensures Edge(w.z.start, BlocksInGroup(w.z), g) + BlocksInGroup(w.z) <= grouped + 1
  {
    hide StoredSegment, StoredGroup, Edge, BlocksInGroup, BlockFine;
    var step, first := BlocksInGroup(w.z), Edge(w.z.start, BlocksInGroup(w.z), g);
    GroupIsPositive(w.z);
    var j: nat :| AlignedAt(grouped, w.z.start, step, j);
    EdgeOrder(w.z.start, step, g, j);
    EdgeMonotone(w.z.start, step, g, j);
    EdgeStep(w.z.start, step, 0);
    EdgeMonotone(w.z.start, step, 0, g);
    assert StoredGroup(w, first);
    assert first in w.groups by { GroupStored(w, first); }
  }

  lemma GroupStored(w: World, first: nat)
    requires ValidSizes(w.z) && StoredGroup(w, first)
    ensures first in w.groups
  {
  }

  /** One pass of the group loop sends what its blocks would. */
  lemma OneGroupIsSlow(w: World, filters: seq<BlockFilter>, names: set<nat>, kind: (nat, nat) -> nat, segmented: nat,
                       top: Option<nat>, grouped: nat, from: nat, g: nat)
    requires Served(w, filters, names, kind, segmented, top) && GoodGrouped(w, top, grouped)
             && Edge(w.z.start, BlocksInGroup(w.z), g) <= grouped
    ensures var first := Edge(w.z.start, BlocksInGroup(w.z), g);
            && OneGroup(w.z, filters, names, w.groups, first).Ok?
            && ConsumeFetches(w, filters, names, from, OneGroup(w.z, filters, names, w.groups, first).value) ==
               Slow(w, filters, names, from, first, BlocksInGroup(w.z))
  {
    hide StoredSegment, StoredGroup, Edge, BlockFine, GroupFetches, ConsumeFetches, Slow, SelectionOf, GroupEvaluates;
    var z, first := w.z, Edge(w.z.start, BlocksInGroup(w.z), g);
    GroupServed(w, filters, names, kind, segmented, top, grouped, g);
    ReadyMeans(w, filters, names, kind, first);
    GroupCanEvaluate(w, filters, names, kind, first);
    assert GroupSelection(w, filters, first).needed <= names by { GroupNeeds(w, filters, names, first); }
    forall j | 0 <= j < z.groupSize
      ensures StoredSegment(w, Edge(first, z.segmentSize, j))
    {
      SegmentInGroup(z, first, j);
      EdgeOfGroup(z, g);
      EdgeOfEdge(z.start, z.segmentSize, g * z.groupSize, j);
      assert StoredSegment(w, Edge(z.start, z.segmentSize, g * z.groupSize + j));
    }
    GroupFetchesAreSlow(w, filters, names, kind, from, first, z.groupSize);
  }

  lemma GroupNeeds(w: World, filters: seq<BlockFilter>, names: set<nat>, first: nat)
    requires first in w.groups && {INDEX_FRAGMENT_ID, JOIN_FRAGMENT_ID, HEADER_FRAGMENT_ID}
             + AllNeeded(filters) <= names
    ensures GroupSelection(w, filters, first).needed <= names
  {
    hide WithBlockFilters, AllNeeded;
    SelectionNeeds(w.groups[first], Selection({}, BaseFragments(filters)), filters, first, BlocksInGroup(w.z), names);
  }

  // ------------------------------------------------------------------ both phases

  /**
   * The group phase ends at the start of a group, not past the highest grouped block, having sent everything before.
   */
  ghost predicate PhaseIsSlow(w: World, filters: seq<BlockFilter>, names: set<nat>, top: Option<nat>, from: nat,
                              first: nat, phase: Result<Phase>, e: nat) {
    && phase.Ok? && !phase.value.stopped && phase.value.current == Edge(w.z.start, BlocksInGroup(w.z), e)
    && first <= phase.value.current
    && (phase.value.current == first || (top.Some? && phase.value.current <= top.value + 1))
    && ConsumeFetches(w, filters, names, from, phase.value.fetches) ==
      Slow(w, filters, names, from, first, phase.value.current - first)
  }

  lemma PhaseExtends(w: World, filters: seq<BlockFilter>, names: set<nat>, top: Option<nat>, from: nat, first: nat,
                     next: nat, fetches: seq<Fetch>, rest: Result<Phase>, e: nat)
    requires PhaseIsSlow(w, filters, names, top, from, next, rest, e) && first <= next && top.Some?
             && next <= top.value + 1
    requires ConsumeFetches(w, filters, names, from, fetches) == Slow(w, filters, names, from, first, next - first)
    ensures PhaseIsSlow(w, filters, names, top, from, first, After(fetches, rest), e)
  {
    hide ConsumeFetches, Slow, Edge, BlocksInGroup;
    ConsumeJoins(w, filters, names, from, fetches, rest.value.fetches);
    SlowJoins(w, filters, names, from, first, next - first, rest.value.current - next);
  }

  /** What is read for the grouped watermark after a group, and what is left to read. */
  ghost function NextGrouped(next: nat, grouped: nat, rereads: seq<Option<nat>>): (nat, seq<Option<nat>>) {
    if grouped == next && rereads != [] && rereads[0].Some? then (rereads[0].value, rereads[1..])
    else (grouped, rereads)
  }

  lemma GroupPhaseGoesOn(z: Sizes, filters: seq<BlockFilter>, names: set<nat>, groups: map<nat, seq<IndexFragment>>,
                         current: nat, grouped: nat, rereads: seq<Option<nat>>)
    requires ValidSizes(z) && current <= grouped && OneGroup(z, filters, names, groups, current).Ok?
    requires rereads != [] ==> rereads[0].Some?
    ensures var next := current + BlocksInGroup(z);
            GroupPhase(z, filters, names, groups, current, grouped, rereads) ==
            After(OneGroup(z, filters, names, groups, current).value,
                  GroupPhase(z, filters, names, groups, next, NextGrouped(next, grouped, rereads).0,
                             NextGrouped(next, grouped, rereads).1))
  {
    hide OneGroup, BlocksInGroup;
  }

  /** The group phase that starts at group `g` sends what its blocks would, and ends at group `e`. */
  ghost predicate GroupsAreSlow(w: World, filters: seq<BlockFilter>, names: set<nat>, top: Option<nat>, from: nat,
                                g: nat, grouped: nat, rereads: seq<Option<nat>>, e: nat) {
    && ValidSizes(w.z)
    && var first := Edge(w.z.start, BlocksInGroup(w.z), g);
       PhaseIsSlow(w, filters, names, top, from, first,
                   GroupPhase(w.z, filters, names, w.groups, first, grouped, rereads), e)
  }

  lemma GroupPhaseDone(w: World, filters: seq<BlockFilter>, names: set<nat>, top: Option<nat>, from: nat, g: nat,
                       grouped: nat, rereads: seq<Option<nat>>)
    requires ValidSizes(w.z) && Edge(w.z.start, BlocksInGroup(w.z), g) > grouped
    ensures GroupsAreSlow(w, filters, names, top, from, g, grouped, rereads, g)
  {
    hide OneGroup, BlocksInGroup, Edge, Slow, ConsumeFetches;
    NothingConsumed(w, filters, names, from, Edge(w.z.start, BlocksInGroup(w.z), g));
  }

  lemma GroupPhaseStep(w: World, filters: seq<BlockFilter>, names: set<nat>, kind: (nat, nat) -> nat, segmented: nat,
                       top: Option<nat>, from: nat, g: nat, grouped: nat, rereads: seq<Option<nat>>, e: nat)
    requires Served(w, filters, names, kind, segmented, top) && GoodGrouped(w, top, grouped)
    requires Edge(w.z.start, BlocksInGroup(w.z), g) <= grouped && (rereads != [] ==> rereads[0].Some?)
    requires var reread := NextGrouped(Edge(w.z.start, BlocksInGroup(w.z), g + 1), grouped, rereads);
             GroupsAreSlow(w, filters, names, top, from, g + 1, reread.0, reread.1, e)
    ensures GroupsAreSlow(w, filters, names, top, from, g, grouped, rereads, e)
  {
    hide Served, ConsumeFetches, Slow, Edge, BlocksInGroup, OneGroup, GroupPhase, PhaseIsSlow, Aligned;
    EdgeStep(w.z.start, BlocksInGroup(w.z), g);
    GroupServed(w, filters, names, kind, segmented, top, grouped, g);
    OneGroupIsSlow(w, filters, names, kind, segmented, top, grouped, from, g);
    var first := Edge(w.z.start, BlocksInGroup(w.z), g);
    var next := first + BlocksInGroup(w.z);
    var reread := NextGrouped(next, grouped, rereads);
    GroupPhaseGoesOn(w.z, filters, names, w.groups, first, grouped, rereads);
    PhaseExtends(w, filters, names, top, from, first, next, OneGroup(w.z, filters, names, w.groups, first).value,
                 GroupPhase(w.z, filters, names, w.groups, next, reread.0, reread.1), e);
  }

  lemma {:induction false} GroupPhaseIsSlow(w: World, filters: seq<BlockFilter>, names: set<nat>,
                                            kind: (nat, nat) -> nat, segmented: nat, top: Option<nat>, from: nat,
                                            g: nat, grouped: nat, rereads: seq<Option<nat>>) returns (e: nat)
    requires Served(w, filters, names, kind, segmented, top) && GoodGrouped(w, top, grouped)
    requires forall i :: 0 <= i < |rereads| ==> rereads[i].Some? && GoodGrouped(w, top, rereads[i].value)
    ensures GroupsAreSlow(w, filters, names, top, from, g, grouped, rereads, e)
    decreases |rereads|, if Edge(w.z.start, BlocksInGroup(w.z), g) <= grouped then
              grouped + 1 - Edge(w.z.start, BlocksInGroup(w.z), g) else 0
  {
    hide Served, Edge, BlocksInGroup, GroupsAreSlow, GoodGrouped;
    ServedSizes(w, filters, names, kind, segmented, top);
    GroupIsPositive(w.z);
    if Edge(w.z.start, BlocksInGroup(w.z), g) > grouped {
      e := g;
      GroupPhaseDone(w, filters, names, top, from, g, grouped, rereads);
    } else {
      EdgeStep(w.z.start, BlocksInGroup(w.z), g);
      var reread := NextGrouped(Edge(w.z.start, BlocksInGroup(w.z), g + 1), grouped, rereads);
      e := GroupPhaseIsSlow(w, filters, names, kind, segmented, top, from, g + 1, reread.0, reread.1);
      GroupPhaseStep(w, filters, names, kind, segmented, top, from, g, grouped, rereads, e);
    }
  }

  lemma ServedSizes(w: World, filters: seq<BlockFilter>, names: set<nat>, kind: (nat, nat) -> nat, segmented: nat,
                    top: Option<nat>)
    requires Served(w, filters, names, kind, segmented, top)
    ensures ValidSizes(w.z) && segmented + 1 < 0x1_0000_0000 && Aligned(segmented, w.z.start, w.z.segmentSize)
    ensures {INDEX_FRAGMENT_ID, JOIN_FRAGMENT_ID, HEADER_FRAGMENT_ID} + AllNeeded(filters) <= names
    ensures top.Some? ==> top.value < segmented
    ensures AllFine(w, filters, names, kind, w.z.start, segmented + 1 - w.z.start)
    ensures forall k: nat :: Edge(w.z.start, w.z.segmentSize, k) <= segmented ==>
              StoredSegment(w, Edge(w.z.start, w.z.segmentSize, k))
  {
    hide StoredSegment, StoredGroup, AllFine, AllNeeded;
    var k: nat :| AlignedAt(segmented, w.z.start, w.z.segmentSize, k);
    EdgeMonotone(w.z.start, w.z.segmentSize, 1, k);
    EdgeStep(w.z.start, w.z.segmentSize, 0);
  }

  /** One segment fetched whole. */
  lemma SegmentFetchIsSlow(w: World, filters: seq<BlockFilter>, names: set<nat>, kind: (nat, nat) -> nat,
                           segmented: nat, top: Option<nat>, from: nat, m: nat)
    requires Served(w, filters, names, kind, segmented, top) && Edge(w.z.start, w.z.segmentSize, m) <= segmented
    ensures var first := Edge(w.z.start, w.z.segmentSize, m);
            && first + w.z.segmentSize <= segmented + 1
            && ConsumeFetches(w, filters, names, from, [SegmentFetch(w.z, filters, first)]) ==
              Slow(w, filters, names, from, first, w.z.segmentSize)
  {
    hide Served, ConsumeFetches, Slow, Edge, StoredSegment, BlockFine, AllNeeded, MatchedFragments, U32Range, Quiet;
    ServedSizes(w, filters, names, kind, segmented, top);
    var size, first := w.z.segmentSize, Edge(w.z.start, w.z.segmentSize, m);
    var j: nat :| AlignedAt(segmented, w.z.start, size, j);
    EdgeOrder(w.z.start, size, m, j);
    EdgeMonotone(w.z.start, size, m, j);
    EdgeStep(w.z.start, size, 0);
    EdgeMonotone(w.z.start, size, 0, m);
    U32RangeIsRange(first, size);
    var wanted := SegmentFetch(w.z, filters, first).fragments;
    forall n, k | first <= n < first + size && 0 <= k < |filters|
      ensures MatchedFragments(OfBlock(w.block(n)), filters[k].filters) <= wanted
    {
      MatchedIsNeeded(OfBlock(w.block(n)), filters, k);
    }
    assert GoodFetch(w, filters, names, first, Interval(first, size), wanted);
    FetchIsSlow(w, filters, names, kind, from, first, Interval(first, size), wanted);
  }

  lemma {:induction false} SegmentPhaseIsSlow(w: World, filters: seq<BlockFilter>, names: set<nat>,
                                              kind: (nat, nat) -> nat, segmented: nat, top: Option<nat>, from: nat,
                                              m: nat)
    requires Served(w, filters, names, kind, segmented, top) && Edge(w.z.start, w.z.segmentSize, m) <= segmented + 1
    ensures ValidSizes(w.z)
    ensures var first := Edge(w.z.start, w.z.segmentSize, m);
            && SegmentPhase(w.z, filters, names, first, segmented).Ok?
            && ConsumeFetches(w, filters, names, from, SegmentPhase(w.z, filters, names, first, segmented).value) ==
               Slow(w, filters, names, from, first, segmented + 1 - first)
    decreases segmented + 1 - Edge(w.z.start, w.z.segmentSize, m)
  {
    hide Served, ConsumeFetches, Slow, Edge, AllNeeded, U32Range;
    ServedSizes(w, filters, names, kind, segmented, top);
    var size, first := w.z.segmentSize, Edge(w.z.start, w.z.segmentSize, m);
    if first > segmented {
      NothingConsumed(w, filters, names, from, first);
    } else {
      SegmentFetchIsSlow(w, filters, names, kind, segmented, top, from, m);
      EdgeStep(w.z.start, size, m);
      SegmentPhaseIsSlow(w, filters, names, kind, segmented, top, from, m + 1);
      var rest := SegmentPhase(w.z, filters, names, first + size, segmented).value;
      ConsumeJoins(w, filters, names, from, [SegmentFetch(w.z, filters, first)], rest);
      SlowJoins(w, filters, names, from, first, size, segmented + 1 - (first + size));
    }
  }

  // ------------------------------------------------------------------ the theorem

  /** Two stretches one after the other are all blocks from `from` on. */
  lemma SlowInTwo(w: World, filters: seq<BlockFilter>, names: set<nat>, from: nat, first: nat, mid: nat, end: nat)
    requires first <= mid <= end && first <= from <= end
    ensures Then(Slow(w, filters, names, from, first, mid - first), Slow(w, filters, names, from, mid, end - mid)) ==
            Slow(w, filters, names, from, from, end - from)
  {
    hide Slow;
    SlowJoins(w, filters, names, from, first, mid - first, end - mid);
    SlowJoins(w, filters, names, from, first, from - first, end - from);
    SlowBefore(w, filters, names, from, first, from - first);
    NothingThen(Slow(w, filters, names, from, from, end - from));
  }

  /** The segment phase may start where a group starts. */
  lemma SegmentsFromGroup(w: World, filters: seq<BlockFilter>, names: set<nat>, kind: (nat, nat) -> nat,
                          segmented: nat, top: Option<nat>, from: nat, current: nat, e: nat)
    requires Served(w, filters, names, kind, segmented, top) && current == Edge(w.z.start, BlocksInGroup(w.z), e)
             && current <= segmented + 1
    ensures ValidSizes(w.z) && SegmentPhase(w.z, filters, names, current, segmented).Ok?
    ensures ConsumeFetches(w, filters, names, from, SegmentPhase(w.z, filters, names, current, segmented).value) ==
            Slow(w, filters, names, from, current, segmented + 1 - current)
  {
    hide Served, ConsumeFetches, Slow, Edge, BlocksInGroup, SegmentPhase;
    ServedSizes(w, filters, names, kind, segmented, top);
    EdgeOfGroup(w.z, e);
    SegmentPhaseIsSlow(w, filters, names, kind, segmented, top, from, e * w.z.groupSize);
  }

  /** After the group phase the segment phase sends the rest, and nothing before `from` was sent. */
  lemma SegmentsFinish(w: World, filters: seq<BlockFilter>, names: set<nat>, kind: (nat, nat) -> nat, segmented: nat,
                       top: Option<nat>, from: nat, first: nat, phase: Phase, e: nat)
    requires Served(w, filters, names, kind, segmented, top) && first <= from <= segmented
    requires PhaseIsSlow(w, filters, names, top, from, first, Ok(phase), e)
    ensures ValidSizes(w.z) && SegmentPhase(w.z, filters, names, phase.current, segmented).Ok?
    ensures ConsumeFetches(w, filters, names, from, phase.fetches
                           + SegmentPhase(w.z, filters, names, phase.current, segmented).value) ==
            Slow(w, filters, names, from, from, segmented + 1 - from)
  {
    hide Served, ConsumeFetches, Slow, Edge, BlocksInGroup, SegmentPhase, Aligned;
    ServedSizes(w, filters, names, kind, segmented, top);
    SegmentsFromGroup(w, filters, names, kind, segmented, top, from, phase.current, e);
    ConsumeJoins(w, filters, names, from, phase.fetches,
                 SegmentPhase(w.z, filters, names, phase.current, segmented).value);
    SlowInTwo(w, filters, names, from, first, phase.current, segmented + 1);
  }

  /** The group phase of the stream, whether or not anything is grouped. */
  ghost function FirstPhase(w: World, filters: seq<BlockFilter>, names: set<nat>, from: nat, grouped: Option<nat>,
                            rereads: seq<Option<nat>>): Result<Phase>
    requires ValidSizes(w.z) && from >= w.z.start
  {
    var first := GroupStartBlock(w.z, from);
    if grouped.None? then Ok(Phase([], first, false))
    else GroupPhase(w.z, filters, names, w.groups, first, grouped.value, rereads)
  }

  lemma FirstPhaseIsSlow(w: World, filters: seq<BlockFilter>, names: set<nat>, kind: (nat, nat) -> nat, segmented: nat,
                         top: Option<nat>, from: nat, grouped: Option<nat>, rereads: seq<Option<nat>>) returns (e: nat)
    requires Served(w, filters, names, kind, segmented, top) && ValidSizes(w.z) && w.z.start <= from <= segmented
    requires grouped.Some? ==> GoodGrouped(w, top, grouped.value)
    requires forall i :: 0 <= i < |rereads| ==> rereads[i].Some? && GoodGrouped(w, top, rereads[i].value)
    ensures GroupStartBlock(w.z, from) <= from
    ensures PhaseIsSlow(w, filters, names, top, from, GroupStartBlock(w.z, from),
                        FirstPhase(w, filters, names, from, grouped, rereads), e)
  {
    hide Served, ConsumeFetches, Slow, Edge, BlocksInGroup, GroupPhase, GoodGrouped;
    GroupIsPositive(w.z);
    var g := StretchIndex(from, w.z.start, BlocksInGroup(w.z));
    if grouped.Some? {
      e := GroupPhaseIsSlow(w, filters, names, kind, segmented, top, from, g, grouped.value, rereads);
    } else {
      e := g;
      NothingConsumed(w, filters, names, from, GroupStartBlock(w.z, from));
    }
  }

  /**
   * For every list of filters, every block to start from and aligned watermarks, the segment stream and its
   * consumer send exactly the messages that filtering every block from there to `segmented` one by one would:
   * the same blocks, in the same order, with the same contents; and it fails exactly when that would.
   */
  lemma FastIsSlow(w: World, filters: seq<BlockFilter>, names: set<nat>, kind: (nat, nat) -> nat, segmented: nat,
                   top: Option<nat>, from: nat, grouped: Option<nat>, rereads: seq<Option<nat>>)
    requires Served(w, filters, names, kind, segmented, top) && w.z.start <= from <= segmented
    requires grouped.Some? ==> GoodGrouped(w, top, grouped.value)
    requires forall i :: 0 <= i < |rereads| ==> rereads[i].Some? && GoodGrouped(w, top, rereads[i].value)
    ensures ValidSizes(w.z)
    ensures var fetches := Streamed(w.z, filters, names, w.groups, from, grouped, rereads, Some(segmented));
            && fetches.Ok?
            && ConsumeFetches(w, filters, names, from, fetches.value) ==
              Slow(w, filters, names, from, from, segmented + 1 - from)
  {
    hide Served, ConsumeFetches, Slow, GroupPhase, SegmentPhase, GoodGrouped, GroupStartBlock;
    ServedSizes(w, filters, names, kind, segmented, top);
    var e := FirstPhaseIsSlow(w, filters, names, kind, segmented, top, from, grouped, rereads);
    var phase := FirstPhase(w, filters, names, from, grouped, rereads);
    SegmentsFinish(w, filters, names, kind, segmented, top, from, GroupStartBlock(w.z, from), phase.value, e);
  }
}
