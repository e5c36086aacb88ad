/** What the segment stream fetches: exactly what its filters find in the groups (common/src/data_stream). */
module SegmentSelection {
  import opened Core
  import opened Sorting
  import opened Indexes
  import opened Fragments
  import opened Query
  import opened GroupBuilder
  import opened Watermarks
  import opened SegmentStream

  /** The group's own index of fragment `id` leads the filter to block `n`. */
  ghost predicate Finds(group: seq<IndexFragment>, id: nat, f: Filter, n: nat) {
    && FindIndex(group, id).Ok? && Rows(f, FindIndex(group, id).value).Ok?
    && n in Rows(f, FindIndex(group, id).value).value
  }

  /** A filter that finds something needs its fragment and those it asks for. */
  ghost predicate Needs(group: seq<IndexFragment>, id: nat, f: Filter, to: nat) {
    (to == id || to in f.joins) && exists n: nat :: Finds(group, id, f, n)
  }

  lemma OneMeans(group: seq<IndexFragment>, id: nat, s: Selection, f: Filter, n: nat, to: nat)
    ensures n in WithFilter(group, id, s, f).blocks <==> n in s.blocks || Finds(group, id, f, n)
    ensures to in WithFilter(group, id, s, f).needed <==> to in s.needed || Needs(group, id, f, to)
  {
    hide Rows, FindIndex;
    var rows := GroupRows(group, id, f);
    assert forall m: nat :: m in rows <==> Finds(group, id, f, m);
    if rows != {} {
      var m: nat :| m in rows;
      assert Finds(group, id, f, m);
    }
  }

  lemma {:induction false} FiltersMean(group: seq<IndexFragment>, id: nat, s: Selection, filters: seq<Filter>, n: nat,
                                       to: nat)
    ensures n in WithFilters(group, id, s, filters).blocks <==>
            n in s.blocks || exists f :: f in filters && Finds(group, id, f, n)
    ensures to in WithFilters(group, id, s, filters).needed <==>
            to in s.needed || exists f :: f in filters && Needs(group, id, f, to)
    decreases |filters|
  {
    hide Finds, Needs, WithFilter;
    if filters != [] {
      var init, last := filters[..|filters| - 1], filters[|filters| - 1];
      assert filters == init + [last] && last in filters;
      assert forall f :: f in init ==> f in filters;
      FiltersMean(group, id, s, init, n, to);
      OneMeans(group, id, WithFilters(group, id, s, init), last, n, to);
    }
  }

  /** Some filter of these fragments finds the block, or needs the fragment. */
  ghost predicate AnyFinds(group: seq<IndexFragment>, filters: map<nat, seq<Filter>>, ids: seq<nat>, n: nat) {
    exists id, f :: id in ids && f in FiltersOf(filters, id) && Finds(group, id, f, n)
  }

  ghost predicate AnyNeeds(group: seq<IndexFragment>, filters: map<nat, seq<Filter>>, ids: seq<nat>, to: nat) {
    exists id, f :: id in ids && f in FiltersOf(filters, id) && Needs(group, id, f, to)
  }

  lemma {:induction false} IdsMean(group: seq<IndexFragment>, filters: map<nat, seq<Filter>>, s: Selection,
                                   ids: seq<nat>, n: nat, to: nat)
    ensures n in WithIds(group, filters, s, ids).blocks <==> n in s.blocks || AnyFinds(group, filters, ids, n)
    ensures to in WithIds(group, filters, s, ids).needed <==> to in s.needed || AnyNeeds(group, filters, ids, to)
    decreases |ids|
  {
    hide Finds, Needs;
    if ids != [] {
      var init, last := ids[..|ids| - 1], ids[|ids| - 1];
      assert ids == init + [last] && last in ids;
      assert forall id :: id in init ==> id in ids;
      IdsMean(group, filters, s, init, n, to);
      FiltersMean(group, last, WithIds(group, filters, s, init), FiltersOf(filters, last), n, to);
    }
  }

  /** A block filter finds the block, or the block is one of the group's and all their headers are wanted. */
  ghost predicate Selects(group: seq<IndexFragment>, bf: BlockFilter, inGroup: bool, n: nat) {
    || (bf.headerFilter.Always? && inGroup)
    || exists id, f :: id in bf.filters && f in bf.filters[id] && Finds(group, id, f, n)
  }

  ghost predicate Asks(group: seq<IndexFragment>, bf: BlockFilter, to: nat) {
    exists id, f :: id in bf.filters && f in bf.filters[id] && Needs(group, id, f, to)
  }

  lemma OneFilterMeans(group: seq<IndexFragment>, s: Selection, bf: BlockFilter, first: nat, count: nat, n: nat,
                       to: nat)
    ensures var all := WithIds(group, bf.filters, WithHeaders(bf.headerFilter, s, first, count),
                               Sorted(bf.filters.Keys));
            && (n in all.blocks <==> n in s.blocks || Selects(group, bf, n in U32Range(first, first + count), n))
            && (to in all.needed <==> to in s.needed || Asks(group, bf, to))
  {
    hide Finds, Needs, Sorted, U32Range;
    IdsMean(group, bf.filters, WithHeaders(bf.headerFilter, s, first, count), Sorted(bf.filters.Keys), n, to);
    forall id: nat
      ensures id in Sorted(bf.filters.Keys) <==> id in bf.filters
    {
      SortedHolds(bf.filters.Keys, id);
    }
  }

  lemma {:induction false} BlockFiltersMean(group: seq<IndexFragment>, s: Selection, filters: seq<BlockFilter>,
                                            first: nat, count: nat, n: nat, to: nat)
    ensures var all := WithBlockFilters(group, s, filters, first, count);
            && (n in all.blocks <==>
                n in s.blocks || exists k :: 0 <= k < |filters| &&
                                            Selects(group, filters[k], n in U32Range(first, first + count), n))
            && (to in all.needed <==> to in s.needed || exists k :: 0 <= k < |filters| && Asks(group, filters[k], to))
    decreases |filters|
  {
    hide Selects, Asks, WithIds, WithHeaders, Sorted;
    if filters != [] {
      var init, bf := filters[..|filters| - 1], filters[|filters| - 1];
      assert forall k :: 0 <= k < |init| ==> init[k] == filters[k];
      BlockFiltersMean(group, s, init, first, count, n, to);
      OneFilterMeans(group, WithBlockFilters(group, s, init, first, count), bf, first, count, n, to);
    }
  }

  /**
   * A group's selection is exact. A block is fetched iff some filter finds it in the group or wants every header; a
   * fragment is fetched iff some filter that finds something is for it or asks for it, besides the fragments that
   * are fetched for any filter.
   */
  lemma SelectionMeans(group: seq<IndexFragment>, filters: seq<BlockFilter>, first: nat, count: nat, n: nat, to: nat)
    requires first + count < 0x1_0000_0000
    ensures var s := SelectionOf(group, filters, first, count);
            && (n in s.blocks <==>
                exists k :: 0 <= k < |filters| && Selects(group, filters[k], first <= n < first + count, n))
            && (to in s.needed <==>
                || to == HEADER_FRAGMENT_ID || (filters != [] && (to == INDEX_FRAGMENT_ID || to == JOIN_FRAGMENT_ID))
                || exists k :: 0 <= k < |filters| && Asks(group, filters[k], to))
  {
    hide Selects, Asks, WithBlockFilters;
    U32RangeIsRange(first, count);
    BlockFiltersMean(group, Selection({}, BaseFragments(filters)), filters, first, count, n, to);
  }

  // ------------------------------------------------------------------ fetches

  /** One segment of the group: its blocks with data, with all fragments needed. */
  ghost predicate IsFetch(z: Sizes, s: Selection, first: nat, k: nat, f: Fetch) {
    && f.first == Edge(first, z.segmentSize, k) && f.fragments == s.needed && f.blocks != {}
    && forall n: nat :: n in f.blocks <==> n in s.blocks && f.first <= n < f.first + z.segmentSize
  }

  lemma OneFetch(z: Sizes, s: Selection, first: nat, k: nat, f: Fetch)
    requires Edge(first, z.segmentSize, k) + z.segmentSize < 0x1_0000_0000
    ensures var start := Edge(first, z.segmentSize, k);
            var here := Fetch(start, U32Range(start, start + z.segmentSize) * s.blocks, s.needed);
            IsFetch(z, s, first, k, f) <==> f == here && here.blocks != {}
  {
    hide Edge, U32Range;
    var start := Edge(first, z.segmentSize, k);
    U32RangeIsRange(start, z.segmentSize);
    var blocks := U32Range(start, start + z.segmentSize) * s.blocks;
    if IsFetch(z, s, first, k, f) { assert f.blocks == blocks; }
  }

  /** One of the first `count` segments. */
  ghost predicate AnyFetch(z: Sizes, s: Selection, first: nat, count: nat, f: Fetch) {
    exists k: nat :: k < count && IsFetch(z, s, first, k, f)
  }

  /**
   * Of a group those segments are fetched that have a block with data, and no others; it fails iff there is one and
   * some needed fragment has no name.
   */
  lemma {:induction false} GroupFetchesMean(z: Sizes, s: Selection, names: set<nat>, first: nat, count: nat, f: Fetch)
    requires Edge(first, z.segmentSize, count) < 0x1_0000_0000
    ensures var r := GroupFetches(z, s, names, first, count);
            && (r.Rejected? <==> !(s.needed <= names) && exists g :: AnyFetch(z, s, first, count, g))
            && (r.Ok? ==> (f in r.value <==> AnyFetch(z, s, first, count, f)))
    decreases count
  {
    hide U32Range, IsFetch, AnyFetch;
    if count == 0 {
      forall g
        ensures !AnyFetch(z, s, first, 0, g)
      {
        NoFetch(z, s, first, g);
      }
    } else {
      var k := count - 1;
      assert Edge(first, z.segmentSize, k) + z.segmentSize == Edge(first, z.segmentSize, count);
      hide Edge;
      GroupFetchesMean(z, s, names, first, k, f);
      forall g
        ensures AnyFetch(z, s, first, count, g) <==> AnyFetch(z, s, first, k, g) || IsFetch(z, s, first, k, g)
      {
        OneMoreFetch(z, s, first, k, g);
      }
      var start := Edge(first, z.segmentSize, k);
      var here := Fetch(start, U32Range(start, start + z.segmentSize) * s.blocks, s.needed);
      forall g
        ensures IsFetch(z, s, first, k, g) <==> g == here && here.blocks != {}
      {
        OneFetch(z, s, first, k, g);
      }
      if here.blocks != {} { assert AnyFetch(z, s, first, count, here); }
      if g :| AnyFetch(z, s, first, k, g) { assert AnyFetch(z, s, first, count, g); }
    }
  }

  lemma NoFetch(z: Sizes, s: Selection, first: nat, f: Fetch)
    ensures !AnyFetch(z, s, first, 0, f)
  {
  }

  lemma OneMoreFetch(z: Sizes, s: Selection, first: nat, k: nat, f: Fetch)
    ensures AnyFetch(z, s, first, k + 1, f) <==> AnyFetch(z, s, first, k, f) || IsFetch(z, s, first, k, f)
  {
    hide IsFetch;
  }

  /** The group has an index for every filter, on which it can be evaluated. */
  ghost predicate HasIndexFor(group: seq<IndexFragment>, bf: BlockFilter) {
    && (forall id :: id in bf.filters ==> FindIndex(group, id).Ok?)
    && forall id, f :: id in bf.filters && f in bf.filters[id] ==> Rows(f, FindIndex(group, id).value).Ok?
  }

  lemma EvaluatesIff(group: seq<IndexFragment>, filters: seq<BlockFilter>)
    ensures GroupEvaluates(group, filters) <==> forall k :: 0 <= k < |filters| ==> HasIndexFor(group, filters[k])
  {
    hide FindIndex, Rows;
    if GroupEvaluates(group, filters) {
      forall k | 0 <= k < |filters|
        ensures HasIndexFor(group, filters[k])
      {
        assert forall id :: id in filters[k].filters ==> IdEvaluates(group, id, filters[k].filters[id]);
      }
    }
    if forall k :: 0 <= k < |filters| ==> HasIndexFor(group, filters[k]) {
      forall k, id | 0 <= k < |filters| && id in filters[k].filters
        ensures IdEvaluates(group, id, filters[k].filters[id])
      {
        assert HasIndexFor(group, filters[k]);
      }
    }
  }

  /** A group works iff its index is there, with an index for every filter, and every fragment to fetch has a name. */
  lemma GroupWorksIff(z: Sizes, filters: seq<BlockFilter>, names: set<nat>, groups: map<nat, seq<IndexFragment>>,
                      first: nat)
    requires Edge(first, z.segmentSize, z.groupSize) < 0x1_0000_0000
    ensures OneGroup(z, filters, names, groups, first).Ok? <==>
            && first in groups && (forall k :: 0 <= k < |filters| ==> HasIndexFor(groups[first], filters[k]))
            && var s := SelectionOf(groups[first], filters, first, BlocksInGroup(z));
               (s.needed <= names || forall f :: !AnyFetch(z, s, first, z.groupSize, f))
  {
    hide GroupFetches, SelectionOf, AnyFetch, Edge, BlocksInGroup, GroupEvaluates, HasIndexFor;
    if first in groups {
      EvaluatesIff(groups[first], filters);
      var s := SelectionOf(groups[first], filters, first, BlocksInGroup(z));
      GroupFetchesMean(z, s, names, first, z.groupSize, Fetch(0, {}, {}));
    }
  }

  // ------------------------------------------------------------------ without groups

  /** The block filter has filters for the fragment, or one that asks for it. */
  ghost predicate MayNeed(bf: BlockFilter, to: nat) {
    to in bf.filters || exists id, f :: id in bf.filters && f in bf.filters[id] && to in f.joins
  }

  /** A segment is fetched whole, with every fragment that a filter may need. */
  lemma {:induction false} AllNeededMeans(filters: seq<BlockFilter>, to: nat)
    ensures to in AllNeeded(filters) <==> exists k :: 0 <= k < |filters| && MayNeed(filters[k], to)
    decreases |filters|
  {
    if filters != [] {
      var init, bf := filters[..|filters| - 1], filters[|filters| - 1];
      assert forall k :: 0 <= k < |init| ==> init[k] == filters[k];
      AllNeededMeans(init, to);
      assert to in AllFragmentIds(bf.filters) <==> MayNeed(bf, to);
    }
  }
}
