/** The fetches of the segment stream tile the range it covers (common/src/data_stream/segment_stream.rs). */
module SegmentTiling {
  import opened Core
  import opened Sorting
  import opened Fragments
  import opened Query
  import opened Watermarks
  import opened GroupBuilder
  import opened SegmentStream

  /** Whole segments between `lo` and `hi`, in strictly ascending order without overlap, each with blocks of its own. */
  ghost predicate Tiles(z: Sizes, fetches: seq<Fetch>, lo: nat, hi: nat) {
    && (forall i :: 0 <= i < |fetches| ==>
          lo <= fetches[i].first && fetches[i].first + z.segmentSize <= hi
          && fetches[i].blocks <= Interval(fetches[i].first, z.segmentSize)
          && fetches[i].blocks != {})
    && forall i, j :: 0 <= i < j < |fetches| ==> fetches[i].first + z.segmentSize <= fetches[j].first
  }

  lemma TilesJoin(z: Sizes, a: seq<Fetch>, b: seq<Fetch>, lo: nat, mid: nat, hi: nat)
    requires lo <= mid <= hi && Tiles(z, a, lo, mid) && Tiles(z, b, mid, hi)
    ensures Tiles(z, a + b, lo, hi)
  {
    hide Interval;
    var all := a + b;
    forall i, j | 0 <= i < j < |all|
      ensures all[i].first + z.segmentSize <= all[j].first
    {
      if i < |a| <= j { assert all[i] == a[i] && all[j] == b[j - |a|]; }
    }
  }

  lemma OneTile(z: Sizes, fetch: Fetch)
    requires fetch.blocks <= Interval(fetch.first, z.segmentSize) && fetch.blocks != {}
    ensures Tiles(z, [fetch], fetch.first, fetch.first + z.segmentSize)
  {
  }

  lemma {:induction false} GroupTiles(z: Sizes, s: Selection, names: set<nat>, first: nat, count: nat)
    requires ValidSizes(z) && GroupFetches(z, s, names, first, count).Ok?
             && Edge(first, z.segmentSize, count) < 0x1_0000_0000
    ensures Tiles(z, GroupFetches(z, s, names, first, count).value, first, Edge(first, z.segmentSize, count))
    decreases count
  {
    hide U32Range, Edge, Tiles, Interval;
    EdgeStep(first, z.segmentSize, 0);
    if count == 0 {
      WiderTiles(z, first, first);
    } else {
      var size, start := z.segmentSize, Edge(first, z.segmentSize, count - 1);
      EdgeStep(first, size, count - 1);
      EdgeMonotone(first, size, 0, count - 1);
      GroupTiles(z, s, names, first, count - 1);
      U32RangeIsRange(start, size);
      var before, blocks := GroupFetches(z, s, names, first, count - 1).value, U32Range(start, start + size) * s.blocks;
      assert Tiles(z, [], start, start + size) by { WiderTiles(z, start, start + size); }
      if blocks != {} { OneTile(z, Fetch(start, blocks, s.needed)); }
      TilesJoin(z, before, if blocks == {} then [] else [Fetch(start, blocks, s.needed)], first, start, start + size);
      assert before + [] == before;
    }
  }

  lemma WiderTiles(z: Sizes, lo: nat, hi: nat)
    ensures Tiles(z, [], lo, hi)
  {
  }

  /** The group phase tiles from where it starts to where it ends, which is the start of a group. */
  lemma {:induction false} GroupPhaseTiles(z: Sizes, filters: seq<BlockFilter>, names: set<nat>,
                                           groups: map<nat, seq<IndexFragment>>, g: nat, grouped: nat,
                                           rereads: seq<Option<nat>>,
                                           bound: nat) returns (e: nat)
    requires ValidSizes(z) && bound < 0x1_0000_0000 - 1
    requires Aligned(grouped, z.start, BlocksInGroup(z)) && grouped <= bound
    requires forall i :: 0 <= i < |rereads| && rereads[i].Some? ==>
               Aligned(rereads[i].value, z.start, BlocksInGroup(z)) && rereads[i].value <= bound
    requires GroupPhase(z, filters, names, groups, Edge(z.start, BlocksInGroup(z), g), grouped, rereads).Ok?
    ensures var first := Edge(z.start, BlocksInGroup(z), g);
            var phase := GroupPhase(z, filters, names, groups, first, grouped, rereads).value;
            && phase.current == Edge(z.start, BlocksInGroup(z), e) && g <= e && (e > g ==> phase.current <= bound + 1)
            && Tiles(z, phase.fetches, first, phase.current)
    decreases |rereads|, if Edge(z.start, BlocksInGroup(z), g) <= grouped then
              grouped + 1 - Edge(z.start, BlocksInGroup(z), g) else 0
  {
    hide Edge, BlocksInGroup, Tiles, GroupEvaluates, GroupFetches, SelectionOf;
    GroupIsPositive(z);
    var step, first := BlocksInGroup(z), Edge(z.start, BlocksInGroup(z), g);
    if first > grouped {
      e := g;
      assert Tiles(z, [], first, first) by { WiderTiles(z, first, first); }
    } else {
      EdgeStep(z.start, step, g);
      GroupFits(z, grouped, g);
      var fetches, next := OneGroup(z, filters, names, groups, first).value, first + step;
      EdgeOfCount(first, z);
      GroupTiles(z, SelectionOf(groups[first], filters, first, step), names, first, z.groupSize);
      if grouped == next && rereads != [] {
        if rereads[0].None? {
          e := g + 1;
        } else {
          e := GroupPhaseTiles(z, filters, names, groups, g + 1, rereads[0].value, rereads[1..], bound);
          var rest := GroupPhase(z, filters, names, groups, next, rereads[0].value, rereads[1..]).value;
          EdgeMonotone(z.start, step, g + 1, e);
          TilesJoin(z, fetches, rest.fetches, first, next, rest.current);
        }
      } else {
        e := GroupPhaseTiles(z, filters, names, groups, g + 1, grouped, rereads, bound);
        var rest := GroupPhase(z, filters, names, groups, next, grouped, rereads).value;
        EdgeMonotone(z.start, step, g + 1, e);
        TilesJoin(z, fetches, rest.fetches, first, next, rest.current);
      }
    }
  }

  /** A group that starts at or below an aligned watermark ends there or below. */
  lemma GroupFits(z: Sizes, grouped: nat, g: nat)
    requires ValidSizes(z) && Aligned(grouped, z.start, BlocksInGroup(z))
             && Edge(z.start, BlocksInGroup(z), g) <= grouped
    ensures Edge(z.start, BlocksInGroup(z), g) + BlocksInGroup(z) <= grouped + 1
  {
    hide Edge, BlocksInGroup;
    GroupIsPositive(z);
    var j: nat :| AlignedAt(grouped, z.start, BlocksInGroup(z), j);
    EdgeOrder(z.start, BlocksInGroup(z), g, j);
    EdgeMonotone(z.start, BlocksInGroup(z), g, j);
  }

  /** The segment phase leaves nothing out: it asks for every block, and its last segment ends at `segmented`. */
  lemma {:induction false} SegmentPhaseTiles(z: Sizes, filters: seq<BlockFilter>, names: set<nat>, m: nat,
                                             segmented: nat)
    requires ValidSizes(z) && Aligned(segmented, z.start, z.segmentSize) && segmented + 1 < 0x1_0000_0000
    requires Edge(z.start, z.segmentSize, m) <= segmented + 1
             && SegmentPhase(z, filters, names, Edge(z.start, z.segmentSize, m), segmented).Ok?
    ensures var first := Edge(z.start, z.segmentSize, m);
            var fetches := SegmentPhase(z, filters, names, first, segmented).value;
            && Tiles(z, fetches, first, segmented + 1)
            && (forall i :: 0 <= i < |fetches| ==> fetches[i].blocks == Interval(fetches[i].first, z.segmentSize))
            && (first <= segmented ==> fetches != [] && fetches[|fetches| - 1].first + z.segmentSize == segmented + 1)
    decreases segmented + 1 - Edge(z.start, z.segmentSize, m)
  {
    hide Edge, U32Range, AllNeeded, Interval;
    var size, first := z.segmentSize, Edge(z.start, z.segmentSize, m);
    if first <= segmented {
      var j: nat :| AlignedAt(segmented, z.start, size, j);
      EdgeOrder(z.start, size, m, j);
      EdgeMonotone(z.start, size, m, j);
      EdgeStep(z.start, size, m);
      SegmentPhaseTiles(z, filters, names, m + 1, segmented);
      var fetch, rest := SegmentFetch(z, filters, first),
        SegmentPhase(z, filters, names, first + size, segmented).value;
      U32RangeIsRange(first, size);
      assert fetch.blocks == Interval(first, size);
      assert first in Interval(first, size);
      assert Tiles(z, [fetch], first, first + size);
      TilesJoin(z, [fetch], rest, first, first + size, segmented + 1);
      if first + size > segmented { assert rest == []; }
    }
  }

  /** The start of a group is a grouped watermark exactly when a group is a single block. */
  lemma EdgeIsAlignedIffSingle(z: Sizes, g: nat)
    requires ValidSizes(z)
    ensures Aligned(Edge(z.start, BlocksInGroup(z), g), z.start, BlocksInGroup(z)) <==> BlocksInGroup(z) == 1
  {
    GroupIsPositive(z);
    var step, edge := BlocksInGroup(z), Edge(z.start, BlocksInGroup(z), g);
    hide Edge, BlocksInGroup;
    if Aligned(edge, z.start, step) {
      var j: nat :| AlignedAt(edge, z.start, step, j);
      EdgeOrder(z.start, step, g, j);
      EdgeMonotone(z.start, step, g, j);
    }
    if step == 1 {
      EdgeStep(z.start, step, g);
      assert AlignedAt(edge, z.start, step, g + 1);
    }
  }

  /**
   * The grouped watermark is read again exactly when a group is a single block: with `None` as the answer to the
   * first reading, the phase stops there if groups are single blocks, and never comes to read otherwise.
   */
  lemma {:induction false} RereadIffSingleBlocks(z: Sizes, filters: seq<BlockFilter>, names: set<nat>,
                                                 groups: map<nat, seq<IndexFragment>>, g: nat, grouped: nat,
                                                 rereads: seq<Option<nat>>)
    requires ValidSizes(z) && Aligned(grouped, z.start, BlocksInGroup(z))
             && Edge(z.start, BlocksInGroup(z), g) < grouped
    requires rereads != [] && rereads[0] == None
    requires GroupPhase(z, filters, names, groups, Edge(z.start, BlocksInGroup(z), g), grouped, rereads).Ok?
    ensures var phase := GroupPhase(z, filters, names, groups, Edge(z.start, BlocksInGroup(z), g), grouped,
                                    rereads).value;
            && (phase.stopped <==> BlocksInGroup(z) == 1)
            && phase.current == if phase.stopped then grouped else grouped + 1
    decreases grouped - Edge(z.start, BlocksInGroup(z), g)
  {
    hide Edge, BlocksInGroup, OneGroup, Aligned;
    GroupIsPositive(z);
    var step, first := BlocksInGroup(z), Edge(z.start, BlocksInGroup(z), g);
    EdgeStep(z.start, step, g);
    GroupFits(z, grouped, g);
    EdgeIsAlignedIffSingle(z, g + 1);
    if grouped > first + step {
      RereadIffSingleBlocks(z, filters, names, groups, g + 1, grouped, rereads);
    }
  }

  /**
   * If the watermark is gone when it is read again, the whole stream ends there: nothing from `grouped` on is fetched,
   * whatever has been segmented.
   */
  lemma GoneWatermarkEnds(z: Sizes, filters: seq<BlockFilter>, names: set<nat>, groups: map<nat, seq<IndexFragment>>,
                          from: nat, grouped: nat, rereads: seq<Option<nat>>, segmented: Option<nat>)
    requires ValidSizes(z) && Aligned(grouped, z.start, BlocksInGroup(z)) && BlocksInGroup(z) == 1
             && grouped + 1 < 0x1_0000_0000
    requires z.start <= from < grouped && rereads == [None]
    requires Streamed(z, filters, names, groups, from, Some(grouped), rereads, segmented).Ok?
    ensures Tiles(z, Streamed(z, filters, names, groups, from, Some(grouped), rereads, segmented).value, from, grouped)
  {
    hide Edge, BlocksInGroup, GroupPhase, SegmentPhase, Tiles, Aligned;
    GroupIsPositive(z);
    var g := StretchIndex(from, z.start, BlocksInGroup(z));
    EdgeStep(z.start, BlocksInGroup(z), g);
    RereadIffSingleBlocks(z, filters, names, groups, g, grouped, rereads);
    var e := GroupPhaseTiles(z, filters, names, groups, g, grouped, rereads, grouped);
  }

  /**
   * The whole stream: disjoint segments in ascending order from the start of the first group on, none past
   * `segmented`, and, since `grouped` lies below `segmented`, the last one ends exactly there.
   */
  lemma StreamTiles(z: Sizes, filters: seq<BlockFilter>, names: set<nat>, groups: map<nat, seq<IndexFragment>>,
                    from: nat, grouped: Option<nat>, rereads: seq<Option<nat>>, segmented: nat)
    requires ValidSizes(z) && z.start <= from <= segmented && Aligned(segmented, z.start, z.segmentSize)
             && segmented + 1 < 0x1_0000_0000
    requires grouped.Some? ==> Aligned(grouped.value, z.start, BlocksInGroup(z)) && grouped.value < segmented
    requires forall i :: 0 <= i < |rereads| ==>
               rereads[i].Some? && Aligned(rereads[i].value, z.start, BlocksInGroup(z)) && rereads[i].value < segmented
    requires Streamed(z, filters, names, groups, from, grouped, rereads, Some(segmented)).Ok?
    ensures var fetches := Streamed(z, filters, names, groups, from, grouped, rereads, Some(segmented)).value;
            && Tiles(z, fetches, GroupStartBlock(z, from), segmented + 1)
            && fetches != [] && fetches[|fetches| - 1].first + z.segmentSize == segmented + 1
            && fetches[|fetches| - 1].blocks == Interval(fetches[|fetches| - 1].first, z.segmentSize)
  {
    hide Edge, BlocksInGroup, GroupPhase, SegmentPhase, Tiles, Aligned;
    GroupIsPositive(z);
    var g := StretchIndex(from, z.start, BlocksInGroup(z));
    var first, e := GroupStartBlock(z, from), g;
    var phase := Phase([], first, false);
    if grouped.Some? {
      phase := GroupPhase(z, filters, names, groups, first, grouped.value, rereads).value;
      e := GroupPhaseTiles(z, filters, names, groups, g, grouped.value, rereads, segmented - 1);
      NotStopped(z, filters, names, groups, first, grouped.value, rereads);
    } else {
      WiderTiles(z, first, first);
    }
    EdgeOfGroup(z, e);
    EdgeMonotone(z.start, BlocksInGroup(z), g, e);
    SegmentPhaseTiles(z, filters, names, e * z.groupSize, segmented);
    TilesJoin(z, phase.fetches, SegmentPhase(z, filters, names, phase.current, segmented).value, first, phase.current,
              segmented + 1);
  }

  lemma {:induction false} NotStopped(z: Sizes, filters: seq<BlockFilter>, names: set<nat>,
                                      groups: map<nat, seq<IndexFragment>>, current: nat, grouped: nat,
                                      rereads: seq<Option<nat>>)
    requires ValidSizes(z) && forall i :: 0 <= i < |rereads| ==> rereads[i].Some?
    requires GroupPhase(z, filters, names, groups, current, grouped, rereads).Ok?
    ensures !GroupPhase(z, filters, names, groups, current, grouped, rereads).value.stopped
    decreases |rereads|, if current <= grouped then grouped + 1 - current else 0
  {
    hide OneGroup, BlocksInGroup;
    GroupIsPositive(z);
    if current <= grouped {
      var next := current + BlocksInGroup(z);
      if grouped == next && rereads != [] {
        NotStopped(z, filters, names, groups, next, rereads[0].value, rereads[1..]);
      } else {
        NotStopped(z, filters, names, groups, next, grouped, rereads);
      }
    }
  }
}
