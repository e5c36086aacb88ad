/** What the group service builds from stored segments is what the fast path expects of a group. */
module CompactedGroups {
  import opened Core
  import opened Fragments
  import opened Watermarks
  import opened SegmentBuilding
  import opened GroupBuilder
  import opened FastPath
  import opened CompactionService

  /** The store answers with the index segments of the world. */
  ghost predicate Answers(w: World, segments: IndexSegments, first: nat, count: nat) {
    forall i: nat :: i < count ==>
      var start := Edge(first, w.z.segmentSize, i);
      start in segments && segments[start] == w.segments(start).index && StoredSegment(w, start)
  }

  lemma RangeJoins(w: World, first: nat, a: nat, b: nat)
    ensures IndexesOf(Range(w, first, a)) + IndexesOf(Range(w, first + a, b)) == IndexesOf(Range(w, first, a + b))
  {
  }

  lemma {:induction false} SegmentsAreBlocks(w: World, segments: IndexSegments, first: nat, count: nat)
    requires Answers(w, segments, first, count)
    ensures AllStored(segments, first, w.z.segmentSize, count)
    ensures DataOf(segments, first, w.z.segmentSize, count) == IndexesOf(Range(w, first, count * w.z.segmentSize))
    decreases count
  {
    hide Transposed;
    if count > 0 {
      var size := w.z.segmentSize;
      var start := Edge(first, size, count - 1);
      SegmentsAreBlocks(w, segments, first, count - 1);
      assert StoredSegment(w, start);
      IndexOfSegment(w, start);
      RangeJoins(w, first, (count - 1) * size, size);
      assert (count - 1) * size + size == count * size;
    }
  }

  lemma IndexOfSegment(w: World, start: nat)
    requires StoredSegment(w, start)
    ensures w.segments(start).index ==
            SegmentOf(Cursor(start, w.hash(start)), IndexesOf(Range(w, start, w.z.segmentSize)))
  {
  }

  /** A compacted group is a stored group, and named after its first block. */
  lemma CompactedGroupIsStored(w: World, segments: IndexSegments, first: nat)
    requires ValidSizes(w.z) && Answers(w, segments, first, w.z.groupSize)
    ensures AllStored(segments, first, w.z.segmentSize, w.z.groupSize)
    ensures var size, count := w.z.segmentSize, w.z.groupSize;
            var group := BuildGroup(RangeOf(segments, first, size, count),
                                    WithBlocks(map[], DataOf(segments, first, size, count)));
            && group.Ok? && StoredGroup(w.(groups := w.groups[first := group.value.index]), first)
            && group.value.firstBlock == Cursor(first, w.hash(first))
  {
    hide WithBlocks, BuildFragments, Transposed;
    var size, count := w.z.segmentSize, w.z.groupSize;
    GroupIsPositive(w.z);
    SegmentsAreBlocks(w, segments, first, count);
    var last := Edge(first, size, count - 1);
    assert StoredSegment(w, first) by { assert Edge(first, size, 0) == first; }
    IndexOfSegment(w, first);
    assert StoredSegment(w, last);
    IndexOfSegment(w, last);
    assert last + size == first + count * size by { assert (count - 1) * size + size == count * size; }
    var group := BuildGroup(RangeOf(segments, first, size, count),
                            WithBlocks(map[], DataOf(segments, first, size, count)));
    var w' := w.(groups := w.groups[first := group.value.index]);
    assert Range(w', first, count * size) == Range(w, first, count * size);
  }
}
