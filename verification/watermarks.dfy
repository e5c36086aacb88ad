/** Segment and group arithmetic of the chain view (common/src/chain_view/view.rs). */
module Watermarks {
  import opened Core

  datatype Sizes = Sizes(start: nat, segmentSize: nat, groupSize: nat)

  predicate ValidSizes(z: Sizes) {
    z.segmentSize >= 1 && z.groupSize >= 1
  }

  function BlocksInGroup(z: Sizes): nat {
    z.groupSize * z.segmentSize
  }

  /** The start of the stretch of `step` blocks that holds `n`. */
  function StretchStart(n: nat, start: nat, step: nat): nat
    requires n >= start && step >= 1
  {
    start + (n - start) / step * step
  }

  /** Block numbers below the starting block underflow in the source. */
  function SegmentStartBlock(z: Sizes, n: nat): nat
    requires z.segmentSize >= 1 && n >= z.start
  {
    StretchStart(n, z.start, z.segmentSize)
  }

  function SegmentEndBlock(z: Sizes, n: nat): nat
    requires z.segmentSize >= 1 && n >= z.start
  {
    SegmentStartBlock(z, n) + z.segmentSize - 1
  }

  function GroupStartBlock(z: Sizes, n: nat): nat
    requires ValidSizes(z) && n >= z.start
  {
    assert BlocksInGroup(z) >= 1 by { GroupIsPositive(z); }
    StretchStart(n, z.start, BlocksInGroup(z))
  }

  function GroupEndBlock(z: Sizes, n: nat): nat
    requires ValidSizes(z) && n >= z.start
  {
    GroupStartBlock(z, n) + BlocksInGroup(z) - 1
  }

  predicate HasSegmentForBlock(z: Sizes, segmented: Option<nat>, n: nat)
    requires z.segmentSize >= 1 && n >= z.start
  {
    segmented.Some? && SegmentEndBlock(z, n) <= segmented.value
  }

  predicate HasGroupForBlock(z: Sizes, grouped: Option<nat>, n: nat)
    requires ValidSizes(z) && n >= z.start
  {
    grouped.Some? && GroupEndBlock(z, n) <= grouped.value
  }

  lemma GroupIsPositive(z: Sizes)
    requires ValidSizes(z)
    ensures BlocksInGroup(z) >= z.segmentSize >= 1
  {
    assert z.groupSize * z.segmentSize == z.segmentSize + (z.groupSize - 1) * z.segmentSize;
    assert (z.groupSize - 1) * z.segmentSize >= 0;
  }

  // ------------------------------------------------------------------ aligned watermarks

  function Edge(start: nat, step: nat, k: nat): nat {
    start + k * step
  }

  /** The last block of one of the stretches that start at the starting block. */
  ghost predicate AlignedAt(v: nat, start: nat, step: nat, k: nat) {
    k >= 1 && v + 1 == Edge(start, step, k)
  }

  ghost predicate Aligned(v: nat, start: nat, step: nat) {
    exists k: nat :: AlignedAt(v, start, step, k)
  }

  lemma EdgeStep(start: nat, step: nat, k: nat)
    ensures Edge(start, step, k + 1) == Edge(start, step, k) + step
    ensures Edge(start, step, 0) == start
  {
  }

  lemma EdgeMonotone(start: nat, step: nat, i: nat, j: nat)
    requires i <= j
    ensures Edge(start, step, i) <= Edge(start, step, j)
    ensures step >= 1 && i < j ==> Edge(start, step, i) + step <= Edge(start, step, j)
  {
    assert j * step == i * step + (j - i) * step;
    if i < j {
      assert (j - i) * step == step + (j - i - 1) * step;
      assert (j - i - 1) * step >= 0;
    }
  }

  lemma EdgeOrder(start: nat, step: nat, i: nat, j: nat)
    requires step >= 1 && Edge(start, step, i) < Edge(start, step, j)
    ensures i < j
  {
    if j <= i { EdgeMonotone(start, step, j, i); }
  }

  /** The stretch that holds a block is the one between two edges. */
  lemma StretchBetween(n: nat, start: nat, step: nat, k: nat)
    requires n >= start && step >= 1 && Edge(start, step, k) <= n < Edge(start, step, k + 1)
    ensures StretchStart(n, start, step) == Edge(start, step, k)
  {
    var q, r := (n - start) / step, (n - start) % step;
    assert n - start == q * step + r && 0 <= r < step;
    EdgeStep(start, step, k);
    EdgeStep(start, step, q);
    assert Edge(start, step, q) <= n < Edge(start, step, q + 1);
    EdgeOrder(start, step, q, k + 1);
    EdgeOrder(start, step, k, q + 1);
  }

  lemma StretchIndex(n: nat, start: nat, step: nat) returns (k: nat)
    requires n >= start && step >= 1
    ensures Edge(start, step, k) <= n < Edge(start, step, k + 1) && StretchStart(n, start, step) == Edge(start, step, k)
  {
    k := (n - start) / step;
    var r := (n - start) % step;
    assert n - start == k * step + r && 0 <= r < step;
    EdgeStep(start, step, k);
  }

  /** Up to an aligned watermark every block's own stretch is covered, and no block past it is. */
  lemma CoveredUpToWatermark(n: nat, start: nat, step: nat, v: nat)
    requires n >= start && step >= 1 && Aligned(v, start, step)
    ensures StretchStart(n, start, step) + step - 1 <= v <==> n <= v
  {
    var j: nat :| AlignedAt(v, start, step, j);
    var k := StretchIndex(n, start, step);
    EdgeStep(start, step, k);
    if n <= v {
      EdgeOrder(start, step, k, j);
      EdgeMonotone(start, step, k + 1, j);
    } else {
      if k < j { EdgeMonotone(start, step, k + 1, j); }
    }
  }

  /** `has_segment_for_block` is true exactly up to an aligned watermark. */
  lemma HasSegmentIffSegmented(z: Sizes, segmented: nat, n: nat)
    requires z.segmentSize >= 1 && n >= z.start && Aligned(segmented, z.start, z.segmentSize)
    ensures HasSegmentForBlock(z, Some(segmented), n) <==> n <= segmented
  {
    CoveredUpToWatermark(n, z.start, z.segmentSize, segmented);
  }

  lemma HasGroupIffGrouped(z: Sizes, grouped: nat, n: nat)
    requires ValidSizes(z) && n >= z.start && Aligned(grouped, z.start, BlocksInGroup(z))
    ensures HasGroupForBlock(z, Some(grouped), n) <==> n <= grouped
  {
    GroupIsPositive(z);
    CoveredUpToWatermark(n, z.start, BlocksInGroup(z), grouped);
  }

  lemma EdgeOfEdge(start: nat, step: nat, k: nat, j: nat)
    ensures Edge(Edge(start, step, k), step, j) == Edge(start, step, k + j)
  {
    assert (k + j) * step == k * step + j * step;
  }

  lemma EdgeOfCount(first: nat, z: Sizes)
    ensures Edge(first, z.segmentSize, z.groupSize) == first + BlocksInGroup(z)
  {
  }

  lemma EdgeOfGroup(z: Sizes, k: nat)
    ensures Edge(z.start, BlocksInGroup(z), k) == Edge(z.start, z.segmentSize, k * z.groupSize)
  {
    assert k * (z.groupSize * z.segmentSize) == (k * z.groupSize) * z.segmentSize;
  }

  /** A group watermark is a segment watermark too. */
  lemma GroupAlignedIsSegmentAligned(z: Sizes, v: nat)
    requires ValidSizes(z) && Aligned(v, z.start, BlocksInGroup(z))
    ensures Aligned(v, z.start, z.segmentSize)
  {
    var k: nat :| AlignedAt(v, z.start, BlocksInGroup(z), k);
    EdgeOfGroup(z, k);
    assert k * z.groupSize >= 1;
    assert AlignedAt(v, z.start, z.segmentSize, k * z.groupSize);
  }
}
