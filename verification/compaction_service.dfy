/** The loops of the compaction services (common/src/compaction). */
module CompactionService {
  import opened Core
  import opened Chain
  import opened Ledgers
  import opened ChainHistory
  import opened ChainView
  import opened Watermarks
  import opened Fragments
  import opened GroupBuilder

  const MAX_BUFFERED_BLOCKS := 128
  const MAX_BUFFERED_SEGMENTS := 128

  // ------------------------------------------------------------------ compacting a segment

  /** The block at a height of the view's chain. */
  ghost predicate At(v: View, count: nat, n: nat, c: Cursor) {
    ViewOk(v, count) && c.number == n && IsCanonical(ChainOf(v, count), c)
  }

  ghost function BlockAt(v: View, count: nat, n: nat): (r: Cursor)
    requires ViewOk(v, count) && v.start <= n <= v.recent.info.last.number
    ensures At(v, count, n, r)
  {
    ViewShape(v, count);
    Cursor(n, ChainOf(v, count).hashes[n - v.start])
  }

  /** Consecutive blocks of the view's chain from a height on. */
  ghost predicate Consecutive(v: View, count: nat, from: nat, blocks: seq<Cursor>) {
    forall i :: 0 <= i < |blocks| ==> At(v, count, from + i, blocks[i])
  }

  /** What the chain view can say of a block with a hash: there is a next one only after a block of its chain. */
  lemma AskedNext(v: View, count: nat, c: Cursor)
    requires ViewOk(v, count) && c.number >= v.start && !IsZero(c.hash)
    ensures var answer := GetNextCursor(v, Some(c));
            if IsCanonical(ChainOf(v, count), c) && c.number < v.recent.info.last.number
            then answer == Ok(ContinueTo(BlockAt(v, count, c.number + 1), c.number + 1 == v.recent.info.last.number))
            else answer.Rejected? || !answer.value.ContinueTo?
  {
    hide ViewOk, GetNextCursor, ChainOf;
    ViewShape(v, count);
    if IsCanonical(ChainOf(v, count), c) {
      NextCursorGoesOn(v, count, c);
    } else {
      NotContinued(v, count, c);
    }
  }

  lemma NotContinued(v: View, count: nat, c: Cursor)
    requires ViewOk(v, count) && c.number >= v.start && !IsZero(c.hash) && !IsCanonical(ChainOf(v, count), c)
    ensures var answer := GetNextCursor(v, Some(c)); answer.Rejected? || !answer.value.ContinueTo?
  {
    hide ViewOk, ChainOf, ReconnectAt, CanonicalAt;
    ReconnectReads(v, count, c);
  }

  /**
   * The views asked for the next cursor, one for each block of the segment: between two questions the chain view
   * may be replaced by a newer one, whose chain may be another.
   */
  datatype Questions = Questions(views: seq<View>, counts: seq<nat>)

  ghost predicate AllReadable(t: Tree, q: Questions, first: Cursor) {
    && |q.views| == |q.counts| && !IsZero(first.hash)
    && forall i :: 0 <= i < |q.views| ==>
         && ViewOk(q.views[i], q.counts[i]) && Linked(t, ChainOf(q.views[i], q.counts[i]))
         && q.views[i].start <= first.number
  }

  /** The i-th view goes on from the block it is asked about: the block is of its chain and not its head. */
  ghost predicate GoesOn(q: Questions, i: nat, block: Cursor)
    requires i < |q.views| == |q.counts| && ViewOk(q.views[i], q.counts[i])
  {
    IsCanonical(ChainOf(q.views[i], q.counts[i]), block) && block.number < q.views[i].recent.info.last.number
  }

  /** Each of the first `n` views goes on from the block that the one before it answered. */
  ghost predicate Agree(t: Tree, q: Questions, first: Cursor, n: nat)
    requires AllReadable(t, q, first) && n <= |q.views|
    decreases n, 0
  {
    n == 0 || (Agree(t, q, first, n - 1) && GoesOn(q, n - 1, Answer(t, q, first, n - 1)))
  }

  /** The block the first `n` answers have led to. */
  ghost function Answer(t: Tree, q: Questions, first: Cursor, n: nat): (r: Cursor)
    requires AllReadable(t, q, first) && n <= |q.views| && Agree(t, q, first, n)
    ensures r.number == first.number + n
    decreases n, 1
  {
    if n == 0 then first else BlockAt(q.views[n - 1], q.counts[n - 1], first.number + n)
  }

  lemma AnswerHasHash(t: Tree, q: Questions, first: Cursor, n: nat)
    requires AllReadable(t, q, first) && n <= |q.views| && Agree(t, q, first, n)
    ensures !IsZero(Answer(t, q, first, n).hash)
  {
    hide ViewOk, ChainOf;
    if n > 0 {
      ViewShape(q.views[n - 1], q.counts[n - 1]);
      assert LinkedAt(t, ChainOf(q.views[n - 1], q.counts[n - 1]), first.number + n - q.views[n - 1].start);
    }
  }

  /** Blocks that follow one another in one view do so in every view that holds the later one. */
  lemma ParentIsShared(t: Tree, v: View, count: nat, w: View, others: nat, lower: Cursor, upper: Cursor)
    requires At(v, count, lower.number, lower) && At(v, count, lower.number + 1, upper) && Linked(t, ChainOf(v, count))
    requires At(w, others, lower.number + 1, upper) && Linked(t, ChainOf(w, others)) && w.start <= lower.number
    ensures At(w, others, lower.number, lower)
  {
    hide ViewOk, ChainOf;
    ViewShape(v, count);
    ViewShape(w, others);
    assert LinkedAt(t, ChainOf(v, count), upper.number - v.start);
    assert LinkedAt(t, ChainOf(w, others), upper.number - w.start);
  }

  /** So a walk through changing views is a walk through the last one. */
  lemma {:induction false} WalkIsInLast(t: Tree, q: Questions, first: Cursor, i: nat, k: nat)
    requires AllReadable(t, q, first) && i <= k < |q.views| && Agree(t, q, first, k + 1)
    ensures Agree(t, q, first, i) && At(q.views[k], q.counts[k], first.number + i, Answer(t, q, first, i))
    decreases k - i
  {
    hide ViewOk, ChainOf, Linked, IsCanonical;
    AgreeBelow(t, q, first, i, k + 1);
    if i < k {
      WalkIsInLast(t, q, first, i + 1, k);
      ParentIsShared(t, q.views[i], q.counts[i], q.views[k], q.counts[k], Answer(t, q, first, i),
                     Answer(t, q, first, i + 1));
    }
  }

  lemma {:induction false} AgreeBelow(t: Tree, q: Questions, first: Cursor, i: nat, n: nat)
    requires AllReadable(t, q, first) && i <= n <= |q.views| && Agree(t, q, first, n)
    ensures Agree(t, q, first, i)
    decreases n - i
  {
    hide AllReadable, GoesOn, Answer;
    if i < n { AgreeBelow(t, q, first, i, n - 1); }
  }

  /** The next cursor, or an error when the chain view does not answer Continue. */
  method Following(ghost t: Tree, q: Questions, ghost first: Cursor, i: nat, current: Cursor)
    returns (r: Result<Cursor>)
    requires AllReadable(t, q, first) && i < |q.views| && Agree(t, q, first, i) && current == Answer(t, q, first, i)
    ensures r.Ok? <==> Agree(t, q, first, i + 1)
    ensures r.Ok? ==> r.value == Answer(t, q, first, i + 1)
  {
    hide ChainOf, GetNextCursor, Supported, Linked;
    AnswerHasHash(t, q, first, i);
    AskedNext(q.views[i], q.counts[i], current);
    var next := GetNextCursor(q.views[i], Some(current));
    match next
    case Ok(ContinueTo(cursor, _)) => r := Ok(cursor);
    case _ => r := Rejected;
  }

  /** The blocks that the answers led to, in order. */
  ghost predicate Walked(t: Tree, q: Questions, first: Cursor, blocks: seq<Cursor>)
    requires AllReadable(t, q, first)
  {
    && |blocks| <= |q.views| && Agree(t, q, first, |blocks|)
    && forall i: nat :: i < |blocks| ==> Agree(t, q, first, i) && blocks[i] == Answer(t, q, first, i)
  }

  lemma WalkedOn(t: Tree, q: Questions, first: Cursor, blocks: seq<Cursor>)
    requires AllReadable(t, q, first) && Walked(t, q, first, blocks) && |blocks| < |q.views|
             && Agree(t, q, first, |blocks| + 1)
    ensures Agree(t, q, first, |blocks|) && Walked(t, q, first, blocks + [Answer(t, q, first, |blocks|)])
  {
    hide AllReadable, Agree, Answer;
  }

  /**
   * The blocks of a segment, in the order they are added to it. They are downloaded through a queue of bounded
   * size. Whatever the bound, and however the view changes on the way, the call succeeds exactly when every view
   * goes on from the block that the one before it answered; the segment is then one consecutive stretch of the
   * chain of the last view asked, which has one more block after it.
   */
  method CompactSegment(ghost t: Tree, q: Questions, first: Cursor) returns (r: Result<seq<Cursor>>)
    requires AllReadable(t, q, first)
    ensures r.Ok? <==> Agree(t, q, first, |q.views|)
    ensures r.Ok? ==> |r.value| == |q.views|
    ensures r.Ok? && r.value != [] ==>
              var last := |q.views| - 1;
              && r.value[0] == first && Consecutive(q.views[last], q.counts[last], first.number, r.value)
              && first.number + |r.value| <= q.views[last].recent.info.last.number
  {
    hide AllReadable, Agree, Answer, Walked, Consecutive;
    var size := |q.views|;
    var buffered := if size < MAX_BUFFERED_BLOCKS then size else MAX_BUFFERED_BLOCKS;
    var queue: seq<Cursor>, added: seq<Cursor>, current, last := [], [], first, first;
    NothingAsked(t, q, first);

    for i := 0 to buffered
      invariant |queue| == i && Walked(t, q, first, queue) && Agree(t, q, first, i) && current == Answer(t, q, first, i)
    {
      var next := Following(t, q, first, i, current);
      if next.Rejected? {
        AgreeAllTheWay(t, q, first, i + 1);
        return Rejected;
      }
      WalkedOn(t, q, first, queue);
      queue, current := queue + [current], next.value;
    }

    assert added + queue == queue;
    for i := buffered to size
      invariant |queue| == buffered && |added| == i - buffered && Walked(t, q, first, added + queue)
      invariant Agree(t, q, first, i) && current == Answer(t, q, first, i)
      invariant last == if added == [] then first else added[|added| - 1]
    {
      var block := queue[0];
      var next := Following(t, q, first, i, current);
      if next.Rejected? {
        AgreeAllTheWay(t, q, first, i + 1);
        return Rejected;
      }
      WalkedOn(t, q, first, added + queue);
      assert added + queue + [current] == added + [block] + (queue[1..] + [current]);
      added, queue, last, current := added + [block], queue[1..] + [current], block, next.value;
    }

    for i := 0 to buffered
      invariant |queue| == buffered - i && |added| == size - buffered + i && Walked(t, q, first, added + queue)
      invariant last == if added == [] then first else added[|added| - 1]
    {
      var block := queue[0];
      assert (added + queue)[|added|] == block && added + queue == added + [block] + queue[1..];
      InOrder(t, q, first, added + queue, |added|);
      added, queue := added + [block], queue[1..];
      if block != first && block.number != last.number + 1 {
        assert false;
        return Rejected;
      }
      last := block;
    }

    if |added| != size {
      assert false;
      return Rejected;
    }
    assert added + queue == added;
    if size > 0 { WalkedIsConsecutive(t, q, first, added); }
    r := Ok(added);
  }

  lemma NothingAsked(t: Tree, q: Questions, first: Cursor)
    requires AllReadable(t, q, first)
    ensures Agree(t, q, first, 0) && Answer(t, q, first, 0) == first && Walked(t, q, first, [])
  {
  }

  lemma AgreeAllTheWay(t: Tree, q: Questions, first: Cursor, n: nat)
    requires AllReadable(t, q, first) && n <= |q.views| && !Agree(t, q, first, n)
    ensures !Agree(t, q, first, |q.views|)
  {
    if Agree(t, q, first, |q.views|) { AgreeBelow(t, q, first, n, |q.views|); }
  }

  /** Each block is the first one or follows the one before it. */
  lemma InOrder(t: Tree, q: Questions, first: Cursor, blocks: seq<Cursor>, k: nat)
    requires AllReadable(t, q, first) && Walked(t, q, first, blocks) && k < |blocks|
    ensures k == 0 ==> blocks[k] == first
    ensures k > 0 ==> blocks[k].number == blocks[k - 1].number + 1
  {
    hide AllReadable, Agree;
  }

  lemma WalkedIsConsecutive(t: Tree, q: Questions, first: Cursor, blocks: seq<Cursor>)
    requires AllReadable(t, q, first) && Walked(t, q, first, blocks) && |blocks| == |q.views| >= 1
    ensures var last := |q.views| - 1;
            && blocks[0] == first && Consecutive(q.views[last], q.counts[last], first.number, blocks)
            && first.number + |blocks| <= q.views[last].recent.info.last.number
  {
    hide ViewOk, ChainOf, Linked, IsCanonical, At, Answer;
    var last := |q.views| - 1;
    forall i: nat | i < |blocks|
      ensures At(q.views[last], q.counts[last], first.number + i, blocks[i])
    {
      WalkIsInLast(t, q, first, i, last);
    }
    NothingAsked(t, q, first);
  }

  // ------------------------------------------------------------------ compacting a group

  type IndexSegments = map<nat, SegmentOf<seq<IndexFragment>>>

  /** The segments of a group from its first block on are all there. */
  ghost predicate AllStored(segments: IndexSegments, first: nat, size: nat, count: nat) {
    forall i: nat :: i < count ==> Edge(first, size, i) in segments
  }

  /** Their blocks, in order. */
  ghost function DataOf(segments: IndexSegments, first: nat, size: nat, count: nat): seq<BlockIndexes>
    requires AllStored(segments, first, size, count)
  {
    if count == 0 then [] else DataOf(segments, first, size, count - 1) + segments[Edge(first, size, count - 1)].data
  }

  ghost function RangeOf(segments: IndexSegments, first: nat, size: nat, count: nat): Option<(Cursor, nat)>
    requires AllStored(segments, first, size, count) && size >= 1
  {
    if count == 0 then None
    else Some((segments[Edge(first, size, 0)].firstBlock, segments[Edge(first, size, count - 1)].firstBlock.number
               + size - 1))
  }

  /** The builder holds exactly the first `count` segments. */
  ghost predicate HoldsSegments(b: SegmentGroupBuilder, segments: IndexSegments, first: nat, count: nat)
    reads b
  {
    && b.segmentSize >= 1 && b.segmentCount == count && AllStored(segments, first, b.segmentSize, count)
    && b.blockRange == RangeOf(segments, first, b.segmentSize, count)
    && b.blockIndexes == WithBlocks(map[], DataOf(segments, first, b.segmentSize, count))
  }

  /** Waits for the next download and adds it. */
  method AddNext(b: SegmentGroupBuilder, segments: IndexSegments, start: nat, ghost first: nat, ghost count: nat)
    returns (ok: bool)
    requires HoldsSegments(b, segments, first, count) && start == Edge(first, b.segmentSize, count)
    modifies b
    ensures ok <==> start in segments
    ensures ok ==> HoldsSegments(b, segments, first, count + 1)
  {
    hide WithBlocks, Edge;
    ok := start in segments;
    if ok {
      SegmentsJoin(map[], DataOf(segments, first, b.segmentSize, count), segments[start].data);
      b.AddSegment(segments[start]);
    }
  }

  /** Starts of the downloads under way. */
  ghost predicate Queued(queue: seq<nat>, first: nat, size: nat, from: nat, to: nat) {
    from <= to && |queue| == to - from && forall i: nat :: i < |queue| ==> queue[i] == Edge(first, size, from + i)
  }

  /**
   * However many segments are downloaded ahead, the group is built from all blocks of its segments in order; it fails
   * exactly when one of them is missing or there are none.
   */
  method CompactGroup(segments: IndexSegments, first: nat, size: nat, groupSize: nat) returns (r: Result<SegmentGroup>)
    requires size >= 1
    ensures r.Ok? <==> groupSize >= 1 && AllStored(segments, first, size, groupSize)
    ensures r.Ok? ==>
              r == BuildGroup(RangeOf(segments, first, size, groupSize),
                              WithBlocks(map[], DataOf(segments, first, size, groupSize)))
  {
    hide WithBlocks, Edge, BuildGroup;
    var builder := new SegmentGroupBuilder(size);
    var buffered := if groupSize < MAX_BUFFERED_SEGMENTS then groupSize else MAX_BUFFERED_SEGMENTS;
    var queue: seq<nat> := [];
    NothingAdded();

    for i := 0 to buffered
      invariant Queued(queue, first, size, 0, i) && HoldsSegments(builder, segments, first, 0)
                && builder.segmentSize == size && fresh(builder)
    {
      queue := queue + [Edge(first, size, i)];
    }

    for i := buffered to groupSize
      invariant Queued(queue, first, size, i - buffered, i) && HoldsSegments(builder, segments, first, i - buffered)
      invariant builder.segmentSize == size && fresh(builder)
    {
      var ok := AddNext(builder, segments, queue[0], first, i - buffered);
      if !ok {
        return Rejected;
      }
      queue := queue[1..] + [Edge(first, size, i)];
    }

    for i := 0 to buffered
      invariant Queued(queue, first, size, groupSize - buffered + i, groupSize)
      invariant HoldsSegments(builder, segments, first, groupSize - buffered + i) && builder.segmentSize == size
                && fresh(builder)
    {
      var ok := AddNext(builder, segments, queue[0], first, groupSize - buffered + i);
      if !ok {
        return Rejected;
      }
      queue := queue[1..];
    }

    if builder.segmentCount != groupSize {
      assert false;
      return Rejected;
    }
    r := builder.Finish();
  }

  lemma NothingAdded()
    ensures WithBlocks(map[], []) == map[]
  {
  }

  // ------------------------------------------------------------------ pruning

  /** Where the loop stops: at the limit if whole rounds end there, otherwise one past it. */
  function PruneEnd(from: nat, limit: nat, size: nat): nat
    requires size >= 1
  {
    if from >= limit then from
    else if (limit - from) % size == 0 then limit
    else limit + 1
  }

  /** Between two multiples there is none, and a multiple is one. */
  lemma MultiplesOf(d: nat, size: nat, k: nat)
    requires size >= 1 && k * size <= d < (k + 1) * size
    ensures d % size == 0 <==> d == k * size
  {
    StretchBetween(d, 0, size, k);
    assert d == d / size * size + d % size;
  }

  class BlockStore {
    var blocks: set<Cursor>
    var pruned: Option<nat>

    constructor (initial: set<Cursor>)
      ensures blocks == initial && pruned == None
    {
      blocks, pruned := initial, None;
    }

    /** Deletes every object of that height. */
    method DeleteBlockWithPrefix(n: nat)
      modifies this`blocks
      ensures blocks == set c | c in old(blocks) && c.number != n
    {
      blocks := set c | c in blocks && c.number != n;
    }

    /** One round of the loop: up to `size` heights, none past the limit. */
    method PruneRound(from: nat, limit: nat, size: nat) returns (next: nat)
      requires from <= limit
      modifies this`blocks
      ensures next == if from + size <= limit + 1 then from + size else limit + 1
      ensures blocks == set c | c in old(blocks) && !(from <= c.number < next)
    {
      next := from;
      var i := 0;
      while i < size
        invariant i <= size && next <= limit + 1 && next == from + i
        invariant blocks == set c | c in old(blocks) && !(from <= c.number < next)
      {
        if next > limit {
          break;
        }
        DeleteBlockWithPrefix(next);
        next := next + 1;
        i := i + 1;
      }
    }

    /**
     * Deletes exactly the heights from the last pruned block (or the starting block) up to PruneEnd, never past
     * `grouped`, and records the last height deleted. A segment size of 0 would never end.
     */
    method PruneLoop(grouped: Option<nat>, start: nat, size: nat)
      requires size >= 1
      modifies this
      ensures grouped.None? ==> blocks == old(blocks) && pruned == old(pruned)
      ensures grouped.Some? ==>
                var from := if old(pruned).Some? then old(pruned).value else start;
                var end := PruneEnd(from, grouped.value, size);
                && (end > from ==> end <= grouped.value + 1)
                && blocks == (set c | c in old(blocks) && !(from <= c.number < end))
                && pruned == if end > from then Some(end - 1) else old(pruned)
    {
      if grouped.None? {
        return;
      }
      var limit := grouped.value;
      var from := if pruned.Some? then pruned.value else start;
      var current := from;
      ghost var round := 0;
      while current < limit
        invariant from <= current
        invariant (current == from + round * size && (current <= limit || round == 0))
                  || (current == limit + 1 && round >= 1 && from + (round - 1) * size < limit < from + round * size)
        invariant blocks == set c | c in old(blocks) && !(from <= c.number < current)
        invariant pruned == if current > from then Some(current - 1) else old(pruned)
        decreases limit + 1 - current
      {
        assert (round + 1) * size == round * size + size;
        current := PruneRound(current, limit, size);
        pruned := Some(current - 1);
        round := round + 1;
      }
      if current == limit && from < limit {
        assert (round + 1) * size == round * size + size;
        MultiplesOf(limit - from, size, round);
      } else if current == limit + 1 && from < limit {
        MultiplesOf(limit - from, size, round - 1);
      }
    }
  }
}
