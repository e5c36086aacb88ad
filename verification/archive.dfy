/** How the builder's operations act on the chain that stored segments and the builder form together. */
module StoredChain {
  import opened Core
  import opened Watermarks
  import opened Chain
  import opened Ledgers
  import opened ChainView

  /** Storing a segment above a chain leaves that chain as it was. */
  lemma StoreAbove(segments: map<nat, Segment>, start: nat, size: nat, count: nat, recent: Ledger, at: nat,
                   segment: Segment)
    requires Supported(segments, start, size, count, recent) && count <= at
    ensures var after := segments[Edge(start, size, at) := segment];
            && Supported(after, start, size, count, recent)
            && ViewChain(after, start, size, count, recent) == ViewChain(segments, start, size, count, recent)
  {
    hide Edge, FullSegment, Contiguous, Whole;
    var after := segments[Edge(start, size, at) := segment];
    forall i: nat | i < count
      ensures StoredAt(after, start, size, i)
      ensures Edge(start, size, i) in segments
      ensures after[Edge(start, size, i)] == segments[Edge(start, size, i)]
    {
      assert StoredAt(segments, start, size, i);
      EdgeMonotone(start, size, i, at);
    }
    assert Stored(after, start, size, count) == Stored(segments, start, size, count);
  }

  lemma SupportGrows(segments: map<nat, Segment>, start: nat, size: nat, count: nat, recent: Ledger, hash: Hash)
    requires Supported(segments, start, size, count, recent)
    ensures Supported(segments, start, size, count, Grown(recent, hash))
    ensures ViewChain(segments, start, size, count, Grown(recent, hash)) ==
            Grown(ViewChain(segments, start, size, count, recent), hash)
  {
    WholeGrows(Stored(segments, start, size, count), recent, hash);
  }

  lemma SupportCuts(segments: map<nat, Segment>, start: nat, size: nat, count: nat, recent: Ledger, newHead: Cursor)
    requires Supported(segments, start, size, count, recent) && IsCanonical(recent, newHead)
    ensures Supported(segments, start, size, count, Cut(recent, newHead))
    ensures IsCanonical(ViewChain(segments, start, size, count, recent), newHead)
    ensures ViewChain(segments, start, size, count, Cut(recent, newHead)) ==
            Cut(ViewChain(segments, start, size, count, recent), newHead)
  {
    WholeCuts(Stored(segments, start, size, count), recent, newHead);
  }

  lemma {:induction false} WholeTrims(stored: seq<Segment>, upper: Ledger)
    requires Contiguous(stored, upper.first)
    ensures Whole(stored, Trimmed(upper)) == Trimmed(Whole(stored, upper))
  {
    if stored != [] {
      var top := |stored| - 1;
      var lower := OfSegment(stored[top]);
      forall c: Cursor
        ensures Moved(Join(lower, Trimmed(upper)), c) == Moved(Trimmed(Join(lower, upper)), c)
      {
        SegmentMoves(stored[top]);
      }
      SameLedger(Join(lower, Trimmed(upper)), Trimmed(Join(lower, upper)));
      WholeTrims(stored[..top], Join(lower, upper));
    }
  }

  lemma SupportTrims(segments: map<nat, Segment>, start: nat, size: nat, count: nat, recent: Ledger)
    requires Supported(segments, start, size, count, recent)
    ensures Supported(segments, start, size, count, Trimmed(recent))
    ensures ViewChain(segments, start, size, count, Trimmed(recent)) ==
            Trimmed(ViewChain(segments, start, size, count, recent))
  {
    WholeTrims(Stored(segments, start, size, count), recent);
  }

  /** Splitting a segment off and storing it under its own key keeps the chain and raises the count by one. */
  lemma SupportTakes(segments: map<nat, Segment>, start: nat, size: nat, count: nat, b: Builder)
    requires Wf(b) && b.Building? && |b.canonical| > size && Supported(segments, start, size, count, OfBuilder(b))
    ensures var t := TakeSegment(b, size).value;
            && Wf(t.builder) && t.builder.Building? && t.builder.info.last == b.info.last
            && t.segment.info.first.number == Edge(start, size, count)
            && var after := segments[Edge(start, size, count) := t.segment];
               && Supported(after, start, size, count + 1, OfBuilder(t.builder))
               && ViewChain(after, start, size, count + 1, OfBuilder(t.builder)) ==
                  ViewChain(segments, start, size, count, OfBuilder(b))
  {
    hide Edge, Contiguous, Whole, TakeSegment, StoredAt, OfBuilder, Stored;
    TakeSegmentOnLedger(b, size);
    var t := TakeSegment(b, size).value;
    var after := segments[Edge(start, size, count) := t.segment];
    StoreAbove(segments, start, size, count, OfBuilder(b), count, t.segment);
    EdgeStep(start, size, count);
    StoredOneMore(after, start, size, count, t.segment);
    WholeAfterTake(Stored(after, start, size, count), b, size);
    EntriesAbove(t.builder);
    FirstOf(b);
    FirstOf(t.builder);
  }

  lemma StoredOneMore(segments: map<nat, Segment>, start: nat, size: nat, count: nat, segment: Segment)
    requires Edge(start, size, count) in segments && segments[Edge(start, size, count)] == segment
    requires FullSegment(segment, Edge(start, size, count), size)
    requires forall i: nat :: i < count ==> StoredAt(segments, start, size, i)
    ensures forall i: nat :: i < count + 1 ==> StoredAt(segments, start, size, i)
    ensures Stored(segments, start, size, count + 1) == Stored(segments, start, size, count) + [segment]
  {
    hide Edge, FullSegment;
  }

  lemma FirstOf(b: Builder)
    requires Wf(b) && b.Building?
    ensures OfBuilder(b).first == b.info.first.number
  {
  }

  lemma EntriesAbove(b: Builder)
    requires Wf(b) && b.Building?
    ensures forall c :: c in OfBuilder(b).moved ==> c.number >= OfBuilder(b).first
  {
    forall c | c in OfBuilder(b).moved
      ensures c.number >= b.info.first.number
    {
      assert c.number in b.reorgs;
    }
  }

  /** The head of the whole chain is the head of its upper part. */
  lemma SupportHead(segments: map<nat, Segment>, start: nat, size: nat, count: nat, recent: Ledger)
    requires Supported(segments, start, size, count, recent) && recent.hashes != []
    ensures ViewChain(segments, start, size, count, recent).hashes != []
    ensures HeadOf(ViewChain(segments, start, size, count, recent)) == HeadOf(recent)
    ensures recent.first <= HeadOf(recent).number
  {
    hide Edge, StoredAt, Contiguous, Whole, Stored;
    WholeAbove(Stored(segments, start, size, count), recent, HeadOf(recent));
  }
}
