/**
 * What a chain says to its readers, whichever way it is split.
 *
 * A ledger is the list of canonical hashes from a first height, and where every removed block leads.
 * Builders, segments and whole archives all denote ledgers; growing and shrinking act on them, and
 * splitting a segment off must not change them.
 */
module Ledgers {
  import opened Core
  import opened Sorting
  import opened Chain

  datatype Ledger = Ledger(first: nat, hashes: seq<Hash>, moved: imap<Cursor, Cursor>)

  ghost function Flat(reorgs: map<nat, ReorgMap>): imap<Cursor, Cursor> {
    imap c: Cursor | c.number in reorgs && c.hash in reorgs[c.number] :: reorgs[c.number][c.hash]
  }

  ghost function OfBuilder(b: Builder): Ledger
    requires b.Building?
  {
    Ledger(b.info.first.number, b.canonical, Flat(b.reorgs))
  }

  ghost function OfSegment(s: Segment): Ledger
    requires WfSegment(s)
  {
    Ledger(s.info.first.number, Hashes(s.canonical),
           imap c: Cursor | ReorgsIn(s, c.number).Some? && c.hash in ReorgsIn(s, c.number).value ::
             ReorgsIn(s, c.number).value[c.hash])
  }

  function Entry(reorgs: map<nat, ReorgMap>, c: Cursor): Option<Cursor> {
    if c.number in reorgs && c.hash in reorgs[c.number] then Some(reorgs[c.number][c.hash]) else None
  }

  ghost function Moved(l: Ledger, c: Cursor): Option<Cursor> {
    if c in l.moved then Some(l.moved[c]) else None
  }

  lemma SameLedger(a: Ledger, b: Ledger)
    requires a.first == b.first && a.hashes == b.hashes
    requires forall c: Cursor :: Moved(a, c) == Moved(b, c)
    ensures a == b
  {
    forall c: Cursor
      ensures c in a.moved <==> c in b.moved
      ensures c in a.moved && c in b.moved ==> a.moved[c] == b.moved[c]
    {
      assert Moved(a, c) == Moved(b, c);
    }
    assert a.moved == b.moved;
  }

  predicate IsCanonical(l: Ledger, c: Cursor) {
    l.first <= c.number < l.first + |l.hashes| && l.hashes[c.number - l.first] == c.hash
  }

  function HeadOf(l: Ledger): Cursor
    requires l.hashes != []
  {
    Cursor(l.first + |l.hashes| - 1, l.hashes[|l.hashes| - 1])
  }

  ghost function Grown(l: Ledger, hash: Hash): Ledger {
    l.(hashes := l.hashes + [hash])
  }

  /** The blocks after `newHead` leave the chain and lead to `newHead`. */
  ghost function Cut(l: Ledger, newHead: Cursor): Ledger
    requires IsCanonical(l, newHead)
  {
    Ledger(l.first, l.hashes[..newHead.number - l.first + 1],
           imap c: Cursor | c in l.moved || (IsCanonical(l, c) && c.number > newHead.number) ::
             if IsCanonical(l, c) && c.number > newHead.number then newHead else l.moved[c])
  }

  ghost function Join(lower: Ledger, upper: Ledger): Ledger {
    Ledger(lower.first, lower.hashes + upper.hashes,
           imap c: Cursor | c in lower.moved || c in upper.moved ::
             if c in lower.moved then lower.moved[c] else upper.moved[c])
  }

  /** Drops what a restart forgets: entries past the last block. */
  ghost function Trimmed(l: Ledger): Ledger {
    l.(moved := imap c: Cursor | c in l.moved && c.number < l.first + |l.hashes| :: l.moved[c])
  }

  // ------------------------------------------------------------------ the builder's operations on ledgers

  lemma GrowOnLedger(b: Builder, block: BlockInfo)
    requires Wf(b) && b.Building? && !IsZero(b.info.last.hash) && CanGrow(b, block)
    ensures Wf(Grow(b, block).value)
    ensures OfBuilder(Grow(b, block).value) == Grown(OfBuilder(b), block.hash)
  {
  }

  /** What shrinking records, for one cursor. */
  lemma ShrinkOnEntry(b: Builder, newHead: Cursor, c: Cursor)
    requires Wf(b) && b.Building? && IsCanonical(OfBuilder(b), newHead)
    ensures Shrink(b, newHead).Ok?
    ensures Entry(Shrink(b, newHead).value.builder.reorgs, c) ==
            if IsCanonical(OfBuilder(b), c) && c.number > newHead.number then Some(newHead) else Entry(b.reorgs, c)
  {
    var keep := newHead.number - b.info.first.number + 1;
    if newHead.number < c.number < b.info.first.number + |b.canonical| {
      assert b.canonical[keep..][c.number - (newHead.number + 1)] == b.canonical[c.number - b.info.first.number];
    }
  }

  lemma ShrinkShape(b: Builder, newHead: Cursor)
    requires Wf(b)
    ensures Shrink(b, newHead).Ok? <==> b.Building? && IsCanonical(OfBuilder(b), newHead)
    ensures Shrink(b, newHead).Ok? ==>
              var after := Shrink(b, newHead).value.builder;
              && Wf(after) && after.Building?
              && after.previous == b.previous && after.info.first == b.info.first
              && after.canonical == b.canonical[..newHead.number - b.info.first.number + 1]
  {
  }

  lemma ShrinkOnLedger(b: Builder, newHead: Cursor)
    requires Wf(b)
    ensures Shrink(b, newHead).Ok? <==> b.Building? && IsCanonical(OfBuilder(b), newHead)
    ensures Shrink(b, newHead).Ok? ==>
              var after := Shrink(b, newHead).value.builder;
              && Wf(after) && after.Building?
              && after.previous == b.previous && after.info.first == b.info.first
              && OfBuilder(after) == Cut(OfBuilder(b), newHead)
  {
    hide Shrink, Wf;
    ShrinkShape(b, newHead);
    if b.Building? && IsCanonical(OfBuilder(b), newHead) {
      var after, cut := Shrink(b, newHead).value.builder, Cut(OfBuilder(b), newHead);
      forall c: Cursor
        ensures Moved(OfBuilder(after), c) == Moved(cut, c)
      {
        ShrinkOnEntry(b, newHead, c);
      }
      SameLedger(OfBuilder(after), cut);
    }
  }

  lemma {:induction false} FindInAscending(heights: set<nat>, reorgs: map<nat, ReorgMap>, n: nat)
    requires heights <= reorgs.Keys
    ensures FindExtra(Ascending(heights, reorgs), n) == if n in heights then Some(reorgs[n]) else None
    decreases |heights|
  {
    if heights != {} {
      var least := Least(heights);
      FindInAscending(heights - {least}, reorgs, n);
    }
  }

  /** What `current_segment` writes for readers is the builder's own ledger. */
  lemma CurrentSegmentOnLedger(b: Builder)
    requires Wf(b) && b.Building?
    ensures CurrentSegment(b).Ok? && WfSegment(CurrentSegment(b).value)
    ensures OfSegment(CurrentSegment(b).value) == OfBuilder(b)
  {
    var s := CurrentSegment(b).value;
    assert Hashes(s.canonical) == b.canonical;
    forall c: Cursor
      ensures Moved(OfSegment(s), c) == Moved(OfBuilder(b), c)
    {
      FindInAscending(PastTheEnd(b.reorgs, b.info.last.number), b.reorgs, c.number);
      assert ReorgsIn(s, c.number) ==
             if c.number < b.info.first.number || (c.number > b.info.last.number && c.number !in b.reorgs) then None
             else Some(ReorgsAt(b.reorgs, c.number));
    }
    SameLedger(OfSegment(s), OfBuilder(b));
  }

  lemma RestoreOnEntry(s: Segment, c: Cursor)
    requires WfSegment(s)
    ensures Moved(OfBuilder(Restore(s)), c) == Moved(Trimmed(OfSegment(s)), c)
  {
  }

  /** A restart keeps the chain and loses exactly the reorg entries past its last block. */
  lemma RestoreOnLedger(s: Segment)
    requires WfSegment(s)
    ensures Wf(Restore(s)) && Restore(s).Building?
    ensures OfBuilder(Restore(s)) == Trimmed(OfSegment(s))
  {
    forall c: Cursor
      ensures Moved(OfBuilder(Restore(s)), c) == Moved(Trimmed(OfSegment(s)), c)
    {
      RestoreOnEntry(s, c);
    }
    SameLedger(OfBuilder(Restore(s)), Trimmed(OfSegment(s)));
  }

  lemma ReadBack(first: nat, hashes: seq<Hash>, reorgs: map<nat, ReorgMap>, n: nat)
    ensures Hashes(WithReorgs(first, hashes, reorgs)) == hashes
    ensures ReorgsAt(ReorgsOf(first, WithReorgs(first, hashes, reorgs)), n) ==
            if first <= n < first + |hashes| then ReorgsAt(reorgs, n) else map[]
  {
  }

  /** Restoring what the builder wrote gives the builder back, up to those entries and empty ones. */
  lemma RestoreAfterCurrent(b: Builder, n: nat)
    requires Wf(b) && b.Building?
    ensures var r := Restore(CurrentSegment(b).value);
            && r.previous == b.previous && r.info == b.info && r.canonical == b.canonical
            && ReorgsAt(r.reorgs, n) == if n <= b.info.last.number then ReorgsAt(b.reorgs, n) else map[]
  {
    hide Ascending, PastTheEnd, ReorgsOf, WithReorgs, Hashes;
    ReadBack(b.info.first.number, b.canonical, b.reorgs, n);
  }

  /** What splitting a segment off does to one cursor's entry. */
  lemma TakeSegmentOnEntry(b: Builder, size: nat, c: Cursor)
    requires Wf(b) && b.Building? && 1 <= size < |b.canonical|
    ensures var t := TakeSegment(b, size).value;
            && WfSegment(t.segment)
            && Moved(OfSegment(t.segment), c) ==
              (if c.number < b.info.first.number + size then Entry(b.reorgs, c) else None)
            && Entry(t.builder.reorgs, c) ==
              (if c.number < b.info.first.number + size then None else Entry(b.reorgs, c))
  {
    var s := TakeSegment(b, size).value.segment;
    assert Hashes(s.canonical) == b.canonical[..size];
    assert ReorgsIn(s, c.number) ==
           if b.info.first.number <= c.number < b.info.first.number + size then Some(ReorgsAt(b.reorgs, c.number))
           else None;
  }

  /** Splitting a segment off a builder changes no reader's answer. */
  lemma TakeSegmentOnLedger(b: Builder, size: nat)
    requires Wf(b) && size >= 1
    ensures TakeSegment(b, size).Ok? <==> b.Building? && |b.canonical| > size
    ensures TakeSegment(b, size).Ok? ==>
              var t := TakeSegment(b, size).value;
              && Wf(t.builder) && t.builder.Building? && WfSegment(t.segment)
              && t.segment.info.first.number == b.info.first.number
              && |t.segment.canonical| == size && t.segment.extraReorgs == []
              && t.builder.info.first.number == b.info.first.number + size && t.builder.info.last == b.info.last
              && t.builder.previous == Some(t.segment.info) && t.segment.previous == b.previous
              && Join(OfSegment(t.segment), OfBuilder(t.builder)) == OfBuilder(b)
  {
    if b.Building? && |b.canonical| > size {
      var t := TakeSegment(b, size).value;
      assert Hashes(t.segment.canonical) == b.canonical[..size];
      var joined := Join(OfSegment(t.segment), OfBuilder(t.builder));
      forall c: Cursor
        ensures Moved(joined, c) == Moved(OfBuilder(b), c)
      {
        TakeSegmentOnEntry(b, size, c);
      }
      assert joined.hashes == b.canonical;
      SameLedger(joined, OfBuilder(b));
    }
  }

  /** Reading one segment is reading its ledger. */
  lemma SegmentReads(s: Segment, c: Cursor)
    requires WfSegment(s) && s.info.first.number <= c.number
    ensures IsCanonical(OfSegment(s), c) ==> Canonical(s, c.number) == Ok(c) && Reconnect(s, c) == Ok(Continue)
    ensures !IsCanonical(OfSegment(s), c) && !IsZero(c.hash) ==>
              if c in OfSegment(s).moved then Reconnect(s, c) == Ok(OfflineReorg(OfSegment(s).moved[c]))
              else Reconnect(s, c) == Rejected || Reconnect(s, c) == Ok(Unknown)
    ensures IsZero(c.hash) && c.number <= s.info.last.number ==> Reconnect(s, c) == Ok(Continue)
  {
  }

  // ------------------------------------------------------------------ archives

  function EndOf(s: Segment): nat {
    s.info.first.number + |s.canonical|
  }

  /** Segments in order, each the lower neighbour of what follows. */
  ghost predicate Contiguous(segments: seq<Segment>, upper: nat) {
    segments != [] ==>
      var last := segments[|segments| - 1];
      && WfSegment(last) && last.extraReorgs == [] && EndOf(last) == upper
      && Contiguous(segments[..|segments| - 1], last.info.first.number)
  }

  /** All segments and what follows them, read as one chain. */
  ghost function Whole(segments: seq<Segment>, upper: Ledger): Ledger
    requires Contiguous(segments, upper.first)
  {
    if segments == [] then upper
    else Whole(segments[..|segments| - 1], Join(OfSegment(segments[|segments| - 1]), upper))
  }

  lemma JoinOnCursor(lower: Ledger, upper: Ledger, c: Cursor)
    requires lower.first + |lower.hashes| == upper.first
    ensures IsCanonical(Join(lower, upper), c) <==> IsCanonical(lower, c) || IsCanonical(upper, c)
  {
  }

  /** The whole chain ends where its upper part ends, and has the same blocks there. */
  lemma {:induction false} WholeAbove(segments: seq<Segment>, upper: Ledger, c: Cursor)
    requires Contiguous(segments, upper.first)
    ensures var w := Whole(segments, upper);
            && w.first <= upper.first
            && w.first + |w.hashes| == upper.first + |upper.hashes|
            && (c.number >= upper.first ==> (IsCanonical(w, c) <==> IsCanonical(upper, c)))
  {
    if segments != [] {
      var last := segments[|segments| - 1];
      JoinOnCursor(OfSegment(last), upper, c);
      WholeAbove(segments[..|segments| - 1], Join(OfSegment(last), upper), c);
    }
  }

  lemma {:induction false} WholeGrows(segments: seq<Segment>, upper: Ledger, hash: Hash)
    requires Contiguous(segments, upper.first)
    ensures Whole(segments, Grown(upper, hash)) == Grown(Whole(segments, upper), hash)
  {
    if segments != [] {
      var rest, last := segments[..|segments| - 1], segments[|segments| - 1];
      var joined := Join(OfSegment(last), upper);
      WholeGrows(rest, joined, hash);
      assert OfSegment(last).hashes + (upper.hashes + [hash]) == joined.hashes + [hash];
      assert Join(OfSegment(last), Grown(upper, hash)) == Grown(joined, hash);
    }
  }

  lemma JoinCutOnEntry(lower: Ledger, upper: Ledger, newHead: Cursor, c: Cursor)
    requires lower.first + |lower.hashes| == upper.first && IsCanonical(upper, newHead)
             && IsCanonical(Join(lower, upper), newHead)
    requires c in lower.moved ==> c.number < upper.first
    ensures Moved(Join(lower, Cut(upper, newHead)), c) == Moved(Cut(Join(lower, upper), newHead), c)
  {
    JoinOnCursor(lower, upper, c);
    assert IsCanonical(lower, c) ==> c.number < upper.first <= newHead.number;
    hide IsCanonical;
  }

  lemma JoinCut(lower: Ledger, upper: Ledger, newHead: Cursor)
    requires lower.first + |lower.hashes| == upper.first && IsCanonical(upper, newHead)
    requires forall c :: c in lower.moved ==> c.number < upper.first
    ensures IsCanonical(Join(lower, upper), newHead)
    ensures Join(lower, Cut(upper, newHead)) == Cut(Join(lower, upper), newHead)
  {
    JoinOnCursor(lower, upper, newHead);
    var a, b := Join(lower, Cut(upper, newHead)), Cut(Join(lower, upper), newHead);
    assert a.first == b.first && a.hashes == b.hashes;
    hide Join, Cut, Moved;
    forall c: Cursor
      ensures Moved(a, c) == Moved(b, c)
    {
      JoinCutOnEntry(lower, upper, newHead, c);
    }
    SameLedger(a, b);
  }

  lemma {:induction false} WholeCuts(segments: seq<Segment>, upper: Ledger, newHead: Cursor)
    requires Contiguous(segments, upper.first) && IsCanonical(upper, newHead)
    ensures IsCanonical(Whole(segments, upper), newHead)
    ensures Whole(segments, Cut(upper, newHead)) == Cut(Whole(segments, upper), newHead)
  {
    if segments != [] {
      var rest, last := segments[..|segments| - 1], segments[|segments| - 1];
      JoinCut(OfSegment(last), upper, newHead);
      WholeCuts(rest, Join(OfSegment(last), upper), newHead);
    }
  }

  /** Taking a segment moves blocks from the builder to the archive and leaves the whole chain as it was. */
  lemma WholeAfterTake(segments: seq<Segment>, b: Builder, size: nat)
    requires Wf(b) && size >= 1 && b.Building? && |b.canonical| > size
    requires Contiguous(segments, b.info.first.number)
    ensures var t := TakeSegment(b, size).value;
            && t.builder.Building? && Contiguous(segments + [t.segment], t.builder.info.first.number)
            && Whole(segments + [t.segment], OfBuilder(t.builder)) == Whole(segments, OfBuilder(b))
  {
    TakeSegmentOnLedger(b, size);
    var t := TakeSegment(b, size).value;
    assert (segments + [t.segment])[..|segments|] == segments;
  }
}
