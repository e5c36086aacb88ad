/** The canonical chain builder that updates its fields in place (common/src/chain.rs). */
module ChainBuilder {
  import opened Core
  import opened Sorting
  import opened Chain

  /** Records removed blocks one by one, as the loop of `shrink` does. */
  ghost function RecordEach(reorgs: map<nat, ReorgMap>, from: nat, removed: seq<Hash>, target: Cursor)
    : map<nat, ReorgMap>
  {
    if removed == [] then reorgs
    else
      var before := RecordEach(reorgs, from, removed[..|removed| - 1], target);
      var n := from + |removed| - 1;
      before[n := ReorgsAt(before, n)[removed[|removed| - 1] := target]]
  }

  lemma {:induction false} RecordEachIsWithRemoved(reorgs: map<nat, ReorgMap>, from: nat, removed: seq<Hash>,
                                                   target: Cursor)
    ensures RecordEach(reorgs, from, removed, target) == WithRemoved(reorgs, from, removed, target)
  {
    if removed != [] {
      var n := from + |removed| - 1;
      var before := WithRemoved(reorgs, from, removed[..|removed| - 1], target);
      RecordEachIsWithRemoved(reorgs, from, removed[..|removed| - 1], target);
      assert ReorgsAt(before, n) == ReorgsAt(reorgs, n);
    }
  }

  lemma ReadOneMore(first: nat, blocks: seq<CanonicalBlock>, block: CanonicalBlock)
    ensures ReorgsOf(first, blocks + [block]) == ReorgsOf(first, blocks)[first + |blocks| := block.reorgs]
    ensures Hashes(blocks + [block]) == Hashes(blocks) + [block.hash]
  {
  }

  lemma RemovedHeights(reorgs: map<nat, ReorgMap>, from: nat, removed: seq<Hash>, target: Cursor)
    ensures forall n :: n in WithRemoved(reorgs, from, removed, target) ==> n in reorgs || n >= from
  {
  }

  lemma NothingRead(first: nat)
    ensures ReorgsOf(first, []) == map[] && Hashes([]) == []
  {
    assert Interval(first, 0) == {};
  }

  lemma RestoredIsWf(segment: Segment)
    requires WfSegment(segment)
    ensures Wf(Chain.Restore(segment))
  {
  }

  /** Removing the entries of one height after the other. */
  lemma FromStep(reorgs: map<nat, ReorgMap>, n: nat)
    ensures From(reorgs, n) - {n} == From(reorgs, n + 1) && ReorgsAt(From(reorgs, n), n) == ReorgsAt(reorgs, n)
  {
  }

  lemma FromFirst(reorgs: map<nat, ReorgMap>, first: nat)
    requires forall n :: n in reorgs ==> n >= first
    ensures From(reorgs, first) == reorgs
  {
  }

  lemma WithReorgsStep(from: nat, hashes: seq<Hash>, reorgs: map<nat, ReorgMap>, k: nat)
    requires k < |hashes|
    ensures WithReorgs(from, hashes, reorgs)[..k + 1] ==
            WithReorgs(from, hashes, reorgs)[..k] + [CanonicalBlock(hashes[k], ReorgsAt(reorgs, from + k))]
  {
  }

  class CanonicalChainBuilder {
    var started: bool
    var previous: Option<SegmentInfo>
    var info: SegmentInfo
    var canonical: seq<Hash>
    var reorgs: map<nat, ReorgMap>

    ghost function Value(): Builder
      reads this
    {
      if started then Building(previous, info, canonical, reorgs) else Empty
    }

    ghost predicate Valid()
      reads this
    {
      Wf(Value())
    }

    constructor ()
      ensures Valid() && Value() == Empty
    {
      started, previous, info := false, None, SegmentInfo(Unhashed(0), Unhashed(0));
      canonical, reorgs := [], map[];
    }

    constructor RestoreFromSegment(segment: Segment)
      requires WfSegment(segment)
      ensures Valid() && Value() == Chain.Restore(segment)
    {
      started, previous, info := true, segment.previous, segment.info;
      canonical, reorgs := [], map[];
      new;
      hide Hashes, ReorgsOf, Consistent;
      NothingRead(info.first.number);
      assert segment.canonical[..0] == [];
      for offset := 0 to |segment.canonical|
        invariant started && previous == segment.previous && info == segment.info
        invariant canonical == Hashes(segment.canonical[..offset])
        invariant reorgs == ReorgsOf(info.first.number, segment.canonical[..offset])
      {
        var block := segment.canonical[offset];
        ReadOneMore(info.first.number, segment.canonical[..offset], block);
        assert segment.canonical[..offset + 1] == segment.canonical[..offset] + [block];
        canonical := canonical + [block.hash];
        reorgs := reorgs[info.first.number + offset := block.reorgs];
      }
      assert segment.canonical[..|segment.canonical|] == segment.canonical;
      RestoredIsWf(segment);
    }

    method Grow(block: BlockInfo) returns (ok: bool)
      requires Valid()
      modifies this
      ensures !old(started) || !IsZero(old(info).last.hash) ==> Valid()
      ensures ok == CanGrow(old(Value()), block)
      ensures Value() == if ok then Chain.Grow(old(Value()), block).value else old(Value())
    {
      if started {
        ok := IsZero(info.last.hash) || (info.last.number + 1 == block.number && info.last.hash == block.parent);
        if ok {
          info := info.(last := block.ToCursor());
          canonical := canonical + [block.hash];
        }
      } else {
        ok := true;
        started, previous, reorgs := true, None, map[];
        info := SegmentInfo(block.ToCursor(), block.ToCursor());
        canonical := [block.hash];
      }
    }

    /** The loop of `shrink`: one reorg entry for every block after `index`. */
    method RecordRemoved(index: nat, newHead: Cursor) returns (cursors: seq<Cursor>)
      requires index < |canonical| && newHead.number == info.first.number + index
      modifies this`reorgs
      ensures cursors == Cursors(newHead.number + 1, canonical[index + 1..])
      ensures reorgs == WithRemoved(old(reorgs), newHead.number + 1, canonical[index + 1..], newHead)
    {
      cursors := [];
      ghost var from, gone := newHead.number + 1, canonical[index + 1..];
      for offset := 0 to |canonical| - index - 1
        invariant cursors == Cursors(from, gone)[..offset]
        invariant reorgs == RecordEach(old(reorgs), from, gone[..offset], newHead)
      {
        var hash := canonical[index + 1 + offset];
        var number := info.first.number + index + 1 + offset;
        assert gone[..offset + 1][..offset] == gone[..offset];
        cursors := cursors + [Cursor(number, hash)];
        reorgs := reorgs[number := ReorgsAt(reorgs, number)[hash := newHead]];
      }
      assert gone[..|gone|] == gone;
      RecordEachIsWithRemoved(old(reorgs), from, gone, newHead);
    }

    method Shrink(newHead: Cursor) returns (removed: Result<seq<Cursor>>)
      requires Valid()
      modifies this
      ensures Valid()
      ensures match Chain.Shrink(old(Value()), newHead)
              case Rejected => removed.Rejected? && Value() == old(Value())
              case Ok(shrunk) => removed == Ok(shrunk.removed) && Value() == shrunk.builder
    {
      hide WithRemoved, Cursors;
      if !started || newHead.number < info.first.number || newHead.number > info.last.number {
        return Rejected;
      }
      var index := newHead.number - info.first.number;
      if index >= |canonical| || canonical[index] != newHead.hash {
        return Rejected;
      }
      if index == |canonical| - 1 {
        return Ok([]);
      }
      RemovedHeights(reorgs, newHead.number + 1, canonical[index + 1..], newHead);
      var cursors := RecordRemoved(index, newHead);
      info := info.(last := newHead);
      canonical := canonical[..index + 1];
      removed := Ok(cursors);
    }

    method CurrentSegment() returns (segment: Result<Segment>)
      requires Valid()
      ensures segment == Chain.CurrentSegment(Value())
    {
      if !started {
        return Rejected;
      }
      var blocks := [];
      for offset := 0 to |canonical|
        invariant blocks == WithReorgs(info.first.number, canonical, reorgs)[..offset]
      {
        blocks := blocks + [CanonicalBlock(canonical[offset], ReorgsAt(reorgs, info.first.number + offset))];
      }
      // The source walks its tree map from the lowest height up.
      var extra, left := [], PastTheEnd(reorgs, info.last.number);
      while left != {}
        invariant left <= PastTheEnd(reorgs, info.last.number)
        invariant extra + Ascending(left, reorgs) == Ascending(PastTheEnd(reorgs, info.last.number), reorgs)
        decreases |left|
      {
        var n := Least(left);
        extra := extra + [ExtraReorg(n, reorgs[n])];
        left := left - {n};
      }
      assert Ascending(left, reorgs) == [] && extra + [] == extra;
      assert blocks == WithReorgs(info.first.number, canonical, reorgs);
      segment := Ok(Segment(previous, info, blocks, extra));
    }

    /** The loop of `take_segment`: the first blocks, each with the reorgs of its height. */
    method TakeBlocks(size: nat) returns (blocks: seq<CanonicalBlock>)
      requires size <= |canonical| && forall n :: n in reorgs ==> n >= info.first.number
      modifies this`canonical, this`reorgs
      ensures blocks == WithReorgs(info.first.number, old(canonical)[..size], old(reorgs))
      ensures canonical == old(canonical)[size..] && reorgs == From(old(reorgs), info.first.number + size)
    {
      var first := info.first.number;
      FromFirst(reorgs, first);
      hide From, WithReorgs, ReorgsAt;
      blocks := [];
      for offset := 0 to size
        invariant canonical == old(canonical)[offset..]
        invariant blocks == WithReorgs(first, old(canonical)[..size], old(reorgs))[..offset]
        invariant reorgs == From(old(reorgs), first + offset)
      {
        FromStep(old(reorgs), first + offset);
        WithReorgsStep(first, old(canonical)[..size], old(reorgs), offset);
        blocks := blocks + [CanonicalBlock(canonical[0], ReorgsAt(reorgs, first + offset))];
        canonical := canonical[1..];
        reorgs := reorgs - {first + offset};
      }
    }

    method TakeSegment(size: nat) returns (segment: Result<Segment>)
      requires Valid() && size >= 1
      modifies this
      ensures Valid()
      ensures match Chain.TakeSegment(old(Value()), size)
              case Rejected => segment.Rejected? && Value() == old(Value())
              case Ok(taken) => segment == Ok(taken.segment) && Value() == taken.builder
    {
      if !started || info.last.number - info.first.number < size {
        return Rejected;
      }
      var taken := SegmentInfo(info.first, Cursor(info.first.number + size - 1, canonical[size - 1]));
      var blocks := TakeBlocks(size);
      segment := Ok(Segment(previous, taken, blocks, []));
      previous := Some(taken);
      info := info.(first := Cursor(info.first.number + size, canonical[0]));
    }
  }
}
