/**
 * Segments transpose blocks: one object per fragment, one entry per block (common/src/compaction/segment_builder.rs).
 */
module SegmentBuilding {
  import opened Core
  import opened Fragments

  datatype Added = Added(cursor: Cursor, block: Block)

  /** What `segment_data` hands over for upload. */
  datatype SegmentData = SegmentData(index: SegmentOf<seq<IndexFragment>>, join: SegmentOf<seq<JoinFragment>>,
                                     header: SegmentOf<Bytes>, body: map<nat, SegmentOf<BodyFragment>>)

  function Headers(added: seq<Added>): seq<FragmentData<Bytes>> {
    seq(|added|, i requires 0 <= i < |added| => FragmentData(added[i].cursor, added[i].block.header))
  }

  function IndexesOf(added: seq<Added>): seq<FragmentData<seq<IndexFragment>>> {
    seq(|added|, i requires 0 <= i < |added| => FragmentData(added[i].cursor, added[i].block.index))
  }

  function JoinsOf(added: seq<Added>): seq<FragmentData<seq<JoinFragment>>> {
    seq(|added|, i requires 0 <= i < |added| => FragmentData(added[i].cursor, added[i].block.join))
  }

  /** The entries one block's fragments put under an id. */
  function Entries(cursor: Cursor, fragments: seq<BodyFragment>, id: nat): seq<FragmentData<BodyFragment>> {
    if fragments == [] then []
    else
      var last := fragments[|fragments| - 1];
      Entries(cursor, fragments[..|fragments| - 1], id) + if last.fragmentId == id then [FragmentData(cursor, last)]
      else []
  }

  function Bodies(added: seq<Added>, id: nat): seq<FragmentData<BodyFragment>> {
    if added == [] then []
    else
      var last := added[|added| - 1];
      Bodies(added[..|added| - 1], id) + Entries(last.cursor, last.block.body, id)
  }

  function EntriesAt(body: BodyMap, id: nat): seq<FragmentData<BodyFragment>> {
    if id in body then body[id] else []
  }

  type BodyMap = map<nat, seq<FragmentData<BodyFragment>>>

  function WithFragment(body: BodyMap, cursor: Cursor, fragment: BodyFragment): BodyMap {
    body[fragment.fragmentId := EntriesAt(body, fragment.fragmentId) + [FragmentData(cursor, fragment)]]
  }

  function WithFragments(body: BodyMap, cursor: Cursor, fragments: seq<BodyFragment>): BodyMap {
    if fragments == [] then body
    else WithFragment(WithFragments(body, cursor, fragments[..|fragments| - 1]), cursor, fragments[|fragments| - 1])
  }

  ghost predicate Filed(body: BodyMap, added: seq<Added>) {
    (forall id :: EntriesAt(body, id) == Bodies(added, id)) && forall id :: id in body ==> body[id] != []
  }

  lemma {:induction false} FragmentsFiled(body: BodyMap, cursor: Cursor, fragments: seq<BodyFragment>, id: nat)
    requires forall k :: k in body ==> body[k] != []
    ensures EntriesAt(WithFragments(body, cursor, fragments), id) ==
            EntriesAt(body, id) + Entries(cursor, fragments, id)
    ensures id in WithFragments(body, cursor, fragments) ==> WithFragments(body, cursor, fragments)[id] != []
    decreases |fragments|
  {
    if fragments != [] {
      FragmentsFiled(body, cursor, fragments[..|fragments| - 1], id);
    }
  }

  lemma BlockFiled(body: BodyMap, added: seq<Added>, cursor: Cursor, block: Block)
    requires Filed(body, added)
    ensures Filed(WithFragments(body, cursor, block.body), added + [Added(cursor, block)])
    ensures Headers(added + [Added(cursor, block)]) == Headers(added) + [FragmentData(cursor, block.header)]
    ensures IndexesOf(added + [Added(cursor, block)]) == IndexesOf(added) + [FragmentData(cursor, block.index)]
    ensures JoinsOf(added + [Added(cursor, block)]) == JoinsOf(added) + [FragmentData(cursor, block.join)]
  {
    hide WithFragments, Entries;
    var all := added + [Added(cursor, block)];
    assert all[..|added|] == added;
    forall id
      ensures EntriesAt(WithFragments(body, cursor, block.body), id) == Bodies(all, id)
      ensures id in WithFragments(body, cursor, block.body) ==> WithFragments(body, cursor, block.body)[id] != []
    {
      FragmentsFiled(body, cursor, block.body, id);
    }
  }

  /** Blocks are added in order; nothing but their transposition is kept. */
  class SegmentBuilder {
    var expectedFragmentCount: Option<nat>
    var firstBlock: Option<Cursor>
    var headers: seq<FragmentData<Bytes>>
    var indexes: seq<FragmentData<seq<IndexFragment>>>
    var joins: seq<FragmentData<seq<JoinFragment>>>
    var body: BodyMap
    ghost var added: seq<Added>

    ghost predicate Valid()
      reads this
    {
      && headers == Headers(added) && indexes == IndexesOf(added) && joins == JoinsOf(added)
      && Filed(body, added)
    }

    constructor ()
      ensures Valid() && added == [] && firstBlock == None && expectedFragmentCount == None
    {
      expectedFragmentCount, firstBlock, headers, indexes, joins, body := None, None, [], [], [], map[];
      added := [];
    }

    method StartNewSegment(first: Cursor) returns (ok: bool)
      requires Valid()
      modifies this`firstBlock
      ensures Valid() && added == old(added)
      ensures ok <==> old(firstBlock).None?
      ensures firstBlock == if ok then Some(first) else old(firstBlock)
    {
      ok := firstBlock.None?;
      if ok { firstBlock := Some(first); }
    }

    /** A block with another number of fragments than the first one is refused, and nothing is kept of it. */
    method AddBlock(cursor: Cursor, block: Block) returns (ok: bool)
      requires Valid()
      modifies this
      ensures Valid() && firstBlock == old(firstBlock)
      ensures ok <==> old(expectedFragmentCount).None? || old(expectedFragmentCount).value == |block.body|
      ensures ok ==> expectedFragmentCount == Some(|block.body|)
      ensures added == if ok then old(added) + [Added(cursor, block)] else old(added)
    {
      hide Filed, WithFragments, Headers, IndexesOf, JoinsOf;
      if expectedFragmentCount.Some? && |block.body| != expectedFragmentCount.value {
        return false;
      }
      expectedFragmentCount := Some(|block.body|);
      indexes := indexes + [FragmentData(cursor, block.index)];
      joins := joins + [FragmentData(cursor, block.join)];
      headers := headers + [FragmentData(cursor, block.header)];
      BlockFiled(body, added, cursor, block);
      AddFragments(cursor, block.body);
      added := added + [Added(cursor, block)];
      ok := true;
    }

    /** The loop over a block's body. */
    method AddFragments(cursor: Cursor, fragments: seq<BodyFragment>)
      modifies this`body
      ensures body == WithFragments(old(body), cursor, fragments)
    {
      for k := 0 to |fragments|
        invariant body == WithFragments(old(body), cursor, fragments[..k])
      {
        assert fragments[..k + 1][..k] == fragments[..k];
        body := body[fragments[k].fragmentId :=
                     EntriesAt(body, fragments[k].fragmentId) + [FragmentData(cursor, fragments[k])]];
      }
      assert fragments[..|fragments|] == fragments;
    }

    method BlockCount() returns (count: nat)
      requires Valid()
      ensures count == |added|
    {
      count := |headers|;
    }

    /** It fails unless a segment was started and every id has one entry per block; either way nothing is left. */
    method TakeSegmentData() returns (r: Result<SegmentData>)
      requires Valid()
      modifies this
      ensures Valid()
      ensures r.Ok? <==> old(firstBlock).Some? && OneEach(old(added))
      ensures r.Ok? ==> Transposed(r.value, old(firstBlock).value, old(added))
      ensures expectedFragmentCount == old(expectedFragmentCount) && firstBlock == None
      ensures added == if old(firstBlock).Some? then [] else old(added)
    {
      if firstBlock.None? {
        return Rejected;
      }
      var first, count := firstBlock.value, |headers|;
      var (takenIndexes, takenJoins, takenHeaders, takenBody) := (indexes, joins, headers, body);
      firstBlock, indexes, joins, headers, body := None, [], [], [], map[];
      added := [];
      if |takenIndexes| != count || |takenJoins| != count {
        assert false;
        return Rejected;
      }
      var complete := IsComplete(takenBody, count);
      CompleteMeans(takenBody, old(added));
      if !complete {
        return Rejected;
      }
      var segments := map id | id in takenBody :: SegmentOf(first, takenBody[id]);
      r := Ok(SegmentData(SegmentOf(first, takenIndexes), SegmentOf(first, takenJoins), SegmentOf(first, takenHeaders),
                          segments));
    }
  }

  /** All blocks have as many fragments as the first. */
  predicate SameCounts(blocks: seq<Added>) {
    forall i :: 0 <= i < |blocks| ==> |blocks[i].block.body| == |blocks[0].block.body|
  }

  /**
   * What a segment job does with its downloaded blocks. It fails exactly when their number is wrong, two of them have
   * different numbers of fragments, or an id has more or fewer entries than there are blocks; otherwise the segment
   * is the transposition of the blocks.
   */
  method BuildSegment(first: Cursor, blocks: seq<Added>, size: nat) returns (r: Result<SegmentData>)
    ensures r.Ok? <==> |blocks| == size && SameCounts(blocks) && OneEach(blocks)
    ensures r.Ok? ==> Transposed(r.value, first, blocks)
  {
    hide OneEach, Transposed;
    var builder := new SegmentBuilder();
    var started := builder.StartNewSegment(first);
    for k := 0 to |blocks|
      invariant fresh(builder) && builder.Valid() && builder.firstBlock == Some(first) && builder.added == blocks[..k]
      invariant builder.expectedFragmentCount == if k == 0 then None else Some(|blocks[0].block.body|)
      invariant forall i :: 0 <= i < k ==> |blocks[i].block.body| == |blocks[0].block.body|
    {
      var ok := builder.AddBlock(blocks[k].cursor, blocks[k].block);
      if !ok {
        return Rejected;
      }
      assert blocks[..k + 1] == blocks[..k] + [blocks[k]];
    }
    assert blocks[..|blocks|] == blocks;
    var count := builder.BlockCount();
    if count != size {
      return Rejected;
    }
    r := builder.TakeSegmentData();
  }

  ghost predicate OneEach(added: seq<Added>) {
    forall id :: |Bodies(added, id)| == |added| || Bodies(added, id) == []
  }

  ghost predicate Transposed(d: SegmentData, first: Cursor, added: seq<Added>) {
    && d.index == SegmentOf(first, IndexesOf(added)) && d.join == SegmentOf(first, JoinsOf(added))
    && d.header == SegmentOf(first, Headers(added))
    && (forall id :: id in d.body <==> Bodies(added, id) != [])
    && (forall id :: id in d.body ==> d.body[id] == SegmentOf(first, Bodies(added, id)))
  }

  ghost predicate AllOf(body: BodyMap, count: nat) {
    forall id :: id in body ==> |body[id]| == count
  }

  method IsComplete(body: BodyMap, count: nat) returns (complete: bool)
    ensures complete <==> AllOf(body, count)
  {
    var left := body.Keys;
    while left != {}
      invariant left <= body.Keys && forall id :: id in body && id !in left ==> |body[id]| == count
      decreases |left|
    {
      var id :| id in left;
      if |body[id]| != count {
        return false;
      }
      left := left - {id};
    }
    return true;
  }

  lemma CompleteMeans(body: BodyMap, added: seq<Added>)
    requires Filed(body, added)
    ensures AllOf(body, |added|) <==> OneEach(added)
    ensures forall id :: id in body <==> Bodies(added, id) != []
    ensures forall id :: id in body ==> body[id] == Bodies(added, id)
  {
    hide Bodies;
    forall id
      ensures id in body <==> Bodies(added, id) != []
      ensures id in body ==> body[id] == Bodies(added, id)
    {
      assert EntriesAt(body, id) == Bodies(added, id);
    }
  }

  // ------------------------------------------------------------------ reading a transposed block

  ghost predicate DistinctIds(fragments: seq<BodyFragment>) {
    forall i, j :: 0 <= i < j < |fragments| ==> fragments[i].fragmentId != fragments[j].fragmentId
  }

  /** A block with distinct ids has at most one entry under an id: its own fragment. */
  lemma {:induction false} OwnEntry(cursor: Cursor, fragments: seq<BodyFragment>, id: nat)
    requires DistinctIds(fragments)
    ensures |Entries(cursor, fragments, id)| <= 1
    ensures Entries(cursor, fragments, id) == [] <==> forall i :: 0 <= i < |fragments| ==> fragments[i].fragmentId != id
    ensures |Entries(cursor, fragments, id)| == 1 ==>
              FindBody(fragments, id) == Ok(Entries(cursor, fragments, id)[0].data)
              && Entries(cursor, fragments, id)[0].cursor == cursor
    decreases |fragments|
  {
    if fragments != [] {
      var init, last := fragments[..|fragments| - 1], fragments[|fragments| - 1];
      OwnEntry(cursor, init, id);
      assert fragments == init + [last];
      FoundInFront(init, last, id);
    }
  }

  lemma {:induction false} FoundInFront(init: seq<BodyFragment>, last: BodyFragment, id: nat)
    ensures FindBody(init + [last], id) ==
            if FindBody(init, id).Ok? then FindBody(init, id) else if last.fragmentId == id then Ok(last) else Rejected
    ensures FindBody(init, id).Ok? <==> exists i :: 0 <= i < |init| && init[i].fragmentId == id
    decreases |init|
  {
    if init != [] {
      FoundInFront(init[1..], last, id);
      assert (init + [last])[1..] == init[1..] + [last];
      if exists i :: 0 <= i < |init| && init[i].fragmentId == id {
        var i :| 0 <= i < |init| && init[i].fragmentId == id;
        if i > 0 { assert init[1..][i - 1].fragmentId == id; }
      }
      if exists i :: 0 <= i < |init[1..]| && init[1..][i].fragmentId == id {
        var i :| 0 <= i < |init[1..]| && init[1..][i].fragmentId == id;
        assert init[i + 1].fragmentId == id;
      }
    }
  }

  /** With as many entries as blocks, entry i is block i's own fragment. */
  lemma {:induction false} EntryIsOwn(added: seq<Added>, id: nat, i: nat)
    requires forall k :: 0 <= k < |added| ==> DistinctIds(added[k].block.body)
    ensures |Bodies(added, id)| <= |added|
    ensures |Bodies(added, id)| == |added| && i < |added| ==>
              && Bodies(added, id)[i].cursor == added[i].cursor
              && FindBody(added[i].block.body, id) == Ok(Bodies(added, id)[i].data)
    decreases |added|
  {
    if added != [] {
      var init, last := added[..|added| - 1], added[|added| - 1];
      EntryIsOwn(init, id, i);
      OwnEntry(last.cursor, last.block.body, id);
    }
  }

  /** What is fetched of a segment: index, join and header always, of the bodies what was asked for. */
  function Fetched(d: SegmentData, wanted: set<nat>): SegmentAccess {
    SegmentAccess(d.index.firstBlock.number, Some(d.index), Some(d.join), Some(d.header), map id | id in d.body
                  && id in wanted :: d.body[id])
  }

  /** Reading block i of a segment at its offset is reading the block itself, for every fragment that was fetched. */
  lemma SegmentReadsLikeBlocks(d: SegmentData, first: Cursor, added: seq<Added>, wanted: set<nat>, i: nat, id: nat)
    requires Transposed(d, first, added) && OneEach(added) && i < |added|
    requires forall k :: 0 <= k < |added| ==> DistinctIds(added[k].block.body)
    ensures var s, b := OfSegment(Fetched(d, wanted), i), OfBlock(added[i].block);
            && GetIndexFragment(s, id) == GetIndexFragment(b, id)
            && GetJoinFragment(s, id) == GetJoinFragment(b, id)
            && GetHeaderFragment(s) == GetHeaderFragment(b)
            && (id in wanted ==> GetBodyFragment(s, id) == GetBodyFragment(b, id))
  {
    hide Bodies;
    EntryIsOwn(added, id, i);
    if Bodies(added, id) == [] { NoEntry(added, id, i); }
  }

  lemma {:induction false} NoEntry(added: seq<Added>, id: nat, i: nat)
    requires Bodies(added, id) == [] && i < |added| && forall k :: 0 <= k < |added| ==> DistinctIds(added[k].block.body)
    ensures FindBody(added[i].block.body, id).Rejected?
    decreases |added|
  {
    var init, last := added[..|added| - 1], added[|added| - 1];
    if i < |init| {
      NoEntry(init, id, i);
    } else {
      OwnEntry(last.cursor, last.block.body, id);
      FoundInFront(last.block.body, BodyFragment(id, "", []), id);
    }
  }
}
