/**
 * Which blocks are sent, said in terms of the filters and of the bytes: a block is sent exactly if some filter has
 * something to say about it (common/src/data_stream/stream.rs).
 */
module Sending {
  import opened Core
  import opened Sorting
  import opened Fragments
  import opened Query
  import opened Filtering
  import opened FilterFragment
  import opened FilteredItems
  import opened Watermarks
  import opened SegmentStream
  import opened FastPath
  import opened FastPathRefinement
  import opened DataStreams
  import opened WireBlock

  /** Some filter of the stream is owed something of the block: all rows it wants go with the header. */
  ghost predicate Due(a: Access, filters: seq<BlockFilter>, isLive: bool) {
    exists k :: 0 <= k < |filters| && HeaderDue(a, filters[k], isLive)
  }

  /** There is one output for every filter, its own, in order; one filter that fails, fails the block. */
  lemma {:induction false} OutputsMean(a: Access, filters: seq<BlockFilter>, names: set<nat>, isLive: bool)
    ensures var r := Outputs(a, filters, names, isLive);
            && (r.Ok? <==> forall k :: 0 <= k < |filters| ==> FilterBlock(a, filters[k], names, isLive).Ok?)
            && (r.Ok? ==> |r.value| == |filters|)
            && (r.Ok? ==> forall k :: 0 <= k < |filters| ==>
                FilterBlock(a, filters[k], names, isLive) == Ok(r.value[k]))
    decreases |filters|
  {
    hide FilterBlock;
    if filters != [] {
      var init := filters[..|filters| - 1];
      assert forall k :: 0 <= k < |init| ==> init[k] == filters[k];
      OutputsMean(a, init, names, isLive);
    }
  }

  /** The bytes of the outputs, one buffer for every filter. */
  ghost predicate Encodes(outputs: seq<Filtered>, buffers: seq<Bytes>) {
    && |buffers| == |outputs|
    && forall k :: 0 <= k < |outputs| ==> EncodesOne(outputs[k], buffers[k])
  }

  ghost predicate EncodesOne(output: Filtered, buffer: Bytes) {
    exists rows :: Writes(output.items, rows) && buffer == EncodeBlock(output.header, rows)
  }

  /** There is data exactly if one of the buffers is not empty. */
  lemma HasDataIffBytes(outputs: seq<Filtered>, buffers: seq<Bytes>)
    requires Encodes(outputs, buffers)
    ensures HasData(outputs) <==> exists k :: 0 <= k < |buffers| && buffers[k] != []
  {
    hide EncodeBlock, Writes;
    forall k | 0 <= k < |outputs|
      ensures buffers[k] != [] <==> outputs[k] != Filtered(None, [])
    {
      assert EncodesOne(outputs[k], buffers[k]);
      var rows :| Writes(outputs[k].items, rows) && buffers[k] == EncodeBlock(outputs[k].header, rows);
      EmptyBlockIsEmpty(outputs[k], rows);
    }
  }

  /** There is data exactly if some filter is owed something. */
  lemma HasDataIffDue(a: Access, filters: seq<BlockFilter>, names: set<nat>, isLive: bool)
    requires Outputs(a, filters, names, isLive).Ok?
    ensures HasData(Outputs(a, filters, names, isLive).value) <==> Due(a, filters, isLive)
  {
    hide FilterBlock, HeaderDue, Outputs;
    OutputsMean(a, filters, names, isLive);
    var outputs := Outputs(a, filters, names, isLive).value;
    forall k | 0 <= k < |filters|
      ensures outputs[k] != Filtered(None, []) <==> HeaderDue(a, filters[k], isLive)
    {
      OutputIffDue(a, filters[k], names, isLive);
    }
  }

  // ------------------------------------------------------------------ the blocks of a range

  /** Block `n` is sent: it is in the range, no block up to it fails, and some filter is owed something of it. */
  ghost predicate IsSent(w: World, filters: seq<BlockFilter>, names: set<nat>, from: nat, first: nat, count: nat,
                         n: nat) {
    && first <= n < first + count && from <= n && Due(OfBlock(w.block(n)), filters, false)
    && forall m: nat :: first <= m <= n && from <= m ==> Outputs(OfBlock(w.block(m)), filters, names, false).Ok?
  }

  ghost predicate SentAs(w: World, filters: seq<BlockFilter>, names: set<nat>, m: Message) {
    Outputs(OfBlock(w.block(m.number)), filters, names, false) == Ok(m.outputs)
  }

  ghost predicate Has(messages: seq<Message>, n: nat) {
    exists i :: 0 <= i < |messages| && messages[i].number == n
  }

  /** The messages are in block order, from `first` on, each with what the filters make of its block. */
  ghost predicate Ordered(w: World, filters: seq<BlockFilter>, names: set<nat>, first: nat, messages: seq<Message>) {
    && (forall i :: 0 <= i < |messages| ==> first <= messages[i].number && SentAs(w, filters, names, messages[i]))
    && forall i, j :: 0 <= i < j < |messages| ==> messages[i].number < messages[j].number
  }

  lemma OneMessage(w: World, filters: seq<BlockFilter>, names: set<nat>, from: nat, n: nat)
    ensures var here := MessageAt(w, filters, names, from, n);
            && here.ok == (n < from || Outputs(OfBlock(w.block(n)), filters, names, false).Ok?)
            && |here.messages| <= 1
            && (here.messages != [] <==> here.ok && from <= n && Due(OfBlock(w.block(n)), filters, false))
            && (here.messages != [] ==> here.messages[0].number == n && SentAs(w, filters, names, here.messages[0]))
  {
    hide Outputs, Due, HasData;
    if Outputs(OfBlock(w.block(n)), filters, names, false).Ok? {
      HasDataIffDue(OfBlock(w.block(n)), filters, names, false);
    }
  }

  lemma ThenOrdered(w: World, filters: seq<BlockFilter>, names: set<nat>, first: nat, here: seq<Message>,
                    rest: seq<Message>, n: nat)
    requires |here| <= 1 && (here != [] ==> here[0].number == first && SentAs(w, filters, names, here[0]))
    requires Ordered(w, filters, names, first + 1, rest)
    ensures Ordered(w, filters, names, first, here + rest) && (Has(here + rest, n) <==> Has(here, n) || Has(rest, n))
  {
    hide SentAs;
    var all := here + rest;
    if Has(here, n) { assert all[0] == here[0]; }
    if Has(rest, n) {
      var i :| 0 <= i < |rest| && rest[i].number == n;
      assert all[|here| + i] == rest[i];
    }
  }

  /**
   * Exactly those blocks are sent of which some filter is owed something, up to the first block that fails; once
   * each, in order, with what the filters make of them.
   */
  lemma {:induction false} SlowSends(w: World, filters: seq<BlockFilter>, names: set<nat>, from: nat, first: nat,
                                     count: nat, n: nat)
    ensures var messages := Slow(w, filters, names, from, first, count).messages;
            && Ordered(w, filters, names, first, messages)
            && (Has(messages, n) <==> IsSent(w, filters, names, from, first, count, n))
    decreases count
  {
    hide Outputs, Due, MessageAt, Ordered, Has, SentAs;
    if count == 0 {
      assert Ordered(w, filters, names, first, []) && !Has([], n) by { NoMessages(w, filters, names, first, n); }
    } else {
      OneMessage(w, filters, names, from, first);
      SlowSends(w, filters, names, from, first + 1, count - 1, n);
      var here, rest := MessageAt(w, filters, names, from, first),
        Slow(w, filters, names, from, first + 1, count - 1);
      assert Has(here.messages, n) <==> here.messages != [] && n == first by { HasOne(here.messages, n); }
      if here.ok {
        ThenOrdered(w, filters, names, first, here.messages, rest.messages, n);
        assert n != first ==> (IsSent(w, filters, names, from, first, count, n) <==>
                               IsSent(w, filters, names, from, first + 1, count - 1, n));
      } else {
        assert here.messages == [];
        assert Ordered(w, filters, names, first, []) by { NoMessages(w, filters, names, first, n); }
      }
    }
  }

  lemma NoMessages(w: World, filters: seq<BlockFilter>, names: set<nat>, first: nat, n: nat)
    ensures Ordered(w, filters, names, first, []) && !Has([], n)
  {
  }

  lemma HasOne(messages: seq<Message>, n: nat)
    requires |messages| <= 1
    ensures Has(messages, n) <==> messages != [] && messages[0].number == n
  {
  }

  // ------------------------------------------------------------------ one block

  /**
   * A block on its own is sent exactly if some filter is owed something; at the head, also a header for its own sake.
   */
  lemma SingleSends(a: Access, filters: seq<BlockFilter>, names: set<nat>, current: Option<Cursor>, next: Cursor,
                    finalizedNow: Cursor, isHead: bool)
    requires Outputs(a, filters, names, isHead).Ok?
    ensures var outputs := Outputs(a, filters, names, isHead).value;
            var single := SingleData(current, next, outputs, finalizedNow, isHead);
            && |single| == (if Due(a, filters, isHead) then 1 else 0)
            && forall i :: 0 <= i < |single| ==> single[i].Data? && single[i].outputs == outputs
  {
    hide Outputs, Due, HasData;
    HasDataIffDue(a, filters, names, isHead);
  }

  /** While waiting at the head, a pending block of which some filter is owed something is sent, unless sent last. */
  lemma PendingSends(filters: seq<BlockFilter>, names: set<nat>, head: Cursor, digest: seq<Filtered> -> Bytes,
                     finalized: Cursor, events: seq<HeadEvent>, block: Block)
    requires Waited(filters, names, Pending, head, digest, Wait(finalized, [], []),
                    events + [PendingMoves(Some(Ok(block)))]).Ok?
    ensures var r := Waited(filters, names, Pending, head, digest, Wait(finalized, [], []),
                            events + [PendingMoves(Some(Ok(block)))]).value;
            var outputs := Outputs(OfBlock(block), filters, names, false);
            && outputs.Ok?
            && (Due(OfBlock(block), filters, false) ==> LastOr(Digests(r.sent, digest), []) == digest(outputs.value))
  {
    hide Outputs, HasData, Digests, NoRepeats, AllTold, AllPending, Due;
    var all := events + [PendingMoves(Some(Ok(block)))];
    assert all[..|events|] == events;
    WaitTellsAll(filters, names, Pending, head, digest, finalized, all);
    HasDataIffDue(OfBlock(block), filters, names, false);
  }

  // ------------------------------------------------------------------ the segment stream

  /** The segment stream, too, sends exactly the blocks of which some filter is owed something. */
  lemma FastSends(w: World, filters: seq<BlockFilter>, names: set<nat>, kind: (nat, nat) -> nat, segmented: nat,
                  top: Option<nat>, from: nat, grouped: Option<nat>, rereads: seq<Option<nat>>, n: nat)
    requires Served(w, filters, names, kind, segmented, top) && w.z.start <= from <= segmented
    requires grouped.Some? ==> GoodGrouped(w, top, grouped.value)
    requires forall i :: 0 <= i < |rereads| ==> rereads[i].Some? && GoodGrouped(w, top, rereads[i].value)
    ensures ValidSizes(w.z)
    ensures var fetches := Streamed(w.z, filters, names, w.groups, from, grouped, rereads, Some(segmented));
            && fetches.Ok?
            && var messages := ConsumeFetches(w, filters, names, from, fetches.value).messages;
               && Ordered(w, filters, names, from, messages)
               && (Has(messages, n) <==> IsSent(w, filters, names, from, from, segmented + 1 - from, n))
  {
    hide Served, Streamed, ConsumeFetches, Slow, GoodGrouped, Ordered, Has, IsSent;
    FastIsSlow(w, filters, names, kind, segmented, top, from, grouped, rereads);
    SlowSends(w, filters, names, from, from, segmented + 1 - from, n);
  }
}
