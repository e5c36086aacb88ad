/** One data stream: its cursor, what it sends, and the loops of its ticks (common/src/data_stream/stream.rs). */
module DataStreams {
  import opened Core
  import opened Sorting
  import opened Chain
  import opened ChainView
  import opened Fragments
  import opened Query
  import opened Watermarks
  import opened Filtering
  import opened FilterFragment
  import opened SegmentBuilding
  import opened SegmentStream
  import opened FastPath

  datatype Finality = Accepted | Finalized | Pending

  /** `Data` covers the blocks after `cursor` up to `end`. */
  datatype StreamMessage =
    | Data(cursor: Option<Cursor>, end: Cursor, outputs: seq<Filtered>, finality: Finality, live: bool)
    | InvalidateTo(target: Cursor)
    | FinalizeUpTo(finalized: Cursor)

  /**
   * What a stream that waits at the head is woken by: a moved finalized cursor, or a new pending block, if there is
   * one.
   */
  datatype HeadEvent = FinalizedMoves(now: Result<Cursor>) | PendingMoves(block: Option<Result<Block>>)

  /** Blocks from segments are finalized and carry no hash. */
  function ToData(m: Message): StreamMessage {
    Data(if m.number == 0 then None else Some(Unhashed(m.number - 1)), Unhashed(m.number), m.outputs, Finalized, false)
  }

  function ToDatas(messages: seq<Message>): (r: seq<StreamMessage>)
    ensures |r| == |messages|
  {
    seq(|messages|, i requires 0 <= i < |messages| => ToData(messages[i]))
  }

  lemma ToDatasJoins(a: seq<Message>, b: seq<Message>)
    ensures ToDatas(a + b) == ToDatas(a) + ToDatas(b)
  {
  }

  /** A block on its own is sent if it has data, as finalized up to the finalized cursor. */
  function SingleData(current: Option<Cursor>, next: Cursor, outputs: seq<Filtered>, finalizedNow: Cursor,
                      isHead: bool): seq<StreamMessage> {
    if HasData(outputs) then
      [Data(current, next, outputs, if next.number > finalizedNow.number then Accepted else Finalized, isHead)]
    else []
  }

  /** The message of a block on its own: from the stream's cursor to the block's, finalized exactly up to there. */
  ghost predicate IsSingle(m: StreamMessage, current: Option<Cursor>, next: Cursor, finalizedNow: Cursor, isHead: bool)
    requires m.Data?
  {
    && m.cursor == current && m.end == next && m.live == isHead
    && (m.finality == Finalized <==> next.number <= finalizedNow.number) && m.finality != Pending
  }

  /**
   * A block is sent alike from a segment and on its own, but for the hashes of its cursors: those of a segment have
   * none, and are equivalent to those with one.
   */
  lemma SameButForHashes(m: Message, previous: Option<Cursor>, own: Cursor, finalizedNow: Cursor)
    requires HasData(m.outputs) && own.number == m.number <= finalizedNow.number
    requires if previous.Some? then previous.value.number + 1 == m.number else m.number == 0
    ensures var single := SingleData(previous, own, m.outputs, finalizedNow, false);
            && |single| == 1 && single[0].Data?
            && ToData(m) == single[0].(cursor := ToData(m).cursor, end := ToData(m).end)
            && (previous.Some? <==> ToData(m).cursor.Some?)
            && (previous.Some? ==> IsEquivalent(ToData(m).cursor.value, previous.value))
            && IsEquivalent(ToData(m).end, own)
  {
    hide HasData;
  }

  /** The cursor after some blocks of a segment. */
  function CurrentAfter(current: Option<Cursor>, from: nat, rows: seq<nat>): Option<Cursor> {
    if rows == [] then current
    else if rows[|rows| - 1] >= from then Some(Unhashed(rows[|rows| - 1]))
    else CurrentAfter(current, from, rows[..|rows| - 1])
  }

  function CurrentAfterFetches(current: Option<Cursor>, from: nat, fetches: seq<Fetch>): Option<Cursor> {
    if fetches == [] then current
    else CurrentAfter(CurrentAfterFetches(current, from, fetches[..|fetches| - 1]), from,
                      Sorted(fetches[|fetches| - 1].blocks))
  }

  // ------------------------------------------------------------------ waiting at the head

  /** What the wait has changed so far; `hash` is the digest of the pending data sent last. */
  datatype Wait = Wait(finalized: Cursor, hash: Bytes, sent: seq<StreamMessage>)

  /** Pending data is sent if there is any and it is not what was sent last. */
  function SendPending(head: Cursor, outputs: seq<Filtered>, digest: seq<Filtered> -> Bytes, w: Wait): Wait {
    if !HasData(outputs) || digest(outputs) == w.hash then w
    else Wait(w.finalized, digest(outputs), w.sent
              + [Data(Some(head), Unhashed(head.number + 1), outputs, Pending, true)])
  }

  ghost function Woken(filters: seq<BlockFilter>, names: set<nat>, finality: Finality, head: Cursor,
                       digest: seq<Filtered> -> Bytes, w: Wait, event: HeadEvent): Result<Wait> {
    match event
    case FinalizedMoves(Rejected) => Rejected
    case FinalizedMoves(Ok(now)) => Ok(Wait(now, w.hash, w.sent + [FinalizeUpTo(now)]))
    case PendingMoves(block) =>
      if !finality.Pending? || block.None? then Ok(w)
      else if block.value.Rejected? || Outputs(OfBlock(block.value.value), filters, names, false).Rejected? then
        Rejected
      else Ok(SendPending(head, Outputs(OfBlock(block.value.value), filters, names, false).value, digest, w))
  }

  /** The whole wait, until the head changes. */
  ghost function Waited(filters: seq<BlockFilter>, names: set<nat>, finality: Finality, head: Cursor,
                        digest: seq<Filtered> -> Bytes, w: Wait, events: seq<HeadEvent>): Result<Wait> {
    if events == [] then Ok(w)
    else
      var before := Waited(filters, names, finality, head, digest, w, events[..|events| - 1]);
      if before.Rejected? then Rejected
      else Woken(filters, names, finality, head, digest, before.value, events[|events| - 1])
  }

  lemma {:induction false} WaitFailed(filters: seq<BlockFilter>, names: set<nat>, finality: Finality, head: Cursor,
                                      digest: seq<Filtered> -> Bytes, w: Wait, events: seq<HeadEvent>, k: nat)
    requires k <= |events| && Waited(filters, names, finality, head, digest, w, events[..k]).Rejected?
    ensures Waited(filters, names, finality, head, digest, w, events).Rejected?
    decreases |events|
  {
    hide Woken;
    if k == |events| {
      assert events[..k] == events;
    } else {
      assert events[..|events| - 1][..k] == events[..k];
      WaitFailed(filters, names, finality, head, digest, w, events[..|events| - 1], k);
    }
  }

  /** The finalized cursor, or the pending block if it is asked for, can be read, and the block filtered. */
  ghost predicate EventWorks(filters: seq<BlockFilter>, names: set<nat>, finality: Finality, event: HeadEvent) {
    match event
    case FinalizedMoves(now) => now.Ok?
    case PendingMoves(block) =>
      finality == Pending && block.Some? ==>
        block.value.Ok? && Outputs(OfBlock(block.value.value), filters, names, false).Ok?
  }

  /** The wait fails exactly if one of the events does. */
  lemma {:induction false} WaitWorksIff(filters: seq<BlockFilter>, names: set<nat>, finality: Finality, head: Cursor,
                                        digest: seq<Filtered> -> Bytes, w: Wait, events: seq<HeadEvent>)
    ensures Waited(filters, names, finality, head, digest, w, events).Ok? <==>
            forall event :: event in events ==> EventWorks(filters, names, finality, event)
    decreases |events|
  {
    hide Outputs, HasData;
    if events != [] {
      var init, last := events[..|events| - 1], events[|events| - 1];
      assert events == init + [last] && last in events;
      assert forall event :: event in init ==> event in events;
      WaitWorksIff(filters, names, finality, head, digest, w, init);
    }
  }

  /** The finalized cursors that messages tell, and those that events bring. */
  function ToldBy(m: StreamMessage): seq<Cursor> {
    if m.FinalizeUpTo? then [m.finalized] else []
  }

  function Told(messages: seq<StreamMessage>): seq<Cursor> {
    if messages == [] then [] else Told(messages[..|messages| - 1]) + ToldBy(messages[|messages| - 1])
  }

  function BroughtBy(event: HeadEvent): seq<Cursor> {
    if event.FinalizedMoves? && event.now.Ok? then [event.now.value] else []
  }

  function Brought(events: seq<HeadEvent>): seq<Cursor> {
    if events == [] then [] else Brought(events[..|events| - 1]) + BroughtBy(events[|events| - 1])
  }

  /** The digests of the data messages. */
  function DigestBy(m: StreamMessage, digest: seq<Filtered> -> Bytes): seq<Bytes> {
    if m.Data? then [digest(m.outputs)] else []
  }

  function Digests(messages: seq<StreamMessage>, digest: seq<Filtered> -> Bytes): seq<Bytes> {
    if messages == [] then []
    else Digests(messages[..|messages| - 1], digest) + DigestBy(messages[|messages| - 1], digest)
  }

  lemma OneMoreMessage(messages: seq<StreamMessage>, m: StreamMessage, digest: seq<Filtered> -> Bytes)
    ensures Told(messages + [m]) == Told(messages) + ToldBy(m)
    ensures Digests(messages + [m], digest) == Digests(messages, digest) + DigestBy(m, digest)
  {
    assert (messages + [m])[..|messages|] == messages;
  }

  function LastOr<T>(s: seq<T>, default: T): T {
    if s == [] then default else s[|s| - 1]
  }

  ghost predicate NoRepeats(s: seq<Bytes>) {
    forall i :: 0 < i < |s| ==> s[i] != s[i - 1]
  }

  /** What has been told is what was brought, and the stream's own cursor is the one told last. */
  ghost predicate AllTold(w: Wait, brought: seq<Cursor>, finalized: Cursor) {
    Told(w.sent) == brought && w.finalized == LastOr(brought, finalized)
  }

  /** No data was sent twice in a row, and `hash` is the digest of the data sent last. */
  ghost predicate Unrepeated(w: Wait, finality: Finality, digest: seq<Filtered> -> Bytes) {
    var digests := Digests(w.sent, digest);
    NoRepeats([[]] + digests) && w.hash == LastOr(digests, []) && (!finality.Pending? ==> digests == [])
  }

  /**
   * Everything sent while waiting is a moved finalized cursor, or pending data for the block after the head, made of
   * a block that one of the events brought.
   */
  ghost predicate AllPending(w: Wait, filters: seq<BlockFilter>, names: set<nat>, head: Cursor,
                             events: seq<HeadEvent>) {
    forall m :: m in w.sent ==> m.FinalizeUpTo? || IsPending(m, filters, names, head, events)
  }

  ghost predicate IsPending(m: StreamMessage, filters: seq<BlockFilter>, names: set<nat>, head: Cursor,
                            events: seq<HeadEvent>) {
    && m.Data? && m.cursor == Some(head) && m.end.number == head.number + 1 && m.end.hash == []
    && m.finality == Pending && m.live && HasData(m.outputs)
    && exists block :: PendingMoves(Some(Ok(block))) in events &&
                       Outputs(OfBlock(block), filters, names, false) == Ok(m.outputs)
  }

  lemma WokenIsPending(filters: seq<BlockFilter>, names: set<nat>, finality: Finality, head: Cursor,
                       digest: seq<Filtered> -> Bytes, w: Wait, events: seq<HeadEvent>, event: HeadEvent)
    requires AllPending(w, filters, names, head, events)
    requires Woken(filters, names, finality, head, digest, w, event).Ok?
    ensures AllPending(Woken(filters, names, finality, head, digest, w, event).value, filters, names, head,
                       events + [event])
  {
    hide Outputs, HasData;
    var r := Woken(filters, names, finality, head, digest, w, event).value;
    forall m | m in r.sent
      ensures m.FinalizeUpTo? || IsPending(m, filters, names, head, events + [event])
    {
      if m in w.sent {
        assert m.FinalizeUpTo? || IsPending(m, filters, names, head, events);
      } else if event.PendingMoves? {
        assert event == PendingMoves(Some(Ok(event.block.value.value))) && event in events + [event];
      }
    }
  }

  lemma WokenKeeps(filters: seq<BlockFilter>, names: set<nat>, finality: Finality, head: Cursor,
                   digest: seq<Filtered> -> Bytes, w: Wait, event: HeadEvent, brought: seq<Cursor>, finalized: Cursor)
    requires AllTold(w, brought, finalized) && Unrepeated(w, finality, digest)
    requires Woken(filters, names, finality, head, digest, w, event).Ok?
    ensures var r := Woken(filters, names, finality, head, digest, w, event).value;
            AllTold(r, brought + BroughtBy(event), finalized) && Unrepeated(r, finality, digest)
  {
    hide Outputs, HasData, Told, Digests, NoRepeats;
    var r := Woken(filters, names, finality, head, digest, w, event).value;
    assert brought + [] == brought && Digests(w.sent, digest) + [] == Digests(w.sent, digest);
    if r.sent != w.sent {
      OneMoreMessage(w.sent, r.sent[|w.sent|], digest);
      if event.PendingMoves? { OneMoreDigest(Digests(w.sent, digest), r.hash); }
    }
  }

  lemma OneMoreDigest(s: seq<Bytes>, next: Bytes)
    requires NoRepeats([[]] + s) && next != LastOr(s, [])
    ensures NoRepeats([[]] + (s + [next]))
  {
    assert [[]] + (s + [next]) == [[]] + s + [next];
  }

  /**
   * Every move of the finalized cursor is told, in order, and the stream's own cursor is the one told last; the same
   * pending data is not sent twice in a row, none is sent to a stream that did not ask for it, and nothing else is
   * sent.
   */
  lemma {:induction false} WaitTellsAll(filters: seq<BlockFilter>, names: set<nat>, finality: Finality, head: Cursor,
                                        digest: seq<Filtered> -> Bytes, finalized: Cursor, events: seq<HeadEvent>)
    ensures var r := Waited(filters, names, finality, head, digest, Wait(finalized, [], []), events);
            r.Ok? ==> AllTold(r.value, Brought(events), finalized) && Unrepeated(r.value, finality, digest)
                      && AllPending(r.value, filters, names, head, events)
    decreases |events|
  {
    hide Woken, AllTold, Unrepeated, IsPending;
    var start := Wait(finalized, [], []);
    if events == [] {
      assert AllTold(start, [], finalized)
             && Unrepeated(start, finality, digest) by { NothingYet(finality, digest, finalized); }
    } else {
      var init := events[..|events| - 1];
      WaitTellsAll(filters, names, finality, head, digest, finalized, init);
      var before := Waited(filters, names, finality, head, digest, start, init);
      if Waited(filters, names, finality, head, digest, start, events).Ok? {
        WokenKeeps(filters, names, finality, head, digest, before.value, events[|events| - 1], Brought(init),
                   finalized);
        WokenIsPending(filters, names, finality, head, digest, before.value, init, events[|events| - 1]);
        assert init + [events[|events| - 1]] == events;
      }
    }
  }

  lemma NothingYet(finality: Finality, digest: seq<Filtered> -> Bytes, finalized: Cursor)
    ensures var start := Wait(finalized, [], []); AllTold(start, [], finalized) && Unrepeated(start, finality, digest)
  {
    assert Digests([], digest) == [] && Told([]) == [];
  }

  class DataStream {
    const filters: seq<BlockFilter>
    const names: set<nat>
    const finality: Finality
    var current: Option<Cursor>
    var finalized: Cursor
    var sent: seq<StreamMessage>

    ghost predicate Valid()
      reads this
    {
      forall k :: 0 <= k < |filters| ==> WfFilters(filters[k].filters)
    }

    constructor (filters: seq<BlockFilter>, names: set<nat>, finality: Finality, starting: Option<Cursor>,
                 finalized: Cursor)
      requires forall k :: 0 <= k < |filters| ==> WfFilters(filters[k].filters)
      ensures Valid() && this.filters == filters && this.names == names && this.finality == finality
      ensures current == starting && this.finalized == finalized && sent == []
    {
      this.filters, this.names, this.finality := filters, names, finality;
      this.current, this.finalized, this.sent := starting, finalized, [];
    }

    method FilterAll(a: Access, isLive: bool) returns (r: Result<seq<Filtered>>)
      requires Valid()
      ensures r == Outputs(a, filters, names, isLive)
    {
      hide FilterBlock;
      var outputs := [];
      for k := 0 to |filters|
        invariant Outputs(a, filters[..k], names, isLive) == Ok(outputs)
      {
        assert filters[..k + 1][..k] == filters[..k];
        var one := FilterOne(a, filters[k], names, isLive);
        if one.Rejected? {
          OutputsStopped(a, filters, names, isLive, k + 1);
          return Rejected;
        }
        outputs := outputs + [one.value];
      }
      assert filters[..|filters|] == filters;
      r := Ok(outputs);
    }

    /** One block on its own. */
    method TickSingle(block: Result<Block>, next: Cursor, isHead: bool, finalizedNow: Cursor) returns (ok: bool)
      requires Valid()
      modifies this`current, this`sent
      ensures ok <==> block.Ok? && Outputs(OfBlock(block.value), filters, names, isHead).Ok?
      ensures !ok ==> current == old(current) && sent == old(sent)
      ensures ok ==> current == Some(next)
      ensures ok ==>
                sent == old(sent) + SingleData(old(current), next,
                                               Outputs(OfBlock(block.value), filters, names, isHead).value,
                                               finalizedNow, isHead)
      ensures ok ==> old(sent) <= sent && forall m :: m in sent[|old(sent)|..] ==>
                m.Data? && IsSingle(m, old(current), next, finalizedNow, isHead)
    {
      hide Outputs;
      if block.Rejected? {
        return false;
      }
      var outputs := FilterAll(OfBlock(block.value), isHead);
      if outputs.Rejected? {
        return false;
      }
      if HasData(outputs.value) {
        sent := sent + [Data(current, next, outputs.value, if next.number > finalizedNow.number then Accepted
                             else Finalized, isHead)];
      }
      current := Some(next);
      ok := true;
    }

    /** The blocks of one fetched segment. */
    method ConsumeSegment(s: SegmentAccess, rows: seq<nat>, from: nat) returns (ok: bool)
      requires Valid()
      modifies this`current, this`sent
      ensures ok <==> ConsumeRows(s, filters, names, from, rows).ok
      ensures sent == old(sent) + ToDatas(ConsumeRows(s, filters, names, from, rows).messages)
      ensures ok ==> current == CurrentAfter(old(current), from, rows)
    {
      hide Outputs;
      ghost var done: seq<Message> := [];
      assert rows[0..] == rows;
      NothingThen(ConsumeRows(s, filters, names, from, rows));
      for k := 0 to |rows|
        invariant sent == old(sent) + ToDatas(done) && current == CurrentAfter(old(current), from, rows[..k])
        invariant ConsumeRows(s, filters, names, from, rows) ==
                  Then(Sent(done, true), ConsumeRows(s, filters, names, from, rows[k..]))
      {
        var n, rest := rows[k], rows[k + 1..];
        assert rows[k..][1..] == rest && rows[..k + 1][..k] == rows[..k];
        assert done + [] == done;
        if n >= from {
          if n < s.firstBlock {
            return false;
          }
          var outputs := FilterAll(OfSegment(s, n - s.firstBlock), false);
          if outputs.Rejected? {
            return false;
          }
          ToDatasJoins(done, Send(n, outputs.value));
          ThenJoins(Sent(done, true), Sent(Send(n, outputs.value), true), ConsumeRows(s, filters, names, from, rest));
          done := done + Send(n, outputs.value);
          if HasData(outputs.value) {
            sent := sent + [ToData(Message(n, outputs.value))];
          }
          current := Some(Unhashed(n));
        }
      }
      assert rows[..|rows|] == rows && done + [] == done;
      ok := true;
    }

    /** Everything the segment stream fetches, in order. */
    method TickSegmentStream(w: World, fetches: seq<Fetch>, from: nat) returns (ok: bool)
      requires Valid()
      modifies this`current, this`sent
      ensures ok <==> ConsumeFetches(w, filters, names, from, fetches).ok
      ensures sent == old(sent) + ToDatas(ConsumeFetches(w, filters, names, from, fetches).messages)
      ensures ok ==> current == CurrentAfterFetches(old(current), from, fetches)
    {
      hide ConsumeRows, Sorted, Fetched, CurrentAfter, ToDatas;
      ghost var done: seq<Message> := [];
      assert fetches[0..] == fetches;
      NothingThen(ConsumeFetches(w, filters, names, from, fetches));
      for k := 0 to |fetches|
        invariant sent == old(sent) + ToDatas(done) && current == CurrentAfterFetches(old(current), from, fetches[..k])
        invariant ConsumeFetches(w, filters, names, from, fetches) ==
                  Then(Sent(done, true), ConsumeFetches(w, filters, names, from, fetches[k..]))
      {
        var fetch := fetches[k];
        assert fetches[k..][1..] == fetches[k + 1..] && fetches[..k + 1][..k] == fetches[..k];
        var s := Fetched(w.segments(fetch.first), fetch.fragments);
        ghost var here := ConsumeRows(s, filters, names, from, Sorted(fetch.blocks));
        ThenJoins(Sent(done, true), here, ConsumeFetches(w, filters, names, from, fetches[k + 1..]));
        ToDatasJoins(done, here.messages);
        var consumed := ConsumeSegment(s, Sorted(fetch.blocks), from);
        if !consumed {
          return false;
        }
        done := done + here.messages;
      }
      assert fetches[..|fetches|] == fetches && done + [] == done;
      ok := true;
    }

    /** Waiting at the head, `pending` being the pending block there is at first. */
    method TickAtHead(head: Cursor, pending: Option<Result<Block>>, events: seq<HeadEvent>,
                      digest: seq<Filtered> -> Bytes)
      returns (ok: bool)
      requires Valid()
      modifies this`finalized, this`sent
      ensures var r := Waited(filters, names, finality, head, digest, Wait(old(finalized), [], []),
                              [PendingMoves(pending)] + events);
              && (ok <==> r.Ok?)
              && (ok ==> finalized == r.value.finalized && sent == old(sent) + r.value.sent)
    {
      hide Outputs, HasData;
      var all, hash: Bytes := [PendingMoves(pending)] + events, [];
      ghost var start := Wait(finalized, [], []);
      ghost var now: seq<StreamMessage> := [];
      for k := 0 to |all|
        invariant sent == old(sent) + now
        invariant Waited(filters, names, finality, head, digest, start, all[..k]) == Ok(Wait(finalized, hash, now))
      {
        assert all[..k + 1][..k] == all[..k];
        match all[k] {
          case FinalizedMoves(Rejected) =>
            WaitFailed(filters, names, finality, head, digest, start, all, k + 1);
            return false;
          case FinalizedMoves(Ok(moved)) =>
            finalized, sent, now := moved, sent + [FinalizeUpTo(moved)], now + [FinalizeUpTo(moved)];
          case PendingMoves(block) =>
            if finality.Pending? && block.Some? {
              if block.value.Rejected? {
                WaitFailed(filters, names, finality, head, digest, start, all, k + 1);
                return false;
              }
              var outputs := FilterAll(OfBlock(block.value.value), false);
              if outputs.Rejected? {
                WaitFailed(filters, names, finality, head, digest, start, all, k + 1);
                return false;
              }
              if HasData(outputs.value) && digest(outputs.value) != hash {
                var data := Data(Some(head), Unhashed(head.number + 1), outputs.value, Pending, true);
                hash, sent, now := digest(outputs.value), sent + [data], now + [data];
              }
            }
        }
      }
      assert all[..|all|] == all;
      ok := true;
    }

    /**
     * One pass of the stream's loop. The chain view's answer decides: a lower block is invalidated to, the head is
     * waited at, and the next block is held back, streamed from its segment on, or sent on its own.
     */
    method Tick(v: View, w: World, segmented: Option<nat>, grouped: Option<nat>, rereads: seq<Option<nat>>,
                finalizedNow: Cursor, block: Result<Block>, pending: Option<Result<Block>>, events: seq<HeadEvent>,
                digest: seq<Filtered> -> Bytes) returns (ok: bool)
      requires Valid() && Readable(v) && ValidSizes(w.z) && v.start == w.z.start
               && (current.Some? ==> current.value.number >= v.start)
      modifies this
      ensures var answer := GetNextCursor(v, old(current));
              && (answer.Rejected? ==> !ok && current == old(current) && sent == old(sent))
              && (answer.Ok? && answer.value.AtHead? ==>
                    && old(current).Some? && current == old(current)
                    && var r := Waited(filters, names, finality, old(current).value, digest,
                                       Wait(old(finalized), [], []),
                                       [PendingMoves(pending)] + events);
                       (ok <==> r.Ok?) && (ok ==> finalized == r.value.finalized && sent == old(sent) + r.value.sent))
              && (answer.Ok? && answer.value.Invalidate? ==>
                    ok && current == Some(answer.value.target)
                    && sent == old(sent) + [InvalidateTo(answer.value.target)])
              && (answer.Ok? && answer.value.ContinueTo? ==>
                    var next := answer.value.cursor;
                    if finality.Finalized? && next.number > old(finalized).number then
                      ok && current == old(current) && sent == old(sent) && finalized == finalizedNow
                    else if next.number < v.start then !ok
                    else if HasSegmentForBlock(w.z, segmented, next.number) then
                      var fetches := Streamed(w.z, filters, names, w.groups, next.number, grouped, rereads, segmented);
                      && (ok <==> fetches.Ok? && ConsumeFetches(w, filters, names, next.number, fetches.value).ok)
                      && (fetches.Ok? ==>
                            sent == old(sent) +
                                    ToDatas(ConsumeFetches(w, filters, names, next.number, fetches.value).messages))
                      && (ok ==> current == CurrentAfterFetches(old(current), next.number, fetches.value))
                    else
                      && (ok <==> block.Ok? && Outputs(OfBlock(block.value), filters, names, answer.value.isHead).Ok?)
                      && (ok ==> current == Some(next))
                      && (ok ==> sent == old(sent) + SingleData(old(current), next,
                                                                Outputs(OfBlock(block.value), filters, names,
                                                                    answer.value.isHead).value,
                                                                finalizedNow, answer.value.isHead))
                      && (ok ==> old(sent) <= sent && forall m :: m in sent[|old(sent)|..] ==>
                            m.Data? && IsSingle(m, old(current), next, finalizedNow, answer.value.isHead)))
    {
      hide GetNextCursor, Streamed, ConsumeFetches, Outputs, HasSegmentForBlock, Waited;
      var answer := GetNextCursor(v, current);
      match answer {
        case Rejected => ok := false;
        case Ok(AtHead) =>
          HeadNeedsACursor(v, current);
          ok := TickAtHead(current.value, pending, events, digest);
        case Ok(Invalidate(target)) =>
          sent := sent + [InvalidateTo(target)];
          current := Some(target);
          ok := true;
        case Ok(ContinueTo(next, isHead)) =>
          if finality.Finalized? && next.number > finalized.number {
            finalized := finalizedNow;
            return true;
          }
          if next.number < v.start {
            return false;
          }
          if HasSegmentForBlock(w.z, segmented, next.number) {
            var fetches := Start(w.z, filters, names, w.groups, next.number, grouped, rereads, segmented);
            if fetches.Rejected? {
              return false;
            }
            ok := TickSegmentStream(w, fetches.value, next.number);
          } else {
            ok := TickSingle(block, next, isHead, finalizedNow);
          }
      }
    }
  }

  lemma HeadNeedsACursor(v: View, current: Option<Cursor>)
    requires Readable(v) && (current.Some? ==> current.value.number >= v.start)
             && GetNextCursor(v, current) == Ok(AtHead)
    ensures current.Some?
  {
  }

  /** After the segment stream the cursor is at the last block of the last segment, if that was asked for whole. */
  lemma EndsAtTheLastBlock(current: Option<Cursor>, from: nat, fetches: seq<Fetch>, size: nat)
    requires fetches != [] && size >= 1
    requires var last := fetches[|fetches| - 1];
             last.blocks == Interval(last.first, size) && from <= last.first + size - 1
    ensures CurrentAfterFetches(current, from, fetches) == Some(Unhashed(fetches[|fetches| - 1].first + size - 1))
  {
    hide Sorted;
    var last := fetches[|fetches| - 1];
    var rows, end := Sorted(last.blocks), last.first + size - 1;
    SortedHolds(last.blocks, end);
    var i :| 0 <= i < |rows| && rows[i] == end;
    SortedHolds(last.blocks, rows[|rows| - 1]);
    if i < |rows| - 1 { SortedAscends(last.blocks, i, |rows| - 1); }
  }

  /** The last block of the fetches that is not before `from`, if there is one. */
  ghost predicate IsLast(fetches: seq<Fetch>, from: nat, k: nat, n: nat) {
    && k < |fetches| && n in fetches[k].blocks && n >= from
    && (forall m :: m in fetches[k].blocks ==> m <= n)
    && forall j, m :: k < j < |fetches| && m in fetches[j].blocks ==> m < from
  }

  /** After the segment stream the cursor is at the last block it read, or where it was if it read none. */
  lemma {:induction false} EndsAtTheLastRead(current: Option<Cursor>, from: nat, fetches: seq<Fetch>)
    ensures var after := CurrentAfterFetches(current, from, fetches);
            || (after == current && forall j, m :: 0 <= j < |fetches| && m in fetches[j].blocks ==> m < from)
            || (after.Some? && after.value.hash == [] && exists k: nat :: IsLast(fetches, from, k, after.value.number))
    decreases |fetches|
  {
    hide Sorted;
    if fetches != [] {
      var last := |fetches| - 1;
      var init, blocks := fetches[..last], fetches[last].blocks;
      EndsAtTheLastRead(current, from, init);
      var before := CurrentAfterFetches(current, from, init);
      EndsAtTheLastRow(before, from, Sorted(blocks));
      forall m: nat
        ensures m in Sorted(blocks) <==> m in blocks
      {
        SortedHolds(blocks, m);
      }
      if forall m :: m in blocks ==> m < from {
        if k: nat :| before.Some? && IsLast(init, from, k, before.value.number) {
          assert IsLast(fetches, from, k, before.value.number);
        }
      } else {
        var rows, after := Sorted(blocks), CurrentAfterFetches(current, from, fetches);
        forall i | 0 <= i < |rows| - 1
          ensures rows[i] < rows[|rows| - 1]
        {
          SortedAscends(blocks, i, |rows| - 1);
        }
        assert IsLast(fetches, from, last, after.value.number);
      }
    }
  }

  lemma {:induction false} EndsAtTheLastRow(current: Option<Cursor>, from: nat, rows: seq<nat>)
    ensures if forall m :: m in rows ==> m < from then CurrentAfter(current, from, rows) == current
            else rows != [] && (rows[|rows| - 1] >= from ==>
                                CurrentAfter(current, from, rows) == Some(Unhashed(rows[|rows| - 1])))
    decreases |rows|
  {
    if rows != [] {
      var init := rows[..|rows| - 1];
      EndsAtTheLastRow(current, from, init);
      assert rows == init + [rows[|rows| - 1]] && rows[|rows| - 1] in rows;
      assert forall m :: m in init ==> m in rows;
    }
  }

  lemma {:induction false} OutputsStopped(a: Access, filters: seq<BlockFilter>, names: set<nat>, isLive: bool, k: nat)
    requires k <= |filters| && Outputs(a, filters[..k], names, isLive).Rejected?
    ensures Outputs(a, filters, names, isLive).Rejected?
    decreases |filters|
  {
    hide FilterBlock;
    if k < |filters| {
      assert filters[..|filters| - 1][..k] == filters[..k];
      OutputsStopped(a, filters[..|filters| - 1], names, isLive, k);
    } else {
      assert filters[..k] == filters;
    }
  }
}
