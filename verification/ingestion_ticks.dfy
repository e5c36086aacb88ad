/**
 * What each action of the ingester does to the whole system, said of the remote chain, the chain readers see and the
 * numbers in the queue (common/src/ingestion/service.rs).
 */
module IngestionTicks {
  import opened Core
  import opened Chain
  import opened Ledgers
  import opened ChainHistory
  import opened RemoteChain
  import opened Ingestion
  import opened IngestionSystem

  // ------------------------------------------------------------------ the push loop

  /**
   * The queue has gained tasks for the numbers after `queued`, up to `now`, and pushing has stopped because the queue
   * is full or the head is queued, and for no other reason.
   */
  ghost predicate Pushed(o: Options, before: seq<Task>, after: seq<Task>, queued: nat, now: nat, head: nat) {
    && queued <= now && |after| == |before| + (now - queued) && after[..|before|] == before
    && (forall i :: |before| <= i < |after| ==> after[i] == MainTask(queued + 1 + i - |before|, None))
    && (|after| >= o.maxTasks || now >= head)
    && (now > queued ==> |after| <= o.maxTasks && now <= head)
  }

  lemma PushMeans(o: Options, queue: seq<Task>, queued: nat, head: nat)
    ensures Pushed(o, queue, PushTo(o, queue, queued, head), queued, QueuedTo(o, queue, queued, head), head)
  {
  }

  // ------------------------------------------------------------------ ticks

  /** Only what the service holds in memory may differ. */
  ghost predicate OnlyMemory(s: System, s': System) {
    s' == s.(phase := s'.phase)
  }

  /** The service is up, with the same chain, and awaits nothing. */
  ghost predicate SameChain(s: System, s': System) {
    && OnlyMemory(s, s') && s.phase.Up? && s'.phase.Up? && s'.phase.service.builder == s.phase.service.builder
    && s'.phase.count == s.phase.count && s'.phase.chain == s.phase.chain && s'.phase.ever == s.phase.ever
  }

  /** Recovery starts from what the service knew. */
  ghost predicate EntersRecovery(s: System, s': System, queue: seq<Task>)
    requires s.phase.Up? && s.phase.state.Ingest?
  {
    && SameChain(s, s') && s'.phase.probing.None? && s'.phase.service.queue == queue
    && s'.phase.state == Recover(s.phase.state.finalized, s.phase.state.head, s.phase.state.lastIngested)
  }

  /**
   * Whatever is queued: a new head starts recovery if and only if it is above neither the known head nor the last
   * ingested block. Otherwise it is recorded, and the blocks up to it are queued as far as there is room.
   */
  lemma HeadTickMeans(s: System, head: Cursor)
    requires Ready(s) && IsEnabled(s, HeadTick(head))
    ensures var was, s' := s.phase.state, Step(s, HeadTick(head));
            && SameChain(s, s')
            && (s'.phase.state.Recover? <==>
                  head != was.head && !(head.number > was.head.number || head.number > was.lastIngested.number))
            && (s'.phase.state.Recover? ==> EntersRecovery(s, s', s.phase.service.queue))
            && (s'.phase.state.Ingest? ==>
                  && s'.phase.state == was.(head := head, queued := s'.phase.state.queued)
                  && if head == was.head then s'.phase.service.queue == s.phase.service.queue && s'.phase.state == was
                     else Pushed(s.options, s.phase.service.queue, s'.phase.service.queue, was.queued,
                                 s'.phase.state.queued, head.number))
  {
    hide RemoteInv, Pushed, PushTo, QueuedTo;
    PushMeans(s.options, s.phase.service.queue, s.phase.state.queued, head.number);
  }

  /** A finalized block below the known one stops the service; any other is recorded and published. */
  lemma FinalizedTickMeans(s: System, finalized: Cursor)
    requires Ready(s) && IsEnabled(s, FinalizedTick(finalized))
    ensures var was, s' := s.phase.state, Step(s, FinalizedTick(finalized));
            && (s'.phase.Down? <==> finalized.number < was.finalized.number)
            && (s'.phase.Down? ==> OnlyMemory(s, s'))
            && (s'.phase.Up? ==>
                  && s'.store == s.store.(finalized := Some(finalized.number))
                  && SameChain(s, s'.(store := s.store)) && s'.phase.service == s.phase.service
                  && s'.phase.state == was.(finalized := finalized))
  {
    hide RemoteInv;
  }

  /** One pending fetch at a time, only at the head, for the next generation. */
  lemma PendingTickMeans(s: System)
    requires Ready(s) && IsEnabled(s, PendingTick)
    ensures var was, s' := s.phase.state, Step(s, PendingTick);
            var fetches := s'.phase.Up? && s'.phase.service.queue != s.phase.service.queue;
            && SameChain(s, s')
            && (fetches <==> !was.pending.queued && was.lastIngested == was.head)
            && (!fetches ==> s' == s.(phase := s.phase.(probing := None)))
            && (fetches ==>
                  && s'.phase.service.queue ==
                     s.phase.service.queue + [PendingTask(was.head, was.pending.generation + 1, None)]
                  && s'.phase.state == was.(pending := PendingState(true, was.pending.generation)))
  {
    hide RemoteInv;
  }

  // ------------------------------------------------------------------ the answer of the first task

  /** The block follows the last one of the chain. */
  predicate Follows(b: Builder, block: BlockInfo) {
    b.Building? && block.number == b.info.last.number + 1 && block.parent == b.info.last.hash
  }

  /** A segment's worth of blocks and the offset are there once the block is taken in. */
  predicate Fills(s: System)
    requires s.phase.Up? && s.phase.service.builder.Building?
  {
    |s.phase.service.builder.canonical| + 1 >= s.options.segmentSize + s.options.uploadOffset
  }

  /** The awaited writes make this chain the published one: its snapshot first, then the key that names it. */
  predicate PublishesChain(writes: seq<Write>, b: Builder) {
    |writes| == 2 && writes[0].PutSnapshot? && Ok(writes[0].segment) == CurrentSegment(b) && writes[1].PointAtSnapshot?
  }

  /** The block is taken in: the chain has it at its end, the head is queued on, and the pending state starts anew. */
  ghost predicate TakesIn(s: System, s': System, block: BlockInfo)
    requires s.phase.Up? && s.phase.state.Ingest? && s.phase.service.queue != []
  {
    var was := s.phase.state;
    && s' == s.(phase := s'.phase, writes := s'.writes) && s'.phase.Up? && s'.phase.state.Ingest?
    && s'.phase.probing.None?
    && s'.phase.chain == Grown(s.phase.chain, block.hash) && s'.phase.ever == s.phase.ever + {block.ToCursor()}
    && s'.phase.state == Ingest(was.finalized, was.head, block.ToCursor(), s'.phase.state.queued,
                                PendingState(false, 0))
    && Pushed(s.options, s.phase.service.queue[1..], s'.phase.service.queue, was.queued, s'.phase.state.queued,
              was.head.number)
  }

  /** The answer of the first task, if it is no block. A block not found starts recovery; an error stops the service. */
  lemma OtherAnswerMeans(s: System)
    requires Ready(s) && IsEnabled(s, TaskTick) && !s.phase.service.queue[0].answer.value.Fetched?
    ensures var was, s', rest := s.phase.state, Step(s, TaskTick), s.phase.service.queue[1..];
            match s.phase.service.queue[0].answer.value
            case Broken => OnlyMemory(s, s') && s'.phase.Down?
            case Missing => EntersRecovery(s, s', rest)
            case NoPending =>
              && SameChain(s, s') && s'.phase.service.queue == rest
              && s'.phase.state == was.(pending := PendingState(false, was.pending.generation))
            case PendingFetched(generation) =>
              && SameChain(s, s') && s'.phase.service.queue == rest
              && s'.phase.state == was.(pending := PendingState(false, generation))
            case Fetched(_) => true
  {
    hide RemoteInv, CurrentSegment, Wf, IsZero;
  }

  /** A block that does not follow starts recovery. */
  lemma StrayBlockMeans(s: System)
    requires Ready(s) && IsEnabled(s, TaskTick) && s.phase.service.queue[0].answer.value.Fetched?
    requires !Follows(s.phase.service.builder, s.phase.service.queue[0].answer.value.block)
    ensures EntersRecovery(s, Step(s, TaskTick), s.phase.service.queue[1..])
  {
    hide RemoteInv, CurrentSegment, Wf;
  }

  /**
   * A block that follows is taken in, unless it fills the segment exactly and nothing may stay behind. A full segment
   * is split off and stored before the rest is published; and the chain is published if a segment was split off or
   * the block is not below the finalized one.
   */
  lemma NextBlockMeans(s: System)
    requires Ready(s) && IsEnabled(s, TaskTick) && s.phase.service.queue[0].answer.value.Fetched?
    requires Follows(s.phase.service.builder, s.phase.service.queue[0].answer.value.block)
    ensures var s', block := Step(s, TaskTick), s.phase.service.queue[0].answer.value.block;
            if s.options.uploadOffset == 0 && |s.phase.service.builder.canonical| + 1 == s.options.segmentSize then
              OnlyMemory(s, s') && s'.phase.Down?
            else
              && TakesIn(s, s', block)
              && s'.phase.count == s.phase.count + (if Fills(s) then 1 else 0)
              && if Fills(s) then StoresFirst(s, s')
                 else if block.number >= s.phase.state.finalized.number then
                   PublishesChain(s'.writes, s'.phase.service.builder)
                 else s'.writes == []
  {
    hide RemoteInv, Pushed, PushTo, QueuedTo, CurrentSegment, StoresFirst, TakeSegment;
    var was, rest := s.phase.state, s.phase.service.queue[1..];
    PushMeans(s.options, rest, was.queued, was.head.number);
    var grown := Grow(s.phase.service.builder, s.phase.service.queue[0].answer.value.block).value;
    TakeSegmentOnLedger(grown, s.options.segmentSize);
    if TakeSegment(grown, s.options.segmentSize).Ok? && Fills(s) { SplitStoresFirst(s, Step(s, TaskTick), grown); }
  }

  lemma SplitStoresFirst(s: System, s': System, grown: Builder)
    requires s.phase.Up? && s.phase.service.builder.Building? && s'.phase.Up? && s.options.segmentSize >= 1
    requires Wf(grown) && grown.Building? && grown.info.first == s.phase.service.builder.info.first
    requires grown.canonical == s.phase.service.builder.canonical + [s'.phase.state.lastIngested.hash]
    requires TakeSegment(grown, s.options.segmentSize).Ok?
    requires var taken := TakeSegment(grown, s.options.segmentSize).value;
             && s'.phase.service.builder == taken.builder
             && s'.writes == [PutSegment(taken.segment)] + Publish(CurrentSegment(taken.builder).value)
    ensures StoresFirst(s, s')
  {
    hide CurrentSegment;
  }

  /** The oldest blocks go to the store as one segment; then the rest of the chain is published. */
  ghost predicate StoresFirst(s: System, s': System)
    requires s.phase.Up? && s.phase.service.builder.Building? && s'.phase.Up?
  {
    && |s'.writes| == 3 && s'.writes[0].PutSegment? && PublishesChain(s'.writes[1..], s'.phase.service.builder)
    && WfSegment(s'.writes[0].segment) && s'.phase.service.builder.Building?
    && |s'.writes[0].segment.canonical| == s.options.segmentSize
    && s'.writes[0].segment.info.first.number == s.phase.service.builder.info.first.number
    && Hashes(s'.writes[0].segment.canonical) + s'.phase.service.builder.canonical ==
       s.phase.service.builder.canonical + [s'.phase.state.lastIngested.hash]
  }

  // ------------------------------------------------------------------ fetches, recovery, starts

  /** A main task's answer is the block of the remote chain at its number, unless the request fails. */
  lemma TaskEndsMeans(s: System, i: nat, broken: bool, missing: bool, pending: Option<nat>)
    requires Ready(s) && IsEnabled(s, TaskEnds(i, broken, missing, pending))
    ensures var s', task := Step(s, TaskEnds(i, broken, missing, pending)), s.phase.service.queue[i];
            && SameChain(s, s') && s'.phase.state == s.phase.state && s'.phase.probing == s.phase.probing
            && |s'.phase.service.queue| == |s.phase.service.queue|
            && (forall j :: 0 <= j < |s.phase.service.queue| && j != i ==>
                  s'.phase.service.queue[j] == s.phase.service.queue[j])
            && s'.phase.service.queue[i] == task.(answer := s'.phase.service.queue[i].answer)
            && s'.phase.service.queue[i].answer.Some?
            && var answer := s'.phase.service.queue[i].answer.value;
               && (answer.Broken? <==> broken)
               && (!broken && task.MainTask? ==>
                     && (answer.Missing? <==> missing || task.number > s.remote.head)
                     && (answer.Fetched? <==> !answer.Missing?)
                     && (answer.Fetched? ==>
                           answer.block.number == task.number && OnChain(s.remote, answer.block.ToCursor())
                           && answer.block.hash in s.remote.parent
                           && answer.block.parent == s.remote.parent[answer.block.hash]))
               && (!broken && task.PendingTask? ==>
                     && (answer.Missing? <==> missing)
                     && (!missing ==> answer == if pending.Some? then PendingFetched(pending.value) else NoPending))
  {
    hide Wf, IsZero;
  }

  /** A candidate the remote chain has ends recovery: the chain is cut there and published, the queue dropped. */
  lemma ProbeAgreesMeans(s: System)
    requires Ready(s) && IsEnabled(s, RecoveryProbes) && OnChain(s.remote, s.phase.probing.value)
    requires IsCanonical(OfBuilder(s.phase.service.builder), s.phase.probing.value)
    ensures var was, s', candidate := s.phase.state, Step(s, RecoveryProbes), s.phase.probing.value;
            && s' == s.(phase := s'.phase, writes := s'.writes) && s'.phase.Up? && s'.phase.service.queue == []
            && s'.phase.state == Ingest(was.finalized, was.existingHead, candidate, candidate.number,
                                        PendingState(false, 0))
            && s'.phase.chain == Cut(s.phase.chain, candidate) && s'.phase.probing.None?
            && s'.phase.count == s.phase.count && s'.phase.ever == s.phase.ever
            && PublishesChain(s'.writes, s'.phase.service.builder)
  {
    hide CurrentSegment, WithRemoved, Cut;
    ShrinkShape(s.phase.service.builder, s.phase.probing.value);
  }

  /** Any other candidate leads to the block below it, and at the end of the builder's blocks recovery gives up. */
  lemma ProbeDisagreesMeans(s: System)
    requires Ready(s) && IsEnabled(s, RecoveryProbes) && !OnChain(s.remote, s.phase.probing.value)
    ensures var s', candidate := Step(s, RecoveryProbes), s.phase.probing.value;
            && OnlyMemory(s, s')
            && (s'.phase.Up? <==>
                  && s.phase.service.builder.info.first.number < candidate.number
                  && candidate.number <= s.phase.service.builder.info.last.number + 1)
            && (s'.phase.Up? ==>
                  && s'.phase == s.phase.(probing := s'.phase.probing) && s'.phase.probing.Some?
                  && s'.phase.probing.value.number + 1 == candidate.number
                  && IsCanonical(OfBuilder(s.phase.service.builder), s'.phase.probing.value))
  {
    hide Ascending, PastTheEnd;
  }

  /** Recovery looks first at the last ingested block. */
  lemma RecoveryBeginsMeans(s: System)
    requires Ready(s) && IsEnabled(s, RecoveryBegins)
    ensures var s' := Step(s, RecoveryBegins);
            && OnlyMemory(s, s')
            && (s'.phase.Up? <==> IsCanonical(OfBuilder(s.phase.service.builder), s.phase.state.lastIngested))
            && (s'.phase.Up? ==> s'.phase == s.phase.(probing := Some(s.phase.state.lastIngested)))
  {
    hide RemoteInv, Ascending, PastTheEnd;
  }

  /** A first start: the remote's block at the starting number is the chain, and is published. */
  lemma FirstStartMeans(s: System, finalized: Cursor, head: Cursor)
    requires Ready(s) && IsEnabled(s, Starts(finalized, head)) && s.published == []
    ensures var s' := Step(s, Starts(finalized, head));
            var first := Cursor(s.options.startingBlock, s.remote.canonical[s.options.startingBlock]);
            && s' == s.(phase := s'.phase, writes := s'.writes, store := s.store.(finalized := Some(finalized.number)))
            && s'.phase.Up? && s'.phase.service.queue == [] && s'.phase.probing.None? && s'.phase.count == 0
            && s'.phase.state == Ingest(finalized, head, first, first.number, PendingState(false, 0))
            && s'.phase.chain.first == first.number && s'.phase.chain.hashes == [first.hash]
            && (forall c :: c !in s'.phase.chain.moved) && s'.phase.ever == {first}
            && PublishesChain(s'.writes, s'.phase.service.builder)
  {
    hide RemoteInv, CurrentSegment;
  }

  /** A restart goes on ingesting if and only if the remote chain still has the last block of the published chain. */
  lemma RestartMeans(s: System, finalized: Cursor, head: Cursor)
    requires Ready(s) && IsEnabled(s, Starts(finalized, head)) && s.published != []
    ensures var s', before := Step(s, Starts(finalized, head)), Last(s.published);
            var last := s.store.snapshots[s.store.pointer.value].info.last;
            && s'.remote == s.remote && s'.published == s.published && s'.options == s.options && s'.writes == []
            && s'.store == s.store.(finalized := Some(finalized.number))
            && s'.phase.Up? && s'.phase.service.queue == [] && s'.phase.probing.None?
            && s'.phase.count == before.count && s'.phase.chain == Trimmed(before.chain)
            && s'.phase.state == (if OnChain(s.remote, last)
                                  then Ingest(finalized, head, last, last.number, PendingState(false, 0))
                                  else Recover(finalized, head, last))
            && (forall c :: c in s'.phase.ever <==> c in before.known && c.number <= last.number)
            && (forall c :: c in s'.dropped <==> c in s.dropped || (c in before.known && c.number > last.number))
  {
    hide RemoteInv, Trimmed, Restore;
  }

  /** Writes land one by one, and a chain counts as published with the key that names it. */
  lemma LandMeans(s: System)
    requires Ready(s) && IsEnabled(s, WriteLands)
    ensures var s', write := Step(s, WriteLands), s.writes[0];
            && s'.phase == s.phase && s'.remote == s.remote && s'.dropped == s.dropped && s'.options == s.options
            && s.writes == [write] + s'.writes && s'.store.finalized == s.store.finalized
            && (write.PutSegment? ==>
                  && s'.store == s.store.(segments := s'.store.segments) && s'.published == s.published
                  && s'.store.segments == s.store.segments[write.segment.info.first.number := write.segment])
            && (write.PutSnapshot? ==>
                  s'.store == s.store.(snapshots := s.store.snapshots + [write.segment])
                  && s'.published == s.published)
            && (write.PointAtSnapshot? ==>
                  && s'.store == s.store.(pointer := s'.store.pointer) && s'.store.pointer.Some?
                  && s'.store.pointer.value + 1 == |s.store.snapshots|
                  && |s'.published| == |s.published| + 1 && s'.published[..|s.published|] == s.published
                  && Last(s'.published) == Publication(s.store.snapshots[|s.store.snapshots| - 1], s.phase.count,
                                                       s.phase.chain, s.phase.ever))
  {
    hide RemoteInv, Wf;
    assert s.writes == [s.writes[0]] + s.writes[1..];
  }
}
