/** Every action of the ingestion system keeps its invariant. */
module IngestionInvariant {
  import opened Core
  import opened Watermarks
  import opened Chain
  import opened Ledgers
  import opened ChainHistory
  import opened RemoteChain
  import opened ChainView
  import opened StoredChain
  import opened Ingestion
  import opened IngestionSystem

  /** The builder's blocks are the top of the whole chain. */
  lemma BuilderFacts(t: Tree, o: Options, segments: map<nat, Segment>, up: Phase)
    requires up.Up? && BuilderOk(t, o, segments, up)
    ensures up.chain.hashes != [] && HeadOf(up.chain) == up.service.builder.info.last
    ensures !IsZero(up.service.builder.info.last.hash)
    ensures up.service.builder.info.last.hash in t
    ensures forall c: Cursor :: c.number >= up.service.builder.info.first.number ==>
              (IsCanonical(up.chain, c) <==> IsCanonical(OfBuilder(up.service.builder), c))
  {
    hide Contiguous, Whole, StoredAt;
    var upper := OfBuilder(up.service.builder);
    SupportHead(segments, o.startingBlock, o.segmentSize, up.count, upper);
    assert LinkedAt(t, up.chain, |up.chain.hashes| - 1);
    forall c: Cursor | c.number >= upper.first
      ensures IsCanonical(up.chain, c) <==> IsCanonical(upper, c)
    {
      WholeAbove(Stored(segments, o.startingBlock, o.segmentSize, up.count), upper, c);
    }
  }

  lemma ReadyAlways(s: System)
    requires SystemInv(s)
    ensures Ready(s)
  {
    hide Linked, Remembers, Supported, ViewChain, PublicationOk;
    if s.phase.Up? {
      BuilderFacts(TreeOf(s.remote), s.options, SegmentsAfter(s.store.segments, s.writes), s.phase);
    }
  }

  // ------------------------------------------------------------------ the remote chain moves

  lemma PublicationExtends(t: Tree, t': Tree, o: Options, segments: map<nat, Segment>, p: Publication)
    requires Extends(t, t') && PublicationOk(t, o, segments, p)
    ensures PublicationOk(t', o, segments, p)
  {
    hide Supported, ViewChain, Linked, Remembers, Extends;
    LinkedExtends(t, t', p.chain);
    RemembersExtends(t, t', p.chain, p.known);
  }

  lemma BuilderExtends(t: Tree, t': Tree, o: Options, segments: map<nat, Segment>, up: Phase)
    requires up.Up? && Extends(t, t') && BuilderOk(t, o, segments, up)
    ensures BuilderOk(t', o, segments, up)
  {
    hide Supported, ViewChain, Linked, Remembers, Extends;
    LinkedExtends(t, t', up.chain);
    RemembersExtends(t, t', up.chain, up.ever);
  }

  /** A block of a linked chain that left the remote chain does not come back to it. */
  lemma LinkedStaysOff(r: Remote, r': Remote, l: Ledger, c: Cursor)
    requires RemoteInv(r) && RemoteInv(r') && Succeeds(r, r') && Linked(TreeOf(r), l)
    requires IsCanonical(l, c) && OnChain(r', c)
    ensures OnChain(r, c)
  {
    assert LinkedAt(TreeOf(r), l, c.number - l.first);
  }

  lemma FollowsExtends(r: Remote, r': Remote, dropped: set<Cursor>, p: Publication, count: nat, chain: Ledger,
                       known: set<Cursor>)
    requires RemoteInv(r) && RemoteInv(r') && Succeeds(r, r') && Linked(TreeOf(r), p.chain)
    requires Follows(r, dropped, p, count, chain, known)
    ensures Follows(r', dropped, p, count, chain, known)
  {
    hide Succeeds, Linked, RemoteInv, TreeOf;
    forall c | IsCanonical(p.chain, c) && OnChain(r', c)
      ensures IsCanonical(chain, c)
    {
      LinkedStaysOff(r, r', p.chain, c);
    }
  }

  lemma StateExtends(t: Tree, r: Remote, r': Remote, up: Phase)
    requires RemoteInv(r) && RemoteInv(r') && Succeeds(r, r') && t == TreeOf(r)
    requires up.Up? && up.service.builder.Building? && Linked(t, up.chain) && StateOk(r, up)
    ensures StateOk(r', up)
  {
    hide Succeeds, Linked, RemoteInv, TreeOf, Mains;
    if up.state.Recover? && up.probing.Some? {
      forall c | IsCanonical(up.chain, c) && c.number > up.probing.value.number
        ensures !OnChain(r', c)
      {
        if OnChain(r', c) { LinkedStaysOff(r, r', up.chain, c); }
      }
    }
  }

  lemma RemoteMovesOk(s: System, action: RemoteAction)
    requires SystemInv(s) && Enabled(s.remote, action)
    ensures SystemInv(s.(remote := Next(s.remote, action)))
  {
    hide AllWf, PublicationOk, BuilderOk, StateOk, WritesOk, Follows, TaskOk, RemoteInv, TreeOf, Next;
    var r, r' := s.remote, Next(s.remote, action);
    NextSucceeds(r, action);
    var s' := s.(remote := r');
    RemoteMovesPublications(s, r');
    if s.phase.Up? {
      RemoteMovesUp(s, r');
    }
  }

  lemma RemoteMovesPublications(s: System, r': Remote)
    requires SystemInv(s) && RemoteInv(r') && Succeeds(s.remote, r')
    ensures forall i :: 0 <= i < |s.published| ==>
              PublicationOk(TreeOf(r'), s.options, s.store.segments, s.published[i])
    ensures PublishedInOrder(s.(remote := r'))
  {
    hide AllWf, PublicationOk, Follows, RemoteInv, TreeOf, UpOk, Extends;
    forall i | 0 <= i < |s.published|
      ensures PublicationOk(TreeOf(r'), s.options, s.store.segments, s.published[i])
    {
      PublicationExtends(TreeOf(s.remote), TreeOf(r'), s.options, s.store.segments, s.published[i]);
    }
    forall i, j | 0 <= i <= j < |s.published|
      ensures Follows(r', s.dropped, s.published[i], s.published[j].count, s.published[j].chain, s.published[j].known)
    {
      PublicationLinked(TreeOf(s.remote), s.options, s.store.segments, s.published[i]);
      FollowsExtends(s.remote, r', s.dropped, s.published[i], s.published[j].count, s.published[j].chain,
                     s.published[j].known);
    }
  }

  lemma PublicationLinked(t: Tree, o: Options, segments: map<nat, Segment>, p: Publication)
    requires PublicationOk(t, o, segments, p)
    ensures Linked(t, p.chain) && Remembers(t, p.chain, p.known)
  {
  }

  lemma BuilderLinked(t: Tree, o: Options, segments: map<nat, Segment>, up: Phase)
    requires up.Up? && BuilderOk(t, o, segments, up)
    ensures Linked(t, up.chain) && Remembers(t, up.chain, up.ever)
    ensures Wf(up.service.builder) && up.service.builder.Building?
  {
  }

  lemma RemoteMovesUp(s: System, r': Remote)
    requires SystemInv(s) && s.phase.Up? && RemoteInv(r') && Succeeds(s.remote, r')
    ensures UpOk(s.(remote := r'))
  {
    hide AllWf, PublicationOk, BuilderOk, StateOk, WritesOk, Follows, RemoteInv, TreeOf, PublishedInOrder, PointerOk;
    var t, segments := TreeOf(s.remote), SegmentsAfter(s.store.segments, s.writes);
    BuilderLinked(t, s.options, segments, s.phase);
    BuilderExtends(t, TreeOf(r'), s.options, segments, s.phase);
    StateExtends(t, s.remote, r', s.phase);
    forall i | 0 <= i < |s.published|
      ensures Follows(r', s.dropped, s.published[i], s.phase.count, s.phase.chain, s.phase.ever)
    {
      PublicationLinked(t, s.options, s.store.segments, s.published[i]);
      FollowsExtends(s.remote, r', s.dropped, s.published[i], s.phase.count, s.phase.chain, s.phase.ever);
    }
  }

  // ------------------------------------------------------------------ fetches end, writes land, the service crashes

  lemma {:induction false} MainsConcat(a: seq<Task>, b: seq<Task>)
    ensures Mains(a + b) == Mains(a) + Mains(b)
  {
    if a == [] {
      assert a + b == b;
    } else {
      MainsConcat(a[1..], b);
      assert (a + b)[1..] == a[1..] + b;
    }
  }

  lemma {:induction false} MainsOfNew(from: nat, count: nat)
    ensures Mains(NewTasks(from, count)) == Range(from + 1, count)
    decreases count
  {
    if count > 0 {
      MainsOfNew(from + 1, count - 1);
      assert NewTasks(from, count)[1..] == NewTasks(from + 1, count - 1);
      assert Range(from + 1, count) == [from + 1] + Range(from + 2, count - 1);
    }
  }

  lemma MainsOfAnswered(queue: seq<Task>, i: nat, answer: Answer)
    requires i < |queue|
    ensures Mains(queue[i := queue[i].(answer := Some(answer))]) == Mains(queue)
  {
    var ended := queue[i].(answer := Some(answer));
    assert queue == queue[..i] + ([queue[i]] + queue[i + 1..]);
    assert queue[i := ended] == queue[..i] + ([ended] + queue[i + 1..]);
    MainsConcat(queue[..i], [queue[i]] + queue[i + 1..]);
    MainsConcat(queue[..i], [ended] + queue[i + 1..]);
    MainsConcat([queue[i]], queue[i + 1..]);
    MainsConcat([ended], queue[i + 1..]);
  }

  lemma TaskEndsOk(s: System, i: nat, broken: bool, missing: bool, pending: Option<nat>)
    requires IsEnabled(s, TaskEnds(i, broken, missing, pending)) && SystemInv(s)
    ensures Keeps(s, TaskEnds(i, broken, missing, pending))
  {
    hide AllWf, PublicationOk, BuilderOk, WritesOk, Follows, RemoteInv, TreeOf, Mains, GetBlockByNumber,
         PublishedInOrder, InTree;
    var queue := s.phase.service.queue;
    var answer := AnswerOf(s.remote, queue[i], broken, missing, pending);
    MainsOfAnswered(queue, i, answer);
    if answer.Fetched? {
      AnswerInTree(s.remote, queue[i].number);
    }
    var s' := s.(phase := s.phase.(service :=
                                   s.phase.service.(queue := queue[i := queue[i].(answer := Some(answer))])));
    assert PublishedInOrder(s') by { SameOrder(s, s'); }
    BuilderOkSameBuilder(TreeOf(s.remote), s.options, SegmentsAfter(s.store.segments, s.writes), s.phase, s'.phase);
    WritesOkSameBuilder(s.options, s.store, s.phase, s'.phase, s.writes);
  }

  lemma SameOrder(s: System, s': System)
    requires PublishedInOrder(s) && s'.remote == s.remote && s'.dropped == s.dropped && s'.published == s.published
    ensures PublishedInOrder(s')
  {
  }

  lemma BuilderOkSameBuilder(t: Tree, o: Options, segments: map<nat, Segment>, up: Phase, up': Phase)
    requires up.Up? && up'.Up? && BuilderOk(t, o, segments, up)
    requires up'.service.builder == up.service.builder && up'.count == up.count && up'.chain == up.chain
             && up'.ever == up.ever
    ensures BuilderOk(t, o, segments, up')
  {
  }

  lemma WritesOkSameBuilder(o: Options, store: Store, up: Phase, up': Phase, writes: seq<Write>)
    requires up.Up? && up'.Up? && up.service.builder.Building? && WritesOk(o, store, up, writes)
    requires up'.service.builder == up.service.builder && up'.count == up.count
    ensures WritesOk(o, store, up', writes)
  {
  }

  lemma CrashOk(s: System)
    requires SystemInv(s)
    ensures SystemInv(s.(phase := Down, writes := []))
  {
  }

  /** A stored segment is above everything the readers of a publication look at. */
  lemma PublicationKept(t: Tree, o: Options, segments: map<nat, Segment>, p: Publication, at: nat, segment: Segment)
    requires PublicationOk(t, o, segments, p) && p.count <= at
    ensures PublicationOk(t, o, segments[Edge(o.startingBlock, o.segmentSize, at) := segment], p)
  {
    hide Supported, ViewChain, Linked, Remembers, Edge;
    StoreAbove(segments, o.startingBlock, o.segmentSize, p.count, OfSegment(p.snapshot), at, segment);
  }

  lemma SegmentLands(s: System)
    requires SystemInv(s) && Ready(s) && IsEnabled(s, WriteLands) && s.writes[0].PutSegment?
    ensures SystemInv(Land(s))
  {
    hide WfSegment, PublicationOk, BuilderOk, StateOk, Follows, RemoteInv, TreeOf, Edge, TaskOk, CurrentSegment;
    var s' := Land(s);
    var at := s.phase.count - 1;
    forall i | 0 <= i < |s.published|
      ensures PublicationOk(TreeOf(s.remote), s.options, s'.store.segments, s.published[i])
    {
      PublicationKept(TreeOf(s.remote), s.options, s.store.segments, s.published[i], at, s.writes[0].segment);
    }
    assert SegmentsAfter(s'.store.segments, s'.writes) == SegmentsAfter(s.store.segments, s.writes);
  }

  lemma SnapshotLands(s: System)
    requires SystemInv(s) && Ready(s) && IsEnabled(s, WriteLands) && s.writes[0].PutSnapshot?
    ensures SystemInv(Land(s))
  {
    hide AllWf, PublicationOk, BuilderOk, StateOk, Follows, RemoteInv, TreeOf, Edge, TaskOk, CurrentSegment;
    var s' := Land(s);
    assert SegmentsAfter(s'.store.segments, s'.writes) == SegmentsAfter(s.store.segments, s.writes);
  }

  lemma PointerLands(s: System)
    requires SystemInv(s) && Ready(s) && IsEnabled(s, WriteLands) && s.writes[0].PointAtSnapshot?
    ensures SystemInv(Land(s))
  {
    hide AllWf, BuilderOk, StateOk, PublicationOk, RemoteInv, TreeOf, Edge, TaskOk, CurrentSegment, Follows, Supported,
         ViewChain;
    var s', up := Land(s), s.phase;
    var p := Last(s'.published);
    NewPublicationOk(TreeOf(s.remote), s.options, s.store.segments, up);
    FollowsItself(s.remote, s.dropped, p);
    forall i, j | 0 <= i <= j < |s'.published|
      ensures Follows(s.remote, s.dropped, s'.published[i], s'.published[j].count, s'.published[j].chain,
                      s'.published[j].known)
    {
      if j < |s.published| {
        assert Follows(s.remote, s.dropped, s.published[i], s.published[j].count, s.published[j].chain,
                       s.published[j].known);
      }
    }
    forall i | 0 <= i < |s'.published|
      ensures Follows(s.remote, s.dropped, s'.published[i], up.count, up.chain, up.ever)
    {
    }
  }

  lemma NewPublicationOk(t: Tree, o: Options, segments: map<nat, Segment>, up: Phase)
    requires up.Up? && BuilderOk(t, o, segments, up)
    ensures PublicationOk(t, o, segments,
                          Publication(CurrentSegment(up.service.builder).value, up.count, up.chain, up.ever))
  {
    hide Supported, ViewChain, Linked, Remembers, CurrentSegment;
    CurrentSegmentOnLedger(up.service.builder);
  }

  lemma FollowsItself(r: Remote, dropped: set<Cursor>, p: Publication)
    ensures Follows(r, dropped, p, p.count, p.chain, p.known)
  {
  }

  // ------------------------------------------------------------------ ticks that leave the chain as it is

  /** A tick that keeps the builder and writes nothing needs only its new state and queue checked. */
  lemma QuietTickOk(s: System, service: Service, state: State)
    requires SystemInv(s) && s.phase.Up? && s.writes == []
    requires service.builder == s.phase.service.builder && service.builder.Building?
    requires forall i :: 0 <= i < |service.queue| ==> TaskOk(TreeOf(s.remote), service.queue[i])
    requires StateOk(s.remote, Up(service, state, None, s.phase.count, s.phase.chain, s.phase.ever))
    ensures SystemInv(After(s, Ticked(service, state, []), s.phase.count, s.phase.chain, s.phase.ever))
  {
    hide AllWf, PublicationOk, BuilderOk, StateOk, Follows, RemoteInv, TreeOf, TaskOk;
    var s' := After(s, Ticked(service, state, []), s.phase.count, s.phase.chain, s.phase.ever);
    BuilderOkSameBuilder(TreeOf(s.remote), s.options, s.store.segments, s.phase, s'.phase);
  }

  lemma RangeConcat(from: nat, a: nat, b: nat)
    ensures Range(from, a) + Range(from + a, b) == Range(from, a + b)
  {
  }

  /** Pushing keeps the queued numbers consecutive. */
  lemma PushKeepsOrder(o: Options, queue: seq<Task>, last: nat, queued: nat, head: nat)
    requires last <= queued && Mains(queue) == Range(last + 1, queued - last)
    ensures Mains(PushTo(o, queue, queued, head)) == Range(last + 1, QueuedTo(o, queue, queued, head) - last)
    ensures last <= QueuedTo(o, queue, queued, head)
  {
    hide Mains;
    var count := PushCount(|queue|, o.maxTasks, queued, head);
    MainsConcat(queue, NewTasks(queued, count));
    MainsOfNew(queued, count);
    RangeConcat(last + 1, queued - last, count);
  }

  lemma PushKeepsTasks(t: Tree, o: Options, queue: seq<Task>, queued: nat, head: nat)
    requires forall i :: 0 <= i < |queue| ==> TaskOk(t, queue[i])
    ensures var pushed := PushTo(o, queue, queued, head);
            forall i :: 0 <= i < |pushed| ==> TaskOk(t, pushed[i])
  {
  }

  lemma HeadTickOk(s: System, head: Cursor)
    requires SystemInv(s) && CanTick(s)
    ensures SystemInv(After(s, TickRefreshHead(s.options, s.phase.service, s.phase.state, head),
                            s.phase.count, s.phase.chain, s.phase.ever))
  {
    hide AllWf, PublicationOk, Follows, RemoteInv, TreeOf, TaskOk, Mains, PushTo, QueuedTo, WritesOk, Supported,
         ViewChain, Linked, Remembers;
    var up, outcome := s.phase, TickRefreshHead(s.options, s.phase.service, s.phase.state, head);
    PushKeepsOrder(s.options, up.service.queue, up.state.lastIngested.number, up.state.queued, head.number);
    PushKeepsTasks(TreeOf(s.remote), s.options, up.service.queue, up.state.queued, head.number);
    QuietTickOk(s, outcome.service, outcome.state);
  }

  lemma FinalizedTickOk(s: System, finalized: Cursor)
    requires SystemInv(s)
    ensures Keeps(s, FinalizedTick(finalized))
  {
    hide AllWf, PublicationOk, Follows, RemoteInv, TreeOf, TaskOk, Mains, WritesOk, Supported, ViewChain, Linked,
         Remembers;
    if CanTick(s) {
      var outcome := TickRefreshFinalized(s.phase.service, s.phase.state, finalized);
      if outcome.Ticked? {
        QuietTickOk(s, outcome.service, outcome.state);
        FinalizedIsFree(After(s, outcome, s.phase.count, s.phase.chain, s.phase.ever), Some(finalized.number));
      } else {
        CrashOk(s);
      }
    }
  }

  /** The published finalized number plays no part in the invariant. */
  lemma FinalizedIsFree(s: System, finalized: Option<nat>)
    requires SystemInv(s)
    ensures SystemInv(s.(store := s.store.(finalized := finalized)))
  {
    hide AllWf, PublicationOk, BuilderOk, StateOk, Follows, RemoteInv, TreeOf, TaskOk, CurrentSegment, Edge;
  }

  lemma PendingTickOk(s: System)
    requires SystemInv(s) && CanTick(s)
    ensures SystemInv(After(s, TickRefreshPending(s.phase.service, s.phase.state), s.phase.count, s.phase.chain,
                            s.phase.ever))
  {
    hide AllWf, PublicationOk, Follows, RemoteInv, TreeOf, WritesOk, Supported, ViewChain, Linked, Remembers;
    var up, outcome := s.phase, TickRefreshPending(s.phase.service, s.phase.state);
    var pending := PendingTask(up.state.lastIngested, up.state.pending.generation + 1, None);
    MainsConcat(up.service.queue, [pending]);
    QuietTickOk(s, outcome.service, outcome.state);
  }

  // ------------------------------------------------------------------ a block is ingested

  /** The first task's answer, and what its removal leaves. */
  lemma FirstTask(t: Tree, queue: seq<Task>, last: nat, queued: nat)
    requires queue != [] && last <= queued && Mains(queue) == Range(last + 1, queued - last)
    requires forall i :: 0 <= i < |queue| ==> TaskOk(t, queue[i])
    ensures forall i :: 0 <= i < |queue[1..]| ==> TaskOk(t, queue[1..][i])
    ensures queue[0].PendingTask? ==> Mains(queue[1..]) == Range(last + 1, queued - last)
    ensures queue[0].MainTask? ==>
              && queue[0].number == last + 1 && last + 1 <= queued
              && Mains(queue[1..]) == Range(last + 2, queued - last - 1)
  {
    if queue[0].MainTask? {
      var numbers := Range(last + 1, queued - last);
      assert numbers[0] == queue[0].number;
      assert Mains(queue[1..]) == numbers[1..];
    }
  }

  ghost function GrownPhase(up: Phase, builder: Builder, block: BlockInfo): Phase
    requires up.Up?
  {
    up.(service := up.service.(builder := builder), chain := Grown(up.chain, block.hash),
        ever := up.ever + {block.ToCursor()})
  }

  /** Growing the builder grows the whole chain and remembers its new head. */
  lemma GrowOk(t: Tree, o: Options, segments: map<nat, Segment>, up: Phase, block: BlockInfo)
    requires up.Up? && BuilderOk(t, o, segments, up) && InTree(t, block) && CanGrow(up.service.builder, block)
    ensures Grow(up.service.builder, block).Ok?
    ensures BuilderOk(t, o, segments, GrownPhase(up, Grow(up.service.builder, block).value, block))
    ensures Grow(up.service.builder, block).value.info.last == block.ToCursor()
    ensures |Grow(up.service.builder, block).value.canonical| == |up.service.builder.canonical| + 1
  {
    hide Supported, ViewChain, Linked, Remembers, Wf, IsZero;
    BuilderFacts(t, o, segments, up);
    GrowOnLedger(up.service.builder, block);
    SupportGrows(segments, o.startingBlock, o.segmentSize, up.count, OfBuilder(up.service.builder), block.hash);
    GrowRemembers(t, up.chain, up.ever, block);
  }

  /** Splitting a segment off moves it to the store and leaves the whole chain. */
  lemma SplitOk(t: Tree, o: Options, segments: map<nat, Segment>, up: Phase)
    requires up.Up? && o.segmentSize >= 1 && BuilderOk(t, o, segments, up)
             && |up.service.builder.canonical| > o.segmentSize
    ensures TakeSegment(up.service.builder, o.segmentSize).Ok?
    ensures var taken := TakeSegment(up.service.builder, o.segmentSize).value;
            && taken.builder.Building? && taken.builder.info.last == up.service.builder.info.last
            && taken.segment.info.first.number == Edge(o.startingBlock, o.segmentSize, up.count)
            && WfSegment(taken.segment)
            && BuilderOk(t, o, segments[taken.segment.info.first.number := taken.segment],
                         up.(service := up.service.(builder := taken.builder), count := up.count + 1))
  {
    hide Supported, ViewChain, Linked, Remembers, Edge, TakeSegment;
    SupportTakes(segments, o.startingBlock, o.segmentSize, up.count, up.service.builder);
    TakeSegmentOnLedger(up.service.builder, o.segmentSize);
  }

  lemma FollowsGrown(r: Remote, dropped: set<Cursor>, p: Publication, count: nat, chain: Ledger, known: set<Cursor>,
                     count': nat, block: BlockInfo)
    requires Follows(r, dropped, p, count, chain, known) && count <= count'
    ensures Follows(r, dropped, p, count', Grown(chain, block.hash), known + {block.ToCursor()})
  {
  }

  /** The system after a block has been ingested, given its new builder and writes. */
  lemma AdvancedOk(s: System, up': Phase, writes: seq<Write>, block: BlockInfo)
    requires SystemInv(s) && s.phase.Up? && up'.Up? && s.phase.count <= up'.count
    requires BuilderOk(TreeOf(s.remote), s.options, SegmentsAfter(s.store.segments, writes), up')
    requires up'.chain == Grown(s.phase.chain, block.hash) && up'.ever == s.phase.ever + {block.ToCursor()}
    requires StateOk(s.remote, up') && WritesOk(s.options, s.store, up', writes)
    requires writes != [] && writes[0].PutSegment? ==> s.phase.count < up'.count
    requires forall i :: 0 <= i < |up'.service.queue| ==> TaskOk(TreeOf(s.remote), up'.service.queue[i])
    ensures SystemInv(s.(phase := up', writes := writes))
  {
    hide AllWf, PublicationOk, BuilderOk, StateOk, WritesOk, Follows, RemoteInv, TreeOf, TaskOk;
    forall i | 0 <= i < |s.published|
      ensures Follows(s.remote, s.dropped, s.published[i], up'.count, up'.chain, up'.ever)
      ensures writes != [] && writes[0].PutSegment? ==> s.published[i].count < up'.count
    {
      FollowsGrown(s.remote, s.dropped, s.published[i], s.phase.count, s.phase.chain, s.phase.ever, up'.count, block);
      FollowsCount(s.remote, s.dropped, s.published[i], s.phase.count, s.phase.chain, s.phase.ever);
    }
  }

  lemma FollowsCount(r: Remote, dropped: set<Cursor>, p: Publication, count: nat, chain: Ledger, known: set<Cursor>)
    requires Follows(r, dropped, p, count, chain, known)
    ensures p.count <= count
  {
  }

  /** The state after a block: its cursor is the last ingested one and the queue goes on from there. */
  lemma AdvancedStateOk(s: System, builder: Builder, count: nat, chain: Ledger, ever: set<Cursor>, block: BlockInfo)
    requires SystemInv(s) && CanTick(s) && s.phase.service.queue != [] && builder.Building?
             && builder.info.last == block.ToCursor()
    requires s.phase.service.queue[0].MainTask? && block.number == s.phase.service.queue[0].number
    ensures var service := Service(builder, s.phase.service.queue[1..]);
            var outcome := Advanced(s.options, service, s.phase.state, block, []);
            && StateOk(s.remote, Up(outcome.service, outcome.state, None, count, chain, ever))
            && forall i :: 0 <= i < |outcome.service.queue| ==> TaskOk(TreeOf(s.remote), outcome.service.queue[i])
  {
    hide AllWf, PublicationOk, BuilderOk, WritesOk, Follows, RemoteInv, TreeOf, TaskOk, Mains, Range, PushTo, QueuedTo;
    var state, queue := s.phase.state, s.phase.service.queue;
    FirstTask(TreeOf(s.remote), queue, state.lastIngested.number, state.queued);
    PushKeepsOrder(s.options, queue[1..], block.number, state.queued, state.head.number);
    PushKeepsTasks(TreeOf(s.remote), s.options, queue[1..], state.queued, state.head.number);
  }

  lemma IngestOk(s: System)
    requires IsEnabled(s, TaskTick) && s.phase.service.queue[0].answer.value.Fetched?
    requires CanGrow(s.phase.service.builder, s.phase.service.queue[0].answer.value.block)
    requires SystemInv(s)
    ensures Keeps(s, TaskTick)
  {
    hide AllWf, PublicationOk, BuilderOk, Follows, RemoteInv, TreeOf, Mains, Range, PushTo, QueuedTo, Edge,
         CurrentSegment, TakeSegment, StateOk, InTree;
    ReadyAlways(s);
    var up, o, t := s.phase, s.options, TreeOf(s.remote);
    var block := up.service.queue[0].answer.value.block;
    assert TaskOk(t, up.service.queue[0]);
    GrowOk(t, o, s.store.segments, up, block);
    var grown := Grow(up.service.builder, block).value;
    if |grown.canonical| >= o.segmentSize + o.uploadOffset {
      SplitIngestOk(s, block, grown);
    } else {
      PlainIngestOk(s, block, grown);
    }
  }

  /** A block that does not fill the builder: the chain grows, and is published from the finalized block on. */
  lemma PlainIngestOk(s: System, block: BlockInfo, grown: Builder)
    requires SystemInv(s) && CanTick(s) && s.phase.service.queue != []
    requires s.phase.service.queue[0].MainTask? && block.number == s.phase.service.queue[0].number
    requires grown.Building? && grown.info.last == block.ToCursor()
    requires BuilderOk(TreeOf(s.remote), s.options, s.store.segments, GrownPhase(s.phase, grown, block))
    ensures var writes := if block.number >= s.phase.state.finalized.number then Publish(CurrentSegment(grown).value)
            else [];
            var outcome := Advanced(s.options, Service(grown, s.phase.service.queue[1..]), s.phase.state, block,
                                    writes);
            SystemInv(After(s, outcome, s.phase.count, Grown(s.phase.chain, block.hash), s.phase.ever
                            + {block.ToCursor()}))
  {
    hide AllWf, PublicationOk, BuilderOk, Follows, RemoteInv, TreeOf, Mains, Range, PushTo, QueuedTo, Edge,
         CurrentSegment, StateOk;
    var up, o, t, middle := s.phase, s.options, TreeOf(s.remote), GrownPhase(s.phase, grown, block);
    var writes := if block.number >= up.state.finalized.number then Publish(CurrentSegment(grown).value) else [];
    var outcome := Advanced(o, Service(grown, up.service.queue[1..]), up.state, block, writes);
    var up' := Up(outcome.service, outcome.state, None, up.count, middle.chain, middle.ever);
    AdvancedStateOk(s, grown, up'.count, up'.chain, up'.ever, block);
    BuilderOkSameBuilder(t, o, s.store.segments, middle, up');
    AdvancedOk(s, up', writes, block);
  }

  /** A block that fills the builder: a segment is split off, stored and only then published past. */
  lemma SplitIngestOk(s: System, block: BlockInfo, grown: Builder)
    requires SystemInv(s) && CanTick(s) && s.phase.service.queue != []
    requires s.phase.service.queue[0].MainTask? && block.number == s.phase.service.queue[0].number
    requires Wf(grown) && grown.Building? && grown.info.last == block.ToCursor()
    requires BuilderOk(TreeOf(s.remote), s.options, s.store.segments, GrownPhase(s.phase, grown, block))
    requires |grown.canonical| >= s.options.segmentSize + s.options.uploadOffset
    ensures var service := s.phase.service.(queue := s.phase.service.queue[1..]);
            var outcome := match TakeSegment(grown, s.options.segmentSize)
              case Rejected => Stopped
              case Ok(taken) =>
                Advanced(s.options, service.(builder := taken.builder), s.phase.state, block,
                         [PutSegment(taken.segment)] + Publish(CurrentSegment(taken.builder).value));
            SystemInv(After(s, outcome, s.phase.count + 1, Grown(s.phase.chain, block.hash), s.phase.ever
                            + {block.ToCursor()}))
  {
    hide AllWf, PublicationOk, BuilderOk, Follows, RemoteInv, TreeOf, Mains, Range, PushTo, QueuedTo, Edge,
         CurrentSegment, TakeSegment, StateOk;
    var up, o, t, middle := s.phase, s.options, TreeOf(s.remote), GrownPhase(s.phase, grown, block);
    if |grown.canonical| > o.segmentSize {
      SplitOk(t, o, s.store.segments, middle);
      var taken := TakeSegment(grown, o.segmentSize).value;
      var writes := [PutSegment(taken.segment)] + Publish(CurrentSegment(taken.builder).value);
      var outcome := Advanced(o, Service(taken.builder, up.service.queue[1..]), up.state, block, writes);
      var up' := Up(outcome.service, outcome.state, None, up.count + 1, middle.chain, middle.ever);
      AdvancedStateOk(s, taken.builder, up'.count, up'.chain, up'.ever, block);
      BuilderOkSameBuilder(t, o, SegmentsAfter(s.store.segments, writes),
                           middle.(service := middle.service.(builder := taken.builder), count := up.count + 1), up');
      AdvancedOk(s, up', writes, block);
    } else {
      TakeSegmentOnLedger(grown, o.segmentSize);
      CrashOk(s);
    }
  }

  /** Answers that bring no block: a retry of the pending block, a recovery or an end of the service. */
  lemma OtherAnswerOk(s: System)
    requires IsEnabled(s, TaskTick)
    requires var answer := s.phase.service.queue[0].answer.value;
             answer.Fetched? ==> !CanGrow(s.phase.service.builder, answer.block)
    requires SystemInv(s)
    ensures Keeps(s, TaskTick)
  {
    hide AllWf, PublicationOk, Follows, RemoteInv, TreeOf, Mains, Range, InTree, WritesOk, Supported, ViewChain,
         Linked, Remembers, CurrentSegment, TakeSegment, Wf, CanGrow;
    ReadyAlways(s);
    var up := s.phase;
    var service := up.service.(queue := up.service.queue[1..]);
    var outcome := TickWithTaskResult(s.options, service, up.state, up.service.queue[0].answer.value);
    FirstTask(TreeOf(s.remote), up.service.queue, up.state.lastIngested.number, up.state.queued);
    match outcome
    case Stopped => CrashOk(s);
    case Ticked(_, state, _) => QuietTickOk(s, service, state);
  }

  lemma TaskTickOk(s: System)
    requires SystemInv(s)
    ensures Keeps(s, TaskTick)
  {
    hide SystemInv, Step, Ready, CanGrow;
    if IsEnabled(s, TaskTick) {
      var answer := s.phase.service.queue[0].answer.value;
      if answer.Fetched? && CanGrow(s.phase.service.builder, answer.block) {
        IngestOk(s);
      } else {
        OtherAnswerOk(s);
      }
    }
  }
}
