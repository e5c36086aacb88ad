/** What holds in every state the ingestion system can reach, and what follows for its readers. */
module IngestionSafety {
  import opened Core
  import opened Watermarks
  import opened Chain
  import opened Ledgers
  import opened ChainHistory
  import opened RemoteChain
  import opened ChainView
  import opened StoredChain
  import opened Ingestion
  import opened IngestionSystem
  import opened IngestionInvariant
  import opened IngestionRecovery

  lemma LandOk(s: System)
    requires IsEnabled(s, WriteLands) && SystemInv(s)
    ensures Keeps(s, WriteLands)
  {
    hide SystemInv, Land;
    ReadyAlways(s);
    match s.writes[0]
    case PutSegment(_) => SegmentLands(s);
    case PutSnapshot(_) => SnapshotLands(s);
    case PointAtSnapshot => PointerLands(s);
  }

  /** Every action keeps the invariant. */
  lemma StepKeepsInv(s: System, a: Action)
    requires SystemInv(s) && IsEnabled(s, a)
    ensures Ready(s) && SystemInv(Step(s, a))
  {
    hide SystemInv, Ready;
    ReadyAlways(s);
    match a
    case RemoteMoves(action) => RemoteMovesOk(s, action);
    case TaskEnds(i, broken, missing, pending) => TaskEndsOk(s, i, broken, missing, pending);
    case WriteLands => LandOk(s);
    case Crashes => CrashOk(s);
    case Starts(finalized, head) =>
      if s.published == [] { FreshStartOk(s, finalized, head); } else { RestartOk(s, finalized, head); }
    case HeadTick(head) => HeadTickOk(s, head);
    case FinalizedTick(finalized) => FinalizedTickOk(s, finalized);
    case PendingTick => PendingTickOk(s);
    case TaskTick => TaskTickOk(s);
    case RecoveryBegins => RecoveryBeginsOk(s);
    case RecoveryProbes => RecoveryProbesOk(s);
  }

  /** A run from a fresh deployment: each state comes from the one before by an enabled action. */
  ghost predicate IsRun(states: seq<System>, actions: seq<Action>) {
    && |states| == |actions| + 1
    && states[0].options.segmentSize >= 1
    && (exists genesis: BlockInfo :: !IsZero(genesis.hash) && states[0] == Initially(states[0].options, genesis))
    && forall i :: 0 <= i < |actions| ==> Leads(states[i], actions[i], states[i + 1])
  }

  ghost predicate Leads(s: System, a: Action, s': System) {
    IsEnabled(s, a) && (Ready(s) ==> s' == Step(s, a))
  }

  /** What the code takes for granted holds in every reachable state, and so does the invariant. */
  lemma {:induction false} ReachableInv(states: seq<System>, actions: seq<Action>, i: nat)
    requires IsRun(states, actions) && i < |states|
    ensures Ready(states[i]) && SystemInv(states[i])
  {
    hide SystemInv, Ready, Step, IsEnabled;
    if i == 0 {
      var genesis: BlockInfo :| !IsZero(genesis.hash) && states[0] == Initially(states[0].options, genesis);
      InitiallyOk(states[0].options, genesis);
    } else {
      ReachableInv(states, actions, i - 1);
      assert Leads(states[i - 1], actions[i - 1], states[i]);
      StepKeepsInv(states[i - 1], actions[i - 1]);
    }
    ReadyAlways(states[i]);
  }

  // ------------------------------------------------------------------ the queue and the builder

  /**
   * While the service is up, its chain is linked and ends at the last ingested block; the queued blocks are
   * the ones after it, each once and in order; and recovery cannot find the two in disagreement.
   */
  lemma QueueFollowsTheChain(states: seq<System>, actions: seq<Action>, i: nat)
    requires IsRun(states, actions) && i < |states| && states[i].phase.Up?
    ensures var s, up := states[i], states[i].phase;
            && RemoteInv(s.remote) && Wf(up.service.builder) && up.service.builder.Building?
            && Linked(TreeOf(s.remote), OfBuilder(up.service.builder))
            && up.state.lastIngested == up.service.builder.info.last
            && (up.state.Ingest? ==>
                  var last := up.state.lastIngested.number;
                  last <= up.state.queued && Mains(up.service.queue) == Range(last + 1, up.state.queued - last))
            && !RecoverMismatch(CurrentSegment(up.service.builder).value, up.state.lastIngested)
  {
    hide SystemInv, Ready, IsRun;
    ReachableInv(states, actions, i);
    QueueOk(states[i]);
    NoMismatch(states[i]);
  }

  lemma QueueOk(s: System)
    requires SystemInv(s) && s.phase.Up?
    ensures var up := s.phase;
            && RemoteInv(s.remote) && Wf(up.service.builder) && up.service.builder.Building?
            && Linked(TreeOf(s.remote), OfBuilder(up.service.builder))
            && up.state.lastIngested == up.service.builder.info.last
            && (up.state.Ingest? ==>
                  var last := up.state.lastIngested.number;
                  last <= up.state.queued && Mains(up.service.queue) == Range(last + 1, up.state.queued - last))
  {
    hide AllWf, PublicationOk, Follows, RemoteInv, TreeOf, WritesOk, Supported, ViewChain, Remembers, CurrentSegment,
         Mains, Range, LinkedAt;
    var up, t, o := s.phase, TreeOf(s.remote), s.options;
    var segments, upper := SegmentsAfter(s.store.segments, s.writes), OfBuilder(up.service.builder);
    forall i: nat | i < |upper.hashes|
      ensures LinkedAt(t, upper, i)
    {
      UpperPartLinked(t, o, segments, up, i);
    }
  }

  lemma UpperPartLinked(t: Tree, o: Options, segments: map<nat, Segment>, up: Phase, i: nat)
    requires up.Up? && BuilderOk(t, o, segments, up) && i < |up.service.builder.canonical|
    ensures LinkedAt(t, OfBuilder(up.service.builder), i)
  {
    hide Supported, ViewChain, Remembers;
    var upper := OfBuilder(up.service.builder);
    BuilderFacts(t, o, segments, up);
    var c := Cursor(upper.first + i, upper.hashes[i]);
    assert IsCanonical(upper, c) && IsCanonical(up.chain, c);
    assert LinkedAt(t, up.chain, c.number - up.chain.first);
    if i > 0 {
      var below := Cursor(upper.first + i - 1, upper.hashes[i - 1]);
      assert IsCanonical(upper, below) && IsCanonical(up.chain, below);
    }
  }

  // ------------------------------------------------------------------ crash consistency

  /** What a reader of the k-th publication reads: its snapshot, and the segments stored at this moment. */
  ghost function ReaderView(s: System, k: nat): View
    requires k < |s.published|
  {
    View(s.options.startingBlock, s.options.segmentSize, s.store.segments, s.published[k].snapshot)
  }

  /** The reader's view is one linked chain without gaps from the starting block, the one that was published. */
  ghost predicate SeesOneChain(s: System, k: nat)
    requires k < |s.published| && RemoteInv(s.remote)
  {
    var v, p := ReaderView(s, k), s.published[k];
    && ViewOk(v, p.count) && ChainOf(v, p.count) == p.chain
    && p.chain.first == s.options.startingBlock && p.chain.hashes != [] && HeadOf(p.chain) == p.snapshot.info.last
    && Linked(TreeOf(s.remote), p.chain) && Remembers(TreeOf(s.remote), p.chain, p.known)
  }

  lemma ReaderSeesOneChain(s: System, k: nat)
    requires SystemInv(s) && k < |s.published|
    ensures SeesOneChain(s, k)
  {
    hide Supported, Linked, Remembers, UpOk, RemoteInv, TreeOf, ViewChain;
    var v, p := ReaderView(s, k), s.published[k];
    assert PublicationOk(TreeOf(s.remote), s.options, s.store.segments, p);
    SupportHead(s.store.segments, v.start, v.size, p.count, OfSegment(v.recent));
    ViewShape(v, p.count);
  }

  /** A segment still to be written lies above everything a reader looks at. */
  lemma NextSegmentIsAbove(s: System, k: nat, m: nat)
    requires SystemInv(s) && s.phase.Up? && s.writes != [] && s.writes[0].PutSegment?
    requires k < |s.published| && m < s.published[k].count
    ensures Edge(s.options.startingBlock, s.options.segmentSize, m) < s.writes[0].segment.info.first.number
  {
    hide AllWf, PublicationOk, Follows, BuilderOk, StateOk, RemoteInv, TreeOf, Edge, TaskOk, CurrentSegment;
    EdgeMonotone(s.options.startingBlock, s.options.segmentSize, m, s.phase.count - 1);
  }

  /** No step touches a segment that a reader of a publication looks at. */
  lemma StepKeepsVisible(s: System, a: Action, k: nat, m: nat)
    requires SystemInv(s) && Ready(s) && IsEnabled(s, a) && k < |s.published| && m < s.published[k].count
    ensures var s', key := Step(s, a), Edge(s.options.startingBlock, s.options.segmentSize, m);
            && key in s.store.segments && key in s'.store.segments && s'.store.segments[key] == s.store.segments[key]
  {
    hide SystemInv, Ready, Edge;
    VisibleSegmentStored(s, k, m);
    if a.WriteLands? {
      if s.writes[0].PutSegment? { NextSegmentIsAbove(s, k, m); }
    } else {
      StepLeavesStore(s, a);
    }
  }

  /** Only a landing write changes the segments, and no publication is withdrawn. */
  lemma StepLeavesStore(s: System, a: Action)
    requires Ready(s) && IsEnabled(s, a)
    ensures var s' := Step(s, a);
            && s'.options == s.options && s.published <= s'.published && s.dropped <= s'.dropped
            && (!a.WriteLands? ==> s'.store.segments == s.store.segments)
  {
    hide RemoteInv, Wf, Next, TickWithTaskResult, FinishRecovery, StartAgain, TickRefreshHead, TickRefreshPending,
         TickRefreshFinalized;
  }

  lemma {:induction false} RunKeepsPublished(states: seq<System>, actions: seq<Action>, i: nat, j: nat)
    requires IsRun(states, actions) && i <= j < |states|
    ensures states[j].options == states[i].options && states[i].published <= states[j].published
    ensures RemoteInv(states[i].remote) && RemoteInv(states[j].remote) && Succeeds(states[i].remote, states[j].remote)
    decreases j
  {
    hide SystemInv, Ready, Step, IsEnabled, RemoteInv, Succeeds;
    ReachableInv(states, actions, i);
    RemoteOk(states[i]);
    if i < j {
      RunKeepsPublished(states, actions, i, j - 1);
      ReachableInv(states, actions, j - 1);
      assert Leads(states[j - 1], actions[j - 1], states[j]);
      StepLeavesStore(states[j - 1], actions[j - 1]);
      StepSucceeds(states[j - 1], actions[j - 1]);
      SucceedsTransitive(states[i].remote, states[j - 1].remote, states[j].remote);
    }
  }

  lemma RemoteOk(s: System)
    requires SystemInv(s)
    ensures RemoteInv(s.remote) && Succeeds(s.remote, s.remote)
  {
    hide UpOk, PublicationOk, PublishedInOrder, AllWf;
  }

  lemma StepSucceeds(s: System, a: Action)
    requires Ready(s) && IsEnabled(s, a)
    ensures RemoteInv(Step(s, a).remote) && Succeeds(s.remote, Step(s, a).remote)
  {
    hide RemoteInv, Succeeds, Wf, Next, TickWithTaskResult, FinishRecovery, StartAgain, TickRefreshHead,
         TickRefreshPending, TickRefreshFinalized;
    assert Succeeds(s.remote, s.remote) by { RemoteReflexive(s.remote); }
    if a.RemoteMoves? {
      NextSucceeds(s.remote, a.action);
    }
  }

  lemma RemoteReflexive(r: Remote)
    requires RemoteInv(r)
    ensures Succeeds(r, r)
  {
  }

  /**
   * Crash consistency. From the moment a publication is made, in every later state (between any two writes,
   * after any crash, restart, reorg or recovery) its snapshot and the stored segments are the same one
   * linked, gap-free chain; and the etcd key always names the snapshot of the latest publication.
   */
  lemma ReadersKeepTheirChain(states: seq<System>, actions: seq<Action>, i: nat, j: nat, k: nat)
    requires IsRun(states, actions) && i <= j < |states| && k < |states[i].published|
    ensures k < |states[j].published| && states[j].published[k] == states[i].published[k]
    ensures RemoteInv(states[j].remote) && SeesOneChain(states[j], k)
    ensures var store := states[j].store;
            && store.pointer.Some? && store.pointer.value < |store.snapshots|
            && store.snapshots[store.pointer.value] == Last(states[j].published).snapshot
  {
    hide SystemInv, IsRun, SeesOneChain, RemoteInv;
    RunKeepsPublished(states, actions, i, j);
    ReachableInv(states, actions, j);
    ReaderSeesOneChain(states[j], k);
    PointerNamesLast(states[j]);
  }

  lemma PointerNamesLast(s: System)
    requires SystemInv(s) && s.published != []
    ensures s.store.pointer.Some? && s.store.pointer.value < |s.store.snapshots|
    ensures s.store.snapshots[s.store.pointer.value] == Last(s.published).snapshot
  {
    hide UpOk, PublicationOk, PublishedInOrder, AllWf, RemoteInv;
  }

  /** A segment that some reader looks at is never written again. */
  lemma {:induction false} VisibleSegmentsStay(states: seq<System>, actions: seq<Action>, i: nat, j: nat, k: nat,
                                               m: nat)
    requires IsRun(states, actions) && i <= j < |states| && k < |states[i].published|
             && m < states[i].published[k].count
    ensures var key := Edge(states[i].options.startingBlock, states[i].options.segmentSize, m);
            && key in states[i].store.segments && key in states[j].store.segments
            && states[j].store.segments[key] == states[i].store.segments[key]
    decreases j
  {
    hide SystemInv, Ready, Step, IsEnabled, RemoteInv, Edge, SeesOneChain;
    if i < j {
      VisibleSegmentsStay(states, actions, i, j - 1, k, m);
      RunKeepsPublished(states, actions, i, j - 1);
      ReachableInv(states, actions, j - 1);
      assert Leads(states[j - 1], actions[j - 1], states[j]);
      StepKeepsVisible(states[j - 1], actions[j - 1], k, m);
    } else {
      ReachableInv(states, actions, i);
      VisibleSegmentStored(states[i], k, m);
    }
  }

  lemma VisibleSegmentStored(s: System, k: nat, m: nat)
    requires SystemInv(s) && k < |s.published| && m < s.published[k].count
    ensures Edge(s.options.startingBlock, s.options.segmentSize, m) in s.store.segments
  {
    hide UpOk, PublishedInOrder, AllWf, RemoteInv, TreeOf, Linked, Remembers, Edge, Contiguous;
    assert PublicationOk(TreeOf(s.remote), s.options, s.store.segments, s.published[k]);
    assert StoredAt(s.store.segments, s.options.startingBlock, s.options.segmentSize, m);
  }

  lemma LaterFollows(s: System, k: nat, l: nat)
    requires SystemInv(s) && k <= l < |s.published|
    ensures Follows(s.remote, s.dropped, s.published[k], s.published[l].count, s.published[l].chain,
                    s.published[l].known)
  {
    hide UpOk, PublicationOk, AllWf, RemoteInv, TreeOf, Follows;
  }

  /**
   * Whatever happens after a publication, each later one counts no fewer segments, knows every cursor it knew unless
   * a restart has dropped the cursor's entry, and holds those of its blocks that the remote chain has by then.
   */
  lemma LaterPublicationsFollow(states: seq<System>, actions: seq<Action>, i: nat, j: nat, k: nat, l: nat)
    requires IsRun(states, actions) && i <= j < |states| && k < |states[i].published| && k <= l < |states[j].published|
    ensures var earlier, later := states[i].published[k], states[j].published[l];
            && earlier.count <= later.count && earlier.known - states[j].dropped <= later.known
            && forall c :: IsCanonical(earlier.chain, c) && OnChain(states[j].remote, c) ==> IsCanonical(later.chain, c)
  {
    hide SystemInv, IsRun, RemoteInv, TreeOf;
    RunKeepsPublished(states, actions, i, j);
    ReachableInv(states, actions, j);
    LaterFollows(states[j], k, l);
  }

  /** A finalized block that was published stays in every later publication. */
  lemma FinalBlocksStay(states: seq<System>, actions: seq<Action>, i: nat, j: nat, k: nat, l: nat, c: Cursor)
    requires IsRun(states, actions) && i <= j < |states| && k < |states[i].published| && k <= l < |states[j].published|
    requires IsCanonical(states[i].published[k].chain, c) && Final(states[i].remote, c)
    ensures IsCanonical(states[j].published[l].chain, c) && Final(states[j].remote, c)
  {
    hide SystemInv, IsRun, RemoteInv, TreeOf, Extends;
    RunKeepsPublished(states, actions, i, j);
    LaterPublicationsFollow(states, actions, i, j, k, l);
  }

  lemma CanonicalIsKnown(t: Tree, chain: Ledger, known: set<Cursor>)
    requires Remembers(t, chain, known)
    ensures forall c :: IsCanonical(chain, c) ==> c in known
    ensures forall c :: c in known ==> chain.first <= c.number
  {
  }
}
