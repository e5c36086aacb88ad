/** What recovery achieves, what a restart forgets, and when a full builder stops the service. */
module RecoverySafety {
  import opened Core
  import opened Watermarks
  import opened Chain
  import opened Ledgers
  import opened ChainHistory
  import opened RemoteChain
  import opened ChainView
  import opened Ingestion
  import opened IngestionSystem
  import opened IngestionInvariant
  import opened IngestionRecovery
  import opened IngestionSafety

  // ------------------------------------------------------------------ recovery

  /** A linked chain that shares its head with the remote chain is part of the remote chain. */
  lemma SharedHeadIsOnChain(r: Remote, l: Ledger, c: Cursor)
    requires RemoteInv(r) && Linked(TreeOf(r), l) && l.hashes != [] && OnChain(r, HeadOf(l)) && IsCanonical(l, c)
    ensures OnChain(r, c)
  {
    hide RemoteInv, TreeOf, Linked;
    RemoteIsLinked(r);
    SharedBlockSharesBelow(TreeOf(r), l, LedgerOf(r), HeadOf(l), c.number);
  }

  lemma CutHead(l: Ledger, newHead: Cursor)
    requires IsCanonical(l, newHead)
    ensures Cut(l, newHead).hashes != [] && HeadOf(Cut(l, newHead)) == newHead
    ensures forall c :: IsCanonical(Cut(l, newHead), c) <==> IsCanonical(l, c) && c.number <= newHead.number
  {
  }

  /** The candidate of a recovery under way is a block of the chain, and nothing above it is on the remote chain. */
  ghost predicate RuledOut(s: System) {
    && s.phase.Up? && s.phase.probing.Some?
    && RemoteInv(s.remote) && Linked(TreeOf(s.remote), s.phase.chain)
    && IsCanonical(s.phase.chain, s.phase.probing.value)
    && forall c :: IsCanonical(s.phase.chain, c) && c.number > s.phase.probing.value.number ==> !OnChain(s.remote, c)
  }

  lemma ProbingRulesOut(s: System)
    requires IsEnabled(s, RecoveryProbes) && SystemInv(s)
    ensures RuledOut(s)
  {
    hide AllWf, PublicationOk, Follows, TreeOf, WritesOk, Supported, ViewChain, Remembers, CurrentSegment, RemoteInv,
         Linked;
    ReadyAlways(s);
    BuilderLinked(TreeOf(s.remote), s.options, s.store.segments, s.phase);
  }

  /**
   * When the remote agrees with the candidate, recovery ends with exactly the blocks of the old chain that
   * are on the remote chain: the new head is the highest of them, and none that is finalized is removed.
   */
  lemma RecoveryKeepsCommonBlocks(s: System)
    requires Ready(s) && IsEnabled(s, RecoveryProbes) && OnChain(s.remote, s.phase.probing.value)
    requires SystemInv(s)
    ensures var s', newHead := Step(s, RecoveryProbes), s.phase.probing.value;
            && s'.phase.Up? && s'.phase.state.Ingest? && s'.phase.state.lastIngested == newHead
            && s'.phase.service.queue == []
            && s'.phase.chain.hashes != [] && HeadOf(s'.phase.chain) == newHead
            && (forall c :: IsCanonical(s'.phase.chain, c) ==> OnChain(s.remote, c))
            && (forall c :: IsCanonical(s.phase.chain, c) ==>
                (IsCanonical(s'.phase.chain, c) <==> OnChain(s.remote, c)))
            && (forall c :: IsCanonical(s.phase.chain, c) && Final(s.remote, c) ==> IsCanonical(s'.phase.chain, c))
  {
    hide SystemInv, Ready, RemoteInv, TreeOf, Linked, IsCanonical, OnChain, Cut;
    ProbingRulesOut(s);
    var s', newHead, after := Step(s, RecoveryProbes), s.phase.probing.value, Cut(s.phase.chain, s.phase.probing.value);
    AgreementFinishes(s);
    CutHead(s.phase.chain, newHead);
    StepKeepsInv(s, RecoveryProbes);
    ChainIsLinked(s');
    forall c | IsCanonical(after, c)
      ensures OnChain(s.remote, c)
    {
      SharedHeadIsOnChain(s.remote, after, c);
    }
    assert forall c :: Final(s.remote, c) ==> OnChain(s.remote, c);
  }

  lemma ChainIsLinked(s: System)
    requires SystemInv(s) && s.phase.Up?
    ensures RemoteInv(s.remote) && Linked(TreeOf(s.remote), s.phase.chain)
  {
    hide AllWf, PublicationOk, Follows, TreeOf, WritesOk, Supported, ViewChain, Remembers, CurrentSegment, RemoteInv,
         Linked, StateOk;
  }

  lemma AgreementFinishes(s: System)
    requires Ready(s) && IsEnabled(s, RecoveryProbes) && OnChain(s.remote, s.phase.probing.value)
    requires SystemInv(s)
    ensures var s', newHead := Step(s, RecoveryProbes), s.phase.probing.value;
            && s'.phase.Up? && s'.phase.state.Ingest? && s'.phase.state.lastIngested == newHead
            && s'.phase.service.queue == []
            && s'.remote == s.remote && s'.phase.chain == Cut(s.phase.chain, newHead)
  {
    hide AllWf, PublicationOk, Follows, TreeOf, WritesOk, Supported, ViewChain, Remembers, Linked, CurrentSegment,
         Shrink;
    ShrinkOnLedger(s.phase.service.builder, s.phase.probing.value);
  }

  /** Recovery gives up exactly at the builder's first block, when the remote chain has none of the builder's blocks. */
  ghost predicate GivesUpAtTheEnd(s: System)
    requires Ready(s) && IsEnabled(s, RecoveryProbes)
  {
    var b, candidate := s.phase.service.builder, s.phase.probing.value;
    && (Step(s, RecoveryProbes).phase.Down? <==>
        !OnChain(s.remote, candidate) && candidate.number == b.info.first.number)
    && (Step(s, RecoveryProbes).phase.Down? ==> forall c :: IsCanonical(OfBuilder(b), c) ==> !OnChain(s.remote, c))
  }

  lemma RecoveryGivesUp(s: System)
    requires Ready(s) && IsEnabled(s, RecoveryProbes)
    requires SystemInv(s)
    ensures GivesUpAtTheEnd(s)
  {
    hide AllWf, PublicationOk, Follows, TreeOf, WritesOk, Supported, ViewChain, Remembers, Linked, CurrentSegment,
         Shrink, Canonical, RemoteInv;
    var b, candidate := s.phase.service.builder, s.phase.probing.value;
    if OnChain(s.remote, candidate) {
      AgreementFinishes(s);
    } else {
      if candidate.number > 0 { CurrentReads(b, candidate.number - 1); }
      BuilderFacts(TreeOf(s.remote), s.options, s.store.segments, s.phase);
      forall c | IsCanonical(OfBuilder(b), c) && Step(s, RecoveryProbes).phase.Down?
        ensures !OnChain(s.remote, c)
      {
        if c.number == candidate.number { OneBlockPerHeight(OfBuilder(b), c, candidate); }
      }
    }
  }

  /** Whatever the remote answers, one query per block of the segment is enough. */
  lemma {:induction false} RecoveryQueries(segment: Segment, candidate: Cursor, remote: nat -> Option<BlockInfo>,
                                           i: nat)
    requires WfSegment(segment) && segment.info.first.number <= candidate.number <= segment.info.last.number
    ensures RecoverLoop(segment, candidate, remote, i).1 - i <= candidate.number - segment.info.first.number
            + 1 <= |segment.canonical|
    ensures RecoverLoop(segment, candidate, remote, i).0.Some? ==>
              var found, last := RecoverLoop(segment, candidate, remote, i).0.value,
                RecoverLoop(segment, candidate, remote, i).1;
              && last > i && remote(last - 1).Some? && remote(last - 1).value.ToCursor() == found
              && found.number == candidate.number - (last - 1 - i)
              && forall q: nat :: i <= q < last - 1 ==> !AgreesAt(segment, candidate, remote, i, q)
    decreases candidate.number
  {
    match ProbeCandidate(segment, candidate, remote(i))
    case Agrees =>
    case GiveUp =>
    case GoBelow(below) =>
      RecoveryQueries(segment, below, remote, i + 1);
      var last := RecoverLoop(segment, candidate, remote, i).1;
      if RecoverLoop(segment, candidate, remote, i).0.Some? {
        forall q: nat | i <= q < last - 1
          ensures !AgreesAt(segment, candidate, remote, i, q)
        {
          if q > i { assert !AgreesAt(segment, below, remote, i + 1, q); }
        }
      }
  }

  /** The answer to query `q` of a loop that started at query `i` is the candidate of that pass. */
  predicate AgreesAt(segment: Segment, candidate: Cursor, remote: nat -> Option<BlockInfo>, i: nat, q: nat)
    requires WfSegment(segment)
  {
    && i <= q && remote(q).Some?
    && var asked := if q == i then Ok(candidate) else if candidate.number < q - i then Rejected
    else Canonical(segment, candidate.number - (q - i));
       asked == Ok(remote(q).value.ToCursor())
  }

  // ------------------------------------------------------------------ what a restart forgets

  /**
   * After a restart the reorg entries up to the last block answer as before, and exactly those past it are
   * gone: a client there is refused.
   */
  lemma RestartForgetsPastTheEnd(s: Segment, c: Cursor)
    requires WfSegment(s) && c.number >= s.info.first.number && !IsZero(c.hash)
    requires !IsCanonical(OfSegment(s), c) && c in OfSegment(s).moved
    ensures Reconnect(s, c) == Ok(OfflineReorg(OfSegment(s).moved[c]))
    ensures Wf(Restore(s)) && Reconnect(CurrentSegment(Restore(s)).value, c) ==
            if c.number <= s.info.last.number then Ok(OfflineReorg(OfSegment(s).moved[c])) else Rejected
  {
    hide CurrentSegment, Restore, Reconnect;
    SegmentReads(s, c);
    RestoreOnLedger(s);
    CurrentSegmentOnLedger(Restore(s));
    var after := CurrentSegment(Restore(s)).value;
    SegmentReads(after, c);
    if c.number > s.info.last.number { NothingPastTheEnd(s, c); }
  }

  lemma NothingPastTheEnd(s: Segment, c: Cursor)
    requires WfSegment(s) && c.number > s.info.last.number
    ensures Wf(Restore(s)) && Reconnect(CurrentSegment(Restore(s)).value, c) == Rejected
  {
    RestoreOnLedger(s);
    assert PastTheEnd(Restore(s).reorgs, s.info.last.number) == {};
  }

  // ------------------------------------------------------------------ a full builder and a zero upload offset

  /** Ingesting a block that follows the chain stops the service exactly when it fills a segment and the offset is 0. */
  lemma FullBuilderStops(o: Options, service: Service, state: State, block: BlockInfo)
    requires state.Ingest? && Wf(service.builder) && o.segmentSize >= 1
    requires service.builder.Building? && !IsZero(service.builder.info.last.hash) && CanGrow(service.builder, block)
    ensures IngestBlock(o, service, state, block).Stopped? <==>
            o.uploadOffset == 0 && |service.builder.canonical| + 1 == o.segmentSize
  {
    hide CurrentSegment, PushTo, QueuedTo;
  }

  /** No segment is stored, none was ever split off, and no published chain is as long as one. */
  ghost predicate Short(s: System) {
    && s.store.segments == map[]
    && (s.phase.Up? ==>
          && s.phase.service.builder.Building?
          && s.phase.count == 0 && |s.phase.service.builder.canonical| < s.options.segmentSize
          && (s.writes != [] ==> !s.writes[0].PutSegment?))
    && forall i :: 0 <= i < |s.published| ==>
         s.published[i].count == 0 && |s.published[i].snapshot.canonical| < s.options.segmentSize
  }

  lemma ShortTaskTick(s: System)
    requires Ready(s) && IsEnabled(s, TaskTick)
    requires Short(s) && s.options.uploadOffset == 0
    ensures Short(Step(s, TaskTick))
  {
    hide RemoteInv, CurrentSegment, PushTo, QueuedTo, Wf;
  }

  lemma ShortLand(s: System)
    requires Ready(s) && IsEnabled(s, WriteLands)
    requires Short(s) && SystemInv(s)
    ensures Short(Step(s, WriteLands))
  {
    hide AllWf, PublicationOk, Follows, BuilderOk, StateOk, RemoteInv, TreeOf, Edge, TaskOk, CurrentSegment;
    CurrentLength(s.phase.service.builder);
  }

  lemma CurrentLength(b: Builder)
    requires b.Building?
    ensures |CurrentSegment(b).value.canonical| == |b.canonical|
  {
  }

  lemma ShortStart(s: System, finalized: Cursor, head: Cursor)
    requires Ready(s) && IsEnabled(s, Starts(finalized, head))
    requires Short(s) && PointerOk(s) && s.options.segmentSize >= 2
    ensures Short(Step(s, Starts(finalized, head)))
  {
    hide RemoteInv, CurrentSegment, Survivors, Trimmed, ReorgsOf;
  }

  lemma ShortProbe(s: System)
    requires Ready(s) && IsEnabled(s, RecoveryProbes)
    requires Short(s)
    ensures Short(Step(s, RecoveryProbes))
  {
    hide CurrentSegment, RemoteInv, WithRemoved, Canonical, GetBlockByNumber;
  }

  lemma ShortOther(s: System, a: Action)
    requires Ready(s) && IsEnabled(s, a) && !(a.TaskTick? || a.WriteLands? || a.Starts? || a.RecoveryProbes?)
    requires Short(s)
    ensures Short(Step(s, a))
  {
    hide CurrentSegment, RemoteInv, Wf, PushTo, QueuedTo, Next, RecoverMismatch;
  }

  lemma ShortStep(s: System, a: Action)
    requires Ready(s) && IsEnabled(s, a) && SystemInv(s) && Short(s) && s.options.uploadOffset == 0
             && s.options.segmentSize >= 2
    ensures Short(Step(s, a))
  {
    hide SystemInv, Ready, Short, IsEnabled, Step;
    match a
    case TaskTick => ShortTaskTick(s);
    case WriteLands => ShortLand(s);
    case Starts(finalized, head) => PointerIsOk(s); ShortStart(s, finalized, head);
    case RecoveryProbes => ShortProbe(s);
    case _ => ShortOther(s, a);
  }

  lemma PointerIsOk(s: System)
    requires SystemInv(s)
    ensures PointerOk(s)
  {
    hide UpOk, PublicationOk, PublishedInOrder, AllWf, RemoteInv;
  }

  /**
   * With a zero offset and segments of two blocks or more, no run ever stores a segment: the chain stays shorter than
   * one.
   */
  lemma {:induction false} ZeroOffsetNeverStores(states: seq<System>, actions: seq<Action>, i: nat)
    requires IsRun(states, actions) && i < |states|
    requires states[0].options.uploadOffset == 0 && states[0].options.segmentSize >= 2
    ensures Short(states[i])
  {
    hide SystemInv, Ready, Step, IsEnabled, Short;
    if i == 0 {
      assert Short(states[0]) by { ShortInitially(states[0]); }
    } else {
      ZeroOffsetNeverStores(states, actions, i - 1);
      ReachableInv(states, actions, i - 1);
      RunKeepsPublished(states, actions, 0, i - 1);
      assert Leads(states[i - 1], actions[i - 1], states[i]);
      ShortStep(states[i - 1], actions[i - 1]);
    }
  }

  lemma ShortInitially(s: System)
    requires exists genesis: BlockInfo :: s == Initially(s.options, genesis)
    ensures Short(s)
  {
  }
}
