/** Recovery and start keep the invariant of the ingestion system. */
module IngestionRecovery {
  import opened Core
  import opened Watermarks
  import opened Chain
  import opened Ledgers
  import opened ChainHistory
  import opened RemoteChain
  import opened ChainView
  import opened StoredChain
  import opened Ingestion
  import opened IngestionSystem
  import opened IngestionInvariant

  // ------------------------------------------------------------------ recovery

  /** What the current segment says at a height is what the builder holds there. */
  lemma CurrentReads(b: Builder, n: nat)
    requires Wf(b) && b.Building?
    ensures var segment := CurrentSegment(b).value;
            && (b.info.first.number <= n <= b.info.last.number <==> Canonical(segment, n).Ok?)
            && (Canonical(segment, n).Ok? ==>
                  Canonical(segment, n).value.number == n && IsCanonical(OfBuilder(b), Canonical(segment, n).value))
    ensures IsCanonical(OfBuilder(b), b.info.last)
    ensures Canonical(CurrentSegment(b).value, b.info.last.number) == Ok(b.info.last)
  {
    hide Ascending, PastTheEnd;
  }

  lemma OneBlockPerHeight(l: Ledger, c: Cursor, d: Cursor)
    requires IsCanonical(l, c) && IsCanonical(l, d) && c.number == d.number
    ensures c == d
  {
  }

  /** The check that "should never" fail never fails. */
  lemma NoMismatch(s: System)
    requires SystemInv(s) && s.phase.Up?
    ensures Wf(s.phase.service.builder) && s.phase.service.builder.Building?
    ensures !RecoverMismatch(CurrentSegment(s.phase.service.builder).value, s.phase.state.lastIngested)
  {
    hide AllWf, PublicationOk, Follows, RemoteInv, TreeOf, Mains, WritesOk, Supported, ViewChain, Linked, Remembers,
         CurrentSegment, Canonical, Wf;
    CurrentReads(s.phase.service.builder, s.phase.state.lastIngested.number);
  }

  /** A probing step that moves the candidate only. */
  lemma CandidateMoves(s: System, candidate: Cursor)
    requires s.phase.Up? && s.writes == [] && s.phase.state.Recover?
    requires SystemInv(s)
    requires IsCanonical(OfBuilder(s.phase.service.builder), candidate)
    requires forall c :: IsCanonical(s.phase.chain, c) && c.number > candidate.number ==> !OnChain(s.remote, c)
    ensures SystemInv(s.(phase := s.phase.(probing := Some(candidate))))
  {
    hide AllWf, PublicationOk, BuilderOk, Follows, RemoteInv, TreeOf, Mains, WritesOk, TaskOk, IsCanonical, OnChain;
    var s' := s.(phase := s.phase.(probing := Some(candidate)));
    BuilderOkSameBuilder(TreeOf(s.remote), s.options, s.store.segments, s.phase, s'.phase);
    WritesOkSameBuilder(s.options, s.store, s.phase, s'.phase, s.writes);
  }

  lemma RecoveryBeginsOk(s: System)
    requires IsEnabled(s, RecoveryBegins) && SystemInv(s)
    ensures Keeps(s, RecoveryBegins)
  {
    hide AllWf, PublicationOk, Follows, RemoteInv, TreeOf, Mains, WritesOk, Supported, ViewChain, Linked, Remembers,
         CurrentSegment, Canonical, Wf, RecoverMismatch, TaskOk;
    NoMismatch(s);
    BuilderFacts(TreeOf(s.remote), s.options, s.store.segments, s.phase);
    CurrentReads(s.phase.service.builder, 0);
    CandidateMoves(s, s.phase.state.lastIngested);
  }

  lemma RecoveryProbesOk(s: System)
    requires IsEnabled(s, RecoveryProbes) && SystemInv(s)
    ensures Keeps(s, RecoveryProbes)
  {
    hide AllWf, PublicationOk, Follows, RemoteInv, TreeOf, Mains, WritesOk, Supported, ViewChain, Linked, Remembers,
         CurrentSegment, Canonical, Wf, TaskOk, Shrink;
    ReadyAlways(s);
    var up, candidate := s.phase, s.phase.probing.value;
    BuilderFacts(TreeOf(s.remote), s.options, s.store.segments, up);
    if OnChain(s.remote, candidate) {
      FinishOk(s);
    } else if candidate.number == 0 {
      CrashOk(s);
    } else {
      CurrentReads(up.service.builder, candidate.number - 1);
      match Canonical(CurrentSegment(up.service.builder).value, candidate.number - 1)
      case Rejected => CrashOk(s);
      case Ok(below) =>
        forall c | IsCanonical(up.chain, c) && c.number > below.number
          ensures !OnChain(s.remote, c)
        {
          if c.number == candidate.number { OneBlockPerHeight(up.chain, c, candidate); }
        }
        CandidateMoves(s, below);
    }
  }

  /** Cutting the builder at a block of it cuts the whole chain there. */
  lemma ShrinkOk(t: Tree, o: Options, segments: map<nat, Segment>, up: Phase, newHead: Cursor)
    requires up.Up? && BuilderOk(t, o, segments, up) && IsCanonical(OfBuilder(up.service.builder), newHead)
    ensures Shrink(up.service.builder, newHead).Ok? && IsCanonical(up.chain, newHead)
    ensures var after := Shrink(up.service.builder, newHead).value.builder;
            && after.Building? && after.info.last == newHead
            && BuilderOk(t, o, segments, up.(service := up.service.(builder := after), chain := Cut(up.chain, newHead)))
  {
    hide Supported, ViewChain, Linked, Remembers;
    ShrinkOnLedger(up.service.builder, newHead);
    SupportCuts(segments, o.startingBlock, o.segmentSize, up.count, OfBuilder(up.service.builder), newHead);
    CutRemembers(t, up.chain, up.ever, newHead);
  }

  /** Only blocks that left the remote chain are cut off, so no publication loses a block that is still there. */
  lemma FollowsCut(r: Remote, dropped: set<Cursor>, p: Publication, count: nat, chain: Ledger, known: set<Cursor>,
                   newHead: Cursor)
    requires Follows(r, dropped, p, count, chain, known) && IsCanonical(chain, newHead)
    requires forall c :: IsCanonical(chain, c) && c.number > newHead.number ==> !OnChain(r, c)
    ensures Follows(r, dropped, p, count, Cut(chain, newHead), known)
  {
    forall c | IsCanonical(p.chain, c) && OnChain(r, c)
      ensures IsCanonical(Cut(chain, newHead), c)
    {
      assert IsCanonical(chain, c);
    }
  }

  lemma FinishOk(s: System)
    requires IsEnabled(s, RecoveryProbes) && OnChain(s.remote, s.phase.probing.value)
    requires SystemInv(s)
    ensures Keeps(s, RecoveryProbes)
  {
    hide AllWf, PublicationOk, Follows, TreeOf, Mains, Supported, ViewChain, Linked, Remembers, CurrentSegment,
         Canonical, Wf, TaskOk, Shrink, Edge, Cut, BuilderOk;
    ReadyAlways(s);
    var up, newHead := s.phase, s.phase.probing.value;
    ShrinkOk(TreeOf(s.remote), s.options, s.store.segments, up, newHead);
    var after := Shrink(up.service.builder, newHead).value.builder;
    var chain := Cut(up.chain, newHead);
    var up' := Up(Service(after, []),
                  Ingest(up.state.finalized, up.state.existingHead, newHead, newHead.number, DEFAULT_PENDING),
                  None, up.count, chain, up.ever);
    BuilderOkSameBuilder(TreeOf(s.remote), s.options, s.store.segments,
                         up.(service := up.service.(builder := after), chain := chain), up');
    forall i | 0 <= i < |s.published|
      ensures Follows(s.remote, s.dropped, s.published[i], up.count, chain, up.ever)
    {
      FollowsCut(s.remote, s.dropped, s.published[i], up.count, up.chain, up.ever, newHead);
    }
    assert Mains(up'.service.queue) == Range(newHead.number + 1, 0) by { EmptyQueue(newHead.number + 1); }
    assert Step(s, RecoveryProbes) == s.(phase := up', writes := Publish(CurrentSegment(after).value));
  }

  lemma EmptyQueue(from: nat)
    ensures Mains([]) == Range(from, 0)
  {
  }

  // ------------------------------------------------------------------ start

  lemma FreshBuilderOk(t: Tree, o: Options, segments: map<nat, Segment>, block: BlockInfo, up: Phase)
    requires InTree(t, block) && block.number == o.startingBlock && o.segmentSize >= 1 && up.Up?
    requires up.service.builder == Grow(Empty, block).value && up.count == 0
    requires up.chain == OfBuilder(up.service.builder) && up.ever == {block.ToCursor()}
    ensures BuilderOk(t, o, segments, up)
  {
    hide Linked, Remembers;
    FirstBlockRemembers(t, block);
    assert Edge(o.startingBlock, o.segmentSize, 0) == o.startingBlock;
  }

  lemma FreshStartOk(s: System, finalized: Cursor, head: Cursor)
    requires IsEnabled(s, Starts(finalized, head)) && s.published == [] && SystemInv(s)
    ensures Keeps(s, Starts(finalized, head))
  {
    hide AllWf, PublicationOk, Follows, TreeOf, Mains, Supported, ViewChain, Linked, Remembers, CurrentSegment,
         Canonical, Wf, TaskOk, Edge, BuilderOk, InTree;
    var block := GetBlockByNumber(s.remote, s.options.startingBlock).value;
    AnswerInTree(s.remote, s.options.startingBlock);
    var s' := Start(s, finalized, head);
    FreshBuilderOk(TreeOf(s.remote), s.options, s.store.segments, block, s'.phase);
    EmptyQueue(block.number + 1);
  }

  /** The chain read back is the published one without the entries past its last block. */
  lemma RestoredBuilderOk(t: Tree, o: Options, segments: map<nat, Segment>, p: Publication, up: Phase)
    requires PublicationOk(t, o, segments, p) && up.Up?
    requires up.service.builder == Restore(p.snapshot) && up.count == p.count
    requires up.chain == Trimmed(p.chain) && up.ever == Survivors(p.known, p.snapshot.info.last.number)
    ensures BuilderOk(t, o, segments, up) && up.service.builder.info.last == p.snapshot.info.last
  {
    hide Supported, ViewChain, Linked, Remembers, Trimmed, Survivors, Restore;
    var recent := OfSegment(p.snapshot);
    RestoreOnLedger(p.snapshot);
    SupportTrims(segments, o.startingBlock, o.segmentSize, p.count, recent);
    SupportHead(segments, o.startingBlock, o.segmentSize, p.count, recent);
    TrimRemembers(t, p.chain, p.known);
    RestoreHead(p.snapshot);
  }

  lemma RestoreHead(s: Segment)
    requires WfSegment(s)
    ensures Restore(s).info.last == s.info.last && OfSegment(s).hashes != [] && HeadOf(OfSegment(s)) == s.info.last
  {
  }

  /** Nothing is forgotten without being counted as dropped. */
  lemma FollowsTrimmed(r: Remote, dropped: set<Cursor>, p: Publication, count: nat, chain: Ledger, known: set<Cursor>,
                       last: nat)
    requires Follows(r, dropped, p, count, chain, known)
    ensures Follows(r, dropped + (known - Survivors(known, last)), p, count, Trimmed(chain), Survivors(known, last))
    ensures Follows(r, dropped + (known - Survivors(known, last)), p, count, chain, known)
  {
    forall c | IsCanonical(p.chain, c) && OnChain(r, c)
      ensures IsCanonical(Trimmed(chain), c)
    {
      assert IsCanonical(chain, c);
    }
  }

  lemma FollowsMoreDropped(r: Remote, dropped: set<Cursor>, dropped': set<Cursor>, p: Publication, count: nat,
                           chain: Ledger, known: set<Cursor>)
    requires Follows(r, dropped, p, count, chain, known) && dropped <= dropped'
    ensures Follows(r, dropped', p, count, chain, known)
  {
  }

  /** The publications, once more cursors are counted as dropped. */
  lemma RestartOrder(s: System)
    requires s.published != [] && PublishedInOrder(s)
    ensures var before := Last(s.published);
            var survivors := Survivors(before.known, before.snapshot.info.last.number);
            var dropped := s.dropped + (before.known - survivors);
            && (forall i, j :: 0 <= i <= j < |s.published| ==>
                  Follows(s.remote, dropped, s.published[i], s.published[j].count, s.published[j].chain,
                          s.published[j].known))
            && (forall i :: 0 <= i < |s.published| ==>
                  Follows(s.remote, dropped, s.published[i], before.count, Trimmed(before.chain), survivors))
  {
    hide Follows, Trimmed, Survivors;
    var before, last := Last(s.published), Last(s.published).snapshot.info.last.number;
    var dropped := s.dropped + (before.known - Survivors(before.known, last));
    forall i, j | 0 <= i <= j < |s.published|
      ensures Follows(s.remote, dropped, s.published[i], s.published[j].count, s.published[j].chain,
                      s.published[j].known)
    {
      FollowsMoreDropped(s.remote, s.dropped, dropped, s.published[i], s.published[j].count, s.published[j].chain,
                         s.published[j].known);
    }
    forall i | 0 <= i < |s.published|
      ensures Follows(s.remote, dropped, s.published[i], before.count, Trimmed(before.chain),
                      Survivors(before.known, last))
    {
      FollowsTrimmed(s.remote, s.dropped, s.published[i], before.count, before.chain, before.known, last);
    }
  }

  lemma RestartOk(s: System, finalized: Cursor, head: Cursor)
    requires IsEnabled(s, Starts(finalized, head)) && s.published != [] && SystemInv(s)
    ensures Keeps(s, Starts(finalized, head))
  {
    hide AllWf, PublicationOk, Follows, TreeOf, Mains, Supported, ViewChain, Linked, Remembers, CurrentSegment,
         Canonical, Wf, TaskOk, Edge, BuilderOk, Trimmed, Survivors, Restore, GetBlockByNumber, RemoteInv;
    var s', before := Start(s, finalized, head), Last(s.published);
    RestartOrder(s);
    RestoredBuilderOk(TreeOf(s.remote), s.options, s.store.segments, before, s'.phase);
    EmptyQueue(before.snapshot.info.last.number + 1);
  }
}
