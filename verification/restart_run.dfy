/**
 * A run of the whole deployment in which a restart forgets a client: it holds a block that was removed, is led back
 * while the ingester is up, and is refused after a crash and a restart.
 */
module RestartRun {
  import opened Core
  import opened Chain
  import opened Ledgers
  import opened ChainHistory
  import opened RemoteChain
  import opened ChainView
  import opened Ingestion
  import opened IngestionSystem
  import opened IngestionInvariant
  import opened IngestionSafety
  import opened Watermarks
  import opened Compaction
  import opened CompactionSafety
  import opened ClientStream
  import opened JointTrace
  import opened StaleRun

  /** The client's block: the head of the chain that is going to be removed. */
  function Removed(f: Fork): Cursor
    requires ValidFork(f)
  {
    Cursor(4, f.stale[3])
  }

  // ------------------------------------------------------------------ a client joins at the head

  lemma HeadIsFound(f: Fork, s: System, view: nat)
    requires ValidFork(f) && view < |s.published| && Shows(s.published[view], [f.zero] + f.stale) && SystemInv(s)
    ensures Readable(ReaderView(s, view)) && s.options.startingBlock == 0 && IsFound(ReaderView(s, view), Removed(f))
  {
    hide SystemInv, ViewOk, ChainOf, Linked, Remembers, RemoteInv, TreeOf, Canonical, GetChainSegment, Siblings;
    RemoteOk(s);
    ReaderSeesOneChain(s, view);
    var v, p := ReaderView(s, view), s.published[view];
    ViewIsReadable(v, p.count);
    assert p.chain.hashes[4] == f.stale[3];
    CanonicalAtReads(v, p.count, 4);
  }

  /** The stale chain is published and the client holds its head. */
  ghost predicate HasJoined(f: Fork, t: Trace)
    requires ValidFork(f)
  {
    && IsTrace(t) && StalePublished(f, Now(t)) && Now(t).system.published != []
    && Who(t) == Some(Client(|Now(t).system.published| - 1, Some(Removed(f)), 4, [f.stale[3]]))
  }

  lemma RunToJoined(f: Fork) returns (t: Trace)
    requires ValidFork(f)
    ensures HasJoined(f, t)
  {
    hide IsTrace, Now, Who, SystemInv, IngestionSystem.Ready, Shape, Shows, RemoteInv, IsChain, Readable, IsFound;
    var t0 := RunToStale(f, SIZES);
    var s := Now(t0).system;
    ShapeIsUp(s, [f.zero] + f.stale);
    NowReady(t0);
    HeadIsFound(f, s, |s.published| - 1);
    t := ActClient(t0, Joins(|s.published| - 1, Some(Removed(f))));
  }

  // ------------------------------------------------------------------ the block is removed, and the client led back

  /** The ingester is back at block 0 on the live remote chain. */
  ghost predicate HasGoneBack(f: Fork, t: Trace)
    requires ValidFork(f)
  {
    && IsTrace(t) && Shape(Now(t).system, [f.zero]) && IsChain(Now(t).system.remote, [f.zero] + f.live)
    && Now(t).system.remote.finalized == 4 && Now(t).system.published != []
    && Shows(Last(Now(t).system.published), [f.zero]) && Removed(f) in Last(Now(t).system.published).known
    && Who(t).Some? && Who(t).value.current == Some(Removed(f))
    && Who(t).value.view < |Now(t).system.published|
  }

  lemma RunToGoneBack(f: Fork) returns (t: Trace)
    requires ValidFork(f)
    ensures HasGoneBack(f, t)
  {
    hide IsTrace, Now, Who, Shape, Shows, RemoteInv, IsChain;
    var t0 := RunToJoined(f);
    var t1 := TurnAway(t0, f);
    ShapeKeepsRemote(Now(t0).system, Now(t1).system.remote, [f.zero] + f.stale);
    KnowsRemoved(f, t1);
    t := GoBack(t1, f);
  }

  lemma KnowsRemoved(f: Fork, t: Trace)
    requires IsTrace(t) && ValidFork(f) && Shape(Now(t).system, [f.zero] + f.stale)
    ensures Now(t).system.phase.Up? && Removed(f) in Now(t).system.phase.ever
  {
    hide IsTrace, Now, SystemInv, IngestionSystem.Ready, Idle;
    NowReady(t);
    var s := Now(t).system;
    assert s.phase.chain.hashes[4] == f.stale[3];
    EverHoldsTheChain(s);
  }

  lemma EverHoldsTheChain(s: System)
    requires SystemInv(s) && s.phase.Up?
    ensures forall c :: IsCanonical(s.phase.chain, c) ==> c in s.phase.ever
  {
    hide PublicationOk, PublishedInOrder, AllWf, RemoteInv, TreeOf, Supported, ViewChain, Linked, StateOk, TaskOk;
    CanonicalIsKnown(TreeOf(s.remote), s.phase.chain, s.phase.ever);
  }

  /** The client of the removed block is told to go back to an ancestor. */
  ghost predicate IsLedBack(f: Fork, s: System, c: Client)
    requires ValidFork(f)
  {
    && c.view < |s.published| && Readable(ReaderView(s, c.view)) && RemoteInv(s.remote)
    && ClientStream.Answer(s, c).Ok? && ClientStream.Answer(s, c).value.Invalidate?
    && Ancestor(TreeOf(s.remote), ClientStream.Answer(s, c).value.target, Removed(f))
  }

  lemma LeadsBack(f: Fork, s: System, c: Client)
    requires ValidFork(f) && c.view < |s.published| && c.current == Some(Removed(f)) && s.options.startingBlock == 0
    requires Shows(s.published[c.view], [f.zero]) && Removed(f) in s.published[c.view].known && SystemInv(s)
    ensures IsLedBack(f, s, c)
  {
    hide SystemInv, ViewOk, ChainOf, Linked, Remembers, RemoteInv, TreeOf, GetNextCursor, Ancestor;
    RemoteOk(s);
    ReaderSeesOneChain(s, c.view);
    var v, p := ReaderView(s, c.view), s.published[c.view];
    ViewIsReadable(v, p.count);
    NextCursorIsSafe(TreeOf(s.remote), v, p.count, p.known, Removed(f));
  }

  // ------------------------------------------------------------------ a restart forgets it

  /** The ingester after a crash and a restart on what it had published last. */
  ghost function Restarted(f: Fork, s: System): System
    requires s.published != []
  {
    var zero, p := Cursor(0, f.zero), Last(s.published);
    var survivors := Survivors(p.known, 0);
    s.(store := s.store.(finalized := Some(0)), dropped := s.dropped + (p.known - survivors), writes := [],
       phase := Up(Service(Restore(p.snapshot), []), Ingest(zero, zero, zero, 0, DEFAULT_PENDING), None, p.count,
                   Trimmed(p.chain), survivors))
  }

  /** What is needed of the state that is restarted from. */
  ghost predicate CanRestart(f: Fork, s: System)
    requires ValidFork(f)
  {
    && s.published != [] && s.options == OPTIONS && s.phase.Up?
    && WfSegment(Last(s.published).snapshot) && Last(s.published).snapshot.info.last == Cursor(0, f.zero)
    && RemoteInv(s.remote) && IsChain(s.remote, [f.zero] + f.live) && s.remote.finalized == 4
    && s.store.pointer.Some? && s.store.pointer.value < |s.store.snapshots|
    && s.store.snapshots[s.store.pointer.value] == Last(s.published).snapshot
  }

  lemma RestartSteps(f: Fork, s: System)
    requires ValidFork(f) && CanRestart(f, s)
    ensures var start := Starts(Cursor(0, f.zero), Cursor(0, f.zero));
            && IsEnabled(s, Crashes) && Honest(s.remote, Crashes)
            && (IngestionSystem.Ready(s) ==>
                  var down := IngestionSystem.Step(s, Crashes);
                  && IsEnabled(down, start) && Honest(down.remote, start)
                  && (IngestionSystem.Ready(down) ==> IngestionSystem.Step(down, start) == Restarted(f, s)))
  {
    hide RemoteInv, WfSegment, Restore, Trimmed, Survivors;
    assert ([f.zero] + f.live)[0] == f.zero && s.remote.canonical[0] == f.zero;
  }

  lemma CanIngestLive(f: Fork, s: System)
    requires ValidFork(f) && CanRestart(f, s)
    ensures CanIngest(Restarted(f, s), BlockInfo(1, f.live[0], f.zero))
  {
    var live := [f.zero] + f.live;
    assert live[0] == f.zero && live[1] == f.live[0];
    assert s.remote.canonical[1] == f.live[0] && s.remote.canonical[0] == f.zero;
  }

  lemma ReadyToRestart(f: Fork, t: Trace)
    requires ValidFork(f) && HasGoneBack(f, t)
    ensures CanRestart(f, Now(t).system)
  {
    hide IsTrace, Now, Who, SystemInv, IngestionSystem.Ready, IsChain, RemoteInv, TreeOf, Linked, Remembers, ViewOk,
         ChainOf, Idle, Unsplit;
    NowReady(t);
    var s := Now(t).system;
    ShapeIsUp(s, [f.zero]);
    ShapeOptions(s, [f.zero]);
    RemoteOk(s);
    ReaderSeesOneChain(s, |s.published| - 1);
    assert HeadOf(s.published[|s.published| - 1].chain) == Cursor(0, f.zero);
    PointerNamesLast(s);
    SnapshotIsWf(s);
  }

  lemma SnapshotIsWf(s: System)
    requires SystemInv(s) && s.published != []
    ensures WfSegment(Last(s.published).snapshot)
  {
    hide UpOk, PublishedInOrder, AllWf, RemoteInv, TreeOf, Supported, ViewChain, Linked, Remembers, WfSegment;
    assert PublicationOk(TreeOf(s.remote), s.options, s.store.segments, s.published[|s.published| - 1]);
  }

  lemma Restart(t: Trace, f: Fork) returns (t': Trace)
    requires ValidFork(f) && IsTrace(t) && CanRestart(f, Now(t).system)
    ensures IsTrace(t') && Continues(t, t') && Who(t') == Who(t) && Now(t').system == Restarted(f, Now(t).system)
  {
    hide IsTrace, Now, Who, IngestionSystem.Ready, IngestionSystem.Step, IsEnabled, StoredBy, CanRestart, Restarted;
    assert Now(t).system.published != [] by { Publishes(f, Now(t).system); }
    RestartSteps(f, Now(t).system);
    var t1 := ActSystem(t, Crashes);
    NowReady(t1);
    t' := ActSystem(t1, Starts(Cursor(0, f.zero), Cursor(0, f.zero)));
  }

  lemma Publishes(f: Fork, s: System)
    requires ValidFork(f) && CanRestart(f, s)
    ensures s.published != []
  {
  }

  /** The next block is published, and what is known then leaves the removed block out. */
  ghost predicate HasForgotten(f: Fork, s: System, s': System)
    requires ValidFork(f)
  {
    && s'.options == s.options && |s'.published| == |s.published| + 1
    && Removed(f) !in s'.published[|s.published|].known
  }

  lemma ForgetsRemoved(f: Fork, s: System)
    requires ValidFork(f) && CanRestart(f, s)
    ensures var b, r := BlockInfo(1, f.live[0], f.zero), Restarted(f, s);
            CanGrow(r.phase.service.builder, b) ==> HasForgotten(f, s, AfterIngest(r, b))
  {
    hide RemoteInv, CurrentSegment, Restore, WfSegment, IsChain;
  }

  lemma IsRefused(f: Fork, s: System, c: Client)
    requires ValidFork(f) && c.view < |s.published| && c.current == Some(Removed(f)) && s.options.startingBlock == 0
    requires Removed(f) !in s.published[c.view].known && SystemInv(s)
    ensures Readable(ReaderView(s, c.view)) && ClientStream.Answer(s, c).Rejected?
  {
    hide SystemInv, ViewOk, ChainOf, Linked, Remembers, RemoteInv, TreeOf, GetNextCursor;
    RemoteOk(s);
    ReaderSeesOneChain(s, c.view);
    var v, p := ReaderView(s, c.view), s.published[c.view];
    ViewIsReadable(v, p.count);
    assert f.stale[3] in [f.zero] + f.stale + f.live by { assert ([f.zero] + f.stale + f.live)[4] == f.stale[3]; }
    UnknownIsRefused(TreeOf(s.remote), v, p.count, p.known, Removed(f));
  }

  /**
   * For every fork: before the restart the client of the removed block is led back to an ancestor, and after it the
   * same client is refused.
   */
  lemma AClientIsForgotten(f: Fork) returns (t: Trace, t': Trace)
    requires ValidFork(f)
    ensures IsTrace(t) && IsTrace(t') && Continues(t, t') && Who(t).Some? && Who(t').Some?
    ensures Who(t).value.current == Who(t').value.current == Some(Removed(f))
    ensures IsLedBack(f, Now(t).system, Who(t).value)
    ensures var s, c := Now(t').system, Who(t').value;
            c.view < |s.published| && Readable(ReaderView(s, c.view)) && ClientStream.Answer(s, c).Rejected?
  {
    hide IsTrace, Now, Who, SystemInv, IngestionSystem.Ready, Shape, Shows, IsChain, RemoteInv, CanRestart, Restarted,
         CanIngest, AfterIngest, CanGrow, Readable, ClientStream.Answer, IsLedBack;
    var t0 := RunToGoneBack(f);
    ShapeOptions(Now(t0).system, [f.zero]);
    ReadyToRestart(f, t0);
    var s, last := Now(t0).system, |Now(t0).system.published| - 1;
    t := SyncTo(t0, last);
    NowReady(t);
    LeadsBack(f, s, Who(t).value);
    var t1 := Restart(t, f);
    CanIngestLive(f, s);
    ForgetsRemoved(f, s);
    var t2 := IngestOne(t1, BlockInfo(1, f.live[0], f.zero));
    t' := SyncTo(t2, last + 1);
    NowReady(t');
    IsRefused(f, Now(t').system, Who(t').value);
    ContinuesOn(t, t1, t2);
    ContinuesOn(t, t2, t');
  }

  lemma ContinuesOn(t: Trace, u: Trace, v: Trace)
    requires Continues(t, u) && Continues(u, v)
    ensures Continues(t, v)
  {
  }
}
