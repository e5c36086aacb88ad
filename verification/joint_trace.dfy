/**
 * Building runs of the whole deployment step by step: what each phase of ingestion, recovery and compaction leads to.
 */
module JointTrace {
  import opened Core
  import opened Chain
  import opened Ledgers
  import opened ChainHistory
  import opened RemoteChain
  import opened ChainView
  import opened Ingestion
  import opened IngestionSystem
  import opened IngestionInvariant
  import opened IngestionRecovery
  import opened IngestionSafety
  import opened Watermarks
  import opened Compaction
  import opened CompactionSafety
  import opened ClientStream

  datatype Trace = Trace(states: seq<Deployment>, clients: seq<Option<Client>>, actions: seq<ClientAction>)

  ghost predicate IsTrace(t: Trace) {
    IsClientRun(t.states, t.clients, t.actions)
  }

  ghost function Now(t: Trace): Deployment
    requires IsTrace(t)
  {
    t.states[|t.actions|]
  }

  ghost function Who(t: Trace): Option<Client>
    requires IsTrace(t)
  {
    t.clients[|t.actions|]
  }

  /** A longer trace. */
  ghost predicate Continues(t: Trace, t': Trace) {
    t.states <= t'.states && t.clients <= t'.clients && t.actions <= t'.actions
  }

  lemma Extend(t: Trace, a: ClientAction, d: Deployment, c: Option<Client>) returns (t': Trace)
    requires IsTrace(t) && ClientLeads(Now(t), Who(t), a, d, c)
    ensures IsTrace(t') && Now(t') == d && Who(t') == c && Continues(t, t') && t'.actions == t.actions + [a]
  {
    hide ClientLeads, Compaction.Initially;
    t' := Trace(t.states + [d], t.clients + [c], t.actions + [a]);
    forall i | 0 <= i < |t'.actions|
      ensures ClientLeads(t'.states[i], t'.clients[i], t'.actions[i], t'.states[i + 1], t'.clients[i + 1])
    {
      if i < |t.actions| {
        assert ClientLeads(t.states[i], t.clients[i], t.actions[i], t.states[i + 1], t.clients[i + 1]);
      }
    }
  }

  lemma NowInv(t: Trace)
    requires IsTrace(t)
    ensures Inv(Now(t))
  {
    DeploymentInv(t.states, t.clients, t.actions, |t.actions|);
  }

  /** One action of the deployment. */
  lemma Act(t: Trace, a: Compaction.Action) returns (t': Trace)
    requires IsTrace(t) && Compaction.Enabled(Now(t), a)
    ensures IsTrace(t') && Continues(t, t') && Who(t') == Who(t) && t'.actions == t.actions + [Acts(a)]
    ensures Compaction.Ready(Now(t), a) && Now(t') == Compaction.Step(Now(t), a)
  {
    hide IsTrace, Now, Who, Inv, Compaction.Enabled, Compaction.Ready, Compaction.Step, Compaction.Keeps,
         ClientEnabled, ClientStep;
    NowInv(t);
    Compaction.StepKeepsInv(Now(t), a);
    t' := Extend(t, Acts(a), Compaction.Step(Now(t), a), Who(t));
  }

  /** One action of the ingester or the remote chain; compaction's own state stays. */
  lemma ActSystem(t: Trace, a: IngestionSystem.Action) returns (t': Trace)
    requires IsTrace(t) && IsEnabled(Now(t).system, a) && Honest(Now(t).system.remote, a)
    ensures IsTrace(t') && Continues(t, t') && Who(t') == Who(t)
    ensures IngestionSystem.Ready(Now(t).system) && Now(t') == Acted(Now(t), a)
  {
    hide IsTrace, Now, Who, Acted, IsEnabled, IngestionSystem.Ready;
    t' := Act(t, SystemActs(a));
  }

  lemma ActClient(t: Trace, a: ClientAction) returns (t': Trace)
    requires IsTrace(t) && !a.Acts? && (Who(t).Some? || a.Joins?) && ClientEnabled(Now(t), ClientOr(Who(t)), a)
    ensures IsTrace(t') && Continues(t, t') && Now(t') == Now(t) && t'.actions == t.actions + [a]
    ensures Who(t') == Some(ClientStep(Now(t), ClientOr(Who(t)), a))
  {
    hide IsTrace, Now, Who, ClientEnabled, ClientStep;
    t' := Extend(t, a, Now(t), Some(ClientStep(Now(t), ClientOr(Who(t)), a)));
  }

  // ------------------------------------------------------------------ ingesting one block

  /** Nothing is queued or awaited. */
  ghost predicate Idle(s: System) {
    && s.phase.Up? && s.writes == [] && s.phase.state.Ingest? && s.phase.service.queue == [] && s.phase.probing.None?
    && s.phase.state.queued == s.phase.state.lastIngested.number && s.options.maxTasks >= 1
  }

  /** The block extends the service's chain, which is not full yet, and the remote has it. */
  ghost predicate CanIngest(s: System, b: BlockInfo) {
    && Idle(s) && RemoteInv(s.remote) && GetBlockByNumber(s.remote, b.number) == Some(b)
    && b.number >= 1 && s.phase.service.builder.Building?
    && s.phase.service.builder.info.last == Cursor(b.number - 1, b.parent)
    && s.phase.state.lastIngested == s.phase.service.builder.info.last && s.phase.state.head != b.ToCursor()
    && |s.phase.service.builder.canonical| + 1 < s.options.segmentSize + s.options.uploadOffset
  }

  function WithQueue(s: System, queue: seq<Task>): System
    requires s.phase.Up?
  {
    s.(phase := s.phase.(service := s.phase.service.(queue := queue)))
  }

  function WithHead(s: System, head: Cursor, queued: nat): System
    requires s.phase.Up? && s.phase.state.Ingest?
  {
    s.(phase := s.phase.(state := s.phase.state.(head := head, queued := queued)))
  }

  lemma HeadTickQueues(s: System, b: BlockInfo)
    requires CanIngest(s, b) && IngestionSystem.Ready(s)
    ensures IsEnabled(s, HeadTick(b.ToCursor()))
    ensures IngestionSystem.Step(s, HeadTick(b.ToCursor())) ==
            WithHead(WithQueue(s, [MainTask(b.number, None)]), b.ToCursor(), b.number)
  {
    hide RemoteInv, IngestionSystem.Ready, GetBlockByNumber;
    assert PushTo(s.options, [], b.number - 1, b.number) == [MainTask(b.number, None)];
  }

  lemma FetchAnswers(s: System, b: BlockInfo)
    requires s.phase.Up? && s.phase.service.queue == [MainTask(b.number, None)] && IngestionSystem.Ready(s)
    requires GetBlockByNumber(s.remote, b.number) == Some(b)
    ensures IsEnabled(s, TaskEnds(0, false, false, None))
    ensures IngestionSystem.Step(s, TaskEnds(0, false, false, None)) ==
            WithQueue(s, [MainTask(b.number, Some(Fetched(b)))])
    ensures StoredBy(s, TaskEnds(0, false, false, None)) == {b.ToCursor()}
  {
    hide RemoteInv, Wf, IsZero, GetBlockByNumber;
    assert [MainTask(b.number, None)][0 := MainTask(b.number, Some(Fetched(b)))] ==
           [MainTask(b.number, Some(Fetched(b)))];
  }

  /** The service after it has taken the block in. */
  ghost function Grew(s: System, b: BlockInfo): System
    requires s.phase.Up? && s.phase.state.Ingest? && CanGrow(s.phase.service.builder, b)
  {
    var up := s.phase;
    var grown := Grow(up.service.builder, b).value;
    s.(phase := Up(Service(grown, []),
                   Ingest(up.state.finalized, b.ToCursor(), b.ToCursor(), b.number, DEFAULT_PENDING), None, up.count,
                   Grown(up.chain, b.hash), up.ever + {b.ToCursor()}))
  }

  ghost function WritesFor(s: System, b: BlockInfo): seq<Write>
    requires s.phase.Up? && s.phase.state.Ingest? && CanGrow(s.phase.service.builder, b)
  {
    if b.number >= s.phase.state.finalized.number then
      Publish(CurrentSegment(Grow(s.phase.service.builder, b).value).value) else []
  }

  lemma TaskTickGrows(s: System, b: BlockInfo)
    requires CanIngest(s, b) && IngestionSystem.Ready(s)
    ensures var ready := WithHead(WithQueue(s, [MainTask(b.number, Some(Fetched(b)))]), b.ToCursor(), b.number);
            IngestionSystem.Ready(ready) ==>
              && IsEnabled(ready, TaskTick) && CanGrow(s.phase.service.builder, b)
              && IngestionSystem.Step(ready, TaskTick) == Grew(s, b).(writes := WritesFor(s, b))
  {
    hide RemoteInv, CurrentSegment, GetBlockByNumber;
    var ready := WithHead(WithQueue(s, [MainTask(b.number, Some(Fetched(b)))]), b.ToCursor(), b.number);
    assert ready.phase.service.queue[1..] == [];
    assert PushTo(s.options, [], b.number, b.number) == [];
  }

  /** The awaited snapshot and the key that names it have landed. */
  ghost function Published(s: System, segment: Segment): System
    requires s.phase.Up?
  {
    s.(writes := [],
       store := s.store.(snapshots := s.store.snapshots + [segment], pointer := Some(|s.store.snapshots|)),
       published := s.published + [Publication(segment, s.phase.count, s.phase.chain, s.phase.ever)])
  }

  lemma LandsTwice(s: System, segment: Segment)
    requires s.phase.Up? && s.writes == Publish(segment) && IngestionSystem.Ready(s)
    ensures IsEnabled(s, WriteLands)
    ensures var once := IngestionSystem.Step(s, WriteLands);
            && IsEnabled(once, WriteLands)
            && (IngestionSystem.Ready(once) ==> IngestionSystem.Step(once, WriteLands) == Published(s, segment))
  {
    hide RemoteInv, Wf, IsZero;
  }

  /** Only the ingester's part changed, and the block has its object. */
  ghost predicate OnlyIngested(d: Deployment, d': Deployment, s': System, stored: set<Cursor>) {
    d' == d.(system := s', blocks := d.blocks + stored)
  }

  lemma ReportedSame(d: Deployment, a: IngestionSystem.Action)
    requires IngestionSystem.Ready(d.system) && IsEnabled(d.system, a) && Inv(d)
    requires IngestionSystem.Step(d.system, a).store.finalized == d.system.store.finalized
    ensures OnlyIngested(d, Acted(d, a), IngestionSystem.Step(d.system, a), StoredBy(d.system, a))
  {
    hide IngestionSystem.Ready, IsEnabled, IngestionSystem.Step, StoredBy, SystemInv, AllKept, JobOk, SegmentedAt,
         GroupedAt;
    var after := Acted(d, a);
    assert after.reported == d.reported;
  }

  /** An action of the ingester that leaves the finalized key alone. */
  lemma ActQuietly(t: Trace, a: IngestionSystem.Action) returns (t': Trace)
    requires IsTrace(t) && IsEnabled(Now(t).system, a) && Honest(Now(t).system.remote, a)
    requires IngestionSystem.Ready(Now(t).system) ==>
               IngestionSystem.Step(Now(t).system, a).store.finalized == Now(t).system.store.finalized
    ensures IsTrace(t') && Continues(t, t') && Who(t') == Who(t) && IngestionSystem.Ready(Now(t).system)
            && IngestionSystem.Ready(Now(t').system)
    ensures OnlyIngested(Now(t), Now(t'), IngestionSystem.Step(Now(t).system, a), StoredBy(Now(t).system, a))
  {
    hide IsTrace, Now, Who, Acted, IsEnabled, IngestionSystem.Ready, IngestionSystem.Step, StoredBy, OnlyIngested, Inv;
    NowInv(t);
    NowReady(t);
    t' := ActSystem(t, a);
    ReportedSame(Now(t), a);
    NowReady(t');
  }

  lemma NowReady(t: Trace)
    requires IsTrace(t)
    ensures IngestionSystem.Ready(Now(t).system) && SystemInv(Now(t).system)
  {
    hide Inv, SystemInv, IngestionSystem.Ready, IsTrace;
    NowInv(t);
    SystemOf(Now(t));
    ReadyAlways(Now(t).system);
  }

  lemma LandAll(t: Trace, segment: Segment) returns (t': Trace)
    requires IsTrace(t) && Now(t).system.phase.Up? && Now(t).system.writes == Publish(segment)
    ensures IsTrace(t') && Continues(t, t') && Who(t') == Who(t)
    ensures Now(t') == Now(t).(system := Published(Now(t).system, segment))
  {
    hide IsTrace, Now, Who, IngestionSystem.Ready, IsEnabled, IngestionSystem.Step;
    NowReady(t);
    LandsTwice(Now(t).system, segment);
    LandKeepsFinalized(Now(t).system);
    var t1 := ActQuietly(t, WriteLands);
    LandKeepsFinalized(Now(t1).system);
    t' := ActQuietly(t1, WriteLands);
    LandStores(Now(t).system);
    LandStores(Now(t1).system);
    assert Now(t).blocks + {} + {} == Now(t).blocks;
  }

  lemma LandKeepsFinalized(s: System)
    requires IngestionSystem.Ready(s) && IsEnabled(s, WriteLands)
    ensures IngestionSystem.Step(s, WriteLands).store.finalized == s.store.finalized
  {
  }

  lemma LandStores(s: System)
    requires IngestionSystem.Ready(s) && IsEnabled(s, WriteLands)
    ensures StoredBy(s, WriteLands) == {}
  {
  }

  /** The ingester after a block has been fetched, taken in and, if it is recent, published. */
  ghost function AfterIngest(s: System, b: BlockInfo): System
    requires s.phase.Up? && s.phase.state.Ingest? && CanGrow(s.phase.service.builder, b)
  {
    var grew := Grew(s, b);
    if b.number >= s.phase.state.finalized.number then
      Published(grew, CurrentSegment(Grow(s.phase.service.builder, b).value).value) else grew
  }

  /** The block is the one task, and fetched. */
  function Fetches(s: System, b: BlockInfo): System
    requires s.phase.Up? && s.phase.state.Ingest?
  {
    WithHead(WithQueue(s, [MainTask(b.number, Some(Fetched(b)))]), b.ToCursor(), b.number)
  }

  lemma FetchOne(t: Trace, b: BlockInfo) returns (t': Trace)
    requires IsTrace(t) && CanIngest(Now(t).system, b)
    ensures IsTrace(t') && Continues(t, t') && Who(t') == Who(t)
    ensures OnlyIngested(Now(t), Now(t'), Fetches(Now(t).system, b), {b.ToCursor()})
  {
    hide IsTrace, Now, Who, IngestionSystem.Ready, IsEnabled, IngestionSystem.Step, StoredBy, RemoteInv,
         GetBlockByNumber;
    var s := Now(t).system;
    NowReady(t);
    HeadTickQueues(s, b);
    QuietStores(s, HeadTick(b.ToCursor()));
    var t1 := ActQuietly(t, HeadTick(b.ToCursor()));
    FetchAnswers(Now(t1).system, b);
    t' := ActQuietly(t1, TaskEnds(0, false, false, None));
    assert Now(t).blocks + {} + {b.ToCursor()} == Now(t).blocks + {b.ToCursor()};
  }

  lemma GrewKeeps(s: System, b: BlockInfo)
    requires s.phase.Up? && s.phase.state.Ingest? && CanGrow(s.phase.service.builder, b)
    ensures Grow(s.phase.service.builder, b).Ok? && CurrentSegment(Grow(s.phase.service.builder, b).value).Ok?
    ensures Grew(s, b).store == s.store && Grew(s, b).phase.Up?
            && Grew(s, b).(writes := []) == Grew(s.(writes := []), b)
  {
  }

  lemma TickIn(t: Trace, s: System, b: BlockInfo) returns (t': Trace)
    requires IsTrace(t) && CanIngest(s, b) && IngestionSystem.Ready(s) && Now(t).system == Fetches(s, b)
    ensures IsTrace(t') && Continues(t, t') && Who(t') == Who(t)
    ensures CanGrow(s.phase.service.builder, b)
            && OnlyIngested(Now(t), Now(t'), Grew(s, b).(writes := WritesFor(s, b)), {})
  {
    hide IsTrace, Now, Who, IngestionSystem.Ready, IsEnabled, IngestionSystem.Step, StoredBy, WritesFor, CanGrow, Grew,
         CanIngest;
    NowReady(t);
    assert s.phase.Up? && s.phase.state.Ingest? by { IngestsWhenIdle(s, b); }
    TaskTickGrows(s, b);
    GrewKeeps(s, b);
    QuietStores(Now(t).system, TaskTick);
    t' := ActQuietly(t, TaskTick);
  }

  lemma IngestsWhenIdle(s: System, b: BlockInfo)
    requires CanIngest(s, b)
    ensures s.phase.Up? && s.phase.state.Ingest? && s.writes == []
  {
  }

  lemma TakeIn(t: Trace, s: System, b: BlockInfo) returns (t': Trace)
    requires IsTrace(t) && CanIngest(s, b) && IngestionSystem.Ready(s) && Now(t).system == Fetches(s, b)
    ensures IsTrace(t') && Continues(t, t') && Who(t') == Who(t)
    ensures CanGrow(s.phase.service.builder, b) && OnlyIngested(Now(t), Now(t'), AfterIngest(s, b), {})
  {
    hide IsTrace, Now, Who, IngestionSystem.Ready, CurrentSegment, Grow, CanGrow, Grew, CanIngest, Fetches;
    IngestsWhenIdle(s, b);
    var t1 := TickIn(t, s, b);
    GrewKeeps(s, b);
    assert Now(t).blocks + {} == Now(t).blocks;
    if b.number >= s.phase.state.finalized.number {
      t' := LandAll(t1, CurrentSegment(Grow(s.phase.service.builder, b).value).value);
    } else {
      t' := t1;
      assert s.(writes := []) == s;
    }
  }

  lemma IngestOne(t: Trace, b: BlockInfo) returns (t': Trace)
    requires IsTrace(t) && CanIngest(Now(t).system, b)
    ensures IsTrace(t') && Continues(t, t') && Who(t') == Who(t)
    ensures CanGrow(Now(t).system.phase.service.builder, b)
    ensures OnlyIngested(Now(t), Now(t'), AfterIngest(Now(t).system, b), {b.ToCursor()})
  {
    hide IsTrace, Now, Who, IngestionSystem.Ready, AfterIngest, CanIngest, CanGrow;
    NowReady(t);
    var t1 := FetchOne(t, b);
    t' := TakeIn(t1, Now(t).system, b);
    assert Now(t).blocks + {b.ToCursor()} + {} == Now(t).blocks + {b.ToCursor()};
  }

  lemma QuietStores(s: System, a: IngestionSystem.Action)
    requires IngestionSystem.Ready(s) && IsEnabled(s, a) && !a.TaskEnds? && !a.Starts?
    ensures StoredBy(s, a) == {}
  {
  }

  // ------------------------------------------------------------------ recovery

  /** The service looks for the highest block it shares with the remote, at `candidate` now. */
  ghost function Probing(s: System, candidate: Cursor): System
    requires s.phase.Up? && s.phase.state.Ingest?
  {
    s.(phase := s.phase.(state :=
                         Recover(s.phase.state.finalized, s.phase.state.head, s.phase.state.lastIngested),
                           probing := Some(candidate)))
  }

  /** A reported head that is not above the service's chain and not the one it knows. */
  predicate TurnsBack(s: System, head: Cursor) {
    && s.phase.Up? && s.phase.state.Ingest? && head != s.phase.state.head
    && head.number <= s.phase.state.lastIngested.number && head.number <= s.phase.state.head.number
  }

  lemma HeadTickRecovers(s: System, head: Cursor)
    requires Idle(s) && TurnsBack(s, head) && IngestionSystem.Ready(s)
    ensures IsEnabled(s, HeadTick(head))
    ensures IngestionSystem.Step(s, HeadTick(head)) ==
            s.(phase := s.phase.(state :=
                                 Recover(s.phase.state.finalized, s.phase.state.head, s.phase.state.lastIngested)))
  {
    hide IngestionSystem.Ready;
  }

  lemma RecoveryStarts(s: System)
    requires s.phase.Up? && s.writes == [] && s.phase.state.Recover? && s.phase.probing.None?
             && IngestionSystem.Ready(s) && SystemInv(s)
    ensures IsEnabled(s, RecoveryBegins)
    ensures IngestionSystem.Step(s, RecoveryBegins) ==
            s.(phase := s.phase.(probing := Some(s.phase.state.lastIngested)))
  {
    hide SystemInv, IngestionSystem.Ready;
    NoMismatch(s);
  }

  lemma BeginRecovery(t: Trace, head: Cursor) returns (t': Trace)
    requires IsTrace(t) && Idle(Now(t).system) && TurnsBack(Now(t).system, head)
    ensures IsTrace(t') && Continues(t, t') && Who(t') == Who(t)
    ensures Now(t') == Now(t).(system := Probing(Now(t).system, Now(t).system.phase.state.lastIngested))
  {
    hide IsTrace, Now, Who, IngestionSystem.Ready, IsEnabled, IngestionSystem.Step, StoredBy, SystemInv;
    NowReady(t);
    HeadTickRecovers(Now(t).system, head);
    QuietStores(Now(t).system, HeadTick(head));
    var t1 := ActQuietly(t, HeadTick(head));
    NowReady(t1);
    RecoveryStarts(Now(t1).system);
    QuietStores(Now(t1).system, RecoveryBegins);
    t' := ActQuietly(t1, RecoveryBegins);
    assert Now(t).blocks + {} + {} == Now(t).blocks;
  }

  /** The cursor of the service's chain at a height. */
  ghost function At(s: System, n: nat): Cursor
    requires s.phase.Up? && s.phase.chain.first == 0 && n < |s.phase.chain.hashes|
  {
    Cursor(n, s.phase.chain.hashes[n])
  }

  /** The whole chain is in the builder: nothing has been split off. */
  ghost predicate Unsplit(s: System) {
    && s.phase.Up? && s.phase.chain.first == 0 && s.phase.service.builder.Building? && Wf(s.phase.service.builder)
    && s.phase.service.builder.info.first.number == 0 && s.phase.service.builder.canonical == s.phase.chain.hashes
  }

  lemma ProbeGoesDown(s: System, n: nat)
    requires Unsplit(s) && s.phase.state.Ingest? && 0 < n < |s.phase.chain.hashes| && s.writes == []
             && RemoteInv(s.remote)
    requires !OnChain(s.remote, At(s, n))
    ensures IngestionSystem.Ready(Probing(s, At(s, n))) ==>
              && IsEnabled(Probing(s, At(s, n)), RecoveryProbes)
              && IngestionSystem.Step(Probing(s, At(s, n)), RecoveryProbes) == Probing(s, At(s, n - 1))
  {
    hide RemoteInv;
    CurrentReads(s.phase.service.builder, n - 1);
  }

  lemma ProbeOnce(t: Trace, s: System, n: nat) returns (t': Trace)
    requires IsTrace(t) && Unsplit(s) && s.phase.state.Ingest? && 0 < n < |s.phase.chain.hashes| && s.writes == []
             && RemoteInv(s.remote)
    requires Now(t).system == Probing(s, At(s, n)) && !OnChain(s.remote, At(s, n))
    ensures IsTrace(t') && Continues(t, t') && Who(t') == Who(t)
    ensures Now(t') == Now(t).(system := Probing(s, At(s, n - 1)))
  {
    hide IsTrace, Now, Who, IngestionSystem.Ready, IsEnabled, IngestionSystem.Step, StoredBy, RemoteInv, OnChain;
    NowReady(t);
    ProbeGoesDown(s, n);
    QuietStores(Now(t).system, RecoveryProbes);
    t' := ActQuietly(t, RecoveryProbes);
    assert Now(t).blocks + {} == Now(t).blocks;
  }

  /** Blocks that are not on the remote chain are passed over one by one. */
  lemma {:induction false} ProbeDown(t: Trace, s: System, n: nat) returns (t': Trace)
    requires IsTrace(t) && Unsplit(s) && s.phase.state.Ingest? && n < |s.phase.chain.hashes| && s.writes == []
             && RemoteInv(s.remote)
    requires Now(t).system == Probing(s, At(s, n)) && forall i :: 0 < i <= n ==> !OnChain(s.remote, At(s, i))
    ensures IsTrace(t') && Continues(t, t') && Who(t') == Who(t)
    ensures Now(t') == Now(t).(system := Probing(s, At(s, 0)))
    decreases n
  {
    hide IsTrace, Now, Who, RemoteInv, OnChain, Unsplit, Probing;
    UnsplitShape(s);
    if n == 0 {
      t' := t;
    } else {
      var t1 := ProbeOnce(t, s, n);
      t' := ProbeDown(t1, s, n - 1);
    }
  }

  lemma UnsplitShape(s: System)
    requires Unsplit(s)
    ensures s.phase.Up? && s.phase.chain.first == 0
  {
  }

  /** The service after recovery to block 0. */
  ghost function CutToZero(s: System): System
    requires Unsplit(s) && s.phase.state.Ingest? && s.phase.chain.hashes != []
  {
    var up, zero := s.phase, At(s, 0);
    s.(phase := Up(Service(Shrink(up.service.builder, zero).value.builder, []),
                   Ingest(up.state.finalized, up.state.head, zero, 0, DEFAULT_PENDING), None, up.count,
                     Cut(up.chain, zero), up.ever))
  }

  lemma ProbeAgrees(s: System)
    requires Unsplit(s) && s.phase.state.Ingest? && s.phase.chain.hashes != [] && s.writes == [] && RemoteInv(s.remote)
             && OnChain(s.remote, At(s, 0))
    ensures var probing := Probing(s, At(s, 0));
            IngestionSystem.Ready(probing) ==>
              && IsEnabled(probing, RecoveryProbes)
              && IngestionSystem.Step(probing, RecoveryProbes) ==
                 CutToZero(s).(writes := Publish(CurrentSegment(CutToZero(s).phase.service.builder).value))
  {
    hide RemoteInv, CurrentSegment;
    CurrentReads(s.phase.service.builder, 0);
  }

  lemma RecoverToZero(t: Trace, head: Cursor) returns (t': Trace)
    requires IsTrace(t) && Idle(Now(t).system) && TurnsBack(Now(t).system, head) && Unsplit(Now(t).system)
             && Now(t).system.phase.chain.hashes != []
    requires Now(t).system.phase.state.lastIngested == At(Now(t).system, |Now(t).system.phase.chain.hashes| - 1)
    requires OnChain(Now(t).system.remote, At(Now(t).system, 0))
    requires forall i :: 0 < i < |Now(t).system.phase.chain.hashes| ==>
               !OnChain(Now(t).system.remote, At(Now(t).system, i))
    ensures IsTrace(t') && Continues(t, t') && Who(t') == Who(t)
    ensures var cut := CutToZero(Now(t).system);
            Now(t') == Now(t).(system := Published(cut, CurrentSegment(cut.phase.service.builder).value))
  {
    hide IsTrace, Now, Who, IngestionSystem.Ready, IsEnabled, IngestionSystem.Step, StoredBy, RemoteInv, OnChain,
         CurrentSegment, SystemInv, Cut;
    var s := Now(t).system;
    NowReady(t);
    RemoteOk(s);
    ShrinkShape(s.phase.service.builder, At(s, 0));
    var t1 := BeginRecovery(t, head);
    var t2 := ProbeDown(t1, s, |s.phase.chain.hashes| - 1);
    NowReady(t2);
    ProbeAgrees(s);
    QuietStores(Now(t2).system, RecoveryProbes);
    var t3 := ActQuietly(t2, RecoveryProbes);
    assert Now(t).blocks + {} == Now(t).blocks;
    t' := LandAll(t3, CurrentSegment(CutToZero(s).phase.service.builder).value);
  }
}
