/**
 * The ingester against a remote chain that moves at any time, with every crash point between its writes.
 *
 * One action is one remote move, one finished fetch, one store write, one crash or start, one tick or
 * one pass of the recovery loop (common/src/ingestion/service.rs, common/src/chain_store.rs).
 */
module IngestionSystem {
  import opened Core
  import opened Watermarks
  import opened Chain
  import opened Ledgers
  import opened ChainHistory
  import opened RemoteChain
  import opened ChainView
  import opened Ingestion

  /** Snapshots are created once and never changed, so a list stands for their unique keys. */
  datatype Store = Store(segments: map<nat, Segment>, snapshots: seq<Segment>, pointer: Option<nat>,
                         finalized: Option<nat>)

  /** A snapshot the etcd key named at some time: the chain readers saw through it and the cursors it can place. */
  datatype Publication = Publication(snapshot: Segment, count: nat, chain: Ledger, known: set<Cursor>)

  /**
   * `probing` is the candidate of a recovery under way. The last three fields are history: the segments
   * split off so far, the chain they form with the builder, and every cursor that was canonical in it.
   */
  datatype Phase =
    | Down
    | Up(service: Service, state: State, probing: Option<Cursor>, count: nat, chain: Ledger, ever: set<Cursor>)

  /** `dropped` collects the cursors whose reorg entries a restart did not read back. */
  datatype System = System(options: Options, remote: Remote, store: Store, phase: Phase, writes: seq<Write>,
                           published: seq<Publication>, dropped: set<Cursor>)

  datatype Action =
    | RemoteMoves(action: RemoteAction)
    | TaskEnds(i: nat, broken: bool, missing: bool, pending: Option<nat>)
    | WriteLands
    | Crashes
    | Starts(finalized: Cursor, head: Cursor)
    | HeadTick(head: Cursor)
    | FinalizedTick(finalized: Cursor)
    | PendingTick
    | TaskTick
    | RecoveryBegins
    | RecoveryProbes

  // ------------------------------------------------------------------ actions

  function Last<T>(s: seq<T>): T
    requires s != []
  {
    s[|s| - 1]
  }

  ghost predicate CanTick(s: System) {
    s.phase.Up? && s.writes == [] && s.phase.state.Ingest?
  }

  /** Reported heads and finalized blocks are any cursors: nothing is assumed of the provider. */
  ghost predicate IsEnabled(s: System, a: Action) {
    match a
    case RemoteMoves(action) => Enabled(s.remote, action)
    case TaskEnds(i, _, _, _) => s.phase.Up? && i < |s.phase.service.queue| && s.phase.service.queue[i].answer.None?
    case WriteLands => s.phase.Up? && s.writes != []
    case Crashes => s.phase.Up?
    case Starts(_, _) => s.phase.Down? && (s.published == [] ==> s.options.startingBlock in s.remote.canonical)
    case HeadTick(_) => CanTick(s)
    case FinalizedTick(_) => CanTick(s)
    case PendingTick => CanTick(s)
    case TaskTick => CanTick(s) && s.phase.service.queue != [] && s.phase.service.queue[0].answer.Some?
    case RecoveryBegins => s.phase.Up? && s.writes == [] && s.phase.state.Recover? && s.phase.probing.None?
    case RecoveryProbes => s.phase.Up? && s.writes == [] && s.phase.state.Recover? && s.phase.probing.Some?
  }

  /** A fetch is answered by the remote chain of that moment; any fetch, a pending one too, may find no block. */
  function AnswerOf(r: Remote, task: Task, broken: bool, missing: bool, pending: Option<nat>): Answer
    requires RemoteInv(r)
  {
    if broken then Broken
    else if missing then Missing
    else match task
      case MainTask(number, _) =>
        (match GetBlockByNumber(r, number)
         case None => Missing
         case Some(block) => Fetched(block))
      case PendingTask(_, _, _) =>
        match pending
        case None => NoPending
        case Some(generation) => PendingFetched(generation)
  }

  /** A tick that returns an error ends the service; otherwise its writes are awaited one by one. */
  ghost function After(s: System, outcome: Outcome, count: nat, chain: Ledger, ever: set<Cursor>): System {
    match outcome
    case Stopped => s.(phase := Down, writes := [])
    case Ticked(service, state, writes) =>
      s.(phase := Up(service, state, None, count, chain, ever), writes := writes)
  }

  ghost function Land(s: System): System
    requires s.phase.Up? && s.writes != [] && (s.writes[0].PointAtSnapshot? ==> s.store.snapshots != [])
  {
    var rest := s.(writes := s.writes[1..]);
    match s.writes[0]
    case PutSegment(segment) =>
      rest.(store := s.store.(segments := s.store.segments[segment.info.first.number := segment]))
    case PutSnapshot(segment) =>
      rest.(store := s.store.(snapshots := s.store.snapshots + [segment]))
    case PointAtSnapshot =>
      rest.(store := s.store.(pointer := Some(|s.store.snapshots| - 1)),
            published := s.published + [Publication(Last(s.store.snapshots), s.phase.count, s.phase.chain,
                                                    s.phase.ever)])
  }

  ghost function Start(s: System, finalized: Cursor, head: Cursor): System
    requires RemoteInv(s.remote) && s.phase.Down?
    requires s.published == [] ==> s.options.startingBlock in s.remote.canonical
    requires s.published != [] ==> s.store.pointer.Some? && s.store.pointer.value < |s.store.snapshots|
  {
    var known := s.(store := s.store.(finalized := Some(finalized.number)));
    if s.published == [] then
      var block := GetBlockByNumber(s.remote, s.options.startingBlock).value;
      var outcome := StartFresh(block, finalized, head);
      After(known, outcome, 0, OfBuilder(outcome.service.builder), {block.ToCursor()})
    else
      var snapshot, before := s.store.snapshots[s.store.pointer.value], Last(s.published);
      var survivors := Survivors(before.known, snapshot.info.last.number);
      After(known.(dropped := s.dropped + (before.known - survivors)),
            StartAgain(snapshot, GetBlockByNumber(s.remote, snapshot.info.last.number), finalized, head),
            before.count, Trimmed(before.chain), survivors)
  }

  ghost function TickTask(s: System): System
    requires CanTick(s) && s.phase.service.queue != [] && s.phase.service.queue[0].answer.Some?
    requires Wf(s.phase.service.builder) && s.options.segmentSize >= 1
    requires s.phase.service.builder.Building? && !IsZero(s.phase.service.builder.info.last.hash)
  {
    var up := s.phase;
    var service := up.service.(queue := up.service.queue[1..]);
    var answer := up.service.queue[0].answer.value;
    var outcome := TickWithTaskResult(s.options, service, up.state, answer);
    if answer.Fetched? && CanGrow(service.builder, answer.block) then
      var split := |service.builder.canonical| + 1 >= s.options.segmentSize + s.options.uploadOffset;
      After(s, outcome, if split then up.count + 1 else up.count, Grown(up.chain, answer.block.hash),
            up.ever + {answer.block.ToCursor()})
    else After(s, outcome, up.count, up.chain, up.ever)
  }

  ghost function ProbeRemote(s: System): System
    requires RemoteInv(s.remote) && s.phase.Up? && s.phase.state.Recover? && s.phase.probing.Some?
    requires Wf(s.phase.service.builder) && s.phase.service.builder.Building?
    requires IsCanonical(s.phase.chain, s.phase.probing.value)
  {
    var up, candidate := s.phase, s.phase.probing.value;
    match ProbeCandidate(CurrentSegment(up.service.builder).value, candidate,
                         GetBlockByNumber(s.remote, candidate.number))
    case GiveUp => s.(phase := Down, writes := [])
    case GoBelow(below) => s.(phase := up.(probing := Some(below)))
    case Agrees => After(s, FinishRecovery(up.service, up.state, candidate), up.count, Cut(up.chain, candidate),
                         up.ever)
  }

  /** What the code takes for granted at any moment; every reachable state has it (IngestionInvariant.ReadyAlways). */
  ghost predicate Ready(s: System) {
    && RemoteInv(s.remote) && s.options.segmentSize >= 1
    && (s.published != [] ==> s.store.pointer.Some? && s.store.pointer.value < |s.store.snapshots|)
    && (s.phase.Up? ==>
          && Wf(s.phase.service.builder) && s.phase.service.builder.Building?
          && !IsZero(s.phase.service.builder.info.last.hash)
          && (s.phase.probing.Some? ==> IsCanonical(s.phase.chain, s.phase.probing.value))
          && (s.writes != [] && s.writes[0].PointAtSnapshot? ==> s.store.snapshots != []))
  }

  ghost function Step(s: System, a: Action): System
    requires Ready(s) && IsEnabled(s, a)
  {
    match a
    case RemoteMoves(action) => s.(remote := Next(s.remote, action))
    case TaskEnds(i, broken, missing, pending) =>
      var task := s.phase.service.queue[i];
      var ended := task.(answer := Some(AnswerOf(s.remote, task, broken, missing, pending)));
      s.(phase := s.phase.(service := s.phase.service.(queue := s.phase.service.queue[i := ended])))
    case WriteLands => Land(s)
    case Crashes => s.(phase := Down, writes := [])
    case Starts(finalized, head) => Start(s, finalized, head)
    case HeadTick(head) =>
      After(s, TickRefreshHead(s.options, s.phase.service, s.phase.state, head), s.phase.count, s.phase.chain,
            s.phase.ever)
    case FinalizedTick(finalized) =>
      var next := After(s, TickRefreshFinalized(s.phase.service, s.phase.state, finalized), s.phase.count,
                        s.phase.chain, s.phase.ever);
      if next.phase.Up? then next.(store := s.store.(finalized := Some(finalized.number))) else next
    case PendingTick =>
      After(s, TickRefreshPending(s.phase.service, s.phase.state), s.phase.count, s.phase.chain, s.phase.ever)
    case TaskTick => TickTask(s)
    case RecoveryBegins =>
      if RecoverMismatch(CurrentSegment(s.phase.service.builder).value, s.phase.state.lastIngested) then
        s.(phase := Down, writes := [])
      else s.(phase := s.phase.(probing := Some(s.phase.state.lastIngested)))
    case RecoveryProbes => ProbeRemote(s)
  }

  // ------------------------------------------------------------------ the invariant

  /** The numbers of the main tasks, in queue order. */
  function Mains(queue: seq<Task>): seq<nat> {
    if queue == [] then []
    else (if queue[0].MainTask? then [queue[0].number] else []) + Mains(queue[1..])
  }

  function Range(from: nat, count: nat): (r: seq<nat>)
    ensures |r| == count
  {
    seq(count, i requires 0 <= i < count => from + i)
  }

  /** Each kind of task has its own answers; a fetched block is a block of the tree at the number asked for. */
  ghost predicate TaskOk(t: Tree, task: Task) {
    task.answer.Some? ==>
      match task.answer.value
      case Fetched(block) => task.MainTask? && block.number == task.number && InTree(t, block)
      case PendingFetched(_) => task.PendingTask?
      case NoPending => task.PendingTask?
      case _ => true
  }

  ghost predicate PublicationOk(t: Tree, o: Options, segments: map<nat, Segment>, p: Publication) {
    && WfSegment(p.snapshot)
    && Supported(segments, o.startingBlock, o.segmentSize, p.count, OfSegment(p.snapshot))
    && p.chain == ViewChain(segments, o.startingBlock, o.segmentSize, p.count, OfSegment(p.snapshot))
    && Linked(t, p.chain) && Remembers(t, p.chain, p.known)
  }

  /** Where the builder's segments will be once the awaited writes have landed. */
  function SegmentsAfter(segments: map<nat, Segment>, writes: seq<Write>): map<nat, Segment> {
    if writes != [] && writes[0].PutSegment? then segments[writes[0].segment.info.first.number := writes[0].segment]
    else segments
  }

  ghost predicate BuilderOk(t: Tree, o: Options, segments: map<nat, Segment>, up: Phase)
    requires up.Up?
  {
    && Wf(up.service.builder) && up.service.builder.Building?
    && Supported(segments, o.startingBlock, o.segmentSize, up.count, OfBuilder(up.service.builder))
    && up.chain == ViewChain(segments, o.startingBlock, o.segmentSize, up.count, OfBuilder(up.service.builder))
    && Linked(t, up.chain) && Remembers(t, up.chain, up.ever)
  }

  ghost predicate StateOk(r: Remote, up: Phase)
    requires up.Up? && up.service.builder.Building?
  {
    && up.state.lastIngested == up.service.builder.info.last
    && match up.state
       case Ingest(_, _, last, queued, _) =>
         up.probing.None? && queued >= last.number
         && Mains(up.service.queue) == Range(last.number + 1, queued - last.number)
       case Recover(_, _, _) =>
         up.probing.Some? ==>
           && IsCanonical(OfBuilder(up.service.builder), up.probing.value)
           && forall c :: IsCanonical(up.chain, c) && c.number > up.probing.value.number ==> !OnChain(r, c)
  }

  /**
   * The awaited writes are what is left of: a split-off segment, the current chain's snapshot, and the key that names
   * it.
   */
  ghost predicate WritesOk(o: Options, store: Store, up: Phase, writes: seq<Write>)
    requires up.Up? && up.service.builder.Building?
  {
    var current := CurrentSegment(up.service.builder).value;
    || writes == []
    || (writes == [PointAtSnapshot] && store.snapshots != [] && Last(store.snapshots) == current)
    || writes == Publish(current)
    || (|writes| == 3 && writes[0].PutSegment? && writes[1..] == Publish(current) && up.count >= 1
        && WfSegment(writes[0].segment)
        && writes[0].segment.info.first.number == Edge(o.startingBlock, o.segmentSize, up.count - 1))
  }

  ghost predicate PointerOk(s: System) {
    if s.published == [] then s.store.pointer.None?
    else
      && s.store.pointer.Some? && s.store.pointer.value < |s.store.snapshots|
      && s.store.snapshots[s.store.pointer.value] == Last(s.published).snapshot
  }

  /** What a later chain owes an earlier publication. */
  ghost predicate Follows(r: Remote, dropped: set<Cursor>, p: Publication, count: nat, chain: Ledger,
                          known: set<Cursor>) {
    && p.count <= count
    && p.known <= known + dropped
    && forall c :: IsCanonical(p.chain, c) && OnChain(r, c) ==> IsCanonical(chain, c)
  }

  ghost predicate PublishedInOrder(s: System) {
    forall i, j :: 0 <= i <= j < |s.published| ==>
      Follows(s.remote, s.dropped, s.published[i], s.published[j].count, s.published[j].chain, s.published[j].known)
  }

  /** Segments the readers of a publication look at are below the one still to be written. */
  ghost predicate UpInOrder(s: System)
    requires s.phase.Up?
  {
    forall i :: 0 <= i < |s.published| ==>
      && Follows(s.remote, s.dropped, s.published[i], s.phase.count, s.phase.chain, s.phase.ever)
      && (s.writes != [] && s.writes[0].PutSegment? ==> s.published[i].count < s.phase.count)
  }

  ghost predicate UpOk(s: System)
    requires RemoteInv(s.remote) && s.phase.Up?
  {
    && BuilderOk(TreeOf(s.remote), s.options, SegmentsAfter(s.store.segments, s.writes), s.phase)
    && StateOk(s.remote, s.phase)
    && WritesOk(s.options, s.store, s.phase, s.writes)
    && UpInOrder(s)
    && forall i :: 0 <= i < |s.phase.service.queue| ==> TaskOk(TreeOf(s.remote), s.phase.service.queue[i])
  }

  ghost predicate AllWf(segments: map<nat, Segment>) {
    forall n :: n in segments ==> WfSegment(segments[n])
  }

  ghost predicate SystemInv(s: System) {
    && RemoteInv(s.remote) && s.options.segmentSize >= 1 && AllWf(s.store.segments)
    && (forall i :: 0 <= i < |s.published| ==>
          PublicationOk(TreeOf(s.remote), s.options, s.store.segments, s.published[i]))
    && PointerOk(s) && PublishedInOrder(s)
    && (s.phase.Down? ==> s.writes == [])
    && (s.phase.Up? ==> UpOk(s))
  }

  ghost predicate Keeps(s: System, a: Action) {
    Ready(s) && IsEnabled(s, a) ==> SystemInv(Step(s, a))
  }

  ghost function Initially(o: Options, genesis: BlockInfo): System {
    System(o, NewChain(genesis), Store(map[], [], None, None), Down, [], [], {})
  }

  lemma InitiallyOk(o: Options, genesis: BlockInfo)
    requires o.segmentSize >= 1 && !IsZero(genesis.hash)
    ensures SystemInv(Initially(o, genesis))
  {
  }
}
