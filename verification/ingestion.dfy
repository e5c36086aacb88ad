/** One tick of the ingestion service, as a function of its state (common/src/ingestion/service.rs). */
module Ingestion {
  import opened Core
  import opened Chain

  datatype Options = Options(maxTasks: nat, segmentSize: nat, uploadOffset: nat, startingBlock: nat)

  /** How a spawned task ended. `Missing` is the block-not-found error, `Broken` any other error. */
  datatype Answer = Fetched(block: BlockInfo) | PendingFetched(generation: nat) | NoPending | Missing | Broken

  /** A spawned task; it has no answer while it is still running. */
  datatype Task =
    | MainTask(number: nat, answer: Option<Answer>)
    | PendingTask(parent: Cursor, generation: nat, answer: Option<Answer>)

  datatype PendingState = PendingState(queued: bool, generation: nat)

  const DEFAULT_PENDING := PendingState(false, 0)

  datatype State =
    | Ingest(finalized: Cursor, head: Cursor, lastIngested: Cursor, queued: nat, pending: PendingState)
    | Recover(finalized: Cursor, existingHead: Cursor, lastIngested: Cursor)

  /** What the ingester holds in memory. */
  datatype Service = Service(builder: Builder, queue: seq<Task>)

  /** Writes to the object store and the etcd key of the recent snapshot, in the order they are awaited. */
  datatype Write =
    | PutSegment(segment: Segment)
    | PutSnapshot(segment: Segment)
    | PointAtSnapshot

  /** `Stopped` is an error return: the service ends and is started again from its stores. */
  datatype Outcome = Ticked(service: Service, state: State, writes: seq<Write>) | Stopped

  /** `publish_recent_segment`: an immutable snapshot first, then the etcd key that names it. */
  function Publish(segment: Segment): seq<Write> {
    [PutSnapshot(segment), PointAtSnapshot]
  }

  // ------------------------------------------------------------------ the ingestion queue

  function NewTasks(from: nat, count: nat): (r: seq<Task>)
    ensures |r| == count
  {
    seq(count, i requires 0 <= i < count => MainTask(from + 1 + i, None))
  }

  /** How many tasks the push loops add: up to the head, while the queue has room. */
  function PushCount(queueLength: nat, maxTasks: nat, queued: nat, head: nat): nat {
    var room := if queueLength < maxTasks then maxTasks - queueLength else 0;
    var missing := if queued < head then head - queued else 0;
    if room < missing then room else missing
  }

  function PushTo(o: Options, queue: seq<Task>, queued: nat, head: nat): seq<Task> {
    queue + NewTasks(queued, PushCount(|queue|, o.maxTasks, queued, head))
  }

  function QueuedTo(o: Options, queue: seq<Task>, queued: nat, head: nat): nat {
    queued + PushCount(|queue|, o.maxTasks, queued, head)
  }

  // ------------------------------------------------------------------ ticks

  function ToRecover(s: State): State
    requires s.Ingest?
  {
    Recover(s.finalized, s.head, s.lastIngested)
  }

  function TickRefreshFinalized(service: Service, s: State, finalized: Cursor): Outcome
    requires s.Ingest?
  {
    if s.finalized.number > finalized.number then Stopped
    else Ticked(service, Ingest(finalized, s.head, s.lastIngested, s.queued, s.pending), [])
  }

  function TickRefreshHead(o: Options, service: Service, s: State, head: Cursor): Outcome
    requires s.Ingest?
  {
    if s.head == head then Ticked(service, s, [])
    else if s.lastIngested.number >= head.number && s.head.number >= head.number then
      Ticked(service, ToRecover(s), [])
    else
      Ticked(service.(queue := PushTo(o, service.queue, s.queued, head.number)),
             s.(head := head, queued := QueuedTo(o, service.queue, s.queued, head.number)), [])
  }

  function TickRefreshPending(service: Service, s: State): Outcome
    requires s.Ingest?
  {
    if s.pending.queued || s.head != s.lastIngested then Ticked(service, s, [])
    else
      Ticked(service.(queue := service.queue + [PendingTask(s.lastIngested, s.pending.generation + 1, None)]),
             s.(pending := s.pending.(queued := true)), [])
  }

  /** The block joins the chain; a full segment is split off and stored; recent chains are published. */
  function IngestBlock(o: Options, service: Service, s: State, block: BlockInfo): Outcome
    requires s.Ingest? && Wf(service.builder) && o.segmentSize >= 1
    requires service.builder.Building? && !IsZero(service.builder.info.last.hash)
  {
    if !CanGrow(service.builder, block) then Ticked(service, ToRecover(s), [])
    else
      var grown := Grow(service.builder, block).value;
      if |grown.canonical| >= o.segmentSize + o.uploadOffset then
        match TakeSegment(grown, o.segmentSize)
        case Rejected => Stopped
        case Ok(taken) =>
          Advanced(o, service.(builder := taken.builder), s, block,
                   [PutSegment(taken.segment)] + Publish(CurrentSegment(taken.builder).value))
      else
        Advanced(o, service.(builder := grown), s, block,
                 if block.number >= s.finalized.number then Publish(CurrentSegment(grown).value) else [])
  }

  function Advanced(o: Options, service: Service, s: State, block: BlockInfo, writes: seq<Write>): Outcome
    requires s.Ingest?
  {
    Ticked(service.(queue := PushTo(o, service.queue, s.queued, s.head.number)),
           Ingest(s.finalized, s.head, block.ToCursor(), QueuedTo(o, service.queue, s.queued, s.head.number),
                  DEFAULT_PENDING), writes)
  }

  /** `answer` is the result of the first task, already taken off the queue. */
  function TickWithTaskResult(o: Options, service: Service, s: State, answer: Answer): Outcome
    requires s.Ingest? && Wf(service.builder) && o.segmentSize >= 1
    requires service.builder.Building? && !IsZero(service.builder.info.last.hash)
  {
    match answer
    case Broken => Stopped
    case Missing => Ticked(service, ToRecover(s), [])
    case NoPending => Ticked(service, s.(pending := PendingState(false, s.pending.generation)), [])
    case PendingFetched(generation) => Ticked(service, s.(pending := PendingState(false, generation)), [])
    case Fetched(block) => IngestBlock(o, service, s, block)
  }

  // ------------------------------------------------------------------ recovery

  datatype Probe = Agrees | GoBelow(candidate: Cursor) | GiveUp

  /** "This should never happen": the last ingested block is not the chain's. */
  predicate RecoverMismatch(segment: Segment, lastIngested: Cursor)
    requires WfSegment(segment)
  {
    Canonical(segment, lastIngested.number) != Ok(lastIngested)
  }

  /** One pass of the recovery loop: the remote's answer for the candidate's height is `remote`. */
  function ProbeCandidate(segment: Segment, candidate: Cursor, remote: Option<BlockInfo>): Probe
    requires WfSegment(segment)
  {
    if remote.Some? && remote.value.ToCursor() == candidate then Agrees
    else if candidate.number == 0 then GiveUp
    else match Canonical(segment, candidate.number - 1)
      case Rejected => GiveUp
      case Ok(below) => GoBelow(below)
  }

  /** The whole loop, when the i-th query is answered `remote(i)`: where it stops and how many queries it made. */
  function RecoverLoop(segment: Segment, candidate: Cursor, remote: nat -> Option<BlockInfo>,
                       i: nat): (r: (Option<Cursor>, nat))
    requires WfSegment(segment) && candidate.number <= segment.info.last.number
    decreases candidate.number
  {
    match ProbeCandidate(segment, candidate, remote(i))
    case Agrees => (Some(candidate), i + 1)
    case GiveUp => (None, i + 1)
    case GoBelow(below) => RecoverLoop(segment, below, remote, i + 1)
  }

  /** After the loop: queued work is dropped, the chain is cut and published. The old head is kept. */
  function FinishRecovery(service: Service, s: State, newHead: Cursor): Outcome
    requires s.Recover? && Wf(service.builder)
  {
    match Shrink(service.builder, newHead)
    case Rejected => Stopped
    case Ok(shrunk) =>
      Ticked(Service(shrunk.builder, []),
             Ingest(s.finalized, s.existingHead, newHead, newHead.number, DEFAULT_PENDING),
             Publish(CurrentSegment(shrunk.builder).value))
  }

  // ------------------------------------------------------------------ starting

  /** A first start: the block at the starting number opens the chain and is published. */
  function StartFresh(block: BlockInfo, finalized: Cursor, head: Cursor): Outcome {
    var builder := Grow(Empty, block).value;
    Ticked(Service(builder, []),
           Ingest(finalized, head, block.ToCursor(), block.number, DEFAULT_PENDING),
           Publish(CurrentSegment(builder).value))
  }

  /** A restart: the chain is read back, and kept only if the remote still has its last block. */
  function StartAgain(snapshot: Segment, remote: Option<BlockInfo>, finalized: Cursor, head: Cursor): Outcome {
    var builder := Restore(snapshot);
    var last := snapshot.info.last;
    if remote.Some? && remote.value.ToCursor() == last then
      Ticked(Service(builder, []), Ingest(finalized, head, last, last.number, DEFAULT_PENDING), [])
    else
      Ticked(Service(builder, []), Recover(finalized, head, last), [])
  }
}
