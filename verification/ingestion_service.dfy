/** The ingestion service that updates its builder and task queue in place (common/src/ingestion/service.rs). */
module IngestionService {
  import opened Core
  import opened Chain
  import opened ChainBuilder
  import opened Ingestion

  class IngestionService {
    const options: Options
    const builder: CanonicalChainBuilder
    var queue: seq<Task>

    ghost function Value(): Service
      reads this, builder
    {
      Service(builder.Value(), queue)
    }

    ghost predicate Valid()
      reads this, builder
    {
      builder.Valid() && options.segmentSize >= 1
    }

    /** The builder can take blocks: it is not empty and its last hash is not zero. */
    ghost predicate Ready()
      reads this, builder
    {
      Valid() && builder.Value().Building? && !IsZero(builder.Value().info.last.hash)
    }

    constructor (o: Options, b: CanonicalChainBuilder)
      requires b.Valid() && o.segmentSize >= 1
      ensures Valid() && Value() == Service(b.Value(), []) && options == o && builder == b
    {
      options, builder, queue := o, b, [];
    }

    /** The push loop of `tick_refresh_head` and `tick_with_task_result`. */
    method PushTasks(queued: nat, head: nat) returns (last: nat)
      modifies this`queue
      ensures queue == PushTo(options, old(queue), queued, head)
      ensures last == QueuedTo(options, old(queue), queued, head)
      ensures |queue| >= options.maxTasks || last >= head
    {
      last := queued;
      ghost var count := PushCount(|queue|, options.maxTasks, queued, head);
      while |queue| < options.maxTasks
        invariant queued <= last <= queued + count
        invariant queue == old(queue) + NewTasks(queued, count)[..last - queued]
        decreases options.maxTasks - |queue|
      {
        if last + 1 > head {
          break;
        }
        last := last + 1;
        queue := queue + [MainTask(last, None)];
      }
      assert NewTasks(queued, count)[..count] == NewTasks(queued, count);
    }

    method TickRefreshFinalized(s: State, finalized: Cursor) returns (next: Option<State>)
      requires Valid() && s.Ingest?
      ensures match Ingestion.TickRefreshFinalized(Value(), s, finalized)
              case Stopped => next.None?
              case Ticked(service, state, writes) => service == Value() && next == Some(state) && writes == []
    {
      if s.finalized.number > finalized.number {
        return None;
      }
      if s.finalized == finalized {
        return Some(s);
      }
      next := Some(Ingest(finalized, s.head, s.lastIngested, s.queued, s.pending));
    }

    method TickRefreshHead(s: State, head: Cursor) returns (next: State)
      requires Valid() && s.Ingest?
      modifies this`queue
      ensures Ingestion.TickRefreshHead(options, old(Value()), s, head) == Ticked(Value(), next, [])
    {
      if s.head == head {
        return s;
      }
      if s.lastIngested.number >= head.number {
        if s.head.number > head.number {
          return Recover(s.finalized, s.head, s.lastIngested);
        }
        if s.head.number == head.number && s.head.hash != head.hash {
          return Recover(s.finalized, s.head, s.lastIngested);
        }
      }
      var queued := PushTasks(s.queued, head.number);
      next := s.(head := head, queued := queued);
    }

    method TickRefreshPending(s: State) returns (next: State)
      requires Valid() && s.Ingest?
      modifies this`queue
      ensures Ingestion.TickRefreshPending(old(Value()), s) == Ticked(Value(), next, [])
    {
      if s.pending.queued || s.head != s.lastIngested {
        return s;
      }
      queue := queue + [PendingTask(s.lastIngested, s.pending.generation + 1, None)];
      next := s.(pending := s.pending.(queued := true));
    }

    /** Grows the chain by a fetched block, splits off a full segment and lists the writes that are awaited. */
    method IngestBlock(s: State, block: BlockInfo) returns (next: Option<State>, writes: seq<Write>)
      requires Ready() && s.Ingest?
      modifies this`queue, builder
      ensures Valid()
      ensures match Ingestion.IngestBlock(options, old(Value()), s, block)
              case Stopped => next.None?
              case Ticked(service, state, w) => service == Value() && next == Some(state) && writes == w
    {
      var grown := builder.Grow(block);
      if !grown {
        return Some(Recover(s.finalized, s.head, s.lastIngested)), [];
      }
      var publish := block.number >= s.finalized.number;
      writes := [];
      if |builder.canonical| >= options.segmentSize + options.uploadOffset {
        var segment := builder.TakeSegment(options.segmentSize);
        if segment.Rejected? {
          return None, [];
        }
        writes := [PutSegment(segment.value)];
        publish := true;
      }
      if publish {
        var current := builder.CurrentSegment();
        writes := writes + Publish(current.value);
      }
      var queued := PushTasks(s.queued, s.head.number);
      next := Some(Ingest(s.finalized, s.head, block.ToCursor(), queued, DEFAULT_PENDING));
    }

    method TickWithTaskResult(s: State, answer: Answer) returns (next: Option<State>, writes: seq<Write>)
      requires Ready() && s.Ingest?
      modifies this`queue, builder
      ensures Valid()
      ensures match Ingestion.TickWithTaskResult(options, old(Value()), s, answer)
              case Stopped => next.None?
              case Ticked(service, state, w) => service == Value() && next == Some(state) && writes == w
    {
      match answer
      case Broken => return None, [];
      case Missing => return Some(Recover(s.finalized, s.head, s.lastIngested)), [];
      case NoPending => return Some(s.(pending := PendingState(false, s.pending.generation))), [];
      case PendingFetched(generation) => return Some(s.(pending := PendingState(false, generation))), [];
      case Fetched(block) => next, writes := IngestBlock(s, block);
    }

    /** Walks down from the last ingested block until the remote agrees; `remote(i)` answers the i-th query. */
    method TickRecover(s: State, remote: nat -> Option<BlockInfo>)
      returns (next: Option<State>, writes: seq<Write>, queries: nat)
      requires Valid() && s.Recover? && builder.Value().Building?
      modifies this`queue, builder
      ensures Valid()
      ensures var segment := Chain.CurrentSegment(old(builder.Value())).value;
              if RecoverMismatch(segment, s.lastIngested) then next.None? && queries == 0
              else
                var (stop, count) := RecoverLoop(segment, s.lastIngested, remote, 0);
                && queries == count
                && match stop
                   case None => next.None? && Value() == old(Value())
                   case Some(newHead) =>
                     match FinishRecovery(old(Value()), s, newHead)
                     case Stopped => next.None?
                     case Ticked(service, state, w) => service == Value() && next == Some(state) && writes == w
    {
      queries, writes := 0, [];
      var chain := builder.CurrentSegment();
      var segment := chain.value;
      if Canonical(segment, s.lastIngested.number) != Ok(s.lastIngested) {
        return None, [], 0;
      }
      var candidate := s.lastIngested;
      while true
        invariant candidate.number <= segment.info.last.number
        invariant RecoverLoop(segment, candidate, remote, queries) == RecoverLoop(segment, s.lastIngested, remote, 0)
        decreases candidate.number
      {
        var answer := remote(queries);
        queries := queries + 1;
        if answer.Some? && answer.value.ToCursor() == candidate {
          break;
        }
        if candidate.number == 0 {
          return None, [], queries;
        }
        var below := Canonical(segment, candidate.number - 1);
        if below.Rejected? {
          return None, [], queries;
        }
        candidate := below.value;
      }
      queue := [];
      var removed := builder.Shrink(candidate);
      if removed.Rejected? {
        return None, [], queries;
      }
      var current := builder.CurrentSegment();
      writes := Publish(current.value);
      next := Some(Ingest(s.finalized, s.existingHead, candidate, candidate.number, DEFAULT_PENDING));
    }
  }
}
