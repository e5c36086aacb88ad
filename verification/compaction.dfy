/**
 * Compaction beside the ingester: segments, groups and pruning run beside each other, on views that lag, while the
 * remote chain moves and the ingester publishes, crashes and recovers; any job may be cut short at any moment
 * (common/src/compaction).
 *
 * Any number of runs of each service may be under way at once, so nothing here rests on the compaction lock.
 */
module Compaction {
  import opened Core
  import opened Chain
  import opened Ledgers
  import opened ChainHistory
  import opened RemoteChain
  import opened Ingestion
  import opened IngestionSystem
  import opened IngestionInvariant
  import opened IngestionSafety
  import opened Watermarks

  /** Blocks a job read, and history: `sound[i]` says whether block i was on the remote chain at that moment. */
  datatype Stretch = Stretch(hashes: seq<Hash>, sound: seq<bool>)

  /**
   * Fragments of one segment are uploaded one by one; `uploaded` of them are there. A prune job deletes heights in
   * rounds: `left` are left of the round under way, if `open`.
   */
  datatype Job =
    | SegmentJob(first: nat, taken: Stretch, uploaded: nat)
    | GroupJob(first: nat, taken: Stretch, uploaded: nat)
    | PruneJob(limit: nat, current: nat, left: nat, open: bool)

  /**
   * `reported` are the finalized numbers etcd has held. `blocks` are the block objects, `segments` the segment
   * objects by first block and fragment, `groups` the group objects.
   */
  datatype Deployment = Deployment(system: System, sizes: Sizes, fragments: nat, reported: set<nat>,
                                   blocks: set<Cursor>, segments: map<(nat, nat), Stretch>, groups: map<nat, Stretch>,
                                   segmented: Option<nat>, grouped: Option<nat>, pruned: Option<nat>, jobs: seq<Job>)

  /** `view` is the publication a job reads; `seen` and `finalized` are what its lagging view holds for those keys. */
  datatype Action =
    | SystemActs(action: IngestionSystem.Action)
    | StoresBlock(cursor: Cursor)
    | StartsSegment(view: nat, seen: Option<nat>, finalized: nat)
    | StartsGroup(seenGrouped: Option<nat>, seenSegmented: nat)
    | StartsPrune
    | Uploads(job: nat)
    | PutsWatermark(job: nat)
    | Deletes(job: nat)
    | Ends(job: nat)

  function NextFirst(z: Sizes, seen: Option<nat>): nat {
    if seen.None? then z.start else seen.value + 1
  }

  /** A view's watermark is one the key held before. */
  ghost predicate Lags(z: Sizes, step: nat, seen: Option<nat>, now: Option<nat>) {
    seen.Some? ==> Aligned(seen.value, z.start, step) && now.Some? && seen.value <= now.value
  }

  /** Every block of a stretch still has its object. */
  predicate Loadable(blocks: set<Cursor>, first: nat, hashes: seq<Hash>) {
    forall i :: 0 <= i < |hashes| ==> Cursor(first + i, hashes[i]) in blocks
  }

  /** The provider reports no block as finalized that is not. */
  predicate Honest(r: Remote, a: IngestionSystem.Action) {
    match a
    case Starts(finalized, _) => finalized.number <= r.finalized
    case FinalizedTick(finalized) => finalized.number <= r.finalized
    case _ => true
  }

  /** The stretch of a chain that a job reads. */
  function HashesAt(chain: Ledger, first: nat, count: nat): (r: seq<Hash>)
    requires chain.first <= first && first + count <= chain.first + |chain.hashes|
    ensures |r| == count
  {
    chain.hashes[first - chain.first..][..count]
  }

  /** Reading asks for the block after the last one too. */
  ghost predicate Reads(chain: Ledger, first: nat, count: nat) {
    chain.first <= first && first + count < chain.first + |chain.hashes|
  }

  ghost predicate Enabled(s: Deployment, a: Action) {
    var z := s.sizes;
    match a
    case SystemActs(action) => IsEnabled(s.system, action) && Honest(s.system.remote, action)
    case StoresBlock(_) => true
    case StartsSegment(view, seen, finalized) =>
      var first := NextFirst(z, seen);
      && Lags(z, z.segmentSize, seen, s.segmented) && finalized in s.reported
      && first + z.segmentSize <= finalized
      && view < |s.system.published| && Reads(s.system.published[view].chain, first, z.segmentSize)
      && Loadable(s.blocks, first, HashesAt(s.system.published[view].chain, first, z.segmentSize))
    case StartsGroup(seenGrouped, seenSegmented) =>
      && Lags(z, BlocksInGroup(z), seenGrouped, s.grouped) && Lags(z, z.segmentSize, Some(seenSegmented), s.segmented)
      && NextFirst(z, seenGrouped) + BlocksInGroup(z) <= seenSegmented
    case StartsPrune => s.grouped.Some?
    case Uploads(j) =>
      && j < |s.jobs| && (s.jobs[j].SegmentJob? ==> s.jobs[j].uploaded < s.fragments)
      && (s.jobs[j].GroupJob? ==> s.jobs[j].uploaded < 1) && !s.jobs[j].PruneJob?
    case PutsWatermark(j) =>
      && j < |s.jobs| && (s.jobs[j].SegmentJob? ==> s.jobs[j].uploaded == s.fragments)
      && (s.jobs[j].GroupJob? ==> s.jobs[j].uploaded == 1) && (s.jobs[j].PruneJob? ==> RoundOver(s.jobs[j]))
    case Deletes(j) => j < |s.jobs| && s.jobs[j].PruneJob? && s.jobs[j].open && !RoundOver(s.jobs[j])
    case Ends(j) => j < |s.jobs|
  }

  /** The inner loop of a prune job has ended and its watermark is still to be written. */
  predicate RoundOver(job: Job)
    requires job.PruneJob?
  {
    job.open && (job.left == 0 || job.current > job.limit)
  }

  /** The outer loop goes on while the limit is not reached. */
  function NextRound(z: Sizes, limit: nat, current: nat): Job {
    PruneJob(limit, current, z.segmentSize, current < limit)
  }

  /** `put_if_higher`, as StateClient shows any interleaving of its calls to be. */
  function Higher(now: Option<nat>, block: nat): Option<nat> {
    if now.Some? && now.value >= block then now else Some(block)
  }

  function Join(a: Stretch, b: Stretch): Stretch {
    Stretch(a.hashes + b.hashes, a.sound + b.sound)
  }

  /** The blocks of a group are read back from the index fragment of its segments. */
  function Grouped(s: Deployment, first: nat, count: nat): Stretch
    requires forall k: nat :: k < count ==> SegmentObject(s.sizes, first, k) in s.segments
  {
    if count == 0 then Stretch([], [])
    else Join(Grouped(s, first, count - 1), s.segments[SegmentObject(s.sizes, first, count - 1)])
  }

  function SegmentObject(z: Sizes, first: nat, k: nat): (nat, nat) {
    (Edge(first, z.segmentSize, k), 0)
  }

  function WithoutHeight(blocks: set<Cursor>, n: nat): set<Cursor> {
    set c | c in blocks && c.number != n
  }

  /** What the code takes for granted; every reachable state has it (ReachableInv). */
  ghost predicate Ready(s: Deployment, a: Action) {
    && ValidSizes(s.sizes)
    && (a.SystemActs? ==> IngestionSystem.Ready(s.system))
    && (a.PutsWatermark? && a.job < |s.jobs| && s.jobs[a.job].PruneJob? ==> s.jobs[a.job].current > 0)
    && (a.StartsGroup? ==>
          forall k: nat :: k < s.sizes.groupSize ==>
            SegmentObject(s.sizes, NextFirst(s.sizes, a.seenGrouped), k) in s.segments)
  }

  /** A fetched block has its object before its task ends, and so has the block a first start begins with. */
  ghost function StoredBy(s: System, a: IngestionSystem.Action): set<Cursor>
    requires IngestionSystem.Ready(s) && IsEnabled(s, a)
  {
    match a
    case TaskEnds(i, broken, missing, pending) =>
      var answer := AnswerOf(s.remote, s.phase.service.queue[i], broken, missing, pending);
      if answer.Fetched? then {answer.block.ToCursor()} else {}
    case Starts(_, _) =>
      if s.published == [] then {GetBlockByNumber(s.remote, s.options.startingBlock).value.ToCursor()} else {}
    case _ => {}
  }

  ghost function AsRead(r: Remote, first: nat, hashes: seq<Hash>): Stretch {
    Stretch(hashes, seq(|hashes|, i requires 0 <= i < |hashes| => OnChain(r, Cursor(first + i, hashes[i]))))
  }

  ghost function Acted(s: Deployment, a: IngestionSystem.Action): Deployment
    requires IngestionSystem.Ready(s.system) && IsEnabled(s.system, a)
  {
    var after := IngestionSystem.Step(s.system, a);
    s.(system := after, blocks := s.blocks + StoredBy(s.system, a),
       reported := s.reported + if after.store.finalized.Some? then {after.store.finalized.value} else {})
  }

  ghost function Step(s: Deployment, a: Action): Deployment
    requires Enabled(s, a) && Ready(s, a)
  {
    var z := s.sizes;
    match a
    case SystemActs(action) => Acted(s, action)
    case StoresBlock(c) => s.(blocks := s.blocks + {c})
    case StartsSegment(view, seen, _) =>
      var first := NextFirst(z, seen);
      var hashes := HashesAt(s.system.published[view].chain, first, z.segmentSize);
      s.(jobs := s.jobs + [SegmentJob(first, AsRead(s.system.remote, first, hashes), 0)])
    case StartsGroup(seenGrouped, _) =>
      var first := NextFirst(z, seenGrouped);
      s.(jobs := s.jobs + [GroupJob(first, Grouped(s, first, z.groupSize), 0)])
    case StartsPrune =>
      var from := if s.pruned.Some? then s.pruned.value else z.start;
      s.(jobs := s.jobs + [NextRound(z, s.grouped.value, from)])
    case Uploads(j) => Upload(s, j)
    case PutsWatermark(j) => PutWatermark(s, j)
    case Deletes(j) =>
      var job := s.jobs[j];
      s.(blocks := WithoutHeight(s.blocks, job.current),
         jobs := s.jobs[j := PruneJob(job.limit, job.current + 1, job.left - 1, true)])
    case Ends(j) => s.(jobs := s.jobs[..j] + s.jobs[j + 1..])
  }

  function Upload(s: Deployment, j: nat): Deployment
    requires j < |s.jobs| && !s.jobs[j].PruneJob?
  {
    match s.jobs[j]
    case SegmentJob(first, taken, uploaded) =>
      s.(segments := s.segments[(first, uploaded) := taken],
         jobs := s.jobs[j := SegmentJob(first, taken, uploaded + 1)])
    case GroupJob(first, taken, uploaded) =>
      s.(groups := s.groups[first := taken], jobs := s.jobs[j := GroupJob(first, taken, uploaded + 1)])
  }

  function PutWatermark(s: Deployment, j: nat): Deployment
    requires j < |s.jobs| && (s.jobs[j].PruneJob? ==> s.jobs[j].current > 0) && ValidSizes(s.sizes)
  {
    match s.jobs[j]
    case SegmentJob(first, _, _) => s.(segmented := Higher(s.segmented, first + s.sizes.segmentSize - 1))
    case GroupJob(first, _, _) =>
      assert BlocksInGroup(s.sizes) >= 1 by { GroupIsPositive(s.sizes); }
      s.(grouped := Higher(s.grouped, first + BlocksInGroup(s.sizes) - 1))
    case PruneJob(limit, current, _, _) =>
      s.(pruned := Some(current - 1), jobs := s.jobs[j := NextRound(s.sizes, limit, current)])
  }

  // ------------------------------------------------------------------ the invariant

  /** Finalized heights, and history that tells for each block whether it is on the remote chain. */
  ghost predicate StretchOk(r: Remote, first: nat, taken: Stretch, count: nat) {
    && |taken.hashes| == |taken.sound| == count && first + count <= r.finalized
    && forall i :: 0 <= i < count ==> (taken.sound[i] <==> OnChain(r, Cursor(first + i, taken.hashes[i])))
  }

  ghost predicate SegmentOk(s: Deployment, o: (nat, nat)) {
    o in s.segments && StretchOk(s.system.remote, o.0, s.segments[o], s.sizes.segmentSize)
  }

  ghost predicate GroupOk(s: Deployment, first: nat) {
    first in s.groups && StretchOk(s.system.remote, first, s.groups[first], BlocksInGroup(s.sizes))
  }

  /** Everything below an edge has been uploaded. */
  ghost predicate SegmentsBelow(s: Deployment, count: nat) {
    forall k: nat, f: nat :: k < count && f < s.fragments ==>
      SegmentOk(s, (Edge(s.sizes.start, s.sizes.segmentSize, k), f))
  }

  ghost predicate GroupsBelow(s: Deployment, count: nat) {
    forall k: nat :: k < count ==> GroupOk(s, Edge(s.sizes.start, BlocksInGroup(s.sizes), k))
  }

  /** `segmented` closes the k-th segment: it and all before it are uploaded, and it lies below the finalized block. */
  ghost predicate SegmentedAt(s: Deployment, v: nat, k: nat) {
    && AlignedAt(v, s.sizes.start, s.sizes.segmentSize, k) && v < s.system.remote.finalized && SegmentsBelow(s, k)
  }

  ghost predicate GroupedAt(s: Deployment, v: nat, k: nat) {
    && AlignedAt(v, s.sizes.start, BlocksInGroup(s.sizes), k) && s.segmented.Some? && v < s.segmented.value
    && GroupsBelow(s, k)
  }

  ghost predicate JobOk(s: Deployment, job: Job) {
    var z := s.sizes;
    match job
    case SegmentJob(first, taken, uploaded) =>
      && StretchOk(s.system.remote, first, taken, z.segmentSize)
      && (exists k: nat :: first == Edge(z.start, z.segmentSize, k) && SegmentsBelow(s, k))
      && uploaded <= s.fragments && forall f: nat :: f < uploaded ==> SegmentOk(s, (first, f))
    case GroupJob(first, taken, uploaded) =>
      && StretchOk(s.system.remote, first, taken, BlocksInGroup(z))
      && s.segmented.Some? && first + BlocksInGroup(z) <= s.segmented.value
      && (exists k: nat :: first == Edge(z.start, BlocksInGroup(z), k) && GroupsBelow(s, k))
      && uploaded <= 1 && (uploaded == 1 ==> GroupOk(s, first))
    case PruneJob(limit, current, left, open) =>
      && s.grouped.Some? && limit <= s.grouped.value && z.start <= current
      && (open ==> current <= limit + 1 && (RoundOver(job) ==> z.start < current))
  }

  /** The cursors a publication or the ingester knows, and the blocks it has fetched. */
  ghost predicate Traced(s: System, c: Cursor) {
    || (exists k :: 0 <= k < |s.published| && c in s.published[k].known)
    || (s.phase.Up? && (c in s.phase.ever || FetchedIn(s.phase.service.queue, c)))
  }

  ghost predicate FetchedIn(queue: seq<Task>, c: Cursor) {
    exists i ::
      && 0 <= i < |queue| && queue[i].answer.Some? && queue[i].answer.value.Fetched?
      && queue[i].answer.value.block.ToCursor() == c
  }

  ghost predicate BlockKept(s: Deployment, c: Cursor) {
    c in s.blocks || (s.grouped.Some? && c.number <= s.grouped.value)
  }

  ghost predicate AllKept(s: Deployment) {
    forall c :: Traced(s.system, c) ==> BlockKept(s, c)
  }

  ghost predicate ReportedOk(s: Deployment) {
    && (s.system.store.finalized.Some? ==> s.system.store.finalized.value in s.reported)
    && forall v :: v in s.reported ==> v <= s.system.remote.finalized
  }

  ghost predicate Inv(s: Deployment) {
    && SystemInv(s.system) && s.sizes.start == s.system.options.startingBlock
    && ValidSizes(s.sizes) && s.fragments >= 1
    && ReportedOk(s)
    && (s.segmented.Some? ==> exists k: nat :: SegmentedAt(s, s.segmented.value, k))
    && (s.grouped.Some? ==> exists k: nat :: GroupedAt(s, s.grouped.value, k))
    && (s.pruned.Some? ==> s.grouped.Some? && s.sizes.start <= s.pruned.value <= s.grouped.value)
    && AllKept(s)
    && forall j :: 0 <= j < |s.jobs| ==> JobOk(s, s.jobs[j])
  }

  /** Up to the finalized block nothing changes any more. */
  ghost predicate Moves(r: Remote, r': Remote) {
    r.finalized <= r'.finalized && forall c: Cursor :: c.number <= r.finalized ==> (OnChain(r, c) <==> OnChain(r', c))
  }

  /** A later state that keeps the uploaded objects and the remote's finality. */
  ghost predicate Keeps(s: Deployment, s': Deployment) {
    && s'.sizes == s.sizes && s'.fragments == s.fragments && Moves(s.system.remote, s'.system.remote)
    && (forall o :: SegmentOk(s, o) ==> SegmentOk(s', o))
    && (forall f :: GroupOk(s, f) ==> GroupOk(s', f))
    && (s.segmented.Some? ==> s'.segmented.Some? && s.segmented.value <= s'.segmented.value)
    && (s.grouped.Some? ==> s'.grouped.Some? && s.grouped.value <= s'.grouped.value)
  }

  ghost predicate StepOk(s: Deployment, a: Action) {
    Enabled(s, a) ==> Ready(s, a) && Keeps(s, Step(s, a)) && Inv(Step(s, a))
  }

  lemma StretchKept(r: Remote, r': Remote, first: nat, taken: Stretch, count: nat)
    requires Moves(r, r') && StretchOk(r, first, taken, count)
    ensures StretchOk(r', first, taken, count)
  {
    forall i | 0 <= i < count
      ensures taken.sound[i] <==> OnChain(r', Cursor(first + i, taken.hashes[i]))
    {
      assert Cursor(first + i, taken.hashes[i]).number <= r.finalized;
    }
  }

  lemma JobKept(s: Deployment, s': Deployment, job: Job)
    requires Keeps(s, s') && JobOk(s, job)
    ensures JobOk(s', job)
  {
    hide SegmentOk, GroupOk, StretchOk, Moves;
    match job
    case SegmentJob(first, taken, _) =>
      StretchKept(s.system.remote, s'.system.remote, first, taken, s.sizes.segmentSize);
      var k: nat :| first == Edge(s.sizes.start, s.sizes.segmentSize, k) && SegmentsBelow(s, k);
      assert SegmentsBelow(s', k);
    case GroupJob(first, taken, _) =>
      StretchKept(s.system.remote, s'.system.remote, first, taken, BlocksInGroup(s.sizes));
      var k: nat :| first == Edge(s.sizes.start, BlocksInGroup(s.sizes), k) && GroupsBelow(s, k);
      assert GroupsBelow(s', k);
    case PruneJob(_, _, _, _) =>
  }

  lemma WatermarksKept(s: Deployment, s': Deployment)
    requires Keeps(s, s')
    ensures forall v, k: nat :: SegmentedAt(s, v, k) ==> SegmentedAt(s', v, k)
    ensures forall v, k: nat :: GroupedAt(s, v, k) ==> GroupedAt(s', v, k)
  {
    hide SegmentOk, GroupOk, AlignedAt;
  }

  // ------------------------------------------------------------------ every action keeps it

  /** A step that leaves the watermarks alone. */
  lemma InvKept(s: Deployment, s': Deployment)
    requires Inv(s) && Keeps(s, s') && s'.segmented == s.segmented && s'.grouped == s.grouped && s'.pruned == s.pruned
    requires SystemInv(s'.system) && s'.system.options == s.system.options
    requires ReportedOk(s') && AllKept(s')
    requires forall j :: 0 <= j < |s'.jobs| ==> JobOk(s', s'.jobs[j])
    ensures Inv(s')
  {
    hide SegmentOk, GroupOk, JobOk, SegmentedAt, GroupedAt, AllKept, SystemInv, Moves;
    WatermarksKept(s, s');
    if s.segmented.Some? {
      var k: nat :| SegmentedAt(s, s.segmented.value, k);
      assert SegmentedAt(s', s'.segmented.value, k);
    }
    if s.grouped.Some? {
      var k: nat :| GroupedAt(s, s.grouped.value, k);
      assert GroupedAt(s', s'.grouped.value, k);
    }
  }

  // ------------------------------------------------------------------ the ingester and the remote chain

  lemma SucceedsMoves(r: Remote, r': Remote)
    requires RemoteInv(r) && RemoteInv(r') && Succeeds(r, r')
    ensures Moves(r, r')
  {
    var top := Cursor(r.finalized, r.canonical[r.finalized]);
    assert Final(r, top);
    forall c: Cursor | c.number <= r.finalized
      ensures OnChain(r, c) <==> OnChain(r', c)
    {
      var own := Cursor(c.number, r.canonical[c.number]);
      assert Final(r, own) && Final(r', own);
      assert OnChain(r, c) <==> c == own;
    }
  }

  /** Whatever is known after a step was known before or has just been stored. */
  ghost predicate NothingNew(s: System, s': System, stored: set<Cursor>) {
    forall c :: Traced(s', c) ==> Traced(s, c) || c in stored
  }

  lemma SameTraces(s: System, s': System)
    requires s'.published == s.published
    requires s'.phase.Up? ==> s.phase.Up? && s'.phase.ever == s.phase.ever
    requires s'.phase.Up? ==> forall c :: FetchedIn(s'.phase.service.queue, c) ==> FetchedIn(s.phase.service.queue, c)
    ensures NothingNew(s, s', {})
  {
  }

  lemma PushedIsUnanswered(o: Options, queue: seq<Task>, queued: nat, head: nat)
    ensures forall c :: FetchedIn(PushTo(o, queue, queued, head), c) ==> FetchedIn(queue, c)
  {
    var all := PushTo(o, queue, queued, head);
    forall c | FetchedIn(all, c)
      ensures FetchedIn(queue, c)
    {
      var i :| 0 <= i < |all| && all[i].answer.Some? && all[i].answer.value.Fetched?
      && all[i].answer.value.block.ToCursor() == c;
      assert i < |queue| ==> all[i] == queue[i];
    }
  }

  lemma TaskEndsTraces(s: System, a: IngestionSystem.Action)
    requires IngestionSystem.Ready(s) && IsEnabled(s, a) && a.TaskEnds?
    ensures NothingNew(s, IngestionSystem.Step(s, a), StoredBy(s, a))
  {
    hide RemoteInv, Wf, IsZero;
    var s' := IngestionSystem.Step(s, a);
    var queue, queue' := s.phase.service.queue, s'.phase.service.queue;
    forall c | FetchedIn(queue', c)
      ensures FetchedIn(queue, c) || c in StoredBy(s, a)
    {
      var i :| 0 <= i < |queue'| && queue'[i].answer.Some? && queue'[i].answer.value.Fetched?
      && queue'[i].answer.value.block.ToCursor() == c;
      if i != a.i { assert queue[i] == queue'[i]; }
    }
  }

  lemma LandTraces(s: System)
    requires IngestionSystem.Ready(s) && IsEnabled(s, WriteLands)
    ensures NothingNew(s, IngestionSystem.Step(s, WriteLands), {})
  {
    hide RemoteInv, Wf, IsZero;
    var s' := IngestionSystem.Step(s, WriteLands);
    forall c | exists k :: 0 <= k < |s'.published| && c in s'.published[k].known
      ensures Traced(s, c)
    {
      var k :| 0 <= k < |s'.published| && c in s'.published[k].known;
      if k < |s.published| { assert s'.published[k] == s.published[k]; }
    }
  }

  lemma StartTraces(s: System, a: IngestionSystem.Action)
    requires IngestionSystem.Ready(s) && IsEnabled(s, a) && a.Starts?
    ensures NothingNew(s, IngestionSystem.Step(s, a), StoredBy(s, a))
  {
    hide RemoteInv, Wf, IsZero, CurrentSegment, Restore, Trimmed;
    if s.published != [] {
      assert forall c ::
               c in Survivors(Last(s.published).known, s.store.snapshots[s.store.pointer.value].info.last.number) ==>
                 c in s.published[|s.published| - 1].known;
    }
  }

  lemma TaskTickTraces(s: System)
    requires IngestionSystem.Ready(s) && IsEnabled(s, TaskTick)
    ensures NothingNew(s, IngestionSystem.Step(s, TaskTick), {})
  {
    hide RemoteInv, Wf, IsZero, CurrentSegment, TakeSegment, Grow, CanGrow, PushTo;
    var up := s.phase;
    var rest := up.service.queue[1..];
    forall c | FetchedIn(rest, c)
      ensures FetchedIn(up.service.queue, c)
    {
      var i :| 0 <= i < |rest| && rest[i].answer.Some? && rest[i].answer.value.Fetched?
      && rest[i].answer.value.block.ToCursor() == c;
      assert up.service.queue[i + 1] == rest[i];
    }
    PushedIsUnanswered(s.options, rest, up.state.queued, up.state.head.number);
    assert up.service.queue[0].answer.value.Fetched? ==>
             FetchedIn(up.service.queue, up.service.queue[0].answer.value.block.ToCursor());
  }

  lemma HeadTickTraces(s: System, head: Cursor)
    requires IngestionSystem.Ready(s) && IsEnabled(s, HeadTick(head))
    ensures NothingNew(s, IngestionSystem.Step(s, HeadTick(head)), {})
  {
    hide RemoteInv, Wf, IsZero, PushTo;
    PushedIsUnanswered(s.options, s.phase.service.queue, s.phase.state.queued, head.number);
    SameTraces(s, IngestionSystem.Step(s, HeadTick(head)));
  }

  lemma PendingTickTraces(s: System)
    requires IngestionSystem.Ready(s) && IsEnabled(s, PendingTick)
    ensures NothingNew(s, IngestionSystem.Step(s, PendingTick), {})
  {
    hide RemoteInv, Wf, IsZero;
    var s' := IngestionSystem.Step(s, PendingTick);
    var queue, queue' := s.phase.service.queue, s'.phase.service.queue;
    forall c | FetchedIn(queue', c)
      ensures FetchedIn(queue, c)
    {
      var i :| 0 <= i < |queue'| && queue'[i].answer.Some? && queue'[i].answer.value.Fetched?
      && queue'[i].answer.value.block.ToCursor() == c;
      assert i < |queue| && queue[i] == queue'[i];
    }
    SameTraces(s, s');
  }

  lemma RecoveryTraces(s: System, a: IngestionSystem.Action)
    requires IngestionSystem.Ready(s) && IsEnabled(s, a) && (a.RecoveryBegins? || a.RecoveryProbes?)
    ensures NothingNew(s, IngestionSystem.Step(s, a), {})
  {
    hide RemoteInv, Wf, IsZero, CurrentSegment, Shrink, Canonical, Cut;
    SameTraces(s, IngestionSystem.Step(s, a));
  }

  lemma StepTraces(s: System, a: IngestionSystem.Action)
    requires IngestionSystem.Ready(s) && IsEnabled(s, a)
    ensures NothingNew(s, IngestionSystem.Step(s, a), StoredBy(s, a))
  {
    hide NothingNew, IngestionSystem.Ready;
    match a
    case TaskEnds(_, _, _, _) => TaskEndsTraces(s, a);
    case WriteLands => LandTraces(s);
    case Starts(_, _) => StartTraces(s, a);
    case HeadTick(head) => HeadTickTraces(s, head);
    case PendingTick => PendingTickTraces(s);
    case TaskTick => TaskTickTraces(s);
    case RecoveryBegins => RecoveryTraces(s, a);
    case RecoveryProbes => RecoveryTraces(s, a);
    case RemoteMoves(_) => SameTraces(s, IngestionSystem.Step(s, a));
    case Crashes => SameTraces(s, IngestionSystem.Step(s, a));
    case FinalizedTick(_) => SameTraces(s, IngestionSystem.Step(s, a));
  }

  /** An honest provider never lets etcd report more than the remote has finalized. */
  lemma ReportedStaysBelow(s: System, a: IngestionSystem.Action)
    requires IngestionSystem.Ready(s) && IsEnabled(s, a) && Honest(s.remote, a)
    ensures var after := IngestionSystem.Step(s, a);
            after.store.finalized.Some? ==>
              after.store.finalized == s.store.finalized || after.store.finalized.value <= s.remote.finalized
  {
    hide RemoteInv, Wf, IsZero, CurrentSegment, PushTo, Shrink, Cut, Canonical, TickWithTaskResult, Restore, Trimmed;
  }

  lemma SystemActsOk(s: Deployment, a: IngestionSystem.Action)
    requires Enabled(s, SystemActs(a)) && Inv(s)
    ensures StepOk(s, SystemActs(a))
  {
    hide JobOk, SegmentedAt, GroupedAt, SystemInv, IngestionSystem.Ready, IngestionSystem.Step, IsEnabled, StoredBy,
         Succeeds, Moves, StretchOk, RemoteInv, Traced;
    IngestionSafety.StepKeepsInv(s.system, a);
    var s' := Acted(s, a);
    var r, r' := s.system.remote, s'.system.remote;
    StepSucceeds(s.system, a);
    RemoteOk(s.system);
    SucceedsMoves(r, r');
    StepLeavesStore(s.system, a);
    forall o | SegmentOk(s, o)
      ensures SegmentOk(s', o)
    {
      StretchKept(r, r', o.0, s.segments[o], s.sizes.segmentSize);
    }
    forall f | GroupOk(s, f)
      ensures GroupOk(s', f)
    {
      StretchKept(r, r', f, s.groups[f], BlocksInGroup(s.sizes));
    }
    forall j | 0 <= j < |s'.jobs|
      ensures JobOk(s', s'.jobs[j])
    {
      JobKept(s, s', s.jobs[j]);
    }
    StepTraces(s.system, a);
    ReportedStaysBelow(s.system, a);
    MovesForward(r, r');
    InvKept(s, s');
  }

  lemma MovesForward(r: Remote, r': Remote)
    requires Moves(r, r')
    ensures r.finalized <= r'.finalized
  {
  }

  lemma StoresBlockOk(s: Deployment, c: Cursor)
    requires Inv(s)
    ensures StepOk(s, StoresBlock(c))
  {
    hide JobOk, SegmentedAt, GroupedAt, SystemInv, StretchOk, Traced;
    var s' := s.(blocks := s.blocks + {c});
    forall j | 0 <= j < |s'.jobs|
      ensures JobOk(s', s'.jobs[j])
    {
      JobKept(s, s', s.jobs[j]);
    }
    InvKept(s, s');
  }

  /** A new job joins, or one is replaced or ends; everything else stays. */
  lemma JobsOk(s: Deployment, s': Deployment)
    requires Inv(s) && s' == s.(jobs := s'.jobs)
    requires forall j :: 0 <= j < |s'.jobs| ==> s'.jobs[j] in s.jobs || JobOk(s, s'.jobs[j])
    ensures Keeps(s, s') && Inv(s')
  {
    hide SegmentedAt, GroupedAt, StretchOk, JobOk, SegmentOk, GroupOk, SystemInv, Traced;
    SameObjects(s, s');
    forall j | 0 <= j < |s'.jobs|
      ensures JobOk(s', s'.jobs[j])
    {
      assert JobOk(s, s'.jobs[j]);
      JobKept(s, s', s'.jobs[j]);
    }
    InvKept(s, s');
  }

  lemma SameObjects(s: Deployment, s': Deployment)
    requires s' == s.(jobs := s'.jobs, blocks := s'.blocks, segmented := s'.segmented, grouped := s'.grouped,
                        pruned := s'.pruned)
    ensures forall o :: SegmentOk(s, o) ==> SegmentOk(s', o)
    ensures forall f :: GroupOk(s, f) ==> GroupOk(s', f)
  {
  }

  // ------------------------------------------------------------------ jobs start

  /** A lagging view still names an edge below which everything is uploaded. */
  lemma LaggingEdge(s: Deployment, seen: Option<nat>) returns (k: nat)
    requires Inv(s) && Lags(s.sizes, s.sizes.segmentSize, seen, s.segmented)
    ensures NextFirst(s.sizes, seen) == Edge(s.sizes.start, s.sizes.segmentSize, k) && SegmentsBelow(s, k)
  {
    hide JobOk, SegmentOk, AllKept, Edge, SystemInv;
    var z := s.sizes;
    if seen.None? {
      k := 0;
      EdgeStep(z.start, z.segmentSize, 0);
    } else {
      k :| AlignedAt(seen.value, z.start, z.segmentSize, k);
      var m: nat :| SegmentedAt(s, s.segmented.value, m);
      if m < k { EdgeMonotone(z.start, z.segmentSize, m, k); }
    }
  }

  /** What a job reads under the guard lies below the finalized block, and its history is right. */
  lemma TakenOk(r: Remote, first: nat, hashes: seq<Hash>)
    requires first + |hashes| <= r.finalized
    ensures StretchOk(r, first, AsRead(r, first, hashes), |hashes|)
  {
  }

  lemma StartsSegmentOk(s: Deployment, a: Action)
    requires a.StartsSegment? && Enabled(s, a) && Inv(s)
    ensures StepOk(s, a)
  {
    hide Inv, SegmentOk, SegmentsBelow, Loadable, StretchOk, AsRead;
    var k := LaggingEdge(s, a.seen);
    InvFacts(s);
    var first := NextFirst(s.sizes, a.seen);
    TakenOk(s.system.remote, first, HashesAt(s.system.published[a.view].chain, first, s.sizes.segmentSize));
    JobsOk(s, Step(s, a));
  }

  lemma InvFacts(s: Deployment)
    requires Inv(s)
    ensures ValidSizes(s.sizes) && s.fragments >= 1 && ReportedOk(s)
    ensures s.segmented.Some? ==> exists k: nat :: SegmentedAt(s, s.segmented.value, k)
    ensures forall j :: 0 <= j < |s.jobs| ==> JobOk(s, s.jobs[j])
  {
  }

  lemma LaggingGroupEdge(s: Deployment, seen: Option<nat>) returns (k: nat)
    requires Inv(s) && Lags(s.sizes, BlocksInGroup(s.sizes), seen, s.grouped)
    ensures NextFirst(s.sizes, seen) == Edge(s.sizes.start, BlocksInGroup(s.sizes), k) && GroupsBelow(s, k)
  {
    hide JobOk, GroupOk, AllKept, Edge, BlocksInGroup, SystemInv;
    var z := s.sizes;
    GroupIsPositive(z);
    if seen.None? {
      k := 0;
      EdgeStep(z.start, BlocksInGroup(z), 0);
    } else {
      k :| AlignedAt(seen.value, z.start, BlocksInGroup(z), k);
      var m: nat :| GroupedAt(s, s.grouped.value, m);
      if m < k { EdgeMonotone(z.start, BlocksInGroup(z), m, k); }
    }
  }

  /** The segments of a group that lies below `segmented` are all uploaded. */
  lemma GroupSegmentUploaded(s: Deployment, g: nat, j: nat)
    requires Inv(s) && s.segmented.Some? && j < s.sizes.groupSize
    requires Edge(s.sizes.start, BlocksInGroup(s.sizes), g) + BlocksInGroup(s.sizes) <= s.segmented.value
    ensures SegmentOk(s, SegmentObject(s.sizes, Edge(s.sizes.start, BlocksInGroup(s.sizes), g), j))
    ensures SegmentObject(s.sizes, Edge(s.sizes.start, BlocksInGroup(s.sizes), g), j).0 ==
            Edge(s.sizes.start, BlocksInGroup(s.sizes), g) + j * s.sizes.segmentSize
  {
    hide JobOk, SegmentOk, AllKept, GroupsBelow, Edge, BlocksInGroup, SystemInv;
    var z := s.sizes;
    var first := Edge(z.start, BlocksInGroup(z), g);
    EdgeOfGroup(z, g);
    EdgeOfEdge(z.start, z.segmentSize, g * z.groupSize, j);
    EdgeOfEdge(z.start, z.segmentSize, g * z.groupSize, z.groupSize);
    EdgeOfCount(first, z);
    assert Edge(first, z.segmentSize, j) == first + j * z.segmentSize by { EdgeOfSize(first, z.segmentSize, j); }
    var m: nat :| SegmentedAt(s, s.segmented.value, m);
    EdgeOrder(z.start, z.segmentSize, g * z.groupSize + z.groupSize, m);
    assert SegmentsBelow(s, m);
  }

  lemma EdgeOfSize(first: nat, step: nat, j: nat)
    ensures Edge(first, step, j) == first + j * step
  {
  }

  lemma StretchJoins(r: Remote, first: nat, a: Stretch, b: Stretch, m: nat, n: nat)
    requires StretchOk(r, first, a, m) && StretchOk(r, first + m, b, n)
    ensures StretchOk(r, first, Join(a, b), m + n)
  {
    var all := Join(a, b);
    forall i | 0 <= i < m + n
      ensures all.sound[i] <==> OnChain(r, Cursor(first + i, all.hashes[i]))
    {
      if i >= m { assert all.sound[i] == b.sound[i - m] && all.hashes[i] == b.hashes[i - m]; }
    }
  }

  /** Reading a group's segments back gives its blocks. */
  lemma {:induction false} GroupedOk(s: Deployment, first: nat, count: nat)
    requires forall k: nat :: k < count ==>
               SegmentObject(s.sizes, first, k) in s.segments && SegmentOk(s, SegmentObject(s.sizes, first, k))
    requires first <= s.system.remote.finalized
    ensures StretchOk(s.system.remote, first, Grouped(s, first, count), count * s.sizes.segmentSize)
  {
    hide StretchOk;
    if count > 0 {
      var size, r := s.sizes.segmentSize, s.system.remote;
      assert count * size == (count - 1) * size + size;
      assert SegmentOk(s, SegmentObject(s.sizes, first, count - 1));
      GroupedOk(s, first, count - 1);
      StretchJoins(r, first, Grouped(s, first, count - 1), s.segments[SegmentObject(s.sizes, first, count - 1)],
                   (count - 1) * size, size);
    } else {
      NoStretch(s.system.remote, first);
    }
  }

  lemma NoStretch(r: Remote, first: nat)
    requires first <= r.finalized
    ensures StretchOk(r, first, Stretch([], []), 0)
  {
  }

  lemma StartsGroupOk(s: Deployment, seenGrouped: Option<nat>, seenSegmented: nat)
    requires Enabled(s, StartsGroup(seenGrouped, seenSegmented)) && Inv(s)
    ensures StepOk(s, StartsGroup(seenGrouped, seenSegmented))
  {
    hide Inv, StretchOk, GroupsBelow, SegmentsBelow, Edge, Grouped, SegmentOk, SegmentObject;
    var z := s.sizes;
    var g := LaggingGroupEdge(s, seenGrouped);
    var first := NextFirst(z, seenGrouped);
    InvFacts(s);
    forall k: nat | k < z.groupSize
      ensures SegmentOk(s, SegmentObject(z, first, k)) && SegmentObject(z, first, k) in s.segments
    {
      GroupSegmentUploaded(s, g, k);
      SegmentIsThere(s, SegmentObject(z, first, k));
    }
    var m: nat :| SegmentedAt(s, s.segmented.value, m);
    GroupedOk(s, first, z.groupSize);
    JobsOk(s, Step(s, StartsGroup(seenGrouped, seenSegmented)));
  }

  lemma SegmentIsThere(s: Deployment, o: (nat, nat))
    requires SegmentOk(s, o)
    ensures o in s.segments
  {
  }

  lemma StartsPruneOk(s: Deployment)
    requires Enabled(s, StartsPrune) && Inv(s)
    ensures StepOk(s, StartsPrune)
  {
    hide SegmentOk, GroupOk, SegmentedAt, GroupedAt, AllKept, SystemInv;
    JobsOk(s, Step(s, StartsPrune));
  }

  // ------------------------------------------------------------------ objects come and go

  /** The new object is there, and no other is lost. */
  ghost predicate Uploaded(s: Deployment, j: nat) {
    j < |s.jobs| && !s.jobs[j].PruneJob? ==>
      && Keeps(s, Upload(s, j))
      && (s.jobs[j].SegmentJob? ==> SegmentOk(Upload(s, j), (s.jobs[j].first, s.jobs[j].uploaded)))
      && (s.jobs[j].GroupJob? ==> GroupOk(Upload(s, j), s.jobs[j].first))
  }

  lemma UploadKeeps(s: Deployment, j: nat)
    requires Enabled(s, Uploads(j)) && Inv(s)
    ensures Uploaded(s, j)
  {
    hide SegmentedAt, GroupedAt, AllKept, StretchOk, SegmentsBelow, GroupsBelow, SystemInv;
    assert JobOk(s, s.jobs[j]);
  }

  ghost predicate UploadedJob(s: Deployment, j: nat) {
    j < |s.jobs| && !s.jobs[j].PruneJob? ==> JobOk(Upload(s, j), Upload(s, j).jobs[j])
  }

  lemma UploadedJobOk(s: Deployment, j: nat)
    requires Enabled(s, Uploads(j)) && Inv(s)
    ensures UploadedJob(s, j)
  {
    hide SegmentedAt, GroupedAt, AllKept, StretchOk, SegmentOk, GroupOk, Keeps, SegmentsBelow, GroupsBelow, SystemInv;
    UploadKeeps(s, j);
    JobKept(s, Upload(s, j), s.jobs[j]);
  }

  lemma UploadsOk(s: Deployment, j: nat)
    requires Enabled(s, Uploads(j)) && Inv(s)
    ensures StepOk(s, Uploads(j))
  {
    hide SegmentedAt, GroupedAt, StretchOk, JobOk, SegmentOk, GroupOk, SystemInv, Traced, Moves;
    var s' := Step(s, Uploads(j));
    UploadKeeps(s, j);
    UploadedJobOk(s, j);
    forall i | 0 <= i < |s'.jobs|
      ensures JobOk(s', s'.jobs[i])
    {
      if i != j { JobKept(s, s', s.jobs[i]); }
    }
    InvKept(s, s');
  }

  lemma DeletesOk(s: Deployment, j: nat)
    requires Enabled(s, Deletes(j)) && Inv(s)
    ensures StepOk(s, Deletes(j))
  {
    hide SegmentedAt, GroupedAt, StretchOk, SegmentOk, GroupOk, SystemInv, Traced;
    var s' := Step(s, Deletes(j));
    SameObjects(s, s');
    assert JobOk(s, s.jobs[j]);
    forall i | 0 <= i < |s'.jobs|
      ensures JobOk(s', s'.jobs[i])
    {
      if i != j { JobKept(s, s', s.jobs[i]); }
    }
    forall c | Traced(s'.system, c)
      ensures BlockKept(s', c)
    {
      assert BlockKept(s, c);
    }
    InvKept(s, s');
  }

  // ------------------------------------------------------------------ watermarks move

  lemma SegmentWatermarkAt(s: Deployment, job: Job) returns (k: nat)
    requires ValidSizes(s.sizes) && JobOk(s, job) && job.SegmentJob? && job.uploaded == s.fragments
    ensures SegmentedAt(s, job.first + s.sizes.segmentSize - 1, k)
  {
    hide SegmentOk, Edge;
    var j: nat :| job.first == Edge(s.sizes.start, s.sizes.segmentSize, j) && SegmentsBelow(s, j);
    EdgeStep(s.sizes.start, s.sizes.segmentSize, j);
    k := j + 1;
  }

  lemma GroupWatermarkAt(s: Deployment, job: Job) returns (k: nat)
    requires ValidSizes(s.sizes) && JobOk(s, job) && job.GroupJob? && job.uploaded == 1
    ensures BlocksInGroup(s.sizes) >= 1 && GroupedAt(s, job.first + BlocksInGroup(s.sizes) - 1, k)
  {
    hide GroupOk, Edge;
    GroupIsPositive(s.sizes);
    var j: nat :| job.first == Edge(s.sizes.start, BlocksInGroup(s.sizes), j) && GroupsBelow(s, j);
    EdgeStep(s.sizes.start, BlocksInGroup(s.sizes), j);
    k := j + 1;
  }

  /** A step that moves watermarks to values that are covered. */
  lemma InvRaised(s: Deployment, s': Deployment)
    requires Inv(s) && s' == s.(segmented := s'.segmented, grouped := s'.grouped, pruned := s'.pruned, jobs := s'.jobs)
    requires s.segmented.Some? ==> s'.segmented.Some? && s.segmented.value <= s'.segmented.value
    requires s.grouped.Some? ==> s'.grouped.Some? && s.grouped.value <= s'.grouped.value
    requires s'.segmented.Some? && s'.segmented != s.segmented ==> exists k: nat ::
               SegmentedAt(s, s'.segmented.value, k)
    requires s'.grouped.Some? && s'.grouped != s.grouped ==> exists k: nat :: GroupedAt(s, s'.grouped.value, k)
    requires s'.pruned.Some? ==> s'.grouped.Some? && s.sizes.start <= s'.pruned.value <= s'.grouped.value
    requires forall j :: 0 <= j < |s'.jobs| ==> s'.jobs[j] in s.jobs || JobOk(s, s'.jobs[j])
    ensures Keeps(s, s') && Inv(s')
  {
    hide StretchOk, JobOk, SegmentedAt, GroupedAt, SegmentOk, GroupOk, SystemInv, Traced;
    SameObjects(s, s');
    WatermarksKept(s, s');
    forall j | 0 <= j < |s'.jobs|
      ensures JobOk(s', s'.jobs[j])
    {
      assert JobOk(s, s'.jobs[j]);
      JobKept(s, s', s'.jobs[j]);
    }
    forall c | Traced(s'.system, c)
      ensures BlockKept(s', c)
    {
      assert BlockKept(s, c);
    }
    if s'.segmented.Some? {
      var k: nat :| SegmentedAt(s, s'.segmented.value, k);
      assert SegmentedAt(s', s'.segmented.value, k);
    }
    if s'.grouped.Some? {
      var k: nat :| GroupedAt(s, s'.grouped.value, k);
      assert GroupedAt(s', s'.grouped.value, k);
    }
  }

  lemma PutsWatermarkOk(s: Deployment, j: nat)
    requires Enabled(s, PutsWatermark(j)) && Inv(s)
    ensures StepOk(s, PutsWatermark(j))
  {
    hide SegmentOk, GroupOk, SegmentedAt, GroupedAt, AllKept, StretchOk, SystemInv, ReportedOk;
    var job := s.jobs[j];
    assert JobOk(s, job);
    var s' := PutWatermark(s, j);
    match job
    case SegmentJob(_, _, _) =>
      var k := SegmentWatermarkAt(s, job);
      InvRaised(s, s');
    case GroupJob(_, _, _) =>
      var k := GroupWatermarkAt(s, job);
      InvRaised(s, s');
    case PruneJob(_, _, _, _) => InvRaised(s, s');
  }

  lemma EndsOk(s: Deployment, j: nat)
    requires Enabled(s, Ends(j)) && Inv(s)
    ensures StepOk(s, Ends(j))
  {
    hide Inv;
    InvFacts(s);
    JobsOk(s, Step(s, Ends(j)));
  }

  lemma StepKeepsInv(s: Deployment, a: Action)
    requires Enabled(s, a) && Inv(s)
    ensures Ready(s, a) && Keeps(s, Step(s, a)) && Inv(Step(s, a))
  {
    hide Inv, Keeps, Acted, Step, Ready;
    match a
    case SystemActs(action) => SystemActsOk(s, action);
    case StoresBlock(c) => StoresBlockOk(s, c);
    case StartsSegment(_, _, _) => StartsSegmentOk(s, a);
    case StartsGroup(seenGrouped, seenSegmented) => StartsGroupOk(s, seenGrouped, seenSegmented);
    case StartsPrune => StartsPruneOk(s);
    case Uploads(j) => UploadsOk(s, j);
    case PutsWatermark(j) => PutsWatermarkOk(s, j);
    case Deletes(j) => DeletesOk(s, j);
    case Ends(j) => EndsOk(s, j);
  }

  // ------------------------------------------------------------------ whole runs

  ghost predicate Initially(s: Deployment) {
    && ValidSizes(s.sizes) && s.fragments >= 1
    && s.system.options.segmentSize >= 1 && s.sizes.start == s.system.options.startingBlock
    && (exists genesis: BlockInfo ::
        !IsZero(genesis.hash) && s.system == IngestionSystem.Initially(s.system.options, genesis))
    && s == Deployment(s.system, s.sizes, s.fragments, {}, {}, map[], map[], None, None, None, [])
  }

  ghost predicate Leads(s: Deployment, a: Action, s': Deployment) {
    Enabled(s, a) && (Ready(s, a) ==> s' == Step(s, a))
  }

  ghost predicate IsRun(states: seq<Deployment>, actions: seq<Action>) {
    && |states| == |actions| + 1 && Initially(states[0])
    && forall i :: 0 <= i < |actions| ==> Leads(states[i], actions[i], states[i + 1])
  }

  lemma {:induction false} ReachableInv(states: seq<Deployment>, actions: seq<Action>, i: nat)
    requires IsRun(states, actions) && i < |states|
    ensures Inv(states[i]) && (i < |actions| ==> Ready(states[i], actions[i]))
  {
    hide Inv, Enabled, Step, Ready, Keeps, Initially;
    if i == 0 {
      InitiallyInv(states[0]);
    } else {
      ReachableInv(states, actions, i - 1);
      assert Leads(states[i - 1], actions[i - 1], states[i]);
      StepKeepsInv(states[i - 1], actions[i - 1]);
    }
    if i < |actions| {
      assert Leads(states[i], actions[i], states[i + 1]);
      StepKeepsInv(states[i], actions[i]);
    }
  }

  lemma InitiallyInv(s: Deployment)
    requires Initially(s)
    ensures Inv(s)
  {
    var genesis: BlockInfo :| !IsZero(genesis.hash) && s.system == IngestionSystem.Initially(s.system.options, genesis);
    InitiallyOk(s.system.options, genesis);
    hide SystemInv;
  }

  /** `segmented` and `grouped` only rise, an uploaded object stays there, and finality on the remote is for ever. */
  lemma {:induction false} RunKeeps(states: seq<Deployment>, actions: seq<Action>, i: nat, j: nat)
    requires IsRun(states, actions) && i <= j < |states|
    ensures Keeps(states[i], states[j])
    decreases j
  {
    hide Inv, Enabled, Step, Ready, SegmentOk, GroupOk, Initially;
    if i < j {
      RunKeeps(states, actions, i, j - 1);
      ReachableInv(states, actions, j - 1);
      assert Leads(states[j - 1], actions[j - 1], states[j]);
      StepKeepsInv(states[j - 1], actions[j - 1]);
      KeepsOn(states[i], states[j - 1], states[j]);
    }
  }

  lemma KeepsOn(a: Deployment, b: Deployment, c: Deployment)
    requires Keeps(a, b) && Keeps(b, c)
    ensures Keeps(a, c)
  {
    hide SegmentOk, GroupOk, OnChain;
  }

  ghost predicate InOrder(s: Deployment) {
    && ValidSizes(s.sizes)
    && (s.segmented.Some? ==>
          Aligned(s.segmented.value, s.sizes.start, s.sizes.segmentSize)
          && s.segmented.value < s.system.remote.finalized)
    && (s.grouped.Some? ==>
          && Aligned(s.grouped.value, s.sizes.start, BlocksInGroup(s.sizes))
          && s.segmented.Some? && s.grouped.value < s.segmented.value)
    && (s.pruned.Some? ==> s.grouped.Some? && s.pruned.value <= s.grouped.value)
  }

  /** Watermarks are aligned, and pruned <= grouped < segmented < the remote's finalized block. */
  lemma WatermarksInOrder(states: seq<Deployment>, actions: seq<Action>, i: nat)
    requires IsRun(states, actions) && i < |states|
    ensures InOrder(states[i])
  {
    hide Inv, IsRun;
    ReachableInv(states, actions, i);
    InvInOrder(states[i]);
  }

  lemma InvInOrder(s: Deployment)
    requires Inv(s)
    ensures InOrder(s)
  {
    hide SegmentsBelow, GroupsBelow, JobOk, AllKept, SystemInv;
    if s.segmented.Some? {
      var k: nat :| SegmentedAt(s, s.segmented.value, k);
      assert AlignedAt(s.segmented.value, s.sizes.start, s.sizes.segmentSize, k);
    }
    if s.grouped.Some? {
      var k: nat :| GroupedAt(s, s.grouped.value, k);
      assert AlignedAt(s.grouped.value, s.sizes.start, BlocksInGroup(s.sizes), k);
    }
  }
}
