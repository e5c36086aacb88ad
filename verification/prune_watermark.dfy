/**
 * When the `pruned` watermark only rises. It is a plain put of whatever a prune job has reached, so a job that was
 * overtaken lowers it (common/src/compaction/prune.rs).
 */
module PruneWatermark {
  import opened Core
  import opened ChainHistory
  import opened RemoteChain
  import opened IngestionSystem
  import opened Watermarks
  import opened Compaction
  import opened ClientStream
  import opened JointTrace
  import opened StaleRun

  predicate Lowers(s: Deployment, s': Deployment) {
    s.pruned.Some? && (s'.pruned.None? || s'.pruned.value < s.pruned.value)
  }

  predicate PutsPruned(s: Deployment, a: Compaction.Action) {
    a.PutsWatermark? && a.job < |s.jobs| && s.jobs[a.job].PruneJob?
  }

  /** A step lowers it if and only if it is the put of a prune job that has not got past the value stored. */
  lemma StepLowersIff(s: Deployment, a: Compaction.Action)
    requires Compaction.Enabled(s, a) && Inv(s)
    ensures Compaction.Ready(s, a)
    ensures Lowers(s, Compaction.Step(s, a)) <==>
            PutsPruned(s, a) && s.pruned.Some? && s.jobs[a.job].current <= s.pruned.value
  {
    hide Inv, Compaction.Keeps, IngestionSystem.Step, Grouped, AsRead, IsEnabled, StoredBy;
    Compaction.StepKeepsInv(s, a);
  }

  // ------------------------------------------------------------------ one prune job at a time

  /** A prune job that still has heights to delete or a watermark to put. */
  predicate IsOpen(s: Deployment, j: nat) {
    j < |s.jobs| && s.jobs[j].PruneJob? && s.jobs[j].open
  }

  ghost predicate AtMostOne(s: Deployment) {
    forall i: nat, j: nat :: IsOpen(s, i) && IsOpen(s, j) ==> i == j
  }

  /** The job is not behind what is stored, and past it once it has deleted something in its round. */
  predicate Ahead(s: Deployment, j: nat) {
    IsOpen(s, j) ==>
      var job := s.jobs[j];
      && job.left <= s.sizes.segmentSize && (job.left == s.sizes.segmentSize ==> job.current < job.limit)
      && (s.pruned.Some? ==>
            && s.pruned.value <= job.current
            && (job.left < s.sizes.segmentSize ==> s.pruned.value < job.current))
  }

  ghost predicate AllAhead(s: Deployment) {
    forall j: nat :: Ahead(s, j)
  }

  /** Steps that neither put `pruned` nor work on a prune job leave prune jobs where they are, if in another place. */
  lemma QuietKeepsAhead(s: Deployment, a: Compaction.Action, j: nat)
    requires Compaction.Enabled(s, a) && Compaction.Ready(s, a) && AllAhead(s)
    requires !PutsPruned(s, a) && !a.Deletes? && !a.StartsPrune?
    ensures Ahead(Compaction.Step(s, a), j)
  {
    hide IngestionSystem.Step, Grouped, AsRead, IsEnabled, StoredBy, Lags, Loadable;
    assert Ahead(s, if a.Ends? && j >= a.job then j + 1 else j);
  }

  lemma StepKeepsAhead(s: Deployment, a: Compaction.Action)
    requires Compaction.Enabled(s, a) && AtMostOne(s) && AllAhead(s) && Inv(s)
    ensures Compaction.Ready(s, a) && AllAhead(Compaction.Step(s, a)) && !Lowers(s, Compaction.Step(s, a))
  {
    hide Inv, Compaction.Keeps, IngestionSystem.Step, Grouped, AsRead, IsEnabled, StoredBy, Lags, Loadable;
    Compaction.StepKeepsInv(s, a);
    StepLowersIff(s, a);
    forall j: nat
      ensures Ahead(Compaction.Step(s, a), j)
    {
      assert Ahead(s, j);
      if PutsPruned(s, a) || a.Deletes? || a.StartsPrune? {
        if IsOpen(s, j) && PutsPruned(s, a) { assert IsOpen(s, a.job) && j == a.job; }
      } else {
        QuietKeepsAhead(s, a, j);
      }
    }
    if PutsPruned(s, a) { assert Ahead(s, a.job); }
  }

  lemma {:induction false} RunIsAhead(states: seq<Deployment>, actions: seq<Compaction.Action>, i: nat)
    requires Compaction.IsRun(states, actions) && i < |states| && forall k :: 0 <= k < i ==> AtMostOne(states[k])
    ensures AllAhead(states[i])
  {
    hide Inv, Compaction.Enabled, Compaction.Step, Compaction.Ready, AtMostOne;
    if i > 0 {
      RunIsAhead(states, actions, i - 1);
      Compaction.ReachableInv(states, actions, i - 1);
      assert Compaction.Leads(states[i - 1], actions[i - 1], states[i]);
      StepKeepsAhead(states[i - 1], actions[i - 1]);
    }
  }

  /**
   * With one prune job at a time, as the compaction lock has it, `pruned` never falls, whatever the ingester, the
   * remote chain and the other jobs do.
   */
  lemma {:induction false} PrunedRisesAlone(states: seq<Deployment>, actions: seq<Compaction.Action>, i: nat, j: nat)
    requires Compaction.IsRun(states, actions) && i <= j < |states|
    requires forall k :: 0 <= k < j ==> AtMostOne(states[k])
    ensures !Lowers(states[i], states[j])
    decreases j
  {
    hide Inv, Compaction.Enabled, Compaction.Step, Compaction.Ready, AtMostOne, AllAhead;
    if i < j {
      PrunedRisesAlone(states, actions, i, j - 1);
      RunIsAhead(states, actions, j - 1);
      Compaction.ReachableInv(states, actions, j - 1);
      assert Compaction.Leads(states[j - 1], actions[j - 1], states[j]);
      StepKeepsAhead(states[j - 1], actions[j - 1]);
    }
  }

  // ------------------------------------------------------------------ overlapping prune jobs

  /** Where a prune job begins. */
  function From(s: Deployment): nat {
    if s.pruned.Some? then s.pruned.value else s.sizes.start
  }

  /** One round of deletions does not get to the end; a job that begins anew after it would get further. */
  predicate MoreThanARound(s: Deployment) {
    && s.grouped.Some?
    && var end, size := From(s) + s.sizes.segmentSize, s.sizes.segmentSize;
       end < s.grouped.value || (end == s.grouped.value && size >= 2)
  }

  /** A step of a prune job, or the end of a job. */
  predicate IsPrune(s: Deployment, a: ClientAction) {
    a.Acts? && (a.action.StartsPrune? || a.action.Deletes? || PutsPruned(s, a.action) || a.action.Ends?)
  }

  /** A longer trace in which only prune jobs have been at work. */
  ghost predicate PrunesOn(t: Trace, t': Trace) {
    && IsTrace(t) && IsTrace(t') && Continues(t, t')
    && forall k :: |t.actions| <= k < |t'.actions| ==> IsPrune(t'.states[k], t'.actions[k])
  }

  /** Some step since then has lowered `pruned`. */
  ghost predicate HasFallen(t: Trace, t': Trace)
    requires PrunesOn(t, t')
  {
    exists k :: |t.actions| <= k < |t'.actions| && Lowers(t'.states[k], t'.states[k + 1])
  }

  lemma PrunesJoin(t: Trace, u: Trace, v: Trace)
    requires PrunesOn(t, u) && PrunesOn(u, v)
    ensures PrunesOn(t, v)
  {
    hide IsTrace;
    LastClient(u);
    LastClient(v);
    forall k | |t.actions| <= k < |v.actions|
      ensures IsPrune(v.states[k], v.actions[k])
    {
      if k < |u.actions| { assert v.states[k] == u.states[k] && v.actions[k] == u.actions[k]; }
    }
  }

  lemma PruneStep(t: Trace, a: Compaction.Action) returns (t': Trace)
    requires IsTrace(t) && Compaction.Enabled(Now(t), a) && IsPrune(Now(t), Acts(a))
    ensures IsTrace(t') && PrunesOn(t, t') && Compaction.Ready(Now(t), a) && Now(t') == Compaction.Step(Now(t), a)
    ensures t'.actions == t.actions + [Acts(a)]
  {
    hide IsTrace, Now, Compaction.Enabled, Compaction.Step, Compaction.Ready;
    t' := Act(t, a);
    NowIsLast(t);
    LastClient(t');
  }

  /** Where the round under way ends. */
  function RoundEnd(job: Job): nat
    requires job.PruneJob?
  {
    if job.current + job.left <= job.limit then job.current + job.left
    else if job.current <= job.limit then job.limit + 1 else job.current
  }

  /** No object of these heights is left. */
  function WithoutHeights(blocks: set<Cursor>, from: nat, to: nat): set<Cursor> {
    set c | c in blocks && !(from <= c.number < to)
  }

  /** The trace goes on with nothing but deletions of job j, to the end of its round. */
  ghost predicate EndsRound(t: Trace, t': Trace, j: nat) {
    && PrunesOn(t, t') && IsOpen(Now(t), j)
    && var d, d', job := Now(t), Now(t'), Now(t).jobs[j];
       && job.current <= RoundEnd(job) <= job.current + job.left
       && var over := PruneJob(job.limit, RoundEnd(job), job.left - (RoundEnd(job) - job.current), true);
          RoundOver(over) && d' == d.(blocks := WithoutHeights(d.blocks, job.current, RoundEnd(job)),
                                      jobs := d.jobs[j := over])
  }

  lemma {:induction false} FinishRound(t: Trace, j: nat) returns (t': Trace)
    requires IsTrace(t) && IsOpen(Now(t), j)
    ensures IsTrace(t') && EndsRound(t, t', j)
    decreases Now(t).jobs[j].left
  {
    hide IsTrace, Now;
    var d, job := Now(t), Now(t).jobs[j];
    if RoundOver(job) {
      t' := t;
      assert d.jobs[j := job] == d.jobs && WithoutHeights(d.blocks, job.current, job.current) == d.blocks;
    } else {
      var t1 := PruneStep(t, Deletes(j));
      var next := PruneJob(job.limit, job.current + 1, job.left - 1, true);
      assert Now(t1).jobs[j] == next;
      t' := FinishRound(t1, j);
      PrunesJoin(t, t1, t');
      assert RoundEnd(next) == RoundEnd(job);
      assert WithoutHeights(WithoutHeight(d.blocks, job.current), next.current, RoundEnd(job)) ==
             WithoutHeights(d.blocks, job.current, RoundEnd(job));
      assert d.jobs[j := next][j := Now(t').jobs[j]] == d.jobs[j := Now(t').jobs[j]];
    }
  }

  /** Two prune jobs have begun, the first has put its first round and the second is about to. */
  ghost predicate OneIsBehind(t: Trace, t': Trace) {
    && PrunesOn(t, t') && Now(t).grouped.Some?
    && var d, d', n, limit := Now(t), Now(t'), |Now(t).jobs|, Now(t).grouped.value;
       var end := From(d) + d.sizes.segmentSize;
       && 1 <= end <= limit && d' == d.(blocks := d'.blocks, jobs := d'.jobs, pruned := Some(end - 1))
       && d'.jobs == d.jobs + [NextRound(d.sizes, limit, end), PruneJob(limit, end, 0, true)]
  }

  lemma Overlap(t: Trace) returns (t': Trace)
    requires IsTrace(t) && MoreThanARound(Now(t))
    ensures IsTrace(t') && OneIsBehind(t, t')
  {
    hide IsTrace, Now, PrunesOn;
    NowSizes(t);
    var t2 := BothBegin(t);
    var d, n, limit := Now(t), |Now(t).jobs|, Now(t).grouped.value;
    var end, over := From(d) + d.sizes.segmentSize, PruneJob(limit, From(d) + d.sizes.segmentSize, 0, true);
    var t3 := FinishRound(t2, n);
    assert Now(t3).jobs == d.jobs + [over, NextRound(d.sizes, limit, From(d))];
    var t4 := FinishRound(t3, n + 1);
    assert Now(t4).jobs == d.jobs + [over, over];
    t' := PruneStep(t4, PutsWatermark(n));
    assert Now(t').jobs == d.jobs + [NextRound(d.sizes, limit, end), over];
    PrunesJoin(t, t2, t3);
    PrunesJoin(t, t3, t4);
    PrunesJoin(t, t4, t');
  }

  lemma NowSizes(t: Trace)
    requires IsTrace(t)
    ensures ValidSizes(Now(t).sizes)
  {
    hide IsTrace;
    NowInv(t);
    InvFacts(Now(t));
  }

  lemma BothBegin(t: Trace) returns (t': Trace)
    requires IsTrace(t) && Now(t).grouped.Some?
    ensures IsTrace(t') && PrunesOn(t, t')
    ensures var d := Now(t);
            var job := NextRound(d.sizes, d.grouped.value, From(d));
            Now(t') == d.(jobs := d.jobs + [job, job])
  {
    hide IsTrace, Now, PrunesOn;
    var t1 := PruneStep(t, StartsPrune);
    t' := PruneStep(t1, StartsPrune);
    PrunesJoin(t, t1, t');
    var d := Now(t);
    var job := NextRound(d.sizes, d.grouped.value, From(d));
    assert d.jobs + [job] + [job] == d.jobs + [job, job];
  }

  lemma LastFalls(t: Trace, t': Trace, t'': Trace)
    requires PrunesOn(t, t') && PrunesOn(t', t'') && |t''.actions| == |t'.actions| + 1 && Lowers(Now(t'), Now(t''))
    ensures PrunesOn(t, t'') && HasFallen(t, t'')
  {
    hide IsTrace, Now;
    PrunesJoin(t, t', t'');
    NowIsLast(t');
    NowIsLast(t'');
    var k := |t'.actions|;
    assert t''.states[k] == t'.states[k];
  }

  /** The first job goes on to a second round, and the second job puts its first. */
  lemma GoesOn(t: Trace, t0: Trace) returns (t': Trace)
    requires OneIsBehind(t, t0) && From(Now(t)) + Now(t).sizes.segmentSize < Now(t).grouped.value
    ensures PrunesOn(t, t') && HasFallen(t, t')
  {
    hide IsTrace, Now, PrunesOn;
    assert IsTrace(t) && IsTrace(t0) && PrunesOn(t, t0) by { AreTraces(t, t0); }
    NowSizes(t);
    var d, n := Now(t), |Now(t).jobs|;
    var t1 := FinishRound(t0, n);
    var t2 := PruneStep(t1, PutsWatermark(n));
    t' := PruneStep(t2, PutsWatermark(n + 1));
    PrunesJoin(t, t0, t1);
    PrunesJoin(t, t1, t2);
    LastFalls(t, t2, t');
  }

  lemma AreTraces(t: Trace, t0: Trace)
    requires OneIsBehind(t, t0)
    ensures IsTrace(t) && IsTrace(t0) && PrunesOn(t, t0)
  {
  }

  /** A third job begins where the first has ended, gets past it, and the second job puts its round. */
  lemma BeginsAnew(t: Trace, t0: Trace) returns (t': Trace)
    requires OneIsBehind(t, t0) && From(Now(t)) + Now(t).sizes.segmentSize == Now(t).grouped.value
    requires Now(t).sizes.segmentSize >= 2
    ensures PrunesOn(t, t') && HasFallen(t, t')
  {
    hide IsTrace, Now, PrunesOn;
    assert IsTrace(t) && IsTrace(t0) && PrunesOn(t, t0) by { AreTraces(t, t0); }
    var d, n := Now(t), |Now(t).jobs|;
    var t1 := PruneStep(t0, StartsPrune);
    var t2 := FinishRound(t1, n + 2);
    var t3 := PruneStep(t2, PutsWatermark(n + 2));
    t' := PruneStep(t3, PutsWatermark(n + 1));
    PrunesJoin(t, t0, t1);
    PrunesJoin(t, t1, t2);
    PrunesJoin(t, t2, t3);
    LastFalls(t, t3, t');
  }

  /** From every state with more than a round to prune, overlapping prune jobs can lower the watermark. */
  lemma OverlapLowers(t: Trace) returns (t': Trace)
    requires IsTrace(t) && MoreThanARound(Now(t))
    ensures PrunesOn(t, t') && HasFallen(t, t')
  {
    hide IsTrace, Now, PrunesOn, HasFallen, OneIsBehind;
    var t0 := Overlap(t);
    if From(Now(t)) + Now(t).sizes.segmentSize < Now(t).grouped.value {
      t' := GoesOn(t, t0);
    } else {
      t' := BeginsAnew(t, t0);
    }
  }

  // ------------------------------------------------------------------ and only from those

  /** What every prune job puts that begins when no more than a round is left. */
  function RoundPut(d: Deployment): nat
    requires d.grouped.Some? && d.sizes.segmentSize >= 1
  {
    if From(d) + d.sizes.segmentSize <= d.grouped.value then From(d) + d.sizes.segmentSize - 1 else d.grouped.value
  }

  /** An open job is in the one round that leads there. */
  predicate InOneRound(d: Deployment, job: Job) {
    job.PruneJob? && job.open ==>
      && d.grouped == Some(job.limit) && From(d) < job.limit && From(d) <= job.current <= job.limit + 1
      && job.current + job.left == From(d) + d.sizes.segmentSize
  }

  /** From `d`, prune jobs have done nothing but that. */
  ghost predicate OnlyARound(d: Deployment, d': Deployment) {
    && d.sizes.segmentSize >= 1 && d'.sizes == d.sizes && d'.grouped == d.grouped
    && (d'.pruned == d.pruned
        || (d.grouped.Some? && From(d) < d.grouped.value && d'.pruned == Some(RoundPut(d))))
    && forall j :: 0 <= j < |d'.jobs| ==> InOneRound(d, d'.jobs[j])
  }

  lemma StepStaysInARound(d: Deployment, d': Deployment, a: Compaction.Action)
    requires !MoreThanARound(d) && OnlyARound(d, d') && Compaction.Enabled(d', a) && IsPrune(d', Acts(a))
    requires Compaction.Ready(d', a)
    ensures OnlyARound(d, Compaction.Step(d', a)) && !Lowers(d', Compaction.Step(d', a))
  {
    hide BlocksInGroup;
    var after := Compaction.Step(d', a);
    if !a.StartsPrune? { assert InOneRound(d, d'.jobs[a.job]); }
  }

  lemma {:induction false} StaysInARound(t: Trace, t': Trace, k: nat)
    requires PrunesOn(t, t') && !MoreThanARound(Now(t)) && (forall j: nat :: !IsOpen(Now(t), j))
    requires |t.actions| <= k <= |t'.actions|
    ensures k < |t'.states| && OnlyARound(Now(t), t'.states[k])
    ensures k < |t'.actions| ==> !Lowers(t'.states[k], t'.states[k + 1])
    decreases k
  {
    hide Inv, MoreThanARound, OnlyARound, Compaction.Enabled, Compaction.Ready, Compaction.Step, Compaction.Keeps,
         Compaction.Initially, ClientEnabled, ClientStep, InOneRound;
    if k == |t.actions| {
      NowIsLast(t);
      NowSizes(t);
      assert OnlyARound(Now(t), Now(t)) by { NothingDone(Now(t)); }
    } else {
      StaysInARound(t, t', k - 1);
      RoundStep(t, t', k - 1);
    }
    if k < |t'.actions| { RoundStep(t, t', k); }
  }

  lemma NothingDone(d: Deployment)
    requires ValidSizes(d.sizes) && forall j: nat :: !IsOpen(d, j)
    ensures OnlyARound(d, d)
  {
    forall j | 0 <= j < |d.jobs|
      ensures InOneRound(d, d.jobs[j])
    {
      assert !IsOpen(d, j);
    }
  }

  lemma RoundStep(t: Trace, t': Trace, k: nat)
    requires PrunesOn(t, t') && |t.actions| <= k < |t'.actions| && k + 1 < |t'.states|
    requires !MoreThanARound(Now(t)) && OnlyARound(Now(t), t'.states[k])
    ensures OnlyARound(Now(t), t'.states[k + 1]) && !Lowers(t'.states[k], t'.states[k + 1])
  {
    hide Inv, MoreThanARound, OnlyARound, Compaction.Enabled, Compaction.Ready, Compaction.Step, Compaction.Keeps,
         Compaction.Initially, ClientEnabled, ClientStep;
    DeploymentInv(t'.states, t'.clients, t'.actions, k);
    assert ClientLeads(t'.states[k], t'.clients[k], t'.actions[k], t'.states[k + 1], t'.clients[k + 1]);
    assert IsPrune(t'.states[k], t'.actions[k]);
    Compaction.StepKeepsInv(t'.states[k], t'.actions[k].action);
    StepStaysInARound(Now(t), t'.states[k], t'.actions[k].action);
  }

  /**
   * Exactly when: from a state without a prune job under way, prune jobs alone, any number of them and however they
   * overlap, can lower `pruned` if and only if more than a round is left to prune.
   */
  lemma OverlapLowersIff(t: Trace)
    requires IsTrace(t) && forall j: nat :: !IsOpen(Now(t), j)
    ensures (exists t' :: PrunesOn(t, t') && HasFallen(t, t')) <==> MoreThanARound(Now(t))
  {
    hide IsTrace, Now, PrunesOn, MoreThanARound, HasFallen;
    if MoreThanARound(Now(t)) {
      var t' := OverlapLowers(t);
    } else if t' :| PrunesOn(t, t') && HasFallen(t, t') {
      NeverFalls(t, t');
    }
  }

  lemma NeverFalls(t: Trace, t': Trace)
    requires PrunesOn(t, t') && !MoreThanARound(Now(t)) && forall j: nat :: !IsOpen(Now(t), j)
    ensures !HasFallen(t, t')
  {
    hide IsTrace, Now, MoreThanARound, Lowers;
    LastClient(t');
    forall k | |t.actions| <= k < |t'.actions|
      ensures !Lowers(t'.states[k], t'.states[k + 1])
    {
      StaysInARound(t, t', k);
    }
  }

  // ------------------------------------------------------------------ a whole run

  /** Segments of one block, three to a group. */
  const SINGLE := Sizes(0, 1, 3)

  /** What compaction has to read: the blocks up to the fourth of the published chain. */
  ghost predicate ReadyToCompact(f: Fork, d: Deployment)
    requires ValidFork(f)
  {
    && d.sizes == SINGLE && d.fragments == 1 && d.jobs == [] && d.grouped == None && d.pruned == None
    && 4 in d.reported && d.system.published != [] && Shows(Last(d.system.published), [f.zero] + f.stale)
    && AllStored(d, [f.zero] + f.stale)
  }

  /** The first `k` blocks are segmented. */
  function SegmentedTo(k: nat): Option<nat> {
    if k == 0 then None else Some(k - 1)
  }

  lemma ReadsNext(f: Fork, d: Deployment, k: nat)
    requires ValidFork(f) && ReadyToCompact(f, d) && k < 4 && d.segmented == SegmentedTo(k)
    ensures Compaction.Enabled(d, StartsSegment(|d.system.published| - 1, SegmentedTo(k), 4))
  {
    var chain := Last(d.system.published).chain;
    if k > 0 { assert AlignedAt(k - 1, 0, 1, k); }
    assert HashesAt(chain, k, 1)[0] == ([f.zero] + f.stale)[k];
  }

  lemma {:induction false} SegmentUpTo(t: Trace, f: Fork, k: nat) returns (t': Trace)
    requires IsTrace(t) && ValidFork(f) && ReadyToCompact(f, Now(t)) && Now(t).segmented == None && k <= 4
    ensures IsTrace(t') && ReadyToCompact(f, Now(t')) && Now(t').segmented == SegmentedTo(k)
    decreases k
  {
    hide IsTrace, Now, Compaction.Enabled, AsRead, HashesAt, Shows;
    if k == 0 {
      t' := t;
    } else {
      var t1 := SegmentUpTo(t, f, k - 1);
      ReadsNext(f, Now(t1), k - 1);
      t' := SegmentRound(t1, |Now(t1).system.published| - 1, SegmentedTo(k - 1), 4);
    }
  }

  lemma GroupEnabled(d: Deployment)
    requires d.sizes == SINGLE && d.segmented == Some(3) && d.grouped == None
    ensures Compaction.Enabled(d, StartsGroup(None, 3)) && BlocksInGroup(d.sizes) == 3
  {
    assert AlignedAt(3, 0, 1, 4);
  }

  /** A run of the whole deployment from its first start, for every fork, in which `pruned` falls. */
  lemma APrunedWatermarkFalls(f: Fork) returns (t: Trace, t': Trace)
    requires ValidFork(f)
    ensures PrunesOn(t, t') && HasFallen(t, t')
  {
    hide IsTrace, Now, PrunesOn, HasFallen, Compaction.Enabled, Shape, Shows, RemoteInv, IsChain;
    var t0 := RunToStale(f, SINGLE);
    var t1 := Turn(t0, f);
    assert Now(t1).system.published != [] by { ShapeIsUp(Now(t1).system, [f.zero] + f.stale); }
    var t2 := SegmentUpTo(t1, f, 4);
    GroupEnabled(Now(t2));
    t := GroupRound(t2, None, 3);
    t' := OverlapLowers(t);
  }
}
