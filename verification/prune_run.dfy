/** A prune job that runs alone in the joint system does what the prune loop does (common/src/compaction/prune.rs). */
module PruneRun {
  import opened Core
  import opened Watermarks
  import opened Compaction
  import opened ClientStream
  import opened JointTrace
  import opened PruneWatermark
  import CompactionService

  /** The loop goes on after a round exactly if the limit is not reached. */
  lemma RoundsMeet(z: Sizes, limit: nat, current: nat)
    requires z.segmentSize >= 1 && current < limit
    ensures var end := RoundEnd(NextRound(z, limit, current));
            && current < end <= limit + 1
            && CompactionService.PruneEnd(current, limit, z.segmentSize) ==
               CompactionService.PruneEnd(end, limit, z.segmentSize)
  {
    if current + z.segmentSize <= limit {
      SameMultiple(limit - current, z.segmentSize);
    } else {
      NoMultiple(limit - current, z.segmentSize);
    }
  }

  lemma SameMultiple(d: nat, size: nat)
    requires 1 <= size <= d
    ensures d % size == 0 <==> (d - size) % size == 0
  {
    var k := StretchIndex(d, 0, size);
    EdgeStep(0, size, k);
    CompactionService.MultiplesOf(d, size, k);
    assert k >= 1 && Edge(0, size, k) == Edge(0, size, k - 1) + size by { if k >= 1 { EdgeStep(0, size, k - 1); } }
    CompactionService.MultiplesOf(d - size, size, k - 1);
  }

  lemma NoMultiple(d: nat, size: nat)
    requires 0 < d < size
    ensures d % size != 0
  {
    CompactionService.MultiplesOf(d, size, 0);
  }

  /** All rounds of job j are over: what is deleted, and what is put. */
  ghost predicate EndsLoop(t: Trace, t': Trace, j: nat) {
    && PrunesOn(t, t') && IsOpen(Now(t), j) && Now(t).sizes.segmentSize >= 1
    && var d, d', job := Now(t), Now(t'), Now(t).jobs[j];
       var end := CompactionService.PruneEnd(job.current, job.limit, d.sizes.segmentSize);
       && end >= 1 && d' == d.(blocks := WithoutHeights(d.blocks, job.current, end), pruned := Some(end - 1),
                               jobs := d.jobs[j := NextRound(d.sizes, job.limit, end)])
  }

  lemma {:induction false} FinishLoop(t: Trace, j: nat) returns (t': Trace)
    requires IsTrace(t) && IsOpen(Now(t), j) && Now(t).jobs[j].current < Now(t).jobs[j].limit
    requires Now(t).jobs[j] == NextRound(Now(t).sizes, Now(t).jobs[j].limit, Now(t).jobs[j].current)
    ensures IsTrace(t') && EndsLoop(t, t', j)
    decreases Now(t).jobs[j].limit - Now(t).jobs[j].current
  {
    hide IsTrace, Now, PrunesOn, CompactionService.PruneEnd;
    NowSizes(t);
    var d, job := Now(t), Now(t).jobs[j];
    var end := RoundEnd(job);
    RoundsMeet(d.sizes, job.limit, job.current);
    var t1 := FinishRound(t, j);
    var t2 := PruneStep(t1, PutsWatermark(j));
    PrunesJoin(t, t1, t2);
    var next := NextRound(d.sizes, job.limit, end);
    assert Now(t2).jobs == d.jobs[j := next];
    if end < job.limit {
      t' := FinishLoop(t2, j);
      PrunesJoin(t, t2, t');
      assert d.jobs[j := next][j := Now(t').jobs[j]] == d.jobs[j := Now(t').jobs[j]];
      GoesFurther(end, job.limit, d.sizes.segmentSize);
      TwoStretches(d.blocks, job.current, end, CompactionService.PruneEnd(end, job.limit, d.sizes.segmentSize));
    } else {
      t' := t2;
      assert CompactionService.PruneEnd(end, job.limit, d.sizes.segmentSize) == end by { AtTheEnd(end, job, d.sizes); }
    }
  }

  lemma AtTheEnd(end: nat, job: Job, z: Sizes)
    requires job.PruneJob? && end >= job.limit && z.segmentSize >= 1
    ensures CompactionService.PruneEnd(end, job.limit, z.segmentSize) == end
  {
  }

  lemma GoesFurther(from: nat, limit: nat, size: nat)
    requires size >= 1
    ensures from <= CompactionService.PruneEnd(from, limit, size)
  {
  }

  lemma TwoStretches(blocks: set<Cursor>, from: nat, middle: nat, to: nat)
    requires from <= middle <= to
    ensures WithoutHeights(WithoutHeights(blocks, from, middle), middle, to) == WithoutHeights(blocks, from, to)
  {
  }

  /**
   * From every state of every run: a prune job that nothing overlaps deletes exactly the heights that the prune loop
   * deletes and leaves `pruned` as the loop does.
   */
  lemma PruneJobIsTheLoop(t: Trace) returns (t': Trace)
    requires IsTrace(t) && Now(t).grouped.Some?
    ensures PrunesOn(t, t') && Now(t).sizes.segmentSize >= 1
    ensures var d, d' := Now(t), Now(t');
            var end := CompactionService.PruneEnd(From(d), d.grouped.value, d.sizes.segmentSize);
            && d'.blocks == WithoutHeights(d.blocks, From(d), end)
            && d'.pruned == (if end > From(d) then Some(end - 1) else d.pruned)
            && d' == d.(blocks := d'.blocks, pruned := d'.pruned, jobs := d'.jobs) && !IsOpen(d', |d.jobs|)
  {
    hide IsTrace, Now, PrunesOn;
    NowSizes(t);
    var d, j := Now(t), |Now(t).jobs|;
    var t1 := PruneStep(t, StartsPrune);
    if From(d) < d.grouped.value {
      t' := FinishLoop(t1, j);
      PrunesJoin(t, t1, t');
    } else {
      t' := t1;
      assert WithoutHeights(d.blocks, From(d), From(d)) == d.blocks;
    }
  }
}
