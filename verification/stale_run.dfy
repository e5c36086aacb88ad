/**
 * A run of the whole deployment in which compaction's guard is not enough: a stale segment is stored, a client that
 * was served from it is refused and then misled, and the canonical block is lost.
 */
module StaleRun {
  import opened Core
  import opened Chain
  import opened Ledgers
  import opened ChainHistory
  import opened RemoteChain
  import opened ChainView
  import opened Ingestion
  import opened IngestionSystem
  import opened IngestionInvariant
  import opened IngestionSafety
  import opened Watermarks
  import opened Compaction
  import opened CompactionSafety
  import opened ClientStream
  import opened JointTrace

  /** Two forks above block 0. */
  datatype Fork = Fork(zero: Hash, stale: seq<Hash>, live: seq<Hash>)

  predicate Distinct(hashes: seq<Hash>) {
    forall i, j :: 0 <= i < j < |hashes| ==> hashes[i] != hashes[j]
  }

  predicate ValidFork(f: Fork) {
    && |f.stale| == |f.live| == 4 && Distinct([f.zero] + f.stale + f.live)
    && forall h :: h in [f.zero] + f.stale + f.live ==> !IsZero(h)
  }

  const OPTIONS := Options(10, 100, 1, 0)
  const SIZES := Sizes(0, 2, 1)

  function Genesis(f: Fork): BlockInfo { BlockInfo(0, f.zero, []) }

  // ------------------------------------------------------------------ the remote chain

  /** Hashes that can be taken for new blocks, one after the other. */
  ghost predicate Unused(r: Remote, hashes: seq<Hash>) {
    Distinct(hashes) && forall h :: h in hashes ==> h !in r.parent && !IsZero(h)
  }

  lemma AdvanceFacts(r: Remote, hash: Hash)
    requires RemoteInv(r) && hash !in r.parent && !IsZero(hash)
    ensures r.head in r.canonical
    ensures var r' := AdvanceHead(r, hash);
            && RemoteInv(r') && r'.head == r.head + 1 && r'.finalized == r.finalized
            && (forall h :: h in r'.parent <==> h in r.parent || h == hash)
            && forall n: nat :: n <= r.head + 1 ==>
              n in r'.canonical && r'.canonical[n] == if n <= r.head then r.canonical[n] else hash
  {
    NextKeepsInv(r, Advance(hash));
  }

  /** The remote chain begins with these blocks. */
  ghost predicate Has(r: Remote, hashes: seq<Hash>) {
    forall n :: 0 <= n < |hashes| ==> n in r.canonical && r.canonical[n] == hashes[n]
  }

  /** The blocks of a chain up to its head. */
  ghost predicate IsChain(r: Remote, hashes: seq<Hash>) {
    |hashes| == r.head + 1 && Has(r, hashes)
  }

  ghost function Advanced(r: Remote, hashes: seq<Hash>): (r': Remote)
    requires RemoteInv(r) && Unused(r, hashes)
    ensures RemoteInv(r') && r'.head == r.head + |hashes| && r'.finalized == r.finalized
    ensures forall h :: h in r'.parent <==> h in r.parent || h in hashes
    decreases |hashes|
  {
    if hashes == [] then r
    else
      var init, last := hashes[..|hashes| - 1], hashes[|hashes| - 1];
      assert hashes == init + [last];
      var before := Advanced(r, init);
      AdvanceFacts(before, last);
      AdvanceHead(before, last)
  }

  lemma ChainAdvances(r: Remote, hashes: seq<Hash>, hash: Hash)
    requires RemoteInv(r) && hash !in r.parent && !IsZero(hash) && IsChain(r, hashes)
    ensures r.head in r.canonical && IsChain(AdvanceHead(r, hash), hashes + [hash])
  {
    hide RemoteInv;
    AdvanceFacts(r, hash);
  }

  lemma {:induction false} AdvancedChain(r: Remote, hashes: seq<Hash>, more: seq<Hash>)
    requires RemoteInv(r) && Unused(r, more) && IsChain(r, hashes)
    ensures IsChain(Advanced(r, more), hashes + more)
    decreases |more|
  {
    hide RemoteInv, IsChain;
    if more == [] {
      assert hashes + more == hashes;
    } else {
      var init, last := more[..|more| - 1], more[|more| - 1];
      assert more == init + [last];
      AdvancedChain(r, hashes, init);
      ChainAdvances(Advanced(r, init), hashes + init, last);
      assert hashes + more == hashes + init + [last];
    }
  }

  lemma MoveRemote(t: Trace, action: RemoteAction) returns (t': Trace)
    requires IsTrace(t) && RemoteChain.Enabled(Now(t).system.remote, action)
    ensures IsTrace(t') && Continues(t, t') && Who(t') == Who(t) && RemoteInv(Now(t).system.remote)
    ensures Now(t') == Now(t).(system := Now(t).system.(remote := Next(Now(t).system.remote, action)))
  {
    hide IsTrace, Now, Who, RemoteInv, IngestionSystem.Ready, StoredBy, SystemInv, Next;
    NowReady(t);
    RemoteOk(Now(t).system);
    QuietStores(Now(t).system, RemoteMoves(action));
    t' := ActQuietly(t, RemoteMoves(action));
    assert Now(t).blocks + {} == Now(t).blocks;
  }

  lemma {:induction false} AdvanceAll(t: Trace, hashes: seq<Hash>) returns (t': Trace)
    requires IsTrace(t) && RemoteInv(Now(t).system.remote) && Unused(Now(t).system.remote, hashes)
    ensures IsTrace(t') && Continues(t, t') && Who(t') == Who(t)
    ensures Now(t') == Now(t).(system := Now(t).system.(remote := Advanced(Now(t).system.remote, hashes)))
    decreases |hashes|
  {
    hide IsTrace, Now, Who, RemoteInv;
    if hashes == [] {
      t' := t;
    } else {
      var init, last := hashes[..|hashes| - 1], hashes[|hashes| - 1];
      var t1 := AdvanceAll(t, init);
      t' := MoveRemote(t1, Advance(last));
    }
  }

  // ------------------------------------------------------------------ the ingester follows a chain

  /** The service is idle with this chain, all of it in its builder. */
  ghost predicate Shape(s: System, hashes: seq<Hash>) {
    && hashes != [] && Idle(s) && s.options == OPTIONS && Unsplit(s) && s.phase.chain.hashes == hashes
    && s.phase.count == 0
    && s.phase.service.builder.info.last == Cursor(|hashes| - 1, hashes[|hashes| - 1])
    && s.phase.state.lastIngested == s.phase.service.builder.info.last && s.dropped == {} && s.published != []
  }

  /** A publication of this chain. */
  ghost predicate Shows(p: Publication, hashes: seq<Hash>) {
    hashes != [] && p.chain.first == 0 && p.chain.hashes == hashes && p.snapshot.info.last.number == |hashes| - 1
  }

  lemma ShapeCanIngest(s: System, hashes: seq<Hash>, h: Hash)
    requires Shape(s, hashes) && RemoteInv(s.remote) && Has(s.remote, hashes + [h]) && |hashes| < 50
             && s.phase.state.head.number != |hashes|
    ensures CanIngest(s, BlockInfo(|hashes|, h, hashes[|hashes| - 1]))
  {
    var n := |hashes|;
    assert s.remote.canonical[n] == (hashes + [h])[n] == h
           && s.remote.canonical[n - 1] == (hashes + [h])[n - 1] == hashes[n - 1];
  }

  lemma ShapeGrows(s: System, hashes: seq<Hash>, h: Hash)
    requires Shape(s, hashes) && IngestionSystem.Ready(s)
    ensures var b := BlockInfo(|hashes|, h, hashes[|hashes| - 1]);
            && CanGrow(s.phase.service.builder, b)
            && var after := AfterIngest(s, b);
               && Shape(after, hashes + [h]) && after.remote == s.remote && after.store.finalized == s.store.finalized
               && after.phase.state.finalized == s.phase.state.finalized
               && after.phase.state.head == Cursor(|hashes|, h)
               && s.published <= after.published
               && (|hashes| >= s.phase.state.finalized.number ==> Shows(Last(after.published), hashes + [h]))
  {
    hide RemoteInv, Ascending, PastTheEnd, WithReorgs;
  }

  /** Compaction's own state stays, and no block object goes. */
  ghost predicate SameCompaction(d: Deployment, d': Deployment) {
    d' == d.(system := d'.system, blocks := d'.blocks) && d.blocks <= d'.blocks
  }

  ghost predicate Followed(d: Deployment, d': Deployment, hashes: seq<Hash>, all: seq<Hash>) {
    var s, s' := d.system, d'.system;
    && s.phase.Up? && s.phase.state.Ingest? && hashes <= all && SameCompaction(d, d') && Shape(s', all)
    && s'.remote == s.remote && s'.store.finalized == s.store.finalized
    && s'.phase.state.finalized == s.phase.state.finalized && s.published <= s'.published
    && (if all == hashes then d' == d else s'.phase.state.head == Cursor(|all| - 1, all[|all| - 1]))
    && (forall n :: |hashes| <= n < |all| ==> Cursor(n, all[n]) in d'.blocks)
    && (|all| > |hashes| && |all| > s.phase.state.finalized.number ==> Shows(Last(s'.published), all))
  }

  lemma FollowOne(t: Trace, hashes: seq<Hash>, h: Hash) returns (t': Trace)
    requires IsTrace(t) && Shape(Now(t).system, hashes) && Has(Now(t).system.remote, hashes + [h]) && |hashes| < 50
    requires Now(t).system.phase.state.head.number != |hashes|
    ensures IsTrace(t') && Continues(t, t') && Who(t') == Who(t) && Followed(Now(t), Now(t'), hashes, hashes + [h])
  {
    hide IsTrace, Now, Who, Shape, IngestionSystem.Ready, SystemInv, CanIngest, AfterIngest, CanGrow, Has, Shows,
         RemoteInv;
    NowReady(t);
    RemoteOk(Now(t).system);
    assert hashes != [] by { ShapeIsUp(Now(t).system, hashes); }
    ShapeCanIngest(Now(t).system, hashes, h);
    ShapeIsUp(Now(t).system, hashes);
    ShapeGrows(Now(t).system, hashes, h);
    t' := IngestOne(t, BlockInfo(|hashes|, h, hashes[|hashes| - 1]));
  }

  lemma ShapeIsUp(s: System, hashes: seq<Hash>)
    requires Shape(s, hashes)
    ensures hashes != [] && s.phase.Up? && s.phase.state.Ingest? && s.published != []
  {
  }

  lemma FollowedOn(d: Deployment, d1: Deployment, d2: Deployment, hashes: seq<Hash>, next: seq<Hash>, all: seq<Hash>)
    requires Followed(d, d1, hashes, next) && Followed(d1, d2, next, all) && |next| > |hashes|
    ensures Followed(d, d2, hashes, all)
  {
    hide Shape, Shows;
    forall n | |hashes| <= n < |all|
      ensures Cursor(n, all[n]) in d2.blocks
    {
      if n < |next| { assert next[n] == all[n]; }
    }
  }

  lemma {:induction false} Follow(t: Trace, hashes: seq<Hash>, all: seq<Hash>) returns (t': Trace)
    requires IsTrace(t) && Shape(Now(t).system, hashes) && hashes <= all && Has(Now(t).system.remote, all)
             && |all| <= 50
    requires Now(t).system.phase.state.head.number != |hashes|
    ensures IsTrace(t') && Continues(t, t') && Who(t') == Who(t) && Followed(Now(t), Now(t'), hashes, all)
    decreases |all| - |hashes|
  {
    hide IsTrace, Now, Who, Shape, Shows;
    ShapeIsUp(Now(t).system, hashes);
    if hashes == all {
      t' := t;
    } else {
      var next := all[..|hashes| + 1];
      assert next == hashes + [all[|hashes|]];
      var t1 := FollowOne(t, hashes, all[|hashes|]);
      ShapeIsUp(Now(t1).system, next);
      t' := Follow(t1, next, all);
      FollowedOn(Now(t), Now(t1), Now(t'), hashes, next, all);
    }
  }

  // ------------------------------------------------------------------ the stale chain is published

  function First(f: Fork): Builder {
    Building(None, SegmentInfo(Cursor(0, f.zero), Cursor(0, f.zero)), [f.zero], map[])
  }

  ghost function Started(f: Fork, r: Remote): System {
    var zero := Cursor(0, f.zero);
    System(OPTIONS, r, Store(map[], [], None, Some(0)),
           Up(Service(First(f), []), Ingest(zero, zero, zero, 0, DEFAULT_PENDING), None, 0, OfBuilder(First(f)),
              {zero}),
           Publish(CurrentSegment(First(f)).value), [], {})
  }

  ghost function Blank(f: Fork, r: Remote, z: Sizes): Deployment {
    Deployment(IngestionSystem.Initially(OPTIONS, Genesis(f)).(remote := r), z, 1, {}, {}, map[], map[], None, None,
               None, [])
  }

  lemma StartSteps(f: Fork, r: Remote)
    requires RemoteInv(r) && 0 in r.canonical && r.canonical[0] == f.zero
    ensures var s, a := IngestionSystem.Initially(OPTIONS, Genesis(f)).(remote := r),
            Starts(Cursor(0, f.zero), Cursor(0, f.zero));
            && IsEnabled(s, a) && Honest(r, a)
            && (IngestionSystem.Ready(s) ==>
                IngestionSystem.Step(s, a) == Started(f, r) && StoredBy(s, a) == {Cursor(0, f.zero)})
  {
    hide RemoteInv, CurrentSegment;
  }

  lemma StartedShape(f: Fork, r: Remote)
    requires !IsZero(f.zero)
    ensures var s := Published(Started(f, r), CurrentSegment(First(f)).value);
            Shape(s, [f.zero]) && Shows(Last(s.published), [f.zero]) && s.remote == r && s.store.finalized == Some(0)
            && s.phase.state.finalized.number == 0 && s.phase.state.head.number == 0
  {
    hide Ascending, PastTheEnd, WithReorgs;
  }

  /** Compaction has not begun. */
  ghost predicate Untouched(d: Deployment) {
    d == Deployment(d.system, d.sizes, 1, d.reported, d.blocks, map[], map[], None, None, None, [])
  }

  ghost predicate AllStored(d: Deployment, hashes: seq<Hash>) {
    forall n :: 0 <= n < |hashes| ==> Cursor(n, hashes[n]) in d.blocks
  }

  lemma StartFrom(t: Trace, f: Fork) returns (t': Trace)
    requires IsTrace(t) && ValidFork(f) && Now(t) == Blank(f, Now(t).system.remote, Now(t).sizes)
             && RemoteInv(Now(t).system.remote)
    requires 0 in Now(t).system.remote.canonical && Now(t).system.remote.canonical[0] == f.zero
    ensures IsTrace(t') && Who(t') == Who(t) && Untouched(Now(t')) && Now(t').blocks == {Cursor(0, f.zero)}
    ensures Now(t').sizes == Now(t).sizes
    ensures Now(t').system == Published(Started(f, Now(t).system.remote), CurrentSegment(First(f)).value)
  {
    hide IsTrace, Now, Who, IngestionSystem.Ready, IsEnabled, IngestionSystem.Step, StoredBy, RemoteInv, CurrentSegment;
    var r := Now(t).system.remote;
    StartSteps(f, r);
    var t1 := ActSystem(t, Starts(Cursor(0, f.zero), Cursor(0, f.zero)));
    t' := LandAll(t1, CurrentSegment(First(f)).value);
  }

  lemma InitialTrace(f: Fork, z: Sizes) returns (t: Trace)
    requires ValidFork(f) && ValidSizes(z) && z.start == 0
    ensures IsTrace(t) && Who(t) == None && Now(t) == Blank(f, NewChain(Genesis(f)), z)
  {
    t := Trace([Blank(f, NewChain(Genesis(f)), z)], [None], []);
    assert f.zero in [f.zero] + f.stale + f.live;
    assert Compaction.Initially(t.states[0]);
  }

  lemma ForkParts(f: Fork)
    requires ValidFork(f)
    ensures !IsZero(f.zero) && Distinct(f.stale) && Distinct(f.live)
    ensures forall h :: h in f.stale ==> !IsZero(h) && h != f.zero && h !in f.live
    ensures forall h :: h in f.live ==> !IsZero(h) && h != f.zero
  {
    var all := [f.zero] + f.stale + f.live;
    assert all[0] == f.zero && f.zero in all;
    forall i | 0 <= i < 4
      ensures all[1 + i] == f.stale[i] && all[5 + i] == f.live[i]
    {
    }
    forall i, j | 0 <= i < j < 4
      ensures f.stale[i] != f.stale[j] && f.live[i] != f.live[j]
    {
      assert all[1 + i] != all[1 + j] && all[5 + i] != all[5 + j];
    }
    forall i, j | 0 <= i < 4 && 0 <= j < 4
      ensures f.stale[i] != f.live[j] && f.stale[i] != f.zero && f.live[j] != f.zero
    {
      assert all[1 + i] != all[5 + j] && all[0] != all[1 + i] && all[0] != all[5 + j];
    }
  }

  lemma LiveDiffers(f: Fork, i: nat)
    requires ValidFork(f) && i < 4
    ensures f.stale[i] != f.live[i]
  {
    var all := [f.zero] + f.stale + f.live;
    assert all[1 + i] == f.stale[i] && all[5 + i] == f.live[i];
  }

  /** The stale chain is ingested and published, and compaction has not begun. */
  ghost predicate StalePublished(f: Fork, d: Deployment)
    requires ValidFork(f)
  {
    var s, hashes := d.system, [f.zero] + f.stale;
    && Shape(s, hashes) && Shows(Last(s.published), hashes) && IsChain(s.remote, hashes) && s.remote.finalized == 0
    && RemoteInv(s.remote)
    && (forall h :: h in s.remote.parent <==> h == f.zero || h in f.stale)
    && s.store.finalized == Some(0) && s.phase.state.finalized.number == 0
    && s.phase.state.head == Cursor(4, f.stale[3])
    && Untouched(d) && AllStored(d, hashes)
  }

  /** The service has published block 0 on a remote chain with the stale blocks. */
  ghost predicate ZeroPublished(f: Fork, d: Deployment) {
    var s := d.system;
    && Shape(s, [f.zero]) && Shows(Last(s.published), [f.zero]) && RemoteInv(s.remote)
    && IsChain(s.remote, [f.zero] + f.stale) && s.remote.finalized == 0
    && (forall h :: h in s.remote.parent <==> h == f.zero || h in f.stale)
    && s.store.finalized == Some(0) && s.phase.state.finalized.number == 0 && s.phase.state.head.number == 0
    && Untouched(d) && d.blocks == {Cursor(0, f.zero)}
  }

  lemma RunToZero(f: Fork, z: Sizes) returns (t: Trace)
    requires ValidFork(f) && ValidSizes(z) && z.start == 0
    ensures IsTrace(t) && Who(t) == None && ZeroPublished(f, Now(t)) && Now(t).sizes == z
  {
    hide IsTrace, Now, Who, RemoteInv, Shape, Shows, Published, CurrentSegment, Distinct, Started, Advanced;
    ForkParts(f);
    var genesis := NewChain(Genesis(f));
    NewChainInv(Genesis(f));
    var t0 := InitialTrace(f, z);
    var t1 := AdvanceAll(t0, f.stale);
    AdvancedChain(genesis, [f.zero], f.stale);
    assert ([f.zero] + f.stale)[0] == f.zero;
    t := StartFrom(t1, f);
    StartedShape(f, Advanced(genesis, f.stale));
  }

  lemma RunToStale(f: Fork, z: Sizes) returns (t: Trace)
    requires ValidFork(f) && ValidSizes(z) && z.start == 0
    ensures IsTrace(t) && Who(t) == None && StalePublished(f, Now(t)) && Now(t).sizes == z
  {
    hide IsTrace, Now, Who, RemoteInv, Shape, Shows;
    var t1 := RunToZero(f, z);
    t := Follow(t1, [f.zero], [f.zero] + f.stale);
  }

  // ------------------------------------------------------------------ the remote turns away and finalizes

  /**
   * The remote chain is the live one, final up to block 4; the ingester has not noticed but for the finalized number.
   */
  ghost predicate HasTurned(f: Fork, d: Deployment)
    requires ValidFork(f)
  {
    var s, hashes := d.system, [f.zero] + f.stale;
    && Shape(s, hashes) && Shows(Last(s.published), hashes) && IsChain(s.remote, [f.zero] + f.live)
    && s.remote.finalized == 4 && RemoteInv(s.remote)
    && s.store.finalized == Some(4) && 4 in d.reported && s.phase.state.finalized.number == 4
    && s.phase.state.head == Cursor(4, f.stale[3])
    && Untouched(d) && AllStored(d, hashes)
  }

  lemma TurnRemote(f: Fork, r: Remote)
    requires ValidFork(f) && RemoteInv(r) && IsChain(r, [f.zero] + f.stale) && r.finalized == 0
    requires forall h :: h in r.parent <==> h == f.zero || h in f.stale
    ensures RemoteChain.Enabled(r, Reorganize(0))
    ensures var r' := Next(r, Reorganize(0));
            && RemoteInv(r') && Unused(r', f.live) && r'.finalized == 0 && IsChain(r', [f.zero])
  {
    ForkParts(f);
    NextKeepsInv(r, Reorganize(0));
    assert ([f.zero] + f.stale)[0] == f.zero;
  }

  lemma FinalizeAll(r: Remote, hashes: seq<Hash>)
    requires RemoteInv(r) && IsChain(r, hashes) && r.head == 4 && r.finalized == 0
    ensures RemoteChain.Enabled(r, Finalize(4))
    ensures var r' := Next(r, Finalize(4)); RemoteInv(r') && IsChain(r', hashes) && r'.finalized == 4
  {
    NextKeepsInv(r, Finalize(4));
  }

  lemma TurnAway(t: Trace, f: Fork) returns (t': Trace)
    requires IsTrace(t) && ValidFork(f) && StalePublished(f, Now(t))
    ensures IsTrace(t') && Who(t') == Who(t)
    ensures var r := Now(t').system.remote; RemoteInv(r) && IsChain(r, [f.zero] + f.live) && r.finalized == 4
    ensures Now(t') == Now(t).(system := Now(t).system.(remote := Now(t').system.remote))
  {
    hide IsTrace, Now, Who, RemoteInv, Shape, Shows, Next, IsChain;
    TurnRemote(f, Now(t).system.remote);
    var t1 := MoveRemote(t, Reorganize(0));
    var t2 := AdvanceAll(t1, f.live);
    AdvancedChain(Now(t1).system.remote, [f.zero], f.live);
    HeadIsFour(f, Now(t2).system.remote);
    FinalizeAll(Now(t2).system.remote, [f.zero] + f.live);
    t' := MoveRemote(t2, Finalize(4));
  }

  lemma HeadIsFour(f: Fork, r: Remote)
    requires ValidFork(f) && IsChain(r, [f.zero] + f.live)
    ensures r.head == 4
  {
  }

  /** The ingester learns of the finalized number. */
  ghost function Learned(s: System, finalized: Cursor): System
    requires s.phase.Up? && s.phase.state.Ingest?
  {
    var was := s.phase.state;
    s.(phase := s.phase.(state := Ingest(finalized, was.head, was.lastIngested, was.queued, was.pending)),
       store := s.store.(finalized := Some(finalized.number)))
  }

  lemma FinalizedTickStep(s: System, finalized: Cursor)
    requires Idle(s) && s.phase.state.finalized.number <= finalized.number
    ensures IsEnabled(s, FinalizedTick(finalized))
    ensures IngestionSystem.Ready(s) ==> IngestionSystem.Step(s, FinalizedTick(finalized)) == Learned(s, finalized)
  {
    hide IngestionSystem.Ready;
  }

  lemma LearnedShape(s: System, hashes: seq<Hash>, finalized: Cursor)
    requires Shape(s, hashes)
    ensures Idle(s) && Shape(Learned(s, finalized), hashes)
            && s.phase.state.head == Learned(s, finalized).phase.state.head
  {
  }

  lemma Turn(t: Trace, f: Fork) returns (t': Trace)
    requires IsTrace(t) && ValidFork(f) && StalePublished(f, Now(t))
    ensures IsTrace(t') && Who(t') == Who(t) && HasTurned(f, Now(t')) && Now(t').sizes == Now(t).sizes
  {
    hide IsTrace, Now, Who, RemoteInv, Shape, Shows, IsChain, IngestionSystem.Ready, IngestionSystem.Step, IsEnabled,
         StoredBy, Idle;
    var t1 := TurnAway(t, f);
    var s, finalized := Now(t1).system, Cursor(4, f.live[3]);
    ShapeKeepsRemote(Now(t).system, s.remote, [f.zero] + f.stale);
    LearnedShape(s, [f.zero] + f.stale, finalized);
    ShapeIsUp(s, [f.zero] + f.stale);
    FinalizedTickStep(s, finalized);
    QuietStoresFor(s, FinalizedTick(finalized));
    t' := ActSystem(t1, FinalizedTick(finalized));
  }

  lemma ShapeKeepsRemote(s: System, r: Remote, hashes: seq<Hash>)
    requires Shape(s, hashes)
    ensures Shape(s.(remote := r), hashes)
  {
  }

  lemma QuietStoresFor(s: System, a: IngestionSystem.Action)
    requires IsEnabled(s, a) && a.FinalizedTick?
    ensures IngestionSystem.Ready(s) ==> StoredBy(s, a) == {}
  {
  }

  // ------------------------------------------------------------------ compaction takes the stale blocks

  /** A segment job runs from its start to its end. */
  ghost function WithSegment(d: Deployment, first: nat, read: Stretch): Deployment
    requires d.sizes.segmentSize >= 1
  {
    d.(segments := d.segments[(first, 0) := read], segmented := Higher(d.segmented, first + d.sizes.segmentSize - 1))
  }

  lemma SegmentRound(t: Trace, view: nat, seen: Option<nat>, finalized: nat) returns (t': Trace)
    requires IsTrace(t) && Compaction.Enabled(Now(t), StartsSegment(view, seen, finalized)) && Now(t).jobs == []
             && Now(t).fragments == 1
    requires Now(t).sizes.segmentSize >= 1
    ensures IsTrace(t') && Continues(t, t') && Who(t') == Who(t)
    ensures var d, first := Now(t), NextFirst(Now(t).sizes, seen);
            Now(t') == WithSegment(d, first,
                                   AsRead(d.system.remote, first,
                                          HashesAt(d.system.published[view].chain, first, d.sizes.segmentSize)))
  {
    hide IsTrace, Now, Who, AsRead, HashesAt, Compaction.Ready, Lags, Loadable;
    var first := NextFirst(Now(t).sizes, seen);
    var read := AsRead(Now(t).system.remote, first,
                       HashesAt(Now(t).system.published[view].chain, first, Now(t).sizes.segmentSize));
    var t1 := Act(t, StartsSegment(view, seen, finalized));
    var t2 := Act(t1, Uploads(0));
    var t3 := Act(t2, PutsWatermark(0));
    t' := Act(t3, Ends(0));
    assert Now(t1).jobs == [SegmentJob(first, read, 0)];
    assert Now(t2).jobs == [SegmentJob(first, read, 1)];
    assert Now(t').jobs == [];
  }

  ghost function WithGroup(d: Deployment, first: nat, read: Stretch): Deployment
    requires BlocksInGroup(d.sizes) >= 1
  {
    d.(groups := d.groups[first := read], grouped := Higher(d.grouped, first + BlocksInGroup(d.sizes) - 1))
  }

  lemma GroupRound(t: Trace, seenGrouped: Option<nat>, seenSegmented: nat) returns (t': Trace)
    requires IsTrace(t) && Compaction.Enabled(Now(t), StartsGroup(seenGrouped, seenSegmented)) && Now(t).jobs == []
    requires BlocksInGroup(Now(t).sizes) >= 1
    ensures IsTrace(t') && Continues(t, t') && Who(t') == Who(t)
    ensures exists read :: Now(t') == WithGroup(Now(t), NextFirst(Now(t).sizes, seenGrouped), read)
  {
    hide IsTrace, Now, Who, Grouped, Lags, BlocksInGroup;
    var first := NextFirst(Now(t).sizes, seenGrouped);
    var t1 := Act(t, StartsGroup(seenGrouped, seenSegmented));
    var read := Now(t1).jobs[0].taken;
    assert Now(t1).jobs == [GroupJob(first, read, 0)];
    var t2 := Act(t1, Uploads(0));
    assert Now(t2).jobs == [GroupJob(first, read, 1)];
    var t3 := Act(t2, PutsWatermark(0));
    t' := Act(t3, Ends(0));
    assert Now(t').jobs == [];
    assert Now(t') == WithGroup(Now(t), first, read);
  }

  /** The segment of blocks 0 and 1 holds the stale block 1, and its group is there. */
  ghost predicate StaleStored(f: Fork, d: Deployment)
    requires ValidFork(f)
  {
    && d.sizes == SIZES && d.fragments == 1 && d.jobs == [] && d.pruned == None
    && d.segmented == Some(3) && d.grouped == Some(1) && (0, 0) in d.segments
    && d.segments[(0, 0)].hashes == [f.zero, f.stale[0]] && d.segments[(0, 0)].sound == [true, false]
  }

  lemma ReadsStale(f: Fork, d: Deployment, view: nat)
    requires ValidFork(f) && HasTurned(f, d.(segments := map[], segmented := None)) && view == |d.system.published| - 1
    ensures Shows(Last(d.system.published), [f.zero] + f.stale)
    ensures d.segmented == None && d.jobs == [] && d.sizes == SIZES && 4 in d.reported ==>
              Compaction.Enabled(d, StartsSegment(view, None, 4))
    ensures d.segmented == Some(1) && d.jobs == [] && d.sizes == SIZES && 4 in d.reported ==>
              Compaction.Enabled(d, StartsSegment(view, Some(1), 4))
  {
    hide Shape, RemoteInv, IsChain;
    assert AlignedAt(1, 0, 2, 1);
    var chain := d.system.published[view].chain;
    forall first | first == 0 || first == 2
      ensures Loadable(d.blocks, first, HashesAt(chain, first, 2))
    {
      var hashes := HashesAt(chain, first, 2);
      forall i | 0 <= i < 2
        ensures Cursor(first + i, hashes[i]) in d.blocks
      {
        assert hashes[i] == ([f.zero] + f.stale)[first + i];
      }
    }
  }

  lemma FirstRead(f: Fork, r: Remote, chain: Ledger)
    requires ValidFork(f) && IsChain(r, [f.zero] + f.live) && chain.first == 0 && chain.hashes == [f.zero] + f.stale
    ensures AsRead(r, 0, HashesAt(chain, 0, 2)) == Stretch([f.zero, f.stale[0]], [true, false])
  {
    ForkParts(f);
    var hashes := HashesAt(chain, 0, 2);
    assert hashes == [f.zero, f.stale[0]];
    var all := [f.zero] + f.live;
    assert all[0] == f.zero && all[1] == f.live[0];
    assert f.stale[0] in f.stale && f.live[0] in f.live;
    assert AsRead(r, 0, hashes).sound == [true, false];
  }

  lemma GroupReady(d: Deployment)
    requires d.sizes == SIZES && d.segmented == Some(3) && d.grouped == None
    ensures Compaction.Enabled(d, StartsGroup(None, 3)) && BlocksInGroup(d.sizes) == 2
  {
    assert AlignedAt(3, 0, 2, 2);
  }

  lemma Compact(t: Trace, f: Fork) returns (t': Trace)
    requires IsTrace(t) && ValidFork(f) && HasTurned(f, Now(t)) && Now(t).sizes == SIZES
    ensures IsTrace(t') && Who(t') == Who(t) && StaleStored(f, Now(t'))
    ensures Now(t').system == Now(t).system && Now(t').blocks == Now(t).blocks
  {
    hide IsTrace, Now, Who, Compaction.Enabled, HashesAt, AsRead, Shape, RemoteInv, IsChain;
    var d := Now(t);
    assert d.system.published != [] by { ShapeIsUp(d.system, [f.zero] + f.stale); }
    var view := |d.system.published| - 1;
    assert d.(segments := map[], segmented := None) == d;
    ReadsStale(f, d, view);
    FirstRead(f, d.system.remote, d.system.published[view].chain);
    var t1 := SegmentRound(t, view, None, 4);
    assert Now(t1).(segments := map[], segmented := None) == d;
    ReadsStale(f, Now(t1), view);
    var t2 := SegmentRound(t1, view, Some(1), 4);
    GroupReady(Now(t2));
    t' := GroupRound(t2, None, 3);
  }

  // ------------------------------------------------------------------ a client is served from the stale segment

  /** The client holds blocks 0 and 1 as the segment has them, and its cursor has no hash. */
  ghost predicate HoldsStale(f: Fork, c: Option<Client>)
    requires ValidFork(f)
  {
    c.Some? && c.value.current == Some(Unhashed(1)) && c.value.base == 0 && c.value.hashes == [f.zero, f.stale[0]]
  }

  lemma StoredFirst(d: Deployment, f: Fork)
    requires ValidFork(f) && StaleStored(f, d)
    ensures IsStored(d, 0) && IsStored(d, 1) && HashAt(d, 0) == f.zero && HashAt(d, 1) == f.stale[0]
            && !SoundAt(d, 1, 0)
    ensures Backfilled(d, 0, 1) == [f.zero, f.stale[0]]
  {
    FirstSegment();
    hide SegmentStartBlock;
    var delivered := Backfilled(d, 0, 1);
    assert |delivered| == 2 && delivered[0] == f.zero && delivered[1] == f.stale[0];
  }

  lemma FirstSegment()
    ensures SegmentStartBlock(SIZES, 0) == 0 && SegmentStartBlock(SIZES, 1) == 0
  {
  }

  lemma NewClientGoesOn(s: System, view: nat)
    requires view < |s.published| && SystemInv(s)
    ensures Readable(ReaderView(s, view))
    ensures var answer := ClientStream.Answer(s, Client(view, None, 0, [])); answer.Ok? && answer.value.ContinueTo?
  {
    hide SystemInv, ViewOk, ChainOf, Linked, Remembers, RemoteInv, TreeOf, CanonicalAt;
    RemoteOk(s);
    ReaderSeesOneChain(s, view);
    ViewIsReadable(ReaderView(s, view), s.published[view].count);
    FirstCursor(ReaderView(s, view), s.published[view].count);
  }

  lemma Serve(t: Trace, f: Fork) returns (t': Trace)
    requires IsTrace(t) && ValidFork(f) && StaleStored(f, Now(t)) && Now(t).system.published != []
             && Now(t).system.options == OPTIONS
    ensures IsTrace(t') && Now(t') == Now(t) && HoldsStale(f, Who(t'))
            && Who(t').value.view == |Now(t).system.published| - 1
    ensures |t'.actions| == |t.actions| + 2 && t'.actions[|t.actions| + 1] == Backfills(1)
  {
    hide IsTrace, Now, Who, IngestionSystem.Ready, SystemInv, Readable, ClientStream.Answer, IsStored, HashAt;
    NowReady(t);
    var view := |Now(t).system.published| - 1;
    NewClientGoesOn(Now(t).system, view);
    StoredFirst(Now(t), f);
    var t1 := ActClient(t, Joins(view, None));
    t' := ActClient(t1, Backfills(1));
    assert [] + [f.zero, f.stale[0]] == [f.zero, f.stale[0]];
  }

  // ------------------------------------------------------------------ the ingester recovers

  lemma OffTheRemote(f: Fork, r: Remote, i: nat)
    requires ValidFork(f) && IsChain(r, [f.zero] + f.live) && i <= 4
    ensures OnChain(r, Cursor(i, ([f.zero] + f.stale)[i])) <==> i == 0
  {
    ForkParts(f);
    var live, stale := [f.zero] + f.live, [f.zero] + f.stale;
    assert r.canonical[i] == live[i];
    if i > 0 {
      assert stale[i] == f.stale[i - 1] && stale[i] in f.stale;
      assert live[i] == f.live[i - 1] && live[i] in f.live;
    }
  }

  lemma ShapeFacts(s: System, hashes: seq<Hash>)
    requires Shape(s, hashes)
    ensures hashes != [] && Idle(s) && Unsplit(s) && s.phase.chain.hashes == hashes
            && s.phase.state.lastIngested == At(s, |hashes| - 1)
  {
  }

  lemma CutShape(s: System, hashes: seq<Hash>)
    requires Shape(s, hashes) && Unsplit(s) && IngestionSystem.Ready(s)
    ensures CurrentSegment(CutToZero(s).phase.service.builder).Ok?
    ensures var after := Published(CutToZero(s), CurrentSegment(CutToZero(s).phase.service.builder).value);
            && Shape(after, [hashes[0]]) && Shows(Last(after.published), [hashes[0]]) && after.remote == s.remote
            && after.phase.state.finalized == s.phase.state.finalized && after.phase.state.head == s.phase.state.head
            && |after.published| == |s.published| + 1 && after.published[..|s.published|] == s.published
            && after.options == s.options && Last(after.published).known == s.phase.ever
  {
    hide Ascending, PastTheEnd, WithReorgs, RemoteInv, WithRemoved;
    ShrinkShape(s.phase.service.builder, At(s, 0));
  }

  /** The stale segment is stored; the ingester is back at block 0 on the live remote chain. */
  ghost predicate HasRecovered(f: Fork, d: Deployment)
    requires ValidFork(f)
  {
    var s := d.system;
    && StaleStored(f, d) && Shape(s, [f.zero]) && Shows(Last(s.published), [f.zero])
    && IsChain(s.remote, [f.zero] + f.live)
    && s.remote.finalized == 4 && s.phase.state.finalized.number == 4 && s.phase.state.head.number == 4
  }

  /** The ingester has gone back to block 0 and published that. */
  ghost predicate WentBack(f: Fork, d: Deployment, d': Deployment) {
    var s, s' := d.system, d'.system;
    && d' == d.(system := s') && Shape(s', [f.zero]) && s'.published != [] && Shows(Last(s'.published), [f.zero])
    && s'.remote == s.remote && |s'.published| == |s.published| + 1 && s'.published[..|s.published|] == s.published
    && s.phase.Up? && s'.phase.Up? && s'.phase.state.finalized == s.phase.state.finalized
    && s.phase.state.Ingest? && s'.phase.state.Ingest? && s'.phase.state.head == s.phase.state.head
    && Last(s'.published).known == s.phase.ever
  }

  lemma GoBack(t: Trace, f: Fork) returns (t': Trace)
    requires IsTrace(t) && ValidFork(f) && Shape(Now(t).system, [f.zero] + f.stale)
    requires IsChain(Now(t).system.remote, [f.zero] + f.live)
    requires Now(t).system.phase.state.head == Cursor(4, f.stale[3])
    ensures IsTrace(t') && Continues(t, t') && Who(t') == Who(t) && WentBack(f, Now(t), Now(t'))
  {
    hide IsTrace, Now, Who, Shape, Shows, IsChain, IngestionSystem.Ready, SystemInv, Idle, Unsplit, CutToZero,
         Published, OnChain, CurrentSegment;
    var s, hashes, head := Now(t).system, [f.zero] + f.stale, Cursor(4, f.live[3]);
    ShapeFacts(s, hashes);
    UnsplitShape(s);
    ShapeIsUp(s, hashes);
    NowReady(t);
    forall i: nat | i < 5
      ensures OnChain(s.remote, At(s, i)) <==> i == 0
    {
      OffTheRemote(f, s.remote, i);
    }
    TurnsBackFrom(f, s);
    CutShape(s, hashes);
    t' := RecoverToZero(t, head);
    ShapeIsUp(Now(t').system, [f.zero]);
  }

  lemma Recovers(t: Trace, f: Fork) returns (t': Trace)
    requires IsTrace(t) && ValidFork(f) && StaleStored(f, Now(t)) && Shape(Now(t).system, [f.zero] + f.stale)
    requires IsChain(Now(t).system.remote, [f.zero] + f.live) && Now(t).system.remote.finalized == 4
    requires Now(t).system.phase.state.finalized.number == 4 && Now(t).system.phase.state.head == Cursor(4, f.stale[3])
    ensures IsTrace(t') && Continues(t, t') && Who(t') == Who(t) && HasRecovered(f, Now(t'))
    ensures |Now(t').system.published| == |Now(t).system.published| + 1
  {
    hide IsTrace, Now, Who, Shape, Shows, IsChain;
    t' := GoBack(t, f);
  }

  lemma TurnsBackFrom(f: Fork, s: System)
    requires ValidFork(f) && Shape(s, [f.zero] + f.stale) && s.phase.state.head == Cursor(4, f.stale[3])
    ensures TurnsBack(s, Cursor(4, f.live[3]))
  {
    LiveDiffers(f, 3);
  }

  // ------------------------------------------------------------------ block 1 is pruned

  ghost predicate NoneAt(d: Deployment, n: nat) {
    forall c :: c in d.blocks ==> c.number != n
  }

  lemma PruneDeletes(t: Trace) returns (t': Trace)
    requires IsTrace(t) && Now(t).sizes == SIZES && Now(t).grouped == Some(1) && Now(t).pruned == None
             && Now(t).jobs == []
    ensures IsTrace(t') && Continues(t, t') && Who(t') == Who(t) && NoneAt(Now(t'), 1)
    ensures Now(t') == Now(t).(blocks := Now(t').blocks, jobs := [PruneJob(1, 2, 0, true)])
  {
    hide IsTrace, Now, Who;
    var t1 := Act(t, StartsPrune);
    assert Now(t1).jobs == [PruneJob(1, 0, 2, true)];
    var t2 := Act(t1, Deletes(0));
    assert Now(t2).jobs == [PruneJob(1, 1, 1, true)];
    t' := Act(t2, Deletes(0));
    assert Now(t').jobs == [PruneJob(1, 2, 0, true)];
  }

  lemma PruneAway(t: Trace) returns (t': Trace)
    requires IsTrace(t) && Now(t).sizes == SIZES && Now(t).grouped == Some(1) && Now(t).pruned == None
             && Now(t).jobs == []
    ensures IsTrace(t') && Continues(t, t') && Who(t') == Who(t) && NoneAt(Now(t'), 1)
    ensures Now(t') == Now(t).(blocks := Now(t').blocks, pruned := Some(1))
  {
    hide IsTrace, Now, Who, NoneAt;
    var t1 := PruneDeletes(t);
    var t2 := Act(t1, PutsWatermark(0));
    assert Now(t2).jobs == [PruneJob(1, 2, 2, false)];
    t' := Act(t2, Ends(0));
    assert Now(t').jobs == [];
    SameBlocks(Now(t1), Now(t'), 1);
  }

  lemma SameBlocks(d: Deployment, d': Deployment, n: nat)
    requires d'.blocks == d.blocks && NoneAt(d, n)
    ensures NoneAt(d', n)
  {
  }

  // ------------------------------------------------------------------ the whole run

  /** The state once the client has been served block 1 from the stale segment, and where that happened. */
  ghost predicate ServedStale(f: Fork, t: Trace, j: nat)
    requires ValidFork(f)
  {
    && IsTrace(t) && HoldsStale(f, Who(t)) && StaleStored(f, Now(t)) && Shape(Now(t).system, [f.zero] + f.stale)
    && IsChain(Now(t).system.remote, [f.zero] + f.live) && Now(t).system.remote.finalized == 4
    && Now(t).system.phase.state.finalized.number == 4 && Now(t).system.phase.state.head == Cursor(4, f.stale[3])
    && Who(t).value.view < |Now(t).system.published|
    && j + 1 == |t.actions| && t.actions[j] == Backfills(1) && !SoundAt(t.states[j], 1, 0)
  }

  lemma RunToServed(f: Fork) returns (t: Trace, j: nat)
    requires ValidFork(f)
    ensures ServedStale(f, t, j)
  {
    hide IsTrace, Now, Who, Shape, Shows, RemoteInv, IsChain, SoundAt;
    var t0 := RunToStale(f, SIZES);
    var t1 := Turn(t0, f);
    var t2 := Compact(t1, f);
    assert Now(t2).system.published != []
           && Now(t2).system.options == OPTIONS by { ShapeOptions(Now(t2).system, [f.zero] + f.stale); }
    t := Serve(t2, f);
    j := |t.actions| - 1;
    StoredFirst(Now(t), f);
    BackfillLeft(t, j);
  }

  lemma ShapeOptions(s: System, hashes: seq<Hash>)
    requires Shape(s, hashes)
    ensures s.published != [] && s.options == OPTIONS && s.dropped == {}
  {
  }

  /** A client's own action leaves the deployment as it was. */
  lemma BackfillLeft(t: Trace, j: nat)
    requires IsTrace(t) && j + 1 == |t.actions| && t.actions[j] == Backfills(1)
    ensures t.states[j] == Now(t)
  {
    hide Compaction.Initially, ClientEnabled, ClientStep;
    assert ClientLeads(t.states[j], t.clients[j], t.actions[j], t.states[j + 1], t.clients[j + 1]);
  }

  lemma SyncTo(t: Trace, view: nat) returns (t': Trace)
    requires IsTrace(t) && Who(t).Some? && Who(t).value.view <= view < |Now(t).system.published|
    ensures IsTrace(t') && Continues(t, t') && Now(t') == Now(t) && Who(t') == Some(Who(t).value.(view := view))
  {
    hide IsTrace, Now, Who;
    t' := ActClient(t, Syncs(view));
  }

  /**
   * A client that was served the stale block is refused when its server's view falls back during recovery, although
   * no restart has dropped anything.
   */
  lemma AClientIsRefused(f: Fork) returns (t: Trace)
    requires ValidFork(f)
    ensures IsTrace(t) && HoldsStale(f, Who(t)) && HasRecovered(f, Now(t)) && Now(t).system.dropped == {}
    ensures var s, c := Now(t).system, Who(t).value;
            c.view < |s.published| && Readable(ReaderView(s, c.view)) && ClientStream.Answer(s, c).Rejected?
  {
    hide IsTrace, Now, Who, Shape, SystemInv, IngestionSystem.Ready, IsChain, SoundAt, Readable, ClientStream.Answer;
    var t0, j := RunToServed(f);
    var t1 := Recovers(t0, f);
    ShapeOptions(Now(t1).system, [f.zero]);
    t := SyncTo(t1, |Now(t1).system.published| - 1);
    NowReady(t);
    UnhashedAboveIsRefused(Now(t).system, Who(t).value, 1);
  }

  /** The live chain is ingested and published; the stale segment is still stored. */
  ghost predicate LivePublished(f: Fork, d: Deployment)
    requires ValidFork(f)
  {
    var s := d.system;
    && StaleStored(f, d) && s.published != [] && Shows(Last(s.published), [f.zero] + f.live)
    && IsChain(s.remote, [f.zero] + f.live)
    && s.remote.finalized == 4 && s.dropped == {} && s.options == OPTIONS
  }

  lemma RunToLive(f: Fork) returns (t: Trace, j: nat)
    requires ValidFork(f)
    ensures IsTrace(t) && LivePublished(f, Now(t)) && HoldsStale(f, Who(t))
            && Who(t).value.view < |Now(t).system.published|
    ensures j + 1 < |t.clients| && j < |t.actions| && t.actions[j] == Backfills(1) && !SoundAt(t.states[j], 1, 0)
            && t.clients[j + 1] == Who(t)
  {
    hide IsTrace, Now, Who, Shape, SoundAt, Shows;
    var t0;
    t0, j := RunToServed(f);
    LastClient(t0);
    var t1 := Recovers(t0, f);
    t := Follow(t1, [f.zero], [f.zero] + f.live);
    ShapeOptions(Now(t).system, [f.zero] + f.live);
  }

  lemma LastClient(t: Trace)
    requires IsTrace(t)
    ensures |t.states| == |t.clients| == |t.actions| + 1 && Who(t) == t.clients[|t.actions|]
  {
  }

  lemma CaughtUp(f: Fork, s: System, c: Client)
    requires ValidFork(f) && c.view < |s.published| && Shows(s.published[c.view], [f.zero] + f.live)
             && IsChain(s.remote, [f.zero] + f.live)
    ensures HasCaughtUp(s, c, 1)
  {
    var live := [f.zero] + f.live;
    assert s.remote.canonical[1] == live[1];
  }

  /** And when the view has the live chain, it is sent on to a block that is no child of the one it holds. */
  lemma AClientIsMisled(f: Fork) returns (t: Trace)
    requires ValidFork(f)
    ensures IsTrace(t) && HoldsStale(f, Who(t)) && LivePublished(f, Now(t))
    ensures var s, c := Now(t).system, Who(t).value;
            && c.view < |s.published| && RemoteInv(s.remote) && Readable(ReaderView(s, c.view)) && !LedSafely(s, c)
            && ClientStream.Answer(s, c).Ok? && ClientStream.Answer(s, c).value.ContinueTo?
            && ClientStream.Answer(s, c).value.cursor == Cursor(2, f.live[1])
            && !IsChild(TreeOf(s.remote), Cursor(2, f.live[1]), HeadOf(Held(c)))
  {
    hide IsTrace, Now, SystemInv, IngestionSystem.Ready, IsChain, SoundAt, Readable, RemoteInv, TreeOf, LedSafely,
         ClientStream.Answer, Shows, IsClientRun;
    var t0, j := RunToLive(f);
    t := SyncTo(t0, |Now(t0).system.published| - 1);
    var s, c := Now(t).system, Who(t).value;
    NowReady(t);
    CaughtUp(f, s, c);
    LastClient(t0);
    LastClient(t);
    NowIsLast(t);
    assert IsClientRun(t.states, t.clients, t.actions) by { TraceIsRun(t); }
    StaleBackfillMisleads(t.states, t.clients, t.actions, j, |t.actions|);
    GoesOnToLive(f, s, c);
  }

  lemma TraceIsRun(t: Trace)
    requires IsTrace(t)
    ensures IsClientRun(t.states, t.clients, t.actions)
  {
  }

  lemma NowIsLast(t: Trace)
    requires IsTrace(t)
    ensures |t.states| == |t.actions| + 1 && Now(t) == t.states[|t.actions|]
  {
  }

  lemma GoesOnToLive(f: Fork, s: System, c: Client)
    requires ValidFork(f) && HoldsStale(f, Some(c)) && c.view < |s.published|
             && Shows(s.published[c.view], [f.zero] + f.live)
    requires s.options == OPTIONS && SystemInv(s)
    ensures RemoteInv(s.remote) && Readable(ReaderView(s, c.view))
    ensures ClientStream.Answer(s, c).Ok? && ClientStream.Answer(s, c).value.ContinueTo?
    ensures ClientStream.Answer(s, c).value.cursor == Cursor(2, f.live[1])
    ensures !IsChild(TreeOf(s.remote), Cursor(2, f.live[1]), HeadOf(Held(c)))
  {
    hide SystemInv, ViewOk, ChainOf, Linked, Remembers, GetNextCursor, RemoteInv, TreeOf, Distinct;
    RemoteOk(s);
    var live, t := [f.zero] + f.live, TreeOf(s.remote);
    ReaderSeesOneChain(s, c.view);
    var v, p := ReaderView(s, c.view), s.published[c.view];
    ViewIsReadable(v, p.count);
    NextCursorGoesOn(v, p.count, Unhashed(1));
    ChainIsLinked(s, c.view);
    assert live[2] == f.live[1] && live[1] == f.live[0];
    ParentInChain(t, p.chain, 2);
    LiveDiffers(f, 0);
  }

  /**
   * The canonical block is lost: block 1 of the live chain is final on the remote and published, its object is gone,
   * and the segment that readers are sent to holds the stale block instead.
   */
  lemma ACanonicalBlockIsLost(f: Fork) returns (t: Trace)
    requires ValidFork(f)
    ensures IsTrace(t)
    ensures var d, c := Now(t), Cursor(1, f.live[0]);
            && d.system.published != [] && IsCanonical(Last(d.system.published).chain, c) && Final(d.system.remote, c)
            && d.sizes == SIZES && Owed(d, c) && c !in d.blocks && HasSegmentForBlock(d.sizes, d.segmented, 1)
            && !InSegment(d, c) && !Served(d, c)
  {
    hide IsTrace, Now, Who, SoundAt;
    var t0, j := RunToLive(f);
    t := PruneAway(t0);
    LiveIsLost(f, Now(t));
  }

  lemma LiveIsOwed(f: Fork, d: Deployment)
    requires ValidFork(f) && LivePublished(f, d.(pruned := None))
    ensures var c := Cursor(1, f.live[0]);
            IsCanonical(Last(d.system.published).chain, c) && Final(d.system.remote, c) && Owed(d, c)
  {
    var live, c := [f.zero] + f.live, Cursor(1, f.live[0]);
    assert live[1] == f.live[0] && d.system.remote.canonical[1] == live[1];
    assert IsCanonical(d.system.published[|d.system.published| - 1].chain, c);
  }

  lemma OneIsSegmented()
    ensures HasSegmentForBlock(SIZES, Some(3), 1)
  {
  }

  lemma OtherHash(d: Deployment, c: Cursor, read: Stretch)
    requires d.sizes == SIZES && d.fragments == 1 && (0, 0) in d.segments && d.segments[(0, 0)] == read
    requires c.number == 1 && |read.hashes| == 2 && read.hashes[1] != c.hash
    ensures !InSegment(d, c)
  {
    FirstSegment();
    hide SegmentStartBlock;
    var fragment: nat := 0;
    assert fragment < d.fragments;
  }

  lemma NotInTheSegment(f: Fork, d: Deployment)
    requires ValidFork(f) && StaleStored(f, d.(pruned := None))
    ensures d.segmented == Some(3) && !InSegment(d, Cursor(1, f.live[0]))
  {
    LiveDiffers(f, 0);
    hide InSegment, Distinct;
    OtherHash(d, Cursor(1, f.live[0]), d.segments[(0, 0)]);
  }

  lemma LiveIsLost(f: Fork, d: Deployment)
    requires ValidFork(f) && LivePublished(f, d.(pruned := None)) && NoneAt(d, 1)
    ensures var c := Cursor(1, f.live[0]);
            && IsCanonical(Last(d.system.published).chain, c) && Final(d.system.remote, c)
            && d.sizes == SIZES && Owed(d, c) && c !in d.blocks && HasSegmentForBlock(d.sizes, d.segmented, 1)
            && !InSegment(d, c) && !Served(d, c)
  {
    hide Shows, IsChain, InSegment, HasSegmentForBlock, Owed, IsCanonical;
    LiveIsOwed(f, d);
    OneIsSegmented();
    NotInTheSegment(f, d);
  }
}
