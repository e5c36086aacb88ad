/**
 * What compaction keeps for readers. Its guard trusts the smaller of the reported finalized number and the view's
 * head; that is enough exactly when the last block a job reads is on the remote chain at that moment.
 */
module CompactionSafety {
  import opened Core
  import opened Chain
  import opened Ledgers
  import opened ChainHistory
  import opened RemoteChain
  import opened ChainView
  import opened Ingestion
  import opened IngestionSystem
  import opened IngestionInvariant
  import opened IngestionSafety
  import opened Watermarks
  import opened Compaction

  // ------------------------------------------------------------------ what a job reads

  /**
   * A view's blocks up to a finalized height are final if and only if its block at that height is on the remote chain.
   */
  lemma FinalUpToIffOnChain(s: System, k: nat, m: nat)
    requires SystemInv(s) && k < |s.published|
    requires s.options.startingBlock <= m <= s.remote.finalized && m <= s.published[k].snapshot.info.last.number
    ensures s.published[k].chain.first == s.options.startingBlock
            && m - s.options.startingBlock < |s.published[k].chain.hashes|
    ensures var chain := s.published[k].chain;
            (forall c :: IsCanonical(chain, c) && c.number <= m ==> Final(s.remote, c)) <==>
            OnChain(s.remote, Cursor(m, chain.hashes[m - chain.first]))
  {
    hide SystemInv, RemoteInv, TreeOf, Linked, Remembers, ViewOk, ChainOf;
    RemoteOk(s);
    ReaderSeesOneChain(s, k);
    var chain, t := s.published[k].chain, TreeOf(s.remote);
    var top := Cursor(m, chain.hashes[m - chain.first]);
    RemoteIsLinked(s.remote);
    if OnChain(s.remote, top) {
      forall c | IsCanonical(chain, c) && c.number <= m
        ensures Final(s.remote, c)
      {
        SharedBlockSharesBelow(t, chain, LedgerOf(s.remote), top, c.number);
      }
    } else {
      assert IsCanonical(chain, top);
    }
  }

  /** The chain of a publication goes from the starting block to its head. */
  lemma PublishedShape(s: System, k: nat)
    requires SystemInv(s) && k < |s.published|
    ensures s.published[k].chain.first == s.options.startingBlock
    ensures s.options.startingBlock + |s.published[k].chain.hashes| == s.published[k].snapshot.info.last.number + 1
  {
    hide SystemInv, RemoteInv, TreeOf, Linked, Remembers, ViewOk, ChainOf;
    RemoteOk(s);
    ReaderSeesOneChain(s, k);
    ViewShape(ReaderView(s, k), s.published[k].count);
  }

  function AllTrue(sound: seq<bool>): bool {
    forall i :: 0 <= i < |sound| ==> sound[i]
  }

  /** The last block that a starting segment job reads is on the remote chain. */
  ghost predicate LastOnChain(s: Deployment, a: Compaction.Action) {
    a.StartsSegment? && a.view < |s.system.published| && s.sizes.segmentSize >= 1 ==>
      var last := NextFirst(s.sizes, a.seen) + s.sizes.segmentSize - 1;
      var chain := s.system.published[a.view].chain;
      chain.first <= last < chain.first + |chain.hashes| ==>
        OnChain(s.system.remote, Cursor(last, chain.hashes[last - chain.first]))
  }

  lemma ReadAt(r: Remote, chain: Ledger, first: nat, size: nat, i: nat)
    requires Reads(chain, first, size) && i < size
    ensures var c := Cursor(first + i, chain.hashes[first + i - chain.first]);
            IsCanonical(chain, c) && (AsRead(r, first, HashesAt(chain, first, size)).sound[i] <==> OnChain(r, c))
  {
  }

  lemma StretchSoundIffLast(s: System, k: nat, first: nat, size: nat)
    requires k < |s.published| && size >= 1 && Reads(s.published[k].chain, first, size)
    requires s.options.startingBlock <= first && first + size <= s.remote.finalized && SystemInv(s)
    ensures var chain, last := s.published[k].chain, first + size - 1;
            AllTrue(AsRead(s.remote, first, HashesAt(chain, first, size)).sound) <==>
            OnChain(s.remote, Cursor(last, chain.hashes[last - chain.first]))
  {
    hide SystemInv, IsCanonical, OnChain, HashesAt;
    var chain, last := s.published[k].chain, first + size - 1;
    var read := AsRead(s.remote, first, HashesAt(chain, first, size));
    PublishedShape(s, k);
    FinalUpToIffOnChain(s, k, last);
    ReadAt(s.remote, chain, first, size, size - 1);
    if OnChain(s.remote, Cursor(last, chain.hashes[last - chain.first])) {
      forall i: nat | i < size
        ensures read.sound[i]
      {
        ReadAt(s.remote, chain, first, size, i);
      }
    }
  }

  lemma StartFacts(s: Deployment, a: Compaction.Action)
    requires a.StartsSegment? && Compaction.Enabled(s, a) && Inv(s)
    ensures SystemInv(s.system) && s.sizes.segmentSize >= 1 && s.sizes.start == s.system.options.startingBlock
    ensures var first := NextFirst(s.sizes, a.seen);
            s.sizes.start <= first && first + s.sizes.segmentSize <= s.system.remote.finalized
  {
    hide SystemInv, AllKept, JobOk, SegmentedAt, GroupedAt, Loadable, Edge;
    if a.seen.Some? {
      var k: nat :| AlignedAt(a.seen.value, s.sizes.start, s.sizes.segmentSize, k);
      EdgeMonotone(s.sizes.start, s.sizes.segmentSize, 0, k);
      EdgeStep(s.sizes.start, s.sizes.segmentSize, 0);
    }
  }

  /** That is the same as all of them being on it: the condition can be checked with one query before the job starts. */
  lemma ReadsSoundIffLastOnChain(s: Deployment, a: Compaction.Action)
    requires a.StartsSegment? && Compaction.Enabled(s, a) && Inv(s)
    ensures var first := NextFirst(s.sizes, a.seen);
            var hashes := HashesAt(s.system.published[a.view].chain, first, s.sizes.segmentSize);
            AllTrue(AsRead(s.system.remote, first, hashes).sound) <==> LastOnChain(s, a)
  {
    hide Inv, SystemInv, Loadable, AllTrue, AsRead, OnChain;
    StartFacts(s, a);
    StretchSoundIffLast(s.system, a.view, NextFirst(s.sizes, a.seen), s.sizes.segmentSize);
  }

  // ------------------------------------------------------------------ what readers get

  /** Every fragment of the block's segment is there and holds the block in its place. */
  ghost predicate InSegment(s: Deployment, c: Cursor)
    requires s.sizes.segmentSize >= 1 && s.sizes.start <= c.number
  {
    var first := SegmentStartBlock(s.sizes, c.number);
    forall f: nat :: f < s.fragments ==>
      && (first, f) in s.segments && first <= c.number < first + |s.segments[(first, f)].hashes|
      && s.segments[(first, f)].hashes[c.number - first] == c.hash
  }

  ghost predicate InGroup(s: Deployment, c: Cursor)
    requires ValidSizes(s.sizes) && s.sizes.start <= c.number
  {
    var first := GroupStartBlock(s.sizes, c.number);
    && first in s.groups && first <= c.number < first + |s.groups[first].hashes|
    && s.groups[first].hashes[c.number - first] == c.hash
  }

  /** A reader takes a block from its segment if `has_segment_for_block` says so, and otherwise from its own object. */
  ghost predicate Served(s: Deployment, c: Cursor)
    requires s.sizes.segmentSize >= 1 && s.sizes.start <= c.number
  {
    if HasSegmentForBlock(s.sizes, s.segmented, c.number) then InSegment(s, c) else c in s.blocks
  }

  /** The same through a view that has seen the watermark at `seen`. */
  ghost predicate ServedUnder(s: Deployment, seen: Option<nat>, c: Cursor)
    requires s.sizes.segmentSize >= 1 && s.sizes.start <= c.number
  {
    if HasSegmentForBlock(s.sizes, seen, c.number) then InSegment(s, c) else c in s.blocks
  }

  /** The blocks readers are owed: those final on the remote that are compacted or were ever published. */
  ghost predicate Owed(s: Deployment, c: Cursor) {
    && Final(s.system.remote, c) && s.sizes.start <= c.number
    && ((s.segmented.Some? && c.number <= s.segmented.value)
        || IsPublished(s, c))
  }

  ghost predicate IsPublished(s: Deployment, c: Cursor) {
    exists k :: 0 <= k < |s.system.published| && IsCanonical(s.system.published[k].chain, c)
  }

  /** What is stored for height n was on the remote chain when its job read it. */
  ghost predicate SoundAt(s: Deployment, n: nat, f: nat) {
    && s.sizes.segmentSize >= 1 && s.sizes.start <= n
    && var first := SegmentStartBlock(s.sizes, n);
       (first, f) in s.segments && first <= n < first + |s.segments[(first, f)].sound|
       && s.segments[(first, f)].sound[n - first]
  }

  ghost predicate SoundSegments(s: Deployment) {
    forall n: nat, f: nat :: s.segmented.Some? && s.sizes.start <= n <= s.segmented.value && f < s.fragments ==>
      SoundAt(s, n, f)
  }

  lemma SegmentedHolds(s: Deployment, n: nat, f: nat)
    requires s.segmented.Some? && s.sizes.start <= n <= s.segmented.value && f < s.fragments && s.sizes.segmentSize >= 1
    requires Inv(s)
    ensures HasSegmentForBlock(s.sizes, s.segmented, n) && n < s.system.remote.finalized
    ensures var first := SegmentStartBlock(s.sizes, n);
            first <= n < first + s.sizes.segmentSize && SegmentOk(s, (first, f))
  {
    hide JobOk, AllKept, GroupedAt, Edge, SegmentOk, SystemInv;
    var z := s.sizes;
    InvInOrder(s);
    HasSegmentIffSegmented(z, s.segmented.value, n);
    var m: nat :| SegmentedAt(s, s.segmented.value, m);
    var k := StretchIndex(n, z.start, z.segmentSize);
    EdgeStep(z.start, z.segmentSize, k);
    EdgeOrder(z.start, z.segmentSize, k, m);
    assert SegmentsBelow(s, m);
  }

  lemma GroupedHolds(s: Deployment, n: nat)
    requires s.grouped.Some? && s.sizes.start <= n <= s.grouped.value && ValidSizes(s.sizes)
    requires Inv(s)
    ensures HasGroupForBlock(s.sizes, s.grouped, n) && n < s.system.remote.finalized
    ensures var first := GroupStartBlock(s.sizes, n);
            first <= n < first + BlocksInGroup(s.sizes) && GroupOk(s, first)
  {
    hide JobOk, AllKept, SegmentedAt, Edge, SystemInv, GroupOk;
    var z := s.sizes;
    var step := BlocksInGroup(z);
    GroupIsPositive(z);
    InvInOrder(s);
    HasGroupIffGrouped(z, s.grouped.value, n);
    var m: nat :| GroupedAt(s, s.grouped.value, m);
    var k := StretchIndex(n, z.start, step);
    EdgeStep(z.start, step, k);
    EdgeOrder(z.start, step, k, m);
    assert GroupsBelow(s, m);
  }

  /**
   * For each height up to `segmented`, a fragment holds the remote's final block if and only if it was read soundly.
   */
  lemma HoldsFinalIffSound(s: Deployment, c: Cursor, f: nat)
    requires s.segmented.Some? && s.sizes.start <= c.number <= s.segmented.value && f < s.fragments
             && s.sizes.segmentSize >= 1
    requires Final(s.system.remote, c) && Inv(s)
    ensures var first := SegmentStartBlock(s.sizes, c.number);
            && (first, f) in s.segments && first <= c.number < first + |s.segments[(first, f)].hashes|
            && (s.segments[(first, f)].hashes[c.number - first] == c.hash <==> SoundAt(s, c.number, f))
  {
    hide Inv;
    SegmentedHolds(s, c.number, f);
  }

  /** A published final block above `segmented` still has its own object. */
  lemma OwedAboveIsKept(s: Deployment, c: Cursor)
    requires Owed(s, c) && (s.segmented.Some? ==> c.number > s.segmented.value) && Inv(s)
    ensures c in s.blocks
  {
    hide Inv;
    PublishedIsKept(s, c);
    InvInOrder(s);
  }

  lemma PublishedIsKept(s: Deployment, c: Cursor)
    requires IsPublished(s, c) && Inv(s)
    ensures c in s.blocks || (s.grouped.Some? && c.number <= s.grouped.value)
  {
    hide SystemInv, JobOk, SegmentedAt, GroupedAt, Linked, Remembers, ViewOk, ChainOf, RemoteInv, TreeOf;
    var k :| 0 <= k < |s.system.published| && IsCanonical(s.system.published[k].chain, c);
    RemoteOk(s.system);
    ReaderSeesOneChain(s.system, k);
    CanonicalIsKnown(TreeOf(s.system.remote), s.system.published[k].chain, s.system.published[k].known);
    assert Traced(s.system, c) && BlockKept(s, c);
  }

  /**
   * In every state the invariant allows, every owed block is served if and only if everything stored up to
   * `segmented` was on the remote chain when its job read it.
   */
  lemma ServedIffSound(s: Deployment)
    requires ValidSizes(s.sizes) && Inv(s)
    ensures (forall c :: Owed(s, c) ==> Served(s, c)) <==> SoundSegments(s)
  {
    hide Inv, SegmentStartBlock;
    InvInOrder(s);
    if SoundSegments(s) {
      forall c | Owed(s, c)
        ensures Served(s, c)
      {
        OwedIsServed(s, c);
      }
    }
    if forall c :: Owed(s, c) ==> Served(s, c) {
      forall n: nat, f: nat | s.segmented.Some? && s.sizes.start <= n <= s.segmented.value && f < s.fragments
        ensures SoundAt(s, n, f)
      {
        SegmentedHolds(s, n, f);
        FinalAt(s, n);
        var c := Cursor(n, s.system.remote.canonical[n]);
        assert Owed(s, c) && Served(s, c);
        HoldsFinalIffSound(s, c, f);
      }
    }
  }

  lemma FinalAt(s: Deployment, n: nat)
    requires n <= s.system.remote.finalized && Inv(s)
    ensures n in s.system.remote.canonical && Final(s.system.remote, Cursor(n, s.system.remote.canonical[n]))
  {
    hide JobOk, AllKept, SegmentedAt, GroupedAt;
  }

  lemma OwedIsServed(s: Deployment, c: Cursor)
    requires Owed(s, c) && ValidSizes(s.sizes) && SoundSegments(s) && Inv(s)
    ensures Served(s, c)
  {
    hide Inv, SegmentStartBlock;
    InvInOrder(s);
    if s.segmented.Some? { HasSegmentIffSegmented(s.sizes, s.segmented.value, c.number); }
    if s.segmented.Some? && c.number <= s.segmented.value {
      SegmentedIsHeld(s, c);
    } else {
      OwedAboveIsKept(s, c);
    }
  }

  lemma SegmentedIsHeld(s: Deployment, c: Cursor)
    requires ValidSizes(s.sizes) && SoundSegments(s) && Final(s.system.remote, c) && s.sizes.start <= c.number
    requires s.segmented.Some? && c.number <= s.segmented.value && Inv(s)
    ensures InSegment(s, c)
  {
    hide Inv, SegmentStartBlock;
    forall f: nat | f < s.fragments
      ensures var first := SegmentStartBlock(s.sizes, c.number);
              && (first, f) in s.segments && first <= c.number < first + |s.segments[(first, f)].hashes|
              && s.segments[(first, f)].hashes[c.number - first] == c.hash
    {
      HoldsFinalIffSound(s, c, f);
      assert SoundAt(s, c.number, f);
    }
  }

  // ------------------------------------------------------------------ runs in which every read is sound

  /** Everything read so far was sound. */
  ghost predicate Clean(s: Deployment) {
    && (forall o :: o in s.segments ==> AllTrue(s.segments[o].sound))
    && (forall f :: f in s.groups ==> AllTrue(s.groups[f].sound))
    && forall j :: 0 <= j < |s.jobs| ==> (s.jobs[j].PruneJob? || AllTrue(s.jobs[j].taken.sound))
  }

  lemma {:induction false} GroupedClean(s: Deployment, first: nat, count: nat)
    requires forall k: nat :: k < count ==> SegmentObject(s.sizes, first, k) in s.segments
    requires forall o :: o in s.segments ==> AllTrue(s.segments[o].sound)
    ensures AllTrue(Grouped(s, first, count).sound)
  {
    if count > 0 { GroupedClean(s, first, count - 1); }
  }

  lemma StepKeepsClean(s: Deployment, a: Compaction.Action)
    requires Compaction.Enabled(s, a) && Clean(s) && Inv(s) && LastOnChain(s, a)
    ensures Compaction.Ready(s, a) && Clean(Compaction.Step(s, a))
  {
    hide Inv, Compaction.Keeps, Acted, SegmentObject, AsRead, Grouped, LastOnChain, AllTrue;
    Compaction.StepKeepsInv(s, a);
    match a
    case SystemActs(action) => ActedKeepsObjects(s, action);
    case StartsSegment(_, _, _) => ReadsSoundIffLastOnChain(s, a);
    case StartsGroup(seen, _) => GroupedClean(s, NextFirst(s.sizes, seen), s.sizes.groupSize);
    case _ =>
  }

  lemma ActedKeepsObjects(s: Deployment, a: IngestionSystem.Action)
    requires IngestionSystem.Ready(s.system) && IsEnabled(s.system, a)
    ensures Acted(s, a).segments == s.segments && Acted(s, a).groups == s.groups && Acted(s, a).jobs == s.jobs
  {
  }

  lemma {:induction false} RunIsClean(states: seq<Deployment>, actions: seq<Compaction.Action>, i: nat)
    requires Compaction.IsRun(states, actions) && i < |states|
    requires forall j :: 0 <= j < i ==> LastOnChain(states[j], actions[j])
    ensures Clean(states[i])
  {
    hide Inv, Compaction.Enabled, Compaction.Step, Compaction.Ready, LastOnChain, AllTrue;
    if i > 0 {
      RunIsClean(states, actions, i - 1);
      Compaction.ReachableInv(states, actions, i - 1);
      assert Compaction.Leads(states[i - 1], actions[i - 1], states[i]);
      StepKeepsClean(states[i - 1], actions[i - 1]);
    }
  }

  lemma CleanIsSound(s: Deployment)
    requires ValidSizes(s.sizes) && Clean(s) && Inv(s)
    ensures SoundSegments(s)
  {
    hide Inv, SegmentStartBlock;
    forall n: nat, f: nat | s.segmented.Some? && s.sizes.start <= n <= s.segmented.value && f < s.fragments
      ensures SoundAt(s, n, f)
    {
      SegmentedHolds(s, n, f);
    }
  }

  /** In a group as well. */
  lemma CleanIsGrouped(s: Deployment, c: Cursor)
    requires ValidSizes(s.sizes) && s.sizes.start <= c.number && Final(s.system.remote, c)
    requires HasGroupForBlock(s.sizes, s.grouped, c.number) && Clean(s) && Inv(s)
    ensures InGroup(s, c)
  {
    hide Inv, GroupStartBlock, BlocksInGroup, GroupEndBlock;
    InvInOrder(s);
    HasGroupIffGrouped(s.sizes, s.grouped.value, c.number);
    GroupedHolds(s, c.number);
  }

  /**
   * Nothing is lost. In every state of every interleaving with the ingester and the remote chain, if the last block
   * of each segment job was on the remote chain when the job read it, then every block that is final on the remote
   * and was ever published or compacted is served to readers, from its own object or from its segment and group.
   */
  lemma NothingIsLost(states: seq<Deployment>, actions: seq<Compaction.Action>, i: nat, c: Cursor)
    requires Compaction.IsRun(states, actions) && i < |states|
    requires forall j :: 0 <= j < i ==> LastOnChain(states[j], actions[j])
    requires Owed(states[i], c)
    ensures var s := states[i];
            && ValidSizes(s.sizes) && Served(s, c)
            && (HasGroupForBlock(s.sizes, s.grouped, c.number) ==> InGroup(s, c))
            && (s.pruned.Some? && c.number <= s.pruned.value ==> HasSegmentForBlock(s.sizes, s.segmented, c.number))
  {
    hide Compaction.IsRun, Inv, InGroup, Served, Clean, LastOnChain;
    var s := states[i];
    Compaction.ReachableInv(states, actions, i);
    InvInOrder(s);
    RunIsClean(states, actions, i);
    CleanIsSound(s);
    OwedIsServed(s, c);
    if HasGroupForBlock(s.sizes, s.grouped, c.number) { CleanIsGrouped(s, c); }
    if s.segmented.Some? { HasSegmentIffSegmented(s.sizes, s.segmented.value, c.number); }
  }

  /**
   * Through a view that lags, such a block is served if and only if it lies at or below the watermark the view has
   * seen or its own object is not deleted yet; so always, if it was published, once the view has seen a watermark that
   * is not below `grouped`.
   */
  lemma LaggingViewServesIff(states: seq<Deployment>, actions: seq<Compaction.Action>, i: nat, seen: Option<nat>,
                             c: Cursor)
    requires Compaction.IsRun(states, actions) && i < |states|
    requires forall j :: 0 <= j < i ==> LastOnChain(states[j], actions[j])
    requires Owed(states[i], c) && Lags(states[i].sizes, states[i].sizes.segmentSize, seen, states[i].segmented)
    ensures var s := states[i];
            && ValidSizes(s.sizes)
            && (ServedUnder(s, seen, c) <==> (seen.Some? && c.number <= seen.value) || c in s.blocks)
            && (IsPublished(s, c) && seen.Some? && s.grouped.Some? && s.grouped.value <= seen.value ==>
                  ServedUnder(s, seen, c))
  {
    hide Compaction.IsRun, Inv, Clean, LastOnChain, InSegment;
    var s := states[i];
    Compaction.ReachableInv(states, actions, i);
    InvInOrder(s);
    RunIsClean(states, actions, i);
    CleanIsSound(s);
    if seen.Some? {
      HasSegmentIffSegmented(s.sizes, seen.value, c.number);
      if c.number <= seen.value { SegmentedIsHeld(s, c); }
    }
    if IsPublished(s, c) { PublishedIsKept(s, c); }
  }

  // ------------------------------------------------------------------ a read that is not sound

  /**
   * Once a segment that was not read soundly is stored and counted, readers of its last height are never served the
   * block that is final on the remote: with NothingIsLost, soundness of the reads is the exact condition.
   */
  lemma UnsoundReadIsNotServed(states: seq<Deployment>, actions: seq<Compaction.Action>, j: nat, i: nat, f: nat)
    requires Compaction.IsRun(states, actions) && j < i < |states| && actions[j].StartsSegment?
             && !LastOnChain(states[j], actions[j])
    requires f < states[i].fragments && StoredAsRead(states[j], actions[j], states[i], f)
    ensures NextFirst(states[j].sizes, actions[j].seen) + states[j].sizes.segmentSize >= 1
    ensures NotServedAt(states[i], NextFirst(states[j].sizes, actions[j].seen) + states[j].sizes.segmentSize - 1)
  {
    hide Inv, Compaction.Keeps, Compaction.Enabled, Compaction.Step, Compaction.Ready, Compaction.Initially, Owed,
         Served, LastOnChain, SoundAt;
    Compaction.ReachableInv(states, actions, j);
    Compaction.ReachableInv(states, actions, i);
    assert Compaction.Leads(states[j], actions[j], states[j + 1]);
    RunKeeps(states, actions, j, i);
    SameSizes(states[j], states[i]);
    UnsoundLast(states[j], actions[j]);
    UnsoundStored(states[j], actions[j], states[i], f);
  }

  /** The remote's block of that height is owed to readers, and they are not served it. */
  ghost predicate NotServedAt(s: Deployment, n: nat) {
    && s.sizes.segmentSize >= 1 && s.sizes.start <= n && n in s.system.remote.canonical
    && var c := Cursor(n, s.system.remote.canonical[n]);
       Owed(s, c) && !Served(s, c)
  }

  /** A fragment is stored as the job read it, and `segmented` counts it. */
  ghost predicate StoredAsRead(s: Deployment, a: Compaction.Action, s': Deployment, f: nat) {
    && a.StartsSegment? && a.view < |s.system.published|
    && var first, size, chain := NextFirst(s.sizes, a.seen), s.sizes.segmentSize, s.system.published[a.view].chain;
       && Reads(chain, first, size) && (first, f) in s'.segments
       && s'.segments[(first, f)] == AsRead(s.system.remote, first, HashesAt(chain, first, size))
       && s'.segmented.Some? && first + size <= s'.segmented.value + 1
  }

  lemma SameSizes(s: Deployment, s': Deployment)
    requires Compaction.Keeps(s, s')
    ensures s'.sizes == s.sizes
  {
  }

  ghost predicate LastUnsound(s: Deployment, a: Compaction.Action) {
    && a.StartsSegment? && s.sizes.segmentSize >= 1
    && var first, size := NextFirst(s.sizes, a.seen), s.sizes.segmentSize;
       && (exists k: nat :: first == Edge(s.sizes.start, size, k))
       && (a.view < |s.system.published| && Reads(s.system.published[a.view].chain, first, size) ==>
             !AsRead(s.system.remote, first, HashesAt(s.system.published[a.view].chain, first, size)).sound[size - 1])
  }

  lemma UnsoundLast(s: Deployment, a: Compaction.Action)
    requires a.StartsSegment? && Compaction.Enabled(s, a) && !LastOnChain(s, a) && Inv(s)
    ensures LastUnsound(s, a)
  {
    hide Inv, SegmentsBelow, Edge;
    InvFacts(s);
    var k := LaggingEdge(s, a.seen);
  }

  lemma UnsoundStored(s: Deployment, a: Compaction.Action, s': Deployment, f: nat)
    requires StoredAsRead(s, a, s', f) && LastUnsound(s, a) && s'.sizes == s.sizes && f < s'.fragments && Inv(s')
    ensures NotServedAt(s', NextFirst(s.sizes, a.seen) + s.sizes.segmentSize - 1)
  {
    hide Inv, SegmentStartBlock, Edge;
    var z, first := s.sizes, NextFirst(s.sizes, a.seen);
    var k: nat :| first == Edge(z.start, z.segmentSize, k);
    var n := first + z.segmentSize - 1;
    EdgeStep(z.start, z.segmentSize, k);
    EdgeMonotone(z.start, z.segmentSize, 0, k);
    EdgeStep(z.start, z.segmentSize, 0);
    assert SegmentStartBlock(z, n) == first by { StartOf(z, n, k); }
    SegmentedHolds(s', n, f);
    FinalAt(s', n);
    HoldsFinalIffSound(s', Cursor(n, s'.system.remote.canonical[n]), f);
  }

  lemma StartOf(z: Sizes, n: nat, k: nat)
    requires z.segmentSize >= 1 && z.start <= n
             && Edge(z.start, z.segmentSize, k) <= n < Edge(z.start, z.segmentSize, k + 1)
    ensures SegmentStartBlock(z, n) == Edge(z.start, z.segmentSize, k)
  {
    StretchBetween(n, z.start, z.segmentSize, k);
  }
}
