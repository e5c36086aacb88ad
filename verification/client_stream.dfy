/**
 * Clients of the data stream over whole runs: the published chain changes under them, the ingester crashes
 * and restarts, and every message must still lead them along the blocks' ancestry (common/src/data_stream/stream.rs).
 */
module ClientStream {
  import opened Core
  import opened Chain
  import opened Ledgers
  import opened ChainHistory
  import opened RemoteChain
  import opened ChainView
  import opened Ingestion
  import opened IngestionSystem
  import opened IngestionInvariant
  import opened IngestionSafety
  import opened Watermarks
  import opened Compaction
  import opened CompactionSafety

  /**
   * `view` is the publication the server reads, `current` the stream's cursor. `base` and `hashes` are the
   * blocks the stream has delivered and not withdrawn.
   */
  datatype Client = Client(view: nat, current: Option<Cursor>, base: nat, hashes: seq<Hash>)

  datatype ClientAction =
    | Acts(action: Compaction.Action)
    | Joins(view: nat, cursor: Option<Cursor>)
    | Syncs(view: nat)
    | Ticks
    | Backfills(n: nat)

  ghost function Held(c: Client): Ledger {
    Ledger(c.base, c.hashes, imap[])
  }

  /** What is left after an Invalidate message: the blocks up to the target, or the target alone. */
  function Withdrawn(c: Client, target: Cursor): Client {
    if c.base <= target.number < c.base + |c.hashes| then
      c.(current := Some(target), hashes := c.hashes[..target.number - c.base + 1])
    else c.(current := Some(target), base := target.number, hashes := [target.hash])
  }

  function Delivered(c: Client, next: Cursor): Client {
    c.(current := Some(next), base := if c.hashes == [] then next.number else c.base, hashes := c.hashes + [next.hash])
  }

  ghost function Answer(s: System, c: Client): Result<NextCursor>
    requires c.view < |s.published| && Readable(ReaderView(s, c.view))
  {
    if c.current.Some? && c.current.value.number < s.options.startingBlock then Rejected
    else GetNextCursor(ReaderView(s, c.view), c.current)
  }

  /** One pass of the stream's loop. A refused cursor ends the stream; at the head it waits. */
  ghost function Tick(s: System, c: Client): Client
    requires c.view < |s.published| && Readable(ReaderView(s, c.view))
  {
    match Answer(s, c)
    case Rejected => c
    case Ok(AtHead) => c
    case Ok(Invalidate(target)) => Withdrawn(c, target)
    case Ok(ContinueTo(next, _)) => Delivered(c, next)
  }

  /** What the stored segment holds for a height. */
  ghost predicate IsStored(d: Deployment, n: nat) {
    && d.sizes.segmentSize >= 1 && d.sizes.start <= n
    && var first := SegmentStartBlock(d.sizes, n);
       (first, 0) in d.segments && first <= n < first + |d.segments[(first, 0)].hashes|
  }

  ghost function HashAt(d: Deployment, n: nat): Hash
    requires IsStored(d, n)
  {
    var first := SegmentStartBlock(d.sizes, n);
    d.segments[(first, 0)].hashes[n - first]
  }

  function BackfillFrom(s: System, c: Client): nat {
    if c.current.None? then s.options.startingBlock else c.current.value.number + 1
  }

  ghost function Backfilled(d: Deployment, from: nat, n: nat): seq<Hash>
    requires from <= n && forall i :: from <= i <= n ==> IsStored(d, i)
  {
    seq(n - from + 1, i requires 0 <= i < n - from + 1 => HashAt(d, from + i))
  }

  /** The stream stands where a segment stream has left it. */
  predicate InStream(c: Client) {
    c.current.Some? && c.current.value == Unhashed(c.current.value.number)
  }

  /**
   * Blocks served from segments move the cursor without a hash; blocks without a match are skipped over. Only the
   * first step of a segment stream asks the view; the stream then goes on by any number of steps, with any changes of
   * view and watermark in between. The view's watermark lags, and nothing ties it to the publication the view holds.
   */
  ghost predicate CanBackfill(d: Deployment, c: Client, n: nat)
    requires c.view < |d.system.published|
  {
    && Readable(ReaderView(d.system, c.view))
    && (InStream(c) || (Answer(d.system, c).Ok? && Answer(d.system, c).value.ContinueTo?))
    && BackfillFrom(d.system, c) <= n && d.segmented.Some? && n <= d.segmented.value
    && forall i :: BackfillFrom(d.system, c) <= i <= n ==> IsStored(d, i)
  }

  ghost function Backfill(d: Deployment, c: Client, n: nat): Client
    requires c.view < |d.system.published| && CanBackfill(d, c, n)
  {
    var from := BackfillFrom(d.system, c);
    c.(current := Some(Unhashed(n)), base := if c.hashes == [] then from else c.base,
       hashes := c.hashes + Backfilled(d, from, n))
  }

  ghost predicate ClientEnabled(d: Deployment, c: Client, a: ClientAction) {
    var s := d.system;
    match a
    case Acts(action) => Compaction.Enabled(d, action)
    case Joins(view, cursor) =>
      && view < |s.published| && Readable(ReaderView(s, view))
      && (cursor.Some? ==> cursor.value.number >= s.options.startingBlock && IsFound(ReaderView(s, view), cursor.value))
    case Syncs(view) => c.view <= view < |s.published|
    case Ticks => c.view < |s.published| && Readable(ReaderView(s, c.view))
    case Backfills(n) => c.view < |s.published| && CanBackfill(d, c, n)
  }

  ghost function ClientStep(d: Deployment, c: Client, a: ClientAction): Client
    requires ClientEnabled(d, c, a)
  {
    match a
    case Acts(_) => c
    case Joins(view, None) => Client(view, None, 0, [])
    case Joins(view, Some(cursor)) => Client(view, Some(cursor), cursor.number, [cursor.hash])
    case Syncs(view) => c.(view := view)
    case Ticks => Tick(d.system, c)
    case Backfills(n) => Backfill(d, c, n)
  }

  /**
   * The condition on a backfill: every block was on the remote chain when its segment job read it, and the view's
   * own chain holds the last one.
   */
  ghost predicate Faithful(d: Deployment, c: Client, n: nat)
    requires c.view < |d.system.published| && CanBackfill(d, c, n)
  {
    && (forall i :: BackfillFrom(d.system, c) <= i <= n ==> SoundAt(d, i, 0))
    && IsCanonical(d.system.published[c.view].chain, Cursor(n, HashAt(d, n)))
  }

  // ------------------------------------------------------------------ the invariant

  /** The stream's cursor stands for the last block delivered: with its hash, or without one if the block is final. */
  ghost predicate Stands(s: System, c: Client)
    requires c.view < |s.published| && c.hashes != [] && c.current.Some?
  {
    var last, p := HeadOf(Held(c)), s.published[c.view];
    || (c.current.value == last && last in p.known + s.dropped)
    || (c.current.value == Unhashed(last.number) && Final(s.remote, last) && IsCanonical(p.chain, last))
  }

  /** What the client holds is one linked chain that ends where the stream stands. */
  ghost predicate ClientInv(s: System, c: Client) {
    && c.view < |s.published| && RemoteInv(s.remote)
    && Linked(TreeOf(s.remote), Held(c))
    && (c.current.None? <==> c.hashes == [])
    && (c.current.Some? ==> c.base >= s.options.startingBlock && Stands(s, c))
  }

  // ------------------------------------------------------------------ each answer is safe

  /**
   * A client is refused only if a restart dropped its block; at the head it holds nothing but published blocks,
   * up to the published head; it goes on only to a child of its block and back only to a strictly lower ancestor.
   */
  ghost predicate LedSafely(s: System, c: Client)
    requires c.view < |s.published| && RemoteInv(s.remote) && Readable(ReaderView(s, c.view))
  {
    var t, p := TreeOf(s.remote), s.published[c.view];
    match Answer(s, c)
    case Rejected => c.hashes != [] && HeadOf(Held(c)) in s.dropped && HeadOf(Held(c)) !in p.known
    case Ok(AtHead) =>
      c.hashes != [] && HeadOf(Held(c)) == p.snapshot.info.last && forall b :: IsCanonical(Held(c), b) ==>
        IsCanonical(p.chain, b)
    case Ok(ContinueTo(next, isHead)) =>
      && IsCanonical(p.chain, next) && next in p.known && (isHead ==> next == p.snapshot.info.last)
      && (if c.hashes == [] then next.number == s.options.startingBlock
          else IsCanonical(p.chain, HeadOf(Held(c))) && IsChild(t, next, HeadOf(Held(c))))
    case Ok(Invalidate(target)) =>
      c.hashes != [] && !IsCanonical(p.chain, HeadOf(Held(c))) && target in p.known
      && Ancestor(t, target, HeadOf(Held(c)))
  }

  ghost predicate IsChild(t: Tree, next: Cursor, c: Cursor) {
    next.hash in t && t[next.hash] == BlockInfo(c.number + 1, next.hash, c.hash) && next.number == c.number + 1
  }

  lemma HeldBlock(t: Tree, c: Client)
    requires Linked(t, Held(c)) && c.hashes != []
    ensures !IsZero(HeadOf(Held(c)).hash) && HeadOf(Held(c)).number >= c.base
  {
    assert LinkedAt(t, Held(c), |c.hashes| - 1);
  }

  /** A held chain whose head is the published head is part of the published chain. */
  lemma AtHeadHoldsTheChain(t: Tree, held: Ledger, chain: Ledger, b: Cursor)
    requires Linked(t, held) && Linked(t, chain) && held.hashes != [] && chain.hashes != []
             && HeadOf(held) == HeadOf(chain)
    requires held.first >= chain.first && IsCanonical(held, b)
    ensures IsCanonical(chain, b)
  {
    hide Linked;
    SharedBlockSharesBelow(t, held, chain, HeadOf(held), b.number);
  }

  lemma HashedAnswer(s: System, c: Client)
    requires ClientInv(s, c) && c.current.Some? && SeesOneChain(s, c.view) && c.current.value == HeadOf(Held(c))
    requires HeadOf(Held(c)) in s.published[c.view].known + s.dropped
    ensures LedSafely(s, c)
  {
    hide ViewOk, ChainOf, Linked, Remembers, GetNextCursor, RemoteInv, TreeOf, Ancestor;
    var t, v, p, last := TreeOf(s.remote), ReaderView(s, c.view), s.published[c.view], HeadOf(Held(c));
    HeldBlock(t, c);
    ViewIsReadable(v, p.count);
    if last in p.known {
      NextCursorIsSafe(t, v, p.count, p.known, last);
      if Answer(s, c).value.AtHead? {
        forall b | IsCanonical(Held(c), b)
          ensures IsCanonical(p.chain, b)
        {
          AtHeadHoldsTheChain(t, Held(c), p.chain, b);
        }
      }
    } else {
      UnknownIsRefused(t, v, p.count, p.known, last);
    }
  }

  lemma ViewIsReadable(v: View, count: nat)
    requires ViewOk(v, count)
    ensures Readable(v)
  {
  }

  lemma UnhashedAnswer(s: System, c: Client)
    requires c.view < |s.published| && RemoteInv(s.remote) && Linked(TreeOf(s.remote), Held(c))
             && SeesOneChain(s, c.view)
    requires c.hashes != [] && c.base >= s.options.startingBlock && c.current == Some(Unhashed(HeadOf(Held(c)).number))
    requires IsCanonical(s.published[c.view].chain, HeadOf(Held(c)))
    ensures Readable(ReaderView(s, c.view)) && LedSafely(s, c)
  {
    hide ViewOk, ChainOf, Linked, Remembers, GetNextCursor, RemoteInv, TreeOf, Ancestor;
    var t, v, p, last := TreeOf(s.remote), ReaderView(s, c.view), s.published[c.view], HeadOf(Held(c));
    ViewIsReadable(v, p.count);
    UnhashedContinues(t, v, p.count, last.number);
    CanonicalIsKnown(t, p.chain, p.known);
    NextCursorGoesOn(v, p.count, c.current.value);
    if Answer(s, c).value.AtHead? {
      forall b | IsCanonical(Held(c), b)
        ensures IsCanonical(p.chain, b)
      {
        AtHeadHoldsTheChain(t, Held(c), p.chain, b);
      }
    }
  }

  lemma FirstAnswer(s: System, c: Client)
    requires ClientInv(s, c) && c.current.None? && SeesOneChain(s, c.view)
    ensures LedSafely(s, c)
  {
    hide ViewOk, ChainOf, Linked, Remembers, RemoteInv, TreeOf, Ancestor, CanonicalAt;
    var v, p := ReaderView(s, c.view), s.published[c.view];
    ViewIsReadable(v, p.count);
    FirstCursor(v, p.count);
    CanonicalIsKnown(TreeOf(s.remote), p.chain, p.known);
  }

  lemma OneChainIsReadable(s: System, k: nat)
    requires k < |s.published| && RemoteInv(s.remote) && SeesOneChain(s, k)
    ensures Readable(ReaderView(s, k))
  {
    hide Supported, Linked, Remembers, RemoteInv, TreeOf, ChainOf;
  }

  lemma EveryAnswerIsSafe(s: System, c: Client)
    requires SystemInv(s) && ClientInv(s, c)
    ensures SeesOneChain(s, c.view) && Readable(ReaderView(s, c.view)) && LedSafely(s, c)
  {
    hide SystemInv, SeesOneChain, LedSafely, RemoteInv, TreeOf, Linked;
    ReaderSeesOneChain(s, c.view);
    OneChainIsReadable(s, c.view);
    if c.current.None? {
      FirstAnswer(s, c);
    } else if c.current.value == HeadOf(Held(c)) && HeadOf(Held(c)) in s.published[c.view].known + s.dropped {
      HashedAnswer(s, c);
    } else {
      UnhashedAnswer(s, c);
    }
  }

  // ------------------------------------------------------------------ every action keeps the invariant

  lemma {:induction false} AncestorInLinked(t: Tree, l: Ledger, a: Cursor, d: Cursor)
    requires Linked(t, l) && IsCanonical(l, d) && Ancestor(t, a, d) && a.number >= l.first
    ensures IsCanonical(l, a)
    decreases d.number
  {
    assert LinkedAt(t, l, d.number - l.first);
    var parent := Cursor(d.number - 1, t[d.hash].parent);
    if parent != a {
      AncestorInLinked(t, l, a, parent);
    }
  }

  /** A remembered cursor names a block. */
  lemma KnownInTree(r: Remote, chain: Ledger, known: set<Cursor>, c: Cursor)
    requires RemoteInv(r) && Linked(TreeOf(r), chain) && Remembers(TreeOf(r), chain, known) && c in known
    ensures Linked(TreeOf(r), Ledger(c.number, [c.hash], imap[])) && c.number >= chain.first
  {
    if IsCanonical(chain, c) {
      assert LinkedAt(TreeOf(r), chain, c.number - chain.first);
    } else {
      assert Ancestor(TreeOf(r), chain.moved[c], c);
    }
  }

  lemma LinkedPrefix(t: Tree, l: Ledger, n: nat)
    requires Linked(t, l) && n <= |l.hashes|
    ensures Linked(t, Ledger(l.first, l.hashes[..n], imap[]))
  {
    forall i: nat | i < n
      ensures LinkedAt(t, Ledger(l.first, l.hashes[..n], imap[]), i)
    {
      assert LinkedAt(t, l, i);
    }
  }

  /** Two linked stretches join when the upper one starts at a child of the lower one's head. */
  lemma LinkedJoin(t: Tree, l: Ledger, upper: Ledger)
    requires Linked(t, l) && Linked(t, upper) && l.hashes != [] && upper.hashes != []
    requires upper.first == HeadOf(l).number + 1 && upper.hashes[0] in t && t[upper.hashes[0]].parent == HeadOf(l).hash
    ensures Linked(t, Ledger(l.first, l.hashes + upper.hashes, imap[]))
  {
    var all := Ledger(l.first, l.hashes + upper.hashes, imap[]);
    forall i: nat | i < |all.hashes|
      ensures LinkedAt(t, all, i)
    {
      if i < |l.hashes| {
        assert LinkedAt(t, l, i);
      } else {
        assert LinkedAt(t, upper, i - |l.hashes|);
      }
    }
  }

  lemma WithdrawnOk(s: System, c: Client, target: Cursor)
    requires ClientInv(s, c) && SeesOneChain(s, c.view) && c.hashes != []
    requires target in s.published[c.view].known && Ancestor(TreeOf(s.remote), target, HeadOf(Held(c)))
    ensures ClientInv(s, Withdrawn(c, target))
  {
    hide ViewOk, ChainOf, Linked, Remembers, RemoteInv, TreeOf, Ancestor;
    var t, p := TreeOf(s.remote), s.published[c.view];
    KnownInTree(s.remote, p.chain, p.known, target);
    if target.number >= c.base {
      assert target.number < HeadOf(Held(c)).number by { AncestorIsLower(t, target, HeadOf(Held(c))); }
      AncestorInLinked(t, Held(c), target, HeadOf(Held(c)));
      LinkedPrefix(t, Held(c), target.number - c.base + 1);
    }
  }

  lemma AncestorIsLower(t: Tree, a: Cursor, d: Cursor)
    requires Ancestor(t, a, d)
    ensures a.number < d.number
  {
  }

  lemma DeliveredOk(s: System, c: Client, next: Cursor)
    requires ClientInv(s, c) && SeesOneChain(s, c.view) && next in s.published[c.view].known
    requires c.hashes != [] ==> IsChild(TreeOf(s.remote), next, HeadOf(Held(c)))
    ensures ClientInv(s, Delivered(c, next))
  {
    hide ViewOk, ChainOf, Linked, Remembers, RemoteInv, TreeOf;
    var t, p := TreeOf(s.remote), s.published[c.view];
    KnownInTree(s.remote, p.chain, p.known, next);
    if c.hashes != [] {
      LinkedJoin(t, Held(c), Ledger(next.number, [next.hash], imap[]));
    } else {
      assert c.hashes + [next.hash] == [next.hash];
    }
  }

  lemma TickOk(s: System, c: Client)
    requires SystemInv(s) && ClientInv(s, c)
    ensures Readable(ReaderView(s, c.view)) && ClientInv(s, Tick(s, c))
  {
    hide SystemInv, SeesOneChain, Ancestor, Answer, TreeOf, RemoteInv, IsCanonical, Linked, Stands;
    EveryAnswerIsSafe(s, c);
    match Answer(s, c)
    case Rejected =>
    case Ok(AtHead) =>
    case Ok(Invalidate(target)) => WithdrawnOk(s, c, target);
    case Ok(ContinueTo(next, _)) => DeliveredOk(s, c, next);
  }

  /** A stretch of a linked chain is linked. */
  lemma LinkedStretch(t: Tree, l: Ledger, from: nat, to: nat)
    requires Linked(t, l) && from <= to <= |l.hashes|
    ensures Linked(t, Ledger(l.first + from, l.hashes[from..to], imap[]))
  {
    var part := Ledger(l.first + from, l.hashes[from..to], imap[]);
    forall i: nat | i < |part.hashes|
      ensures LinkedAt(t, part, i)
    {
      assert LinkedAt(t, l, from + i);
    }
  }

  lemma ParentInChain(t: Tree, l: Ledger, i: nat)
    requires Linked(t, l) && 0 < i < |l.hashes|
    ensures l.hashes[i] in t && t[l.hashes[i]].parent == l.hashes[i - 1]
  {
    assert LinkedAt(t, l, i);
  }

  lemma ExtendedOk(t: Tree, c: Client, chain: Ledger, from: nat, n: nat)
    requires Linked(t, Held(c)) && Linked(t, chain) && chain.first <= from <= n < chain.first + |chain.hashes|
    requires c.hashes != [] ==> IsCanonical(chain, HeadOf(Held(c))) && from == HeadOf(Held(c)).number + 1
    ensures var base := if c.hashes == [] then from else c.base;
            var after := Ledger(base, c.hashes + chain.hashes[from - chain.first..n - chain.first + 1], imap[]);
            && Linked(t, after) && after.hashes != [] && HeadOf(after) == Cursor(n, chain.hashes[n - chain.first])
  {
    hide Linked;
    var upper := Ledger(from, chain.hashes[from - chain.first..n - chain.first + 1], imap[]);
    LinkedStretch(t, chain, from - chain.first, n - chain.first + 1);
    if c.hashes != [] {
      ParentInChain(t, chain, from - chain.first);
      LinkedJoin(t, Held(c), upper);
    } else {
      assert c.hashes + upper.hashes == upper.hashes;
    }
  }

  // ------------------------------------------------------------------ backfills

  /** A stored block was read soundly if and only if it is on the remote chain. */
  lemma StoredIsSoundIffOnChain(d: Deployment, n: nat)
    requires IsStored(d, n) && d.segmented.Some? && n <= d.segmented.value && Inv(d)
    ensures n <= d.system.remote.finalized && (SoundAt(d, n, 0) <==> OnChain(d.system.remote, Cursor(n, HashAt(d, n))))
  {
    hide Inv, SegmentStartBlock;
    InvFacts(d);
    SegmentedHolds(d, n, 0);
  }

  /** Below a block that the view shares with the remote chain, the view's blocks are the remote's. */
  lemma SharedBelow(s: System, k: nat, last: Cursor, c: Cursor)
    requires k < |s.published| && IsCanonical(s.published[k].chain, last)
             && s.published[k].chain.first <= c.number <= last.number
    requires OnChain(s.remote, last) && OnChain(s.remote, c) && SystemInv(s)
    ensures s.published[k].chain.hashes[c.number - s.published[k].chain.first] == c.hash
  {
    hide SystemInv, Linked, RemoteInv, TreeOf;
    ChainIsLinked(s, k);
    RemoteIsLinked(s.remote);
    SharedBlockSharesBelow(TreeOf(s.remote), s.published[k].chain, LedgerOf(s.remote), last, c.number);
    OnLedger(s.remote, c);
  }

  /** What a faithful backfill delivers is a stretch of the view's chain that ends at a final block. */
  ghost predicate DeliversChain(d: Deployment, c: Client, n: nat)
    requires c.view < |d.system.published| && CanBackfill(d, c, n)
  {
    var s, chain, from := d.system, d.system.published[c.view].chain, BackfillFrom(d.system, c);
    && chain.first == s.options.startingBlock <= from && n < chain.first + |chain.hashes|
    && Backfilled(d, from, n) == chain.hashes[from - chain.first..n - chain.first + 1]
    && Final(s.remote, Cursor(n, HashAt(d, n)))
  }

  lemma BackfilledIsChain(d: Deployment, c: Client, n: nat)
    requires c.view < |d.system.published| && CanBackfill(d, c, n) && Faithful(d, c, n) && Inv(d)
    ensures SystemInv(d.system) && DeliversChain(d, c, n)
  {
    hide Inv, SystemInv, IsStored, HashAt, SoundAt, Answer, OnChain;
    SystemOf(d);
    var s, chain, from := d.system, d.system.published[c.view].chain, BackfillFrom(d.system, c);
    PublishedShape(s, c.view);
    StoredAbove(d, from);
    StoredIsSoundIffOnChain(d, n);
    forall i | from <= i <= n
      ensures HashAt(d, i) == chain.hashes[i - chain.first]
    {
      StoredIsSoundIffOnChain(d, i);
      SharedBelow(s, c.view, Cursor(n, HashAt(d, n)), Cursor(i, HashAt(d, i)));
    }
  }

  lemma SystemOf(d: Deployment)
    requires Inv(d)
    ensures SystemInv(d.system) && d.sizes.start == d.system.options.startingBlock
  {
  }

  lemma ChainIsLinked(s: System, k: nat)
    requires SystemInv(s) && k < |s.published|
    ensures RemoteInv(s.remote) && Linked(TreeOf(s.remote), s.published[k].chain)
  {
    hide UpOk, PublishedInOrder, AllWf, Supported, ViewChain, Remembers;
  }

  lemma OnLedger(r: Remote, c: Cursor)
    requires RemoteInv(r) && OnChain(r, c)
    ensures c.number < |LedgerOf(r).hashes| && LedgerOf(r).hashes[c.number] == c.hash
  {
  }

  lemma BackfillOk(d: Deployment, c: Client, n: nat)
    requires c.view < |d.system.published| && CanBackfill(d, c, n) && Faithful(d, c, n) && ClientInv(d.system, c)
             && Inv(d)
    ensures ClientInv(d.system, Backfill(d, c, n))
  {
    hide Inv, SystemInv, ViewOk, ChainOf, Linked, Remembers, RemoteInv, TreeOf, Ancestor, GetNextCursor, IsStored,
         HashAt, SoundAt, Backfilled;
    BackfilledIsChain(d, c, n);
    var s, chain, from := d.system, d.system.published[c.view].chain, BackfillFrom(d.system, c);
    EveryAnswerIsSafe(s, c);
    ChainIsLinked(s, c.view);
    if c.hashes != [] { HeldBlock(TreeOf(s.remote), c); }
    ExtendedOk(TreeOf(s.remote), c, chain, from, n);
  }

  /** The condition is exact: the client still stands safely after a backfill if and only if it was faithful. */
  lemma BackfillSafeIffFaithful(d: Deployment, c: Client, n: nat)
    requires c.view < |d.system.published| && CanBackfill(d, c, n) && ClientInv(d.system, c) && Inv(d)
    ensures ClientInv(d.system, Backfill(d, c, n)) <==> Faithful(d, c, n)
  {
    hide Inv, IsStored, HashAt, SoundAt, Linked, RemoteInv, TreeOf, Answer;
    if Faithful(d, c, n) { BackfillOk(d, c, n); }
    if ClientInv(d.system, Backfill(d, c, n)) { SafeIsFaithful(d, c, n); }
  }

  lemma SafeIsFaithful(d: Deployment, c: Client, n: nat)
    requires c.view < |d.system.published| && CanBackfill(d, c, n) && ClientInv(d.system, c) && Inv(d)
    requires ClientInv(d.system, Backfill(d, c, n))
    ensures Faithful(d, c, n)
  {
    hide Inv, IsStored, HashAt, SoundAt, Linked, RemoteInv, TreeOf, Answer;
    var s, after, from := d.system, Backfill(d, c, n), BackfillFrom(d.system, c);
    var t, held, last := TreeOf(s.remote), Held(after), Cursor(n, HashAt(d, n));
    HeldFollows(s, c);
    HeldBlock(t, after);
    assert HeadOf(held) == last;
    RemoteIsLinked(s.remote);
    forall i | from <= i <= n
      ensures SoundAt(d, i, 0)
    {
      SharedBlockSharesBelow(t, held, LedgerOf(s.remote), last, i);
      LedgerOn(s.remote, i);
      assert held.hashes[i - held.first] == HashAt(d, i);
      StoredIsSoundIffOnChain(d, i);
    }
  }

  lemma HeldFollows(s: System, c: Client)
    requires ClientInv(s, c)
    ensures c.hashes != [] ==> BackfillFrom(s, c) == c.base + |c.hashes|
  {
  }

  lemma LedgerOn(r: Remote, n: nat)
    requires RemoteInv(r) && n < |LedgerOf(r).hashes|
    ensures OnChain(r, Cursor(n, LedgerOf(r).hashes[n]))
  {
  }

  /** It is enough that the segments were read soundly from publications no newer than the client's view. */
  lemma NewerViewIsFaithful(d: Deployment, c: Client, n: nat, k: nat)
    requires c.view < |d.system.published| && CanBackfill(d, c, n) && k <= c.view && Clean(d)
    requires IsCanonical(d.system.published[k].chain, Cursor(n, HashAt(d, n))) && Inv(d)
    ensures Faithful(d, c, n)
  {
    hide Inv, SystemInv, IsStored, HashAt, SoundAt, Linked, RemoteInv, TreeOf, Answer, Clean;
    SystemOf(d);
    InvFacts(d);
    CleanIsSound(d);
    StoredIsSoundIffOnChain(d, n);
    LaterFollows(d.system, k, c.view);
    forall i | BackfillFrom(d.system, c) <= i <= n
      ensures SoundAt(d, i, 0)
    {
      StoredAbove(d, i);
    }
    StoredAbove(d, n);
  }

  lemma StoredAbove(d: Deployment, n: nat)
    requires IsStored(d, n)
    ensures d.sizes.start <= n && d.sizes.segmentSize >= 1
  {
  }

  lemma SyncOk(s: System, c: Client, view: nat)
    requires SystemInv(s) && ClientInv(s, c) && c.view <= view < |s.published|
    ensures ClientInv(s, c.(view := view))
  {
    hide SystemInv, Linked, RemoteInv, TreeOf;
    LaterFollows(s, c.view, view);
    assert Held(c.(view := view)) == Held(c);
  }

  lemma JoinOk(d: Deployment, c: Client, view: nat, cursor: Option<Cursor>)
    requires ClientEnabled(d, c, Joins(view, cursor)) && SystemInv(d.system)
    ensures ClientInv(d.system, ClientStep(d, c, Joins(view, cursor)))
  {
    hide SystemInv, ViewOk, ChainOf, Remembers, RemoteInv, TreeOf, IsFound, LinkedAt;
    var s := d.system;
    RemoteOk(s);
    ReaderSeesOneChain(s, view);
    var v, p := ReaderView(s, view), s.published[view];
    if cursor.Some? {
      FoundIsRemembered(TreeOf(s.remote), v, p.count, p.known, cursor.value);
      KnownInTree(s.remote, p.chain, p.known, cursor.value);
    }
  }

  lemma SystemActsOk(s: System, c: Client, a: IngestionSystem.Action)
    requires SystemInv(s) && IngestionSystem.Ready(s) && IsEnabled(s, a) && ClientInv(s, c)
    ensures ClientInv(IngestionSystem.Step(s, a), c)
  {
    hide SystemInv, IngestionSystem.Ready, IngestionSystem.Step, IsEnabled, RemoteInv, Linked, TreeOf, Extends;
    StepLeavesStore(s, a);
    StepSucceeds(s, a);
    LinkedExtends(TreeOf(s.remote), TreeOf(IngestionSystem.Step(s, a).remote), Held(c));
  }

  lemma ActsOk(d: Deployment, c: Client, a: Compaction.Action)
    requires Compaction.Enabled(d, a) && Compaction.Ready(d, a) && ClientInv(d.system, c) && Inv(d)
    ensures ClientInv(Compaction.Step(d, a).system, c)
  {
    hide Inv, SystemInv, ClientInv, IngestionSystem.Ready, IngestionSystem.Step, IsEnabled;
    SystemOf(d);
    if a.SystemActs? { SystemActsOk(d.system, c, a.action); }
  }

  /** What is asked of an action for the client to stay safe: nothing, but that a backfill be faithful. */
  ghost predicate Kind(d: Deployment, c: Client, a: ClientAction)
    requires ClientEnabled(d, c, a)
  {
    a.Backfills? ==> Faithful(d, c, a.n)
  }

  lemma ClientStepKeepsInv(d: Deployment, c: Client, a: ClientAction)
    requires ClientEnabled(d, c, a) && Kind(d, c, a) && (ClientInv(d.system, c) || a.Joins?) && !a.Acts? && Inv(d)
    ensures ClientInv(d.system, ClientStep(d, c, a))
  {
    hide Inv, SystemInv, ClientInv, Tick, Backfill, CanBackfill, Faithful;
    SystemOf(d);
    match a
    case Joins(view, cursor) => JoinOk(d, c, view, cursor);
    case Syncs(view) => SyncOk(d.system, c, view);
    case Ticks => TickOk(d.system, c);
    case Backfills(n) => BackfillOk(d, c, n);
  }

  // ------------------------------------------------------------------ whole runs

  function ClientOr(c: Option<Client>): Client {
    if c.Some? then c.value else Client(0, None, 0, [])
  }

  /** One step of a run that a client takes part in once it has joined. */
  ghost predicate ClientLeads(d: Deployment, c: Option<Client>, a: ClientAction, d': Deployment, c': Option<Client>) {
    match a
    case Acts(action) => Compaction.Leads(d, action, d') && c' == c
    case _ =>
      && (c.Some? || a.Joins?) && d' == d && ClientEnabled(d, ClientOr(c), a)
      && c' == Some(ClientStep(d, ClientOr(c), a))
  }

  ghost predicate IsClientRun(states: seq<Deployment>, clients: seq<Option<Client>>, actions: seq<ClientAction>) {
    && |states| == |clients| == |actions| + 1
    && Compaction.Initially(states[0]) && clients[0] == None
    && forall i :: 0 <= i < |actions| ==> ClientLeads(states[i], clients[i], actions[i], states[i + 1], clients[i + 1])
  }

  /** Every backfill before state i was faithful. */
  ghost predicate FaithfulUpTo(states: seq<Deployment>, clients: seq<Option<Client>>, actions: seq<ClientAction>,
                               i: nat)
    requires |states| == |clients| == |actions| + 1
  {
    forall j :: 0 <= j < i && j < |actions| && ClientEnabled(states[j], ClientOr(clients[j]), actions[j]) ==>
      Kind(states[j], ClientOr(clients[j]), actions[j])
  }

  lemma {:induction false} DeploymentInv(states: seq<Deployment>, clients: seq<Option<Client>>,
                                         actions: seq<ClientAction>, i: nat)
    requires IsClientRun(states, clients, actions) && i < |states|
    ensures Inv(states[i])
  {
    hide Inv, Compaction.Initially, Compaction.Enabled, Compaction.Ready, Compaction.Step, ClientEnabled, ClientStep,
         Compaction.Keeps;
    if i == 0 {
      InitiallyInv(states[0]);
    } else {
      DeploymentInv(states, clients, actions, i - 1);
      assert ClientLeads(states[i - 1], clients[i - 1], actions[i - 1], states[i], clients[i]);
      if actions[i - 1].Acts? { Compaction.StepKeepsInv(states[i - 1], actions[i - 1].action); }
    }
  }

  lemma {:induction false} ClientRunInv(states: seq<Deployment>, clients: seq<Option<Client>>,
                                        actions: seq<ClientAction>, i: nat)
    requires IsClientRun(states, clients, actions) && i < |states| && FaithfulUpTo(states, clients, actions, i)
    ensures clients[i].Some? ==> ClientInv(states[i].system, clients[i].value)
  {
    hide Inv, Compaction.Initially, Compaction.Enabled, Compaction.Ready, Compaction.Step, ClientEnabled, ClientStep,
         ClientInv, Kind, Compaction.Keeps;
    if i > 0 {
      ClientRunInv(states, clients, actions, i - 1);
      var d, c, a := states[i - 1], clients[i - 1], actions[i - 1];
      assert ClientLeads(d, c, a, states[i], clients[i]);
      DeploymentInv(states, clients, actions, i - 1);
      match a
      case Acts(action) =>
        Compaction.StepKeepsInv(d, action);
        if c.Some? { ActsOk(d, c.value, action); }
      case _ =>
        ClientStepKeepsInv(d, ClientOr(c), a);
    }
  }

  /**
   * In every state of every run, whatever the remote chain, the ingester, compaction and the server did: if the
   * backfills were faithful, a client's next answer is safe, and if no restart has dropped a reorg entry it is not
   * refused.
   */
  lemma ClientsAreLedSafely(states: seq<Deployment>, clients: seq<Option<Client>>, actions: seq<ClientAction>, i: nat)
    requires IsClientRun(states, clients, actions) && i < |states| && clients[i].Some?
             && FaithfulUpTo(states, clients, actions, i)
    ensures var s, c := states[i].system, clients[i].value;
            && ClientInv(s, c) && Readable(ReaderView(s, c.view)) && LedSafely(s, c)
            && (s.dropped == {} ==> Answer(s, c).Ok?)
  {
    hide Inv, SystemInv, ClientInv, LedSafely, Answer, ClientLeads, FaithfulUpTo, Compaction.Initially;
    ClientRunInv(states, clients, actions, i);
    DeploymentInv(states, clients, actions, i);
    SystemOf(states[i]);
    var s, c := states[i].system, clients[i].value;
    EveryAnswerIsSafe(s, c);
    if s.dropped == {} { NotRefused(s, c); }
  }

  lemma NotRefused(s: System, c: Client)
    requires ClientInv(s, c) && Readable(ReaderView(s, c.view)) && LedSafely(s, c) && s.dropped == {}
    ensures Answer(s, c).Ok?
  {
    hide Answer, RemoteInv, TreeOf, Linked;
  }

  // ------------------------------------------------------------------ when all backfills are faithful

  /** The last block of every segment job was on the remote chain when the job read it. */
  ghost predicate ReadSoundly(states: seq<Deployment>, actions: seq<ClientAction>, i: nat)
    requires |states| == |actions| + 1
  {
    forall j :: 0 <= j < i && j < |actions| && actions[j].Acts? ==> LastOnChain(states[j], actions[j].action)
  }

  /** The view is no older than some publication that holds the last block of the backfill. */
  ghost predicate KeepsUp(d: Deployment, c: Client, n: nat) {
    IsStored(d, n) ==>
      exists k: nat :: k <= c.view && k < |d.system.published|
                       && IsCanonical(d.system.published[k].chain, Cursor(n, HashAt(d, n)))
  }

  ghost predicate ViewsKeepUp(states: seq<Deployment>, clients: seq<Option<Client>>, actions: seq<ClientAction>, i: nat)
    requires |states| == |clients| == |actions| + 1
  {
    forall j :: 0 <= j < i && j < |actions| && actions[j].Backfills? ==>
      KeepsUp(states[j], ClientOr(clients[j]), actions[j].n)
  }

  lemma {:induction false} ClientRunIsClean(states: seq<Deployment>, clients: seq<Option<Client>>,
                                            actions: seq<ClientAction>, i: nat)
    requires IsClientRun(states, clients, actions) && i < |states| && ReadSoundly(states, actions, i)
    ensures Clean(states[i])
  {
    hide Inv, Compaction.Enabled, Compaction.Step, Compaction.Ready, LastOnChain, ClientEnabled, ClientStep;
    if i > 0 {
      ClientRunIsClean(states, clients, actions, i - 1);
      DeploymentInv(states, clients, actions, i - 1);
      assert ClientLeads(states[i - 1], clients[i - 1], actions[i - 1], states[i], clients[i]);
      if actions[i - 1].Acts? { StepKeepsClean(states[i - 1], actions[i - 1].action); }
    }
  }

  /** Two conditions that compaction and the server can see to are enough, in every run. */
  lemma SoundRunsLeadSafely(states: seq<Deployment>, clients: seq<Option<Client>>, actions: seq<ClientAction>, i: nat)
    requires IsClientRun(states, clients, actions) && i < |states| && clients[i].Some?
    requires ReadSoundly(states, actions, i) && ViewsKeepUp(states, clients, actions, i)
    ensures var s, c := states[i].system, clients[i].value;
            && ClientInv(s, c) && Readable(ReaderView(s, c.view)) && LedSafely(s, c)
            && (s.dropped == {} ==> Answer(s, c).Ok?)
  {
    hide Inv, ClientInv, LedSafely, Answer, ClientLeads, LastOnChain, IsStored, HashAt, CanBackfill,
         Compaction.Initially, Clean, Readable, Faithful;
    forall j | 0 <= j < i && j < |actions| && ClientEnabled(states[j], ClientOr(clients[j]), actions[j])
      ensures Kind(states[j], ClientOr(clients[j]), actions[j])
    {
      var d, c, a := states[j], ClientOr(clients[j]), actions[j];
      if a.Backfills? {
        DeploymentInv(states, clients, actions, j);
        ClientRunIsClean(states, clients, actions, j);
        LastIsStored(d, c, a.n);
        assert KeepsUp(d, c, a.n);
        var k: nat :| k <= c.view && k < |d.system.published|
                      && IsCanonical(d.system.published[k].chain, Cursor(a.n, HashAt(d, a.n)));
        NewerViewIsFaithful(d, c, a.n, k);
      }
    }
    ClientsAreLedSafely(states, clients, actions, i);
  }

  lemma LastIsStored(d: Deployment, c: Client, n: nat)
    requires c.view < |d.system.published| && CanBackfill(d, c, n)
    ensures IsStored(d, n)
  {
    hide IsStored, Answer;
  }

  // ------------------------------------------------------------------ how many messages lead back

  /** The Ticks of a stretch of a run. */
  ghost function TicksIn(actions: seq<ClientAction>, i: nat, j: nat): nat
    requires i <= j <= |actions|
    decreases j - i
  {
    if i == j then 0 else (if actions[i].Ticks? then 1 else 0) + TicksIn(actions, i + 1, j)
  }

  /** In this stretch the client only waits, or is led back at every tick. */
  ghost predicate OnlyInvalidates(states: seq<Deployment>, clients: seq<Option<Client>>, actions: seq<ClientAction>,
                                  i: nat, j: nat)
    requires IsClientRun(states, clients, actions) && i <= j <= |actions|
  {
    forall k :: i <= k < j ==>
      && (actions[k].Acts? || actions[k].Syncs? || actions[k].Ticks?)
      && (actions[k].Ticks? ==> LedBack(states[k].system, clients[k]))
  }

  ghost predicate LedBack(s: System, c: Option<Client>) {
    && c.Some? && c.value.view < |s.published| && Readable(ReaderView(s, c.value.view))
    && Answer(s, c.value).Ok? && Answer(s, c.value).value.Invalidate?
  }

  /** One Invalidate message leads strictly down and not below the starting block. */
  lemma LedBackLowers(d: Deployment, c: Client)
    requires LedBack(d.system, Some(c)) && ClientInv(d.system, c) && SystemInv(d.system)
    ensures c.current.Some? && Tick(d.system, c).current.Some?
    ensures d.system.options.startingBlock <= Tick(d.system, c).current.value.number < c.current.value.number
  {
    hide SystemInv, ClientInv, Ancestor, TreeOf, RemoteInv, Linked, Answer;
    EveryAnswerIsSafe(d.system, c);
    TickOk(d.system, c);
    HeldIsAbove(d.system, c);
    HeldIsAbove(d.system, Tick(d.system, c));
    AncestorIsLower(TreeOf(d.system.remote), Answer(d.system, c).value.target, HeadOf(Held(c)));
  }

  lemma HeldIsAbove(s: System, c: Client)
    requires ClientInv(s, c)
    ensures RemoteInv(s.remote) && c.view < |s.published| && (c.current.None? <==> c.hashes == [])
    ensures c.current.Some? ==>
              c.current.value.number == HeadOf(Held(c)).number && s.options.startingBlock <= c.current.value.number
  {
    hide RemoteInv, TreeOf, Linked;
  }

  lemma {:induction false} OptionsStay(states: seq<Deployment>, clients: seq<Option<Client>>,
                                       actions: seq<ClientAction>, i: nat)
    requires IsClientRun(states, clients, actions) && i < |actions|
    ensures states[i + 1].system.options == states[i].system.options
  {
    hide Inv, Compaction.Initially, Compaction.Enabled, Compaction.Ready, ClientEnabled, ClientStep, Compaction.Keeps,
         IngestionSystem.Step, IsEnabled, IngestionSystem.Ready;
    DeploymentInv(states, clients, actions, i);
    assert ClientLeads(states[i], clients[i], actions[i], states[i + 1], clients[i + 1]);
    if actions[i].Acts? {
      Compaction.StepKeepsInv(states[i], actions[i].action);
      ActedOptions(states[i], actions[i].action);
    }
  }

  lemma ActedOptions(d: Deployment, a: Compaction.Action)
    requires Compaction.Enabled(d, a) && Compaction.Ready(d, a)
    ensures Compaction.Step(d, a).system.options == d.system.options
  {
    hide IngestionSystem.Step, IsEnabled, IngestionSystem.Ready;
    if a.SystemActs? { StepLeavesStore(d.system, a.action); }
  }

  /**
   * Over any stretch of a run in which every tick is answered Invalidate, whatever the remote chain, the ingester,
   * compaction and the server's view do in between, there are at most as many as there are blocks below the cursor.
   */
  lemma {:induction false} InvalidationsAreBounded(states: seq<Deployment>, clients: seq<Option<Client>>,
                                                   actions: seq<ClientAction>, i: nat, j: nat)
    requires IsClientRun(states, clients, actions) && i <= j <= |actions|
             && OnlyInvalidates(states, clients, actions, i, j)
    requires clients[i].Some? && FaithfulUpTo(states, clients, actions, j)
    ensures var s, c := states[i].system, clients[i].value;
            if c.current.None? then TicksIn(actions, i, j) == 0
            else c.current.value.number >= s.options.startingBlock
                 && TicksIn(actions, i, j) <= c.current.value.number - s.options.startingBlock
    decreases j - i
  {
    hide Inv, SystemInv, Compaction.Initially, Compaction.Enabled, Compaction.Ready, Compaction.Step, CanBackfill,
         ClientInv, Kind, Compaction.Keeps, Tick, Backfill, LedBack;
    ClientRunInv(states, clients, actions, i);
    HeldIsAbove(states[i].system, clients[i].value);
    if i < j {
      assert ClientLeads(states[i], clients[i], actions[i], states[i + 1], clients[i + 1]);
      OptionsStay(states, clients, actions, i);
      DeploymentInv(states, clients, actions, i);
      SystemOf(states[i]);
      InvalidationsAreBounded(states, clients, actions, i + 1, j);
      if actions[i].Ticks? { LedBackLowers(states[i], clients[i].value); }
    }
  }

  // ------------------------------------------------------------------ clients that stand on a stale block

  /** A client whose cursor has no hash is led safely only while the view's chain holds the block it stands for. */
  lemma UnhashedNeedsItsBlock(s: System, c: Client)
    requires c.view < |s.published| && c.hashes != [] && c.current == Some(Unhashed(HeadOf(Held(c)).number))
    requires s.options.startingBlock <= HeadOf(Held(c)).number <= s.published[c.view].snapshot.info.last.number
             && SystemInv(s)
    ensures RemoteInv(s.remote) && Readable(ReaderView(s, c.view))
    ensures LedSafely(s, c) ==> IsCanonical(s.published[c.view].chain, HeadOf(Held(c)))
  {
    hide SystemInv, ViewOk, ChainOf, Linked, Remembers, GetNextCursor, RemoteInv, TreeOf, Ancestor;
    RemoteOk(s);
    ReaderSeesOneChain(s, c.view);
    var v, p := ReaderView(s, c.view), s.published[c.view];
    ViewIsReadable(v, p.count);
    NextCursorGoesOn(v, p.count, c.current.value);
    HeadIsCanonical(v, p.count);
  }

  /** And if its blocks are linked, exactly then. */
  lemma UnhashedSafeIffCanonical(s: System, c: Client)
    requires c.view < |s.published| && c.hashes != [] && c.current == Some(Unhashed(HeadOf(Held(c)).number))
    requires s.options.startingBlock <= c.base
             && HeadOf(Held(c)).number <= s.published[c.view].snapshot.info.last.number
    requires RemoteInv(s.remote) && Linked(TreeOf(s.remote), Held(c)) && SystemInv(s)
    ensures Readable(ReaderView(s, c.view))
    ensures LedSafely(s, c) <==> IsCanonical(s.published[c.view].chain, HeadOf(Held(c)))
  {
    hide SystemInv, Linked, RemoteInv, TreeOf, LedSafely, SeesOneChain;
    UnhashedNeedsItsBlock(s, c);
    ReaderSeesOneChain(s, c.view);
    if IsCanonical(s.published[c.view].chain, HeadOf(Held(c))) { UnhashedAnswer(s, c); }
  }

  /** Reorg entries are for blocks, so a cursor without a hash has none. */
  lemma NoEntryWithoutHash(s: System, k: nat, n: nat)
    requires k < |s.published| && SystemInv(s)
    ensures Unhashed(n) !in s.published[k].chain.moved
  {
    hide SystemInv, ViewOk, ChainOf, Linked, RemoteInv, TreeOf, LeadsDown;
    RemoteOk(s);
    ReaderSeesOneChain(s, k);
  }

  /** When the view falls back below such a cursor, the client is refused, although nothing was dropped. */
  lemma UnhashedAboveIsRefused(s: System, c: Client, n: nat)
    requires c.view < |s.published| && c.current == Some(Unhashed(n))
             && n > s.published[c.view].snapshot.info.last.number
    requires n >= s.options.startingBlock && SystemInv(s)
    ensures Readable(ReaderView(s, c.view)) && Answer(s, c).Rejected?
  {
    hide SystemInv, ViewOk, ChainOf, Linked, Remembers, RemoteInv, TreeOf;
    RemoteOk(s);
    ReaderSeesOneChain(s, c.view);
    var v, p := ReaderView(s, c.view), s.published[c.view];
    ViewIsReadable(v, p.count);
    ViewReads(v, p.count, c.current.value);
    NoEntryWithoutHash(s, c.view, n);
  }

  lemma {:induction false} ClientRunMoves(states: seq<Deployment>, clients: seq<Option<Client>>,
                                          actions: seq<ClientAction>, j: nat, i: nat)
    requires IsClientRun(states, clients, actions) && j <= i < |states|
    ensures Moves(states[j].system.remote, states[i].system.remote)
            && states[i].system.options == states[j].system.options
    decreases i
  {
    hide Inv, Compaction.Initially, Compaction.Enabled, Compaction.Ready, Compaction.Step, ClientEnabled, ClientStep,
         SegmentOk, GroupOk, OnChain;
    if j < i {
      ClientRunMoves(states, clients, actions, j, i - 1);
      DeploymentInv(states, clients, actions, i - 1);
      assert ClientLeads(states[i - 1], clients[i - 1], actions[i - 1], states[i], clients[i]);
      OptionsStay(states, clients, actions, i - 1);
      if actions[i - 1].Acts? { Compaction.StepKeepsInv(states[i - 1], actions[i - 1].action); }
    }
  }

  /** The cursor's height is that of the last block held, whatever was delivered. */
  predicate Counted(c: Client) {
    (c.current.None? <==> c.hashes == []) && (c.current.Some? ==> c.current.value.number + 1 == c.base + |c.hashes|)
  }

  lemma NextIsAbove(v: View, c: Cursor)
    requires Readable(v) && c.number >= v.start && GetNextCursor(v, Some(c)).Ok?
             && GetNextCursor(v, Some(c)).value.ContinueTo?
    ensures GetNextCursor(v, Some(c)).value.cursor.number == c.number + 1
  {
    hide ReconnectAt;
  }

  lemma StepKeepsCount(d: Deployment, c: Client, a: ClientAction)
    requires ClientEnabled(d, c, a) && (Counted(c) || a.Joins?)
    ensures Counted(ClientStep(d, c, a))
  {
    hide Compaction.Enabled, IsFound, GetNextCursor, IsStored, HashAt, Readable;
    if a.Ticks? && c.current.Some? && Answer(d.system, c).Ok? && Answer(d.system, c).value.ContinueTo? {
      NextIsAbove(ReaderView(d.system, c.view), c.current.value);
    }
  }

  lemma {:induction false} ClientRunCounted(states: seq<Deployment>, clients: seq<Option<Client>>,
                                            actions: seq<ClientAction>, i: nat)
    requires IsClientRun(states, clients, actions) && i < |states|
    ensures clients[i].Some? ==> Counted(clients[i].value)
  {
    hide Compaction.Initially, Compaction.Enabled, Compaction.Ready, Compaction.Step, ClientEnabled, ClientStep,
         Counted;
    if i > 0 {
      ClientRunCounted(states, clients, actions, i - 1);
      assert ClientLeads(states[i - 1], clients[i - 1], actions[i - 1], states[i], clients[i]);
      if !actions[i - 1].Acts? { StepKeepsCount(states[i - 1], ClientOr(clients[i - 1]), actions[i - 1]); }
    }
  }

  /**
   * A client that was served a block its segment job had not read soundly is misled as soon as the server's view
   * holds the remote's own block of that height: its next answer is not safe.
   */
  lemma StaleBackfillMisleads(states: seq<Deployment>, clients: seq<Option<Client>>, actions: seq<ClientAction>,
                              j: nat, i: nat)
    requires IsClientRun(states, clients, actions) && j < i < |states| && actions[j].Backfills?
             && !SoundAt(states[j], actions[j].n, 0)
    requires clients[j + 1].Some? && clients[i].Some?
             && clients[i].value == clients[j + 1].value.(view := clients[i].value.view)
    requires HasCaughtUp(states[i].system, clients[i].value, actions[j].n)
    ensures RemoteInv(states[i].system.remote) && Readable(ReaderView(states[i].system, clients[i].value.view))
    ensures !LedSafely(states[i].system, clients[i].value)
  {
    hide Inv, SystemInv, Compaction.Initially, Compaction.Enabled, Compaction.Ready, Compaction.Step, SoundAt,
         IsStored, HashAt, RemoteInv, LedSafely, Answer;
    var n, c := actions[j].n, clients[i].value;
    assert ClientLeads(states[j], clients[j], actions[j], states[j + 1], clients[j + 1]);
    DeploymentInv(states, clients, actions, j);
    DeploymentInv(states, clients, actions, i);
    SystemOf(states[i]);
    StoredIsSoundIffOnChain(states[j], n);
    ClientRunMoves(states, clients, actions, j, i);
    ClientRunCounted(states, clients, actions, j);
    assert HeadOf(Held(c)) == Cursor(n, HashAt(states[j], n));
    assert !OnChain(states[i].system.remote, HeadOf(Held(c)));
    PublishedShape(states[i].system, c.view);
    UnhashedNeedsItsBlock(states[i].system, c);
  }

  /** The view's chain holds the remote's block of a height. */
  ghost predicate HasCaughtUp(s: System, c: Client, n: nat) {
    c.view < |s.published| && n in s.remote.canonical
    && IsCanonical(s.published[c.view].chain, Cursor(n, s.remote.canonical[n]))
  }
}
