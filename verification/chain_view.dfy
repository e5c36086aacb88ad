/**
 * The full canonical chain a reader sees: stored segments below one recent snapshot (common/src/chain_view/full.rs).
 */
module ChainView {
  import opened Core
  import opened Watermarks
  import opened Chain
  import opened Ledgers
  import opened ChainHistory

  datatype View = View(start: nat, size: nat, segments: map<nat, Segment>, recent: Segment)

  datatype NextCursor = ContinueTo(cursor: Cursor, isHead: bool) | Invalidate(target: Cursor) | AtHead

  datatype CanonicalCursor = BeforeAvailable(cursor: Cursor) | AfterAvailable(cursor: Cursor) | AtHeight(cursor: Cursor)

  datatype ValidatedCursor = Valid(cursor: Cursor) | Invalid(canonical: Cursor, siblings: set<Cursor>)

  /** Block numbers below the starting block underflow in the source. */
  function ChainSegmentStart(n: nat, start: nat, size: nat): nat
    requires n >= start && size >= 1
  {
    (n - start) / size * size + start
  }

  /** What the source needs of a view to read it without a panic. */
  ghost predicate Readable(v: View) {
    && v.size >= 1 && WfSegment(v.recent)
    && forall n :: n in v.segments ==> WfSegment(v.segments[n])
  }

  function GetChainSegment(v: View, n: nat): (r: Result<Segment>)
    requires Readable(v) && n >= v.start
    ensures r.Ok? ==> WfSegment(r.value)
  {
    if v.recent.info.first.number <= n then Ok(v.recent)
    else
      var key := ChainSegmentStart(n, v.start, v.size);
      if key in v.segments then Ok(v.segments[key]) else Rejected
  }

  function CanonicalAt(v: View, n: nat): Result<Cursor>
    requires Readable(v) && n >= v.start
  {
    match GetChainSegment(v, n)
    case Rejected => Rejected
    case Ok(segment) => Canonical(segment, n)
  }

  function GetCanonical(v: View, n: nat): Result<CanonicalCursor>
    requires Readable(v)
  {
    if n > v.recent.info.last.number then Ok(AfterAvailable(v.recent.info.last))
    else if n < v.start then
      match CanonicalAt(v, v.start)
      case Rejected => Rejected
      case Ok(c) => Ok(BeforeAvailable(c))
    else
      match CanonicalAt(v, n)
      case Rejected => Rejected
      case Ok(c) => Ok(AtHeight(c))
  }

  function ReconnectAt(v: View, c: Cursor): Result<ReconnectAction>
    requires Readable(v) && c.number >= v.start
  {
    match GetChainSegment(v, c.number)
    case Rejected => Rejected
    case Ok(segment) => Reconnect(segment, c)
  }

  function GetNextCursor(v: View, current: Option<Cursor>): Result<NextCursor>
    requires Readable(v) && (current.Some? ==> current.value.number >= v.start)
  {
    match current
    case None =>
      (match CanonicalAt(v, v.start)
       case Rejected => Rejected
       case Ok(c) => Ok(ContinueTo(c, false)))
    case Some(c) =>
      match ReconnectAt(v, c)
      case Rejected => Rejected
      case Ok(Unknown) => Rejected
      case Ok(OfflineReorg(target)) => Ok(Invalidate(target))
      case Ok(Continue) =>
        if c.number == v.recent.info.last.number then Ok(AtHead)
        else match CanonicalAt(v, c.number + 1)
          case Rejected => Rejected
          case Ok(next) => Ok(ContinueTo(next, next.number == v.recent.info.last.number))
  }

  // ------------------------------------------------------------------ a view is one chain

  predicate FullSegment(s: Segment, first: nat, size: nat) {
    WfSegment(s) && s.info.first.number == first && |s.canonical| == size && s.extraReorgs == []
  }

  /** The i-th segment is stored under the number of its first block. */
  ghost predicate StoredAt(segments: map<nat, Segment>, start: nat, size: nat, i: nat) {
    var key := Edge(start, size, i);
    key in segments && FullSegment(segments[key], key, size)
  }

  /** The first `count` segments, as a reader finds them. */
  ghost function Stored(segments: map<nat, Segment>, start: nat, size: nat, count: nat): seq<Segment>
    requires forall i: nat :: i < count ==> StoredAt(segments, start, size, i)
  {
    seq(count, i requires 0 <= i < count && StoredAt(segments, start, size, i) => segments[Edge(start, size, i)])
  }

  /** `count` full segments lie below `recent`, in place and contiguous up to it. */
  ghost predicate Supported(segments: map<nat, Segment>, start: nat, size: nat, count: nat, recent: Ledger) {
    && size >= 1 && recent.first == Edge(start, size, count)
    && (forall i: nat :: i < count ==> StoredAt(segments, start, size, i))
    && Contiguous(Stored(segments, start, size, count), recent.first)
    && (forall c :: c in recent.moved ==> c.number >= recent.first)
  }

  /** The chain a reader sees through stored segments and a recent chain. */
  ghost function ViewChain(segments: map<nat, Segment>, start: nat, size: nat, count: nat, recent: Ledger): Ledger
    requires Supported(segments, start, size, count, recent)
  {
    Whole(Stored(segments, start, size, count), recent)
  }

  ghost predicate ViewOk(v: View, count: nat) {
    Readable(v) && Supported(v.segments, v.start, v.size, count, OfSegment(v.recent))
  }

  ghost function ChainOf(v: View, count: nat): Ledger
    requires ViewOk(v, count)
  {
    ViewChain(v.segments, v.start, v.size, count, OfSegment(v.recent))
  }

  lemma {:induction false} ContiguousParts(stored: seq<Segment>, upper: nat, i: nat)
    requires Contiguous(stored, upper) && i < |stored|
    ensures WfSegment(stored[i]) && stored[i].extraReorgs == [] && EndOf(stored[i]) <= upper
    ensures stored[0].info.first.number <= stored[i].info.first.number
  {
    var top := |stored| - 1;
    if i < top {
      ContiguousParts(stored[..top], stored[top].info.first.number, i);
    } else if top > 0 {
      ContiguousParts(stored[..top], stored[top].info.first.number, 0);
    }
  }

  /** Reading the whole chain below its upper part is reading the segment that holds the height. */
  lemma {:induction false} WholeWithin(stored: seq<Segment>, upper: Ledger, i: nat, c: Cursor)
    requires Contiguous(stored, upper.first) && i < |stored|
    requires forall m :: m in upper.moved ==> m.number >= upper.first
    requires stored[i].info.first.number <= c.number < EndOf(stored[i])
    ensures WfSegment(stored[i])
    ensures IsCanonical(Whole(stored, upper), c) <==> IsCanonical(OfSegment(stored[i]), c)
    ensures Moved(Whole(stored, upper), c) == Moved(OfSegment(stored[i]), c)
    decreases |stored|
  {
    ContiguousParts(stored, upper.first, i);
    var top := |stored| - 1;
    var rest, lower := stored[..top], OfSegment(stored[top]);
    var joined := Join(lower, upper);
    JoinBelow(lower, upper, c);
    SegmentMoves(stored[top]);
    assert joined.first == lower.first == stored[top].info.first.number;
    if i == top {
      hide OfSegment, Join, IsCanonical, Moved;
      WholeAbove(rest, joined, c);
      WholeMovedAbove(rest, joined, c);
    } else {
      hide Join, IsCanonical, Moved;
      WholeWithin(rest, joined, i, c);
    }
  }

  /** Entries of a segment without extra reorgs are for its own heights. */
  lemma SegmentMoves(s: Segment)
    requires WfSegment(s) && s.extraReorgs == []
    ensures forall m :: m in OfSegment(s).moved ==> s.info.first.number <= m.number < EndOf(s)
  {
  }

  lemma JoinBelow(lower: Ledger, upper: Ledger, c: Cursor)
    requires lower.first + |lower.hashes| == upper.first && forall m :: m in upper.moved ==> m.number >= upper.first
    ensures c.number < upper.first ==>
              Moved(Join(lower, upper), c) == Moved(lower, c)
              && (IsCanonical(Join(lower, upper), c) <==> IsCanonical(lower, c))
    ensures (forall m :: m in lower.moved ==> m.number >= lower.first) ==>
              forall m :: m in Join(lower, upper).moved ==> m.number >= lower.first
  {
  }

  lemma {:induction false} WholeMovedAbove(stored: seq<Segment>, upper: Ledger, c: Cursor)
    requires Contiguous(stored, upper.first) && c.number >= upper.first
    ensures Moved(Whole(stored, upper), c) == Moved(upper, c)
  {
    if stored != [] {
      var top := |stored| - 1;
      WholeMovedAbove(stored[..top], Join(OfSegment(stored[top]), upper), c);
    }
  }

  lemma {:induction false} WholeFirst(stored: seq<Segment>, upper: Ledger)
    requires Contiguous(stored, upper.first)
    ensures Whole(stored, upper).first == if stored == [] then upper.first else stored[0].info.first.number
  {
    if stored != [] {
      var top := |stored| - 1;
      WholeFirst(stored[..top], Join(OfSegment(stored[top]), upper));
    }
  }

  lemma SegmentIndex(n: nat, start: nat, size: nat, count: nat)
    requires size >= 1 && start <= n < Edge(start, size, count)
    ensures var i := (n - start) / size;
            && i < count && ChainSegmentStart(n, start, size) == Edge(start, size, i)
            && Edge(start, size, i) <= n < Edge(start, size, i) + size
  {
    var x := n - start;
    assert x == x / size * size + x % size;
    if x / size >= count {
      MulMonotone(count, x / size, size);
    }
  }

  lemma MulMonotone(a: nat, b: nat, c: nat)
    requires a <= b
    ensures a * c <= b * c
  {
  }

  /** Below the recent chain, division finds the stored segment that holds a height. */
  lemma StoredSegmentAt(v: View, count: nat, n: nat) returns (i: nat)
    requires ViewOk(v, count) && v.start <= n < v.recent.info.first.number
    ensures i < count
    ensures var s := Stored(v.segments, v.start, v.size, count)[i];
            && GetChainSegment(v, n) == Ok(s)
            && WfSegment(s) && s.info.first.number <= n < EndOf(s) && n <= s.info.last.number
  {
    hide Contiguous, Edge, ChainSegmentStart;
    SegmentIndex(n, v.start, v.size, count);
    i := (n - v.start) / v.size;
    assert StoredAt(v.segments, v.start, v.size, i);
  }

  lemma ViewShape(v: View, count: nat)
    requires ViewOk(v, count)
    ensures ChainOf(v, count).first == v.start
    ensures v.start + |ChainOf(v, count).hashes| == v.recent.info.last.number + 1
    ensures v.start <= v.recent.info.first.number
  {
    var recent, stored := OfSegment(v.recent), Stored(v.segments, v.start, v.size, count);
    WholeAbove(stored, recent, v.recent.info.last);
    WholeFirst(stored, recent);
    if count > 0 {
      assert StoredAt(v.segments, v.start, v.size, 0);
      assert Edge(v.start, v.size, 0) == v.start;
    }
  }

  /** Every lookup a reader makes through `get_chain_segment` answers from the view's one chain. */
  lemma ViewReads(v: View, count: nat, c: Cursor)
    requires ViewOk(v, count) && c.number >= v.start
    ensures GetChainSegment(v, c.number).Ok?
    ensures var s := GetChainSegment(v, c.number).value;
            && (IsCanonical(ChainOf(v, count), c) <==> IsCanonical(OfSegment(s), c))
            && Moved(ChainOf(v, count), c) == Moved(OfSegment(s), c)
            && s.info.first.number <= c.number
            && (c.number <= v.recent.info.last.number <==> c.number <= s.info.last.number)
  {
    var recent, stored := OfSegment(v.recent), Stored(v.segments, v.start, v.size, count);
    if c.number >= recent.first {
      WholeAbove(stored, recent, c);
      WholeMovedAbove(stored, recent, c);
    } else {
      var i := StoredSegmentAt(v, count, c.number);
      WholeWithin(stored, recent, i, c);
    }
  }

  /** `get_canonical(n)` is the n-th block of the view's chain. */
  lemma CanonicalAtReads(v: View, count: nat, n: nat)
    requires ViewOk(v, count) && v.start <= n <= v.recent.info.last.number
    ensures ChainOf(v, count).first == v.start && n - v.start < |ChainOf(v, count).hashes|
    ensures CanonicalAt(v, n) == Ok(Cursor(n, ChainOf(v, count).hashes[n - v.start]))
    ensures GetCanonical(v, n) == Ok(AtHeight(CanonicalAt(v, n).value))
  {
    hide ChainOf, Canonical, WfSegment, GetChainSegment, Supported;
    ViewShape(v, count);
    var c := Cursor(n, ChainOf(v, count).hashes[n - v.start]);
    ViewReads(v, count, c);
    SegmentReads(GetChainSegment(v, n).value, c);
  }

  /** Reconnecting through the view follows the view's chain. */
  lemma ReconnectReads(v: View, count: nat, c: Cursor)
    requires ViewOk(v, count) && c.number >= v.start
    ensures IsCanonical(ChainOf(v, count), c) ==> ReconnectAt(v, c) == Ok(Continue)
    ensures !IsCanonical(ChainOf(v, count), c) && !IsZero(c.hash) && c in ChainOf(v, count).moved ==>
              ReconnectAt(v, c) == Ok(OfflineReorg(ChainOf(v, count).moved[c]))
    ensures !IsCanonical(ChainOf(v, count), c) && !IsZero(c.hash) && c !in ChainOf(v, count).moved ==>
              ReconnectAt(v, c) == Rejected || ReconnectAt(v, c) == Ok(Unknown)
    ensures IsZero(c.hash) && c.number <= v.recent.info.last.number ==> ReconnectAt(v, c) == Ok(Continue)
  {
    ViewReads(v, count, c);
    SegmentReads(GetChainSegment(v, c.number).value, c);
  }

  // ------------------------------------------------------------------ clients

  /**
   * What a client may be told from cursor `c`: wait at the head, go on to the child of its block, or go
   * back to a strictly lower ancestor that is remembered too.
   */
  ghost predicate SafeAnswer(t: Tree, chain: Ledger, ever: set<Cursor>, head: Cursor, c: Cursor, answer: NextCursor) {
    match answer
    case AtHead => c == head
    case ContinueTo(next, isHead) =>
      && IsCanonical(chain, c) && IsCanonical(chain, next) && next in ever
      && next.number == c.number + 1
      && next.hash in t && t[next.hash] == BlockInfo(c.number + 1, next.hash, c.hash)
      && (isHead <==> next == head)
    case Invalidate(target) =>
      && !IsCanonical(chain, c) && c in chain.moved
      && target == chain.moved[c] && target in ever && Ancestor(t, target, c)
  }

  lemma HeadIsCanonical(v: View, count: nat)
    requires ViewOk(v, count)
    ensures IsCanonical(ChainOf(v, count), v.recent.info.last)
  {
    ViewReads(v, count, v.recent.info.last);
  }

  /** From a canonical block, or a cursor without a hash at its height, the next block of the chain follows. */
  lemma NextCursorGoesOn(v: View, count: nat, c: Cursor)
    requires ViewOk(v, count) && v.start <= c.number <= v.recent.info.last.number
    requires IsCanonical(ChainOf(v, count), c) || IsZero(c.hash)
    ensures ChainOf(v, count).first == v.start
    ensures v.start + |ChainOf(v, count).hashes| == v.recent.info.last.number + 1
    ensures GetNextCursor(v, Some(c)) ==
            if c.number == v.recent.info.last.number then Ok(AtHead)
            else Ok(ContinueTo(Cursor(c.number + 1, ChainOf(v, count).hashes[c.number + 1 - v.start]),
                               c.number + 1 == v.recent.info.last.number))
  {
    hide ViewOk, ChainOf, ReconnectAt, CanonicalAt;
    ViewShape(v, count);
    ReconnectReads(v, count, c);
    if c.number < v.recent.info.last.number {
      CanonicalAtReads(v, count, c.number + 1);
    }
  }

  /** For a cursor the view remembers, `get_next_cursor` never fails and its answer is safe. */
  lemma NextCursorIsSafe(t: Tree, v: View, count: nat, ever: set<Cursor>, c: Cursor)
    requires ViewOk(v, count) && Linked(t, ChainOf(v, count)) && Remembers(t, ChainOf(v, count), ever) && c in ever
    ensures ChainOf(v, count).first == v.start && GetNextCursor(v, Some(c)).Ok?
    ensures SafeAnswer(t, ChainOf(v, count), ever, v.recent.info.last, c, GetNextCursor(v, Some(c)).value)
  {
    hide ViewOk, ChainOf, ReconnectAt, CanonicalAt, Ancestor;
    ViewShape(v, count);
    HeadIsCanonical(v, count);
    var chain := ChainOf(v, count);
    if IsCanonical(chain, c) {
      NextCursorGoesOn(v, count, c);
      if c.number < v.recent.info.last.number {
        assert LinkedAt(t, chain, c.number + 1 - v.start);
      }
    } else {
      ReconnectReads(v, count, c);
      assert LeadsDown(t, chain, ever, c);
    }
  }

  /** How many Invalidate messages follow one another from a cursor on an unchanged view. */
  ghost function Invalidations(t: Tree, v: View, count: nat, ever: set<Cursor>, c: Cursor): nat
    requires ViewOk(v, count) && Linked(t, ChainOf(v, count)) && Remembers(t, ChainOf(v, count), ever) && c in ever
    decreases c.number
  {
    NextCursorIsSafe(t, v, count, ever, c);
    match GetNextCursor(v, Some(c)).value
    case Invalidate(target) => 1 + Invalidations(t, v, count, ever, target)
    case _ => 0
  }

  /** The cursor a client holds after them. */
  ghost function AfterInvalidations(t: Tree, v: View, count: nat, ever: set<Cursor>, c: Cursor): Cursor
    requires ViewOk(v, count) && Linked(t, ChainOf(v, count)) && Remembers(t, ChainOf(v, count), ever) && c in ever
    decreases c.number
  {
    NextCursorIsSafe(t, v, count, ever, c);
    match GetNextCursor(v, Some(c)).value
    case Invalidate(target) => AfterInvalidations(t, v, count, ever, target)
    case _ => c
  }

  /** They stop, after no more messages than there are blocks below the cursor, at a canonical block of its ancestry. */
  lemma {:induction false} InvalidationsStop(t: Tree, v: View, count: nat, ever: set<Cursor>, c: Cursor)
    requires ViewOk(v, count) && Linked(t, ChainOf(v, count)) && Remembers(t, ChainOf(v, count), ever) && c in ever
    ensures Invalidations(t, v, count, ever, c) <= c.number - v.start
    ensures var end := AfterInvalidations(t, v, count, ever, c);
            && end in ever && IsCanonical(ChainOf(v, count), end)
            && end == Settle(t, ChainOf(v, count), ever, c)
            && (end == c || Ancestor(t, end, c))
    decreases c.number
  {
    NextCursorIsSafe(t, v, count, ever, c);
    ReconnectReads(v, count, c);
    SettlesOnCanonical(t, ChainOf(v, count), ever, c);
    if GetNextCursor(v, Some(c)).value.Invalidate? {
      InvalidationsStop(t, v, count, ever, GetNextCursor(v, Some(c)).value.target);
    }
  }

  /** A client without a cursor starts at the first block. */
  lemma FirstCursor(v: View, count: nat)
    requires ViewOk(v, count)
    ensures GetNextCursor(v, None).Ok? && GetNextCursor(v, None).value.ContinueTo?
    ensures IsCanonical(ChainOf(v, count), GetNextCursor(v, None).value.cursor)
    ensures GetNextCursor(v, None).value.cursor.number == v.start
  {
    ViewShape(v, count);
    CanonicalAtReads(v, count, v.start);
  }

  /** A cursor without a hash stands for the canonical block of its height. */
  lemma UnhashedContinues(t: Tree, v: View, count: nat, n: nat)
    requires ViewOk(v, count) && Linked(t, ChainOf(v, count)) && v.start <= n <= v.recent.info.last.number
    ensures ChainOf(v, count).first == v.start && n - v.start < |ChainOf(v, count).hashes|
    ensures GetNextCursor(v, Some(Unhashed(n))).Ok?
    ensures match GetNextCursor(v, Some(Unhashed(n))).value
            case AtHead => n == v.recent.info.last.number
            case ContinueTo(next, _) =>
              && IsCanonical(ChainOf(v, count), next) && next.hash in t
              && t[next.hash] == BlockInfo(n + 1, next.hash, ChainOf(v, count).hashes[n - v.start])
            case Invalidate(_) => false
  {
    hide ViewOk, ChainOf, GetNextCursor;
    NextCursorGoesOn(v, count, Unhashed(n));
    if n < v.recent.info.last.number {
      assert LinkedAt(t, ChainOf(v, count), n + 1 - v.start);
    }
  }

  /** A cursor the view does not remember is refused, never misled. */
  lemma UnknownIsRefused(t: Tree, v: View, count: nat, ever: set<Cursor>, c: Cursor)
    requires ViewOk(v, count) && Remembers(t, ChainOf(v, count), ever) && c !in ever && c.number >= v.start
             && !IsZero(c.hash)
    ensures GetNextCursor(v, Some(c)).Rejected?
  {
    hide ViewOk, ChainOf, ReconnectAt;
    ReconnectReads(v, count, c);
  }

  // ------------------------------------------------------------------ validating a client's cursor

  /** The canonical block of its height, or one removed there; past the last block nothing is found. */
  predicate IsFound(v: View, c: Cursor)
    requires Readable(v) && c.number >= v.start
  {
    && GetChainSegment(v, c.number).Ok?
    && var s := GetChainSegment(v, c.number).value;
       && Canonical(s, c.number).Ok?
       && (Canonical(s, c.number) == Ok(c) || (Siblings(s, c).Ok? && c in Siblings(s, c).value))
  }

  /** Some block of the view's chain, present or past, at a height where it has one now. */
  ghost predicate Known(v: View, count: nat, c: Cursor)
    requires ViewOk(v, count)
  {
    && v.start <= c.number <= v.recent.info.last.number
    && (IsCanonical(ChainOf(v, count), c) || c in ChainOf(v, count).moved)
  }

  /** The siblings of a segment's height are its reorg entries there. */
  lemma SiblingsAre(s: Segment, c: Cursor, other: Cursor)
    requires WfSegment(s) && s.info.first.number <= c.number <= s.info.last.number
    ensures Siblings(s, c).Ok?
    ensures other in Siblings(s, c).value <==> other.number == c.number && other in OfSegment(s).moved
    ensures Canonical(s, c.number) == Ok(other) <==> other.number == c.number && IsCanonical(OfSegment(s), other)
  {
  }

  /** A cursor is found in a view exactly if it is known to the view's chain. */
  lemma FoundIffKnown(v: View, count: nat, c: Cursor)
    requires ViewOk(v, count) && c.number >= v.start
    ensures IsFound(v, c) <==> Known(v, count, c)
  {
    hide Supported, ChainOf, Siblings, OfSegment, IsCanonical, GetChainSegment;
    ViewReads(v, count, c);
    var s := GetChainSegment(v, c.number).value;
    if c.number <= v.recent.info.last.number { SiblingsAre(s, c, c); }
  }

  /** A cursor found in a view is one it remembers. */
  lemma FoundIsRemembered(t: Tree, v: View, count: nat, ever: set<Cursor>, c: Cursor)
    requires ViewOk(v, count) && Remembers(t, ChainOf(v, count), ever) && c.number >= v.start && IsFound(v, c)
    ensures c in ever
  {
    hide ViewOk, ChainOf, IsFound, IsCanonical, LeadsDown;
    FoundIffKnown(v, count, c);
  }

  /** What the answer to a client's cursor says of the view's chain. */
  ghost predicate Validated(v: View, count: nat, cursor: Cursor, r: Result<ValidatedCursor>)
    requires ViewOk(v, count)
  {
    match r
    case Rejected => cursor.number > v.recent.info.last.number
    case Ok(Valid(found)) =>
      && Known(v, count, found) && IsEquivalent(found, cursor)
      && forall c :: IsCanonical(ChainOf(v, count), c) && IsEquivalent(c, cursor) ==> found == c
    case Ok(Invalid(canonical, siblings)) =>
      && canonical.number == cursor.number && IsCanonical(ChainOf(v, count), canonical)
      && (forall c :: c in siblings <==> c.number == cursor.number && c in ChainOf(v, count).moved)
      && forall c :: Known(v, count, c) ==> !IsEquivalent(c, cursor)
  }

  /**
   * A valid answer is a known block that is equivalent to the client's cursor, the canonical one if that is, and can
   * be streamed from: it reconnects as Continue or OfflineReorg, never Unknown. An invalid answer means that no known
   * block is equivalent, and lists the known blocks of that height.
   */
  method ValidateCursor(v: View, cursor: Cursor) returns (r: Result<ValidatedCursor>)
    requires Readable(v) && cursor.number >= v.start
    ensures r.Ok? <==> CanonicalAt(v, cursor.number).Ok?
    ensures forall count :: ViewOk(v, count) ==> Validated(v, count, cursor, r)
    ensures r.Ok? && r.value.Valid? ==>
              && r.value.cursor.number == cursor.number && IsFound(v, r.value.cursor)
              && ReconnectAt(v, r.value.cursor).Ok? && ReconnectAt(v, r.value.cursor).value != Unknown
  {
    var found := GetChainSegment(v, cursor.number);
    if found.Rejected? {
      r := Rejected;
      ValidatedOnLedger(v, cursor, r);
      return;
    }
    var segment := found.value;
    var canonical := Canonical(segment, cursor.number);
    if canonical.Rejected? {
      r := Rejected;
      ValidatedOnLedger(v, cursor, r);
      return;
    }
    if IsEquivalent(canonical.value, cursor) {
      r := Ok(Valid(canonical.value));
      ValidatedOnLedger(v, cursor, r);
      return;
    }
    var siblings := Siblings(segment, cursor).value;
    var left := siblings;
    while left != {}
      invariant left <= siblings && forall s :: s in siblings - left ==> !IsEquivalent(s, cursor)
      decreases |left|
    {
      var sibling :| sibling in left;
      if IsEquivalent(sibling, cursor) {
        assert sibling in siblings;
        r := Ok(Valid(sibling));
        ValidatedOnLedger(v, cursor, r);
        return;
      }
      left := left - {sibling};
    }
    r := Ok(Invalid(canonical.value, siblings));
    ValidatedOnLedger(v, cursor, r);
  }

  /** What the loop has found out, on the segment of the height. */
  ghost predicate ValidatedInSegment(v: View, cursor: Cursor, r: Result<ValidatedCursor>)
    requires Readable(v) && cursor.number >= v.start
  {
    var found := GetChainSegment(v, cursor.number);
    if found.Rejected? || Canonical(found.value, cursor.number).Rejected? then r.Rejected?
    else
      var canonical, siblings := Canonical(found.value, cursor.number).value, Siblings(found.value, cursor);
      && siblings.Ok?
      && match r
         case Rejected => false
         case Ok(Valid(c)) =>
           if IsEquivalent(canonical, cursor) then c == canonical else c in siblings.value && IsEquivalent(c, cursor)
         case Ok(Invalid(own, others)) =>
           && own == canonical && others == siblings.value && !IsEquivalent(own, cursor)
           && forall c :: c in others ==> !IsEquivalent(c, cursor)
  }

  lemma ValidatedOnLedger(v: View, cursor: Cursor, r: Result<ValidatedCursor>)
    requires Readable(v) && cursor.number >= v.start && ValidatedInSegment(v, cursor, r)
    ensures forall count :: ViewOk(v, count) ==> Validated(v, count, cursor, r)
  {
    forall count | ViewOk(v, count)
      ensures Validated(v, count, cursor, r)
    {
      ValidatedInView(v, count, cursor, r);
    }
  }

  lemma ValidatedInView(v: View, count: nat, cursor: Cursor, r: Result<ValidatedCursor>)
    requires ViewOk(v, count) && cursor.number >= v.start && ValidatedInSegment(v, cursor, r)
    ensures Validated(v, count, cursor, r)
  {
    hide Supported, ChainOf, Siblings, OfSegment, IsCanonical, GetChainSegment, Canonical;
    ViewReads(v, count, cursor);
    var s := GetChainSegment(v, cursor.number).value;
    if cursor.number <= v.recent.info.last.number {
      SiblingsAre(s, cursor, cursor);
      forall c: Cursor | c.number == cursor.number
        ensures c in Siblings(s, cursor).value <==> c in ChainOf(v, count).moved
        ensures Canonical(s, cursor.number) == Ok(c) <==> IsCanonical(ChainOf(v, count), c)
      {
        ViewReads(v, count, c);
        SiblingsAre(s, cursor, c);
      }
    }
    SameHeights(s, cursor);
  }

  /** Equivalent cursors have one height, and what a segment says of a height is of that height. */
  lemma SameHeights(s: Segment, cursor: Cursor)
    requires WfSegment(s)
    ensures forall c :: IsEquivalent(c, cursor) ==> c.number == cursor.number
    ensures Siblings(s, cursor).Ok? ==> forall c :: c in Siblings(s, cursor).value ==> c.number == cursor.number
    ensures Canonical(s, cursor.number).Ok? ==> Canonical(s, cursor.number).value.number == cursor.number
    ensures Canonical(s, cursor.number).Ok? <==> s.info.first.number <= cursor.number <= s.info.last.number
  {
  }
}
