/**
 * The canonical chain builder and its segments as values (common/src/chain.rs).
 * The builder that updates its fields in place is in module ChainBuilder.
 */
module Chain {
  import opened Core
  import opened Sorting

  datatype BlockInfo = BlockInfo(number: nat, hash: Hash, parent: Hash) {
    function ToCursor(): Cursor { Cursor(number, hash) }
  }

  /** Hash of a removed block, to the block the chain was shrunk to. */
  type ReorgMap = map<Hash, Cursor>

  datatype CanonicalBlock = CanonicalBlock(hash: Hash, reorgs: ReorgMap)

  datatype ExtraReorg = ExtraReorg(blockNumber: nat, reorgs: ReorgMap)

  datatype SegmentInfo = SegmentInfo(first: Cursor, last: Cursor)

  datatype Segment = Segment(previous: Option<SegmentInfo>, info: SegmentInfo,
                             canonical: seq<CanonicalBlock>, extraReorgs: seq<ExtraReorg>)

  datatype Builder =
    | Empty
    | Building(previous: Option<SegmentInfo>, info: SegmentInfo, canonical: seq<Hash>, reorgs: map<nat, ReorgMap>)

  datatype ReconnectAction = Continue | OfflineReorg(target: Cursor) | Unknown

  datatype Shrunk = Shrunk(builder: Builder, removed: seq<Cursor>)

  datatype Taken = Taken(builder: Builder, segment: Segment)

  /** The info fields of a builder describe its blocks. */
  predicate Consistent(info: SegmentInfo, hashes: seq<Hash>) {
    && hashes != []
    && info.first.hash == hashes[0]
    && info.last == Cursor(info.first.number + |hashes| - 1, hashes[|hashes| - 1])
  }

  predicate Wf(b: Builder) {
    b.Building? ==> Consistent(b.info, b.canonical) && forall n :: n in b.reorgs ==> n >= b.info.first.number
  }

  function Hashes(blocks: seq<CanonicalBlock>): (r: seq<Hash>)
    ensures |r| == |blocks|
  {
    seq(|blocks|, i requires 0 <= i < |blocks| => blocks[i].hash)
  }

  predicate WfSegment(s: Segment) {
    Consistent(s.info, Hashes(s.canonical))
  }

  function ReorgsAt(reorgs: map<nat, ReorgMap>, n: nat): ReorgMap {
    if n in reorgs then reorgs[n] else map[]
  }

  // ------------------------------------------------------------------ the builder's operations

  predicate CanGrow(b: Builder, block: BlockInfo) {
    match b
    case Empty => true
    case Building(_, info, _, _) =>
      IsZero(info.last.hash) || (info.last.number + 1 == block.number && info.last.hash == block.parent)
  }

  function Grow(b: Builder, block: BlockInfo): Result<Builder> {
    if !CanGrow(b, block) then Rejected
    else match b
      case Empty => Ok(Building(None, SegmentInfo(block.ToCursor(), block.ToCursor()), [block.hash], map[]))
      case Building(_, info, canonical, _) =>
        Ok(b.(info := info.(last := block.ToCursor()), canonical := canonical + [block.hash]))
  }

  /** Every removed block, at its own height, now leads to `target`; all other entries stay. */
  function WithRemoved(reorgs: map<nat, ReorgMap>, from: nat, removed: seq<Hash>, target: Cursor): map<nat, ReorgMap> {
    map n | n in reorgs.Keys + Interval(from, |removed|) ::
      if from <= n < from + |removed| then ReorgsAt(reorgs, n)[removed[n - from] := target] else ReorgsAt(reorgs, n)
  }

  function Cursors(from: nat, hashes: seq<Hash>): (r: seq<Cursor>)
    ensures |r| == |hashes|
  {
    seq(|hashes|, i requires 0 <= i < |hashes| => Cursor(from + i, hashes[i]))
  }

  function Shrink(b: Builder, newHead: Cursor): Result<Shrunk>
    requires Wf(b)
  {
    if b.Empty? || newHead.number < b.info.first.number || newHead.number > b.info.last.number then Rejected
    else
      var keep := newHead.number - b.info.first.number + 1;
      if b.canonical[keep - 1] != newHead.hash then Rejected
      else if keep == |b.canonical| then Ok(Shrunk(b, []))
      else
        var removed := b.canonical[keep..];
        Ok(Shrunk(
             b.(info := b.info.(last := newHead), canonical := b.canonical[..keep],
                reorgs := WithRemoved(b.reorgs, newHead.number + 1, removed, newHead)),
             Cursors(newHead.number + 1, removed)))
  }

  function WithReorgs(from: nat, hashes: seq<Hash>, reorgs: map<nat, ReorgMap>): (r: seq<CanonicalBlock>)
    ensures |r| == |hashes|
  {
    seq(|hashes|, i requires 0 <= i < |hashes| => CanonicalBlock(hashes[i], ReorgsAt(reorgs, from + i)))
  }

  /** The entries whose height is in `heights`, lowest height first. */
  function Ascending(heights: set<nat>, reorgs: map<nat, ReorgMap>): seq<ExtraReorg>
    requires heights <= reorgs.Keys
  {
    if heights == {} then []
    else
      var n := Least(heights);
      [ExtraReorg(n, reorgs[n])] + Ascending(heights - {n}, reorgs)
  }

  function PastTheEnd(reorgs: map<nat, ReorgMap>, last: nat): set<nat> {
    set n | n in reorgs && n > last
  }

  function CurrentSegment(b: Builder): (r: Result<Segment>)
    ensures r.Ok? <==> b.Building?
    ensures r.Ok? && Wf(b) ==> WfSegment(r.value)
  {
    if b.Empty? then Rejected
    else
      assert Hashes(WithReorgs(b.info.first.number, b.canonical, b.reorgs)) == b.canonical;
      Ok(Segment(b.previous, b.info, WithReorgs(b.info.first.number, b.canonical, b.reorgs),
                 Ascending(PastTheEnd(b.reorgs, b.info.last.number), b.reorgs)))
  }

  function From(reorgs: map<nat, ReorgMap>, first: nat): map<nat, ReorgMap> {
    map n | n in reorgs && n >= first :: reorgs[n]
  }

  /** The builder must hold more than `size` blocks: the last block is never taken. */
  function TakeSegment(b: Builder, size: nat): Result<Taken>
    requires Wf(b) && size >= 1
  {
    if b.Empty? || |b.canonical| <= size then Rejected
    else
      var first := b.info.first.number;
      var info := SegmentInfo(b.info.first, Cursor(first + size - 1, b.canonical[size - 1]));
      Ok(Taken(
           Building(Some(info), SegmentInfo(Cursor(first + size, b.canonical[size]), b.info.last), b.canonical[size..],
                    From(b.reorgs, first + size)),
           Segment(b.previous, info, WithReorgs(first, b.canonical[..size], b.reorgs), [])))
  }

  function ReorgsOf(first: nat, blocks: seq<CanonicalBlock>): map<nat, ReorgMap> {
    map n | n in Interval(first, |blocks|) :: blocks[n - first].reorgs
  }

  /** Reorgs past the last block are in `extraReorgs` only, and are not read back. */
  function Restore(s: Segment): Builder {
    Building(s.previous, s.info, Hashes(s.canonical), ReorgsOf(s.info.first.number, s.canonical))
  }

  // ------------------------------------------------------------------ reading a segment

  function FindExtra(extra: seq<ExtraReorg>, n: nat): Option<ReorgMap> {
    if extra == [] then None
    else if extra[0].blockNumber == n then Some(extra[0].reorgs)
    else FindExtra(extra[1..], n)
  }

  function Canonical(s: Segment, n: nat): Result<Cursor>
    requires WfSegment(s)
  {
    if n < s.info.first.number || n > s.info.last.number then Rejected
    else Ok(Cursor(n, s.canonical[n - s.info.first.number].hash))
  }

  function ReorgsIn(s: Segment, n: nat): Option<ReorgMap>
    requires WfSegment(s)
  {
    if n < s.info.first.number then None
    else if n > s.info.last.number then FindExtra(s.extraReorgs, n)
    else Some(s.canonical[n - s.info.first.number].reorgs)
  }

  /** The blocks removed at the cursor's height. The order of the source's tree map is not modelled. */
  function Siblings(s: Segment, c: Cursor): Result<set<Cursor>>
    requires WfSegment(s)
  {
    match ReorgsIn(s, c.number)
    case None => Rejected
    case Some(reorgs) => Ok(set h | h in reorgs :: Cursor(c.number, h))
  }

  function Reconnect(s: Segment, c: Cursor): Result<ReconnectAction>
    requires WfSegment(s)
  {
    if s.info.first.number <= c.number <= s.info.last.number
       && (s.canonical[c.number - s.info.first.number].hash == c.hash || IsZero(c.hash)) then Ok(Continue)
    else match ReorgsIn(s, c.number)
      case None => Rejected
      case Some(reorgs) => Ok(if c.hash in reorgs then OfflineReorg(reorgs[c.hash]) else Unknown)
  }
}
