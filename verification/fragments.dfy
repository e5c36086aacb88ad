/** Blocks, their fragments, and segments that transpose them (common/src/fragment.rs, common/src/segment.rs). */
module Fragments {
  import opened Core
  import opened Indexes
  import opened Joins

  type Bytes = seq<Byte>

  const INDEX_FRAGMENT_ID := 0
  const HEADER_FRAGMENT_ID := 1
  const JOIN_FRAGMENT_ID := 255

  datatype IndexBody = Bitmap(bitmap: BitmapIndex) | EmptyIndex

  datatype Index = Index(indexId: nat, body: IndexBody)

  datatype IndexFragment = IndexFragment(fragmentId: nat, rangeStart: nat, rangeLen: nat, indexes: seq<Index>)

  datatype Join = Join(toFragmentId: nat, to: JoinTo)

  datatype JoinFragment = JoinFragment(fragmentId: nat, joins: seq<Join>)

  datatype BodyFragment = BodyFragment(fragmentId: nat, name: string, data: seq<Bytes>)

  datatype Block = Block(header: Bytes, index: seq<IndexFragment>, join: seq<JoinFragment>, body: seq<BodyFragment>)

  /** `iter().position(..)`: the first fragment with an id. */
  function FindIndex(fragments: seq<IndexFragment>, id: nat): Result<IndexFragment> {
    if fragments == [] then Rejected
    else if fragments[0].fragmentId == id then Ok(fragments[0])
    else FindIndex(fragments[1..], id)
  }

  function FindJoin(fragments: seq<JoinFragment>, id: nat): Result<JoinFragment> {
    if fragments == [] then Rejected
    else if fragments[0].fragmentId == id then Ok(fragments[0])
    else FindJoin(fragments[1..], id)
  }

  function FindTarget(joins: seq<Join>, id: nat): Result<JoinTo> {
    if joins == [] then Rejected
    else if joins[0].toFragmentId == id then Ok(joins[0].to)
    else FindTarget(joins[1..], id)
  }

  function FindBody(fragments: seq<BodyFragment>, id: nat): Result<BodyFragment> {
    if fragments == [] then Rejected
    else if fragments[0].fragmentId == id then Ok(fragments[0])
    else FindBody(fragments[1..], id)
  }

  // ------------------------------------------------------------------ segments

  datatype FragmentData<T> = FragmentData(cursor: Cursor, data: T)

  datatype SegmentOf<T> = SegmentOf(firstBlock: Cursor, data: seq<FragmentData<T>>)

  /** What is fetched of one segment: a fragment is there or it is not. */
  datatype SegmentAccess = SegmentAccess(firstBlock: nat, index: Option<SegmentOf<seq<IndexFragment>>>,
                                         join: Option<SegmentOf<seq<JoinFragment>>>, header: Option<SegmentOf<Bytes>>,
                                         body: map<nat, SegmentOf<BodyFragment>>)

  /** One block, read from its own object or at its offset in a segment. */
  datatype Access = OfBlock(block: Block) | OfSegment(segment: SegmentAccess, offset: nat)

  function GetIndexFragment(a: Access, id: nat): Result<IndexFragment> {
    match a
    case OfBlock(block) => FindIndex(block.index, id)
    case OfSegment(s, offset) =>
      if s.index.None? || offset >= |s.index.value.data| then Rejected
      else FindIndex(s.index.value.data[offset].data, id)
  }

  function GetJoinFragment(a: Access, id: nat): Result<JoinFragment> {
    match a
    case OfBlock(block) => FindJoin(block.join, id)
    case OfSegment(s, offset) =>
      if s.join.None? || offset >= |s.join.value.data| then Rejected else FindJoin(s.join.value.data[offset].data, id)
  }

  function GetHeaderFragment(a: Access): Result<Bytes> {
    match a
    case OfBlock(block) => Ok(block.header)
    case OfSegment(s, offset) =>
      if s.header.None? || offset >= |s.header.value.data| then Rejected else Ok(s.header.value.data[offset].data)
  }

  function GetBodyFragment(a: Access, id: nat): Result<BodyFragment> {
    match a
    case OfBlock(block) => FindBody(block.body, id)
    case OfSegment(s, offset) =>
      if id !in s.body || offset >= |s.body[id].data| then Rejected else Ok(s.body[id].data[offset].data)
  }
}
