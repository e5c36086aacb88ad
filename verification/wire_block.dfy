/** Writing a filtered block and reading it back (common/src/data_stream/stream.rs). */
module WireBlock {
  import opened Core
  import opened Fragments
  import opened Filtering
  import opened Wire

  /** A row to write: its filter ids in the order they come out. */
  datatype Row = Row(tag: nat, ids: seq<nat>, message: Bytes)

  function EncodeRows(rows: seq<Row>): Bytes {
    if rows == [] then []
    else EncodeRows(rows[..|rows| - 1]) + BodyItem(rows[|rows| - 1].tag, rows[|rows| - 1].ids, rows[|rows| - 1].message)
  }

  function EncodeBlock(header: Option<Bytes>, rows: seq<Row>): Bytes {
    (if header.Some? then Field(HEADER_FRAGMENT_ID, header.value) else []) + EncodeRows(rows)
  }

  // ------------------------------------------------------------------ the buffer

  class Buffer {
    var data: Bytes

    constructor ()
      ensures data == []
    {
      data := [];
    }

    method PutSlice(bytes: Bytes)
      modifies this
      ensures data == old(data) + bytes
    {
      data := data + bytes;
    }

    method EncodeVarint(n: nat)
      modifies this
      ensures data == old(data) + Varint(n)
    {
      var value := n;
      while value >= 128
        invariant data + Varint(value) == old(data) + Varint(n)
        decreases value
      {
        assert data + ([value % 128 + 128] + Varint(value / 128)) == data + [value % 128 + 128] + Varint(value / 128);
        data := data + [value % 128 + 128];
        value := value / 128;
      }
      data := data + [value];
    }

    method EncodeKey(tag: nat)
      modifies this
      ensures data == old(data) + Key(tag)
    {
      EncodeVarint(KeyValue(tag));
    }

    method EncodeFilterIds(ids: seq<nat>, payloadLen: nat)
      requires payloadLen == |PackedIds(ids)|
      modifies this
      ensures data == old(data) + FilterIds(ids)
    {
      hide Varint, Key;
      if payloadLen == 0 {
        return;
      }
      EncodeKey(FILTER_IDS_TAG);
      EncodeVarint(payloadLen);
      ghost var start := data;
      for k := 0 to |ids|
        invariant data == start + PackedIds(ids[..k])
      {
        assert ids[..k + 1][..k] == ids[..k];
        EncodeVarint(ids[k]);
      }
      assert ids[..|ids|] == ids;
    }

    /** It fails only where the predicted length does not fit. */
    method EncodeBodyItem(row: Row) returns (ok: bool)
      requires forall i :: 0 <= i < |row.ids| ==> IsU32(row.ids[i])
      modifies this
      ensures ok <==> |FilterIds(row.ids) + row.message| <= MAX_USIZE
      ensures data == if ok then old(data) + BodyItem(row.tag, row.ids, row.message) else old(data)
    {
      hide Varint, Key, PackedIds, PackedFilterIdsPayloadLen, EncodedLengthDelimitedFieldLen;
      PackedLenPredicts(row.ids);
      NoIdsNoBytes(row.ids);
      FieldIsLonger(FILTER_IDS_TAG, PackedIds(row.ids));
      var payload := PackedFilterIdsPayloadLen(row.ids);
      if payload.Rejected? {
        return false;
      }
      FieldLenPredicts(FILTER_IDS_TAG, PackedIds(row.ids));
      var idsLen := if payload.value == 0 then Ok(0) else EncodedLengthDelimitedFieldLen(FILTER_IDS_TAG, payload.value);
      var payloadLen := CheckedAdd(idsLen, Ok(|row.message|));
      if payloadLen.Rejected? {
        return false;
      }
      EncodeKey(row.tag);
      EncodeVarint(payloadLen.value);
      EncodeFilterIds(row.ids, payload.value);
      PutSlice(row.message);
      ok := true;
    }

    method EncodeHeader(header: Bytes)
      modifies this
      ensures data == old(data) + Field(HEADER_FRAGMENT_ID, header)
    {
      hide Varint, Key;
      EncodeKey(HEADER_FRAGMENT_ID);
      EncodeVarint(|header|);
      PutSlice(header);
    }
  }

  lemma NoIdsNoBytes(ids: seq<nat>)
    ensures |PackedIds(ids)| == 0 <==> ids == []
  {
  }

  // ------------------------------------------------------------------ a whole block

  ghost predicate RowOk(row: Row) {
    (forall i :: 0 <= i < |row.ids| ==> IsU32(row.ids[i])) && |row.message| <= MAX_USIZE
  }

  /** The sum of the predicted lengths, with every addition checked. */
  function EncodedRowsLen(start: Result<nat>, rows: seq<Row>): Result<nat> {
    if rows == [] then start
    else
      var last := rows[|rows| - 1];
      CheckedAdd(EncodedRowsLen(start, rows[..|rows| - 1]), EncodedBodyItemLen(last.tag, last.ids, |last.message|))
  }

  lemma SumPredicts(a: Result<nat>, x: Bytes, b: Result<nat>, y: Bytes)
    requires Predicts(a, x) && Predicts(b, y)
    ensures Predicts(CheckedAdd(a, b), x + y)
  {
  }

  lemma {:induction false} RowsLenPredicts(start: Result<nat>, before: Bytes, rows: seq<Row>)
    requires Predicts(start, before) && forall i :: 0 <= i < |rows| ==> RowOk(rows[i])
    ensures Predicts(EncodedRowsLen(start, rows), before + EncodeRows(rows))
    decreases |rows|
  {
    hide EncodedBodyItemLen, BodyItem, Predicts, CheckedAdd;
    if rows == [] {
      assert before + [] == before;
    } else {
      var init, last := rows[..|rows| - 1], rows[|rows| - 1];
      RowsLenPredicts(start, before, init);
      BodyItemLenPredicts(last.tag, last.ids, last.message);
      SumPredicts(EncodedRowsLen(start, init), before + EncodeRows(init),
                  EncodedBodyItemLen(last.tag, last.ids, |last.message|), BodyItem(last.tag, last.ids, last.message));
      assert before + EncodeRows(rows) == before + EncodeRows(init) + BodyItem(last.tag, last.ids, last.message);
    }
  }

  method PredictSize(header: Option<Bytes>, rows: seq<Row>) returns (size: Result<nat>)
    requires (header.Some? ==> |header.value| <= MAX_USIZE) && forall i :: 0 <= i < |rows| ==> RowOk(rows[i])
    ensures Predicts(size, EncodeBlock(header, rows))
  {
    hide EncodedBodyItemLen, Field, EncodedLengthDelimitedFieldLen, EncodeRows;
    size := Ok(0);
    if header.Some? {
      FieldLenPredicts(HEADER_FRAGMENT_ID, header.value);
      size := EncodedLengthDelimitedFieldLen(HEADER_FRAGMENT_ID, |header.value|);
    }
    ghost var start := size;
    for k := 0 to |rows|
      invariant size == EncodedRowsLen(start, rows[..k])
    {
      assert rows[..k + 1][..k] == rows[..k];
      size := CheckedAdd(size, EncodedBodyItemLen(rows[k].tag, rows[k].ids, |rows[k].message|));
    }
    assert rows[..|rows|] == rows;
    RowsLenPredicts(start, if header.Some? then Field(HEADER_FRAGMENT_ID, header.value) else [], rows);
  }

  /**
   * First the size, then the bytes: the size is an error exactly when the block does not fit, and otherwise it is
   * the number of bytes that are then written.
   */
  method WriteBlock(header: Option<Bytes>, rows: seq<Row>) returns (r: Result<Bytes>)
    requires (header.Some? ==> |header.value| <= MAX_USIZE) && forall i :: 0 <= i < |rows| ==> RowOk(rows[i])
    ensures r.Ok? <==> |EncodeBlock(header, rows)| <= MAX_USIZE
    ensures r.Ok? ==> r.value == EncodeBlock(header, rows)
  {
    hide BodyItem, Field, FilterIds, EncodeRows;
    var size := PredictSize(header, rows);
    if size.Rejected? {
      return Rejected;
    }
    var buffer := new Buffer();
    if header.Some? {
      buffer.EncodeHeader(header.value);
    }
    ghost var head := buffer.data;
    assert EncodeRows(rows[..0]) == [] by { NothingWritten(rows); }
    for k := 0 to |rows|
      invariant buffer.data == head + EncodeRows(rows[..k])
    {
      OneMoreRow(rows, k);
      var ok := buffer.EncodeBodyItem(rows[k]);
      RowFits(rows, k, |head|);
      if !ok {
        assert false;
        return Rejected;
      }
    }
    assert rows[..|rows|] == rows;
    assert |buffer.data| == size.value;
    r := Ok(buffer.data);
  }

  lemma NothingWritten(rows: seq<Row>)
    ensures EncodeRows(rows[..0]) == []
  {
  }

  lemma OneMoreRow(rows: seq<Row>, k: nat)
    requires k < |rows|
    ensures EncodeRows(rows[..k + 1]) == EncodeRows(rows[..k]) + BodyItem(rows[k].tag, rows[k].ids, rows[k].message)
  {
    hide BodyItem;
    assert rows[..k + 1][..k] == rows[..k];
  }

  lemma {:induction false} RowFits(rows: seq<Row>, k: nat, before: nat)
    requires k < |rows| && before + |EncodeRows(rows)| <= MAX_USIZE
    ensures |FilterIds(rows[k].ids) + rows[k].message| <= MAX_USIZE
    decreases |rows|
  {
    var last := rows[|rows| - 1];
    FieldIsLonger(last.tag, FilterIds(last.ids) + last.message);
    if k < |rows| - 1 { RowFits(rows[..|rows| - 1], k, before); }
  }

  // ------------------------------------------------------------------ reading it back

  /** Decodes one varint, as the specification describes it. */
  function ParseVarint(bytes: Bytes): Result<(nat, Bytes)> {
    if bytes == [] then Rejected
    else if bytes[0] < 128 then Ok((bytes[0], bytes[1..]))
    else
      match ParseVarint(bytes[1..])
      case Rejected => Rejected
      case Ok((high, rest)) => Ok((bytes[0] - 128 + 128 * high, rest))
  }

  lemma {:induction false} VarintRoundTrip(n: nat, rest: Bytes)
    ensures ParseVarint(Varint(n) + rest) == Ok((n, rest))
    decreases n
  {
    if n >= 128 {
      VarintRoundTrip(n / 128, rest);
      assert (Varint(n) + rest)[1..] == Varint(n / 128) + rest;
    } else {
      assert (Varint(n) + rest)[1..] == rest;
    }
  }

  /** One length-delimited field: its number and payload, and what follows. */
  function ParseField(bytes: Bytes): Result<((nat, Bytes), Bytes)> {
    match ParseVarint(bytes)
    case Rejected => Rejected
    case Ok((key, afterKey)) =>
      if key % 8 != 2 then Rejected
      else
        match ParseVarint(afterKey)
        case Rejected => Rejected
        case Ok((len, payload)) => if len > |payload| then Rejected else Ok(((key / 8, payload[..len]), payload[len..]))
  }

  /** The payload comes back, and the tag if it fits into its key; of any other tag only what fits. */
  lemma FieldRoundTrip(tag: nat, payload: Bytes, rest: Bytes)
    ensures ParseField(Field(tag, payload) + rest) == Ok(((tag % 0x2000_0000, payload), rest))
    ensures IsTag(tag) <==> tag % 0x2000_0000 == tag
  {
    hide Varint, ParseVarint;
    var tail := payload + rest;
    assert Field(tag, payload) + rest == Varint(KeyValue(tag)) + (Varint(|payload|) + tail);
    assert KeyValue(tag) == (tag % 0x2000_0000) * 8 + 2;
    VarintRoundTrip(KeyValue(tag), Varint(|payload|) + tail);
    VarintRoundTrip(|payload|, tail);
    assert tail[..|payload|] == payload && tail[|payload|..] == rest;
  }

  lemma ParseShrinks(bytes: Bytes)
    ensures ParseField(bytes).Ok? ==> |ParseField(bytes).value.1| < |bytes|
  {
    VarintShrinks(bytes);
    if ParseVarint(bytes).Ok? { VarintShrinks(ParseVarint(bytes).value.1); }
  }

  lemma {:induction false} VarintShrinks(bytes: Bytes)
    ensures ParseVarint(bytes).Ok? ==> |ParseVarint(bytes).value.1| < |bytes|
    decreases |bytes|
  {
    if bytes != [] { VarintShrinks(bytes[1..]); }
  }

  function ParseFields(bytes: Bytes): Result<seq<(nat, Bytes)>>
    decreases |bytes|
  {
    if bytes == [] then Ok([])
    else
      ParseShrinks(bytes);
      match ParseField(bytes)
      case Rejected => Rejected
      case Ok((field, rest)) =>
        match ParseFields(rest)
        case Rejected => Rejected
        case Ok(fields) => Ok([field] + fields)
  }

  lemma FieldsRoundTrip(tag: nat, payload: Bytes, rest: Bytes)
    requires IsTag(tag) && ParseFields(rest).Ok?
    ensures ParseFields(Field(tag, payload) + rest) == Ok([(tag, payload)] + ParseFields(rest).value)
  {
    hide ParseField, Field;
    FieldRoundTrip(tag, payload, rest);
  }

  function ParseIds(bytes: Bytes): Result<seq<nat>>
    decreases |bytes|
  {
    if bytes == [] then Ok([])
    else
      VarintShrinks(bytes);
      match ParseVarint(bytes)
      case Rejected => Rejected
      case Ok((id, rest)) =>
        match ParseIds(rest)
        case Rejected => Rejected
        case Ok(ids) => Ok([id] + ids)
  }

  lemma {:induction false} PackedFront(id: nat, ids: seq<nat>)
    ensures PackedIds([id] + ids) == Varint(id) + PackedIds(ids)
    decreases |ids|
  {
    hide Varint;
    var all := [id] + ids;
    if ids == [] {
      assert all[..|all| - 1] == [];
    } else {
      var init, last := ids[..|ids| - 1], ids[|ids| - 1];
      PackedFront(id, init);
      assert all[..|all| - 1] == [id] + init && all[|all| - 1] == last;
      assert Varint(id) + PackedIds(init) + Varint(last) == Varint(id) + (PackedIds(init) + Varint(last));
    }
  }

  lemma {:induction false} IdsRoundTrip(ids: seq<nat>)
    ensures ParseIds(PackedIds(ids)) == Ok(ids)
    decreases |ids|
  {
    hide Varint, ParseVarint;
    if ids != [] {
      assert ids == [ids[0]] + ids[1..];
      PackedFront(ids[0], ids[1..]);
      VarintRoundTrip(ids[0], PackedIds(ids[1..]));
      IdsRoundTrip(ids[1..]);
      assert |Varint(ids[0])| >= 1;
    }
  }

  /** The filter ids in front of an item's payload, and the message after them. */
  function ParsePayload(payload: Bytes): Result<(seq<nat>, Bytes)> {
    match ParseField(payload)
    case Rejected => Rejected
    case Ok((field, message)) =>
      if field.0 != FILTER_IDS_TAG then Rejected
      else
        match ParseIds(field.1)
        case Rejected => Rejected
        case Ok(ids) => Ok((ids, message))
  }

  lemma PayloadRoundTrip(ids: seq<nat>, message: Bytes)
    requires ids != []
    ensures ParsePayload(FilterIds(ids) + message) == Ok((ids, message))
  {
    hide ParseField, Field, PackedIds;
    FieldRoundTrip(FILTER_IDS_TAG, PackedIds(ids), message);
    IdsRoundTrip(ids);
  }

  function Payloads(rows: seq<Row>): (r: seq<(nat, Bytes)>)
    ensures |r| == |rows|
  {
    seq(|rows|, i requires 0 <= i < |rows| => (rows[i].tag, FilterIds(rows[i].ids) + rows[i].message))
  }

  lemma ItemIsField(row: Row)
    ensures BodyItem(row.tag, row.ids, row.message) == Field(row.tag, FilterIds(row.ids) + row.message)
  {
  }

  lemma {:induction false} RowsFront(row: Row, rows: seq<Row>)
    ensures EncodeRows([row] + rows) == BodyItem(row.tag, row.ids, row.message) + EncodeRows(rows)
    decreases |rows|
  {
    hide BodyItem;
    var all := [row] + rows;
    if rows == [] {
      assert all[..|all| - 1] == [];
    } else {
      var init, last := rows[..|rows| - 1], rows[|rows| - 1];
      RowsFront(row, init);
      assert all[..|all| - 1] == [row] + init && all[|all| - 1] == last;
      var item := BodyItem(row.tag, row.ids, row.message);
      assert item + EncodeRows(init) + BodyItem(last.tag, last.ids, last.message) == item + EncodeRows(rows);
    }
  }

  lemma NoRows()
    ensures ParseFields(EncodeRows([])) == Ok([]) && Payloads([]) == []
  {
  }

  lemma {:induction false} RowsRoundTrip(rows: seq<Row>)
    requires forall i :: 0 <= i < |rows| ==> IsTag(rows[i].tag)
    ensures ParseFields(EncodeRows(rows)) == Ok(Payloads(rows))
    decreases |rows|
  {
    hide Field, ParseField, BodyItem, FilterIds, EncodeRows, ParseFields;
    if rows == [] {
      NoRows();
    } else {
      var first, rest := rows[0], rows[1..];
      ItemIsField(first);
      assert rows == [first] + rest;
      RowsFront(first, rest);
      RowsRoundTrip(rest);
      FieldsRoundTrip(first.tag, FilterIds(first.ids) + first.message, EncodeRows(rest));
      assert Payloads(rows) == [(first.tag, FilterIds(first.ids) + first.message)] + Payloads(rest);
    }
  }

  /**
   * A protobuf parser finds in the written bytes the header, if there is one, then one field for each row, in
   * order, and in each of them the packed filter ids and after them the original message.
   */
  lemma BlockRoundTrip(header: Option<Bytes>, rows: seq<Row>)
    requires forall i :: 0 <= i < |rows| ==> rows[i].ids != [] && IsTag(rows[i].tag)
    ensures var head := if header.Some? then [(HEADER_FRAGMENT_ID, header.value)] else [];
            ParseFields(EncodeBlock(header, rows)) == Ok(head + Payloads(rows))
    ensures forall i :: 0 <= i < |rows| ==> ParsePayload(Payloads(rows)[i].1) == Ok((rows[i].ids, rows[i].message))
  {
    hide Field, FilterIds, ParsePayload, EncodeRows;
    RowsRoundTrip(rows);
    if header.Some? {
      FieldsRoundTrip(HEADER_FRAGMENT_ID, header.value, EncodeRows(rows));
    } else {
      assert [] + EncodeRows(rows) == EncodeRows(rows) && [] + Payloads(rows) == Payloads(rows);
    }
    forall i | 0 <= i < |rows|
      ensures ParsePayload(Payloads(rows)[i].1) == Ok((rows[i].ids, rows[i].message))
    {
      PayloadRoundTrip(rows[i].ids, rows[i].message);
    }
  }

  // ------------------------------------------------------------------ a filtered block

  /** The order in which a hash set's elements come out: any, but each once. */
  ghost predicate IsOrder(ids: seq<nat>, s: set<nat>) {
    (forall id :: id in ids <==> id in s) && forall i, j :: 0 <= i < j < |ids| ==> ids[i] != ids[j]
  }

  /** The rows written for a filtered block's items, whatever order its filter ids come out in. */
  ghost predicate Writes(items: seq<Item>, rows: seq<Row>) {
    && |rows| == |items|
    && forall i :: 0 <= i < |items| ==>
         rows[i].tag == items[i].fragmentId && rows[i].message == items[i].message
         && IsOrder(rows[i].ids, items[i].filterIds)
  }

  /** Nothing is written exactly for a block without header and items; that is how the source sees that it has data. */
  lemma EmptyBlockIsEmpty(f: Filtered, rows: seq<Row>)
    requires Writes(f.items, rows)
    ensures EncodeBlock(f.header, rows) == [] <==> f == Filtered(None, [])
  {
    hide Field, BodyItem;
    if rows != [] {
      var last := rows[|rows| - 1];
      ItemIsField(last);
      FieldIsLonger(last.tag, FilterIds(last.ids) + last.message);
    }
    if f.header.Some? { FieldIsLonger(HEADER_FRAGMENT_ID, f.header.value); }
  }

  lemma OrderIsNonEmpty(ids: seq<nat>, s: set<nat>)
    requires IsOrder(ids, s) && s != {}
    ensures ids != []
  {
    var id :| id in s;
    assert id in ids;
  }

  /** A field with the item's fragment, its filters and its message. */
  ghost predicate ReadsAs(field: (nat, Bytes), item: Item) {
    && field.0 == item.fragmentId && ParsePayload(field.1).Ok?
    && IsOrder(ParsePayload(field.1).value.0, item.filterIds) && ParsePayload(field.1).value.1 == item.message
  }

  /** First the header, if there is one, then a field for each item, in order. */
  ghost predicate ReadsBlock(fields: seq<(nat, Bytes)>, f: Filtered) {
    var head := if f.header.Some? then [(HEADER_FRAGMENT_ID, f.header.value)] else [];
    && |fields| == |head| + |f.items| && fields[..|head|] == head
    && forall i :: 0 <= i < |f.items| ==> ReadsAs(fields[|head| + i], f.items[i])
  }

  /** Reading the bytes back gives every item its fragment, its filters and its message, in order. */
  lemma FilteredRoundTrip(f: Filtered, rows: seq<Row>)
    requires Writes(f.items, rows)
    requires forall i :: 0 <= i < |f.items| ==> f.items[i].filterIds != {} && IsTag(f.items[i].fragmentId)
    ensures var fields := ParseFields(EncodeBlock(f.header, rows)); fields.Ok? && ReadsBlock(fields.value, f)
  {
    hide EncodeBlock, ParseFields, ParsePayload, IsOrder, Writes, ReadsBlock, IsTag;
    WritesEach(f.items, rows);
    forall i | 0 <= i < |rows|
      ensures rows[i].ids != [] && IsTag(rows[i].tag)
    {
      WritesOne(f.items, rows, i);
      OrderIsNonEmpty(rows[i].ids, f.items[i].filterIds);
    }
    BlockRoundTrip(f.header, rows);
    PayloadsReadBack(f, rows);
  }

  lemma PayloadsReadBack(f: Filtered, rows: seq<Row>)
    requires Writes(f.items, rows)
    requires forall i :: 0 <= i < |rows| ==> ParsePayload(Payloads(rows)[i].1) == Ok((rows[i].ids, rows[i].message))
    ensures ReadsBlock((if f.header.Some? then [(HEADER_FRAGMENT_ID, f.header.value)] else []) + Payloads(rows), f)
  {
    hide ParsePayload, ReadsAs, Writes, ReadsBlock, Payloads;
    WritesEach(f.items, rows);
    forall i | 0 <= i < |f.items|
      ensures ReadsAs(Payloads(rows)[i], f.items[i])
    {
      PayloadReadsAs(f.items, rows, i);
    }
    AfterTheHeader(Payloads(rows), f);
  }

  lemma AfterTheHeader(fields: seq<(nat, Bytes)>, f: Filtered)
    requires |fields| == |f.items| && forall i :: 0 <= i < |fields| ==> ReadsAs(fields[i], f.items[i])
    ensures ReadsBlock((if f.header.Some? then [(HEADER_FRAGMENT_ID, f.header.value)] else []) + fields, f)
  {
    hide ReadsAs;
    var head := if f.header.Some? then [(HEADER_FRAGMENT_ID, f.header.value)] else [];
    assert forall i :: 0 <= i < |fields| ==> (head + fields)[|head| + i] == fields[i];
  }

  lemma WritesEach(items: seq<Item>, rows: seq<Row>)
    requires Writes(items, rows)
    ensures |rows| == |items|
  {
  }

  lemma WritesOne(items: seq<Item>, rows: seq<Row>, i: nat)
    requires Writes(items, rows) && i < |rows|
    ensures |rows| == |items| && rows[i].tag == items[i].fragmentId && rows[i].message == items[i].message
    ensures IsOrder(rows[i].ids, items[i].filterIds)
  {
    hide IsOrder;
  }

  lemma PayloadReadsAs(items: seq<Item>, rows: seq<Row>, i: nat)
    requires Writes(items, rows) && i < |rows| == |items|
    requires ParsePayload(Payloads(rows)[i].1) == Ok((rows[i].ids, rows[i].message))
    ensures ReadsAs(Payloads(rows)[i], items[i])
  {
    hide ParsePayload, IsOrder, Writes, FilterIds;
    WritesOne(items, rows, i);
  }
}
