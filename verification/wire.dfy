/**
 * The hand-written protobuf framing of filtered blocks (common/src/data_stream/stream.rs), after sections "Base 128
 * Varints" and "Length-Delimited Records" of the Protocol Buffers Encoding specification.
 */
module Wire {
  import opened Core
  import opened Fragments

  /** A `usize` has 64 bits. */
  const MAX_USIZE := 0xFFFF_FFFF_FFFF_FFFF

  const FILTER_IDS_TAG := 1

  // ------------------------------------------------------------------ varints

  /** Seven bits a byte, lowest first, with the top bit set on all but the last. */
  function Varint(n: nat): (r: Bytes)
    ensures |r| >= 1
  {
    if n < 128 then [n] else [n % 128 + 128] + Varint(n / 128)
  }

  /** The position of the highest bit that is set. */
  function Log2(n: nat): nat
    requires n >= 1
  {
    if n == 1 then 0 else 1 + Log2(n / 2)
  }

  /** The length formula of the protobuf library; it looks at the highest bit only. */
  function EncodedLenVarint(n: nat): nat {
    (Log2(if n == 0 then 1 else n) * 9 + 73) / 64
  }

  lemma Log2Of128(n: nat)
    requires n >= 128
    ensures Log2(n) == 7 + Log2(n / 128)
  {
    assert n / 2 / 2 / 2 / 2 / 2 / 2 / 2 == n / 128;
    assert Log2(n) == 1 + Log2(n / 2) == 2 + Log2(n / 2 / 2) == 3 + Log2(n / 2 / 2 / 2);
    var m := n / 2 / 2 / 2;
    assert Log2(m) == 1 + Log2(m / 2) == 2 + Log2(m / 2 / 2) == 3 + Log2(m / 2 / 2 / 2);
  }

  lemma {:induction false} VarintLen(n: nat)
    ensures |Varint(n)| == (Log2(if n == 0 then 1 else n)) / 7 + 1
    decreases n
  {
    if n >= 128 {
      VarintLen(n / 128);
      Log2Of128(n);
    } else if n >= 1 {
      assert Power2(3) == 8 && Power2(6) == 64 && Power2(7) == 128;
      Log2Bound(n, 6);
    }
  }

  lemma {:induction false} Log2Bound(n: nat, k: nat)
    requires 1 <= n && n < Power2(k + 1)
    ensures Log2(n) <= k
    decreases k
  {
    if k == 0 {
    } else if n > 1 {
      Log2Bound(n / 2, k - 1);
    }
  }

  function Power2(k: nat): nat {
    if k == 0 then 1 else 2 * Power2(k - 1)
  }

  lemma Power64()
    ensures Power2(64) == MAX_USIZE + 1
  {
    assert Power2(8) == 256;
    assert Power2(16) == 65536 by { PowerAdds(8, 8); }
    assert Power2(32) == 65536 * 65536 by { PowerAdds(16, 16); }
    PowerAdds(32, 32);
  }

  lemma {:induction false} PowerAdds(a: nat, b: nat)
    ensures Power2(a + b) == Power2(a) * Power2(b)
    decreases a
  {
    if a > 0 { PowerAdds(a - 1, b); }
  }

  lemma FormulaIsGroups(b: nat)
    requires b <= 63
    ensures (b * 9 + 73) / 64 == b / 7 + 1
  {
  }

  /** The formula is right for every 64-bit number. */
  lemma EncodedLenIsLength(n: nat)
    requires n <= MAX_USIZE
    ensures EncodedLenVarint(n) == |Varint(n)|
  {
    var m := if n == 0 then 1 else n;
    Power64();
    Log2Bound(m, 63);
    VarintLen(n);
    FormulaIsGroups(Log2(m));
  }

  // ------------------------------------------------------------------ fields

  /** The key of a length-delimited field has 32 bits. */
  function KeyValue(tag: nat): nat {
    (tag * 8 + 2) % 0x1_0000_0000
  }

  /** The tags that fit into one; fragment ids are bytes. */
  predicate IsTag(tag: nat) {
    tag < 0x2000_0000
  }

  function Key(tag: nat): Bytes {
    Varint(KeyValue(tag))
  }

  function Field(tag: nat, payload: Bytes): (r: Bytes)
    ensures |r| >= 2 + |payload|
  {
    Key(tag) + Varint(|payload|) + payload
  }

  function PackedIds(ids: seq<nat>): (r: Bytes)
    ensures |r| >= |ids|
  {
    if ids == [] then [] else PackedIds(ids[..|ids| - 1]) + Varint(ids[|ids| - 1])
  }

  function FilterIds(ids: seq<nat>): Bytes {
    if ids == [] then [] else Field(FILTER_IDS_TAG, PackedIds(ids))
  }

  /** The filter ids go in front of a message that was encoded without them. */
  function BodyItem(tag: nat, ids: seq<nat>, message: Bytes): Bytes {
    Field(tag, FilterIds(ids) + message)
  }

  // ------------------------------------------------------------------ predicted lengths

  function CheckedAdd(a: Result<nat>, b: Result<nat>): Result<nat> {
    if a.Ok? && b.Ok? && a.value + b.value <= MAX_USIZE then Ok(a.value + b.value) else Rejected
  }

  function KeyLen(tag: nat): nat {
    EncodedLenVarint(KeyValue(tag))
  }

  function EncodedLengthDelimitedFieldLen(tag: nat, payloadLen: nat): Result<nat> {
    CheckedAdd(CheckedAdd(Ok(KeyLen(tag)), Ok(EncodedLenVarint(payloadLen))), Ok(payloadLen))
  }

  function PackedFilterIdsPayloadLen(ids: seq<nat>): Result<nat> {
    if ids == [] then Ok(0) else CheckedAdd(PackedFilterIdsPayloadLen(ids[..|ids| - 1]),
                                            Ok(EncodedLenVarint(ids[|ids| - 1])))
  }

  function EncodedFilterIdsLen(ids: seq<nat>): Result<nat> {
    match PackedFilterIdsPayloadLen(ids)
    case Rejected => Rejected
    case Ok(len) => if len == 0 then Ok(0) else EncodedLengthDelimitedFieldLen(FILTER_IDS_TAG, len)
  }

  function EncodedBodyItemLen(tag: nat, ids: seq<nat>, messageLen: nat): Result<nat> {
    match CheckedAdd(EncodedFilterIdsLen(ids), Ok(messageLen))
    case Rejected => Rejected
    case Ok(payloadLen) => EncodedLengthDelimitedFieldLen(tag, payloadLen)
  }

  /** What a length function owes: the number of bytes, or an error exactly when that does not fit. */
  ghost predicate Predicts(len: Result<nat>, bytes: Bytes) {
    len == if |bytes| <= MAX_USIZE then Ok(|bytes|) else Rejected
  }

  /** Filter ids have 32 bits. */
  predicate IsU32(n: nat) {
    n < 0x1_0000_0000
  }

  lemma FieldLenPredicts(tag: nat, payload: Bytes)
    requires |payload| <= MAX_USIZE
    ensures Predicts(EncodedLengthDelimitedFieldLen(tag, |payload|), Field(tag, payload))
  {
    hide Varint, EncodedLenVarint;
    EncodedLenIsLength(KeyValue(tag));
    EncodedLenIsLength(|payload|);
  }

  lemma {:induction false} PackedLenPredicts(ids: seq<nat>)
    requires forall i :: 0 <= i < |ids| ==> IsU32(ids[i])
    ensures Predicts(PackedFilterIdsPayloadLen(ids), PackedIds(ids))
    decreases |ids|
  {
    hide Varint, EncodedLenVarint;
    if ids != [] {
      PackedLenPredicts(ids[..|ids| - 1]);
      EncodedLenIsLength(ids[|ids| - 1]);
    }
  }

  /** The predicted length of an item is the number of bytes written for it, or an error if it does not fit. */
  lemma BodyItemLenPredicts(tag: nat, ids: seq<nat>, message: Bytes)
    requires (forall i :: 0 <= i < |ids| ==> IsU32(ids[i])) && |message| <= MAX_USIZE
    ensures Predicts(EncodedBodyItemLen(tag, ids, |message|), BodyItem(tag, ids, message))
  {
    hide EncodedLengthDelimitedFieldLen, PackedFilterIdsPayloadLen, Field, PackedIds;
    PackedLenPredicts(ids);
    assert |PackedIds(ids)| >= |ids|;
    if ids == [] {
      assert PackedIds(ids) == [] by { NoIds(); }
    }
    if |PackedIds(ids)| <= MAX_USIZE {
      FieldLenPredicts(FILTER_IDS_TAG, PackedIds(ids));
      var payload := FilterIds(ids) + message;
      if |payload| <= MAX_USIZE {
        FieldLenPredicts(tag, payload);
      } else {
        FieldIsLonger(tag, payload);
      }
    } else {
      FieldIsLonger(FILTER_IDS_TAG, PackedIds(ids));
      FieldIsLonger(tag, FilterIds(ids) + message);
    }
  }

  lemma NoIds()
    ensures PackedIds([]) == []
  {
  }

  lemma FieldIsLonger(tag: nat, payload: Bytes)
    ensures |Field(tag, payload)| > |payload|
  {
  }
}
