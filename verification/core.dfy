/** Hashes and cursors (common/src/core.rs). */
module Core {

  datatype Option<+T> = None | Some(value: T)

  /** `Rejected` stands for the error branches; what the source attaches to them is only log text. */
  datatype Result<+T> = Ok(value: T) | Rejected

  type Byte = b: int | 0 <= b < 256

  /** Arbitrary-length hash, most significant byte first. */
  type Hash = seq<Byte>

  datatype Cursor = Cursor(number: nat, hash: Hash)

  /** The cursor written for finalized and pending blocks carries no hash. */
  function Unhashed(number: nat): Cursor {
    Cursor(number, [])
  }

  predicate IsZero(h: Hash) {
    forall i :: 0 <= i < |h| ==> h[i] == 0
  }

  predicate IsEquivalent(a: Cursor, b: Cursor) {
    if a.number != b.number then false
    else if a.hash == [] || b.hash == [] then true
    else if |a.hash| == |b.hash| then a.hash == b.hash
    else if |a.hash| > |b.hash| then
      var diff := |a.hash| - |b.hash|;
      a.hash[diff..] == b.hash && IsZero(a.hash[..diff])
    else
      var diff := |b.hash| - |a.hash|;
      b.hash[diff..] == a.hash && IsZero(b.hash[..diff])
  }

  /** The integer a hash spells in base 256, most significant byte first. */
  ghost function BigEndian(h: Hash): nat {
    if h == [] then 0 else BigEndian(h[..|h| - 1]) * 256 + h[|h| - 1]
  }

  lemma {:induction false} ZeroValueIsZero(h: Hash)
    ensures BigEndian(h) == 0 <==> IsZero(h)
  {
    if h != [] {
      var init := h[..|h| - 1];
      ZeroValueIsZero(init);
      assert h == init + [h[|h| - 1]];
      if IsZero(h) {
        assert forall i :: 0 <= i < |init| ==> init[i] == h[i];
      }
    }
  }

  /** A longer hash has the value of a shorter one exactly when it is that hash padded with zeros. */
  lemma {:induction false} PaddedIffSameValue(long: Hash, short: Hash)
    requires |long| >= |short|
    ensures var diff := |long| - |short|;
            (long[diff..] == short && IsZero(long[..diff])) <==> BigEndian(long) == BigEndian(short)
  {
    var diff := |long| - |short|;
    if short == [] {
      ZeroValueIsZero(long);
      assert long[..diff] == long;
    } else {
      var longInit, shortInit := long[..|long| - 1], short[..|short| - 1];
      PaddedIffSameValue(longInit, shortInit);
      assert long[diff..] == longInit[diff..] + [long[|long| - 1]];
      assert short == shortInit + [short[|short| - 1]];
      assert long[..diff] == longInit[..diff];
    }
  }

  /** On cursors that carry a hash, `is_equivalent` compares numbers and hashes as big-endian integers. */
  lemma EquivalentIffSameValue(a: Cursor, b: Cursor)
    requires a.hash != [] && b.hash != []
    ensures IsEquivalent(a, b) <==> a.number == b.number && BigEndian(a.hash) == BigEndian(b.hash)
  {
    if |a.hash| >= |b.hash| {
      PaddedIffSameValue(a.hash, b.hash);
      assert a.hash[0..] == a.hash;
    } else {
      PaddedIffSameValue(b.hash, a.hash);
    }
  }

  /** Reflexive and symmetric on all cursors, transitive through a cursor that carries a hash. */
  lemma EquivalenceRelation(a: Cursor, b: Cursor, c: Cursor)
    ensures IsEquivalent(a, a)
    ensures IsEquivalent(a, b) == IsEquivalent(b, a)
    ensures b.hash != [] && IsEquivalent(a, b) && IsEquivalent(b, c) ==> IsEquivalent(a, c)
  {
    if a.hash != [] && b.hash != [] {
      EquivalentIffSameValue(a, b);
      EquivalentIffSameValue(b, a);
    }
    if a.hash != [] && b.hash != [] && c.hash != [] {
      EquivalentIffSameValue(b, c);
      EquivalentIffSameValue(a, c);
    }
  }

  /** A cursor without a hash is equivalent to every cursor of its height, so it links different blocks. */
  lemma UnhashedIsNotTransitive(n: nat)
    ensures forall h: Hash :: IsEquivalent(Unhashed(n), Cursor(n, h)) && IsEquivalent(Cursor(n, h), Unhashed(n))
    ensures !IsEquivalent(Cursor(n, [1]), Cursor(n, [2]))
  {
    assert [1][0] != [2][0];
  }
}
