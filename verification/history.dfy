/**
 * Remembered reorgs: every block that was ever canonical is canonical still, or leads, entry by entry,
 * down its own ancestors to a block that is (common/src/chain.rs).
 */
module ChainHistory {
  import opened Core
  import opened Chain
  import opened Ledgers

  /** Every block there ever was, by hash: a hash belongs to one block only. */
  type Tree = map<Hash, BlockInfo>

  predicate InTree(t: Tree, block: BlockInfo) {
    block.hash in t && t[block.hash] == block && !IsZero(block.hash)
  }

  predicate LinkedAt(t: Tree, l: Ledger, i: nat)
    requires i < |l.hashes|
  {
    && l.hashes[i] in t
    && InTree(t, t[l.hashes[i]])
    && t[l.hashes[i]].hash == l.hashes[i]
    && t[l.hashes[i]].number == l.first + i
    && (i > 0 ==> t[l.hashes[i]].parent == l.hashes[i - 1])
  }

  /** The ledger's blocks are known, stand at their own height and follow one another. */
  ghost predicate Linked(t: Tree, l: Ledger) {
    forall i: nat :: i < |l.hashes| ==> LinkedAt(t, l, i)
  }

  /** `a` lies strictly below `d` on the parents of `d`. */
  ghost predicate Ancestor(t: Tree, a: Cursor, d: Cursor)
    decreases d.number
  {
    && a.number < d.number && d.hash in t && t[d.hash].number == d.number
    && var parent := Cursor(d.number - 1, t[d.hash].parent);
       parent == a || Ancestor(t, a, parent)
  }

  lemma {:induction false} LinkedAncestor(t: Tree, l: Ledger, a: Cursor, d: Cursor)
    requires Linked(t, l) && IsCanonical(l, a) && IsCanonical(l, d) && a.number < d.number
    ensures Ancestor(t, a, d)
    decreases d.number
  {
    assert LinkedAt(t, l, d.number - l.first);
    var parent := Cursor(d.number - 1, t[d.hash].parent);
    if parent.number > a.number {
      LinkedAncestor(t, l, a, parent);
    }
  }

  lemma {:induction false} AncestorTransitive(t: Tree, a: Cursor, b: Cursor, c: Cursor)
    requires Ancestor(t, a, b) && Ancestor(t, b, c)
    ensures Ancestor(t, a, c)
    decreases c.number
  {
    var parent := Cursor(c.number - 1, t[c.hash].parent);
    if parent != b {
      AncestorTransitive(t, a, b, parent);
    }
  }

  ghost predicate Extends(t: Tree, t': Tree) {
    forall h :: h in t ==> h in t' && t'[h] == t[h]
  }

  lemma {:induction false} AncestorExtends(t: Tree, t': Tree, a: Cursor, d: Cursor)
    requires Extends(t, t') && Ancestor(t, a, d)
    ensures Ancestor(t', a, d)
    decreases d.number
  {
    var parent := Cursor(d.number - 1, t[d.hash].parent);
    if parent != a {
      AncestorExtends(t, t', a, parent);
    }
  }

  lemma LinkedExtends(t: Tree, t': Tree, l: Ledger)
    requires Extends(t, t') && Linked(t, l)
    ensures Linked(t', l)
  {
    forall i: nat | i < |l.hashes|
      ensures LinkedAt(t', l, i)
    {
      assert LinkedAt(t, l, i);
    }
  }

  /** Two linked chains that share a block share everything below it that both hold. */
  lemma {:induction false} SharedBlockSharesBelow(t: Tree, l: Ledger, m: Ledger, shared: Cursor, n: nat)
    requires Linked(t, l) && Linked(t, m) && IsCanonical(l, shared) && IsCanonical(m, shared)
    requires n <= shared.number && l.first <= n && m.first <= n
    ensures l.hashes[n - l.first] == m.hashes[n - m.first]
    decreases shared.number
  {
    if n < shared.number {
      assert LinkedAt(t, l, shared.number - l.first);
      assert LinkedAt(t, m, shared.number - m.first);
      SharedBlockSharesBelow(t, l, m, Cursor(shared.number - 1, t[shared.hash].parent), n);
    }
  }

  // ------------------------------------------------------------------ remembering

  /** A cursor's entry leads to a remembered, strictly lower ancestor. */
  ghost predicate LeadsDown(t: Tree, l: Ledger, ever: set<Cursor>, c: Cursor) {
    c in l.moved && l.moved[c] in ever && Ancestor(t, l.moved[c], c)
  }

  ghost predicate Remembers(t: Tree, l: Ledger, ever: set<Cursor>) {
    && (forall c :: IsCanonical(l, c) ==> c in ever)
    && (forall c :: c in ever ==> l.first <= c.number && !IsZero(c.hash))
    && (forall c :: c in ever ==> IsCanonical(l, c) || LeadsDown(t, l, ever, c))
    && (forall c :: c in l.moved ==> c in ever)
  }

  lemma RemembersExtends(t: Tree, t': Tree, l: Ledger, ever: set<Cursor>)
    requires Extends(t, t') && Remembers(t, l, ever)
    ensures Remembers(t', l, ever)
  {
    forall c | c in ever
      ensures IsCanonical(l, c) || LeadsDown(t', l, ever, c)
    {
      if !IsCanonical(l, c) {
        AncestorExtends(t, t', l.moved[c], c);
      }
    }
  }

  lemma FirstBlockRemembers(t: Tree, block: BlockInfo)
    requires InTree(t, block)
    ensures var b := Grow(Empty, block).value;
            && Wf(b) && b.Building? && Linked(t, OfBuilder(b)) && Remembers(t, OfBuilder(b), {block.ToCursor()})
  {
  }

  lemma GrowRemembers(t: Tree, l: Ledger, ever: set<Cursor>, block: BlockInfo)
    requires Linked(t, l) && Remembers(t, l, ever) && l.hashes != []
    requires InTree(t, block) && block.number == HeadOf(l).number + 1 && block.parent == HeadOf(l).hash
    ensures Linked(t, Grown(l, block.hash))
    ensures Remembers(t, Grown(l, block.hash), ever + {block.ToCursor()})
  {
    var after, known := Grown(l, block.hash), ever + {block.ToCursor()};
    forall i: nat | i < |after.hashes|
      ensures LinkedAt(t, after, i)
    {
      if i < |l.hashes| { assert LinkedAt(t, l, i); }
    }
    forall c | c in known
      ensures IsCanonical(after, c) || LeadsDown(t, after, known, c)
    {
      assert c in ever && IsCanonical(l, c) ==> IsCanonical(after, c);
    }
  }

  lemma CutLinked(t: Tree, l: Ledger, newHead: Cursor)
    requires Linked(t, l) && IsCanonical(l, newHead)
    ensures Linked(t, Cut(l, newHead))
  {
    var after := Cut(l, newHead);
    forall i: nat | i < |after.hashes|
      ensures LinkedAt(t, after, i)
    {
      assert LinkedAt(t, l, i);
    }
  }

  /** A removed block leads to the new head, its ancestor; every other entry stays. */
  lemma CutLeadsDown(t: Tree, l: Ledger, ever: set<Cursor>, newHead: Cursor, c: Cursor)
    requires Linked(t, l) && Remembers(t, l, ever) && IsCanonical(l, newHead) && c in ever
    ensures IsCanonical(Cut(l, newHead), c) || LeadsDown(t, Cut(l, newHead), ever, c)
  {
    hide Linked, Ancestor;
    if IsCanonical(l, c) && c.number > newHead.number {
      LinkedAncestor(t, l, newHead, c);
    }
  }

  lemma CutRemembers(t: Tree, l: Ledger, ever: set<Cursor>, newHead: Cursor)
    requires Linked(t, l) && Remembers(t, l, ever) && IsCanonical(l, newHead)
    ensures Linked(t, Cut(l, newHead)) && Remembers(t, Cut(l, newHead), ever)
  {
    hide Linked, LeadsDown;
    CutLinked(t, l, newHead);
    forall c | c in ever
      ensures IsCanonical(Cut(l, newHead), c) || LeadsDown(t, Cut(l, newHead), ever, c)
    {
      CutLeadsDown(t, l, ever, newHead, c);
    }
  }

  /** The cursors a restart can still place: those not past the last block. */
  function Survivors(ever: set<Cursor>, last: nat): set<Cursor> {
    set c | c in ever && c.number <= last
  }

  lemma TrimRemembers(t: Tree, l: Ledger, ever: set<Cursor>)
    requires Linked(t, l) && Remembers(t, l, ever) && l.hashes != []
    ensures Linked(t, Trimmed(l)) && Remembers(t, Trimmed(l), Survivors(ever, HeadOf(l).number))
  {
    var after := Trimmed(l);
    forall i: nat | i < |after.hashes|
      ensures LinkedAt(t, after, i)
    {
      assert LinkedAt(t, l, i);
    }
    forall c | c in Survivors(ever, HeadOf(l).number)
      ensures IsCanonical(after, c) || LeadsDown(t, after, Survivors(ever, HeadOf(l).number), c)
    {
      assert c in ever;
      assert IsCanonical(l, c) || LeadsDown(t, l, ever, c);
    }
  }

  /** Where following reorg entries from a remembered cursor ends. */
  ghost function Settle(t: Tree, l: Ledger, ever: set<Cursor>, c: Cursor): Cursor
    requires Remembers(t, l, ever) && c in ever
    decreases c.number
  {
    if IsCanonical(l, c) then c else Settle(t, l, ever, l.moved[c])
  }

  /** It ends at a canonical block: the cursor's own block or an ancestor of it. */
  lemma {:induction false} SettlesOnCanonical(t: Tree, l: Ledger, ever: set<Cursor>, c: Cursor)
    requires Remembers(t, l, ever) && c in ever
    ensures var end := Settle(t, l, ever, c);
            IsCanonical(l, end) && (end == c || Ancestor(t, end, c))
    decreases c.number
  {
    if !IsCanonical(l, c) {
      var next := l.moved[c];
      SettlesOnCanonical(t, l, ever, next);
      var end := Settle(t, l, ever, next);
      if end != next {
        AncestorTransitive(t, end, next, c);
      }
    }
  }

  // ------------------------------------------------------------------ runs of grow, shrink and take_segment

  datatype Op = OpGrow(block: BlockInfo) | OpShrink(newHead: Cursor) | OpTake(size: nat)

  datatype Archive = Archive(segments: seq<Segment>, builder: Builder, ever: set<Cursor>)

  /** An operation the builder refuses changes nothing. */
  function Apply(a: Archive, op: Op): Archive
    requires Wf(a.builder)
  {
    match op
    case OpGrow(block) =>
      if CanGrow(a.builder, block) then
        a.(builder := Grow(a.builder, block).value, ever := a.ever + {block.ToCursor()})
      else a
    case OpShrink(newHead) =>
      (match Shrink(a.builder, newHead)
       case Rejected => a
       case Ok(shrunk) => a.(builder := shrunk.builder))
    case OpTake(size) =>
      if size == 0 then a
      else match TakeSegment(a.builder, size)
        case Rejected => a
        case Ok(taken) => a.(segments := a.segments + [taken.segment], builder := taken.builder)
  }

  ghost predicate ArchiveInv(t: Tree, a: Archive) {
    && Wf(a.builder)
    && (a.builder.Empty? ==> a.segments == [] && a.ever == {})
    && (a.builder.Building? ==>
          && Contiguous(a.segments, a.builder.info.first.number)
          && Linked(t, Whole(a.segments, OfBuilder(a.builder)))
          && Remembers(t, Whole(a.segments, OfBuilder(a.builder)), a.ever))
  }

  lemma HeadInTree(t: Tree, l: Ledger)
    requires Linked(t, l) && l.hashes != []
    ensures !IsZero(HeadOf(l).hash) && HeadOf(l).hash in t
  {
    assert LinkedAt(t, l, |l.hashes| - 1);
  }

  lemma ApplyGrow(t: Tree, a: Archive, block: BlockInfo)
    requires ArchiveInv(t, a) && InTree(t, block)
    ensures ArchiveInv(t, Apply(a, OpGrow(block)))
  {
    hide Remembers, LinkedAt;
    if a.builder.Empty? {
      FirstBlockRemembers(t, block);
      assert a.ever + {block.ToCursor()} == {block.ToCursor()};
    } else if CanGrow(a.builder, block) {
      hide Contiguous, Whole;
      var upper := OfBuilder(a.builder);
      var whole := Whole(a.segments, upper);
      WholeAbove(a.segments, upper, a.builder.info.last);
      assert HeadOf(whole) == a.builder.info.last;
      HeadInTree(t, whole);
      GrowOnLedger(a.builder, block);
      WholeGrows(a.segments, upper, block.hash);
      GrowRemembers(t, whole, a.ever, block);
    }
  }

  lemma ApplyKeepsInv(t: Tree, a: Archive, op: Op)
    requires ArchiveInv(t, a) && (op.OpGrow? ==> InTree(t, op.block))
    ensures ArchiveInv(t, Apply(a, op))
  {
    hide Remembers, Linked;
    match op
    case OpGrow(block) => ApplyGrow(t, a, block);
    case OpShrink(newHead) =>
      ShrinkOnLedger(a.builder, newHead);
      if Shrink(a.builder, newHead).Ok? {
        WholeCuts(a.segments, OfBuilder(a.builder), newHead);
        CutRemembers(t, Whole(a.segments, OfBuilder(a.builder)), a.ever, newHead);
      }
    case OpTake(size) =>
      if size >= 1 && TakeSegment(a.builder, size).Ok? {
        TakeSegmentOnLedger(a.builder, size);
        WholeAfterTake(a.segments, a.builder, size);
      }
  }

  ghost function Run(t: Tree, ops: seq<Op>): (a: Archive)
    requires forall i :: 0 <= i < |ops| && ops[i].OpGrow? ==> InTree(t, ops[i].block)
    ensures ArchiveInv(t, a)
  {
    if ops == [] then Archive([], Empty, {})
    else
      var before := Run(t, ops[..|ops| - 1]);
      ApplyKeepsInv(t, before, ops[|ops| - 1]);
      Apply(before, ops[|ops| - 1])
  }

  /**
   * After any run, every block that ever was canonical still is, or its entry leads to a strictly lower
   * ancestor, and following entries from it ends at a canonical ancestor.
   */
  lemma RunRemembersEveryBlock(t: Tree, ops: seq<Op>, c: Cursor)
    requires forall i :: 0 <= i < |ops| && ops[i].OpGrow? ==> InTree(t, ops[i].block)
    requires c in Run(t, ops).ever
    ensures var a := Run(t, ops);
            && a.builder.Building? && Contiguous(a.segments, a.builder.info.first.number)
            && var whole := Whole(a.segments, OfBuilder(a.builder));
               && (IsCanonical(whole, c) || (c in whole.moved && Ancestor(t, whole.moved[c], c)))
               && Remembers(t, whole, a.ever)
               && IsCanonical(whole, Settle(t, whole, a.ever, c))
               && (Settle(t, whole, a.ever, c) == c || Ancestor(t, Settle(t, whole, a.ever, c), c))
  {
    var a := Run(t, ops);
    SettlesOnCanonical(t, Whole(a.segments, OfBuilder(a.builder)), a.ever, c);
  }
}
