/**
 * The remote chain the ingester follows: it grows, finalizes and reorganizes at any time
 * (spec/reorg_detection/chain.qnt).
 */
module RemoteChain {
  import opened Core
  import opened Chain
  import opened Ledgers
  import opened ChainHistory

  datatype Remote = Remote(head: nat, finalized: nat, canonical: map<nat, Hash>,
                           parent: map<Hash, Hash>, blockNumber: map<Hash, nat>, reorgCount: nat)

  /** The specification counts hashes up; here a new block may take any unused non-zero hash. */
  datatype RemoteAction = Advance(hash: Hash) | Finalize(jump: nat) | Reorganize(newHead: nat)

  function NewChain(genesis: BlockInfo): Remote {
    Remote(0, 0, map[0 := genesis.hash], map[genesis.hash := genesis.parent], map[genesis.hash := 0], 0)
  }

  function AdvanceHead(r: Remote, hash: Hash): Remote
    requires r.head in r.canonical
  {
    Remote(r.head + 1, r.finalized, r.canonical[r.head + 1 := hash], r.parent[hash := r.canonical[r.head]],
           r.blockNumber[hash := r.head + 1], r.reorgCount)
  }

  function AdvanceFinalizedBy(r: Remote, jump: nat): Remote
    requires r.finalized <= r.head
  {
    r.(finalized := if jump > r.head - r.finalized then r.head else r.finalized + jump)
  }

  function Reorg(r: Remote, newHead: nat): Remote {
    r.(head := newHead, canonical := map n | n in r.canonical && n <= newHead :: r.canonical[n],
       reorgCount := r.reorgCount + 1)
  }

  ghost predicate RemoteInv(r: Remote) {
    && r.finalized <= r.head
    && (forall n: nat :: n in r.canonical <==> n <= r.head)
    && r.parent.Keys == r.blockNumber.Keys
    && (forall h :: h in r.parent ==> !IsZero(h))
    && (forall n: nat :: n <= r.head ==> r.canonical[n] in r.parent && r.blockNumber[r.canonical[n]] == n)
    && (forall n: nat :: 0 < n <= r.head ==> r.parent[r.canonical[n]] == r.canonical[n - 1])
  }

  function GetBlockByNumber(r: Remote, n: nat): Option<BlockInfo>
    requires RemoteInv(r)
  {
    if n in r.canonical then Some(BlockInfo(n, r.canonical[n], r.parent[r.canonical[n]])) else None
  }

  /** A reorganization never goes below the finalized block. */
  predicate Enabled(r: Remote, action: RemoteAction) {
    match action
    case Advance(hash) => hash !in r.parent && !IsZero(hash)
    case Finalize(_) => true
    case Reorganize(newHead) => r.finalized <= newHead <= r.head
  }

  function Next(r: Remote, action: RemoteAction): Remote
    requires RemoteInv(r)
  {
    match action
    case Advance(hash) => AdvanceHead(r, hash)
    case Finalize(jump) => AdvanceFinalizedBy(r, jump)
    case Reorganize(newHead) => Reorg(r, newHead)
  }

  ghost function TreeOf(r: Remote): Tree
    requires RemoteInv(r)
  {
    map h | h in r.parent :: BlockInfo(r.blockNumber[h], h, r.parent[h])
  }

  ghost function LedgerOf(r: Remote): Ledger
    requires RemoteInv(r)
  {
    Ledger(0, seq(r.head + 1, n requires 0 <= n < r.head + 1 => r.canonical[n]), imap[])
  }

  predicate OnChain(r: Remote, c: Cursor) {
    c.number in r.canonical && r.canonical[c.number] == c.hash
  }

  predicate Final(r: Remote, c: Cursor) {
    OnChain(r, c) && c.number <= r.finalized
  }

  /**
   * What a later state owes an earlier one: blocks keep their height and parent for ever, a finalized
   * block stays, and a block that was dropped never comes back.
   */
  ghost predicate Succeeds(r: Remote, r': Remote)
    requires RemoteInv(r) && RemoteInv(r')
  {
    && Extends(TreeOf(r), TreeOf(r'))
    && (forall c :: Final(r, c) ==> Final(r', c))
    && (forall c: Cursor :: c.hash in TreeOf(r) && OnChain(r', c) ==> OnChain(r, c))
  }

  lemma NewChainInv(genesis: BlockInfo)
    requires !IsZero(genesis.hash)
    ensures RemoteInv(NewChain(genesis))
  {
  }

  lemma NextKeepsInv(r: Remote, action: RemoteAction)
    requires RemoteInv(r) && Enabled(r, action)
    ensures RemoteInv(Next(r, action))
  {
  }

  lemma NextSucceeds(r: Remote, action: RemoteAction)
    requires RemoteInv(r) && Enabled(r, action)
    ensures RemoteInv(Next(r, action)) && Succeeds(r, Next(r, action))
  {
    NextKeepsInv(r, action);
  }

  lemma SucceedsTransitive(r: Remote, r': Remote, r'': Remote)
    requires RemoteInv(r) && RemoteInv(r') && RemoteInv(r'') && Succeeds(r, r') && Succeeds(r', r'')
    ensures Succeeds(r, r'')
  {
  }

  /** The remote chain is one linked chain from genesis, at any moment. */
  lemma RemoteIsLinked(r: Remote)
    requires RemoteInv(r)
    ensures Linked(TreeOf(r), LedgerOf(r))
    ensures forall c :: OnChain(r, c) <==> IsCanonical(LedgerOf(r), c)
  {
  }

  /** An answer is a block of the tree at the asked height. */
  lemma AnswerInTree(r: Remote, n: nat)
    requires RemoteInv(r) && GetBlockByNumber(r, n).Some?
    ensures var block := GetBlockByNumber(r, n).value;
            InTree(TreeOf(r), block) && block.number == n && OnChain(r, block.ToCursor())
  {
  }
}
