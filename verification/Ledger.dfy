/** Valid chains, the index each one determines, and how the undo window cuts it. */
module Ledger {
  import opened Chain
  import opened Index

  /** The consensus rules a block meets on top of an index. */
  predicate ValidBlock(ix: Index, b: Block, h: int) {
    && TxidsDistinct(b.txs)
    && EveryTxHasOutputs(b.txs)
    && Txids(b.txs) !! ix.txBlock.Keys
    && b.hash !in ix.blocks
    && InputsExist(ix.utxo, b.txs, h)
  }

  /** The index of a chain: every block connected in turn, nothing pruned. */
  function IndexOf(c: seq<Block>): Index {
    if c == [] then EMPTY_INDEX else Connect(IndexOf(c[..|c| - 1]), c[|c| - 1], |c| - 1)
  }

  predicate ValidAt(c: seq<Block>, n: nat)
    requires n < |c|
  {
    && ValidBlock(IndexOf(c[..n]), c[n], n)
    && (n > 0 ==> c[n].prevHash == c[n - 1].hash)
  }

  /** Each block is valid on the index of the blocks before it, and names the last of them. */
  predicate ValidChain(c: seq<Block>) {
    forall n: nat :: n < |c| ==> ValidAt(c, n)
  }

  lemma AtPrefix(c: seq<Block>, m: nat, n: nat)
    requires n < m <= |c|
    ensures ValidAt(c[..m], n) == ValidAt(c, n)
  {
    hide ValidBlock, IndexOf;
    assert c[..m][..n] == c[..n];
  }

  /** Every prefix of a valid chain is one. */
  lemma PrefixValid(c: seq<Block>, m: nat)
    requires ValidChain(c) && m <= |c|
    ensures ValidChain(c[..m])
  {
    hide ValidAt;
    forall n: nat | n < m ensures ValidAt(c[..m], n) {
      AtPrefix(c, m, n);
    }
  }

  lemma LastValid(c: seq<Block>)
    requires ValidChain(c) && c != []
    ensures ValidChain(c[..|c| - 1]) && ValidBlock(IndexOf(c[..|c| - 1]), c[|c| - 1], |c| - 1)
    ensures |c| > 1 ==> c[|c| - 1].prevHash == c[|c| - 2].hash
  {
    hide ValidBlock, IndexOf;
    PrefixValid(c, |c| - 1);
    assert ValidAt(c, |c| - 1);
  }

  /** The coins left by replaying the chain from genesis, one transaction after another. */
  function Replay(c: seq<Block>): map<Outpoint, Coin> {
    if c == [] then map[]
    else ConsensusApply(Replay(c[..|c| - 1]), c[|c| - 1].txs, |c| - 1, |c[|c| - 1].txs|)
  }

  function HashSet(c: seq<Block>): set<BlockHash> {
    set b | b in c :: b.hash
  }

  function Hashes(c: seq<Block>): (r: seq<BlockHash>)
    ensures |r| == |c| && forall i :: 0 <= i < |c| ==> r[i] == c[i].hash
  {
    seq(|c|, i requires 0 <= i < |c| => c[i].hash)
  }

  /** The index of `c` with the undo records of its first `from` blocks gone. */
  function Windowed(c: seq<Block>, from: nat): Index
    requires from <= |c|
  {
    Prune(IndexOf(c), HashSet(c[..from]))
  }

  // ----- what a valid chain's index looks like

  /** Each block's B record names its height, time and parent. */
  ghost predicate RecsMatch(c: seq<Block>, blocks: map<BlockHash, BlockRec>) {
    forall i :: 0 <= i < |c| ==>
      c[i].hash in blocks && blocks[c[i].hash] == BlockRec(i, c[i].timestamp, c[i].prevHash)
  }

  ghost predicate CoinsKnown(utxo: map<Outpoint, Coin>, txBlock: map<Txid, BlockHash>, h: int) {
    forall op :: op in utxo ==> op.txid in txBlock && 0 <= utxo[op].height < h
  }

  ghost predicate SpentKnown(undo: map<BlockHash, Undo>, txBlock: map<Txid, BlockHash>) {
    forall bh, op :: bh in undo && op in undo[bh].spent ==> op.txid in txBlock
  }

  ghost predicate Described(c: seq<Block>, ix: Index) {
    && ix.blocks.Keys == HashSet(c) && ix.undo.Keys == HashSet(c) && ix.window == HashSet(c)
    && RecsMatch(c, ix.blocks)
    && CoinsKnown(ix.utxo, ix.txBlock, |c|)
    && SpentKnown(ix.undo, ix.txBlock)
  }

  lemma DescribedFresh(c: seq<Block>, ix: Index, b: Block)
    requires Described(c, ix) && ValidBlock(ix, b, |c|)
    ensures BlockFresh(ix, b, |c|)
  {
    forall op | op in ix.utxo ensures op.txid !in Txids(b.txs) {
      assert op.txid in ix.txBlock.Keys;
    }
  }

  lemma HashSetAppend(c: seq<Block>, b: Block)
    ensures HashSet(c + [b]) == HashSet(c) + {b.hash}
  {
    assert forall x :: x in c + [b] <==> x in c || x == b;
  }

  lemma RecsStep(c: seq<Block>, blocks: map<BlockHash, BlockRec>, b: Block)
    requires RecsMatch(c, blocks) && b.hash !in blocks
    ensures RecsMatch(c + [b], blocks[b.hash := BlockRec(|c|, b.timestamp, b.prevHash)])
  {
  }

  lemma CoinsStep(ix: Index, b: Block, h: nat)
    requires CoinsKnown(ix.utxo, ix.txBlock, h)
    ensures CoinsKnown((ix.utxo + BlockCoins(b, h)) - Elems(BlockSpends(b)),
                       ix.txBlock + InBlock(Txids(b.txs), b.hash), h + 1)
  {
    CreatedFacts(b, h);
  }

  lemma SpentStep(ix: Index, b: Block, h: nat)
    requires CoinsKnown(ix.utxo, ix.txBlock, h) && SpentKnown(ix.undo, ix.txBlock)
    ensures SpentKnown(ix.undo[b.hash := BlockUndo(ix, b, h)], ix.txBlock + InBlock(Txids(b.txs), b.hash))
  {
    CreatedFacts(b, h);
  }

  lemma DescribedStep(c: seq<Block>, ix: Index, b: Block)
    requires Described(c, ix) && ValidBlock(ix, b, |c|)
    ensures Described(c + [b], Connect(ix, b, |c|))
  {
    assert TxidsDistinct(b.txs) && b.hash !in ix.blocks;
    hide ValidBlock, Connect, BlockUndo, BlockSpends, NewScripts, BlockCoins, InBlock, AtHeight;
    hide HashSet, RecsMatch, CoinsKnown, SpentKnown, Elems;
    ConnectClosed(ix, b, |c|);
    HashSetAppend(c, b);
    CoinsStep(ix, b, |c|);
    RecsStep(c, ix.blocks, b);
    SpentStep(ix, b, |c|);
    var r := Connect(ix, b, |c|);
    assert |c + [b]| == |c| + 1;
    assert r.blocks.Keys == ix.blocks.Keys + {b.hash};
    assert r.undo.Keys == ix.undo.Keys + {b.hash};
  }

  lemma {:induction false} ChainDescribed(c: seq<Block>)
    requires ValidChain(c)
    ensures Described(c, IndexOf(c))
  {
    if c != [] {
      var prefix, b := c[..|c| - 1], c[|c| - 1];
      LastValid(c);
      ChainDescribed(prefix);
      DescribedStep(prefix, IndexOf(prefix), b);
      assert prefix + [b] == c;
    }
  }

  lemma IndexStep(c: seq<Block>, b: Block)
    ensures (c + [b])[..|c|] == c
    ensures IndexOf(c + [b]) == Connect(IndexOf(c), b, |c|)
  {
    hide Connect;
    assert (c + [b])[..|c|] == c;
  }

  lemma ValidStep(c: seq<Block>, b: Block)
    ensures (c + [b])[..|c|] == c
    ensures IndexOf(c + [b]) == Connect(IndexOf(c), b, |c|)
    ensures ValidChain(c + [b]) <==>
      ValidChain(c) && ValidBlock(IndexOf(c), b, |c|) && (c != [] ==> b.prevHash == c[|c| - 1].hash)
  {
    IndexStep(c, b);
    hide ValidBlock, IndexOf, Connect;
    if ValidChain(c + [b]) {
      LastValid(c + [b]);
    }
    if ValidChain(c) && ValidBlock(IndexOf(c), b, |c|) && (c != [] ==> b.prevHash == c[|c| - 1].hash) {
      forall n: nat | n < |c + [b]| ensures ValidAt(c + [b], n) {
        if n < |c| {
          AtPrefix(c + [b], |c|, n);
        }
      }
    }
  }

  lemma HashesStep(c: seq<Block>, ix: Index, b: Block)
    requires Distinct(Hashes(c)) && Described(c, ix) && b.hash !in ix.blocks
    ensures Distinct(Hashes(c + [b]))
  {
    forall i, j | 0 <= i < j < |c + [b]| ensures Hashes(c + [b])[i] != Hashes(c + [b])[j] {
      if j < |c| {
        assert Hashes(c)[i] != Hashes(c)[j];
      } else {
        assert c[i].hash in ix.blocks;
      }
    }
  }

  /** No two blocks of a valid chain share a hash. */
  lemma {:induction false} HashesDistinct(c: seq<Block>)
    requires ValidChain(c)
    ensures Distinct(Hashes(c))
  {
    if c != [] {
      var prefix, b := c[..|c| - 1], c[|c| - 1];
      LastValid(c);
      HashesDistinct(prefix);
      ChainDescribed(prefix);
      HashesStep(prefix, IndexOf(prefix), b);
      assert prefix + [b] == c;
    }
  }

  /** The index's coins are those of replaying the chain in consensus order. */
  lemma {:induction false} IndexCoinsAreReplay(c: seq<Block>)
    requires ValidChain(c)
    ensures IndexOf(c).utxo == Replay(c)
  {
    if c != [] {
      var prefix, b := c[..|c| - 1], c[|c| - 1];
      LastValid(c);
      IndexCoinsAreReplay(prefix);
      ChainDescribed(prefix);
      ReplayStep(prefix, IndexOf(prefix), b);
    }
  }

  lemma ReplayStep(c: seq<Block>, ix: Index, b: Block)
    requires Described(c, ix) && ValidBlock(ix, b, |c|)
    ensures Connect(ix, b, |c|).utxo == ConsensusApply(ix.utxo, b.txs, |c|, |b.txs|)
  {
    DescribedFresh(c, ix, b);
    ConnectClosed(ix, b, |c|);
    ConsensusIsTwoPass(ix.utxo, b.txs, |c|, |b.txs|);
  }

  // ----- the window

  lemma PruneConnect(ix: Index, b: Block, h: int, aged: set<BlockHash>)
    requires TxidsDistinct(b.txs) && b.hash !in aged
    ensures Connect(Prune(ix, aged), b, h) == Prune(Connect(ix, b, h), aged)
  {
    ConnectClosed(ix, b, h);
    ConnectClosed(Prune(ix, aged), b, h);
    var u := BlockUndo(ix, b, h);
    assert BlockUndo(Prune(ix, aged), b, h) == u;
    hide Connect, BlockUndo, BlockSpends, NewScripts, BlockCoins;
    assert (ix.undo - aged)[b.hash := u] == ix.undo[b.hash := u] - aged;
    assert (ix.window - aged) + {b.hash} == (ix.window + {b.hash}) - aged;
  }

  lemma HashSetsDisjoint(c: seq<Block>, n: nat)
    requires ValidChain(c) && n <= |c|
    ensures HashSet(c[..n]) !! HashSet(c[n..])
  {
    HashesDistinct(c);
    forall i, j | 0 <= i < n <= j < |c| ensures c[i].hash != c[j].hash {
      assert Hashes(c)[i] != Hashes(c)[j];
    }
  }

  /** The blocks still in the window, and whose undo records are kept, are the chain's last ones. */
  lemma WindowIsSuffix(c: seq<Block>, from: nat)
    requires ValidChain(c) && from <= |c|
    ensures Windowed(c, from).window == HashSet(c[from..])
    ensures Windowed(c, from).undo.Keys == HashSet(c[from..])
  {
    ChainDescribed(c);
    HashSetsDisjoint(c, from);
  }

  lemma WindowedFresh(c: seq<Block>, from: nat, b: Block)
    requires ValidChain(c + [b]) && from <= |c|
    ensures BlockFresh(Windowed(c, from), b, |c|)
  {
    ValidStep(c, b);
    ChainDescribed(c);
    DescribedFresh(c, IndexOf(c), b);
  }

  /** A new block's hash is no earlier block's, and its txids are distinct. */
  lemma NewHash(c: seq<Block>, from: nat, b: Block)
    requires ValidChain(c + [b]) && from <= |c|
    ensures b.hash !in HashSet(c[..from]) && TxidsDistinct(b.txs)
  {
    ValidStep(c, b);
    ChainDescribed(c);
  }

  /** Staging a block on a windowed index is connecting it. */
  lemma WindowedStep(c: seq<Block>, from: nat, b: Block)
    requires ValidChain(c + [b]) && from <= |c|
    ensures Windowed(c + [b], from) == Connect(Windowed(c, from), b, |c|)
  {
    hide Prune, Connect, Described, BlockFresh, InputsExist;
    ValidStep(c, b);
    ChainDescribed(c);
    NewHash(c, from, b);
    PruneConnect(IndexOf(c), b, |c|, HashSet(c[..from]));
    assert (c + [b])[..from] == c[..from];
  }

  /** Rolling the tip back on a windowed index is the windowed index of the shorter chain. */
  lemma WindowedBack(c: seq<Block>, from: nat, b: Block)
    requires ValidChain(c + [b]) && from <= |c|
    ensures b.hash in Windowed(c + [b], from).undo
    ensures Disconnect(Windowed(c + [b], from), b.hash) == Windowed(c, from)
  {
    WindowedFresh(c, from, b);
    WindowedStep(c, from, b);
    ValidStep(c, b);
    DisconnectInverts(Windowed(c, from), b, |c|);
  }

  lemma PruneTwice(ix: Index, a: set<BlockHash>, b: set<BlockHash>, u: set<BlockHash>)
    requires (ix.undo.Keys + ix.window) - (a + b) == (ix.undo.Keys + ix.window) - u
    ensures Prune(Prune(ix, a), b) == Prune(ix, u)
  {
    forall x | x in ix.undo.Keys + ix.window ensures x in a + b <==> x in u {
      assert x in (ix.undo.Keys + ix.window) - u <==> x !in u;
    }
    assert (ix.undo - a) - b == ix.undo - u;
    assert (ix.window - a) - b == ix.window - u;
  }

  /** Pruning any set of hashes that holds the blocks from `from` to `to` and none after them
      moves the window to `to`, whatever else the set holds. */
  lemma WindowedPrune(c: seq<Block>, from: nat, to: nat, aged: set<BlockHash>)
    requires ValidChain(c) && from <= to <= |c|
    requires HashSet(c[from..to]) <= aged && aged !! HashSet(c[to..])
    ensures Prune(Windowed(c, from), aged) == Windowed(c, to)
  {
    ChainDescribed(c);
    HashSetsDisjoint(c, to);
    assert c[..to][..from] == c[..from] && c[..to][from..] == c[from..to];
    PruneTwice(IndexOf(c), HashSet(c[..from]), aged, HashSet(c[..to]));
  }
}
