/** Bulk sync: the records a block adds to the three streams, and the anti-join that keeps the outputs
    no spend names. For every valid chain the result is the coins the live index has. */
module BulkSync {
  import opened Chain
  import opened Index
  import opened Ledger

  datatype OutRec = OutRec(op: Outpoint, coin: Coin, bh: BlockHash)
  datatype SpendRec = SpendRec(prev: Outpoint, spender: Txid)
  datatype MetaRec = MetaRec(height: int, timestamp: nat, hash: BlockHash, prevHash: BlockHash, txids: seq<Txid>)

  // ----- what a block adds to each stream

  function TxOutputs(tx: Tx, bh: BlockHash, h: int, n: nat): (r: seq<OutRec>)
    requires n <= |tx.outs|
    ensures |r| == n
  {
    seq(n, i requires 0 <= i < n => OutRec(Outpoint(tx.txid, i), CoinOf(tx, i, h), bh))
  }

  function TxSpendRecs(tx: Tx): (r: seq<SpendRec>)
    ensures |r| == |TxSpends(tx)|
  {
    seq(|TxSpends(tx)|, i requires 0 <= i < |TxSpends(tx)| => SpendRec(TxSpends(tx)[i], tx.txid))
  }

  function BlockOutputs(txs: seq<Tx>, bh: BlockHash, h: int, n: nat): seq<OutRec>
    requires n <= |txs|
  {
    if n == 0 then [] else BlockOutputs(txs, bh, h, n - 1) + TxOutputs(txs[n - 1], bh, h, |txs[n - 1].outs|)
  }

  function BlockSpendRecs(txs: seq<Tx>, n: nat): seq<SpendRec>
    requires n <= |txs|
  {
    if n == 0 then [] else BlockSpendRecs(txs, n - 1) + TxSpendRecs(txs[n - 1])
  }

  function TxidList(txs: seq<Tx>): (r: seq<Txid>)
    ensures |r| == |txs|
  {
    seq(|txs|, i requires 0 <= i < |txs| => txs[i].txid)
  }

  function BlockMeta(b: Block, h: int): MetaRec {
    MetaRec(h, b.timestamp, b.hash, b.prevHash, TxidList(b.txs))
  }

  /** The three output streams of one parse worker. */
  class Writers {
    var outputs: seq<OutRec>
    var spends: seq<SpendRec>
    var meta: seq<MetaRec>

    constructor ()
      ensures outputs == [] && spends == [] && meta == []
    {
      outputs, spends, meta := [], [], [];
    }
  }

  method AppendOutputs(tx: Tx, h: int, bh: BlockHash, writers: Writers) returns (emitted: nat)
    modifies writers`outputs
    ensures writers.outputs == old(writers.outputs) + TxOutputs(tx, bh, h, |tx.outs|) && emitted == |tx.outs|
  {
    var isCoinbase := |tx.ins| == 1 && tx.ins[0].prev.vout == COINBASE_INDEX;
    emitted := 0;
    for vout := 0 to |tx.outs|
      invariant writers.outputs == old(writers.outputs) + TxOutputs(tx, bh, h, vout) && emitted == vout
    {
      var coin := Coin(tx.outs[vout].script, tx.outs[vout].value, h, isCoinbase);
      writers.outputs := writers.outputs + [OutRec(Outpoint(tx.txid, vout), coin, bh)];
      assert TxOutputs(tx, bh, h, vout + 1) == TxOutputs(tx, bh, h, vout) + [OutRec(Outpoint(tx.txid, vout), coin, bh)];
      emitted := emitted + 1;
    }
  }

  function SpendRecs(ops: seq<Outpoint>, txid: Txid): (r: seq<SpendRec>)
    ensures |r| == |ops|
  {
    seq(|ops|, i requires 0 <= i < |ops| => SpendRec(ops[i], txid))
  }

  method AppendSpends(tx: Tx, writers: Writers) returns (emitted: nat)
    modifies writers`spends
    ensures writers.spends == old(writers.spends) + TxSpendRecs(tx) && emitted == |TxSpends(tx)|
  {
    emitted := 0;
    for k := 0 to |tx.ins|
      invariant writers.spends == old(writers.spends) + SpendRecs(InputSpends(tx.ins, k), tx.txid)
      invariant emitted == |InputSpends(tx.ins, k)|
    {
      var inp := tx.ins[k];
      if !(inp.prev.vout == COINBASE_INDEX || !inp.standard) {
        writers.spends := writers.spends + [SpendRec(inp.prev, tx.txid)];
        assert SpendRecs(InputSpends(tx.ins, k) + [inp.prev], tx.txid)
            == SpendRecs(InputSpends(tx.ins, k), tx.txid) + [SpendRec(inp.prev, tx.txid)];
        emitted := emitted + 1;
      }
    }
    assert SpendRecs(InputSpends(tx.ins, |tx.ins|), tx.txid) == TxSpendRecs(tx);
  }

  /** One decoded block into the three streams, transaction by transaction. */
  method ProcessBlock(b: Block, h: int, writers: Writers) returns (outputs: nat, spends: nat)
    modifies writers
    ensures writers.outputs == old(writers.outputs) + BlockOutputs(b.txs, b.hash, h, |b.txs|)
    ensures writers.spends == old(writers.spends) + BlockSpendRecs(b.txs, |b.txs|)
    ensures writers.meta == old(writers.meta) + [BlockMeta(b, h)]
    ensures outputs == |BlockOutputs(b.txs, b.hash, h, |b.txs|)| && spends == |BlockSpendRecs(b.txs, |b.txs|)|
  {
    var txidList: seq<Txid> := [];
    outputs, spends := 0, 0;
    for i := 0 to |b.txs|
      invariant writers.outputs == old(writers.outputs) + BlockOutputs(b.txs, b.hash, h, i)
      invariant writers.spends == old(writers.spends) + BlockSpendRecs(b.txs, i)
      invariant writers.meta == old(writers.meta)
      invariant outputs == |BlockOutputs(b.txs, b.hash, h, i)| && spends == |BlockSpendRecs(b.txs, i)|
      invariant txidList == TxidList(b.txs)[..i]
    {
      var emittedOutputs := AppendOutputs(b.txs[i], h, b.hash, writers);
      var emittedSpends := AppendSpends(b.txs[i], writers);
      txidList := txidList + [b.txs[i].txid];
      outputs, spends := outputs + emittedOutputs, spends + emittedSpends;
    }
    assert TxidList(b.txs)[..|b.txs|] == TxidList(b.txs);
    writers.meta := writers.meta + [MetaRec(h, b.timestamp, b.hash, b.prevHash, txidList)];
  }

  // ----- the streams of a chain

  function ChainOutputs(c: seq<Block>): seq<OutRec> {
    if c == [] then []
    else
      var b := c[|c| - 1];
      ChainOutputs(c[..|c| - 1]) + BlockOutputs(b.txs, b.hash, |c| - 1, |b.txs|)
  }

  function ChainSpends(c: seq<Block>): seq<SpendRec> {
    if c == [] then []
    else
      var b := c[|c| - 1];
      ChainSpends(c[..|c| - 1]) + BlockSpendRecs(b.txs, |b.txs|)
  }

  /** A meta record tells its block: height, time, hash, parent, and the transactions in order. */
  predicate Describes(m: MetaRec, b: Block, h: int) {
    && m.height == h && m.timestamp == b.timestamp && m.hash == b.hash && m.prevHash == b.prevHash
    && |m.txids| == |b.txs| && forall j :: 0 <= j < |b.txs| ==> m.txids[j] == b.txs[j].txid
  }

  lemma ParentsNamed(c: seq<Block>, meta: seq<MetaRec>)
    requires |meta| == |c| && forall h :: 0 <= h < |c| ==> Describes(meta[h], c[h], h)
    ensures ValidChain(c) ==> forall h :: 0 < h < |c| ==> meta[h].prevHash == meta[h - 1].hash
  {
    hide ValidBlock, IndexOf;
    if ValidChain(c) {
      forall h | 0 < h < |c| ensures meta[h].prevHash == meta[h - 1].hash {
        assert ValidAt(c, h);
      }
    }
  }

  /** All blocks of a chain through the writers, in height order. */
  method DumpChain(c: seq<Block>) returns (writers: Writers)
    ensures fresh(writers) && writers.outputs == ChainOutputs(c) && writers.spends == ChainSpends(c)
    ensures |writers.meta| == |c| && forall h :: 0 <= h < |c| ==> Describes(writers.meta[h], c[h], h)
    ensures ValidChain(c) ==> forall h :: 0 < h < |c| ==> writers.meta[h].prevHash == writers.meta[h - 1].hash
  {
    hide ValidChain, BlockOutputs, BlockSpendRecs;
    writers := new Writers();
    for h := 0 to |c|
      invariant fresh(writers) && writers.outputs == ChainOutputs(c[..h]) && writers.spends == ChainSpends(c[..h])
      invariant |writers.meta| == h && forall i :: 0 <= i < h ==> Describes(writers.meta[i], c[i], i)
    {
      assert c[..h + 1][..h] == c[..h];
      var outputs, spends := ProcessBlock(c[h], h, writers);
    }
    assert c[..|c|] == c;
    ParentsNamed(c, writers.meta);
  }

  // ----- what the streams say about the coins

  function OutKeys(recs: seq<OutRec>): (r: seq<Outpoint>)
    ensures |r| == |recs|
  {
    seq(|recs|, i requires 0 <= i < |recs| => recs[i].op)
  }

  function SpendKeys(recs: seq<SpendRec>): (r: seq<Outpoint>)
    ensures |r| == |recs|
  {
    seq(|recs|, i requires 0 <= i < |recs| => recs[i].prev)
  }

  /** The records name each of these coins once, and no other. */
  ghost predicate Lists(recs: seq<OutRec>, coins: map<Outpoint, Coin>) {
    Distinct(OutKeys(recs)) && Elems(OutKeys(recs)) == coins.Keys
    && forall i :: 0 <= i < |recs| ==> recs[i].op in coins && coins[recs[i].op] == recs[i].coin
  }

  lemma ListsAppend(a: seq<OutRec>, b: seq<OutRec>, m: map<Outpoint, Coin>, n: map<Outpoint, Coin>)
    requires Lists(a, m) && Lists(b, n) && m.Keys !! n.Keys
    ensures Lists(a + b, m + n)
  {
    assert OutKeys(a + b) == OutKeys(a) + OutKeys(b);
    DistinctAppend(OutKeys(a), OutKeys(b));
    ElemsAppend(OutKeys(a), OutKeys(b));
    forall i | 0 <= i < |a + b| ensures (a + b)[i].op in m + n && (m + n)[(a + b)[i].op] == (a + b)[i].coin {
      if i < |a| {
        assert a[i].op in m.Keys;
      } else {
        assert b[i - |a|].op in n;
      }
    }
  }

  lemma TxOutputsList(tx: Tx, bh: BlockHash, h: int)
    ensures Lists(TxOutputs(tx, bh, h, |tx.outs|), TxCoins(tx, h, |tx.outs|))
  {
    var recs, coins := TxOutputs(tx, bh, h, |tx.outs|), TxCoins(tx, h, |tx.outs|);
    forall op | op in coins ensures op in Elems(OutKeys(recs)) {
      assert OutKeys(recs)[op.vout] == op;
    }
    forall op | op in Elems(OutKeys(recs)) ensures op in coins {
      var i :| 0 <= i < |recs| && OutKeys(recs)[i] == op;
    }
  }

  lemma {:induction false} BlockOutputsList(txs: seq<Tx>, bh: BlockHash, h: int, n: nat)
    requires n <= |txs| && TxidsDistinct(txs)
    ensures Lists(BlockOutputs(txs, bh, h, n), Created(txs, h, n))
  {
    hide Lists;
    if n == 0 {
      NothingListed();
    } else {
      BlockOutputsList(txs, bh, h, n - 1);
      TxOutputsList(txs[n - 1], bh, h);
      NewCoinsAreNew(map[], txs, h, n);
      ListsAppend(BlockOutputs(txs, bh, h, n - 1), TxOutputs(txs[n - 1], bh, h, |txs[n - 1].outs|),
        Created(txs, h, n - 1), TxCoins(txs[n - 1], h, |txs[n - 1].outs|));
    }
  }

  lemma NothingListed()
    ensures Lists([], map[])
  {
  }

  lemma {:induction false} BlockSpendKeys(txs: seq<Tx>, n: nat)
    requires n <= |txs|
    ensures SpendKeys(BlockSpendRecs(txs, n)) == SpendsOf(txs, n)
  {
    if n > 0 {
      BlockSpendKeys(txs, n - 1);
      assert SpendKeys(BlockSpendRecs(txs, n)) == SpendKeys(BlockSpendRecs(txs, n - 1)) + SpendKeys(TxSpendRecs(txs[n - 1]));
      assert SpendKeys(TxSpendRecs(txs[n - 1])) == TxSpends(txs[n - 1]);
    }
  }

  /** Every coin any block of the chain created. */
  function AllCreated(c: seq<Block>): map<Outpoint, Coin> {
    if c == [] then map[] else AllCreated(c[..|c| - 1]) + BlockCoins(c[|c| - 1], |c| - 1)
  }

  /** What bulk sync rests on: created coins are new, spent ones exist and are spent once, and the
      live coins are the created ones less the spent ones. */
  ghost predicate TwoStreams(c: seq<Block>, ix: Index) {
    && Lists(ChainOutputs(c), AllCreated(c))
    && (forall op :: op in AllCreated(c) ==> op.txid in ix.txBlock)
    && Distinct(SpendKeys(ChainSpends(c))) && Elems(SpendKeys(ChainSpends(c))) <= AllCreated(c).Keys
    && ix.utxo == AllCreated(c) - Elems(SpendKeys(ChainSpends(c)))
  }

  lemma BlockAfter(created: map<Outpoint, Coin>, spent: seq<Outpoint>, utxo: map<Outpoint, Coin>,
                   coins: map<Outpoint, Coin>, spends: seq<Outpoint>)
    requires Elems(spent) <= created.Keys && utxo == created - Elems(spent)
    requires coins.Keys !! created.Keys && Distinct(spent) && Distinct(spends)
    requires Elems(spends) <= utxo.Keys + coins.Keys
    ensures (utxo + coins) - Elems(spends) == (created + coins) - Elems(spent + spends)
    ensures Distinct(spent + spends) && Elems(spent + spends) <= (created + coins).Keys
  {
    ElemsAppend(spent, spends);
    DistinctAppend(spent, spends);
  }

  lemma NewTxids(ix: Index, b: Block, h: int, created: map<Outpoint, Coin>)
    requires Txids(b.txs) !! ix.txBlock.Keys && forall op :: op in created ==> op.txid in ix.txBlock
    ensures BlockCoins(b, h).Keys !! created.Keys
    ensures forall op :: op in created + BlockCoins(b, h) ==> op.txid in ix.txBlock + InBlock(Txids(b.txs), b.hash)
  {
    CreatedFacts(b, h);
    forall op | op in created ensures op !in BlockCoins(b, h) {
      assert op.txid in ix.txBlock.Keys;
    }
  }

  lemma SpendKeysStep(c: seq<Block>, b: Block)
    ensures SpendKeys(ChainSpends(c + [b])) == SpendKeys(ChainSpends(c)) + SpendKeys(BlockSpendRecs(b.txs, |b.txs|))
  {
    assert (c + [b])[..|c|] == c;
  }

  lemma TwoStreamsStep(c: seq<Block>, ix: Index, b: Block)
    requires TwoStreams(c, ix) && ValidBlock(ix, b, |c|) && BlockFresh(ix, b, |c|)
    ensures TwoStreams(c + [b], Connect(ix, b, |c|))
  {
    hide Lists, Created, Elems, Distinct, Connect, BlockFresh, SpendKeys, ChainSpends;
    var h := |c|;
    assert (c + [b])[..h] == c;
    SpendKeysStep(c, b);
    BlockSpendKeys(b.txs, |b.txs|);
    ValidTxids(ix, b, h);
    ConsensusIsTwoPass(ix.utxo, b.txs, h, |b.txs|);
    ConnectClosed(ix, b, h);
    NewTxids(ix, b, h, AllCreated(c));
    BlockOutputsList(b.txs, b.hash, h, |b.txs|);
    ListsAppend(ChainOutputs(c), BlockOutputs(b.txs, b.hash, h, |b.txs|), AllCreated(c), BlockCoins(b, h));
    BlockAfter(AllCreated(c), SpendKeys(ChainSpends(c)), ix.utxo, BlockCoins(b, h), BlockSpends(b));
  }

  lemma ValidTxids(ix: Index, b: Block, h: int)
    requires ValidBlock(ix, b, h) && BlockFresh(ix, b, h)
    ensures TxidsDistinct(b.txs) && CoinsFresh(ix.utxo, b.txs) && Txids(b.txs) !! ix.txBlock.Keys && InputsExist(ix.utxo, b.txs, h)
  {
  }

  lemma {:induction false} ChainTwoStreams(c: seq<Block>)
    requires ValidChain(c)
    ensures TwoStreams(c, IndexOf(c))
  {
    hide TwoStreams, ValidBlock, BlockFresh, Connect, Described;
    if c == [] {
      NoStreams(c);
    } else {
      var prefix, b := c[..|c| - 1], c[|c| - 1];
      LastValid(c);
      ChainTwoStreams(prefix);
      ChainDescribed(prefix);
      DescribedFresh(prefix, IndexOf(prefix), b);
      TwoStreamsStep(prefix, IndexOf(prefix), b);
      assert prefix + [b] == c;
    }
  }

  lemma NoStreams(c: seq<Block>)
    requires c == []
    ensures TwoStreams(c, IndexOf(c))
  {
    assert Elems(SpendKeys([])) == {};
  }
}
