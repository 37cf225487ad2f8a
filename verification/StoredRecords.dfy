/** What the stored records say about the chain's own blocks and transactions. */
module StoredRecords {
  import opened Chain
  import opened Index
  import opened Ledger
  import opened StoreKeys
  import opened SyncSpec
  import opened SpentOnce
  import opened TrackerState

  // ----- outputs

  /** Over any run the store has a record for exactly the outputs of the stored chain that no input of it takes,
      under the script they pay, and the record tells value, height, txid and coinbase flag as the transaction
      and the block made them. */
  lemma StoredOutputs(db: Db, s: State, undo: nat, op: Outpoint)
    requires Wf(s, undo) && Durable(db, s)
    ensures (exists script :: O(script, op) in db) <==> Output(s.chain, op) && !Taken(s.chain, op)
    ensures forall script :: O(script, op) in db ==>
      var v := db[O(script, op)];
      v.VOut? && v.txid == op.txid && MadeIn(s.chain, op, Coin(script, v.value, v.height, v.coinbase))
  {
    hide Wf, Durable, ValidChain, Replay, Output, Taken, MadeIn;
    DurableCoins(db, s, undo);
    DurableChain(s, undo, db);
    UnspentOutputs(s.chain, op);
    if op in Replay(s.chain) {
      var coin := Replay(s.chain)[op];
      assert O(coin.script, op) in db;
      assert coin == Coin(coin.script, coin.value, coin.height, coin.coinbase);
    }
  }

  // ----- one block's part of the index

  lemma ConnectedParts(c: seq<Block>)
    requires ValidChain(c) && c != []
    ensures var n := |c| - 1; var ix, b := IndexOf(c[..n]), c[n];
      && ValidChain(c[..n]) && TxidsDistinct(b.txs) && b.hash !in ix.undo && Txids(b.txs) !! ix.txBlock.Keys
      && IndexOf(c).txBlock == ix.txBlock + InBlock(Txids(b.txs), b.hash)
      && IndexOf(c).firstSeen == ix.firstSeen + AtHeight(NewScripts(BlockCoins(b, n), ix.firstSeen), n)
      && IndexOf(c).undo == ix.undo[b.hash := BlockUndo(ix, b, n)]
  {
    hide *;
    var n := |c| - 1;
    LastValid(c);
    ChainDescribed(c[..n]);
    DescribedFresh(c[..n], IndexOf(c[..n]), c[n]);
    FreshParts(IndexOf(c[..n]), c[n], n);
    IndexStep(c[..n], c[n]);
    assert c == c[..n] + [c[n]];
    ConnectClosed(IndexOf(c[..n]), c[n], n);
  }

  lemma FreshParts(ix: Index, b: Block, h: int)
    requires BlockFresh(ix, b, h)
    ensures TxidsDistinct(b.txs) && Txids(b.txs) !! ix.txBlock.Keys && b.hash !in ix.undo
    ensures CoinsFresh(ix.utxo, b.txs) && forall op :: op in ix.utxo ==> ix.utxo[op].height < h
  {
  }

  // ----- transactions

  predicate HasTx(b: Block, txid: Txid) {
    exists j :: 0 <= j < |b.txs| && b.txs[j].txid == txid
  }

  lemma HasTxIn(b: Block, txid: Txid)
    ensures HasTx(b, txid) <==> txid in Txids(b.txs)
  {
    if txid in Txids(b.txs) {
      var tx :| tx in b.txs && tx.txid == txid;
      var j :| 0 <= j < |b.txs| && b.txs[j] == tx;
    }
  }

  /** A transaction has a record exactly when a block of the chain has it, and the record names that block. */
  lemma {:induction false} TxBlockIs(c: seq<Block>, txid: Txid)
    requires ValidChain(c)
    ensures txid in IndexOf(c).txBlock <==> exists i :: 0 <= i < |c| && HasTx(c[i], txid)
    ensures forall i :: 0 <= i < |c| && HasTx(c[i], txid) ==> IndexOf(c).txBlock[txid] == c[i].hash
  {
    hide *;
    if c == [] {
      NoTxBlock();
    } else {
      var n := |c| - 1;
      ConnectedParts(c);
      TxBlockIs(c[..n], txid);
      HasTxIn(c[n], txid);
      InBlockIs(IndexOf(c[..n]).txBlock, Txids(c[n].txs), c[n].hash, txid);
    }
  }

  lemma NoTxBlock()
    ensures IndexOf([]).txBlock == map[]
  {
  }

  lemma InBlockIs(txBlock: map<Txid, BlockHash>, txids: set<Txid>, bh: BlockHash, txid: Txid)
    ensures var m := txBlock + InBlock(txids, bh);
      && (txid in m <==> txid in txBlock || txid in txids)
      && (txid in txids ==> m[txid] == bh)
      && (txid in txBlock && txid !in txids ==> m[txid] == txBlock[txid])
    ensures txBlock.Keys !! txids ==> !(txid in txBlock && txid in txids)
  {
  }

  // ----- first-seen heights

  predicate BlockPays(b: Block, script: ScriptHash) {
    exists j, v :: 0 <= j < |b.txs| && 0 <= v < |b.txs[j].outs| && b.txs[j].outs[v].script == script
  }

  lemma BlockPaysIn(b: Block, h: int, script: ScriptHash)
    requires TxidsDistinct(b.txs)
    ensures BlockPays(b, script) <==> exists op :: op in BlockCoins(b, h) && BlockCoins(b, h)[op].script == script
  {
    if BlockPays(b, script) {
      var j, v: int :| 0 <= j < |b.txs| && 0 <= v < |b.txs[j].outs| && b.txs[j].outs[v].script == script;
      var op := Outpoint(b.txs[j].txid, v);
      CreatedIs(b.txs, h, |b.txs|, op);
      assert op in BlockCoins(b, h);
    }
    if op: Outpoint :| op in BlockCoins(b, h) && BlockCoins(b, h)[op].script == script {
      CreatedIs(b.txs, h, |b.txs|, op);
    }
  }

  /** A script has a first-seen record exactly when some block pays it, and the record is the height of the
      first one that does. */
  lemma {:induction false} FirstSeenIs(c: seq<Block>, script: ScriptHash)
    requires ValidChain(c)
    ensures script in IndexOf(c).firstSeen <==> exists i :: 0 <= i < |c| && BlockPays(c[i], script)
    ensures script in IndexOf(c).firstSeen ==>
      var h := IndexOf(c).firstSeen[script];
      0 <= h < |c| && BlockPays(c[h], script) && forall i :: 0 <= i < h ==> !BlockPays(c[i], script)
  {
    hide *;
    if c == [] {
      NoFirstSeen();
    } else {
      var n := |c| - 1;
      ConnectedParts(c);
      FirstSeenIs(c[..n], script);
      BlockPaysIn(c[n], n, script);
      NewScriptAt(IndexOf(c[..n]).firstSeen, BlockCoins(c[n], n), n, script);
    }
  }

  lemma NoFirstSeen()
    ensures IndexOf([]).firstSeen == map[]
  {
  }

  lemma NewScriptAt(firstSeen: map<ScriptHash, int>, coins: map<Outpoint, Coin>, h: int, script: ScriptHash)
    ensures var m := firstSeen + AtHeight(NewScripts(coins, firstSeen), h);
      && (script in m <==> script in firstSeen || exists op :: op in coins && coins[op].script == script)
      && (script in m ==> m[script] == if script in firstSeen then firstSeen[script] else h)
  {
  }

  // ----- undo records

  /** A block's undo records are those it was staged with, on the index of the blocks before it. */
  lemma {:induction false} UndoIs(c: seq<Block>, i: nat)
    requires ValidChain(c) && i < |c|
    ensures c[i].hash in IndexOf(c).undo && IndexOf(c).undo[c[i].hash] == BlockUndo(IndexOf(c[..i]), c[i], i)
  {
    hide *;
    var n := |c| - 1;
    ConnectedParts(c);
    if i < n {
      UndoIs(c[..n], i);
      assert c[..n][..i] == c[..i];
    }
  }

  /** A block archives exactly the older coins its inputs take. */
  lemma ArchivedIs(c: seq<Block>, i: nat, op: Outpoint)
    requires ValidChain(c) && i < |c|
    ensures var spent := BlockUndo(IndexOf(c[..i]), c[i], i).spent;
      && (op in spent <==> op in Replay(c[..i]) && Taken([c[i]], op))
      && (op in spent ==> spent[op] == Replay(c[..i])[op])
  {
    hide ValidChain, IndexOf, Replay, Taken, Described, ValidBlock, BlockFresh, TxSpends, BlockCoins;
    PrefixValid(c, i + 1);
    assert c[..i + 1][..i] == c[..i];
    LastValid(c[..i + 1]);
    ChainDescribed(c[..i]);
    DescribedFresh(c[..i], IndexOf(c[..i]), c[i]);
    FreshParts(IndexOf(c[..i]), c[i], i);
    IndexCoinsAreReplay(c[..i]);
    CreatedFacts(c[i], i);
    TakenIffSpent([c[i]], op);
    BlockSpent(c[i], op);
    assert op in BlockCoins(c[i], i) ==> op !in IndexOf(c[..i]).utxo;
  }

  lemma BlockSpent(b: Block, op: Outpoint)
    ensures op in Elems(BlockSpends(b)) <==> SpentIn([b], op)
  {
    hide TxSpends;
    if op in BlockSpends(b) {
      var j := SpendsFrom(b.txs, |b.txs|, op);
      assert op in TxSpends([b][0].txs[j]);
    }
    if SpentIn([b], op) {
      var j :| 0 <= j < |b.txs| && op in TxSpends([b][0].txs[j]);
      TxSpendListed(b.txs, |b.txs|, j, op);
    }
  }

  /** Over any run: for every block of the stored chain that is still in the undo window, and for no other, the
      store has an archive record for exactly the older outputs the block's inputs take, and the record tells
      the coin as it was before the block. */
  lemma StoredArchive(db: Db, s: State, undo: nat, i: nat, script: ScriptHash, op: Outpoint)
    requires Wf(s, undo) && Durable(db, s) && i < |s.chain|
    ensures var before := Replay(s.chain[..i]);
      && (K(s.chain[i].hash, script, op) in db <==>
            s.from <= i && op in before && before[op].script == script && Taken([s.chain[i]], op))
      && (K(s.chain[i].hash, script, op) in db ==> Tells(db[K(s.chain[i].hash, script, op)], op, before[op]))
      && (M(s.chain[i].hash, op) in db <==> s.from <= i && op in before && Taken([s.chain[i]], op))
      && (M(s.chain[i].hash, op) in db ==> db[M(s.chain[i].hash, op)] == VScript(before[op].script))
  {
    hide Wf, ValidChain, IndexOf, Replay, Taken, TipMatches, BlockUndo, Windowed;
    DurableChain(s, undo, db);
    WindowComplete(s, undo, i);
    UndoIs(s.chain, i);
    ArchivedIs(s.chain, i, op);
    var ix, bh := Windowed(s.chain, s.from), s.chain[i].hash;
    assert Get(db, K(bh, script, op)) == At(ix, K(bh, script, op));
    assert Get(db, M(bh, op)) == At(ix, M(bh, op));
  }

  /** Over any run the transaction records name the block of the stored chain that has the transaction. */
  lemma StoredTransactions(db: Db, s: State, undo: nat, txid: Txid)
    requires Wf(s, undo) && Durable(db, s)
    ensures T(txid) in db <==> exists i :: 0 <= i < |s.chain| && HasTx(s.chain[i], txid)
    ensures X(txid) in db <==> T(txid) in db
    ensures forall i :: 0 <= i < |s.chain| && HasTx(s.chain[i], txid) ==>
      db[T(txid)] == VTx(s.chain[i].hash, txid) && db[X(txid)] == VHash(s.chain[i].hash)
  {
    hide Wf, ValidChain, IndexOf, TipMatches, HasTx;
    DurableChain(s, undo, db);
    TxBlockIs(s.chain, txid);
    var ix := Windowed(s.chain, s.from);
    assert Get(db, T(txid)) == At(ix, T(txid));
    assert Get(db, X(txid)) == At(ix, X(txid));
  }

  /** Over any run a script's record is the height of the first block of the stored chain that pays it. */
  lemma StoredFirstSeen(db: Db, s: State, undo: nat, script: ScriptHash)
    requires Wf(s, undo) && Durable(db, s)
    ensures S(script) in db <==> exists i :: 0 <= i < |s.chain| && BlockPays(s.chain[i], script)
    ensures S(script) in db ==>
      && db[S(script)].VHeight? && 0 <= db[S(script)].height < |s.chain|
      && BlockPays(s.chain[db[S(script)].height], script)
      && forall i :: 0 <= i < db[S(script)].height ==> !BlockPays(s.chain[i], script)
  {
    hide Wf, ValidChain, IndexOf, TipMatches, BlockPays;
    DurableChain(s, undo, db);
    FirstSeenIs(s.chain, script);
    var ix := Windowed(s.chain, s.from);
    assert Get(db, S(script)) == At(ix, S(script));
  }

  /** Over any run the block records are those of the stored chain, each with its height, time and parent. */
  lemma StoredBlockRecords(db: Db, s: State, undo: nat, bh: BlockHash)
    requires Wf(s, undo) && Durable(db, s)
    ensures B(bh) in db <==> exists i :: 0 <= i < |s.chain| && s.chain[i].hash == bh
    ensures forall i :: 0 <= i < |s.chain| && s.chain[i].hash == bh ==>
      && db[B(bh)].VBlock? && db[B(bh)].rec.height == i && db[B(bh)].rec.timestamp == s.chain[i].timestamp
      && db[B(bh)].rec.prevHash == s.chain[i].prevHash
  {
    hide Wf, ValidChain, IndexOf, TipMatches;
    DurableChain(s, undo, db);
    ChainDescribed(s.chain);
    assert Get(db, B(bh)) == At(Windowed(s.chain, s.from), B(bh));
    assert bh in HashSet(s.chain) <==> exists i :: 0 <= i < |s.chain| && s.chain[i].hash == bh;
  }

  predicate OutputPays(b: Block, op: Outpoint, script: ScriptHash) {
    exists j :: 0 <= j < |b.txs| && b.txs[j].txid == op.txid && op.vout < |b.txs[j].outs| && b.txs[j].outs[op.vout].script == script
  }

  /** Over any run a block of the stored chain that is in the undo window has its window entry, a record for each
      of its outputs, under the script it pays, and one for each of its transactions; a block before it has none. */
  lemma StoredWindow(db: Db, s: State, undo: nat, i: nat, op: Outpoint, txid: Txid)
    requires Wf(s, undo) && Durable(db, s) && i < |s.chain|
    ensures var b := s.chain[i];
      && (N(b.hash) in db <==> s.from <= i)
      && (W(b.hash, op) in db <==> s.from <= i && Output([b], op))
      && (W(b.hash, op) in db ==> db[W(b.hash, op)].VScript? && OutputPays(b, op, db[W(b.hash, op)].script))
      && (Y(b.hash, txid) in db <==> s.from <= i && HasTx(b, txid))
  {
    hide Wf, ValidChain, IndexOf, TipMatches, HasTx, Output, BlockCoins, Windowed, Archived, NewScripts;
    DurableChain(s, undo, db);
    WindowComplete(s, undo, i);
    UndoIs(s.chain, i);
    HasTxIn(s.chain[i], txid);
    BlockOutputs(s.chain[i], i, op);
    var ix, bh := Windowed(s.chain, s.from), s.chain[i].hash;
    assert Get(db, N(bh)) == At(ix, N(bh));
    assert Get(db, W(bh, op)) == At(ix, W(bh, op));
    assert Get(db, Y(bh, txid)) == At(ix, Y(bh, txid));
  }

  lemma BlockOutputs(b: Block, h: int, op: Outpoint)
    ensures op in BlockCoins(b, h) <==> Output([b], op)
    ensures op in BlockCoins(b, h) ==> OutputPays(b, op, BlockCoins(b, h)[op].script)
  {
    CreatedIs(b.txs, h, |b.txs|, op);
    if op in BlockCoins(b, h) {
      var j :| 0 <= j < |b.txs| && Made(b.txs[j], h, op, BlockCoins(b, h)[op]);
      assert [b][0].txs[j].txid == op.txid;
    }
  }
}
