/** The index as a value: one block connected, rolled back, or aged out of the window. */
module Index {
  import opened Chain

  // The key-level store of StoreKeys refines this value; this module is the
  // reference the store and the sync loop are proved against.

  datatype BlockRec = BlockRec(height: int, timestamp: nat, prevHash: BlockHash)

  /** One block's undo records: K and M (`spent`), W (`created`), Z (`newScripts`), Y (`txids`). */
  datatype Undo = Undo(spent: map<Outpoint, Coin>, created: map<Outpoint, ScriptHash>,
                       newScripts: set<ScriptHash>, txids: set<Txid>)

  /** `utxo` is O and H, `firstSeen` is S, `txBlock` is T and X, `blocks` is B, `window` is N. */
  datatype Index = Index(utxo: map<Outpoint, Coin>, firstSeen: map<ScriptHash, int>,
                         txBlock: map<Txid, BlockHash>, blocks: map<BlockHash, BlockRec>,
                         undo: map<BlockHash, Undo>, window: set<BlockHash>)

  /** The part of the index a block's two passes change, with that block's own undo records. */
  datatype Work = Work(utxo: map<Outpoint, Coin>, firstSeen: map<ScriptHash, int>,
                       txBlock: map<Txid, BlockHash>, undo: Undo)

  const EMPTY_INDEX := Index(map[], map[], map[], map[], map[], {})

  // ----- one record at a time, as the sync loop stages a block

  function Begin(ix: Index): Work {
    Work(ix.utxo, ix.firstSeen, ix.txBlock, Undo(map[], map[], {}, {}))
  }

  function AddTx(w: Work, bh: BlockHash, txid: Txid): Work {
    w.(txBlock := w.txBlock[txid := bh], undo := w.undo.(txids := w.undo.txids + {txid}))
  }

  /** An output's coin and creation record, and its script's first-seen record when it has none. */
  function AddOut(w: Work, h: int, op: Outpoint, coin: Coin): Work {
    var u := w.undo.(created := w.undo.created[op := coin.script]);
    if coin.script in w.firstSeen then
      w.(utxo := w.utxo[op := coin], undo := u)
    else
      w.(utxo := w.utxo[op := coin], firstSeen := w.firstSeen[coin.script := h],
         undo := u.(newScripts := u.newScripts + {coin.script}))
  }

  /** Spending archives the coin under the spending block, unless that block created it. */
  function SpendOut(w: Work, h: int, op: Outpoint): Work {
    if op !in w.utxo then w
    else if w.utxo[op].height < h then
      w.(utxo := w.utxo - {op}, undo := w.undo.(spent := w.undo.spent[op := w.utxo[op]]))
    else
      w.(utxo := w.utxo - {op})
  }

  /** The index while block `b` is being staged: its B record, its work so far, no N record. */
  function Opened(ix: Index, b: Block, h: int, w: Work): Index {
    Index(w.utxo, w.firstSeen, w.txBlock,
          ix.blocks[b.hash := BlockRec(h, b.timestamp, b.prevHash)],
          ix.undo[b.hash := w.undo], ix.window)
  }

  function CloseBlock(ix: Index, bh: BlockHash): Index {
    ix.(window := ix.window + {bh})
  }

  // ----- one block

  function AddOuts(w: Work, h: int, tx: Tx, n: nat): Work
    requires n <= |tx.outs|
  {
    if n == 0 then w
    else AddOut(AddOuts(w, h, tx, n - 1), h, Outpoint(tx.txid, n - 1), CoinOf(tx, n - 1, h))
  }

  /** Pass 1: every transaction's records and outputs, in block order. */
  function AddTxs(w: Work, bh: BlockHash, h: int, txs: seq<Tx>, n: nat): Work
    requires n <= |txs|
  {
    if n == 0 then w
    else
      AddOuts(AddTx(AddTxs(w, bh, h, txs, n - 1), bh, txs[n - 1].txid), h, txs[n - 1], |txs[n - 1].outs|)
  }

  /** Pass 2: the collected inputs, in block order. */
  function SpendOuts(w: Work, h: int, ops: seq<Outpoint>, n: nat): Work
    requires n <= |ops|
  {
    if n == 0 then w else SpendOut(SpendOuts(w, h, ops, n - 1), h, ops[n - 1])
  }

  function TwoPasses(w: Work, b: Block, h: int): Work {
    var ops := SpendsOf(b.txs, |b.txs|);
    SpendOuts(AddTxs(w, b.hash, h, b.txs, |b.txs|), h, ops, |ops|)
  }

  function Connect(ix: Index, b: Block, h: int): Index {
    CloseBlock(Opened(ix, b, h, TwoPasses(Begin(ix), b, h)), b.hash)
  }

  /** Rolling a block back: restore its archive first, then drop what it created. The
      txids to forget are read off the W records, as the store does. */
  function Disconnect(ix: Index, bh: BlockHash): Index
    requires bh in ix.undo
  {
    var u := ix.undo[bh];
    Index((ix.utxo + u.spent) - u.created.Keys,
          ix.firstSeen - u.newScripts,
          ix.txBlock - (set op | op in u.created :: op.txid),
          ix.blocks - {bh}, ix.undo - {bh}, ix.window - {bh})
  }

  /** Ageing out: only the undo records and the window entry go. */
  function Prune(ix: Index, aged: set<BlockHash>): Index {
    ix.(undo := ix.undo - aged, window := ix.window - aged)
  }

  // ----- closed form of the two passes

  function ScriptMap(coins: map<Outpoint, Coin>): map<Outpoint, ScriptHash> {
    map op | op in coins :: coins[op].script
  }

  function NewScripts(coins: map<Outpoint, Coin>, firstSeen: map<ScriptHash, int>): set<ScriptHash> {
    set op | op in coins && coins[op].script !in firstSeen :: coins[op].script
  }

  function AtHeight(scripts: set<ScriptHash>, h: int): map<ScriptHash, int> {
    map s | s in scripts :: h
  }

  function InBlock(txids: set<Txid>, bh: BlockHash): map<Txid, BlockHash> {
    map t | t in txids :: bh
  }

  /** Pass 1 once it has added `coins` and `txids` to `ix`. */
  function Gained(ix: Index, bh: BlockHash, h: int, coins: map<Outpoint, Coin>, txids: set<Txid>): Work {
    var novel := NewScripts(coins, ix.firstSeen);
    Work(ix.utxo + coins, ix.firstSeen + AtHeight(novel, h), ix.txBlock + InBlock(txids, bh),
         Undo(map[], ScriptMap(coins), novel, txids))
  }

  /** The coins pass 2 archives: those older than the block. */
  function Archived(utxo: map<Outpoint, Coin>, ops: set<Outpoint>, h: int): map<Outpoint, Coin> {
    map op | op in ops && op in utxo && utxo[op].height < h :: utxo[op]
  }

  /** Pass 2 once it has spent `ops` from `w`. */
  function Lost(w: Work, h: int, ops: set<Outpoint>): Work {
    w.(utxo := w.utxo - ops, undo := w.undo.(spent := w.undo.spent + Archived(w.utxo, ops, h)))
  }

  lemma NewScriptsAdd(coins: map<Outpoint, Coin>, firstSeen: map<ScriptHash, int>, op: Outpoint, coin: Coin)
    requires op !in coins
    ensures NewScripts(coins[op := coin], firstSeen)
         == NewScripts(coins, firstSeen) + (if coin.script in firstSeen then {} else {coin.script})
  {
    var coins' := coins[op := coin];
    forall s | s in NewScripts(coins, firstSeen) ensures s in NewScripts(coins', firstSeen) {
      var o :| o in coins && coins[o].script !in firstSeen && coins[o].script == s;
      assert o in coins' && coins'[o].script == s;
    }
    if coin.script !in firstSeen {
      assert op in coins' && coins'[op].script == coin.script;
    }
  }

  lemma PlusUpdate<K, V>(m: map<K, V>, n: map<K, V>, k: K, v: V)
    ensures (m + n)[k := v] == m + n[k := v]
  {
  }

  lemma ScriptMapAdd(coins: map<Outpoint, Coin>, op: Outpoint, coin: Coin)
    ensures ScriptMap(coins[op := coin]) == ScriptMap(coins)[op := coin.script]
  {
  }

  lemma FirstSeenAdd(firstSeen: map<ScriptHash, int>, novel: set<ScriptHash>, s: ScriptHash, h: int)
    ensures s in firstSeen + AtHeight(novel, h) <==> s in firstSeen || s in novel
    ensures firstSeen + AtHeight(novel + {s}, h) == (firstSeen + AtHeight(novel, h))[s := h]
  {
  }

  lemma GainedOut(ix: Index, bh: BlockHash, h: int, coins: map<Outpoint, Coin>, txids: set<Txid>, op: Outpoint, coin: Coin)
    requires op !in coins
    ensures AddOut(Gained(ix, bh, h, coins, txids), h, op, coin) == Gained(ix, bh, h, coins[op := coin], txids)
  {
    var novel := NewScripts(coins, ix.firstSeen);
    NewScriptsAdd(coins, ix.firstSeen, op, coin);
    PlusUpdate(ix.utxo, coins, op, coin);
    ScriptMapAdd(coins, op, coin);
    FirstSeenAdd(ix.firstSeen, novel, coin.script, h);
    assert coin.script in novel ==> novel + {coin.script} == novel;
    assert coin.script in ix.firstSeen ==> novel + {} == novel;
  }

  lemma TxCoinsNone(coins: map<Outpoint, Coin>, tx: Tx, h: int)
    ensures coins + TxCoins(tx, h, 0) == coins
  {
  }

  lemma TxCoinsAdd(coins: map<Outpoint, Coin>, tx: Tx, h: int, n: nat)
    requires n < |tx.outs|
    ensures (coins + TxCoins(tx, h, n))[Outpoint(tx.txid, n) := CoinOf(tx, n, h)] == coins + TxCoins(tx, h, n + 1)
  {
    assert TxCoins(tx, h, n + 1) == TxCoins(tx, h, n)[Outpoint(tx.txid, n) := CoinOf(tx, n, h)];
  }

  lemma GainedOutStep(g: Work, ix: Index, bh: BlockHash, h: int, coins: map<Outpoint, Coin>, txids: set<Txid>,
                      tx: Tx, n: nat)
    requires n < |tx.outs|
    requires forall op :: op in coins ==> op.txid != tx.txid
    requires g == Gained(ix, bh, h, coins + TxCoins(tx, h, n), txids)
    ensures AddOut(g, h, Outpoint(tx.txid, n), CoinOf(tx, n, h))
         == Gained(ix, bh, h, coins + TxCoins(tx, h, n + 1), txids)
  {
    GainedOut(ix, bh, h, coins + TxCoins(tx, h, n), txids, Outpoint(tx.txid, n), CoinOf(tx, n, h));
    TxCoinsAdd(coins, tx, h, n);
  }

  lemma {:induction false} GainedOuts(w: Work, ix: Index, bh: BlockHash, h: int, coins: map<Outpoint, Coin>,
                                      txids: set<Txid>, tx: Tx, n: nat)
    requires n <= |tx.outs|
    requires forall op :: op in coins ==> op.txid != tx.txid
    requires w == Gained(ix, bh, h, coins, txids)
    ensures AddOuts(w, h, tx, n) == Gained(ix, bh, h, coins + TxCoins(tx, h, n), txids)
  {
    hide Gained, AddOut, TxCoins, CoinOf;
    if n == 0 {
      TxCoinsNone(coins, tx, h);
    } else {
      GainedOuts(w, ix, bh, h, coins, txids, tx, n - 1);
      GainedOutStep(AddOuts(w, h, tx, n - 1), ix, bh, h, coins, txids, tx, n - 1);
    }
  }

  lemma GainedTx(ix: Index, bh: BlockHash, h: int, coins: map<Outpoint, Coin>, txids: set<Txid>, txid: Txid)
    ensures AddTx(Gained(ix, bh, h, coins, txids), bh, txid) == Gained(ix, bh, h, coins, txids + {txid})
  {
    assert ix.txBlock + InBlock(txids + {txid}, bh) == (ix.txBlock + InBlock(txids, bh))[txid := bh];
  }

  function FirstTxids(txs: seq<Tx>, n: nat): set<Txid>
    requires n <= |txs|
  {
    set i | 0 <= i < n :: txs[i].txid
  }

  lemma AddTxsStep(g: Work, ix: Index, bh: BlockHash, h: int, txs: seq<Tx>, n: nat)
    requires 0 < n <= |txs| && TxidsDistinct(txs)
    requires g == Gained(ix, bh, h, Created(txs, h, n - 1), FirstTxids(txs, n - 1))
    ensures AddOuts(AddTx(g, bh, txs[n - 1].txid), h, txs[n - 1], |txs[n - 1].outs|)
         == Gained(ix, bh, h, Created(txs, h, n), FirstTxids(txs, n))
  {
    var tx, coins := txs[n - 1], Created(txs, h, n - 1);
    GainedTx(ix, bh, h, coins, FirstTxids(txs, n - 1), tx.txid);
    assert FirstTxids(txs, n - 1) + {tx.txid} == FirstTxids(txs, n);
    forall op | op in coins ensures op.txid != tx.txid { CreatedTxid(txs, h, n - 1, op); }
    GainedOuts(AddTx(g, bh, tx.txid), ix, bh, h, coins, FirstTxids(txs, n), tx, |tx.outs|);
  }

  /** Pass 1 in closed form. */
  lemma {:induction false} AddTxsClosed(ix: Index, bh: BlockHash, h: int, txs: seq<Tx>, n: nat)
    requires n <= |txs| && TxidsDistinct(txs)
    ensures AddTxs(Begin(ix), bh, h, txs, n) == Gained(ix, bh, h, Created(txs, h, n), FirstTxids(txs, n))
  {
    if n == 0 {
    } else {
      AddTxsClosed(ix, bh, h, txs, n - 1);
      AddTxsStep(AddTxs(Begin(ix), bh, h, txs, n - 1), ix, bh, h, txs, n);
    }
  }

  lemma ArchivedAdd(utxo: map<Outpoint, Coin>, spent: map<Outpoint, Coin>, h: int, ops: set<Outpoint>, op: Outpoint)
    requires op in utxo && op !in ops && utxo[op].height < h
    ensures (spent + Archived(utxo, ops, h))[op := utxo[op]] == spent + Archived(utxo, ops + {op}, h)
  {
    assert Archived(utxo, ops, h)[op := utxo[op]] == Archived(utxo, ops + {op}, h);
  }

  lemma ArchivedSame(utxo: map<Outpoint, Coin>, h: int, ops: set<Outpoint>, op: Outpoint)
    requires op !in utxo || op in ops || utxo[op].height >= h
    ensures Archived(utxo, ops, h) == Archived(utxo, ops + {op}, h)
  {
  }

  lemma LostOut(w: Work, h: int, ops: set<Outpoint>, op: Outpoint)
    ensures SpendOut(Lost(w, h, ops), h, op) == Lost(w, h, ops + {op})
  {
    assert w.utxo - (ops + {op}) == (w.utxo - ops) - {op};
    if op in w.utxo && op !in ops && w.utxo[op].height < h {
      ArchivedAdd(w.utxo, w.undo.spent, h, ops, op);
    } else {
      ArchivedSame(w.utxo, h, ops, op);
    }
  }

  /** Pass 2 in closed form. */
  lemma {:induction false} SpendOutsClosed(w: Work, h: int, ops: seq<Outpoint>, n: nat)
    requires n <= |ops|
    ensures SpendOuts(w, h, ops, n) == Lost(w, h, Elems(ops[..n]))
  {
    if n == 0 {
      assert Elems(ops[..0]) == {};
      assert w.utxo - {} == w.utxo;
      assert w.undo.spent + Archived(w.utxo, {}, h) == w.undo.spent;
    } else {
      SpendOutsClosed(w, h, ops, n - 1);
      assert ops[..n] == ops[..n - 1] + [ops[n - 1]];
      assert Elems(ops[..n]) == Elems(ops[..n - 1]) + {ops[n - 1]};
      LostOut(w, h, Elems(ops[..n - 1]), ops[n - 1]);
    }
  }

  function BlockCoins(b: Block, h: int): map<Outpoint, Coin> {
    Created(b.txs, h, |b.txs|)
  }

  function BlockSpends(b: Block): seq<Outpoint> {
    SpendsOf(b.txs, |b.txs|)
  }

  /** What staging a block does, in one step: the result of both passes. */
  lemma TwoPassesClosed(ix: Index, b: Block, h: int)
    requires TxidsDistinct(b.txs)
    ensures TwoPasses(Begin(ix), b, h)
         == Lost(Gained(ix, b.hash, h, BlockCoins(b, h), Txids(b.txs)), h, Elems(BlockSpends(b)))
  {
    AddTxsClosed(ix, b.hash, h, b.txs, |b.txs|);
    assert FirstTxids(b.txs, |b.txs|) == Txids(b.txs);
    var ops := BlockSpends(b);
    SpendOutsClosed(AddTxs(Begin(ix), b.hash, h, b.txs, |b.txs|), h, ops, |ops|);
    assert ops[..|ops|] == ops;
  }

  /** The undo records a block leaves. */
  function BlockUndo(ix: Index, b: Block, h: int): Undo {
    Undo(Archived(ix.utxo + BlockCoins(b, h), Elems(BlockSpends(b)), h), ScriptMap(BlockCoins(b, h)),
         NewScripts(BlockCoins(b, h), ix.firstSeen), Txids(b.txs))
  }

  /** What connecting a block does to each part of the index. */
  lemma ConnectClosed(ix: Index, b: Block, h: int)
    requires TxidsDistinct(b.txs)
    ensures Connect(ix, b, h)
         == Index((ix.utxo + BlockCoins(b, h)) - Elems(BlockSpends(b)),
                  ix.firstSeen + AtHeight(NewScripts(BlockCoins(b, h), ix.firstSeen), h),
                  ix.txBlock + InBlock(Txids(b.txs), b.hash),
                  ix.blocks[b.hash := BlockRec(h, b.timestamp, b.prevHash)],
                  ix.undo[b.hash := BlockUndo(ix, b, h)], ix.window + {b.hash})
  {
    TwoPassesClosed(ix, b, h);
    var a := Archived(ix.utxo + BlockCoins(b, h), Elems(BlockSpends(b)), h);
    assert map[] + a == a;
    hide TwoPasses, Archived, NewScripts, ScriptMap, BlockCoins, BlockSpends;
  }

  // ----- rolling back

  /** A block new to the index: nothing of it, its transactions or its outputs is there yet. */
  predicate BlockFresh(ix: Index, b: Block, h: int) {
    && TxidsDistinct(b.txs)
    && CoinsFresh(ix.utxo, b.txs)
    && Txids(b.txs) !! ix.txBlock.Keys
    && b.hash !in ix.blocks && b.hash !in ix.undo && b.hash !in ix.window
    && forall op :: op in ix.utxo ==> ix.utxo[op].height < h
  }

  lemma CreatedFacts(b: Block, h: int)
    ensures forall op :: op in BlockCoins(b, h) ==> op.txid in Txids(b.txs) && BlockCoins(b, h)[op].height == h
  {
    forall op | op in BlockCoins(b, h)
      ensures op.txid in Txids(b.txs) && BlockCoins(b, h)[op].height == h
    {
      CreatedTxid(b.txs, h, |b.txs|, op);
    }
  }

  lemma CreatedHas(txs: seq<Tx>, h: int, n: nat, i: nat, vout: nat)
    requires i < n <= |txs| && vout < |txs[i].outs|
    ensures Outpoint(txs[i].txid, vout) in Created(txs, h, n)
  {
  }

  lemma MapBack<K, V>(m: map<K, V>, n: map<K, V>, k: set<K>)
    requires m.Keys !! n.Keys && m.Keys !! k
    ensures (m + n) - k == m <==> n.Keys <= k
  {
    if n.Keys <= k {
      assert (m + n) - k == m;
    }
    if (m + n) - k == m {
      forall x | x in n ensures x in k { assert x !in (m + n) - k; }
    }
  }

  function CreatedTxids(b: Block, h: int): set<Txid> {
    set op | op in ScriptMap(BlockCoins(b, h)) :: op.txid
  }

  lemma OutputsCover(b: Block, h: int)
    requires EveryTxHasOutputs(b.txs)
    ensures Txids(b.txs) <= CreatedTxids(b, h)
  {
    forall t | t in Txids(b.txs) ensures t in CreatedTxids(b, h) {
      var i :| 0 <= i < |b.txs| && b.txs[i].txid == t;
      CreatedHas(b.txs, h, |b.txs|, i, 0);
      hide Created;
      assert Outpoint(t, 0) in ScriptMap(BlockCoins(b, h));
    }
  }

  lemma {:induction false} CreatedTxidsCover(b: Block, h: int)
    ensures CreatedTxids(b, h) <= Txids(b.txs)
    ensures Txids(b.txs) <= CreatedTxids(b, h) <== EveryTxHasOutputs(b.txs)
    ensures Txids(b.txs) <= CreatedTxids(b, h) ==> TxidsDistinct(b.txs) ==> EveryTxHasOutputs(b.txs)
  {
    CreatedFacts(b, h);
    if EveryTxHasOutputs(b.txs) {
      OutputsCover(b, h);
    }
    if Txids(b.txs) <= CreatedTxids(b, h) && TxidsDistinct(b.txs) {
      CoverHasOutputs(b, h);
    }
  }

  lemma CoverHasOutputs(b: Block, h: int)
    requires Txids(b.txs) <= CreatedTxids(b, h) && TxidsDistinct(b.txs)
    ensures EveryTxHasOutputs(b.txs)
  {
    forall i | 0 <= i < |b.txs| ensures b.txs[i].outs != [] {
      assert b.txs[i].txid in Txids(b.txs);
      var op :| op in ScriptMap(BlockCoins(b, h)) && op.txid == b.txs[i].txid;
      CreatedTxid(b.txs, h, |b.txs|, op);
    }
  }

  lemma UndoneCoins(ix: Index, b: Block, h: int)
    requires BlockFresh(ix, b, h)
    ensures (((ix.utxo + BlockCoins(b, h)) - Elems(BlockSpends(b))) + BlockUndo(ix, b, h).spent)
            - BlockUndo(ix, b, h).created.Keys == ix.utxo
  {
    CreatedFacts(b, h);
    assert ScriptMap(BlockCoins(b, h)).Keys == BlockCoins(b, h).Keys;
  }

  lemma UndoneMaps<K, V>(m: map<K, V>, s: set<K>, k: K, v: V)
    requires k !in m && k !in s
    ensures m[k := v] - {k} == m && (s + {k}) - {k} == s
  {
  }

  lemma UndoneScripts(firstSeen: map<ScriptHash, int>, coins: map<Outpoint, Coin>, h: int)
    ensures (firstSeen + AtHeight(NewScripts(coins, firstSeen), h)) - NewScripts(coins, firstSeen) == firstSeen
  {
    MapBack(firstSeen, AtHeight(NewScripts(coins, firstSeen), h), NewScripts(coins, firstSeen));
  }

  /** All that a rollback restores, whatever the block, but for the txid records. */
  lemma UndoneParts(ix: Index, b: Block, h: int)
    requires BlockFresh(ix, b, h)
    ensures b.hash in Connect(ix, b, h).undo
    ensures Disconnect(Connect(ix, b, h), b.hash)
         == ix.(txBlock := (ix.txBlock + InBlock(Txids(b.txs), b.hash)) - CreatedTxids(b, h))
  {
    ConnectClosed(ix, b, h);
    UndoneCoins(ix, b, h);
    UndoneScripts(ix.firstSeen, BlockCoins(b, h), h);
    UndoneMaps(ix.undo, ix.window, b.hash, BlockUndo(ix, b, h));
    UndoneMaps(ix.blocks, ix.window, b.hash, BlockRec(h, b.timestamp, b.prevHash));
    hide Connect, Archived, ScriptMap, BlockCoins, BlockSpends, NewScripts, AtHeight, InBlock;
  }

  /** Rolling back the block just connected gives back the index as it was, exactly when
      every transaction of the block has an output: the store finds a block's txids
      through its outputs, so the txid record of one without outputs is left behind. */
  lemma DisconnectInverts(ix: Index, b: Block, h: int)
    requires BlockFresh(ix, b, h)
    ensures b.hash in Connect(ix, b, h).undo
    ensures Disconnect(Connect(ix, b, h), b.hash) == ix <==> EveryTxHasOutputs(b.txs)
  {
    UndoneParts(ix, b, h);
    CreatedTxidsCover(b, h);
    MapBack(ix.txBlock, InBlock(Txids(b.txs), b.hash), CreatedTxids(b, h));
  }
}
