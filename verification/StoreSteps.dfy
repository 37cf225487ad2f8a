/** Each record the sync loop writes, as a step from one held index to the next.

    A step takes a store that holds an index with a block's work so far, writes the records of one
    transaction, one output or one spend, and leaves a store that holds the index with that much more
    work done. Every step is worked out for one arbitrary key first and then for all of them: the keys
    it writes take the new record, and no other key's record changes. These are the only places where
    records and index are compared key by key while a block is staged. */
module StoreSteps {
  import opened Chain
  import opened Index
  import opened StoreKeys

  lemma HoldsOpen(m: Db, ix: Index, b: Block, h: int)
    requires Holds(m, ix) && b.hash !in ix.undo
    ensures Holds(m[B(b.hash) := VBlock(BlockRec(h, b.timestamp, b.prevHash))], Opened(ix, b, h, Begin(ix)))
  {
    var ix' := Opened(ix, b, h, Begin(ix));
    var m' := m[B(b.hash) := VBlock(BlockRec(h, b.timestamp, b.prevHash))];
    forall k: Key | !Meta(k) ensures Get(m', k) == At(ix', k) {
      assert Get(m, k) == At(ix, k);
    }
  }

  function PutTx(m: Db, bh: BlockHash, txid: Txid): Db {
    m[T(txid) := VTx(bh, txid)][X(txid) := VHash(bh)][Y(bh, txid) := VTxid(txid)]
  }

  lemma AddTxAt(m: Db, ix: Index, b: Block, h: int, w: Work, txid: Txid, k: Key)
    requires !Meta(k) && Get(m, k) == At(Opened(ix, b, h, w), k)
    ensures Get(PutTx(m, b.hash, txid), k) == At(Opened(ix, b, h, AddTx(w, b.hash, txid)), k)
  {
  }

  lemma HoldsAddTx(m: Db, ix: Index, b: Block, h: int, w: Work, txid: Txid)
    requires Holds(m, Opened(ix, b, h, w))
    ensures Holds(PutTx(m, b.hash, txid), Opened(ix, b, h, AddTx(w, b.hash, txid)))
  {
    forall k: Key | !Meta(k)
      ensures Get(PutTx(m, b.hash, txid), k) == At(Opened(ix, b, h, AddTx(w, b.hash, txid)), k)
    {
      AddTxAt(m, ix, b, h, w, txid, k);
    }
  }

  function PutScript(m: Db, bh: BlockHash, h: int, script: ScriptHash): Db {
    if S(script) in m then m else m[S(script) := VHeight(h)][Z(bh, script) := VEmpty]
  }

  function PutOut(m: Db, bh: BlockHash, h: int, op: Outpoint, coin: Coin): Db {
    var m1 := m[O(coin.script, op) := OutValue(op, coin)][H(op) := VScript(coin.script)];
    PutScript(m1, bh, h, coin.script)[W(bh, op) := VScript(coin.script)]
  }

  lemma AddOutAt(m: Db, ix: Index, b: Block, h: int, w: Work, op: Outpoint, coin: Coin, k: Key)
    requires !Meta(k) && Get(m, k) == At(Opened(ix, b, h, w), k)
    requires S(coin.script) in m <==> coin.script in w.firstSeen
    requires op !in w.utxo
    ensures Get(PutOut(m, b.hash, h, op, coin), k) == At(Opened(ix, b, h, AddOut(w, h, op, coin)), k)
  {
    if coin.script in w.firstSeen {
    } else {
    }
  }

  lemma HoldsAddOut(m: Db, ix: Index, b: Block, h: int, w: Work, op: Outpoint, coin: Coin)
    requires Holds(m, Opened(ix, b, h, w)) && op !in w.utxo
    ensures Holds(PutOut(m, b.hash, h, op, coin), Opened(ix, b, h, AddOut(w, h, op, coin)))
    ensures var m' := PutOut(m, b.hash, h, op, coin);
      O(coin.script, op) in m' && Tells(m'[O(coin.script, op)], op, coin)
  {
    assert Get(m, S(coin.script)) == At(Opened(ix, b, h, w), S(coin.script));
    forall k: Key | !Meta(k)
      ensures Get(PutOut(m, b.hash, h, op, coin), k) == At(Opened(ix, b, h, AddOut(w, h, op, coin)), k)
    {
      AddOutAt(m, ix, b, h, w, op, coin, k);
    }
  }

  /** A spend moves the output and its hint to the spending block's archive, or just drops them. */
  function TakeOut(m: Db, bh: BlockHash, h: int, op: Outpoint, coin: Coin): Db {
    var m1 := if coin.height < h
      then m[M(bh, op) := VScript(coin.script)][K(bh, coin.script, op) := OutValue(op, coin)]
      else m;
    m1 - {O(coin.script, op)} - {H(op)}
  }

  lemma SpendOutAt(m: Db, ix: Index, b: Block, h: int, w: Work, op: Outpoint, k: Key)
    requires !Meta(k) && Get(m, k) == At(Opened(ix, b, h, w), k)
    requires op in w.utxo && op !in w.undo.spent
    ensures Get(TakeOut(m, b.hash, h, op, w.utxo[op]), k) == At(Opened(ix, b, h, SpendOut(w, h, op)), k)
  {
  }

  lemma HoldsSpendOut(m: Db, ix: Index, b: Block, h: int, w: Work, op: Outpoint)
    requires Holds(m, Opened(ix, b, h, w)) && op in w.utxo && op !in w.undo.spent
    ensures Holds(TakeOut(m, b.hash, h, op, w.utxo[op]), Opened(ix, b, h, SpendOut(w, h, op)))
  {
    forall k: Key | !Meta(k)
      ensures Get(TakeOut(m, b.hash, h, op, w.utxo[op]), k) == At(Opened(ix, b, h, SpendOut(w, h, op)), k)
    {
      SpendOutAt(m, ix, b, h, w, op, k);
    }
  }

  lemma HoldsClose(m: Db, ix: Index, bh: BlockHash)
    requires Holds(m, ix)
    ensures Holds(m[N(bh) := VEmpty], CloseBlock(ix, bh))
  {
    var m', ix' := m[N(bh) := VEmpty], CloseBlock(ix, bh);
    forall k: Key | !Meta(k) ensures Get(m', k) == At(ix', k) {
      assert Get(m, k) == At(ix, k);
    }
  }
}
