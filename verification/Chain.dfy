/** Blocks as the sync loop sees them, and the consensus rules the index relies on.

    A transaction id, block hash and script hash are opaque names: hashing is not
    part of this model. Block heights are positions in the chain. */
module Chain {
  datatype Option<+T> = None | Some(value: T)

  datatype BlockHash = BlockHash(hex: string)
  datatype Txid = Txid(hex: string)
  datatype ScriptHash = ScriptHash(hex: string)

  datatype Outpoint = Outpoint(txid: Txid, vout: nat)

  /** One input; `standard` is the optional `standard_input` flag, true when absent. */
  datatype TxIn = TxIn(prev: Outpoint, standard: bool)
  datatype TxOut = TxOut(script: ScriptHash, value: nat)
  datatype Tx = Tx(txid: Txid, ins: seq<TxIn>, outs: seq<TxOut>)
  datatype Block = Block(hash: BlockHash, prevHash: BlockHash, timestamp: nat, txs: seq<Tx>)

  /** What the O record keeps of an output, and the script its H record names. */
  datatype Coin = Coin(script: ScriptHash, value: nat, height: int, coinbase: bool)

  const COINBASE_INDEX: nat := 0xFFFF_FFFF

  /** A coinbase input, or one flagged non-standard, spends nothing. */
  predicate Spends(inp: TxIn) {
    inp.prev.vout != COINBASE_INDEX && inp.standard
  }

  predicate IsCoinbase(tx: Tx) {
    |tx.ins| == 1 && tx.ins[0].prev.vout == COINBASE_INDEX
  }

  function CoinOf(tx: Tx, vout: nat, height: int): Coin
    requires vout < |tx.outs|
  {
    Coin(tx.outs[vout].script, tx.outs[vout].value, height, IsCoinbase(tx))
  }

  /** The coins of the first `n` outputs of `tx`. */
  function TxCoins(tx: Tx, height: int, n: nat): map<Outpoint, Coin>
    requires n <= |tx.outs|
  {
    map vout: nat | vout < n :: Outpoint(tx.txid, vout) := CoinOf(tx, vout, height)
  }

  /** The coins created by the first `n` transactions. */
  function Created(txs: seq<Tx>, height: int, n: nat): map<Outpoint, Coin>
    requires n <= |txs|
  {
    if n == 0 then map[]
    else Created(txs, height, n - 1) + TxCoins(txs[n - 1], height, |txs[n - 1].outs|)
  }

  /** The outpoints the first `n` inputs spend, in order. */
  function InputSpends(ins: seq<TxIn>, n: nat): seq<Outpoint>
    requires n <= |ins|
  {
    if n == 0 then []
    else InputSpends(ins, n - 1) + (if Spends(ins[n - 1]) then [ins[n - 1].prev] else [])
  }

  function TxSpends(tx: Tx): seq<Outpoint> {
    InputSpends(tx.ins, |tx.ins|)
  }

  /** The input spends the outpoint: it names it, and is neither a coinbase input nor flagged non-standard. */
  predicate Takes(inp: TxIn, op: Outpoint) {
    inp.prev == op && op.vout != 0xFFFF_FFFF && inp.standard
  }

  lemma {:induction false} TakesIn(ins: seq<TxIn>, n: nat, op: Outpoint)
    requires n <= |ins|
    ensures op in InputSpends(ins, n) <==> exists k :: 0 <= k < n && Takes(ins[k], op)
  {
    if n > 0 {
      TakesIn(ins, n - 1, op);
      assert Takes(ins[n - 1], op) <==> Spends(ins[n - 1]) && ins[n - 1].prev == op;
    }
  }

  /** A transaction spends exactly the outpoints its inputs take. */
  lemma TxTakes(tx: Tx, op: Outpoint)
    ensures op in TxSpends(tx) <==> exists k :: 0 <= k < |tx.ins| && Takes(tx.ins[k], op)
  {
    TakesIn(tx.ins, |tx.ins|, op);
  }

  /** The outpoints the first `n` transactions spend, in block order. */
  function SpendsOf(txs: seq<Tx>, n: nat): seq<Outpoint>
    requires n <= |txs|
  {
    if n == 0 then [] else SpendsOf(txs, n - 1) + TxSpends(txs[n - 1])
  }

  /** A block spends exactly the outpoints its inputs take. */
  lemma {:induction false} BlockTakes(txs: seq<Tx>, n: nat)
    requires n <= |txs|
    ensures forall op :: op in SpendsOf(txs, n) <==>
      exists i, k :: 0 <= i < n && 0 <= k < |txs[i].ins| && Takes(txs[i].ins[k], op)
  {
    hide TxSpends, Takes;
    if n > 0 {
      BlockTakes(txs, n - 1);
      var tx := txs[n - 1];
      forall op: Outpoint ensures op in TxSpends(tx) <==> exists k :: 0 <= k < |tx.ins| && Takes(tx.ins[k], op) {
        TxTakes(tx, op);
      }
    }
  }

  function Elems<T>(s: seq<T>): set<T> {
    set x | x in s
  }

  predicate Distinct<T(==)>(s: seq<T>) {
    forall i, j :: 0 <= i < j < |s| ==> s[i] != s[j]
  }

  function Txids(txs: seq<Tx>): set<Txid> {
    set tx | tx in txs :: tx.txid
  }

  // ----- consensus order: one transaction after another

  /** Spending first, then creating: the rule every node applies, one transaction at a time. */
  function ConsensusApply(utxo: map<Outpoint, Coin>, txs: seq<Tx>, height: int, n: nat): map<Outpoint, Coin>
    requires n <= |txs|
  {
    if n == 0 then utxo
    else
      (ConsensusApply(utxo, txs, height, n - 1) - Elems(TxSpends(txs[n - 1])))
      + TxCoins(txs[n - 1], height, |txs[n - 1].outs|)
  }

  /** Each transaction spends distinct coins that exist when its turn comes. */
  predicate InputsExist(utxo: map<Outpoint, Coin>, txs: seq<Tx>, height: int) {
    forall n: nat :: n < |txs| ==>
      && Distinct(TxSpends(txs[n]))
      && Elems(TxSpends(txs[n])) <= ConsensusApply(utxo, txs, height, n).Keys
  }

  predicate TxidsDistinct(txs: seq<Tx>) {
    forall i, j :: 0 <= i < j < |txs| ==> txs[i].txid != txs[j].txid
  }

  predicate EveryTxHasOutputs(txs: seq<Tx>) {
    forall i :: 0 <= i < |txs| ==> txs[i].outs != []
  }

  /** No coin carries the id of one of these transactions. */
  predicate CoinsFresh(utxo: map<Outpoint, Coin>, txs: seq<Tx>) {
    forall op :: op in utxo ==> op.txid !in Txids(txs)
  }

  // ----- the block's effect on the coins: consensus order and two passes

  lemma CreatedTxid(txs: seq<Tx>, height: int, n: nat, op: Outpoint)
    requires n <= |txs|
    requires op in Created(txs, height, n)
    ensures exists i :: 0 <= i < n && txs[i].txid == op.txid && op.vout < |txs[i].outs|
    ensures Created(txs, height, n)[op].height == height
  {
    if n > 0 {
      if op in TxCoins(txs[n - 1], height, |txs[n - 1].outs|) {
      } else {
        CreatedTxid(txs, height, n - 1, op);
      }
    }
  }

  lemma DistinctAppend<T>(a: seq<T>, b: seq<T>)
    requires Distinct(a) && Distinct(b) && Elems(a) !! Elems(b)
    ensures Distinct(a + b)
  {
    forall i, j | 0 <= i < j < |a + b| ensures (a + b)[i] != (a + b)[j] {
      if i < |a| <= j {
        assert a[i] in Elems(a) && b[j - |a|] in Elems(b);
      }
    }
  }

  lemma ElemsAppend<T>(a: seq<T>, b: seq<T>)
    ensures Elems(a + b) == Elems(a) + Elems(b)
  {
  }

  /** Appending one transaction's spends and coins to the two-pass form. */
  lemma AppendStep(before: map<Outpoint, Coin>, u: map<Outpoint, Coin>, c: map<Outpoint, Coin>,
                   d: map<Outpoint, Coin>, s: seq<Outpoint>, m: seq<Outpoint>)
    requires before == (u + c) - Elems(s)
    requires Elems(s) <= u.Keys + c.Keys && Elems(m) <= before.Keys
    requires d.Keys !! u.Keys && d.Keys !! c.Keys
    requires Distinct(s) && Distinct(m)
    ensures (before - Elems(m)) + d == (u + (c + d)) - Elems(s + m)
    ensures Elems(s + m) <= u.Keys + (c + d).Keys
    ensures Distinct(s + m)
  {
    ElemsAppend(s, m);
    DistinctAppend(s, m);
  }

  lemma NewCoinsAreNew(utxo: map<Outpoint, Coin>, txs: seq<Tx>, height: int, n: nat)
    requires 0 < n <= |txs|
    requires TxidsDistinct(txs) && CoinsFresh(utxo, txs)
    ensures TxCoins(txs[n - 1], height, |txs[n - 1].outs|).Keys !! utxo.Keys
    ensures TxCoins(txs[n - 1], height, |txs[n - 1].outs|).Keys !! Created(txs, height, n - 1).Keys
  {
    forall op | op in TxCoins(txs[n - 1], height, |txs[n - 1].outs|)
      ensures op !in utxo && op !in Created(txs, height, n - 1)
    {
      assert op.txid == txs[n - 1].txid && op.txid in Txids(txs);
      if op in Created(txs, height, n - 1) {
        CreatedTxid(txs, height, n - 1, op);
      }
    }
  }

  /** The two-pass form of the first `n` transactions, and that what they spend is there, once. */
  ghost predicate TwoPassForm(utxo: map<Outpoint, Coin>, txs: seq<Tx>, height: int, n: nat)
    requires n <= |txs|
  {
    && ConsensusApply(utxo, txs, height, n) == (utxo + Created(txs, height, n)) - Elems(SpendsOf(txs, n))
    && Elems(SpendsOf(txs, n)) <= utxo.Keys + Created(txs, height, n).Keys
    && Distinct(SpendsOf(txs, n))
  }

  lemma TwoPassStep(utxo: map<Outpoint, Coin>, txs: seq<Tx>, height: int, n: nat)
    requires 0 < n <= |txs|
    requires TxidsDistinct(txs) && CoinsFresh(utxo, txs) && InputsExist(utxo, txs, height)
    requires TwoPassForm(utxo, txs, height, n - 1)
    ensures TwoPassForm(utxo, txs, height, n)
  {
    NewCoinsAreNew(utxo, txs, height, n);
    AppendStep(ConsensusApply(utxo, txs, height, n - 1), utxo, Created(txs, height, n - 1),
      TxCoins(txs[n - 1], height, |txs[n - 1].outs|), SpendsOf(txs, n - 1), TxSpends(txs[n - 1]));
  }

  /** Consensus order and the two-pass form agree, and what is spent exists and is spent once. */
  lemma {:induction false} ConsensusIsTwoPass(utxo: map<Outpoint, Coin>, txs: seq<Tx>, height: int, n: nat)
    requires n <= |txs|
    requires TxidsDistinct(txs) && CoinsFresh(utxo, txs) && InputsExist(utxo, txs, height)
    ensures ConsensusApply(utxo, txs, height, n)
         == (utxo + Created(txs, height, n)) - Elems(SpendsOf(txs, n))
    ensures Elems(SpendsOf(txs, n)) <= utxo.Keys + Created(txs, height, n).Keys
    ensures Distinct(SpendsOf(txs, n))
  {
    if n > 0 {
      ConsensusIsTwoPass(utxo, txs, height, n - 1);
      TwoPassStep(utxo, txs, height, n);
    }
  }
}
