/** In a valid chain every coin is spent once at most, and then it is gone for good. */
module SpentOnce {
  import opened Chain
  import opened Index
  import opened Ledger
  import opened BulkSync

  function TxidsOf(c: seq<Block>): set<Txid> {
    set i, j | 0 <= i < |c| && 0 <= j < |c[i].txs| :: c[i].txs[j].txid
  }

  /** Some transaction of these blocks spends the outpoint. */
  predicate SpentIn(c: seq<Block>, op: Outpoint) {
    exists i, j :: 0 <= i < |c| && 0 <= j < |c[i].txs| && op in TxSpends(c[i].txs[j])
  }

  /** A txid names one transaction, so every block that carries it carries that transaction. */
  ghost predicate Named(book: Txid -> Tx, c: seq<Block>) {
    forall i, j :: 0 <= i < |c| && 0 <= j < |c[i].txs| ==> book(c[i].txs[j].txid) == c[i].txs[j]
  }

  lemma TxidsJoin(c: seq<Block>, d: seq<Block>)
    ensures TxidsOf(c + d) == TxidsOf(c) + TxidsOf(d)
  {
    forall t | t in TxidsOf(c) + TxidsOf(d) ensures t in TxidsOf(c + d) {
      if t in TxidsOf(c) {
        var i, j :| 0 <= i < |c| && 0 <= j < |c[i].txs| && c[i].txs[j].txid == t;
        assert (c + d)[i].txs[j].txid == t;
      } else {
        var i, j :| 0 <= i < |d| && 0 <= j < |d[i].txs| && d[i].txs[j].txid == t;
        assert (c + d)[|c| + i].txs[j].txid == t;
      }
    }
  }

  lemma SpentJoin(c: seq<Block>, d: seq<Block>, op: Outpoint)
    ensures SpentIn(c + d, op) <==> SpentIn(c, op) || SpentIn(d, op)
  {
    hide TxSpends;
    if SpentIn(c, op) {
      var i, j :| 0 <= i < |c| && 0 <= j < |c[i].txs| && op in TxSpends(c[i].txs[j]);
      assert (c + d)[i].txs[j] == c[i].txs[j];
    }
    if SpentIn(d, op) {
      var i, j :| 0 <= i < |d| && 0 <= j < |d[i].txs| && op in TxSpends(d[i].txs[j]);
      assert (c + d)[|c| + i].txs[j] == d[i].txs[j];
    }
  }

  lemma NamedJoin(book: Txid -> Tx, c: seq<Block>, d: seq<Block>)
    ensures Named(book, c + d) <==> Named(book, c) && Named(book, d)
  {
    if Named(book, c + d) {
      forall i, j | 0 <= i < |c| && 0 <= j < |c[i].txs| ensures book(c[i].txs[j].txid) == c[i].txs[j] {
        assert (c + d)[i] == c[i];
      }
      forall i, j | 0 <= i < |d| && 0 <= j < |d[i].txs| ensures book(d[i].txs[j].txid) == d[i].txs[j] {
        assert (c + d)[|c| + i] == d[i];
      }
    }
  }

  /** A named spender of the outpoint that is in the blocks spends it there. */
  lemma MinedSpends(book: Txid -> Tx, c: seq<Block>, t: Txid, op: Outpoint)
    requires Named(book, c) && t in TxidsOf(c) && op in TxSpends(book(t))
    ensures SpentIn(c, op)
  {
    hide TxSpends;
    var i, j :| 0 <= i < |c| && 0 <= j < |c[i].txs| && c[i].txs[j].txid == t;
    assert op in TxSpends(c[i].txs[j]);
  }

  // ----- the chain's spends as one stream

  lemma {:induction false} TxSpendListed(txs: seq<Tx>, n: nat, j: nat, op: Outpoint)
    requires j < n <= |txs| && op in TxSpends(txs[j])
    ensures op in SpendsOf(txs, n)
  {
    if j < n - 1 {
      TxSpendListed(txs, n - 1, j, op);
    }
  }

  lemma NoSpendsListed()
    ensures SpendKeys(ChainSpends([])) == []
  {
  }

  lemma SpendsJoinStep(c: seq<Block>, d: seq<Block>, b: Block)
    requires SpendKeys(ChainSpends(c + d)) == SpendKeys(ChainSpends(c)) + SpendKeys(ChainSpends(d))
    ensures SpendKeys(ChainSpends(c + d + [b])) == SpendKeys(ChainSpends(c)) + SpendKeys(ChainSpends(d + [b]))
  {
    hide *;
    SpendKeysStep(c + d, b);
    SpendKeysStep(d, b);
  }

  lemma {:induction false} SpendsJoin(c: seq<Block>, d: seq<Block>)
    ensures SpendKeys(ChainSpends(c + d)) == SpendKeys(ChainSpends(c)) + SpendKeys(ChainSpends(d))
  {
    hide *;
    if d == [] {
      assert c + d == c;
      NoSpendsListed();
    } else {
      var init, b := d[..|d| - 1], d[|d| - 1];
      SpendsJoin(c, init);
      SpendsJoinStep(c, init, b);
      assert c + d == c + init + [b] && d == init + [b];
    }
  }

  lemma {:induction false} SpentListed(c: seq<Block>, op: Outpoint)
    requires SpentIn(c, op)
    ensures op in SpendKeys(ChainSpends(c))
  {
    hide TxSpends;
    var n := |c| - 1;
    SpentJoin(c[..n], [c[n]], op);
    assert c == c[..n] + [c[n]];
    SpendKeysStep(c[..n], c[n]);
    if SpentIn(c[..n], op) {
      SpentListed(c[..n], op);
    } else {
      var j :| 0 <= j < |c[n].txs| && op in TxSpends([c[n]][0].txs[j]);
      TxSpendListed(c[n].txs, |c[n].txs|, j, op);
      BlockSpendKeys(c[n].txs, |c[n].txs|);
    }
  }

  lemma {:induction false} CreatedSomewhere(c: seq<Block>, op: Outpoint)
    requires op in AllCreated(c)
    ensures op.txid in TxidsOf(c)
  {
    var n := |c| - 1;
    assert c == c[..n] + [c[n]];
    TxidsJoin(c[..n], [c[n]]);
    if op in BlockCoins(c[n], n) {
      CreatedTxid(c[n].txs, n, |c[n].txs|, op);
      var j :| 0 <= j < |c[n].txs| && c[n].txs[j].txid == op.txid;
      assert [c[n]][0].txs[j].txid in TxidsOf([c[n]]);
    } else {
      CreatedSomewhere(c[..n], op);
    }
  }

  lemma StreamFacts(c: seq<Block>)
    requires ValidChain(c)
    ensures Distinct(SpendKeys(ChainSpends(c)))
    ensures forall op :: op in SpendKeys(ChainSpends(c)) ==> op !in Replay(c) && op in AllCreated(c)
  {
    hide ValidChain, Lists, Replay, ChainSpends, AllCreated;
    ChainTwoStreams(c);
    IndexCoinsAreReplay(c);
    forall op | op in SpendKeys(ChainSpends(c)) ensures op !in Replay(c) && op in AllCreated(c) {
      assert op in Elems(SpendKeys(ChainSpends(c)));
    }
  }

  /** What a valid chain spends it has created, and has no more. */
  lemma SpentGone(c: seq<Block>, op: Outpoint)
    requires ValidChain(c) && SpentIn(c, op)
    ensures op !in Replay(c) && op.txid in TxidsOf(c)
  {
    hide ValidChain, Replay, TxidsOf, SpentIn, ChainSpends, AllCreated;
    StreamFacts(c);
    SpentListed(c, op);
    CreatedSomewhere(c, op);
  }

  lemma DistinctApart(a: seq<Outpoint>, b: seq<Outpoint>, op: Outpoint)
    requires Distinct(a + b) && op in a
    ensures op !in b
  {
    var i :| 0 <= i < |a| && a[i] == op;
    forall j | 0 <= j < |b| ensures b[j] != op {
      assert (a + b)[i] != (a + b)[|a| + j];
    }
  }

  /** Wherever a valid chain is cut, an outpoint is spent on one side of the cut at most. */
  lemma SpentOnOneSide(c: seq<Block>, n: nat, op: Outpoint)
    requires ValidChain(c) && n <= |c| && SpentIn(c[..n], op)
    ensures !SpentIn(c[n..], op)
  {
    hide ValidChain, SpentIn, ChainSpends;
    assert c == c[..n] + c[n..];
    SpendsJoin(c[..n], c[n..]);
    StreamFacts(c);
    SpentListed(c[..n], op);
    DistinctApart(SpendKeys(ChainSpends(c[..n])), SpendKeys(ChainSpends(c[n..])), op);
    if SpentIn(c[n..], op) {
      SpentListed(c[n..], op);
    }
  }

  // ----- what a coin pays

  /** A coin pays what the transaction its txid names says. */
  ghost predicate PaysAsNamed(book: Txid -> Tx, op: Outpoint, script: ScriptHash, value: nat) {
    var outs := book(op.txid).outs;
    op.vout < |outs| && script == outs[op.vout].script && value == outs[op.vout].value
  }

  lemma {:induction false} AppliedNamed(book: Txid -> Tx, utxo: map<Outpoint, Coin>, txs: seq<Tx>, h: int, n: nat, op: Outpoint)
    requires n <= |txs| && op in ConsensusApply(utxo, txs, h, n)
    requires forall j :: 0 <= j < |txs| ==> book(txs[j].txid) == txs[j]
    requires op in utxo ==> PaysAsNamed(book, op, utxo[op].script, utxo[op].value)
    ensures var coin := ConsensusApply(utxo, txs, h, n)[op]; PaysAsNamed(book, op, coin.script, coin.value)
  {
    if n > 0 {
      if op in TxCoins(txs[n - 1], h, |txs[n - 1].outs|) {
        assert book(txs[n - 1].txid) == txs[n - 1];
      } else {
        AppliedNamed(book, utxo, txs, h, n - 1, op);
      }
    }
  }

  /** So does every coin left by replaying a chain. */
  lemma {:induction false} ReplayNamed(book: Txid -> Tx, c: seq<Block>, op: Outpoint)
    requires Named(book, c) && op in Replay(c)
    ensures PaysAsNamed(book, op, Replay(c)[op].script, Replay(c)[op].value)
  {
    hide PaysAsNamed, ConsensusApply;
    var n := |c| - 1;
    if c != [] {
      NamedJoin(book, c[..n], [c[n]]);
      assert c == c[..n] + [c[n]];
      if op in Replay(c[..n]) {
        ReplayNamed(book, c[..n], op);
      }
      assert forall j :: 0 <= j < |c[n].txs| ==> book([c[n]][0].txs[j].txid) == c[n].txs[j];
      AppliedNamed(book, Replay(c[..n]), c[n].txs, n, |c[n].txs|, op);
    }
  }

  // ----- the coins of a chain, transaction by transaction

  predicate Taken(c: seq<Block>, op: Outpoint) {
    exists i, j, k :: 0 <= i < |c| && 0 <= j < |c[i].txs| && 0 <= k < |c[i].txs[j].ins| && Takes(c[i].txs[j].ins[k], op)
  }

  /** The outpoint is an output of this transaction, and the coin is that output's at height `h`. */
  predicate Made(tx: Tx, h: int, op: Outpoint, coin: Coin) {
    && op.txid == tx.txid && op.vout < |tx.outs|
    && coin.script == tx.outs[op.vout].script && coin.value == tx.outs[op.vout].value && coin.height == h
    && (coin.coinbase <==> |tx.ins| == 1 && tx.ins[0].prev.vout == 0xFFFF_FFFF)
  }

  lemma TakenIffSpent(c: seq<Block>, op: Outpoint)
    ensures Taken(c, op) <==> SpentIn(c, op)
  {
    hide TxSpends, Takes;
    if Taken(c, op) {
      var i, j, k :| 0 <= i < |c| && 0 <= j < |c[i].txs| && 0 <= k < |c[i].txs[j].ins| && Takes(c[i].txs[j].ins[k], op);
      TxTakes(c[i].txs[j], op);
    }
    if SpentIn(c, op) {
      var i, j :| 0 <= i < |c| && 0 <= j < |c[i].txs| && op in TxSpends(c[i].txs[j]);
      TxTakes(c[i].txs[j], op);
    }
  }

  lemma {:induction false} CreatedIs(txs: seq<Tx>, h: int, n: nat, op: Outpoint)
    requires n <= |txs|
    ensures op in Created(txs, h, n) ==> exists j :: 0 <= j < n && Made(txs[j], h, op, Created(txs, h, n)[op])
    ensures (exists j :: 0 <= j < n && txs[j].txid == op.txid && op.vout < |txs[j].outs|) ==> op in Created(txs, h, n)
  {
    if n > 0 {
      CreatedIs(txs, h, n - 1, op);
      if op in TxCoins(txs[n - 1], h, |txs[n - 1].outs|) {
        assert Made(txs[n - 1], h, op, Created(txs, h, n)[op]);
      }
    }
  }

  /** Some block's transaction has the outpoint as an output. */
  predicate Output(c: seq<Block>, op: Outpoint) {
    exists i, j :: 0 <= i < |c| && 0 <= j < |c[i].txs| && c[i].txs[j].txid == op.txid && op.vout < |c[i].txs[j].outs|
  }

  ghost predicate MadeIn(c: seq<Block>, op: Outpoint, coin: Coin) {
    exists i, j :: 0 <= i < |c| && 0 <= j < |c[i].txs| && Made(c[i].txs[j], i, op, coin)
  }

  lemma MadeLonger(c: seq<Block>, n: nat, op: Outpoint, coin: Coin)
    requires n <= |c| && MadeIn(c[..n], op, coin)
    ensures MadeIn(c, op, coin)
  {
    hide Made;
    var i, j :| 0 <= i < n && 0 <= j < |c[..n][i].txs| && Made(c[..n][i].txs[j], i, op, coin);
    assert Made(c[i].txs[j], i, op, coin);
  }

  lemma {:induction false} AllCreatedIs(c: seq<Block>, op: Outpoint)
    ensures op in AllCreated(c) ==> MadeIn(c, op, AllCreated(c)[op])
    ensures Output(c, op) ==> op in AllCreated(c)
  {
    hide Made, Created;
    if c != [] {
      var n := |c| - 1;
      AllCreatedIs(c[..n], op);
      CreatedIs(c[n].txs, n, |c[n].txs|, op);
      if op in AllCreated(c[..n]) && op !in BlockCoins(c[n], n) {
        MadeLonger(c, n, op, AllCreated(c)[op]);
      }
      if Output(c, op) {
        var i, j :| 0 <= i < |c| && 0 <= j < |c[i].txs| && c[i].txs[j].txid == op.txid && op.vout < |c[i].txs[j].outs|;
        assert i < n ==> c[..n][i].txs[j].txid == op.txid;
      }
    }
  }

  lemma {:induction false} ListedSpent(c: seq<Block>, op: Outpoint)
    requires op in SpendKeys(ChainSpends(c))
    ensures SpentIn(c, op)
  {
    hide TxSpends, SpendKeys;
    if c == [] {
      NoSpendsListed();
    } else {
      var n := |c| - 1;
      assert c == c[..n] + [c[n]];
      SpendKeysStep(c[..n], c[n]);
      SpentJoin(c[..n], [c[n]], op);
      if op in SpendKeys(ChainSpends(c[..n])) {
        ListedSpent(c[..n], op);
      } else {
        BlockSpendKeys(c[n].txs, |c[n].txs|);
        var j := SpendsFrom(c[n].txs, |c[n].txs|, op);
        assert op in TxSpends([c[n]][0].txs[j]);
      }
    }
  }

  lemma {:induction false} SpendsFrom(txs: seq<Tx>, n: nat, op: Outpoint) returns (j: nat)
    requires n <= |txs| && op in SpendsOf(txs, n)
    ensures j < n && op in TxSpends(txs[j])
  {
    if op in TxSpends(txs[n - 1]) {
      j := n - 1;
    } else {
      j := SpendsFrom(txs, n - 1, op);
    }
  }

  /** The coins a valid chain leaves are exactly its outputs that no input takes, each as its transaction and
      block made it. */
  lemma UnspentOutputs(c: seq<Block>, op: Outpoint)
    requires ValidChain(c)
    ensures op in Replay(c) <==> Output(c, op) && !Taken(c, op)
    ensures op in Replay(c) ==> MadeIn(c, op, Replay(c)[op])
  {
    hide ValidChain, Lists, Replay, ChainSpends, AllCreated, Made, SpentIn, Taken;
    ChainTwoStreams(c);
    IndexCoinsAreReplay(c);
    AllCreatedIs(c, op);
    TakenIffSpent(c, op);
    if SpentIn(c, op) {
      SpentListed(c, op);
    }
    if op in SpendKeys(ChainSpends(c)) {
      ListedSpent(c, op);
    }
    if op in Replay(c) {
      MadeOutput(c, op, Replay(c)[op]);
    }
  }

  lemma MadeOutput(c: seq<Block>, op: Outpoint, coin: Coin)
    requires MadeIn(c, op, coin)
    ensures Output(c, op)
  {
  }
}
