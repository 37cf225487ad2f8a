/** The mempool store: what staging a transaction records, and what dropping one by its hints removes. */
module MempoolStore {
  import opened Chain
  import opened Index

  datatype PendingOut = PendingOut(script: ScriptHash, value: nat)

  /** `outputs` is O and H, `inputs` is I (which transaction spends an outpoint), `hints` is J. */
  datatype Mempool = Mempool(txs: set<Txid>, outputs: map<Outpoint, PendingOut>,
                             inputs: map<Outpoint, Txid>, hints: set<(Txid, Outpoint)>)

  const EMPTY := Mempool({}, map[], map[], {})

  function FirstOuts(tx: Tx, n: nat): map<Outpoint, PendingOut>
    requires n <= |tx.outs|
  {
    map vout: nat | vout < n :: Outpoint(tx.txid, vout) := PendingOut(tx.outs[vout].script, tx.outs[vout].value)
  }

  function OutsOf(tx: Tx): map<Outpoint, PendingOut> {
    FirstOuts(tx, |tx.outs|)
  }

  function SpendMap(ops: seq<Outpoint>, txid: Txid): map<Outpoint, Txid> {
    map op | op in ops :: txid
  }

  function HintSet(ops: seq<Outpoint>, txid: Txid): set<(Txid, Outpoint)> {
    set op | op in ops :: (txid, op)
  }

  function SpentBy(tx: Tx): map<Outpoint, Txid> {
    SpendMap(TxSpends(tx), tx.txid)
  }

  function HintsOf(tx: Tx): set<(Txid, Outpoint)> {
    HintSet(TxSpends(tx), tx.txid)
  }

  lemma SpendMapAdd(ops: seq<Outpoint>, txid: Txid, op: Outpoint)
    ensures SpendMap(ops + [op], txid) == SpendMap(ops, txid)[op := txid]
    ensures HintSet(ops + [op], txid) == HintSet(ops, txid) + {(txid, op)}
  {
  }

  lemma FirstOutsAdd(tx: Tx, n: nat)
    requires n < |tx.outs|
    ensures FirstOuts(tx, n + 1) ==
      FirstOuts(tx, n)[Outpoint(tx.txid, n) := PendingOut(tx.outs[n].script, tx.outs[n].value)]
  {
  }

  function StageTx(m: Mempool, tx: Tx): Mempool {
    Mempool(m.txs + {tx.txid}, m.outputs + OutsOf(tx), m.inputs + SpentBy(tx), m.hints + HintsOf(tx))
  }

  /** The outpoints a transaction's hints name. */
  function Hinted(m: Mempool, txid: Txid): set<Outpoint> {
    set h | h in m.hints && h.0 == txid :: h.1
  }

  function OutpointsOf(m: Mempool, txid: Txid): set<Outpoint> {
    set op | op in m.outputs && op.txid == txid
  }

  /** Dropping removes every record the transaction's hints reach, whoever wrote it last. */
  function DropTx(m: Mempool, txid: Txid): Mempool {
    Mempool(m.txs - {txid}, m.outputs - OutpointsOf(m, txid), m.inputs - Hinted(m, txid),
            set h | h in m.hints && h.0 != txid)
  }

  lemma NoSpends(inputs: map<Outpoint, Txid>, hints: set<(Txid, Outpoint)>, txid: Txid)
    ensures inputs + SpendMap([], txid) == inputs && hints + HintSet([], txid) == hints
  {
  }

  lemma NoOuts(outputs: map<Outpoint, PendingOut>, tx: Tx)
    ensures outputs + FirstOuts(tx, 0) == outputs
  {
  }

  class MempoolDb {
    var txs: set<Txid>
    var outputs: map<Outpoint, PendingOut>
    var inputs: map<Outpoint, Txid>
    var hints: set<(Txid, Outpoint)>

    constructor ()
      ensures Value() == EMPTY
    {
      txs, outputs, inputs, hints := {}, map[], map[], {};
    }

    function Value(): Mempool
      reads this
    {
      Mempool(txs, outputs, inputs, hints)
    }

    method InsertInputs(tx: Tx)
      modifies `inputs, `hints
      ensures inputs == old(inputs) + SpentBy(tx) && hints == old(hints) + HintsOf(tx)
    {
      hide SpendMap, HintSet;
      NoSpends(old(inputs), old(hints), tx.txid);
      for k := 0 to |tx.ins|
        invariant inputs == old(inputs) + SpendMap(InputSpends(tx.ins, k), tx.txid)
        invariant hints == old(hints) + HintSet(InputSpends(tx.ins, k), tx.txid)
      {
        if Spends(tx.ins[k]) {
          SpendMapAdd(InputSpends(tx.ins, k), tx.txid, tx.ins[k].prev);
          PlusUpdate(old(inputs), SpendMap(InputSpends(tx.ins, k), tx.txid), tx.ins[k].prev, tx.txid);
          inputs := inputs[tx.ins[k].prev := tx.txid];
          hints := hints + {(tx.txid, tx.ins[k].prev)};
        } else {
          assert InputSpends(tx.ins, k + 1) == InputSpends(tx.ins, k);
        }
      }
    }

    method InsertOutputs(tx: Tx)
      modifies `outputs
      ensures outputs == old(outputs) + OutsOf(tx)
    {
      hide FirstOuts;
      NoOuts(old(outputs), tx);
      for vout := 0 to |tx.outs|
        invariant outputs == old(outputs) + FirstOuts(tx, vout)
      {
        FirstOutsAdd(tx, vout);
        PlusUpdate(old(outputs), FirstOuts(tx, vout), Outpoint(tx.txid, vout), PendingOut(tx.outs[vout].script, tx.outs[vout].value));
        outputs := outputs[Outpoint(tx.txid, vout) := PendingOut(tx.outs[vout].script, tx.outs[vout].value)];
      }
    }

    /** Stages one transaction: its inputs with their hints, its outputs, its T record. */
    method ParseTransaction(tx: Tx)
      modifies this
      ensures Value() == StageTx(old(Value()), tx)
    {
      InsertInputs(tx);
      InsertOutputs(tx);
      txs := txs + {tx.txid};
    }

    method DeleteOutputsByHint(txid: Txid)
      modifies `outputs
      ensures Value() == old(Value()).(outputs := old(outputs) - OutpointsOf(old(Value()), txid))
    {
      var todo := set op | op in outputs && op.txid == txid;
      ghost var all := todo;
      while todo != {}
        invariant todo <= all && outputs == old(outputs) - (all - todo)
        decreases |todo|
      {
        var op :| op in todo;
        outputs := outputs - {op};
        todo := todo - {op};
      }
    }

    method DeleteInputsByHint(txid: Txid)
      modifies `inputs, `hints
      ensures inputs == old(inputs) - Hinted(old(Value()), txid)
      ensures hints == set h | h in old(hints) && h.0 != txid
    {
      var todo := set h | h in hints && h.0 == txid;
      ghost var all := todo;
      while todo != {}
        invariant todo <= all && hints == old(hints) - (all - todo)
        invariant inputs == old(inputs) - set h | h in all - todo :: h.1
        decreases |todo|
      {
        var h :| h in todo;
        assert all - (todo - {h}) == (all - todo) + {h};
        assert (set x | x in (all - todo) + {h} :: x.1) == (set x | x in all - todo :: x.1) + {h.1};
        inputs := inputs - {h.1};
        hints := hints - {h};
        todo := todo - {h};
      }
      assert all - todo == all;
      assert Hinted(old(Value()), txid) == set h | h in all :: h.1;
    }

    /** Drops a mined or vanished transaction's records. */
    method Drop(txid: Txid)
      modifies this
      ensures Value() == DropTx(old(Value()), txid)
    {
      DeleteOutputsByHint(txid);
      DeleteInputsByHint(txid);
      txs := txs - {txid};
    }
  }

  // ----- what the store says about the transactions it holds

  ghost predicate ReflectsAt(m: Mempool, held: map<Txid, Tx>, op: Outpoint) {
    && (forall t :: (t, op) in m.hints <==> t in held && op in TxSpends(held[t]))
    && (op in m.outputs ==> op.txid in held)
    && (op in m.inputs ==> m.inputs[op] in held && op in TxSpends(held[m.inputs[op]]))
  }

  /** The hints are exactly the held transactions' spends, and every record belongs to a held one. */
  ghost predicate Reflects(m: Mempool, held: map<Txid, Tx>) {
    && (forall t :: t in held ==> held[t].txid == t)
    && m.txs == held.Keys
    && (forall op :: ReflectsAt(m, held, op))
  }

  /** Every outpoint a held transaction spends is marked spent. */
  ghost predicate Marked(m: Mempool, held: map<Txid, Tx>) {
    forall t, op :: t in held && op in TxSpends(held[t]) ==> op in m.inputs
  }

  /** No two held transactions spend one outpoint. */
  ghost predicate NoConflict(held: map<Txid, Tx>) {
    forall t, u, op :: t in held && u in held && op in TxSpends(held[t]) && op in TxSpends(held[u]) ==> t == u
  }

  lemma StagedSpends(m: Mempool, tx: Tx, op: Outpoint)
    ensures op in StageTx(m, tx).inputs <==> op in m.inputs || op in TxSpends(tx)
    ensures op in TxSpends(tx) ==> StageTx(m, tx).inputs[op] == tx.txid
    ensures op !in TxSpends(tx) && op in m.inputs ==> StageTx(m, tx).inputs[op] == m.inputs[op]
    ensures forall t :: (t, op) in StageTx(m, tx).hints <==> (t, op) in m.hints || (t == tx.txid && op in TxSpends(tx))
    ensures op in StageTx(m, tx).outputs ==> op in m.outputs || op.txid == tx.txid
  {
  }

  lemma StageReflectsAt(m: Mempool, held: map<Txid, Tx>, tx: Tx, op: Outpoint)
    requires ReflectsAt(m, held, op) && (tx.txid in held ==> held[tx.txid] == tx)
    ensures ReflectsAt(StageTx(m, tx), held[tx.txid := tx], op)
  {
    StagedSpends(m, tx, op);
    hide StageTx, TxSpends;
  }

  lemma StageReflects(m: Mempool, held: map<Txid, Tx>, tx: Tx)
    requires Reflects(m, held) && (tx.txid in held ==> held[tx.txid] == tx)
    ensures Reflects(StageTx(m, tx), held[tx.txid := tx])
    ensures Marked(m, held) ==> Marked(StageTx(m, tx), held[tx.txid := tx])
  {
    hide ReflectsAt, TxSpends;
    var m', held' := StageTx(m, tx), held[tx.txid := tx];
    assert m'.txs == held'.Keys;
    forall op ensures ReflectsAt(m', held', op) {
      StageReflectsAt(m, held, tx, op);
    }
    if Marked(m, held) {
    }
  }

  lemma DropReflectsAt(m: Mempool, held: map<Txid, Tx>, txid: Txid, op: Outpoint)
    requires ReflectsAt(m, held, op)
    ensures ReflectsAt(DropTx(m, txid), held - {txid}, op)
  {
    var m' := DropTx(m, txid);
    if op in m'.inputs {
      assert op in m.inputs && op !in Hinted(m, txid);
      assert (m.inputs[op], op) in m.hints;
    }
    hide TxSpends;
  }

  lemma DropReflects(m: Mempool, held: map<Txid, Tx>, txid: Txid)
    requires Reflects(m, held)
    ensures Reflects(DropTx(m, txid), held - {txid})
  {
    hide ReflectsAt, Hinted, OutpointsOf;
    forall op ensures ReflectsAt(DropTx(m, txid), held - {txid}, op) {
      DropReflectsAt(m, held, txid, op);
    }
  }

  /** Dropping a transaction takes away the spend mark of exactly the outpoints it spends itself: the
      mark of an outpoint that another held transaction spends survives if and only if the dropped
      one does not spend it too. */
  lemma DropKeepsMarkIff(m: Mempool, held: map<Txid, Tx>, txid: Txid, op: Outpoint)
    requires Reflects(m, held) && op in m.inputs
    ensures op in DropTx(m, txid).inputs <==> !(txid in held && op in TxSpends(held[txid]))
  {
    assert ReflectsAt(m, held, op);
    assert op in Hinted(m, txid) <==> (txid, op) in m.hints;
    hide TxSpends;
  }

  /** Without conflicts dropping leaves every other held spend marked. */
  lemma DropMarked(m: Mempool, held: map<Txid, Tx>, txid: Txid)
    requires Reflects(m, held) && Marked(m, held) && NoConflict(held)
    ensures Marked(DropTx(m, txid), held - {txid}) && NoConflict(held - {txid})
  {
    forall t, op | t in held - {txid} && op in TxSpends((held - {txid})[t]) ensures op in DropTx(m, txid).inputs {
      DropKeepsMarkIff(m, held, txid, op);
    }
  }

  /** With a conflict it need not: when two held transactions spend one outpoint and one of them is
      dropped, the outpoint is unmarked although the other still spends it. */
  lemma ConflictLosesMark(t: Tx, u: Tx, op: Outpoint)
    requires t.txid != u.txid && op in TxSpends(t) && op in TxSpends(u)
    ensures var m, held := StageTx(StageTx(EMPTY, t), u), map[t.txid := t, u.txid := u];
      && Reflects(m, held) && Marked(m, held)
      && Reflects(DropTx(m, t.txid), held - {t.txid}) && !Marked(DropTx(m, t.txid), held - {t.txid})
  {
    hide TxSpends, StageTx, DropTx;
    var none: map<Txid, Tx> := map[];
    StageReflects(EMPTY, none, t);
    StageReflects(StageTx(EMPTY, t), none[t.txid := t], u);
    var m, held := StageTx(StageTx(EMPTY, t), u), none[t.txid := t][u.txid := u];
    assert held == map[t.txid := t, u.txid := u];
    DropReflects(m, held, t.txid);
    DropKeepsMarkIff(m, held, t.txid, op);
    assert u.txid in held - {t.txid} && (held - {t.txid})[u.txid] == u;
  }

  /** One such pair. */
  lemma ConflictExample()
    ensures var op := Outpoint(Txid("00"), 0);
      var t, u := Tx(Txid("01"), [TxIn(op, true)], []), Tx(Txid("02"), [TxIn(op, true)], []);
      op in TxSpends(u) && op !in DropTx(StageTx(StageTx(EMPTY, t), u), t.txid).inputs
  {
    var op := Outpoint(Txid("00"), 0);
    var t, u := Tx(Txid("01"), [TxIn(op, true)], []), Tx(Txid("02"), [TxIn(op, true)], []);
    assert InputSpends(t.ins, 0) == [] && InputSpends(u.ins, 0) == [];
    assert InputSpends(t.ins, 1) == [op] && InputSpends(u.ins, 1) == [op];
    assert (t.txid, op) in StageTx(StageTx(EMPTY, t), u).hints;
  }
}
