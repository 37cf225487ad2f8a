/** The store object: durable records, the open batch, and the two read caches.

    Each method is proved against the open batch laid over the durable records (`View`): what a key will hold
    once the batch is committed. The output cache remembers outputs staged or read lately and the script cache
    scripts known to have a first-seen record; both may be incomplete but never wrong, so neither changes what
    a method stages. */
module LevelUpStore {
  import opened Chain
  import opened Index
  import opened StoreKeys
  import opened StoreSteps

  const OUTPUT_CACHE_MAX: nat := 2_000_000
  const KNOWN_SCRIPTS_MAX: nat := 2_000_000

  /** Where a spent output was found: nowhere, in the open batch, or on disk. */
  datatype Resolved =
    | Missing
    | InMemory(script: ScriptHash)
    | OnDisk(script: ScriptHash, value: Option<Value>)

  predicate OutKey(k: Key) {
    k.O? || k.H?
  }

  /** A forward batch deletes only outputs and hints, and stages those only when disk lacks them. */
  predicate ForwardBatch(db: Db, batch: Batch) {
    forall k :: k in batch ==> if OutKey(k) then batch[k].Put? ==> k !in db else batch[k].Put?
  }

  /** A cached value is that of the coin, whether unspent or in some block's archive. */
  ghost predicate CacheOk(cache: map<Outpoint, Value>, ix: Index) {
    forall op :: op in cache ==>
      && (op in ix.utxo ==> cache[op] == OutValue(op, ix.utxo[op]))
      && (forall bh :: bh in ix.undo && op in ix.undo[bh].spent ==>
            cache[op] == OutValue(op, ix.undo[bh].spent[op]))
  }

  class LevelUpStore {
    var db: Db
    var transactionArray: Option<Batch>
    var deletedTransactionArray: map<BlockHash, map<Key, Value>>
    var knownScripts: set<ScriptHash>
    var outputCache: map<Outpoint, Value>

    constructor ()
      ensures db == map[] && transactionArray == Some(map[])
      ensures knownScripts == {} && outputCache == map[]
    {
      db := map[];
      transactionArray := Some(map[]);
      deletedTransactionArray := map[];
      knownScripts := {};
      outputCache := map[];
    }

    /** What the store will hold once the open batch commits. */
    function View(): Db
      reads `db, `transactionArray
    {
      if transactionArray.Some? then Overlay(db, transactionArray.value) else db
    }

    predicate Forward()
      reads `db, `transactionArray
    {
      transactionArray.Some? && ForwardBatch(db, transactionArray.value)
    }

    // ----- batches

    method BeginTransaction()
      modifies `transactionArray, `deletedTransactionArray
      ensures transactionArray == Some(map[]) && deletedTransactionArray == map[]
      ensures View() == db && Forward()
    {
      transactionArray := Some(map[]);
      deletedTransactionArray := map[];
      OverlayEmpty(db);
    }

    /** Commits or discards the open batch. A failed commit leaves batch and records as they were. */
    method EndTransaction(batch: bool, fails: bool) returns (ok: bool)
      requires batch ==> transactionArray.Some?
      modifies this
      ensures outputCache == old(outputCache)
      ensures ok <==> !(batch && fails)
      ensures db == if batch && ok then old(View()) else old(db)
      ensures ok ==> transactionArray == None && deletedTransactionArray == map[]
      ensures !ok ==> transactionArray == old(transactionArray)
      ensures knownScripts == if batch then old(knownScripts) else {}
    {
      if !batch {
        knownScripts := {};
      } else {
        if fails {
          return false;
        }
        db := Overlay(db, transactionArray.value);
      }
      transactionArray := None;
      deletedTransactionArray := map[];
      ok := true;
    }

    /** Opening a store clears the read caches; the fresh object's empty batch is never committed. */
    method Reopen()
      modifies this
      ensures db == old(db) && transactionArray == Some(map[]) && knownScripts == {} && outputCache == map[]
    {
      transactionArray := Some(map[]);
      deletedTransactionArray := map[];
      knownScripts := {};
      outputCache := map[];
    }

    /** A write straight to disk, outside any batch. */
    method PutDirect(k: Key, v: Value)
      modifies `db
      ensures db == old(db)[k := v]
    {
      db := db[k := v];
    }

    function GetTransactionValue(k: Key): Option<Value>
      reads `transactionArray
    {
      if transactionArray.Some? && k in transactionArray.value && transactionArray.value[k].Put?
      then Some(transactionArray.value[k].value)
      else None
    }

    /** Stages a write, or makes it directly when no batch is open. */
    method AddTransaction(k: Key, w: Write)
      modifies `db, `transactionArray
      ensures View() == if w.Put? then old(View())[k := w.value] else old(View()) - {k}
      ensures old(transactionArray).Some? ==>
        db == old(db) && transactionArray == Some(old(transactionArray).value[k := w])
      ensures old(transactionArray).None? ==> transactionArray.None?
    {
      if transactionArray.Some? {
        if w.Put? {
          OverlayPut(db, transactionArray.value, k, w.value);
        } else {
          OverlayDel(db, transactionArray.value, k);
        }
        transactionArray := Some(transactionArray.value[k := w]);
      } else {
        db := if w.Put? then db[k := w.value] else db - {k};
      }
    }

    /** Drops a staged put and remembers its value under the spending block. */
    method RemoveTransaction(k: Key, deletedKey: BlockHash) returns (found: bool)
      requires transactionArray.Some?
      modifies `transactionArray, `deletedTransactionArray
      ensures found <==> k in old(transactionArray).value
      ensures transactionArray == Some(old(transactionArray).value - {k})
      ensures k !in db ==> View() == old(View()) - {k}
    {
      var batch := transactionArray.value;
      if k !in db {
        OverlayCancel(db, batch, k);
      }
      if k !in batch {
        assert batch - {k} == batch;
        return false;
      }
      var inner := if deletedKey in deletedTransactionArray then deletedTransactionArray[deletedKey] else map[];
      if batch[k].Put? {
        deletedTransactionArray := deletedTransactionArray[deletedKey := inner[k := batch[k].value]];
      }
      transactionArray := Some(batch - {k});
      found := true;
    }

    // ----- staging a block's records

    method InsertBlock(b: Block, h: int)
      requires Forward()
      modifies `db, `transactionArray
      ensures Forward() && db == old(db)
      ensures View() == old(View())[B(b.hash) := VBlock(BlockRec(h, b.timestamp, b.prevHash))]
    {
      AddTransaction(B(b.hash), Put(VBlock(BlockRec(h, b.timestamp, b.prevHash))));
    }

    method InsertTransaction(txid: Txid, bh: BlockHash)
      requires Forward()
      modifies `db, `transactionArray
      ensures Forward() && db == old(db)
      ensures View() == PutTx(old(View()), bh, txid)
    {
      AddTransaction(T(txid), Put(VTx(bh, txid)));
      AddTransaction(X(txid), Put(VHash(bh)));
      AddTransaction(Y(bh, txid), Put(VTxid(txid)));
    }

    method InsertOutput(op: Outpoint, coin: Coin)
      requires Forward() && O(coin.script, op) !in db
      modifies `db, `transactionArray, `outputCache
      ensures Forward() && db == old(db)
      ensures View() == old(View())[O(coin.script, op) := OutValue(op, coin)]
      ensures forall p :: p in outputCache ==>
        if p == op && coin.height >= 0 then outputCache[p] == OutValue(op, coin)
        else p in old(outputCache) && outputCache[p] == old(outputCache)[p]
    {
      if coin.height >= 0 {
        outputCache := outputCache[op := OutValue(op, coin)];
        if |outputCache| > OUTPUT_CACHE_MAX {
          outputCache := map[];
        }
      }
      AddTransaction(O(coin.script, op), Put(OutValue(op, coin)));
    }

    method InsertOutputHint(op: Outpoint, script: ScriptHash)
      requires Forward() && H(op) !in db
      modifies `db, `transactionArray
      ensures Forward() && db == old(db)
      ensures View() == old(View())[H(op) := VScript(script)]
    {
      AddTransaction(H(op), Put(VScript(script)));
    }

    lemma Recorded(k: Key)
      requires Forward() && !OutKey(k)
      ensures k in View() <==> GetTransactionValue(k).Some? || k in db
    {
      assert Get(View(), k) == Seen(db, transactionArray.value, k);
    }

    /** Records a script's first block, unless the cache, the batch or disk already knows it.
        The cache only ever names scripts the store has, so it never changes the outcome. */
    method InsertOutputScriptBlock(script: ScriptHash, bh: BlockHash, h: int)
      requires Forward()
      requires forall s :: s in knownScripts ==> S(s) in View()
      modifies `db, `transactionArray, `knownScripts
      ensures Forward() && db == old(db)
      ensures View() == PutScript(old(View()), bh, h, script)
      ensures forall s :: s in knownScripts ==> S(s) in View()
    {
      if |knownScripts| > KNOWN_SCRIPTS_MAX {
        knownScripts := {};
      }
      if script !in knownScripts {
        Recorded(S(script));
        if GetTransactionValue(S(script)).None? && S(script) !in db {
          AddTransaction(S(script), Put(VHeight(h)));
          AddTransaction(Z(bh, script), Put(VEmpty));
        }
        knownScripts := knownScripts + {script};
      }
    }

    method InsertOutputBlock(op: Outpoint, script: ScriptHash, bh: BlockHash)
      requires Forward()
      modifies `db, `transactionArray
      ensures Forward() && db == old(db)
      ensures View() == old(View())[W(bh, op) := VScript(script)]
    {
      AddTransaction(W(bh, op), Put(VScript(script)));
    }

    // ----- spending

    /** Phases 1 and 2: where each spent output is, read before any of them is removed. */
    method ResolveSpends(inputs: seq<Outpoint>) returns (resolved: seq<Resolved>)
      requires Distinct(inputs)
      modifies `outputCache
      ensures |resolved| == |inputs|
      ensures forall i :: 0 <= i < |inputs| ==> resolved[i] == ResolvedAt(db, transactionArray, old(outputCache), inputs[i])
      ensures forall op :: op in outputCache ==> op in old(outputCache) && outputCache[op] == old(outputCache)[op]
    {
      var hints: seq<Resolved> := [];
      for i := 0 to |inputs|
        invariant |hints| == i
        invariant forall j :: 0 <= j < i ==> hints[j] == HintAt(db, transactionArray, inputs[j])
      {
        hints := hints + [HintAt(db, transactionArray, inputs[i])];
      }
      resolved := [];
      for i := 0 to |inputs|
        invariant |resolved| == i
        invariant forall j :: 0 <= j < i ==> resolved[j] == ResolvedAt(db, transactionArray, old(outputCache), inputs[j])
        invariant forall op :: op in outputCache ==> op in old(outputCache) && outputCache[op] == old(outputCache)[op]
        invariant forall j :: i <= j < |inputs| && inputs[j] in old(outputCache) ==> inputs[j] in outputCache
      {
        var r := hints[i];
        if r.OnDisk? {
          if inputs[i] in outputCache {
            r := r.(value := Some(outputCache[inputs[i]]));
            outputCache := outputCache - {inputs[i]};
          } else {
            r := r.(value := Get(db, O(r.script, inputs[i])));
          }
        }
        resolved := resolved + [r];
      }
    }

    /** A spend inside the batch: both staged puts are dropped; the value is kept for recovery. */
    method UnstageInMemorySpend(op: Outpoint, script: ScriptHash, bh: BlockHash) returns (value: Option<Value>)
      requires Forward() && O(script, op) in transactionArray.value && H(op) in transactionArray.value
      requires transactionArray.value[O(script, op)].Put? && transactionArray.value[H(op)].Put?
      modifies `transactionArray, `deletedTransactionArray
      ensures Forward()
      ensures value == old(GetTransactionValue(O(script, op)))
      ensures View() == old(View()) - {O(script, op)} - {H(op)}
      ensures forall k :: k != O(script, op) && k != H(op) ==>
        Get(transactionArray.value, k) == Get(old(transactionArray).value, k)
    {
      value := GetTransactionValue(O(script, op));
      var found := RemoveTransaction(O(script, op), bh);
      found := RemoveTransaction(H(op), bh);
    }

    /** Restore records for an output spent in a later block of the batch that created it. */
    method WriteCrossBlockSpendRecovery(op: Outpoint, script: ScriptHash, bh: BlockHash, value: Option<Value>)
      requires Forward()
      modifies `db, `transactionArray
      ensures Forward() && db == old(db)
      ensures View() ==
        if value.Some? && value.value.VOut? && old(GetTransactionValue(B(bh))).Some?
           && old(GetTransactionValue(B(bh))).value.VBlock?
           && 0 <= value.value.height < old(GetTransactionValue(B(bh))).value.rec.height
        then old(View())[M(bh, op) := VScript(script)][K(bh, script, op) := value.value]
        else old(View())
      ensures forall k :: OutKey(k) || k.B? ==>
        Get(transactionArray.value, k) == Get(old(transactionArray).value, k)
    {
      var block := GetTransactionValue(B(bh));
      if value.Some? && value.value.VOut? && block.Some? && block.value.VBlock?
         && 0 <= value.value.height < block.value.rec.height {
        AddTransaction(M(bh, op), Put(VScript(script)));
        AddTransaction(K(bh, script, op), Put(value.value));
      }
    }

    /** A spend of a durable output: archive both records, then delete them. */
    method ArchiveDurableSpend(op: Outpoint, script: ScriptHash, bh: BlockHash, value: Value)
      requires Forward()
      modifies `db, `transactionArray
      ensures Forward() && db == old(db)
      ensures View() ==
        old(View())[M(bh, op) := VScript(script)][K(bh, script, op) := value] - {O(script, op)} - {H(op)}
      ensures forall k :: (OutKey(k) && k != O(script, op) && k != H(op)) || k.B? ==>
        Get(transactionArray.value, k) == Get(old(transactionArray).value, k)
    {
      AddTransaction(M(bh, op), Put(VScript(script)));
      AddTransaction(K(bh, script, op), Put(value));
      AddTransaction(O(script, op), Del);
      AddTransaction(H(op), Del);
    }

    /** Phase 3 for one input: cancel a staged output or delete a durable one, archiving it
        under the spending block unless that same block created it. */
    method StageSpend(op: Outpoint, r: Resolved, bh: BlockHash, ghost h: int, ghost coin: Coin)
      requires Forward() && SpendReady(db, transactionArray.value, op, r, h, coin)
      requires GetTransactionValue(B(bh)).Some? && GetTransactionValue(B(bh)).value.VBlock?
      requires GetTransactionValue(B(bh)).value.rec.height == h
      modifies `db, `transactionArray, `deletedTransactionArray
      ensures Forward() && db == old(db)
      ensures View() == TakeOut(old(View()), bh, h, op, coin)
      ensures forall k :: (OutKey(k) && k.op != op) || k.B? ==>
        Get(transactionArray.value, k) == Get(old(transactionArray).value, k)
    {
      ghost var before := View();
      match r
      case Missing =>
      case InMemory(script) =>
        var value := UnstageInMemorySpend(op, script, bh);
        WriteCrossBlockSpendRecovery(op, script, bh, value);
        TakeOutEitherOrder(before, bh, h, op, coin);
      case OnDisk(script, value) =>
        if value.Some? {
          ArchiveDurableSpend(op, script, bh, value.value);
        }
    }
  }

  lemma TakeOutEitherOrder(m: Db, bh: BlockHash, h: int, op: Outpoint, coin: Coin)
    ensures TakeOut(m, bh, h, op, coin) ==
      var m1 := m - {O(coin.script, op)} - {H(op)};
      if coin.height < h
      then m1[M(bh, op) := VScript(coin.script)][K(bh, coin.script, op) := OutValue(op, coin)]
      else m1
  {
  }

  function HintAt(db: Db, batch: Option<Batch>, op: Outpoint): Resolved {
    if batch.Some? && H(op) in batch.value && batch.value[H(op)].Put? && batch.value[H(op)].value.VScript? then
      InMemory(batch.value[H(op)].value.script)
    else if H(op) in db && db[H(op)].VScript? then
      OnDisk(db[H(op)].script, None)
    else
      Missing
  }

  function ResolvedAt(db: Db, batch: Option<Batch>, cache: map<Outpoint, Value>, op: Outpoint): Resolved {
    var r := HintAt(db, batch, op);
    if r.OnDisk? then
      r.(value := if op in cache then Some(cache[op]) else Get(db, O(r.script, op)))
    else r
  }

  /** The resolution of a spend of `coin` is the truth about it. */
  predicate SpendReady(db: Db, batch: Batch, op: Outpoint, r: Resolved, h: int, coin: Coin) {
    var o := O(coin.script, op);
    match r
    case Missing => false
    case InMemory(script) =>
      && script == coin.script && 0 <= coin.height
      && o in batch && batch[o] == Put(OutValue(op, coin))
      && H(op) in batch && batch[H(op)].Put?
    case OnDisk(script, value) =>
      script == coin.script && coin.height < h && value == Some(OutValue(op, coin))
  }
}
