/** The key-value layout of the store, and what it means for a store to hold an index.

    A key names its record type and its fields; the byte encoding of keys is not modelled.
    A store is a map, an open batch a map of pending writes laid over it. `Holds` ties the two levels
    together: under every key but the tip pointer's and the cleanup list's the store has exactly the
    record the index calls for, and no other. */
module StoreKeys {
  import opened Chain
  import opened Index

  datatype Key =
    | O(script: ScriptHash, op: Outpoint)                    // unspent output
    | H(op: Outpoint)                                        // output hint: its script
    | K(bh: BlockHash, script: ScriptHash, op: Outpoint)     // output spent in a block
    | M(bh: BlockHash, op: Outpoint)                         // hint spent in a block
    | W(bh: BlockHash, op: Outpoint)                         // output created in a block
    | S(script: ScriptHash)                                  // first block of a script
    | Z(bh: BlockHash, script: ScriptHash)                   // scripts first seen in a block
    | T(txid: Txid)                                          // transaction to block
    | X(txid: Txid)                                          // exact transaction to block
    | Y(bh: BlockHash, txid: Txid)                           // transactions of a block
    | B(bh: BlockHash)                                       // block record
    | N(bh: BlockHash)                                       // block inside the undo window
    | P                                                      // blocks awaiting cleanup
    | TipHeight
    | TipHash

  datatype Value =
    | VOut(value: nat, height: int, txid: Txid, coinbase: bool)
    | VScript(script: ScriptHash)
    | VHeight(height: int)
    | VTx(bh: BlockHash, txid: Txid)
    | VHash(bh: BlockHash)
    | VTxid(txid: Txid)
    | VBlock(rec: BlockRec)
    | VEmpty
    | VPending(hashes: seq<BlockHash>)

  datatype Write = Put(value: Value) | Del

  type Db = map<Key, Value>
  type Batch = map<Key, Write>

  function Get<U>(m: map<Key, U>, k: Key): Option<U> {
    if k in m then Some(m[k]) else None
  }

  /** The tip pointer and the cleanup list are not part of the index. */
  predicate Meta(k: Key) {
    k.P? || k.TipHeight? || k.TipHash?
  }

  function OutValue(op: Outpoint, coin: Coin): Value {
    VOut(coin.value, coin.height, op.txid, coin.coinbase)
  }

  /** The record tells the coin: its value, height, txid and coinbase flag. */
  predicate Tells(v: Value, op: Outpoint, coin: Coin) {
    v.VOut? && v.value == coin.value && v.height == coin.height && v.txid == op.txid && v.coinbase == coin.coinbase
  }

  function CoinValue(coins: map<Outpoint, Coin>, script: ScriptHash, op: Outpoint): Option<Value> {
    if op in coins && coins[op].script == script then Some(OutValue(op, coins[op])) else None
  }

  function HintValue(coins: map<Outpoint, Coin>, op: Outpoint): Option<Value> {
    if op in coins then Some(VScript(coins[op].script)) else None
  }

  function UndoOf(ix: Index, bh: BlockHash): Undo {
    if bh in ix.undo then ix.undo[bh] else Undo(map[], map[], {}, {})
  }

  function Flag(present: bool): Option<Value> {
    if present then Some(VEmpty) else None
  }

  /** The record an index has under a key. */
  function At(ix: Index, k: Key): Option<Value>
    requires !Meta(k)
  {
    match k
    case O(script, op) => CoinValue(ix.utxo, script, op)
    case H(op) => HintValue(ix.utxo, op)
    case K(bh, script, op) => CoinValue(UndoOf(ix, bh).spent, script, op)
    case M(bh, op) => HintValue(UndoOf(ix, bh).spent, op)
    case W(bh, op) =>
      var created := UndoOf(ix, bh).created;
      if op in created then Some(VScript(created[op])) else None
    case S(script) => if script in ix.firstSeen then Some(VHeight(ix.firstSeen[script])) else None
    case Z(bh, script) => Flag(script in UndoOf(ix, bh).newScripts)
    case T(txid) => if txid in ix.txBlock then Some(VTx(ix.txBlock[txid], txid)) else None
    case X(txid) => if txid in ix.txBlock then Some(VHash(ix.txBlock[txid])) else None
    case Y(bh, txid) => if txid in UndoOf(ix, bh).txids then Some(VTxid(txid)) else None
    case B(bh) => if bh in ix.blocks then Some(VBlock(ix.blocks[bh])) else None
    case N(bh) => Flag(bh in ix.window)
  }

  /** The store holds exactly the records of the index, tip pointer and cleanup list aside. */
  ghost predicate Holds(db: Db, ix: Index) {
    forall k: Key :: !Meta(k) ==> Get(db, k) == At(ix, k)
  }

  /** The tip pointer and the cleanup list are the same in both. */
  ghost predicate MetaKept(db: Db, db': Db) {
    forall k: Key :: Meta(k) ==> Get(db', k) == Get(db, k)
  }

  /** What a reader of the open batch would see once it commits. */
  function Overlay(db: Db, batch: Batch): (r: Db)
    ensures forall k :: Get(r, k) == Seen(db, batch, k)
  {
    map k | k in db.Keys + batch.Keys && (k in batch ==> batch[k].Put?) :: if k in batch then batch[k].value else db[k]
  }

  function Seen(db: Db, batch: Batch, k: Key): Option<Value> {
    if k in batch then (if batch[k].Put? then Some(batch[k].value) else None) else Get(db, k)
  }

  lemma OverlayPut(db: Db, batch: Batch, k: Key, v: Value)
    ensures Overlay(db, batch[k := Put(v)]) == Overlay(db, batch)[k := v]
  {
  }

  lemma OverlayDel(db: Db, batch: Batch, k: Key)
    ensures Overlay(db, batch[k := Del]) == Overlay(db, batch) - {k}
  {
  }

  lemma OverlayCancel(db: Db, batch: Batch, k: Key)
    requires k !in db
    ensures Overlay(db, batch - {k}) == Overlay(db, batch) - {k}
  {
  }

  lemma OverlayEmpty(db: Db)
    ensures Overlay(db, map[]) == db
  {
  }

  /** Two stores that hold one index agree on every record of it. */
  lemma HoldsDetermines(db: Db, db': Db, ix: Index)
    requires Holds(db, ix) && Holds(db', ix)
    ensures db - {P, TipHeight, TipHash} == db' - {P, TipHeight, TipHash}
  {
    forall k | !Meta(k) ensures (k in db <==> k in db') && (k in db ==> db[k] == db'[k]) {
      assert Get(db, k) == At(ix, k) && Get(db', k) == At(ix, k);
    }
    assert forall k :: Meta(k) <==> k in {P, TipHeight, TipHash};
  }
}
