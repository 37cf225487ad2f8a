/** Reading one MWEB-flagged Litecoin transaction from raw bytes, without its MWEB part. */
module MwebReader {
  import opened ByteCodec

  datatype Field =
    | InputCount | InputPrevout | InputScript | InputSequence
    | OutputCount | OutputValue | OutputScript
    | WitnessItemCount | WitnessItem | MwebTag | LockTime

  datatype Error = TooShort(what: Field) | TooLarge(what: Field) | MwebBodyInBlock

  datatype Read<+T> = Ok(value: T) | Err(error: Error)

  const MAX_SAFE_INTEGER: nat := 0x1F_FFFF_FFFF_FFFF
  const HOGEX_FLAG: Byte := 0x08
  const SEGWIT_MWEB_FLAG: Byte := 0x09

  // ----- transactions and their serializations

  // Fixed-width fields are kept as the bytes they are. The parser of ordinary transactions is not part
  // of this model, so what is proved of a transaction with inputs is the byte string handed to it.

  datatype TxIn = TxIn(prevout: Bytes, script: Bytes, sequence: Bytes)
  datatype TxOut = TxOut(value: Bytes, script: Bytes)
  datatype Tx = Tx(version: Bytes, ins: seq<TxIn>, outs: seq<TxOut>, stacks: seq<seq<Bytes>>, locktime: Bytes)

  predicate InOk(x: TxIn) {
    |x.prevout| == 36 && |x.script| <= MAX_SAFE_INTEGER && |x.sequence| == 4
  }

  predicate OutOk(x: TxOut) {
    |x.value| == 8 && |x.script| <= MAX_SAFE_INTEGER
  }

  predicate StackOk(stack: seq<Bytes>) {
    |stack| <= MAX_SAFE_INTEGER && forall i :: 0 <= i < |stack| ==> |stack[i]| <= MAX_SAFE_INTEGER
  }

  predicate TxOk(tx: Tx) {
    && |tx.version| == 4 && |tx.locktime| == 4 && |tx.ins| <= MAX_SAFE_INTEGER && |tx.outs| <= MAX_SAFE_INTEGER
    && (forall i :: 0 <= i < |tx.ins| ==> InOk(tx.ins[i]))
    && (forall i :: 0 <= i < |tx.outs| ==> OutOk(tx.outs[i]))
    && (forall i :: 0 <= i < |tx.stacks| ==> StackOk(tx.stacks[i]))
  }

  function CompactSize(n: nat): Bytes
    requires n <= MAX_SAFE_INTEGER
  {
    if n < 0xFD then [n]
    else if n <= 0xFFFF then [0xFD] + LE(n, 2)
    else if n <= 0xFFFF_FFFF then [0xFE] + LE(n, 4)
    else [0xFF] + LE(n, 8)
  }

  function VarBytes(b: Bytes): Bytes
    requires |b| <= MAX_SAFE_INTEGER
  {
    CompactSize(|b|) + b
  }

  function InBytes(x: TxIn): Bytes
    requires InOk(x)
  {
    x.prevout + VarBytes(x.script) + x.sequence
  }

  function OutBytes(x: TxOut): Bytes
    requires OutOk(x)
  {
    x.value + VarBytes(x.script)
  }

  function InsBytes(ins: seq<TxIn>): Bytes
    requires forall i :: 0 <= i < |ins| ==> InOk(ins[i])
  {
    if ins == [] then [] else InBytes(ins[0]) + InsBytes(ins[1..])
  }

  function OutsBytes(outs: seq<TxOut>): Bytes
    requires forall i :: 0 <= i < |outs| ==> OutOk(outs[i])
  {
    if outs == [] then [] else OutBytes(outs[0]) + OutsBytes(outs[1..])
  }

  function ItemsBytes(items: seq<Bytes>): Bytes
    requires forall i :: 0 <= i < |items| ==> |items[i]| <= MAX_SAFE_INTEGER
  {
    if items == [] then [] else VarBytes(items[0]) + ItemsBytes(items[1..])
  }

  function StackBytes(stack: seq<Bytes>): Bytes
    requires StackOk(stack)
  {
    CompactSize(|stack|) + ItemsBytes(stack)
  }

  function WitnessBytes(stacks: seq<seq<Bytes>>): Bytes
    requires forall i :: 0 <= i < |stacks| ==> StackOk(stacks[i])
  {
    if stacks == [] then [] else StackBytes(stacks[0]) + WitnessBytes(stacks[1..])
  }

  /** Inputs, outputs and, when it has one, the witness. */
  function Middle(tx: Tx, withWitness: bool): Bytes
    requires TxOk(tx)
  {
    CompactSize(|tx.ins|) + InsBytes(tx.ins) + CompactSize(|tx.outs|) + OutsBytes(tx.outs)
    + (if withWitness then WitnessBytes(tx.stacks) else [])
  }

  /** The ordinary serialization: marker and flag only with a witness. */
  function Plain(tx: Tx, withWitness: bool): Bytes
    requires TxOk(tx)
  {
    tx.version + (if withWitness then [0x00, 0x01] else []) + Middle(tx, withWitness) + tx.locktime
  }

  /** The MWEB-flagged one, with the given MWEB part before the lock time. */
  function Flagged(tx: Tx, withWitness: bool, mweb: Bytes): Bytes
    requires TxOk(tx)
  {
    tx.version + [0x00, if withWitness then SEGWIT_MWEB_FLAG else HOGEX_FLAG] + Middle(tx, withWitness)
    + mweb + tx.locktime
  }

  // ----- reading

  function SkipBytes(buf: Bytes, offset: nat, count: nat, what: Field): (r: Read<nat>)
    requires offset <= |buf|
    ensures r.Ok? ==> offset <= r.value <= |buf| && r.value == offset + count
  {
    if count > |buf| - offset then Err(TooShort(what)) else Ok(offset + count)
  }

  datatype Size = Size(value: nat, end: nat)

  function ReadCompactSize(buf: Bytes, offset: nat, what: Field): (r: Read<Size>)
    requires offset <= |buf|
    ensures r.Ok? ==> offset < r.value.end <= |buf| && r.value.value <= MAX_SAFE_INTEGER
  {
    if offset >= |buf| then Err(TooShort(what))
    else if buf[offset] < 0xFD then Ok(Size(buf[offset], offset + 1))
    else
      var width: nat := if buf[offset] == 0xFD then 2 else if buf[offset] == 0xFE then 4 else 8;
      var end := SkipBytes(buf, offset + 1, width, what);
      if end.Err? then Err(end.error)
      else
        var value := FromLE(buf[offset + 1..end.value]);
        FromLEBound(buf[offset + 1..end.value]);
        Widths();
        if value > MAX_SAFE_INTEGER then Err(TooLarge(what)) else Ok(Size(value, end.value))
  }

  function SkipVarBytes(buf: Bytes, offset: nat, what: Field): (r: Read<nat>)
    requires offset <= |buf|
    ensures r.Ok? ==> offset < r.value <= |buf|
  {
    var length := ReadCompactSize(buf, offset, what);
    if length.Err? then Err(length.error) else SkipBytes(buf, length.value.end, length.value.value, what)
  }

  function SkipInput(buf: Bytes, offset: nat): (r: Read<nat>)
    requires offset <= |buf|
    ensures r.Ok? ==> offset + 41 <= r.value <= |buf|
  {
    var prevout := SkipBytes(buf, offset, 36, InputPrevout);
    if prevout.Err? then prevout
    else
      var script := SkipVarBytes(buf, prevout.value, InputScript);
      if script.Err? then script else SkipBytes(buf, script.value, 4, InputSequence)
  }

  function SkipOutput(buf: Bytes, offset: nat): (r: Read<nat>)
    requires offset <= |buf|
    ensures r.Ok? ==> offset + 9 <= r.value <= |buf|
  {
    var value := SkipBytes(buf, offset, 8, OutputValue);
    if value.Err? then value else SkipVarBytes(buf, value.value, OutputScript)
  }

  function SkipInputs(buf: Bytes, offset: nat, n: nat): (r: Read<nat>)
    requires offset <= |buf|
    ensures r.Ok? ==> offset + 41 * n <= r.value <= |buf|
    decreases n
  {
    if n == 0 then Ok(offset)
    else
      var next := SkipInput(buf, offset);
      if next.Err? then next else SkipInputs(buf, next.value, n - 1)
  }

  function SkipOutputs(buf: Bytes, offset: nat, n: nat): (r: Read<nat>)
    requires offset <= |buf|
    ensures r.Ok? ==> offset + 9 * n <= r.value <= |buf|
    decreases n
  {
    if n == 0 then Ok(offset)
    else
      var next := SkipOutput(buf, offset);
      if next.Err? then next else SkipOutputs(buf, next.value, n - 1)
  }

  function SkipItems(buf: Bytes, offset: nat, n: nat): (r: Read<nat>)
    requires offset <= |buf|
    ensures r.Ok? ==> offset + n <= r.value <= |buf|
    decreases n
  {
    if n == 0 then Ok(offset)
    else
      var next := SkipVarBytes(buf, offset, WitnessItem);
      if next.Err? then next else SkipItems(buf, next.value, n - 1)
  }

  function SkipStacks(buf: Bytes, offset: nat, n: nat): (r: Read<nat>)
    requires offset <= |buf|
    ensures r.Ok? ==> offset + n <= r.value <= |buf|
    decreases n
  {
    if n == 0 then Ok(offset)
    else
      var items := ReadCompactSize(buf, offset, WitnessItemCount);
      if items.Err? then Err(items.error)
      else
        var next := SkipItems(buf, items.value.end, items.value.value);
        if next.Err? then next else SkipStacks(buf, next.value, n - 1)
  }

  datatype InsOuts = InsOuts(end: nat, outsStart: nat, nIns: nat)

  function SkipInsAndOuts(buf: Bytes, offset: nat): (r: Read<InsOuts>)
    requires offset <= |buf|
    ensures r.Ok? ==> offset < r.value.outsStart < r.value.end <= |buf|
    ensures r.Ok? ==> offset + 41 * r.value.nIns < r.value.outsStart
  {
    var ins := ReadCompactSize(buf, offset, InputCount);
    if ins.Err? then Err(ins.error)
    else
      var outsStart := SkipInputs(buf, ins.value.end, ins.value.value);
      if outsStart.Err? then Err(outsStart.error)
      else
        var outs := ReadCompactSize(buf, outsStart.value, OutputCount);
        if outs.Err? then Err(outs.error)
        else
          var end := SkipOutputs(buf, outs.value.end, outs.value.value);
          if end.Err? then Err(end.error) else Ok(InsOuts(end.value, outsStart.value, ins.value.value))
  }

  lemma Widths()
    ensures Pow256(1) == 0x100 && Pow256(2) == 0x1_0000 && Pow256(4) == 0x1_0000_0000 && Pow256(8) == 0x1_0000_0000_0000_0000
    ensures Pow256(2) - 1 <= MAX_SAFE_INTEGER && Pow256(4) - 1 <= MAX_SAFE_INTEGER
  {
  }

  /** A count on any bytes: one byte below 0xFD, otherwise two, four or eight behind it, lowest first; it is
      refused when they are not there, or when it is above the largest safe integer. */
  lemma CompactSizeReads(buf: Bytes, offset: nat, what: Field)
    requires offset <= |buf|
    ensures ReadCompactSize(buf, offset, what) ==
      if |buf| == offset then Err(TooShort(what))
      else if buf[offset] < 0xFD then Ok(Size(buf[offset], offset + 1))
      else if buf[offset] == 0xFD then
        (if |buf| < offset + 3 then Err(TooShort(what)) else Ok(Size(Half(buf, offset + 1), offset + 3)))
      else if buf[offset] == 0xFE then
        (if |buf| < offset + 5 then Err(TooShort(what)) else Ok(Size(Word(buf, offset + 1), offset + 5)))
      else if |buf| < offset + 9 then Err(TooShort(what))
      else
        var n := Word(buf, offset + 1) + 0x1_0000_0000 * Word(buf, offset + 5);
        if n > 9007199254740991 then Err(TooLarge(what)) else Ok(Size(n, offset + 9))
  {
    hide FromLE, Half, Word;
    var o := offset + 1;
    SameNumbers(buf, o);
    if |buf| >= o + 2 {
      FromLEHalf(buf[o..o + 2]);
      FromLEBound(buf[o..o + 2]);
    }
    if |buf| >= o + 4 {
      FromLEWord(buf[o..o + 4]);
      FromLEBound(buf[o..o + 4]);
    }
    if |buf| >= o + 8 {
      FromLELong(buf, o);
    }
    Widths();
  }

  lemma SameNumbers(buf: Bytes, o: nat)
    ensures o + 2 <= |buf| ==> Half(buf[o..o + 2], 0) == Half(buf, o)
    ensures o + 4 <= |buf| ==> Word(buf[o..o + 4], 0) == Word(buf, o)
  {
  }

  // ----- the reader's loops

  method SkipMwebInsAndOuts(buf: Bytes, start: nat) returns (r: Read<InsOuts>)
    requires start <= |buf|
    ensures r == SkipInsAndOuts(buf, start)
  {
    hide ReadCompactSize, SkipInput, SkipOutput;
    var ins := ReadCompactSize(buf, start, InputCount);
    if ins.Err? {
      return Err(ins.error);
    }
    var offset: nat := ins.value.end;
    for i := 0 to ins.value.value
      invariant offset <= |buf|
      invariant SkipInputs(buf, ins.value.end, ins.value.value) == SkipInputs(buf, offset, ins.value.value - i)
    {
      var next := SkipInput(buf, offset);
      if next.Err? {
        return Err(next.error);
      }
      offset := next.value;
    }
    var outsStart := offset;
    var outs := ReadCompactSize(buf, offset, OutputCount);
    if outs.Err? {
      return Err(outs.error);
    }
    offset := outs.value.end;
    for i := 0 to outs.value.value
      invariant offset <= |buf|
      invariant SkipOutputs(buf, outs.value.end, outs.value.value) == SkipOutputs(buf, offset, outs.value.value - i)
    {
      var next := SkipOutput(buf, offset);
      if next.Err? {
        return Err(next.error);
      }
      offset := next.value;
    }
    r := Ok(InsOuts(offset, outsStart, ins.value.value));
  }

  method SkipMwebWitness(buf: Bytes, start: nat, nIns: nat) returns (r: Read<nat>)
    requires start <= |buf|
    ensures r == SkipStacks(buf, start, nIns)
  {
    var offset: nat := start;
    for i := 0 to nIns
      invariant offset <= |buf|
      invariant SkipStacks(buf, start, nIns) == SkipStacks(buf, offset, nIns - i)
    {
      var items := ReadCompactSize(buf, offset, WitnessItemCount);
      if items.Err? {
        return Err(items.error);
      }
      var at: nat := items.value.end;
      for j := 0 to items.value.value
        invariant at <= |buf|
        invariant SkipItems(buf, items.value.end, items.value.value) == SkipItems(buf, at, items.value.value - j)
      {
        var next := SkipVarBytes(buf, at, WitnessItem);
        if next.Err? {
          return Err(next.error);
        }
        at := next.value;
      }
      offset := at;
    }
    r := Ok(offset);
  }

  /** Version 1 or 2, the zero marker, and one of the two MWEB flags. */
  predicate HasMwebFlag(buf: Bytes, offset: nat)
    requires offset <= |buf|
  {
    |buf| - offset >= 6
    && (FromLE(buf[offset..offset + 4]) == 1 || FromLE(buf[offset..offset + 4]) == 2)
    && buf[offset + 4] == 0x00
    && (buf[offset + 5] == HOGEX_FLAG || buf[offset + 5] == SEGWIT_MWEB_FLAG)
  }

  /** The bytes it is called for: version 1 or 2 lowest byte first, 0x00, then 0x08 or 0x09. */
  lemma FlagBytes(buf: Bytes, offset: nat)
    requires offset <= |buf|
    ensures HasMwebFlag(buf, offset) <==>
      && offset + 6 <= |buf| && buf[offset] in {1, 2} && buf[offset + 1] == buf[offset + 2] == buf[offset + 3] == 0
      && buf[offset + 4] == 0 && buf[offset + 5] in {0x08, 0x09}
  {
    if offset + 6 <= |buf| {
      FromLEWord(buf[offset..offset + 4]);
    }
    hide FromLE;
  }

  /** What the reader returns: a transaction built here when it has no inputs, otherwise the bytes of an
      ordinary transaction for the ordinary parser. */
  datatype Parsed = Inputless(tx: Tx) | Ordinary(plain: Bytes)

  datatype ReadTx = ReadTx(parsed: Parsed, consumed: nat)

  function OutputsAt(buf: Bytes, offset: nat, n: nat): seq<TxOut>
    requires offset <= |buf| && SkipOutputs(buf, offset, n).Ok?
    decreases n
  {
    if n == 0 then []
    else
      var script := ReadCompactSize(buf, offset + 8, OutputScript).value;
      var end := script.end + script.value;
      [TxOut(buf[offset..offset + 8], buf[script.end..end])] + OutputsAt(buf, end, n - 1)
  }

  lemma OutputsStep(buf: Bytes, offset: nat, n: nat)
    requires offset <= |buf| && n > 0 && SkipOutputs(buf, offset, n).Ok?
    ensures offset + 8 <= |buf| && ReadCompactSize(buf, offset + 8, OutputScript).Ok?
    ensures var script := ReadCompactSize(buf, offset + 8, OutputScript).value;
      var end := script.end + script.value;
      && end <= |buf| && SkipOutputs(buf, end, n - 1).Ok?
      && OutputsAt(buf, offset, n) == [TxOut(buf[offset..offset + 8], buf[script.end..end])] + OutputsAt(buf, end, n - 1)
  {
    hide ReadCompactSize;
  }

  method BuildInputlessTransaction(buf: Bytes, start: nat, outsStart: nat, lockTimeAt: nat) returns (tx: Tx)
    requires start + 4 <= |buf| && lockTimeAt + 4 <= |buf| && outsStart <= |buf|
    requires ReadCompactSize(buf, outsStart, OutputCount).Ok?
    requires var outs := ReadCompactSize(buf, outsStart, OutputCount).value; SkipOutputs(buf, outs.end, outs.value).Ok?
    ensures var outs := ReadCompactSize(buf, outsStart, OutputCount).value;
      tx == Tx(buf[start..start + 4], [], OutputsAt(buf, outs.end, outs.value), [], buf[lockTimeAt..lockTimeAt + 4])
  {
    hide SkipOutputs, OutputsAt, ReadCompactSize;
    var outs := ReadCompactSize(buf, outsStart, OutputCount).value;
    var offset: nat := outs.end;
    var built: seq<TxOut> := [];
    for i := 0 to outs.value
      invariant offset <= |buf| && SkipOutputs(buf, offset, outs.value - i).Ok?
      invariant OutputsAt(buf, outs.end, outs.value) == built + OutputsAt(buf, offset, outs.value - i)
    {
      OutputsStep(buf, offset, outs.value - i);
      var value := buf[offset..offset + 8];
      var script := ReadCompactSize(buf, offset + 8, OutputScript).value;
      offset := script.end + script.value;
      built := built + [TxOut(value, buf[script.end..offset])];
    }
    NoOutputs(buf, offset);
    tx := Tx(buf[start..start + 4], [], built, [], buf[lockTimeAt..lockTimeAt + 4]);
  }

  lemma NoOutputs(buf: Bytes, offset: nat)
    requires offset <= |buf|
    ensures SkipOutputs(buf, offset, 0).Ok? && OutputsAt(buf, offset, 0) == []
  {
  }

  /** Where the lock time of a flagged transaction starts: after a null MWEB part, or four bytes before the
      end of a standalone buffer. */
  function LockTimeAt(buf: Bytes, witnessEnd: nat, standalone: bool): (r: Read<nat>)
    requires witnessEnd <= |buf|
    ensures r.Ok? ==> witnessEnd < r.value <= |buf|
  {
    var after := SkipBytes(buf, witnessEnd, 1, MwebTag);
    if after.Err? || buf[witnessEnd] == 0x00 then after
    else if !standalone then Err(MwebBodyInBlock)
    else if |buf| - 4 < after.value then Err(TooShort(LockTime))
    else Ok(|buf| - 4)
  }

  /** The parts of a flagged transaction at `start`, and its end. */
  datatype Layout = Layout(io: InsOuts, witnessEnd: nat, lockTimeAt: nat, end: nat)

  function LayoutAt(buf: Bytes, start: nat, standalone: bool): (r: Read<Layout>)
    requires start + 6 <= |buf|
    ensures r.Ok? ==>
      && start + 6 < r.value.io.outsStart < r.value.io.end <= r.value.witnessEnd < r.value.lockTimeAt
      && r.value.lockTimeAt + 4 == r.value.end <= |buf|
      && start + 6 + 41 * r.value.io.nIns < r.value.io.outsStart
  {
    var insOuts := SkipInsAndOuts(buf, start + 6);
    if insOuts.Err? then Err(insOuts.error)
    else
      var io := insOuts.value;
      var witnessEnd := if buf[start + 5] % 2 == 1 then SkipStacks(buf, io.end, io.nIns) else Ok(io.end);
      if witnessEnd.Err? then Err(witnessEnd.error)
      else
        var lockTimeAt := LockTimeAt(buf, witnessEnd.value, standalone);
        if lockTimeAt.Err? then Err(lockTimeAt.error)
        else
          var end := SkipBytes(buf, lockTimeAt.value, 4, LockTime);
          if end.Err? then Err(end.error) else Ok(Layout(io, witnessEnd.value, lockTimeAt.value, end.value))
  }

  lemma OutputsReadable(buf: Bytes, start: nat, standalone: bool)
    requires start + 6 <= |buf| && LayoutAt(buf, start, standalone).Ok?
    ensures var outsStart := LayoutAt(buf, start, standalone).value.io.outsStart;
      && ReadCompactSize(buf, outsStart, OutputCount).Ok?
      && var outs := ReadCompactSize(buf, outsStart, OutputCount).value; SkipOutputs(buf, outs.end, outs.value).Ok?
  {
    hide ReadCompactSize, SkipOutputs, SkipInputs, SkipStacks, LockTimeAt;
  }

  function InputlessAt(buf: Bytes, start: nat, l: Layout): Tx
    requires start + 4 <= |buf| && l.io.outsStart <= |buf| && l.lockTimeAt + 4 <= |buf|
    requires ReadCompactSize(buf, l.io.outsStart, OutputCount).Ok?
    requires var outs := ReadCompactSize(buf, l.io.outsStart, OutputCount).value; SkipOutputs(buf, outs.end, outs.value).Ok?
  {
    var outs := ReadCompactSize(buf, l.io.outsStart, OutputCount).value;
    Tx(buf[start..start + 4], [], OutputsAt(buf, outs.end, outs.value), [], buf[l.lockTimeAt..l.lockTimeAt + 4])
  }

  /** The ordinary serialization of what was read: the flagged bytes without marker, flag and MWEB part. */
  function PlainAt(buf: Bytes, start: nat, l: Layout): Bytes
    requires start + 6 <= l.witnessEnd <= l.lockTimeAt <= l.end <= |buf|
  {
    buf[start..start + 4] + (if buf[start + 5] % 2 == 1 then [0x00, 0x01] else [])
    + buf[start + 6..l.witnessEnd] + buf[l.lockTimeAt..l.end]
  }

  /** On every buffer the reader ends in a named error or in a transaction within the buffer. */
  function ReadFlagged(buf: Bytes, start: nat, standalone: bool): (r: Read<ReadTx>)
    requires start + 6 <= |buf|
    ensures r.Ok? ==> 11 < r.value.consumed && start + r.value.consumed <= |buf|
    ensures r.Ok? ==>
      LayoutAt(buf, start, standalone).Ok? && r.value.consumed == LayoutAt(buf, start, standalone).value.end - start
  {
    var layout := LayoutAt(buf, start, standalone);
    if layout.Err? then Err(layout.error)
    else if layout.value.io.nIns == 0 then
      OutputsReadable(buf, start, standalone);
      Ok(ReadTx(Inputless(InputlessAt(buf, start, layout.value)), layout.value.end - start))
    else
      Ok(ReadTx(Ordinary(PlainAt(buf, start, layout.value)), layout.value.end - start))
  }

  method ReadLayout(buf: Bytes, start: nat, standalone: bool) returns (r: Read<Layout>)
    requires start + 6 <= |buf|
    ensures r == LayoutAt(buf, start, standalone)
  {
    hide SkipInsAndOuts, SkipStacks, LockTimeAt;
    var insOuts := SkipMwebInsAndOuts(buf, start + 6);
    if insOuts.Err? {
      return Err(insOuts.error);
    }
    var io := insOuts.value;
    var witnessEnd: Read<nat> := Ok(io.end);
    if buf[start + 5] % 2 == 1 {
      witnessEnd := SkipMwebWitness(buf, io.end, io.nIns);
      if witnessEnd.Err? {
        return Err(witnessEnd.error);
      }
    }
    var lockTimeAt := LockTimeAt(buf, witnessEnd.value, standalone);
    if lockTimeAt.Err? {
      return Err(lockTimeAt.error);
    }
    var end := SkipBytes(buf, lockTimeAt.value, 4, LockTime);
    if end.Err? {
      return Err(end.error);
    }
    r := Ok(Layout(io, witnessEnd.value, lockTimeAt.value, end.value));
  }

  method ReadMwebFlaggedTransaction(buf: Bytes, start: nat, standalone: bool) returns (r: Read<ReadTx>)
    requires start + 6 <= |buf|
    ensures r == ReadFlagged(buf, start, standalone)
  {
    hide LayoutAt, ReadCompactSize, SkipOutputs;
    var layout := ReadLayout(buf, start, standalone);
    if layout.Err? {
      return Err(layout.error);
    }
    var l := layout.value;
    if l.io.nIns == 0 {
      OutputsReadable(buf, start, standalone);
      var tx := BuildInputlessTransaction(buf, start, l.io.outsStart, l.lockTimeAt);
      return Ok(ReadTx(Inputless(tx), l.end - start));
    }
    var withWitness := buf[start + 5] % 2 == 1;
    var plain := buf[start..start + 4] + (if withWitness then [0x00, 0x01] else [])
      + buf[start + 6..l.witnessEnd] + buf[l.lockTimeAt..l.end];
    r := Ok(ReadTx(Ordinary(plain), l.end - start));
  }

  // ----- round trips

  lemma CompactSizeBack(buf: Bytes, o: nat, n: nat, what: Field)
    requires n <= MAX_SAFE_INTEGER && At(buf, o, CompactSize(n))
    ensures ReadCompactSize(buf, o, what) == Ok(Size(n, o + |CompactSize(n)|))
  {
    Widths();
    var c := CompactSize(n);
    assert buf[o] == buf[o..o + |c|][0] == c[0];
    if n >= 0xFD {
      var w := |c| - 1;
      assert buf[o + 1..o + 1 + w] == buf[o..o + |c|][1..] == c[1..] == LE(n, w);
      LERoundTrip(n, w);
    }
  }

  lemma VarBytesBack(buf: Bytes, o: nat, b: Bytes, what: Field)
    requires |b| <= MAX_SAFE_INTEGER && At(buf, o, VarBytes(b))
    ensures SkipVarBytes(buf, o, what) == Ok(o + |VarBytes(b)|)
    ensures ReadCompactSize(buf, o, what).Ok?
    ensures var size := ReadCompactSize(buf, o, what).value; size.value == |b| && At(buf, size.end, b)
  {
    AtSplit(buf, o, CompactSize(|b|), b);
    CompactSizeBack(buf, o, |b|, what);
    hide ReadCompactSize, CompactSize;
  }

  lemma InBack(buf: Bytes, o: nat, x: TxIn)
    requires InOk(x) && At(buf, o, InBytes(x))
    ensures SkipInput(buf, o) == Ok(o + |InBytes(x)|)
  {
    hide ReadCompactSize, SkipVarBytes, VarBytes, At;
    AtSplit(buf, o, x.prevout + VarBytes(x.script), x.sequence);
    AtSplit(buf, o, x.prevout, VarBytes(x.script));
    VarBytesBack(buf, o + 36, x.script, InputScript);
    AtFits(buf, o + 36 + |VarBytes(x.script)|, x.sequence);
  }

  lemma OutBack(buf: Bytes, o: nat, x: TxOut)
    requires OutOk(x) && At(buf, o, OutBytes(x))
    ensures SkipOutput(buf, o) == Ok(o + |OutBytes(x)|)
    ensures o + 8 <= |buf| && buf[o..o + 8] == x.value && ReadCompactSize(buf, o + 8, OutputScript).Ok?
    ensures var script := ReadCompactSize(buf, o + 8, OutputScript).value;
      && script.end + script.value == o + |OutBytes(x)| <= |buf|
      && buf[script.end..script.end + script.value] == x.script
  {
    hide ReadCompactSize, SkipVarBytes, VarBytes, At;
    AtSplit(buf, o, x.value, VarBytes(x.script));
    AtFits(buf, o, x.value);
    VarBytesBack(buf, o + 8, x.script, OutputScript);
    var script := ReadCompactSize(buf, o + 8, OutputScript).value;
    AtFits(buf, script.end, x.script);
    VarBytesEnd(buf, o + 8, x.script, OutputScript);
  }

  lemma VarBytesEnd(buf: Bytes, o: nat, b: Bytes, what: Field)
    requires |b| <= MAX_SAFE_INTEGER && At(buf, o, VarBytes(b))
    ensures ReadCompactSize(buf, o, what).Ok? && ReadCompactSize(buf, o, what).value.end + |b| == o + |VarBytes(b)|
  {
    AtSplit(buf, o, CompactSize(|b|), b);
    CompactSizeBack(buf, o, |b|, what);
    hide ReadCompactSize, CompactSize;
  }

  lemma {:induction false} InsBack(buf: Bytes, o: nat, ins: seq<TxIn>)
    requires (forall i :: 0 <= i < |ins| ==> InOk(ins[i])) && o <= |buf| && At(buf, o, InsBytes(ins))
    ensures SkipInputs(buf, o, |ins|) == Ok(o + |InsBytes(ins)|)
    decreases |ins|
  {
    hide SkipInput, InBytes, At, InOk;
    if ins != [] {
      AtSplit(buf, o, InBytes(ins[0]), InsBytes(ins[1..]));
      AtFits(buf, o, InBytes(ins[0]));
      InBack(buf, o, ins[0]);
      InsBack(buf, o + |InBytes(ins[0])|, ins[1..]);
    }
  }

  lemma OutsJoin(buf: Bytes, o: nat, outs: seq<TxOut>)
    requires outs != [] && (forall i :: 0 <= i < |outs| ==> OutOk(outs[i])) && o <= |buf|
    requires SkipOutput(buf, o) == Ok(o + |OutBytes(outs[0])|) && o + 8 <= |buf| && buf[o..o + 8] == outs[0].value
    requires ReadCompactSize(buf, o + 8, OutputScript).Ok?
    requires var script := ReadCompactSize(buf, o + 8, OutputScript).value;
      && script.end + script.value == o + |OutBytes(outs[0])| <= |buf|
      && buf[script.end..script.end + script.value] == outs[0].script
    requires SkipOutputs(buf, o + |OutBytes(outs[0])|, |outs| - 1).Ok?
    requires OutputsAt(buf, o + |OutBytes(outs[0])|, |outs| - 1) == outs[1..]
    ensures SkipOutputs(buf, o, |outs|) == SkipOutputs(buf, o + |OutBytes(outs[0])|, |outs| - 1)
    ensures OutputsAt(buf, o, |outs|) == outs
  {
    hide SkipOutput, OutBytes, ReadCompactSize;
    assert outs == [outs[0]] + outs[1..];
  }

  lemma {:induction false} OutsBack(buf: Bytes, o: nat, outs: seq<TxOut>)
    requires (forall i :: 0 <= i < |outs| ==> OutOk(outs[i])) && o <= |buf| && At(buf, o, OutsBytes(outs))
    ensures SkipOutputs(buf, o, |outs|) == Ok(o + |OutsBytes(outs)|)
    ensures OutputsAt(buf, o, |outs|) == outs
    decreases |outs|
  {
    hide SkipOutput, OutBytes, At, OutOk, ReadCompactSize;
    if outs != [] {
      AtSplit(buf, o, OutBytes(outs[0]), OutsBytes(outs[1..]));
      AtFits(buf, o, OutBytes(outs[0]));
      OutBack(buf, o, outs[0]);
      OutsBack(buf, o + |OutBytes(outs[0])|, outs[1..]);
      OutsJoin(buf, o, outs);
    }
  }

  lemma {:induction false} ItemsBack(buf: Bytes, o: nat, items: seq<Bytes>)
    requires (forall i :: 0 <= i < |items| ==> |items[i]| <= MAX_SAFE_INTEGER) && o <= |buf| && At(buf, o, ItemsBytes(items))
    ensures SkipItems(buf, o, |items|) == Ok(o + |ItemsBytes(items)|)
    decreases |items|
  {
    hide SkipVarBytes, VarBytes, At, ReadCompactSize;
    if items != [] {
      AtSplit(buf, o, VarBytes(items[0]), ItemsBytes(items[1..]));
      AtFits(buf, o, VarBytes(items[0]));
      VarBytesBack(buf, o, items[0], WitnessItem);
      ItemsBack(buf, o + |VarBytes(items[0])|, items[1..]);
    }
  }

  lemma StackBack(buf: Bytes, o: nat, stack: seq<Bytes>)
    requires StackOk(stack) && o <= |buf| && At(buf, o, StackBytes(stack))
    ensures ReadCompactSize(buf, o, WitnessItemCount) == Ok(Size(|stack|, o + |CompactSize(|stack|)|))
    ensures o + |StackBytes(stack)| <= |buf|
    ensures SkipItems(buf, o + |CompactSize(|stack|)|, |stack|) == Ok(o + |StackBytes(stack)|)
  {
    hide ReadCompactSize, CompactSize, SkipItems, ItemsBytes, At;
    AtSplit(buf, o, CompactSize(|stack|), ItemsBytes(stack));
    AtFits(buf, o, CompactSize(|stack|));
    AtFits(buf, o, StackBytes(stack));
    CompactSizeBack(buf, o, |stack|, WitnessItemCount);
    ItemsBack(buf, o + |CompactSize(|stack|)|, stack);
  }

  lemma {:induction false} StacksBack(buf: Bytes, o: nat, stacks: seq<seq<Bytes>>)
    requires (forall i :: 0 <= i < |stacks| ==> StackOk(stacks[i])) && o <= |buf| && At(buf, o, WitnessBytes(stacks))
    ensures SkipStacks(buf, o, |stacks|) == Ok(o + |WitnessBytes(stacks)|)
    decreases |stacks|
  {
    hide ReadCompactSize, CompactSize, SkipItems, StackBytes, At, StackOk;
    if stacks != [] {
      AtSplit(buf, o, StackBytes(stacks[0]), WitnessBytes(stacks[1..]));
      StackBack(buf, o, stacks[0]);
      StacksBack(buf, o + |StackBytes(stacks[0])|, stacks[1..]);
    }
  }

  /** The outputs' count is read at `start` and the outputs themselves at `from`. */
  predicate OutputsRead(buf: Bytes, start: nat, outs: seq<TxOut>, from: nat) {
    start <= |buf| && from <= |buf|
    && ReadCompactSize(buf, start, OutputCount) == Ok(Size(|outs|, from))
    && SkipOutputs(buf, from, |outs|).Ok? && OutputsAt(buf, from, |outs|) == outs
  }

  /** Where the parts of a serialization's middle fall. */
  lemma InsOutsBack(buf: Bytes, o: nat, tx: Tx)
    requires TxOk(tx) && o <= |buf|
    requires At(buf, o, CompactSize(|tx.ins|) + InsBytes(tx.ins) + CompactSize(|tx.outs|) + OutsBytes(tx.outs))
    ensures var outsStart := o + |CompactSize(|tx.ins|)| + |InsBytes(tx.ins)|;
      var end := outsStart + |CompactSize(|tx.outs|)| + |OutsBytes(tx.outs)|;
      && SkipInsAndOuts(buf, o) == Ok(InsOuts(end, outsStart, |tx.ins|))
      && end <= |buf| && OutputsRead(buf, outsStart, tx.outs, outsStart + |CompactSize(|tx.outs|)|)
  {
    hide ReadCompactSize, CompactSize, SkipInputs, SkipOutputs, InsBytes, OutsBytes, At, OutputsAt, InOk, OutOk, StackOk;
    var a, b, c, d := CompactSize(|tx.ins|), InsBytes(tx.ins), CompactSize(|tx.outs|), OutsBytes(tx.outs);
    AtFour(buf, o, a, b, c, d);
    CompactSizeBack(buf, o, |tx.ins|, InputCount);
    InsBack(buf, o + |a|, tx.ins);
    CompactSizeBack(buf, o + |a| + |b|, |tx.outs|, OutputCount);
    OutsBack(buf, o + |a| + |b| + |c|, tx.outs);
  }

  lemma AtFour(buf: Bytes, o: nat, a: Bytes, b: Bytes, c: Bytes, d: Bytes)
    requires At(buf, o, a + b + c + d)
    ensures At(buf, o, a) && At(buf, o + |a|, b) && At(buf, o + |a| + |b|, c) && At(buf, o + |a| + |b| + |c|, d)
    ensures o + |a| + |b| + |c| + |d| <= |buf|
  {
    AtSplit(buf, o, a + b + c, d);
    AtSplit(buf, o, a + b, c);
    AtSplit(buf, o, a, b);
  }

  /** The MWEB part the reader can step over: null, or anything up to the lock time of a standalone buffer. */
  predicate MwebPart(buf: Bytes, start: nat, tx: Tx, withWitness: bool, mweb: Bytes, standalone: bool)
    requires TxOk(tx)
  {
    mweb == [0x00] ||
    (standalone && mweb != [] && mweb[0] != 0x00 && start + |Flagged(tx, withWitness, mweb)| == |buf|)
  }

  /** A witness comes with one stack per input, and none without. */
  predicate WitnessFits(tx: Tx, withWitness: bool) {
    if withWitness then |tx.stacks| == |tx.ins| else tx.stacks == []
  }

  lemma FlaggedParts(buf: Bytes, start: nat, tx: Tx, withWitness: bool, mweb: Bytes)
    requires TxOk(tx) && At(buf, start, Flagged(tx, withWitness, mweb))
    ensures start + 6 + |Middle(tx, withWitness)| + |mweb| + 4 == start + |Flagged(tx, withWitness, mweb)| <= |buf|
    ensures buf[start..start + 4] == tx.version && buf[start + 4] == 0x00
    ensures buf[start + 5] == if withWitness then SEGWIT_MWEB_FLAG else HOGEX_FLAG
    ensures At(buf, start + 6, Middle(tx, withWitness)) && At(buf, start + 6 + |Middle(tx, withWitness)|, mweb)
    ensures At(buf, start + 6 + |Middle(tx, withWitness)| + |mweb|, tx.locktime)
  {
    hide Middle, At;
    var flag: Bytes := [0x00, if withWitness then SEGWIT_MWEB_FLAG else HOGEX_FLAG];
    var m := Middle(tx, withWitness);
    AtSplit(buf, start, tx.version + flag + m + mweb, tx.locktime);
    AtSplit(buf, start, tx.version + flag + m, mweb);
    AtSplit(buf, start, tx.version + flag, m);
    AtSplit(buf, start, tx.version, flag);
    AtFits(buf, start, tx.version);
    AtFits(buf, start + 4, flag);
    AtFits(buf, start, Flagged(tx, withWitness, mweb));
    assert buf[start + 4] == buf[start + 4..start + 6][0] && buf[start + 5] == buf[start + 4..start + 6][1];
  }

  lemma MiddleParts(buf: Bytes, o: nat, tx: Tx, withWitness: bool)
    requires TxOk(tx) && WitnessFits(tx, withWitness) && o <= |buf| && At(buf, o, Middle(tx, withWitness))
    ensures var io := SkipInsAndOuts(buf, o);
      && io.Ok? && io.value.nIns == |tx.ins|
      && (withWitness ==> SkipStacks(buf, io.value.end, |tx.ins|) == Ok(o + |Middle(tx, withWitness)|))
      && (!withWitness ==> io.value.end == o + |Middle(tx, withWitness)|)
      && ReadCompactSize(buf, io.value.outsStart, OutputCount).Ok?
      && var outs := ReadCompactSize(buf, io.value.outsStart, OutputCount).value;
        SkipOutputs(buf, outs.end, outs.value).Ok? && OutputsAt(buf, outs.end, outs.value) == tx.outs
  {
    hide ReadCompactSize, CompactSize, InsBytes, OutsBytes, WitnessBytes, At, SkipStacks, SkipOutputs, OutputsAt, SkipInsAndOuts;
    var head := CompactSize(|tx.ins|) + InsBytes(tx.ins) + CompactSize(|tx.outs|) + OutsBytes(tx.outs);
    var tail := if withWitness then WitnessBytes(tx.stacks) else [];
    AtSplit(buf, o, head, tail);
    AtFits(buf, o + |head|, tail);
    InsOutsBack(buf, o, tx);
    if withWitness {
      StacksBack(buf, o + |head|, tx.stacks);
    }
  }

  lemma LockTimeBack(buf: Bytes, start: nat, tx: Tx, withWitness: bool, mweb: Bytes, standalone: bool)
    requires TxOk(tx) && At(buf, start, Flagged(tx, withWitness, mweb))
    requires MwebPart(buf, start, tx, withWitness, mweb, standalone)
    ensures var witnessEnd := start + 6 + |Middle(tx, withWitness)|;
      witnessEnd <= |buf| && LockTimeAt(buf, witnessEnd, standalone) == Ok(witnessEnd + |mweb|)
  {
    FlaggedParts(buf, start, tx, withWitness, mweb);
    hide Middle, Flagged;
    var witnessEnd := start + 6 + |Middle(tx, withWitness)|;
    assert buf[witnessEnd] == buf[witnessEnd..witnessEnd + |mweb|][0];
  }

  lemma LayoutBack(buf: Bytes, start: nat, tx: Tx, withWitness: bool, mweb: Bytes, standalone: bool)
    requires TxOk(tx) && WitnessFits(tx, withWitness) && At(buf, start, Flagged(tx, withWitness, mweb))
    requires MwebPart(buf, start, tx, withWitness, mweb, standalone)
    ensures start + 6 <= |buf|
    ensures var l := LayoutAt(buf, start, standalone); var middleEnd := start + 6 + |Middle(tx, withWitness)|;
      && l.Ok? && l.value.io.nIns == |tx.ins| && l.value.witnessEnd == middleEnd
      && l.value.lockTimeAt == middleEnd + |mweb| && l.value.end == start + |Flagged(tx, withWitness, mweb)|
      && ReadCompactSize(buf, l.value.io.outsStart, OutputCount).Ok?
      && var outs := ReadCompactSize(buf, l.value.io.outsStart, OutputCount).value;
        SkipOutputs(buf, outs.end, outs.value).Ok? && OutputsAt(buf, outs.end, outs.value) == tx.outs
  {
    hide Middle, Flagged, At, ReadCompactSize, SkipOutputs, OutputsAt, SkipInsAndOuts, SkipStacks, LockTimeAt, MwebPart;
    FlaggedParts(buf, start, tx, withWitness, mweb);
    MiddleParts(buf, start + 6, tx, withWitness);
    LockTimeBack(buf, start, tx, withWitness, mweb, standalone);
  }

  /** Reading a flagged transaction consumes exactly its bytes and hands on exactly its ordinary
      serialization; one without inputs comes back field by field. In a block the MWEB part is null and
      anything may follow; a standalone buffer may carry any MWEB body. */
  lemma FlaggedRoundTrip(buf: Bytes, start: nat, tx: Tx, withWitness: bool, mweb: Bytes, standalone: bool)
    requires TxOk(tx) && WitnessFits(tx, withWitness) && At(buf, start, Flagged(tx, withWitness, mweb))
    requires MwebPart(buf, start, tx, withWitness, mweb, standalone)
    ensures start + 6 <= |buf|
    ensures ReadFlagged(buf, start, standalone) ==
      Ok(ReadTx(if tx.ins == [] then Inputless(tx) else Ordinary(Plain(tx, withWitness)), |Flagged(tx, withWitness, mweb)|))
  {
    hide Middle, ReadCompactSize, SkipOutputs, OutputsAt, LayoutAt, MwebPart, TxOk;
    LayoutBack(buf, start, tx, withWitness, mweb, standalone);
    FlaggedParts(buf, start, tx, withWitness, mweb);
  }

  /** Such a transaction of version 1 or 2 is the form the reader is called for. */
  lemma FlaggedIsRecognised(buf: Bytes, start: nat, tx: Tx, withWitness: bool, mweb: Bytes)
    requires TxOk(tx) && At(buf, start, Flagged(tx, withWitness, mweb)) && |mweb| > 0
    ensures start <= |buf| && (HasMwebFlag(buf, start) <==> FromLE(tx.version) == 1 || FromLE(tx.version) == 2)
  {
    FlaggedParts(buf, start, tx, withWitness, mweb);
  }

  /** A non-null MWEB part inside a block is refused by name: nothing there records its length. */
  lemma BodyInBlockRefused(buf: Bytes, start: nat, tx: Tx, withWitness: bool, mweb: Bytes)
    requires TxOk(tx) && WitnessFits(tx, withWitness) && At(buf, start, Flagged(tx, withWitness, mweb))
    requires mweb != [] && mweb[0] != 0x00
    ensures start + 6 <= |buf| && ReadFlagged(buf, start, false) == Err(MwebBodyInBlock)
  {
    hide Middle, Flagged, At, ReadCompactSize, SkipOutputs, OutputsAt, SkipInsAndOuts, SkipStacks, LockTimeAt;
    FlaggedParts(buf, start, tx, withWitness, mweb);
    MiddleParts(buf, start + 6, tx, withWitness);
    BodyRefused(buf, start + 6 + |Middle(tx, withWitness)|, mweb);
  }

  lemma BodyRefused(buf: Bytes, witnessEnd: nat, mweb: Bytes)
    requires At(buf, witnessEnd, mweb) && mweb != [] && mweb[0] != 0x00
    ensures LockTimeAt(buf, witnessEnd, false) == Err(MwebBodyInBlock)
  {
    assert buf[witnessEnd] == buf[witnessEnd..witnessEnd + |mweb|][0];
  }

  /** A buffer that ends inside a field is refused by that field's name. */
  lemma ShortFieldNamed(buf: Bytes, offset: nat, n: nat)
    requires offset <= |buf| && n > 0
    ensures |buf| - offset < 36 ==> SkipInput(buf, offset) == Err(TooShort(InputPrevout))
    ensures |buf| - offset == 36 ==> SkipInput(buf, offset) == Err(TooShort(InputScript))
    ensures |buf| - offset < 8 ==> SkipOutput(buf, offset) == Err(TooShort(OutputValue))
    ensures |buf| - offset == 8 ==> SkipOutput(buf, offset) == Err(TooShort(OutputScript))
    ensures |buf| == offset ==>
      && SkipInsAndOuts(buf, offset) == Err(TooShort(InputCount)) && SkipStacks(buf, offset, n) == Err(TooShort(WitnessItemCount))
      && SkipItems(buf, offset, n) == Err(TooShort(WitnessItem))
    ensures |buf| == offset ==> forall standalone :: LockTimeAt(buf, offset, standalone) == Err(TooShort(MwebTag))
    ensures |buf| - offset < 5 && |buf| > offset && buf[offset] != 0x00 ==> LockTimeAt(buf, offset, true) == Err(TooShort(LockTime))
    ensures |buf| - offset == 41 && buf[offset + 36] == 1 ==> SkipInput(buf, offset) == Err(TooShort(InputSequence))
  {
    if |buf| - offset == 41 && buf[offset + 36] == 1 {
      CompactSizeReads(buf, offset + 36, InputScript);
    }
  }

  /** A count of inputs or outputs that reads at all is backed by that many bytes. */
  lemma CountsAreBacked(buf: Bytes, offset: nat)
    requires offset <= |buf| && SkipInsAndOuts(buf, offset).Ok?
    ensures var io := SkipInsAndOuts(buf, offset).value;
      && 41 * io.nIns < |buf| && ReadCompactSize(buf, io.outsStart, OutputCount).Ok?
      && 9 * ReadCompactSize(buf, io.outsStart, OutputCount).value.value < |buf|
  {
    hide ReadCompactSize, SkipInputs, SkipOutputs;
  }
}
