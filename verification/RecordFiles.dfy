/** The bulk writers' record files and the check that an earlier run left one complete.

    A file is a header, rewritten with the record count on close, and the records behind it. Fixed-length
    records go into a buffer that is flushed when it is full; records of varying length go into one that also
    grows to take them. The completeness check reads the count back and, when records are of one length,
    compares it with the file's size. */
module RecordFiles {
  import opened ByteCodec

  const HEADER_SIZE: nat := 64
  const FLUSH_BATCH_BYTES: nat := 0x4_0000
  const FILE_VERSION: nat := 2
  const COUNT_AT: nat := 20
  const U32: nat := 0x1_0000_0000
  const U64: nat := 0x1_0000_0000_0000_0000

  datatype Head = Head(magic: Bytes, chainCode: Byte, netCode: Byte, firstHeight: nat, lastHeight: nat, recordSize: nat)

  predicate HeadOk(h: Head) {
    |h.magic| == 8 && h.firstHeight < U32 && h.lastHeight < U32 && h.recordSize < U32
  }

  /** The 64-byte header with the given record count. */
  function HeaderBytes(h: Head, count: nat): (r: Bytes)
    requires HeadOk(h) && count < U64
    ensures |r| == HEADER_SIZE
  {
    h.magic + [h.chainCode, h.netCode] + LE(FILE_VERSION, 2) + LE(h.firstHeight, 4) + LE(h.lastHeight, 4)
    + LE(count, 8) + LE(h.recordSize, 4) + seq(32, _ => 0)
  }

  function Flat(records: seq<Bytes>): Bytes {
    if records == [] then [] else Flat(records[..|records| - 1]) + records[|records| - 1]
  }

  lemma {:induction false} FlatAppend(a: seq<Bytes>, b: seq<Bytes>)
    ensures Flat(a + b) == Flat(a) + Flat(b)
  {
    if b == [] {
      assert a + b == a;
    } else {
      assert (a + b)[..|a + b| - 1] == a + b[..|b| - 1];
      FlatAppend(a, b[..|b| - 1]);
    }
  }

  lemma {:induction false} FlatSize(records: seq<Bytes>, size: nat)
    requires forall i :: 0 <= i < |records| ==> |records[i]| == size
    ensures |Flat(records)| == |records| * size
  {
    if records != [] {
      FlatSize(records[..|records| - 1], size);
    }
  }

  /** Writing the count over the eight bytes kept for it. */
  function Backfilled(file: Bytes, count: nat): Bytes
    requires |file| >= HEADER_SIZE
  {
    file[..COUNT_AT] + LE(count, 8) + file[COUNT_AT + 8..]
  }

  lemma BackfillsHeader(h: Head, data: Bytes, count: nat)
    requires HeadOk(h) && count < U64
    ensures Backfilled(HeaderBytes(h, 0) + data, count) == HeaderBytes(h, count) + data
  {
    var file := HeaderBytes(h, 0) + data;
    var front := h.magic + [h.chainCode, h.netCode] + LE(FILE_VERSION, 2) + LE(h.firstHeight, 4) + LE(h.lastHeight, 4);
    var back := LE(h.recordSize, 4) + seq(32, _ => 0);
    assert file == front + LE(0, 8) + (back + data);
    assert file[..COUNT_AT] == front && file[COUNT_AT + 8..] == back + data;
  }

  /** Midway: the file has all but the last `n` records, the buffer has those. */
  ghost predicate Buffering(h: Head, file: Bytes, buffered: Bytes, records: seq<Bytes>, n: nat)
    requires HeadOk(h)
  {
    && n <= |records|
    && file == HeaderBytes(h, 0) + Flat(records[..|records| - n]) && buffered == Flat(records[|records| - n..])
  }

  lemma BufferEmpty(h: Head, file: Bytes, records: seq<Bytes>)
    requires HeadOk(h) && file == HeaderBytes(h, 0) + Flat(records)
    ensures Buffering(h, file, [], records, 0)
  {
    assert records[..|records|] == records && records[|records|..] == [];
  }

  lemma BufferMore(h: Head, file: Bytes, buffered: Bytes, records: seq<Bytes>, n: nat, record: Bytes)
    requires HeadOk(h) && Buffering(h, file, buffered, records, n)
    ensures Buffering(h, file, buffered + record, records + [record], n + 1)
  {
    var all, tail := records + [record], records[|records| - n..];
    assert all[..|all| - (n + 1)] == records[..|records| - n] && all[|all| - (n + 1)..] == tail + [record];
    assert (tail + [record])[..|tail|] == tail;
  }

  lemma BufferFlushed(h: Head, file: Bytes, buffered: Bytes, records: seq<Bytes>, n: nat)
    requires HeadOk(h) && Buffering(h, file, buffered, records, n)
    ensures file + buffered == HeaderBytes(h, 0) + Flat(records)
  {
    hide HeaderBytes, Flat;
    var a, b := records[..|records| - n], records[|records| - n..];
    FlatAppend(a, b);
    assert a + b == records;
    assert (HeaderBytes(h, 0) + Flat(a)) + Flat(b) == HeaderBytes(h, 0) + (Flat(a) + Flat(b));
  }

  /** Writer of fixed-size records: a scratch buffer of whole records, flushed when it is full. */
  class FixedRecordWriter {
    const head: Head
    const batchCap: nat
    const batch: array<Byte>
    var file: Bytes
    var batchLen: nat
    var count: nat
    var closed: bool
    /** What has been appended, in order. */
    ghost var records: seq<Bytes>

    constructor (head: Head)
      requires HeadOk(head) && head.recordSize > 0
      ensures Valid() && fresh(batch) && records == [] && !closed && this.head == head
    {
      this.head := head;
      var cap := if FLUSH_BATCH_BYTES / head.recordSize > 1 then FLUSH_BATCH_BYTES / head.recordSize else 1;
      batchCap := cap;
      file := HeaderBytes(head, 0);
      batch := new Byte[cap * head.recordSize];
      batchLen, count, closed, records := 0, 0, false, [];
      new;
      assert batch[..0] == [];
      BufferEmpty(head, file, []);
    }

    function SlotOffset(): nat
      reads this
    {
      batchLen * head.recordSize
    }

    /** Everything appended is on disk or in the buffer, in order, and counted. */
    ghost predicate Valid()
      reads this, batch
    {
      Sized() && (if closed then file == HeaderBytes(head, count) + Flat(records) else batchLen < batchCap && Holding())
    }

    ghost predicate Sized()
      reads this
    {
      && HeadOk(head) && head.recordSize > 0 && batchCap > 0 && batch.Length == batchCap * head.recordSize
      && count == |records| && count < U64 && batchLen <= batchCap && SlotOffset() <= batch.Length
      && (forall i :: 0 <= i < |records| ==> |records[i]| == head.recordSize)
    }

    ghost predicate Holding()
      requires Sized()
      reads this, batch
    {
      Buffering(head, file, batch[..SlotOffset()], records, batchLen)
    }

    /** Packs a record into the next slot and advances, flushing a full buffer. */
    method Append(record: Bytes)
      requires Valid() && !closed && |record| == head.recordSize && count + 1 < U64
      modifies this, batch
      ensures Valid() && !closed && records == old(records) + [record]
    {
      hide Buffering, HeaderBytes, Flat;
      SlotFits(batchLen, batchCap, head.recordSize);
      BufferMore(head, file, batch[..SlotOffset()], records, batchLen, record);
      CopyIn(SlotOffset(), record);
      records := records + [record];
      batchLen, count := batchLen + 1, count + 1;
      if batchLen == batchCap {
        Flush();
      }
    }

    method CopyIn(off: nat, record: Bytes)
      requires off + |record| <= batch.Length
      modifies batch
      ensures batch[..off + |record|] == old(batch[..off]) + record
    {
      for k := 0 to |record|
        invariant batch[..off] == old(batch[..off]) && batch[off..off + k] == record[..k]
      {
        batch[off + k] := record[k];
      }
    }

    /** Writes the buffered records out; where that happens makes no difference to the file. */
    method Flush()
      requires Sized() && Holding() && !closed
      modifies this`file, this`batchLen
      ensures Valid() && batchLen == 0 && file == HeaderBytes(head, 0) + Flat(records)
    {
      hide HeaderBytes, Flat;
      BufferFlushed(head, file, batch[..SlotOffset()], records, batchLen);
      file := file + batch[..SlotOffset()];
      batchLen := 0;
      BufferEmpty(head, file, records);
      assert batch[..0] == [];
    }

    /** Flushes what is left and back-fills the count; the file then passes for complete. */
    method Close()
      requires Valid()
      modifies this`file, this`batchLen, this`closed
      ensures Valid() && closed
      ensures file == HeaderBytes(head, |records|) + Flat(records)
      ensures ExistingDatLooksComplete(file)
    {
      hide HeaderBytes, Flat, Backfilled, ExistingDatLooksComplete;
      FixedFilePasses(head, count, records);
      if closed {
        return;
      }
      Flush();
      closed := true;
      BackfillsHeader(head, Flat(records), count);
      file := Backfilled(file, count);
    }
  }

  lemma SlotFits(batchLen: nat, batchCap: nat, size: nat)
    requires batchLen < batchCap
    ensures batchLen * size + size == (batchLen + 1) * size <= batchCap * size
  {
  }

  // ----- reusing a finished file

  /** A fixed-record file is complete when its size is what its count says; a variable one when it has a
      count at all, which only closing gives it. */
  predicate ExistingDatLooksComplete(file: Bytes) {
    if |file| < HEADER_SIZE then false
    else
      var count, recordSize := FromLE(file[COUNT_AT..COUNT_AT + 8]), FromLE(file[28..32]);
      if recordSize > 0 then |file| == HEADER_SIZE + count * recordSize else count != 0
  }

  lemma HeaderReads(h: Head, count: nat, data: Bytes)
    requires HeadOk(h) && count < U64
    ensures FromLE((HeaderBytes(h, count) + data)[COUNT_AT..COUNT_AT + 8]) == count
    ensures FromLE((HeaderBytes(h, count) + data)[28..32]) == h.recordSize
  {
    var file := HeaderBytes(h, count) + data;
    var front := h.magic + [h.chainCode, h.netCode] + LE(FILE_VERSION, 2) + LE(h.firstHeight, 4) + LE(h.lastHeight, 4);
    assert file == front + LE(count, 8) + LE(h.recordSize, 4) + (seq(32, _ => 0) + data);
    assert file[COUNT_AT..COUNT_AT + 8] == LE(count, 8) && file[28..32] == LE(h.recordSize, 4);
    assert Pow256(4) == U32 && Pow256(8) == U64;
    LERoundTrip(count, 8);
    LERoundTrip(h.recordSize, 4);
  }

  /** A header byte by byte: where each field stands, and that every number has its lowest byte first. */
  predicate Layout(b: Bytes, h: Head, count: nat) {
    && |b| >= 64 && b[..8] == h.magic && b[8] == h.chainCode && b[9] == h.netCode && b[10] == 2 && b[11] == 0
    && Word(b, 12) == h.firstHeight && Word(b, 16) == h.lastHeight
    && Word(b, 20) + 0x1_0000_0000 * Word(b, 24) == count && Word(b, 28) == h.recordSize
    && forall i :: 32 <= i < 64 ==> b[i] == 0
  }

  /** Every header written has this layout, before and after its count is filled in. */
  lemma HeaderLayout(h: Head, count: nat, data: Bytes)
    requires HeadOk(h) && count < U64
    ensures Layout(HeaderBytes(h, count) + data, h, count)
  {
    var b := HeaderBytes(h, count) + data;
    var a := h.magic + [h.chainCode, h.netCode];
    var version, first, last := LE(FILE_VERSION, 2), LE(h.firstHeight, 4), LE(h.lastHeight, 4);
    var number, size := LE(count, 8), LE(h.recordSize, 4);
    assert version == [2, 0];
    assert b == a + version + first + last + number + size + (seq(32, _ => 0) + data);
    assert b[..8] == h.magic && b[8] == h.chainCode && b[9] == h.netCode && b[10] == 2 && b[11] == 0;
    assert b[12..16] == first && b[16..20] == last && b[28..32] == size;
    HeaderReads(h, count, data);
    hide LE, Word;
    WordBack(b, 12, h.firstHeight);
    WordBack(b, 16, h.lastHeight);
    WordBack(b, 28, h.recordSize);
    FromLELong(b, 20);
  }

  /** The check on a file's own bytes: the count at 20 and the record size at 28 against the file's size. */
  lemma CheckReads(file: Bytes)
    ensures ExistingDatLooksComplete(file) <==>
      && |file| >= 64
      && var count := Word(file, 20) + 0x1_0000_0000 * Word(file, 24);
      && (if Word(file, 28) > 0 then |file| == 64 + count * Word(file, 28) else count > 0)
  {
    if |file| >= 64 {
      FromLELong(file, 20);
      FromLEWord(file[28..32]);
      hide FromLE;
    }
  }

  /** A fixed-record file passes exactly when its count is the number of records it holds: so every closed
      one passes, an empty stream included, and one left open after flushing records does not. */
  lemma FixedFilePasses(h: Head, count: nat, records: seq<Bytes>)
    requires HeadOk(h) && h.recordSize > 0 && count < U64
    requires forall i :: 0 <= i < |records| ==> |records[i]| == h.recordSize
    ensures ExistingDatLooksComplete(HeaderBytes(h, count) + Flat(records)) <==> count == |records|
  {
    HeaderReads(h, count, Flat(records));
    FlatSize(records, h.recordSize);
    SameProduct(count, |records|, h.recordSize);
  }

  lemma SameProduct(a: nat, b: nat, size: nat)
    requires size > 0
    ensures a * size == b * size <==> a == b
  {
    if a * size == b * size {
      assert (a - b) * size == 0;
    }
  }

  /** A variable-length file passes exactly when its count is not zero. */
  lemma VariableFilePasses(h: Head, count: nat, data: Bytes)
    requires HeadOk(h) && h.recordSize == 0 && count < U64
    ensures ExistingDatLooksComplete(HeaderBytes(h, count) + data) <==> count != 0
  {
    HeaderReads(h, count, data);
  }

  // ----- the variable-length writer

  /** Writer of block records of any size; the buffer is modelled by its used part and its capacity. */
  class MetaWriter {
    const head: Head
    var file: Bytes
    var buffered: Bytes
    var capacity: nat
    var count: nat
    var closed: bool
    ghost var records: seq<Bytes>

    constructor (head: Head)
      requires HeadOk(head) && head.recordSize == 0
      ensures Valid() && records == [] && !closed && this.head == head
    {
      this.head := head;
      file, buffered, capacity, count, closed, records := HeaderBytes(head, 0), [], FLUSH_BATCH_BYTES, 0, false, [];
    }

    ghost predicate Valid()
      reads this
    {
      && HeadOk(head) && head.recordSize == 0 && count == |records| && count < U64 && |buffered| <= capacity
      && (!closed ==> file + buffered == HeaderBytes(head, 0) + Flat(records) && |file| >= HEADER_SIZE)
      && (closed ==> file == HeaderBytes(head, count) + Flat(records))
    }

    /** Makes room: flushes when the record does not fit behind what is buffered, and grows the buffer when
        it would not fit at all. */
    method Ensure(needed: nat)
      requires Valid() && !closed
      modifies this`file, this`buffered, this`capacity
      ensures Valid() && |buffered| + needed <= capacity
    {
      if |buffered| + needed <= capacity {
        return;
      }
      Flush();
      if needed > capacity {
        capacity := needed;
      }
    }

    method WriteBlock(record: Bytes)
      requires Valid() && !closed && count + 1 < U64
      modifies this
      ensures Valid() && !closed && records == old(records) + [record]
    {
      hide HeaderBytes;
      Ensure(|record|);
      hide Flat;
      assert file + (buffered + record) == (file + buffered) + record;
      buffered := buffered + record;
      records := records + [record];
      count := count + 1;
    }

    method Flush()
      requires Valid() && !closed
      modifies this`file, this`buffered
      ensures Valid() && buffered == []
    {
      file := file + buffered;
      buffered := [];
      assert file + [] == file;
    }

    /** The closed file passes for complete exactly when it has a block in it. */
    method Close()
      requires Valid()
      modifies this`file, this`buffered, this`closed
      ensures Valid() && closed && file == HeaderBytes(head, |records|) + Flat(records)
      ensures ExistingDatLooksComplete(file) <==> records != []
    {
      hide HeaderBytes, Flat, Backfilled, ExistingDatLooksComplete;
      VariableFilePasses(head, count, Flat(records));
      if closed {
        return;
      }
      Flush();
      assert file + [] == file;
      BackfillsHeader(head, Flat(records), count);
      file := Backfilled(file, count);
      closed := true;
    }
  }

  // ----- the sort key

  /** The `w` low bytes of `n`, highest first. */
  function BE(n: nat, w: nat): (r: Bytes)
    ensures |r| == w
  {
    if w == 0 then [] else BE(n / 256, w - 1) + [n % 256]
  }

  lemma {:induction false} CompareAppend(a: Bytes, b: Bytes, x: Bytes, y: Bytes)
    requires |a| == |b|
    ensures Compare(a + x, b + y) == if Compare(a, b) != 0 then Compare(a, b) else Compare(x, y)
  {
    if a == [] {
      assert a + x == x && b + y == y;
    } else {
      assert (a + x)[1..] == a[1..] + x && (b + y)[1..] == b[1..] + y;
      CompareAppend(a[1..], b[1..], x, y);
    }
  }

  lemma {:induction false} CompareBE(n: nat, m: nat, w: nat)
    requires n < Pow256(w) && m < Pow256(w)
    ensures Compare(BE(n, w), BE(m, w)) == if n < m then -1 else if n == m then 0 else 1
  {
    if w > 0 {
      CompareBE(n / 256, m / 256, w - 1);
      CompareAppend(BE(n / 256, w - 1), BE(m / 256, w - 1), [n % 256], [m % 256]);
    }
  }

  function KeyBytes(txid: Bytes, vout: nat): Bytes {
    txid + BE(vout, 4)
  }

  /** Byte order of the 36-byte key is (txid, vout) order. */
  lemma KeyOrder(txid: Bytes, vout: nat, txid': Bytes, vout': nat)
    requires |txid| == 32 && |txid'| == 32 && vout < U32 && vout' < U32
    ensures Compare(KeyBytes(txid, vout), KeyBytes(txid', vout')) < 0 <==>
      Compare(txid, txid') < 0 || (txid == txid' && vout < vout')
    ensures KeyBytes(txid, vout) == KeyBytes(txid', vout') <==> txid == txid' && vout == vout'
  {
    assert Pow256(4) == U32;
    CompareAppend(txid, txid', BE(vout, 4), BE(vout', 4));
    CompareBE(vout, vout', 4);
    CompareTotal(txid, txid');
    CompareTotal(KeyBytes(txid, vout), KeyBytes(txid', vout'));
  }
}
