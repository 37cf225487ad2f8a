/** The .xdmp dump format: its writer, its reader, and how a height range is cut into files. */
module Xdmp {
  import opened ByteCodec

  /** One block as dumped: `hash` is the 32-byte block hash. */
  datatype Dumped = Dumped(height: nat, hash: Bytes, data: Bytes)
  datatype DumpHeader = DumpHeader(chainCode: nat, netCode: nat, firstHeight: nat, lastHeight: nat, tipAtDump: nat)

  datatype Error =
    | ShortHeader | BadMagic | UnknownChain | UnknownNetwork | BadVersion | CountMismatch
    | ShortPrefix | BadSize | HeightGap | ShortData

  datatype Result<+T> = Ok(value: T) | Err(error: Error)

  const HEADER_SIZE: nat := 64
  const RECORD_PREFIX: nat := 40
  const MAX_BLOCK_SIZE: nat := 0x200_0000
  const FILE_VERSION: nat := 1
  const MAGIC: Bytes := [0x58, 0x43, 0x48, 0x4E, 0x44, 0x4D, 0x50, 0x31]   // XCHNDMP1
  const U32: nat := 0x1_0000_0000

  // ----- writing

  predicate HeaderFits(h: DumpHeader) {
    && 1 <= h.chainCode <= 3 && 1 <= h.netCode <= 3 && h.firstHeight <= h.lastHeight
    && h.lastHeight < U32 && h.lastHeight - h.firstHeight + 1 < U32 && h.tipAtDump < U32
  }

  function Zeros(n: nat): (r: Bytes)
    ensures |r| == n
  {
    seq(n, _ => 0)
  }

  function MakeHeader(h: DumpHeader): (r: Bytes)
    requires HeaderFits(h)
    ensures |r| == HEADER_SIZE
  {
    MAGIC + [h.chainCode] + [h.netCode] + LE(FILE_VERSION, 2) + LE(h.firstHeight, 4) + LE(h.lastHeight, 4)
    + LE(h.lastHeight - h.firstHeight + 1, 4) + LE(h.tipAtDump, 4) + Zeros(36)
  }

  /** The writer refuses an empty or oversized block and a hash that is not 32 bytes. */
  predicate Writable(b: Dumped) {
    0 < |b.data| <= MAX_BLOCK_SIZE && |b.hash| == 32 && b.height < U32
  }

  function RecordBytes(b: Dumped): (r: Bytes)
    ensures |r| == 8 + |b.hash| + |b.data|
  {
    LE(|b.data|, 4) + LE(b.height, 4) + b.hash + b.data
  }

  function RecordsBytes(blocks: seq<Dumped>): Bytes {
    if blocks == [] then [] else RecordBytes(blocks[0]) + RecordsBytes(blocks[1..])
  }

  lemma {:induction false} RecordsAppend(blocks: seq<Dumped>, b: Dumped)
    ensures RecordsBytes(blocks + [b]) == RecordsBytes(blocks) + RecordBytes(b)
  {
    if blocks == [] {
      assert RecordsBytes([b]) == RecordBytes(b) + RecordsBytes([]);
    } else {
      assert (blocks + [b])[1..] == blocks[1..] + [b];
      RecordsAppend(blocks[1..], b);
    }
  }

  /** Writes the records one after another; the first block it refuses ends the dump. */
  method WriteBlockRecords(blocks: seq<Dumped>) returns (file: Bytes, refused: bool)
    requires forall b :: b in blocks ==> b.height < U32
    ensures refused <==> exists i :: 0 <= i < |blocks| && !Writable(blocks[i])
    ensures !refused <==>
      forall i :: 0 <= i < |blocks| ==> 0 < |blocks[i].data| <= 32 * 1024 * 1024 && |blocks[i].hash| == 32
    ensures !refused ==> file == RecordsBytes(blocks)
  {
    file := [];
    for i := 0 to |blocks|
      invariant file == RecordsBytes(blocks[..i])
      invariant forall j :: 0 <= j < i ==> Writable(blocks[j])
    {
      var b := blocks[i];
      if |b.data| == 0 || |b.data| > MAX_BLOCK_SIZE || |b.hash| != 32 {
        return file, true;
      }
      RecordsAppend(blocks[..i], b);
      assert blocks[..i + 1] == blocks[..i] + [b];
      file := file + (LE(|b.data|, 4) + LE(b.height, 4) + b.hash + b.data);
    }
    assert blocks[..|blocks|] == blocks;
    refused := false;
  }

  // ----- reading

  function U16At(buf: Bytes, o: nat): nat
    requires o + 2 <= |buf|
  {
    FromLE(buf[o..o + 2])
  }

  function U32At(buf: Bytes, o: nat): nat
    requires o + 4 <= |buf|
  {
    FromLE(buf[o..o + 4])
  }

  function ReadHeader(file: Bytes): Result<DumpHeader> {
    if |file| < HEADER_SIZE then Err(ShortHeader)
    else if file[..8] != MAGIC then Err(BadMagic)
    else if !(1 <= file[8] <= 3) then Err(UnknownChain)
    else if !(1 <= file[9] <= 3) then Err(UnknownNetwork)
    else if U16At(file, 10) != FILE_VERSION then Err(BadVersion)
    else if U32At(file, 20) != U32At(file, 16) - U32At(file, 12) + 1 then Err(CountMismatch)
    else Ok(DumpHeader(file[8], file[9], U32At(file, 12), U32At(file, 16), U32At(file, 24)))
  }

  /** One record at `pos`, which must carry the expected height. */
  function RecordAt(file: Bytes, pos: nat, expected: nat): (r: Result<Dumped>)
    requires pos <= |file|
    ensures r.Ok? ==> pos + 40 + |r.value.data| <= |file| && r.value.height == expected
  {
    if |file| - pos < RECORD_PREFIX then Err(ShortPrefix)
    else
      var size := U32At(file, pos);
      if size == 0 || size > MAX_BLOCK_SIZE then Err(BadSize)
      else if U32At(file, pos + 4) != expected then Err(HeightGap)
      else if |file| - (pos + RECORD_PREFIX) < size then Err(ShortData)
      else Ok(Dumped(expected, file[pos + 8..pos + 40], file[pos + 40..pos + 40 + size]))
  }

  /** The records from `pos` on, `left` of them, heights counting up from `expected`. */
  function ReadRecords(file: Bytes, pos: nat, expected: nat, left: nat): Result<seq<Dumped>>
    requires pos <= |file|
    decreases left
  {
    if left == 0 then Ok([])
    else
      var b := RecordAt(file, pos, expected);
      if b.Err? then Err(b.error)
      else
        var rest := ReadRecords(file, pos + 40 + |b.value.data|, expected + 1, left - 1);
        if rest.Err? then rest else Ok([b.value] + rest.value)
  }

  function ReadDump(file: Bytes): Result<seq<Dumped>> {
    var h := ReadHeader(file);
    if h.Err? then Err(h.error)
    else ReadRecords(file, HEADER_SIZE, h.value.firstHeight, U32At(file, 20))
  }

  /** The reader object: its place in the file, and the generator that yields block after block. */
  class XdmpReader {
    const file: Bytes
    var pos: nat
    var firstHeight: nat
    var lastHeight: nat
    var blockCount: nat

    /** A file whose header has passed the checks. */
    constructor (file: Bytes)
      requires ReadHeader(file).Ok?
      ensures this.file == file && pos == HEADER_SIZE
      ensures firstHeight == ReadHeader(file).value.firstHeight && lastHeight == ReadHeader(file).value.lastHeight
      ensures blockCount == U32At(file, 20)
    {
      this.file := file;
      pos := HEADER_SIZE;
      firstHeight, lastHeight, blockCount := U32At(file, 12), U32At(file, 16), U32At(file, 20);
    }

    /** One step of the generator. */
    method NextBlock(prevHeight: int) returns (r: Result<Dumped>)
      requires pos <= |file| && prevHeight >= -1
      modifies `pos
      ensures r == RecordAt(file, old(pos), prevHeight + 1)
      ensures pos == if r.Ok? then old(pos) + 40 + |r.value.data| else old(pos)
    {
      if |file| - pos < RECORD_PREFIX {
        return Err(ShortPrefix);
      }
      var blockSize, height := U32At(file, pos), U32At(file, pos + 4);
      if blockSize == 0 || blockSize > MAX_BLOCK_SIZE {
        return Err(BadSize);
      }
      if height != prevHeight + 1 {
        return Err(HeightGap);
      }
      if |file| - (pos + RECORD_PREFIX) < blockSize {
        return Err(ShortData);
      }
      r := Ok(Dumped(height, file[pos + 8..pos + 40], file[pos + 40..pos + 40 + blockSize]));
      pos := pos + RECORD_PREFIX + blockSize;
    }

    method Blocks() returns (r: Result<seq<Dumped>>)
      requires ReadHeader(file).Ok? && pos == HEADER_SIZE
      requires firstHeight == ReadHeader(file).value.firstHeight && blockCount == U32At(file, 20)
      modifies `pos
      ensures r == ReadDump(file)
    {
      hide RecordAt, Joined;
      var prevHeight: int := firstHeight - 1;
      var blocksRead := 0;
      var yielded: seq<Dumped> := [];
      JoinNone(ReadDump(file));
      assert pos <= |file|;
      hide ReadHeader, U32At;
      while blocksRead < blockCount
        invariant blocksRead <= blockCount && pos <= |file| && prevHeight == firstHeight - 1 + blocksRead
        invariant Joined(yielded, ReadRecords(file, pos, firstHeight + blocksRead, blockCount - blocksRead)) == ReadDump(file)
      {
        JoinFault(yielded, ReadRecords(file, pos, firstHeight + blocksRead, blockCount - blocksRead));
        var b := NextBlock(prevHeight);
        if b.Err? {
          return Err(b.error);
        }
        prevHeight := b.value.height;
        JoinMore(yielded, b.value, ReadRecords(file, pos, prevHeight + 1, blockCount - blocksRead - 1));
        yielded := yielded + [b.value];
        blocksRead := blocksRead + 1;
      }
      r := Ok(yielded);
      JoinAll(yielded);
    }
  }

  function Joined(done: seq<Dumped>, rest: Result<seq<Dumped>>): Result<seq<Dumped>> {
    if rest.Err? then rest else Ok(done + rest.value)
  }

  lemma JoinNone(rest: Result<seq<Dumped>>)
    ensures Joined([], rest) == rest
  {
    if rest.Ok? {
      assert [] + rest.value == rest.value;
    }
  }

  lemma JoinAll(done: seq<Dumped>)
    ensures Joined(done, Ok([])) == Ok(done)
  {
    assert done + [] == done;
  }

  lemma JoinFault(done: seq<Dumped>, rest: Result<seq<Dumped>>)
    ensures rest.Err? ==> Joined(done, rest) == rest
  {
  }

  lemma JoinMore(done: seq<Dumped>, b: Dumped, rest: Result<seq<Dumped>>)
    ensures Joined(done + [b], rest) == Joined(done, if rest.Err? then rest else Ok([b] + rest.value))
  {
    if rest.Ok? {
      assert (done + [b]) + rest.value == done + ([b] + rest.value);
    }
  }

  // ----- the round trip

  lemma U32Back(buf: Bytes, o: nat, n: nat)
    requires n < U32 && At(buf, o, LE(n, 4))
    ensures U32At(buf, o) == n
  {
    assert Pow256(4) == U32;
    LERoundTrip(n, 4);
  }

  lemma HeaderBack(h: DumpHeader, rest: Bytes)
    requires HeaderFits(h)
    ensures ReadHeader(MakeHeader(h) + rest) == Ok(h)
    ensures U32At(MakeHeader(h) + rest, 20) == h.lastHeight - h.firstHeight + 1
  {
    var file := MakeHeader(h) + rest;
    var a := MAGIC + [h.chainCode] + [h.netCode];
    var version, first, last := LE(FILE_VERSION, 2), LE(h.firstHeight, 4), LE(h.lastHeight, 4);
    var count, tip := LE(h.lastHeight - h.firstHeight + 1, 4), LE(h.tipAtDump, 4);
    assert file == a + version + first + last + count + tip + (Zeros(36) + rest);
    assert file[..8] == MAGIC && file[8] == h.chainCode && file[9] == h.netCode;
    assert file[10..12] == version && file[12..16] == first && file[16..20] == last;
    assert file[20..24] == count && file[24..28] == tip;
    hide LE;
    assert Pow256(2) == 0x1_0000;
    LERoundTrip(FILE_VERSION, 2);
    U32Back(file, 12, h.firstHeight);
    U32Back(file, 16, h.lastHeight);
    U32Back(file, 20, h.lastHeight - h.firstHeight + 1);
    U32Back(file, 24, h.tipAtDump);
  }

  /** The magic, spelled out. */
  function Magic(t: string): (r: Bytes)
    requires forall i :: 0 <= i < |t| ==> t[i] as int < 0x80
  {
    seq(|t|, i requires 0 <= i < |t| => t[i] as int)
  }

  /** A header byte by byte: where each field stands, and that every number has its lowest byte first. */
  predicate Layout(b: Bytes, h: DumpHeader) {
    && |b| == 64 && b[..8] == Magic("XCHNDMP1") && b[8] == h.chainCode && b[9] == h.netCode && b[10] == 1 && b[11] == 0
    && Word(b, 12) == h.firstHeight && Word(b, 16) == h.lastHeight && Word(b, 20) == h.lastHeight - h.firstHeight + 1
    && Word(b, 24) == h.tipAtDump && forall i :: 28 <= i < 64 ==> b[i] == 0
  }

  lemma HeaderLayout(h: DumpHeader)
    requires HeaderFits(h)
    ensures Layout(MakeHeader(h), h)
  {
    var b := MakeHeader(h);
    var a := MAGIC + [h.chainCode] + [h.netCode];
    var version, first, last := LE(FILE_VERSION, 2), LE(h.firstHeight, 4), LE(h.lastHeight, 4);
    var count, tip := LE(h.lastHeight - h.firstHeight + 1, 4), LE(h.tipAtDump, 4);
    assert version == [1, 0];
    assert b == a + version + first + last + count + tip + Zeros(36);
    assert b[12..16] == first && b[16..20] == last && b[20..24] == count && b[24..28] == tip && b[28..] == Zeros(36);
    assert b[..8] == MAGIC == Magic("XCHNDMP1");
    hide LE, Word;
    WordBack(b, 12, h.firstHeight);
    WordBack(b, 16, h.lastHeight);
    WordBack(b, 20, h.lastHeight - h.firstHeight + 1);
    WordBack(b, 24, h.tipAtDump);
    forall i | 28 <= i < 64 ensures b[i] == 0 {
      assert b[i] == b[28..][i - 28];
    }
  }

  lemma HeaderFields(file: Bytes)
    requires |file| >= 64
    ensures U16At(file, 10) == Half(file, 10) && U32At(file, 12) == Word(file, 12) && U32At(file, 16) == Word(file, 16)
    ensures U32At(file, 20) == Word(file, 20) && U32At(file, 24) == Word(file, 24)
  {
    FromLEHalf(file[10..12]);
    FromLEWord(file[12..16]);
    FromLEWord(file[16..20]);
    FromLEWord(file[20..24]);
    FromLEWord(file[24..28]);
  }

  /** A header reads exactly when these bytes are right, and as what they say. */
  lemma HeaderAccepted(file: Bytes)
    ensures ReadHeader(file).Ok? <==>
      && |file| >= 64 && file[..8] == Magic("XCHNDMP1") && 1 <= file[8] <= 3 && 1 <= file[9] <= 3
      && file[10] == 1 && file[11] == 0 && Word(file, 20) == Word(file, 16) - Word(file, 12) + 1
    ensures ReadHeader(file).Ok? ==>
      ReadHeader(file).value == DumpHeader(file[8], file[9], Word(file, 12), Word(file, 16), Word(file, 24))
  {
    assert MAGIC == Magic("XCHNDMP1");
    hide Word, U32At, U16At;
    if |file| >= 64 {
      HeaderFields(file);
    }
  }

  /** A record byte by byte: size, height, hash, block. */
  lemma RecordLayout(b: Dumped)
    requires Writable(b)
    ensures var r := RecordBytes(b);
      && |r| == 40 + |b.data| && Word(r, 0) == |b.data| && Word(r, 4) == b.height && r[8..40] == b.hash && r[40..] == b.data
    ensures 0 < |b.data| <= 32 * 1024 * 1024
  {
    var r, size, height := RecordBytes(b), LE(|b.data|, 4), LE(b.height, 4);
    assert r[..4] == size && r[4..8] == height && r[8..40] == b.hash && r[40..] == b.data;
    hide LE, Word;
    WordBack(r, 0, |b.data|);
    WordBack(r, 4, b.height);
  }

  /** The record a reader finds at a place, exactly when there is one it accepts. */
  lemma RecordAccepted(file: Bytes, pos: nat, expected: nat)
    requires pos <= |file|
    ensures RecordAt(file, pos, expected).Ok? <==>
      && pos + 40 <= |file| && 0 < Word(file, pos) <= 32 * 1024 * 1024 && Word(file, pos + 4) == expected
      && pos + 40 + Word(file, pos) <= |file|
    ensures var r := RecordAt(file, pos, expected);
      r.Ok? ==> r.value == Dumped(expected, file[pos + 8..pos + 40], file[pos + 40..pos + 40 + Word(file, pos)])
  {
    hide Word, FromLE;
    if pos + 40 <= |file| {
      FromLEWord(file[pos..pos + 4]);
      FromLEWord(file[pos + 4..pos + 8]);
      SameWord(file, pos);
      SameWord(file, pos + 4);
    }
  }

  lemma SameWord(file: Bytes, pos: nat)
    requires pos + 4 <= |file|
    ensures Word(file[pos..pos + 4], 0) == Word(file, pos)
  {
  }

  predicate Consecutive(blocks: seq<Dumped>, first: nat) {
    forall i :: 0 <= i < |blocks| ==> Writable(blocks[i]) && blocks[i].height == first + i
  }

  lemma RecordBack(file: Bytes, pos: nat, b: Dumped)
    requires Writable(b) && At(file, pos, RecordBytes(b))
    ensures pos + 40 + |b.data| <= |file| && U32At(file, pos) == |b.data| && U32At(file, pos + 4) == b.height
    ensures file[pos + 8..pos + 40] == b.hash && file[pos + 40..pos + 40 + |b.data|] == b.data
  {
    hide LE, At;
    var size, height := LE(|b.data|, 4), LE(b.height, 4);
    AtSplit(file, pos, size + height + b.hash, b.data);
    AtSplit(file, pos, size + height, b.hash);
    AtSplit(file, pos, size, height);
    AtFits(file, pos + 8, b.hash);
    AtFits(file, pos + 40, b.data);
    U32Back(file, pos, |b.data|);
    U32Back(file, pos + 4, b.height);
  }

  lemma {:induction false} RecordsBack(file: Bytes, pos: nat, blocks: seq<Dumped>, first: nat)
    requires pos <= |file| && Consecutive(blocks, first) && At(file, pos, RecordsBytes(blocks))
    ensures ReadRecords(file, pos, first, |blocks|) == Ok(blocks)
    decreases |blocks|
  {
    hide RecordBytes, At, U32At;
    if blocks != [] {
      var b := blocks[0];
      assert Writable(b) && b.height == first;
      AtSplit(file, pos, RecordBytes(b), RecordsBytes(blocks[1..]));
      RecordBack(file, pos, b);
      assert RecordAt(file, pos, first) == Ok(b);
      RecordsBack(file, pos + 40 + |b.data|, blocks[1..], first + 1);
      assert blocks == [b] + blocks[1..];
    }
  }

  /** Whatever is dumped reads back as it was: every block with its height, hash and bytes, in order. */
  lemma DumpReadsBack(h: DumpHeader, blocks: seq<Dumped>)
    requires HeaderFits(h) && |blocks| == h.lastHeight - h.firstHeight + 1 && Consecutive(blocks, h.firstHeight)
    ensures ReadDump(MakeHeader(h) + RecordsBytes(blocks)) == Ok(blocks)
  {
    hide MakeHeader, ReadHeader, U32At, RecordsBytes, ReadRecords, Consecutive, At;
    var file := MakeHeader(h) + RecordsBytes(blocks);
    HeaderBack(h, RecordsBytes(blocks));
    AtEnd(MakeHeader(h), RecordsBytes(blocks));
    RecordsBack(file, HEADER_SIZE, blocks, h.firstHeight);
  }

  lemma AtEnd(a: Bytes, b: Bytes)
    ensures At(a + b, |a|, b)
  {
  }

  // ----- cutting a range into files

  datatype Chunk = Chunk(start: nat, end: nat)

  /** The blocks of a chunk of the range that begins at `from`. */
  function ChunkBlocks(blocks: seq<Dumped>, from: nat, c: Chunk): seq<Dumped>
    requires from <= c.start <= c.end + 1 && c.end + 1 - from <= |blocks|
  {
    blocks[c.start - from..c.end + 1 - from]
  }

  predicate ChunkInside(blocks: seq<Dumped>, from: nat, c: Chunk) {
    from <= c.start <= c.end && c.end + 1 - from <= |blocks|
  }

  function ChunkFile(blocks: seq<Dumped>, from: nat, c: Chunk, chainCode: nat, netCode: nat, tip: nat): Bytes
    requires ChunkInside(blocks, from, c) && HeaderFits(DumpHeader(chainCode, netCode, c.start, c.end, tip))
  {
    MakeHeader(DumpHeader(chainCode, netCode, c.start, c.end, tip)) + RecordsBytes(ChunkBlocks(blocks, from, c))
  }

  function ReadAll(files: seq<Bytes>): Result<seq<Dumped>> {
    if files == [] then Ok([])
    else
      var init, last := ReadAll(files[..|files| - 1]), ReadDump(files[|files| - 1]);
      if init.Err? then init else if last.Err? then last else Ok(init.value + last.value)
  }

  /** Dumps a range in chunks of any size: reading the files back in order gives the original blocks. */
  method DumpRange(blocks: seq<Dumped>, from: nat, dumpEnd: nat, chunkSize: nat, chainCode: nat, netCode: nat, tip: nat)
    returns (files: seq<Bytes>, chunks: seq<Chunk>)
    requires chunkSize > 0 && from <= dumpEnd < U32 - 1 && tip < U32 && 1 <= chainCode <= 3 && 1 <= netCode <= 3
    requires |blocks| == dumpEnd - from + 1 && Consecutive(blocks, from)
    ensures ReadAll(files) == Ok(blocks) && |files| == |chunks|
    ensures forall i :: 0 <= i < |chunks| ==> chunks[i].end - chunks[i].start + 1 <= chunkSize
  {
    hide ReadDump, MakeHeader, RecordsBytes, Consecutive;
    files, chunks := [], [];
    var chunkStart := from;
    while chunkStart <= dumpEnd
      invariant from <= chunkStart <= dumpEnd + 1 && |files| == |chunks|
      invariant ReadAll(files) == Ok(blocks[..chunkStart - from])
      invariant forall i :: 0 <= i < |chunks| ==> chunks[i].end - chunks[i].start + 1 <= chunkSize
    {
      var chunkEnd := if chunkStart + chunkSize - 1 <= dumpEnd then chunkStart + chunkSize - 1 else dumpEnd;
      var c := Chunk(chunkStart, chunkEnd);
      var chunk := ChunkBlocks(blocks, from, c);
      SliceConsecutive(blocks, from, c);
      DumpReadsBack(DumpHeader(chainCode, netCode, chunkStart, chunkEnd, tip), chunk);
      var file := ChunkFile(blocks, from, c, chainCode, netCode, tip);
      assert (files + [file])[..|files|] == files;
      assert blocks[..chunkEnd + 1 - from] == blocks[..chunkStart - from] + chunk;
      files, chunks := files + [file], chunks + [c];
      chunkStart := chunkEnd + 1;
    }
    assert blocks[..|blocks|] == blocks;
  }

  lemma SliceConsecutive(blocks: seq<Dumped>, from: nat, c: Chunk)
    requires Consecutive(blocks, from) && ChunkInside(blocks, from, c)
    ensures Consecutive(ChunkBlocks(blocks, from, c), c.start)
  {
  }

  /** On any bytes an accepted dump names heights without gap or repeat, from first to last. */
  lemma {:induction false} ReadHeights(file: Bytes, pos: nat, expected: nat, left: nat)
    requires pos <= |file| && ReadRecords(file, pos, expected, left).Ok?
    ensures |ReadRecords(file, pos, expected, left).value| == left
    ensures Consecutive(ReadRecords(file, pos, expected, left).value, expected) <== expected + left <= U32
    ensures forall i :: 0 <= i < left ==> ReadRecords(file, pos, expected, left).value[i].height == expected + i
    decreases left
  {
    if left > 0 {
      ReadHeights(file, pos + 40 + |RecordAt(file, pos, expected).value.data|, expected + 1, left - 1);
    }
  }
}
