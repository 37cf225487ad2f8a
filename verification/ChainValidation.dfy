/** Validating a dump: hashes, links and, on demand, merkle roots. */
module ChainValidation {
  import opened Chain
  import opened Merkle
  import ByteCodec
  import Xdmp

  datatype Id =
    | Zero
    | HashOf(header: Header)  // free, so two headers with one hash are one header
    | Other(n: nat)           // 32 bytes that are no header's hash

  datatype Header = Header(prev: Id, merkleRoot: Digest, rest: nat)

  /** The transaction section as the decoder reads it. */
  datatype Body = Unparsable | Transactions(txids: seq<Txid>)

  /** A dump record: `hash` is missing when it is not 32 bytes, `header` when the block is too short. */
  datatype Record = Record(height: nat, hash: Option<Id>, header: Option<Header>, body: Body)

  datatype Fault =
    | BlockTooShort | BadHash | HashMismatch
    | BodyUnparsable | NoTransactions | DuplicatePair | MerkleMismatch
    | GenesisLinked | HeightGap | LinkBroken

  datatype Report = Report(ok: bool, blocksChecked: nat, firstHeight: Option<nat>, lastHeight: Option<nat>,
                           error: Option<(nat, Fault)>)

  // ----- one record

  function MerkleFault(r: Record): Option<Fault>
    requires r.header.Some?
  {
    if r.body.Unparsable? then Some(BodyUnparsable)
    else if r.body.txids == [] then Some(NoTransactions)
    else if Mutated(Leaves(r.body.txids)) then Some(DuplicatePair)
    else if Root(Leaves(r.body.txids)) != r.header.value.merkleRoot then Some(MerkleMismatch)
    else None
  }

  method VerifyMerkleRoot(r: Record) returns (fault: Option<Fault>)
    requires r.header.Some?
    ensures fault == MerkleFault(r)
  {
    if r.body.Unparsable? {
      return Some(BodyUnparsable);
    }
    if r.body.txids == [] {
      return Some(NoTransactions);
    }
    var root, mutated := ComputeMerkleRoot(Leaves(r.body.txids));
    if mutated {
      return Some(DuplicatePair);
    }
    fault := if root != r.header.value.merkleRoot then Some(MerkleMismatch) else None;
  }

  /** The first block of a dump has no predecessor to link to; genesis must link to nothing. */
  function LinkFault(height: nat, prev: Id, before: Option<(nat, Id)>): Option<Fault> {
    if before.None? then (if height == 0 && prev != Zero then Some(GenesisLinked) else None)
    else if height != before.value.0 + 1 then Some(HeightGap)
    else if prev != before.value.1 then Some(LinkBroken)
    else None
  }

  function RecordFault(r: Record, before: Option<(nat, Id)>, merkle: bool): Option<Fault> {
    if r.header.None? then Some(BlockTooShort)
    else if r.hash.None? then Some(BadHash)
    else if r.hash.value != HashOf(r.header.value) then Some(HashMismatch)
    else if merkle && MerkleFault(r).Some? then MerkleFault(r)
    else LinkFault(r.height, r.header.value.prev, before)
  }

  /** The height and hash the record at `i` must follow. */
  function Before(blocks: seq<Record>, i: nat): Option<(nat, Id)>
    requires i <= |blocks| && (i > 0 ==> blocks[i - 1].hash.Some?)
  {
    if i == 0 then None else Some((blocks[i - 1].height, blocks[i - 1].hash.value))
  }

  /** The first `n` records are all sound. */
  predicate Sound(blocks: seq<Record>, n: nat, merkle: bool)
    requires n <= |blocks|
  {
    n == 0 ||
    (Sound(blocks, n - 1, merkle) && (n > 1 ==> blocks[n - 2].hash.Some?)
     && RecordFault(blocks[n - 1], Before(blocks, n - 1), merkle) == None)
  }

  /** Record `n` is the first unsound one, and the error names its height and its fault. */
  ghost predicate StopsAt(blocks: seq<Record>, n: nat, merkle: bool, error: Option<(nat, Fault)>) {
    && n < |blocks| && Sound(blocks, n, merkle) && (n > 0 ==> blocks[n - 1].hash.Some?)
    && RecordFault(blocks[n], Before(blocks, n), merkle).Some?
    && error == Some((blocks[n].height, RecordFault(blocks[n], Before(blocks, n), merkle).value))
  }

  /** A body that stands for its header: readable, not empty, unflagged, and of the header's root. */
  predicate BodyBacks(r: Record) {
    && r.header.Some? && r.body.Transactions? && r.body.txids != []
    && !Mutated(Leaves(r.body.txids)) && Root(Leaves(r.body.txids)) == r.header.value.merkleRoot
  }

  /** An honest dump, header by header: hashes recompute, heights run on, each header names the hash before it,
      a first block at height 0 names nothing, and with the merkle option bodies stand for their headers. */
  predicate Honest(blocks: seq<Record>, merkle: bool) {
    && (forall i :: 0 <= i < |blocks| ==>
          blocks[i].header.Some? && blocks[i].hash == Some(HashOf(blocks[i].header.value)))
    && (forall i :: 0 < i < |blocks| ==>
          && blocks[i].height == blocks[i - 1].height + 1
          && blocks[i].header.value.prev == HashOf(blocks[i - 1].header.value))
    && (blocks != [] && blocks[0].height == 0 ==> blocks[0].header.value.prev == Zero)
    && (merkle ==> forall i :: 0 <= i < |blocks| ==> BodyBacks(blocks[i]))
  }

  /** The record, added to an honest dump, leaves it honest. */
  predicate Follows(blocks: seq<Record>, r: Record, merkle: bool) {
    && r.header.Some? && r.hash == Some(HashOf(r.header.value))
    && (if blocks == [] then r.height == 0 ==> r.header.value.prev == Zero
        else r.height == blocks[|blocks| - 1].height + 1 && blocks[|blocks| - 1].hash == Some(r.header.value.prev))
    && (merkle ==> BodyBacks(r))
  }

  lemma HonestStep(blocks: seq<Record>, r: Record, merkle: bool)
    ensures Honest(blocks + [r], merkle) <==> Honest(blocks, merkle) && Follows(blocks, r, merkle)
  {
    hide BodyBacks;
    var all := blocks + [r];
    assert all[|blocks|] == r && (blocks != [] ==> all[|blocks| - 1] == blocks[|blocks| - 1] && all[0] == blocks[0]);
    if Honest(all, merkle) {
      assert forall i :: 0 <= i < |blocks| ==> blocks[i] == all[i];
    }
    if Honest(blocks, merkle) && Follows(blocks, r, merkle) {
      forall i | 0 <= i < |all|
        ensures all[i].header.Some? && all[i].hash == Some(HashOf(all[i].header.value)) && (merkle ==> BodyBacks(all[i]))
      {
        assert i < |blocks| ==> all[i] == blocks[i];
      }
    }
  }

  lemma SoundStep(blocks: seq<Record>, n: nat, merkle: bool)
    requires 0 < n <= |blocks|
    ensures Sound(blocks, n, merkle) <==> Sound(blocks, n - 1, merkle) && Follows(blocks[..n - 1], blocks[n - 1], merkle)
  {
    hide Mutated, Root, Leaves;
    assert n > 1 ==> blocks[..n - 1][n - 2] == blocks[n - 2];
  }

  /** A dump is sound exactly when it is honest. */
  lemma {:induction false} SoundIffHonest(blocks: seq<Record>, n: nat, merkle: bool)
    requires n <= |blocks|
    ensures Sound(blocks, n, merkle) <==> Honest(blocks[..n], merkle)
  {
    if n > 0 {
      hide *;
      SoundIffHonest(blocks, n - 1, merkle);
      SoundStep(blocks, n, merkle);
      HonestStep(blocks[..n - 1], blocks[n - 1], merkle);
      assert blocks[..n] == blocks[..n - 1] + [blocks[n - 1]];
    }
  }

  /** What the fault a record is refused for says of it. */
  predicate FaultTells(blocks: seq<Record>, n: nat, merkle: bool, fault: Fault)
    requires n < |blocks|
  {
    var r := blocks[n];
    match fault
    case BlockTooShort => r.header.None?
    case BadHash => r.header.Some? && r.hash.None?
    case HashMismatch => r.header.Some? && r.hash.Some? && r.hash.value != HashOf(r.header.value)
    case BodyUnparsable => merkle && r.body.Unparsable?
    case NoTransactions => merkle && r.body == Transactions([])
    case DuplicatePair => merkle && r.body.Transactions? && Mutated(Leaves(r.body.txids))
    case MerkleMismatch =>
      merkle && r.header.Some? && r.body.Transactions? && r.body.txids != []
      && Root(Leaves(r.body.txids)) != r.header.value.merkleRoot
    case GenesisLinked => n == 0 && r.height == 0 && r.header.Some? && r.header.value.prev != Zero
    case HeightGap => n > 0 && r.height != blocks[n - 1].height + 1
    case LinkBroken => n > 0 && r.header.Some? && blocks[n - 1].hash != Some(r.header.value.prev)
  }

  lemma StoppedTells(blocks: seq<Record>, n: nat, merkle: bool, error: Option<(nat, Fault)>)
    requires StopsAt(blocks, n, merkle, error)
    ensures error.Some? && error.value.0 == blocks[n].height && FaultTells(blocks, n, merkle, error.value.1)
  {
    hide Mutated, Root, Leaves, Sound;
  }

  /** Walks a dump record by record, stopping at the first fault. */
  method VerifyBlockSequence(blocks: seq<Record>, merkle: bool) returns (report: Report)
    ensures report.ok <==> Honest(blocks, merkle)
    ensures !report.ok ==>
      && report.blocksChecked < |blocks| && Honest(blocks[..report.blocksChecked], merkle)
      && !Honest(blocks[..report.blocksChecked + 1], merkle)
      && report.error.Some? && report.error.value.0 == blocks[report.blocksChecked].height
      && FaultTells(blocks, report.blocksChecked, merkle, report.error.value.1)
    ensures report.ok <==> Sound(blocks, |blocks|, merkle)
    ensures report.blocksChecked <= |blocks| && Sound(blocks, report.blocksChecked, merkle)
    ensures report.ok ==> report.blocksChecked == |blocks| && report.error == None
    ensures !report.ok ==> StopsAt(blocks, report.blocksChecked, merkle, report.error)
    ensures report.firstHeight == if report.blocksChecked == 0 then None else Some(blocks[0].height)
    ensures report.lastHeight == if report.blocksChecked == 0 then None else Some(blocks[report.blocksChecked - 1].height)
  {
    hide Honest, FaultTells, MerkleFault;
    ghost var whole := blocks[..|blocks|];
    assert whole == blocks;
    SoundIffHonest(blocks, |blocks|, merkle);
    var before: Option<(nat, Id)> := None;
    var first: Option<nat>, last: Option<nat> := None, None;
    for i := 0 to |blocks|
      invariant Sound(blocks, i, merkle)
      invariant i > 0 ==> blocks[i - 1].hash.Some?
      invariant before == Before(blocks, i)
      invariant first == (if i == 0 then None else Some(blocks[0].height))
      invariant last == (if i == 0 then None else Some(blocks[i - 1].height))
    {
      var r := blocks[i];
      SoundIffHonest(blocks, i, merkle);
      var fault := CheckRecord(r, before, merkle);
      if fault.Some? {
        SoundStops(blocks, i, |blocks|, merkle);
        SoundStops(blocks, i, i + 1, merkle);
        SoundIffHonest(blocks, i + 1, merkle);
        StoppedTells(blocks, i, merkle, Some((r.height, fault.value)));
        return Report(false, i, first, last, Some((r.height, fault.value)));
      }
      if before.None? {
        first := Some(r.height);
      }
      before, last := Some((r.height, r.hash.value)), Some(r.height);
    }
    report := Report(true, |blocks|, first, last, None);
  }

  method CheckRecord(r: Record, before: Option<(nat, Id)>, merkle: bool) returns (fault: Option<Fault>)
    ensures fault == RecordFault(r, before, merkle)
  {
    if r.header.None? {
      return Some(BlockTooShort);
    }
    if r.hash.None? {
      return Some(BadHash);
    }
    if r.hash.value != HashOf(r.header.value) {
      return Some(HashMismatch);
    }
    if merkle {
      var merkleFault := VerifyMerkleRoot(r);
      if merkleFault.Some? {
        return merkleFault;
      }
    }
    fault := LinkFault(r.height, r.header.value.prev, before);
  }

  lemma {:induction false} SoundStops(blocks: seq<Record>, i: nat, n: nat, merkle: bool)
    requires i < n <= |blocks| && (i > 0 ==> blocks[i - 1].hash.Some?)
    requires RecordFault(blocks[i], Before(blocks, i), merkle).Some?
    ensures !Sound(blocks, n, merkle)
  {
    if i < n - 1 {
      SoundStops(blocks, i, n - 1, merkle);
    }
  }

  lemma {:induction false} SoundPrefix(blocks: seq<Record>, n: nat, m: nat, merkle: bool)
    requires n <= m <= |blocks| && Sound(blocks, m, merkle)
    ensures Sound(blocks, n, merkle)
  {
    if n < m {
      SoundPrefix(blocks, n, m - 1, merkle);
    }
  }

  // ----- what acceptance means

  /** Every block has the height after its predecessor's, and its parent's hash. */
  lemma SoundLinks(blocks: seq<Record>, n: nat, merkle: bool)
    requires 0 < n < |blocks| && Sound(blocks, |blocks|, merkle)
    ensures blocks[n].height == blocks[n - 1].height + 1
    ensures blocks[n].header.Some? && blocks[n - 1].header.Some?
    ensures blocks[n].header.value.prev == HashOf(blocks[n - 1].header.value)
  {
    SoundPrefix(blocks, n + 1, |blocks|, merkle);
    SoundPrefix(blocks, n, |blocks|, merkle);
  }

  /** Accepted heights run without gap or overlap. */
  lemma {:induction false} HeightsConsecutive(blocks: seq<Record>, i: nat, merkle: bool)
    requires i < |blocks| && Sound(blocks, |blocks|, merkle)
    ensures blocks[i].height == blocks[0].height + i
  {
    if i > 0 {
      HeightsConsecutive(blocks, i - 1, merkle);
      SoundLinks(blocks, i, merkle);
    }
  }

  lemma RecordSound(blocks: seq<Record>, i: nat, merkle: bool)
    requires i < |blocks| && Sound(blocks, |blocks|, merkle)
    ensures blocks[i].header.Some? && blocks[i].hash == Some(HashOf(blocks[i].header.value))
    ensures merkle ==> MerkleFault(blocks[i]) == None
  {
    SoundPrefix(blocks, i + 1, |blocks|, merkle);
  }

  lemma {:induction false} SameHeadersDown(a: seq<Record>, b: seq<Record>, i: nat, merkle: bool)
    requires |a| == |b| && i < |a|
    requires Sound(a, |a|, merkle) && Sound(b, |b|, merkle) && a[|a| - 1].hash == b[|b| - 1].hash
    ensures a[i].header.Some? && a[i].header == b[i].header
    decreases |a| - i
  {
    RecordSound(a, i, merkle);
    RecordSound(b, i, merkle);
    if i < |a| - 1 {
      SameHeadersDown(a, b, i + 1, merkle);
      SoundLinks(a, i + 1, merkle);
      SoundLinks(b, i + 1, merkle);
    }
  }

  /** Two accepted dumps of one length that end in the same block hash have the same header at every
      position and, when the merkle roots were checked, the same transactions in every block; their
      heights agree throughout if they agree anywhere. */
  lemma LastHashBindsDump(a: seq<Record>, b: seq<Record>, i: nat, merkle: bool)
    requires |a| == |b| && i < |a|
    requires Sound(a, |a|, merkle) && Sound(b, |b|, merkle) && a[|a| - 1].hash == b[|b| - 1].hash
    ensures a[i].header.Some? && a[i].header == b[i].header && a[i].hash == b[i].hash
    ensures merkle ==> a[i].body.Transactions? && a[i].body == b[i].body
    ensures a[i].height == b[i].height <==> a[0].height == b[0].height
  {
    SameHeadersDown(a, b, i, merkle);
    RecordSound(a, i, merkle);
    RecordSound(b, i, merkle);
    HeightsConsecutive(a, i, merkle);
    HeightsConsecutive(b, i, merkle);
    if merkle {
      RootBindsList(a[i].body.txids, b[i].body.txids);
    }
  }

  // ----- a set of dump files

  /** What a reader makes of a dump file: the range its header names, the blocks it yields, and the fault that
      stops it short, if one does. */
  datatype DumpFile = DumpFile(firstHeight: nat, lastHeight: nat, blocks: seq<Record>, fault: Option<Xdmp.Error>)

  datatype Yield = Yield(blocks: seq<Xdmp.Dumped>, fault: Option<Xdmp.Error>)

  /** The reader's generator: the records up to the first faulty one. */
  function YieldFrom(file: ByteCodec.Bytes, pos: nat, expected: nat, left: nat): Yield
    requires pos <= |file|
    decreases left
  {
    if left == 0 then Yield([], None)
    else
      var b := Xdmp.RecordAt(file, pos, expected);
      if b.Err? then Yield([], Some(b.error))
      else
        var rest := YieldFrom(file, pos + 40 + |b.value.data|, expected + 1, left - 1);
        Yield([b.value] + rest.blocks, rest.fault)
  }

  lemma {:induction false} YieldIsRead(file: ByteCodec.Bytes, pos: nat, expected: nat, left: nat)
    requires pos <= |file|
    ensures var y, r := YieldFrom(file, pos, expected, left), Xdmp.ReadRecords(file, pos, expected, left);
      if y.fault == None then r == Xdmp.Ok(y.blocks) else r == Xdmp.Err(y.fault.value)
    decreases left
  {
    hide Xdmp.RecordAt;
    if left > 0 && Xdmp.RecordAt(file, pos, expected).Ok? {
      YieldIsRead(file, pos + 40 + |Xdmp.RecordAt(file, pos, expected).value.data|, expected + 1, left - 1);
    }
  }

  /** How a block's bytes are read is not part of this model; whatever reads them keeps the height. */
  ghost predicate KeepsHeight(decode: Xdmp.Dumped -> Record) {
    forall d :: decode(d).height == d.height
  }

  function Decoded(blocks: seq<Xdmp.Dumped>, decode: Xdmp.Dumped -> Record): (r: seq<Record>)
    ensures |r| == |blocks| && forall i :: 0 <= i < |r| ==> r[i] == decode(blocks[i])
  {
    if blocks == [] then [] else Decoded(blocks[..|blocks| - 1], decode) + [decode(blocks[|blocks| - 1])]
  }

  function ReadFile(file: ByteCodec.Bytes, decode: Xdmp.Dumped -> Record): Xdmp.Result<DumpFile> {
    var h := Xdmp.ReadHeader(file);
    if h.Err? then Xdmp.Err(h.error)
    else
      var y := YieldFrom(file, Xdmp.HEADER_SIZE, h.value.firstHeight, Xdmp.U32At(file, 20));
      Xdmp.Ok(DumpFile(h.value.firstHeight, h.value.lastHeight, Decoded(y.blocks, decode), y.fault))
  }

  /** The reader yields exactly the heights the header names; a header may name none. */
  predicate FileOk(f: DumpFile) {
    && f.firstHeight <= f.lastHeight + 1 && |f.blocks| == f.lastHeight - f.firstHeight + 1
    && forall i :: 0 <= i < |f.blocks| ==> f.blocks[i].height == f.firstHeight + i
  }

  /** A file read without a fault is one. */
  lemma ReadFileOk(file: ByteCodec.Bytes, decode: Xdmp.Dumped -> Record)
    requires KeepsHeight(decode) && ReadFile(file, decode).Ok? && ReadFile(file, decode).value.fault == None
    ensures FileOk(ReadFile(file, decode).value)
  {
    var first, count := Xdmp.ReadHeader(file).value.firstHeight, Xdmp.U32At(file, 20);
    YieldIsRead(file, Xdmp.HEADER_SIZE, first, count);
    Xdmp.ReadHeights(file, Xdmp.HEADER_SIZE, first, count);
  }

  function InsertByFirst(files: seq<DumpFile>, f: DumpFile): (r: seq<DumpFile>)
    ensures |r| == |files| + 1
  {
    if files == [] || files[|files| - 1].firstHeight <= f.firstHeight then files + [f]
    else InsertByFirst(files[..|files| - 1], f) + [files[|files| - 1]]
  }

  function SortByFirst(files: seq<DumpFile>): (r: seq<DumpFile>)
    ensures |r| == |files|
  {
    if files == [] then [] else InsertByFirst(SortByFirst(files[..|files| - 1]), files[|files| - 1])
  }

  predicate Contiguous(files: seq<DumpFile>) {
    forall i :: 0 < i < |files| ==> files[i].firstHeight == files[i - 1].lastHeight + 1
  }

  function AllBlocks(files: seq<DumpFile>): seq<Record> {
    if files == [] then [] else AllBlocks(files[..|files| - 1]) + files[|files| - 1].blocks
  }

  method OrderFiles(files: seq<DumpFile>) returns (ranges: seq<DumpFile>)
    ensures ranges == SortByFirst(files)
  {
    ranges := [];
    for i := 0 to |files|
      invariant ranges == SortByFirst(files[..i])
    {
      assert files[..i + 1][..i] == files[..i];
      ranges := InsertByFirst(ranges, files[i]);
    }
    assert files[..|files|] == files;
  }

  method CheckContiguous(ranges: seq<DumpFile>) returns (ok: bool)
    ensures ok <==> Contiguous(ranges)
  {
    var i := 1;
    while i < |ranges|
      invariant 1 <= i && (i <= |ranges| ==> Contiguous(ranges[..i])) && (i > |ranges| ==> ranges == [])
    {
      if ranges[i].firstHeight != ranges[i - 1].lastHeight + 1 {
        return false;
      }
      i := i + 1;
    }
    assert ranges != [] ==> ranges[..|ranges|] == ranges;
    ok := true;
  }

  datatype Blocks = Blocks(blocks: seq<Record>, fault: Option<Xdmp.Error>)

  /** What the files yield one after another, up to the first fault. */
  function Stream(files: seq<DumpFile>): Blocks {
    if files == [] then Blocks([], None)
    else
      var init, last := Stream(files[..|files| - 1]), files[|files| - 1];
      if init.fault.Some? then init else Blocks(init.blocks + last.blocks, last.fault)
  }

  method ReadStream(ranges: seq<DumpFile>) returns (stream: Blocks)
    ensures stream == Stream(ranges)
  {
    stream := Blocks([], None);
    for i := 0 to |ranges|
      invariant stream == Stream(ranges[..i])
    {
      assert ranges[..i + 1][..i] == ranges[..i];
      if stream.fault == None {
        stream := Blocks(stream.blocks + ranges[i].blocks, ranges[i].fault);
      }
    }
    assert ranges[..|ranges|] == ranges;
  }

  /** The stream is whole exactly when no file stops short, and then it is all their blocks. */
  lemma {:induction false} StreamWhole(files: seq<DumpFile>)
    ensures Stream(files).fault == None <==> Faultless(files)
    ensures Faultless(files) ==> Stream(files).blocks == AllBlocks(files)
  {
    if files != [] {
      StreamWhole(files[..|files| - 1]);
      assert files == files[..|files| - 1] + [files[|files| - 1]];
    }
  }

  /** Every header reads. */
  predicate Readable(files: seq<ByteCodec.Bytes>) {
    forall i :: 0 <= i < |files| ==> Xdmp.ReadHeader(files[i]).Ok?
  }

  function Ranges(files: seq<ByteCodec.Bytes>, decode: Xdmp.Dumped -> Record): (r: seq<DumpFile>)
    requires Readable(files)
    ensures |r| == |files| && forall i :: 0 <= i < |r| ==> Xdmp.Ok(r[i]) == ReadFile(files[i], decode)
  {
    seq(|files|, i requires 0 <= i < |files| => ReadFile(files[i], decode).value)
  }

  predicate Faultless(files: seq<DumpFile>) {
    forall i :: 0 <= i < |files| ==> files[i].fault == None
  }

  /** What makes a set of files valid: all of them read to their end, their ranges abut, and the blocks
      are honest as one dump. */
  predicate Accepted(files: seq<ByteCodec.Bytes>, decode: Xdmp.Dumped -> Record, merkle: bool) {
    files != [] && Readable(files) &&
    var sorted := SortByFirst(Ranges(files, decode));
    && Contiguous(sorted) && Faultless(sorted) && Honest(AllBlocks(sorted), merkle)
  }

  datatype Verdict =
    | NoFiles
    | Unreadable(error: Xdmp.Error)       // thrown: a header that does not read
    | NotContiguous
    | ReaderFault(error: Xdmp.Error)      // a file stopped short, everything before it being sound
    | Walked(report: Report)

  /** Peeks every file's range; a header that does not read ends the run. */
  method ReadRanges(files: seq<ByteCodec.Bytes>, decode: Xdmp.Dumped -> Record) returns (r: Xdmp.Result<seq<DumpFile>>)
    ensures r.Ok? <==> Readable(files)
    ensures r.Ok? ==> r.value == Ranges(files, decode)
  {
    hide ReadFile;
    var ranges: seq<DumpFile> := [];
    for i := 0 to |files|
      invariant |ranges| == i && Readable(files[..i])
      invariant forall j :: 0 <= j < i ==> Xdmp.Ok(ranges[j]) == ReadFile(files[j], decode)
    {
      HeaderDecides(files[i], decode);
      var f := ReadFile(files[i], decode);
      if f.Err? {
        return Xdmp.Err(f.error);
      }
      ranges := ranges + [f.value];
    }
    assert files[..|files|] == files;
    r := Xdmp.Ok(ranges);
  }

  lemma HeaderDecides(file: ByteCodec.Bytes, decode: Xdmp.Dumped -> Record)
    ensures ReadFile(file, decode).Ok? <==> Xdmp.ReadHeader(file).Ok?
  {
  }

  /** Orders the files by first height, refuses a gap or overlap between them, and walks them as one stream,
      whatever bytes they hold. */
  method ValidateChainFiles(files: seq<ByteCodec.Bytes>, decode: Xdmp.Dumped -> Record, merkle: bool)
    returns (v: Verdict)
    ensures v.Walked? && v.report.ok <==> Accepted(files, decode, merkle)
    ensures v.NoFiles? <==> files == []
    ensures v.Unreadable? <==> !Readable(files)
    ensures v.NotContiguous? <==> files != [] && Readable(files) && !Contiguous(SortByFirst(Ranges(files, decode)))
    ensures Readable(files) ==>
      var stream := Stream(SortByFirst(Ranges(files, decode)));
      && (v.ReaderFault? ==> stream.fault == Some(v.error) && Honest(stream.blocks, merkle))
      && (v.Walked? && !v.report.ok ==> StopsAt(stream.blocks, v.report.blocksChecked, merkle, v.report.error))
    ensures v.Walked? && !v.report.ok ==>
      var blocks := Stream(SortByFirst(Ranges(files, decode))).blocks;
      && v.report.blocksChecked < |blocks| && Honest(blocks[..v.report.blocksChecked], merkle)
      && v.report.error.Some? && FaultTells(blocks, v.report.blocksChecked, merkle, v.report.error.value.1)
  {
    if files == [] {
      return NoFiles;
    }
    hide ReadFile, Sound, Honest, FaultTells, AllBlocks, Stream, Contiguous, SortByFirst, Faultless, StopsAt, Ranges;
    var peeked := ReadRanges(files, decode);
    if peeked.Err? {
      return Unreadable(peeked.error);
    }
    var ranges := OrderFiles(peeked.value);
    var contiguous := CheckContiguous(ranges);
    if !contiguous {
      return NotContiguous;
    }
    var stream := ReadStream(ranges);
    StreamWhole(ranges);
    var report := VerifyBlockSequence(stream.blocks, merkle);
    if report.ok && stream.fault.Some? {
      return ReaderFault(stream.fault.value);
    }
    v := Walked(report);
    if stream.fault.Some? {
      assert !Faultless(ranges);
    }
  }

  lemma {:induction false} InsertSorted(files: seq<DumpFile>, f: DumpFile)
    requires forall i, j :: 0 <= i < j < |files| ==> files[i].firstHeight <= files[j].firstHeight
    ensures var r := InsertByFirst(files, f);
      forall i, j :: 0 <= i < j < |r| ==> r[i].firstHeight <= r[j].firstHeight
    ensures multiset(InsertByFirst(files, f)) == multiset(files) + multiset{f}
  {
    if files == [] || files[|files| - 1].firstHeight <= f.firstHeight {
    } else {
      var init, last := files[..|files| - 1], files[|files| - 1];
      assert files == init + [last];
      InsertSorted(init, f);
      var r := InsertByFirst(init, f);
      BelowLast(files, init, last, f, r);
    }
  }

  lemma BelowLast(files: seq<DumpFile>, init: seq<DumpFile>, last: DumpFile, f: DumpFile, r: seq<DumpFile>)
    requires files == init + [last] && f.firstHeight < last.firstHeight
    requires forall i, j :: 0 <= i < j < |files| ==> files[i].firstHeight <= files[j].firstHeight
    requires multiset(r) == multiset(init) + multiset{f}
    ensures forall i :: 0 <= i < |r| ==> r[i].firstHeight <= last.firstHeight
  {
    forall i | 0 <= i < |r| ensures r[i].firstHeight <= last.firstHeight {
      assert r[i] in multiset(r);
      if r[i] != f {
        assert r[i] in init;
        var j :| 0 <= j < |init| && init[j] == r[i];
        assert files[j] == r[i] && files[|init|] == last;
      }
    }
  }

  lemma {:induction false} SortKeepsFiles(files: seq<DumpFile>)
    ensures var r := SortByFirst(files);
      && multiset(r) == multiset(files)
      && forall i, j :: 0 <= i < j < |r| ==> r[i].firstHeight <= r[j].firstHeight
  {
    if files != [] {
      assert files == files[..|files| - 1] + [files[|files| - 1]];
      SortKeepsFiles(files[..|files| - 1]);
      InsertSorted(SortByFirst(files[..|files| - 1]), files[|files| - 1]);
    }
  }

  lemma {:induction false} BlocksCover(files: seq<DumpFile>)
    requires files != [] && Contiguous(files) && forall i :: 0 <= i < |files| ==> FileOk(files[i])
    ensures |AllBlocks(files)| == files[|files| - 1].lastHeight - files[0].firstHeight + 1
    ensures forall k :: 0 <= k < |AllBlocks(files)| ==> AllBlocks(files)[k].height == files[0].firstHeight + k
  {
    var init, last := files[..|files| - 1], files[|files| - 1];
    if init != [] {
      BlocksCover(init);
      assert last.firstHeight == init[|init| - 1].lastHeight + 1;
    } else {
      assert AllBlocks(init) == [];
    }
  }

  /** Accepted files, in whatever order they were given, cover one height range: every height from the
      lowest first height to the highest last height is in exactly one file, once. */
  lemma FilesCoverOneRange(files: seq<ByteCodec.Bytes>, decode: Xdmp.Dumped -> Record, merkle: bool, h: nat)
    requires KeepsHeight(decode) && Accepted(files, decode, merkle)
    ensures var sorted := SortByFirst(Ranges(files, decode));
      sorted[0].firstHeight <= h <= sorted[|sorted| - 1].lastHeight <==>
        exists k :: 0 <= k < |AllBlocks(sorted)| && AllBlocks(sorted)[k].height == h
    ensures var blocks := AllBlocks(SortByFirst(Ranges(files, decode)));
      forall j, k :: 0 <= j < k < |blocks| ==> blocks[j].height < blocks[k].height
  {
    var sorted := SortByFirst(Ranges(files, decode));
    SortedFilesOk(files, decode);
    hide SortByFirst, Contiguous, FileOk, AllBlocks, Ranges, Honest, KeepsHeight;
    BlocksCover(sorted);
    RangeHas(AllBlocks(sorted), sorted[0].firstHeight, sorted[|sorted| - 1].lastHeight, h);
  }

  lemma SortedFilesOk(files: seq<ByteCodec.Bytes>, decode: Xdmp.Dumped -> Record)
    requires KeepsHeight(decode) && Readable(files) && Faultless(SortByFirst(Ranges(files, decode)))
    ensures forall i :: 0 <= i < |files| ==> FileOk(SortByFirst(Ranges(files, decode))[i])
  {
    var ranges, sorted := Ranges(files, decode), SortByFirst(Ranges(files, decode));
    SortKeepsFiles(ranges);
    hide ReadFile, SortByFirst, FileOk, KeepsHeight;
    forall i | 0 <= i < |files| ensures FileOk(sorted[i]) {
      assert sorted[i] in multiset(sorted);
      var j :| 0 <= j < |ranges| && ranges[j] == sorted[i];
      ReadFileOk(files[j], decode);
    }
  }

  lemma RangeHas(blocks: seq<Record>, lo: nat, hi: nat, h: nat)
    requires lo <= hi + 1 && |blocks| == hi - lo + 1 && forall k :: 0 <= k < |blocks| ==> blocks[k].height == lo + k
    ensures lo <= h <= hi <==> exists k :: 0 <= k < |blocks| && blocks[k].height == h
    ensures forall j, k :: 0 <= j < k < |blocks| ==> blocks[j].height < blocks[k].height
  {
    if lo <= h <= hi {
      assert blocks[h - lo].height == h;
    }
  }
}
