/** Log files as bytes, and the converter that reads them back. */
module LogFormat {
  import opened AsciiFormat
  import opened Base
  import opened LogRecord

  type byte = x: int | 0 <= x < 256

  // ---- little-endian numbers ----------------------------------------------

  function Pow256(k: nat): nat { if k == 0 then 1 else 256 * Pow256(k - 1) }

  function LittleEndian(n: nat, k: nat): (s: seq<byte>)
    ensures |s| == k
  {
    if k == 0 then [] else [n % 256] + LittleEndian(n / 256, k - 1)
  }

  function FromLittleEndian(s: seq<byte>): nat {
    if s == [] then 0 else s[0] + 256 * FromLittleEndian(s[1..])
  }

  lemma {:induction false} LittleEndianRoundTrip(n: nat, k: nat)
    requires n < Pow256(k)
    ensures FromLittleEndian(LittleEndian(n, k)) == n
  {
    if k > 0 {
      LittleEndianRoundTrip(n / 256, k - 1);
      assert LittleEndian(n, k)[1..] == LittleEndian(n / 256, k - 1);
    }
  }

  lemma PowersOf256()
    ensures Pow256(4) == TWO_32 && Pow256(8) == TWO_64
  {
    assert Pow256(2) == 65536;
    assert Pow256(3) == 16777216;
    assert Pow256(4) == TWO_32;
    assert Pow256(6) == 0x1_0000_0000_0000;
  }

  function Unsigned(x: int64): uint64 { if x < 0 then x + TWO_64 else x }

  function Signed(x: uint64): int64 { if x >= TWO_63 then x - TWO_64 else x }

  // ---- records ------------------------------------------------------------

  const RECORD_SIZE: nat := 40

  function EncodeTimespec(ts: Timespec): (s: seq<byte>)
    ensures |s| == 32
  {
    LittleEndian(Unsigned(ts.sec), 8) + LittleEndian(Unsigned(ts.nsec), 8) + LittleEndian(ts.tsc, 8)
    + LittleEndian(ts.aux, 4) + LittleEndian(ts.pad, 4)
  }

  /** `writeInBinary`: the tuple, then the whole time stamp structure.  An array
      of `log_data` in memory has the same layout. */
  function EncodeRecord(r: LogData): (s: seq<byte>)
    ensures |s| == RECORD_SIZE
  {
    LittleEndian(Unsigned(r.tuple), 8) + EncodeTimespec(r.ts)
  }

  function Word(s: seq<byte>): uint64
    requires |s| == 8
  {
    FromLittleEndian(s) % TWO_64
  }

  function HalfWord(s: seq<byte>): uint32
    requires |s| == 4
  {
    FromLittleEndian(s) % TWO_32
  }

  function DecodeTimespec(s: seq<byte>): Timespec
    requires |s| == 32
  {
    Timespec(Signed(Word(s[..8])), Signed(Word(s[8..16])), Word(s[16..24]),
             HalfWord(s[24..28]), HalfWord(s[28..32]))
  }

  /** `readInBinary`. */
  function DecodeRecord(s: seq<byte>): LogData
    requires |s| == RECORD_SIZE
  {
    LogData(Signed(Word(s[..8])), DecodeTimespec(s[8..]))
  }

  lemma WordRoundTrip(x: uint64)
    ensures Word(LittleEndian(x, 8)) == x
  {
    PowersOf256();
    LittleEndianRoundTrip(x, 8);
  }

  lemma HalfWordRoundTrip(x: uint32)
    ensures HalfWord(LittleEndian(x, 4)) == x
  {
    PowersOf256();
    LittleEndianRoundTrip(x, 4);
  }

  lemma TimespecRoundTrip(ts: Timespec)
    ensures DecodeTimespec(EncodeTimespec(ts)) == ts
  {
    var s := EncodeTimespec(ts);
    assert s[..8] == LittleEndian(Unsigned(ts.sec), 8);
    assert s[8..16] == LittleEndian(Unsigned(ts.nsec), 8);
    assert s[16..24] == LittleEndian(ts.tsc, 8);
    assert s[24..28] == LittleEndian(ts.aux, 4);
    assert s[28..32] == LittleEndian(ts.pad, 4);
    WordRoundTrip(Unsigned(ts.sec));
    WordRoundTrip(Unsigned(ts.nsec));
    WordRoundTrip(ts.tsc);
    HalfWordRoundTrip(ts.aux);
    HalfWordRoundTrip(ts.pad);
  }

  lemma RecordRoundTrip(r: LogData)
    ensures DecodeRecord(EncodeRecord(r)) == r
  {
    var s := EncodeRecord(r);
    assert s[..8] == LittleEndian(Unsigned(r.tuple), 8);
    assert s[8..] == EncodeTimespec(r.ts);
    WordRoundTrip(Unsigned(r.tuple));
    TimespecRoundTrip(r.ts);
  }

  /** What the uncompressed binary format writes for a log. */
  function EncodeLog(log: seq<LogData>): seq<byte> {
    if log == [] then [] else EncodeRecord(log[0]) + EncodeLog(log[1..])
  }

  /** The complete records of a binary file. */
  function Records(s: seq<byte>): seq<LogData> {
    if |s| < RECORD_SIZE then [] else [DecodeRecord(s[..RECORD_SIZE])] + Records(s[RECORD_SIZE..])
  }

  lemma {:induction false} EncodeLogConcat(a: seq<LogData>, b: seq<LogData>)
    ensures EncodeLog(a + b) == EncodeLog(a) + EncodeLog(b)
  {
    if a == [] {
      assert a + b == b;
    } else {
      EncodeLogConcat(a[1..], b);
      assert (a + b)[0] == a[0] && (a + b)[1..] == a[1..] + b;
      Associative(EncodeRecord(a[0]), EncodeLog(a[1..]), EncodeLog(b));
    }
  }

  lemma Associative(x: seq<byte>, y: seq<byte>, z: seq<byte>)
    ensures x + (y + z) == (x + y) + z
  {
  }

  lemma {:induction false} EncodeLogLength(log: seq<LogData>)
    ensures |EncodeLog(log)| == RECORD_SIZE * |log|
  {
    if log != [] { EncodeLogLength(log[1..]); }
  }

  /** Reading any prefix of a binary file gives the records written completely. */
  lemma {:induction false} RecordsOfPrefix(log: seq<LogData>, n: nat)
    requires n <= |EncodeLog(log)|
    ensures n / RECORD_SIZE <= |log|
    ensures Records(EncodeLog(log)[..n]) == log[..n / RECORD_SIZE]
  {
    var s := EncodeLog(log)[..n];
    EncodeLogLength(log);
    if n >= RECORD_SIZE {
      RecordRoundTrip(log[0]);
      assert s[..RECORD_SIZE] == EncodeRecord(log[0]);
      assert s[RECORD_SIZE..] == EncodeLog(log[1..])[..n - RECORD_SIZE];
      EncodeLogLength(log[1..]);
      RecordsOfPrefix(log[1..], n - RECORD_SIZE);
      assert log[..n / RECORD_SIZE] == [log[0]] + log[1..][..(n - RECORD_SIZE) / RECORD_SIZE];
    }
  }

  lemma BinaryRoundTrip(log: seq<LogData>)
    ensures Records(EncodeLog(log)) == log
  {
    EncodeLogLength(log);
    RecordsOfPrefix(log, |EncodeLog(log)|);
    assert EncodeLog(log)[..|EncodeLog(log)|] == EncodeLog(log);
    assert log[..|log|] == log;
  }

  // ---- length-prefixed frames ---------------------------------------------

  /** `writeCompressed`: the size as a 4-byte integer, then the bytes. */
  function Frame(p: seq<byte>): seq<byte> { LittleEndian(|p|, 4) + p }

  function FrameFile(ps: seq<seq<byte>>): seq<byte> {
    if ps == [] then [] else Frame(ps[0]) + FrameFile(ps[1..])
  }

  /** The complete frames at the start of a file. */
  function Frames(s: seq<byte>): seq<seq<byte>> {
    if |s| < 4 then []
    else
      var size := FromLittleEndian(s[..4]);
      if |s| - 4 < size then [] else [s[4..4 + size]] + Frames(s[4 + size..])
  }

  /** How many of the frames are complete in the first n bytes. */
  function WholeFrames(ps: seq<seq<byte>>, n: nat): (k: nat)
    ensures k <= |ps|
  {
    if ps == [] || n < 4 + |ps[0]| then 0 else 1 + WholeFrames(ps[1..], n - 4 - |ps[0]|)
  }

  /** Parsing any prefix of a framed file gives the frames written completely. */
  lemma {:induction false} FramesOfPrefix(ps: seq<seq<byte>>, n: nat)
    requires n <= |FrameFile(ps)|
    requires forall p :: p in ps ==> |p| < TWO_31
    ensures Frames(FrameFile(ps)[..n]) == ps[..WholeFrames(ps, n)]
  {
    if ps != [] {
      var s := FrameFile(ps)[..n];
      assert ps[0] in ps;
      FrameSlices(ps[0], FrameFile(ps[1..]), n);
      if n >= 4 + |ps[0]| {
        FramesOfPrefix(ps[1..], n - 4 - |ps[0]|);
        assert Frames(s) == [ps[0]] + Frames(FrameFile(ps[1..])[..n - 4 - |ps[0]|]);
      }
    }
  }

  /** The parts of a file that starts with a frame, cut off after n bytes. */
  lemma FrameSlices(p: seq<byte>, rest: seq<byte>, n: nat)
    requires |p| < TWO_31 && n <= |Frame(p) + rest|
    ensures var s := (Frame(p) + rest)[..n];
      && (n >= 4 ==> FromLittleEndian(s[..4]) == |p|)
      && (n >= 4 + |p| ==> s[4..4 + |p|] == p && s[4 + |p|..] == rest[..n - 4 - |p|])
  {
    var f := Frame(p) + rest;
    var s := f[..n];
    PowersOf256();
    LittleEndianRoundTrip(|p|, 4);
    assert f[..4] == LittleEndian(|p|, 4);
    if n >= 4 { assert s[..4] == f[..4]; }
    if n >= 4 + |p| {
      assert f[4..4 + |p|] == p;
      assert s[4..4 + |p|] == f[4..4 + |p|];
    }
  }

  lemma {:induction false} WholeFile(ps: seq<seq<byte>>)
    ensures WholeFrames(ps, |FrameFile(ps)|) == |ps|
  {
    if ps != [] { WholeFile(ps[1..]); }
  }

  // ---- compressed files ---------------------------------------------------

  /** A block compressor and its inverse. */
  datatype Codec = Codec(compress: seq<byte> -> seq<byte>, decompress: seq<byte> -> seq<byte>)

  ghost predicate Lossless(c: Codec) {
    forall s :: c.decompress(c.compress(s)) == s
  }

  /** The converter's two buffers, 40 bytes for each record of a block. */
  const CONVERTER_BUFFER: nat := 40000000

  function Payloads(c: Codec, blocks: seq<seq<LogData>>): seq<seq<byte>> {
    if blocks == [] then [] else [c.compress(EncodeLog(blocks[0]))] + Payloads(c, blocks[1..])
  }

  /** The file of a compressed channel, block by block. */
  function CompressedFile(c: Codec, blocks: seq<seq<LogData>>): seq<byte> {
    FrameFile(Payloads(c, blocks))
  }

  function DecompressAll(c: Codec, ps: seq<seq<byte>>): seq<byte> {
    if ps == [] then [] else c.decompress(ps[0]) + DecompressAll(c, ps[1..])
  }

  /** What the converter makes of a compressed file. */
  function Decompressed(c: Codec, file: seq<byte>): seq<byte> {
    DecompressAll(c, Frames(file))
  }

  /** Compressed blocks and their contents fit into the converter's buffers. */
  ghost predicate BlocksFit(c: Codec, blocks: seq<seq<LogData>>) {
    forall b :: b in blocks ==> |c.compress(EncodeLog(b))| <= CONVERTER_BUFFER && |EncodeLog(b)| <= CONVERTER_BUFFER
  }

  lemma {:induction false} PayloadsFit(c: Codec, blocks: seq<seq<LogData>>)
    requires BlocksFit(c, blocks)
    ensures |Payloads(c, blocks)| == |blocks|
    ensures forall p :: p in Payloads(c, blocks) ==> |p| <= CONVERTER_BUFFER
  {
    if blocks != [] {
      assert blocks[0] in blocks;
      PayloadsFit(c, blocks[1..]);
    }
  }

  lemma {:induction false} DecompressPayloads(c: Codec, blocks: seq<seq<LogData>>, k: nat)
    requires Lossless(c) && k <= |blocks| == |Payloads(c, blocks)|
    ensures DecompressAll(c, Payloads(c, blocks)[..k]) == EncodeLog(Flatten(blocks[..k]))
  {
    if k > 0 {
      var ps := Payloads(c, blocks);
      assert ps[..k][1..] == Payloads(c, blocks[1..])[..k - 1];
      assert blocks[..k][1..] == blocks[1..][..k - 1];
      DecompressPayloads(c, blocks[1..], k - 1);
      EncodeLogConcat(blocks[0], Flatten(blocks[1..][..k - 1]));
    }
  }

  /** The two formats agree: however a log is cut into blocks, the converter
      turns the compressed file into exactly the bytes that the uncompressed
      format writes, and those read back as the log. */
  lemma FormatsAgree(c: Codec, blocks: seq<seq<LogData>>)
    requires Lossless(c) && BlocksFit(c, blocks)
    ensures Decompressed(c, CompressedFile(c, blocks)) == EncodeLog(Flatten(blocks))
    ensures Records(Decompressed(c, CompressedFile(c, blocks))) == Flatten(blocks)
  {
    var ps := Payloads(c, blocks);
    PayloadsFit(c, blocks);
    FramesOfPrefix(ps, |FrameFile(ps)|);
    WholeFile(ps);
    assert FrameFile(ps)[..|FrameFile(ps)|] == FrameFile(ps);
    DecompressPayloads(c, blocks, |blocks|);
    assert blocks[..|blocks|] == blocks && ps[..|ps|] == ps;
    BinaryRoundTrip(Flatten(blocks));
  }

  /** A compressed file cut off at any byte still converts, to the records of the
      blocks that were written completely. */
  lemma TruncatedFile(c: Codec, blocks: seq<seq<LogData>>, n: nat)
    requires Lossless(c) && BlocksFit(c, blocks) && n <= |CompressedFile(c, blocks)|
    ensures var k := WholeFrames(Payloads(c, blocks), n);
      k <= |blocks| && Records(Decompressed(c, CompressedFile(c, blocks)[..n])) == Flatten(blocks[..k])
  {
    var ps := Payloads(c, blocks);
    PayloadsFit(c, blocks);
    FramesOfPrefix(ps, n);
    DecompressPayloads(c, blocks, WholeFrames(ps, n));
    BinaryRoundTrip(Flatten(blocks[..WholeFrames(ps, n)]));
  }

  // ---- the converter ------------------------------------------------------

  /** An input stream: a read that hits the end takes what is left and sets the
      end-of-file flag; after that reads do nothing. */
  class InStream {
    const bytes: seq<byte>
    var pos: nat
    var eof: bool

    ghost predicate Valid()
      reads this
    {
      pos <= |bytes|
    }

    constructor (bytes: seq<byte>)
      ensures Valid() && this.bytes == bytes && pos == 0 && !eof
    {
      this.bytes := bytes;
      pos, eof := 0, false;
    }

    method Read(n: nat) returns (chunk: seq<byte>)
      requires Valid()
      modifies this
      ensures Valid()
      ensures old(eof) ==> chunk == [] && eof && pos == old(pos)
      ensures !old(eof) && n <= |bytes| - old(pos) ==>
        chunk == bytes[old(pos)..old(pos) + n] && pos == old(pos) + n && !eof
      ensures !old(eof) && n > |bytes| - old(pos) ==> chunk == bytes[old(pos)..] && pos == |bytes| && eof
    {
      if eof {
        chunk := [];
      } else if n <= |bytes| - pos {
        chunk := bytes[pos..pos + n];
        pos := pos + n;
      } else {
        chunk := bytes[pos..];
        pos := |bytes|;
        eof := true;
      }
    }
  }

  /** Every frame that the converter comes to read fits into its buffers. */
  ghost predicate SizesFit(c: Codec, s: seq<byte>) {
    |s| < 4 ||
    var size := FromLittleEndian(s[..4]);
    size <= CONVERTER_BUFFER &&
    (|s| - 4 < size || (|c.decompress(s[4..4 + size])| <= CONVERTER_BUFFER && SizesFit(c, s[4 + size..])))
  }

  /** The rest of a file is either one complete frame and a further rest, or
      holds no complete frame. */
  lemma FirstFrame(c: Codec, s: seq<byte>)
    requires |s| >= 4 && FromLittleEndian(s[..4]) <= |s| - 4
    ensures var size := FromLittleEndian(s[..4]);
      DecompressAll(c, Frames(s)) == c.decompress(s[4..4 + size]) + DecompressAll(c, Frames(s[4 + size..]))
  {
    var size := FromLittleEndian(s[..4]);
    assert Frames(s)[1..] == Frames(s[4 + size..]);
  }

  predicate HasFrame(s: seq<byte>) {
    |s| >= 4 && FromLittleEndian(s[..4]) <= |s| - 4
  }

  /** One turn of the converter's loop on the file from `pos` on. */
  lemma ConverterTurn(c: Codec, file: seq<byte>, pos: nat, out: seq<byte>)
    requires pos <= |file| && HasFrame(file[pos..])
    ensures var size := FromLittleEndian(file[pos..pos + 4]);
      && pos + 4 + size <= |file|
      && (SizesFit(c, file[pos..]) ==> SizesFit(c, file[pos + 4 + size..]))
      && out + DecompressAll(c, Frames(file[pos..]))
         == (out + c.decompress(file[pos + 4..pos + 4 + size])) + DecompressAll(c, Frames(file[pos + 4 + size..]))
  {
    var rest := file[pos..];
    assert rest[..4] == file[pos..pos + 4];
    var size := FromLittleEndian(rest[..4]);
    assert rest[4..4 + size] == file[pos + 4..pos + 4 + size];
    var after := rest[4 + size..];
    assert after == file[pos + 4 + size..];
    FirstFrame(c, rest);
    Associative(out, c.decompress(rest[4..4 + size]), DecompressAll(c, Frames(after)));
  }

  /** `decompress`: read a size, read that many bytes, stop at the end of the
      file, otherwise write the decompressed block. */
  method Decompress(c: Codec, file: seq<byte>) returns (out: seq<byte>)
    requires SizesFit(c, file)
    ensures out == Decompressed(c, file)
  {
    var log_to_read := new InStream(file);
    out := [];
    var blockSize: nat := 0;
    assert file[0..] == file;
    while true
      invariant log_to_read.Valid() && log_to_read.bytes == file && !log_to_read.eof
      invariant SizesFit(c, file[log_to_read.pos..])
      invariant out + DecompressAll(c, Frames(file[log_to_read.pos..])) == Decompressed(c, file)
      decreases |file| - log_to_read.pos
    {
      ghost var pos := log_to_read.pos;
      var sizeBytes := log_to_read.Read(4);
      if |sizeBytes| == 4 {
        blockSize := FromLittleEndian(sizeBytes);
        assert file[pos..][..4] == sizeBytes;
      }
      var block := log_to_read.Read(blockSize);
      if log_to_read.eof {
        assert !HasFrame(file[pos..]);
        break;
      }
      ConverterTurn(c, file, pos, out);
      out := out + c.decompress(block);
    }
  }

  /** `readInBinary`.  If the end of the file is hit, whatever was read is of no use. */
  method ReadInBinary(log_to_read: InStream) returns (record: LogData)
    requires log_to_read.Valid() && !log_to_read.eof
    modifies log_to_read
    ensures log_to_read.Valid()
    ensures log_to_read.eof <==> |log_to_read.bytes| - old(log_to_read.pos) < RECORD_SIZE
    ensures !log_to_read.eof ==> log_to_read.pos == old(log_to_read.pos) + RECORD_SIZE
    ensures Records(log_to_read.bytes[old(log_to_read.pos)..])
         == if log_to_read.eof then [] else [record] + Records(log_to_read.bytes[log_to_read.pos..])
  {
    ghost var rest := log_to_read.bytes[log_to_read.pos..];
    var tuple := log_to_read.Read(8);
    var ts := log_to_read.Read(32);
    if log_to_read.eof {
      record := LogData(0, Timespec(0, 0, 0, 0, 0));
    } else {
      assert tuple + ts == rest[..RECORD_SIZE];
      assert log_to_read.bytes[log_to_read.pos..] == rest[RECORD_SIZE..];
      record := DecodeRecord(tuple + ts);
    }
  }

  lemma NextRecord(a: seq<LogData>, r: LogData, b: seq<LogData>)
    ensures a + ([r] + b) == a + [r] + b
  {
  }

  /** `convertBinToASCII`: read records and write them as text until the end of the
      file is hit. */
  method ConvertBinary(file: seq<byte>) returns (log_to_write: string)
    ensures log_to_write == AsciiLog(Records(file))
  {
    var log_to_read := new InStream(file);
    log_to_write := "";
    ghost var recs := [];
    while true
      invariant log_to_read.Valid() && log_to_read.bytes == file && !log_to_read.eof
      invariant recs + Records(file[log_to_read.pos..]) == Records(file) && log_to_write == AsciiLog(recs)
      decreases |file| - log_to_read.pos
    {
      var record := ReadInBinary(log_to_read);
      if log_to_read.eof {
        assert recs + [] == recs;
        break;
      }
      NextRecord(recs, record, Records(file[log_to_read.pos..]));
      log_to_write := WriteInAscii(log_to_write, recs, record);
      recs := recs + [record];
    }
  }

  /** The text converted from a binary file, whole or cut off anywhere, shows the
      records written completely. */
  lemma ConvertedText(log: seq<LogData>, n: nat)
    requires n <= |EncodeLog(log)|
    ensures n / RECORD_SIZE <= |log|
    ensures ReadAscii(AsciiLog(Records(EncodeLog(log)[..n])))
         == seq(n / RECORD_SIZE, i requires 0 <= i < n / RECORD_SIZE => Some(Show(log[i])))
  {
    EncodeLogLength(log);
    RecordsOfPrefix(log, n);
    AsciiRoundTrip(log[..n / RECORD_SIZE]);
  }

  /** Files of the profiler, whole or cut off, satisfy the converter's demand. */
  lemma {:induction false} CompressedSizesFit(c: Codec, blocks: seq<seq<LogData>>, n: nat)
    requires Lossless(c) && BlocksFit(c, blocks) && n <= |CompressedFile(c, blocks)|
    ensures SizesFit(c, CompressedFile(c, blocks)[..n])
  {
    if blocks != [] {
      assert blocks[0] in blocks;
      var p := c.compress(EncodeLog(blocks[0]));
      assert Payloads(c, blocks)[1..] == Payloads(c, blocks[1..]);
      FrameSlices(p, CompressedFile(c, blocks[1..]), n);
      if n >= 4 + |p| {
        CompressedSizesFit(c, blocks[1..], n - 4 - |p|);
      }
    }
  }
}
