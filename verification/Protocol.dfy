/** Wire format of requests and RDT records (src/core/src/detail/protocol.cpp). */
module Protocol {
  import opened Words

  type byte = x: int | 0 <= x < 256
  type i32 = x: int | -0x8000_0000 <= x < 0x8000_0000

  const RECORD_SIZE := 36

  datatype Command = StopStreaming | StartRealtime | StartBuffered | ResetConditionLatch | SetSoftwareBias
  datatype Option<+T> = None | Some(value: T)

  datatype RawRecord = RawRecord(rdtSequence: u32, ftSequence: u32, status: u32,
                                 fx: i32, fy: i32, fz: i32, tx: i32, ty: i32, tz: i32)

  /** Big-endian; the shifted bytes do not overlap, so their bitwise or is a sum. */
  function ReadU32(d: seq<byte>): u32
    requires |d| == 4
  {
    var b0: int, b1: int, b2: int, b3: int := d[0], d[1], d[2], d[3];
    b0 * 0x100_0000 + b1 * 0x1_0000 + b2 * 0x100 + b3
  }

  /** Two's complement without an out-of-range cast: `-(~value) - 1` for the upper half. */
  function ReadI32(d: seq<byte>): i32
    requires |d| == 4
  {
    var value := ReadU32(d);
    if value <= 0x7fff_ffff then value
    else
      var inverted := 0xffff_ffff - value;
      -inverted - 1
  }

  function WriteU32(v: u32): (d: seq<byte>)
    ensures |d| == 4
  {
    [v / 0x100_0000, v / 0x1_0000 % 0x100, v / 0x100 % 0x100, v % 0x100]
  }

  function WriteI32(v: i32): (d: seq<byte>)
    ensures |d| == 4
  {
    WriteU32(v % WORD)
  }

  lemma DivisionSplits(v: u32)
    ensures v / 0x1_0000 == v / 0x100 / 0x100
    ensures v / 0x100_0000 == v / 0x1_0000 / 0x100
  {
  }

  lemma WordRoundTrip(v: u32)
    ensures ReadU32(WriteU32(v)) == v
  {
    DivisionSplits(v);
  }

  lemma BytesRoundTrip(d: seq<byte>)
    requires |d| == 4
    ensures WriteU32(ReadU32(d)) == d
  {
    var v := ReadU32(d);
    var b0: int, b1: int, b2: int := d[0], d[1], d[2];
    assert v / 0x100 == b0 * 0x1_0000 + b1 * 0x100 + b2;
    assert v / 0x1_0000 == b0 * 0x100 + b1;
    assert v / 0x100_0000 == b0;
  }

  /** The signed reader is exact: it is the one number of the 32-bit signed range congruent to the word. */
  lemma SignedReaderExact(d: seq<byte>)
    requires |d| == 4
    ensures ReadI32(d) % WORD == ReadU32(d)
    ensures WriteI32(ReadI32(d)) == d
  {
    var value := ReadU32(d);
    if value > 0x7fff_ffff {
      assert ReadI32(d) == value - WORD;
    }
    BytesRoundTrip(d);
  }

  lemma SignedRoundTrip(v: i32)
    ensures ReadI32(WriteI32(v)) == v
  {
    WordRoundTrip(v % WORD);
  }

  /** Big-endian: words compare as their bytes do, the first byte deciding. */
  lemma WordsCompareAsBytes(a: seq<byte>, b: seq<byte>)
    requires |a| == 4 && |b| == 4
    ensures ReadU32(a) < ReadU32(b) <==>
            exists k :: 0 <= k < 4 && a[..k] == b[..k] && a[k] < b[k]
  {
    if ReadU32(a) < ReadU32(b) {
      if a[0] != b[0] {
        assert a[..0] == b[..0] && a[0] < b[0];
      } else if a[1] != b[1] {
        assert a[..1] == b[..1] && a[1] < b[1];
      } else if a[2] != b[2] {
        assert a[..2] == b[..2] && a[2] < b[2];
      } else {
        assert a[..3] == b[..3] && a[3] < b[3];
      }
    }
    if exists k :: 0 <= k < 4 && a[..k] == b[..k] && a[k] < b[k] {
      var k :| 0 <= k < 4 && a[..k] == b[..k] && a[k] < b[k];
      assert k > 0 ==> a[0] == a[..k][0] == b[..k][0] == b[0];
      assert k > 1 ==> a[1] == a[..k][1] == b[..k][1] == b[1];
      assert k > 2 ==> a[2] == a[..k][2] == b[..k][2] == b[2];
    }
  }

  /** None is the protocol error for a datagram of any other size. */
  function DecodeRecord(d: seq<byte>): Option<RawRecord> {
    if |d| != RECORD_SIZE then None
    else Some(RawRecord(ReadU32(d[0..4]), ReadU32(d[4..8]), ReadU32(d[8..12]),
                        ReadI32(d[12..16]), ReadI32(d[16..20]), ReadI32(d[20..24]),
                        ReadI32(d[24..28]), ReadI32(d[28..32]), ReadI32(d[32..36])))
  }

  function EncodeRecord(r: RawRecord): (d: seq<byte>)
    ensures |d| == RECORD_SIZE
  {
    WriteU32(r.rdtSequence) + WriteU32(r.ftSequence) + WriteU32(r.status)
    + WriteI32(r.fx) + WriteI32(r.fy) + WriteI32(r.fz)
    + WriteI32(r.tx) + WriteI32(r.ty) + WriteI32(r.tz)
  }

  /** Decoding is a bijection between 36-byte datagrams and records. */
  lemma DecodeInvertsEncode(r: RawRecord)
    ensures DecodeRecord(EncodeRecord(r)) == Some(r)
  {
    var d := EncodeRecord(r);
    assert d[0..4] == WriteU32(r.rdtSequence);
    assert d[4..8] == WriteU32(r.ftSequence);
    assert d[8..12] == WriteU32(r.status);
    assert d[12..16] == WriteI32(r.fx);
    assert d[16..20] == WriteI32(r.fy);
    assert d[20..24] == WriteI32(r.fz);
    assert d[24..28] == WriteI32(r.tx);
    assert d[28..32] == WriteI32(r.ty);
    assert d[32..36] == WriteI32(r.tz);
    WordRoundTrip(r.rdtSequence);
    WordRoundTrip(r.ftSequence);
    WordRoundTrip(r.status);
    SignedRoundTrip(r.fx);
    SignedRoundTrip(r.fy);
    SignedRoundTrip(r.fz);
    SignedRoundTrip(r.tx);
    SignedRoundTrip(r.ty);
    SignedRoundTrip(r.tz);
  }

  /** Which word of a datagram each field is. */
  function Fields(r: RawRecord): seq<u32> {
    [r.rdtSequence, r.ftSequence, r.status, r.fx % WORD, r.fy % WORD, r.fz % WORD, r.tx % WORD, r.ty % WORD, r.tz % WORD]
  }

  /** A record's k-th field is the k-th word of its datagram. */
  lemma FieldsInOrder(d: seq<byte>, k: nat)
    requires DecodeRecord(d).Some? && k < 9
    ensures |d| == 36 && Fields(DecodeRecord(d).value)[k] == ReadU32(d[4 * k..4 * k + 4])
  {
    hide ReadU32;
    SignedReaderExact(d[12..16]);
    SignedReaderExact(d[16..20]);
    SignedReaderExact(d[20..24]);
    SignedReaderExact(d[24..28]);
    SignedReaderExact(d[28..32]);
    SignedReaderExact(d[32..36]);
  }

  lemma EncodeInvertsDecode(d: seq<byte>)
    ensures DecodeRecord(d).Some? <==> |d| == RECORD_SIZE
    ensures DecodeRecord(d).Some? ==> EncodeRecord(DecodeRecord(d).value) == d
  {
    if |d| == RECORD_SIZE {
      BytesRoundTrip(d[0..4]);
      BytesRoundTrip(d[4..8]);
      BytesRoundTrip(d[8..12]);
      SignedReaderExact(d[12..16]);
      SignedReaderExact(d[16..20]);
      SignedReaderExact(d[20..24]);
      SignedReaderExact(d[24..28]);
      SignedReaderExact(d[28..32]);
      SignedReaderExact(d[32..36]);
      assert d == d[0..4] + d[4..8] + d[8..12] + d[12..16] + d[16..20]
                  + d[20..24] + d[24..28] + d[28..32] + d[32..36];
    }
  }

  function CommandCode(c: Command): nat {
    match c
    case StopStreaming => 0x0000
    case StartRealtime => 0x0002
    case StartBuffered => 0x0003
    case ResetConditionLatch => 0x0041
    case SetSoftwareBias => 0x0042
  }

  function EncodeRequest(c: Command, count: u32): (d: seq<byte>)
    ensures |d| == 8
  {
    [0x12, 0x34, CommandCode(c) / 0x100, CommandCode(c) % 0x100] + WriteU32(count)
  }

  /** A request is the header 0x1234, the command's code in two bytes and the count in four. */
  lemma RequestLayout(c: Command, count: u32)
    ensures var d := EncodeRequest(c, count);
            && ReadU32(d[..4]) == 0x1234_0000 + (match c case StopStreaming => 0 case StartRealtime => 2
                                                 case StartBuffered => 3 case ResetConditionLatch => 0x41
                                                 case SetSoftwareBias => 0x42)
            && ReadU32(d[4..]) == count
  {
    var d := EncodeRequest(c, count);
    assert d[..4] == [0x12, 0x34, CommandCode(c) / 0x100, CommandCode(c) % 0x100];
    assert d[4..] == WriteU32(count);
    WordRoundTrip(count);
  }

  /** No two requests share an encoding. */
  lemma RequestsDiffer(c: Command, n: u32, c': Command, n': u32)
    requires EncodeRequest(c, n) == EncodeRequest(c', n')
    ensures c == c' && n == n'
  {
    assert EncodeRequest(c, n)[2..4] == [CommandCode(c) / 0x100, CommandCode(c) % 0x100];
    assert EncodeRequest(c', n')[2..4] == [CommandCode(c') / 0x100, CommandCode(c') % 0x100];
    assert EncodeRequest(c, n)[3] == CommandCode(c) % 0x100;
    assert EncodeRequest(c, n)[4..] == WriteU32(n);
    assert EncodeRequest(c', n')[4..] == WriteU32(n');
    WordRoundTrip(n);
    WordRoundTrip(n');
  }
}
