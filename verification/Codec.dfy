/**
 The data plane's wire headers: the 16-byte stream header, the 22-byte datagram
 header and the 18-byte frame header, all big-endian.
*/
module Codec {
  import opened Words

  function Pow256(k: nat): nat {
    if k == 0 then 1 else 256 * Pow256(k - 1)
  }

  /** `to_be_bytes` of a `k`-byte integer. */
  function Be(n: nat, k: nat): (b: seq<Byte>)
    ensures |b| == k
  {
    if k == 0 then [] else Be(n / 256, k - 1) + [n % 256]
  }

  function FromBe(b: seq<Byte>): nat {
    if b == [] then 0 else 256 * FromBe(b[..|b| - 1]) + b[|b| - 1]
  }

  lemma {:induction false} BeRoundTrip(n: nat, k: nat)
    requires n < Pow256(k)
    ensures FromBe(Be(n, k)) == n
  {
    if k > 0 {
      BeRoundTrip(n / 256, k - 1);
      assert Be(n, k)[..k - 1] == Be(n / 256, k - 1);
    }
  }

  lemma {:induction false} BytesRoundTrip(b: seq<Byte>)
    ensures FromBe(b) < Pow256(|b|) && Be(FromBe(b), |b|) == b
    decreases |b|
  {
    if b != [] {
      BytesRoundTrip(b[..|b| - 1]);
      assert b == b[..|b| - 1] + [b[|b| - 1]];
    }
  }

  lemma {:induction false} Widths()
    ensures Pow256(2) == 0x1_0000 && Pow256(4) == 0x1_0000_0000
    ensures Pow256(8) == 0x1_0000_0000_0000_0000
  {
    assert Pow256(1) == 256 && Pow256(3) == 0x100_0000;
    assert Pow256(5) == 0x100_0000_0000 && Pow256(6) == 0x1_0000_0000_0000;
    assert Pow256(7) == 0x100_0000_0000_0000;
  }

  function BeU16(b: seq<Byte>): U16
    requires |b| == 2
  {
    BytesRoundTrip(b);
    Widths();
    FromBe(b)
  }

  function BeU32(b: seq<Byte>): U32
    requires |b| == 4
  {
    BytesRoundTrip(b);
    Widths();
    FromBe(b)
  }

  function BeU64(b: seq<Byte>): U64
    requires |b| == 8
  {
    BytesRoundTrip(b);
    Widths();
    FromBe(b)
  }

  /** Where the pieces of a concatenation are found again. */
  lemma Pieces(a: seq<Byte>, b: seq<Byte>, c: seq<Byte>, d: seq<Byte>, e: seq<Byte>)
    ensures var whole := a + b + c + d + e;
            var i, j := |a| + |b|, |a| + |b| + |c|;
            && whole[..|a|] == a && whole[|a|..i] == b && whole[i..j] == c && whole[j..j + |d|] == d
            && whole[j + |d|..] == e
  {
  }

  datatype HeaderError = Short(len: nat) | BadMagic | BadKind(kind: Byte) | WrongTag

  datatype Result<+T> = Ok(value: T) | Err(error: HeaderError)

  // ----- Stream header -----------------------------------------------------

  /** "TBN1" */
  const STREAM_MAGIC: seq<Byte> := [0x54, 0x42, 0x4E, 0x31]

  const STREAM_LEN := 16

  datatype StreamKind = Upload | Download | Echo | Frames

  function KindByte(k: StreamKind): Byte {
    match k
    case Upload => 0
    case Download => 1
    case Echo => 2
    case Frames => 3
  }

  function KindOf(b: Byte): Result<StreamKind> {
    if b == 0 then Ok(Upload)
    else if b == 1 then Ok(Download)
    else if b == 2 then Ok(Echo)
    else if b == 3 then Ok(Frames)
    else Err(BadKind(b))
  }

  datatype StreamHeader = StreamHeader(runTag: U64, streamIdx: U16, kind: StreamKind)

  function EncodeStream(h: StreamHeader): (b: seq<Byte>)
    ensures |b| == STREAM_LEN
  {
    STREAM_MAGIC + Be(h.runTag, 8) + Be(h.streamIdx, 2) + [KindByte(h.kind), 0]
  }

  function DecodeStream(b: seq<Byte>): Result<StreamHeader> {
    if |b| < STREAM_LEN then Err(Short(|b|))
    else if b[..4] != STREAM_MAGIC then Err(BadMagic)
    else
      match KindOf(b[14])
      case Err(e) => Err(e)
      case Ok(kind) => Ok(StreamHeader(BeU64(b[4..12]), BeU16(b[12..14]), kind))
  }

  function DecodeStreamFor(b: seq<Byte>, runTag: U64): Result<StreamHeader> {
    match DecodeStream(b)
    case Err(e) => Err(e)
    case Ok(h) => if h.runTag != runTag then Err(WrongTag) else Ok(h)
  }

  /** What is encoded is decoded, whatever follows it; only its own tag accepts it. */
  lemma StreamRoundTrip(h: StreamHeader, tail: seq<Byte>, tag: U64)
    ensures DecodeStream(EncodeStream(h) + tail) == Ok(h)
    ensures DecodeStreamFor(EncodeStream(h) + tail, tag) == if tag == h.runTag then Ok(h) else Err(WrongTag)
  {
    var b := EncodeStream(h) + tail;
    Widths();
    BeRoundTrip(h.runTag, 8);
    BeRoundTrip(h.streamIdx, 2);
    Pieces(STREAM_MAGIC, Be(h.runTag, 8), Be(h.streamIdx, 2), [KindByte(h.kind), 0], tail);
    assert b[14] == b[14..16][0];
  }

  /** Exactly the well-formed bytes decode, and to a header that encodes back to them but for the reserved byte. */
  lemma StreamDecodes(b: seq<Byte>)
    ensures DecodeStream(b).Ok? <==> |b| >= STREAM_LEN && b[..4] == STREAM_MAGIC && b[14] <= 3
    ensures DecodeStream(b).Ok? ==> EncodeStream(DecodeStream(b).value) == b[..15] + [0]
  {
    if DecodeStream(b).Ok? {
      BytesRoundTrip(b[4..12]);
      BytesRoundTrip(b[12..14]);
      assert b[..15] == b[..4] + b[4..12] + b[12..14] + [b[14]];
    }
  }

  // ----- Datagram header ---------------------------------------------------

  /** "TB" */
  const DATAGRAM_MAGIC: seq<Byte> := [0x54, 0x42]

  const DATAGRAM_LEN := 22

  datatype DatagramHeader = DatagramHeader(runTagLo: U32, seqNo: U64, sendNs: U64)

  function EncodeDatagram(h: DatagramHeader): (b: seq<Byte>)
    ensures |b| == DATAGRAM_LEN
  {
    DATAGRAM_MAGIC + Be(h.runTagLo, 4) + Be(h.seqNo, 8) + Be(h.sendNs, 8)
  }

  function DecodeDatagram(b: seq<Byte>): Result<DatagramHeader> {
    if |b| < DATAGRAM_LEN then Err(Short(|b|))
    else if b[..2] != DATAGRAM_MAGIC then Err(BadMagic)
    else Ok(DatagramHeader(BeU32(b[2..6]), BeU64(b[6..14]), BeU64(b[14..22])))
  }

  /** Only the low 32 bits of the run tag travel. */
  function RunTagLo(runTag: U64): U32 {
    runTag % 0x1_0000_0000
  }

  function DecodeDatagramFor(b: seq<Byte>, runTag: U64): Result<DatagramHeader> {
    match DecodeDatagram(b)
    case Err(e) => Err(e)
    case Ok(h) => if h.runTagLo != RunTagLo(runTag) then Err(WrongTag) else Ok(h)
  }

  lemma DatagramRoundTrip(h: DatagramHeader, payload: seq<Byte>, tag: U64)
    ensures DecodeDatagram(EncodeDatagram(h) + payload) == Ok(h)
    ensures DecodeDatagramFor(EncodeDatagram(h) + payload, tag)
            == if tag % 0x1_0000_0000 == h.runTagLo then Ok(h) else Err(WrongTag)
  {
    var b := EncodeDatagram(h) + payload;
    Widths();
    BeRoundTrip(h.runTagLo, 4);
    BeRoundTrip(h.seqNo, 8);
    BeRoundTrip(h.sendNs, 8);
    Pieces(DATAGRAM_MAGIC, Be(h.runTagLo, 4), Be(h.seqNo, 8), Be(h.sendNs, 8), payload);
  }

  lemma DatagramDecodes(b: seq<Byte>)
    ensures DecodeDatagram(b).Ok? <==> |b| >= DATAGRAM_LEN && b[..2] == DATAGRAM_MAGIC
    ensures DecodeDatagram(b).Ok? ==> EncodeDatagram(DecodeDatagram(b).value) == b[..DATAGRAM_LEN]
  {
    if DecodeDatagram(b).Ok? {
      BytesRoundTrip(b[2..6]);
      BytesRoundTrip(b[6..14]);
      BytesRoundTrip(b[14..22]);
      assert b[..22] == b[..2] + b[2..6] + b[6..14] + b[14..22];
    }
  }

  // ----- Frame header ------------------------------------------------------

  const FRAME_LEN := 18

  datatype FrameHeader =
    FrameHeader(frameNo: U32, fragIdx: U16, fragCnt: U16, keyframe: bool, captureNs: U64)

  function EncodeFrame(h: FrameHeader): (b: seq<Byte>)
    ensures |b| == FRAME_LEN
  {
    Be(h.frameNo, 4) + Be(h.fragIdx, 2) + Be(h.fragCnt, 2)
    + [if h.keyframe then 1 else 0, 0] + Be(h.captureNs, 8)
  }

  function FrameOf(b: seq<Byte>): FrameHeader
    requires |b| >= FRAME_LEN
  {
    FrameHeader(BeU32(b[..4]), BeU16(b[4..6]), BeU16(b[6..8]), b[8] % 2 == 1, BeU64(b[10..18]))
  }

  function DecodeFrame(b: seq<Byte>): Result<FrameHeader> {
    if |b| < FRAME_LEN then Err(Short(|b|)) else Ok(FrameOf(b))
  }

  lemma FrameRoundTrip(h: FrameHeader, tail: seq<Byte>)
    ensures DecodeFrame(EncodeFrame(h) + tail) == Ok(h)
  {
    var b := EncodeFrame(h) + tail;
    Widths();
    BeRoundTrip(h.frameNo, 4);
    BeRoundTrip(h.fragIdx, 2);
    BeRoundTrip(h.fragCnt, 2);
    BeRoundTrip(h.captureNs, 8);
    var flags: seq<Byte> := [if h.keyframe then 1 else 0, 0];
    Pieces(Be(h.frameNo, 4), Be(h.fragIdx, 2), Be(h.fragCnt, 2), flags, Be(h.captureNs, 8) + tail);
    assert b == Be(h.frameNo, 4) + Be(h.fragIdx, 2) + Be(h.fragCnt, 2) + flags + (Be(h.captureNs, 8) + tail);
    assert b[8] == b[8..10][0];
    assert b[10..18] == b[10..][..8];
  }
}
