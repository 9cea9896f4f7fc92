/** The 18-byte big-endian frame header and whole-frame encoding. */
module FrameCodec {
  import opened Bytes
  import opened Frames

  const HEADER_SIZE: nat := 18

  function EncodeHeader(h: FrameHeader): (bs: seq<u8>)
    ensures |bs| == HEADER_SIZE
  {
    ToBytes(h.version.major, 2) + ToBytes(h.version.minor, 2) + [h.kind] + [h.flags]
    + ToBytes(h.stream, 8) + ToBytes(h.payloadSize, 4)
  }

  function HeaderOf(bs: seq<u8>): FrameHeader
    requires |bs| == HEADER_SIZE
  {
    WidthBounds();
    FrameHeader(ProtocolVersion(FromBytes(bs[0..2]), FromBytes(bs[2..4])), bs[4], bs[5],
                FromBytes(bs[6..14]), FromBytes(bs[14..18]))
  }

  function EncodeFrame(f: Frame): (bs: seq<u8>)
    ensures |bs| == HEADER_SIZE + |f.payload|
  {
    EncodeHeader(f.header) + f.payload
  }

  function EncodeAll(fs: seq<Frame>): seq<u8> {
    if fs == [] then [] else EncodeFrame(fs[0]) + EncodeAll(fs[1..])
  }

  /** Every header survives the wire. */
  lemma HeaderRoundTrip(h: FrameHeader)
    ensures HeaderOf(EncodeHeader(h)) == h
  {
    WidthBounds();
    FromToBytes(h.version.major, 2);
    FromToBytes(h.version.minor, 2);
    FromToBytes(h.stream, 8);
    FromToBytes(h.payloadSize, 4);
    var bs := EncodeHeader(h);
    assert bs[0..2] == ToBytes(h.version.major, 2);
    assert bs[2..4] == ToBytes(h.version.minor, 2);
    assert bs[6..14] == ToBytes(h.stream, 8);
    assert bs[14..18] == ToBytes(h.payloadSize, 4);
  }

  /** The layout: every field at its own offset, most significant byte first. */
  lemma HeaderLayout(h: FrameHeader)
    ensures var b := EncodeHeader(h);
            && b[0] as int * 0x100 + b[1] as int == h.version.major
            && b[2] as int * 0x100 + b[3] as int == h.version.minor
            && b[4] == h.kind && b[5] == h.flags
            && b[6] as int * 0x100_0000_0000_0000 + b[7] as int * 0x1_0000_0000_0000 + b[8] as int * 0x100_0000_0000
               + b[9] as int * 0x1_0000_0000 + b[10] as int * 0x100_0000 + b[11] as int * 0x1_0000 + b[12] as int * 0x100
               + b[13] as int == h.stream
            && b[14] as int * 0x100_0000 + b[15] as int * 0x1_0000 + b[16] as int * 0x100 + b[17] as int == h.payloadSize
  {
    hide EncodeHeader, FromBytes, ToBytes, Pow256;
    var b := EncodeHeader(h);
    HeaderFields(h);
    TwoBytes(b[0..2]);
    TwoBytes(b[2..4]);
    EightBytes(b[6..14]);
    FourBytes(b[14..18]);
  }

  lemma HeaderFields(h: FrameHeader)
    ensures var b := EncodeHeader(h);
            && FromBytes(b[0..2]) == h.version.major && FromBytes(b[2..4]) == h.version.minor
            && b[4] == h.kind && b[5] == h.flags
            && FromBytes(b[6..14]) == h.stream && FromBytes(b[14..18]) == h.payloadSize
  {
    WidthBounds();
    FromToBytes(h.version.major, 2);
    FromToBytes(h.version.minor, 2);
    FromToBytes(h.stream, 8);
    FromToBytes(h.payloadSize, 4);
    hide FromBytes, ToBytes, Pow256;
    var b := EncodeHeader(h);
    assert b[0..2] == ToBytes(h.version.major, 2) && b[2..4] == ToBytes(h.version.minor, 2);
    assert b[6..14] == ToBytes(h.stream, 8) && b[14..18] == ToBytes(h.payloadSize, 4);
  }

  lemma LastByte(b: seq<u8>, n: nat)
    requires 0 < n <= |b|
    ensures FromBytes(b[..n]) == FromBytes(b[..n - 1]) * 256 + b[n - 1] as int
  {
    assert b[..n][..n - 1] == b[..n - 1];
    hide Pow256;
  }

  lemma NoBytes(b: seq<u8>)
    ensures FromBytes(b[..0]) == 0 && b[..|b|] == b
  {
  }

  lemma TwoBytes(b: seq<u8>)
    requires |b| == 2
    ensures FromBytes(b) == b[0] as int * 0x100 + b[1] as int
  {
    hide FromBytes, Pow256;
    NoBytes(b);
    LastByte(b, 1);
    LastByte(b, 2);
  }

  lemma FourBytes(b: seq<u8>)
    requires |b| == 4
    ensures FromBytes(b) == b[0] as int * 0x100_0000 + b[1] as int * 0x1_0000 + b[2] as int * 0x100 + b[3] as int
  {
    hide FromBytes, Pow256;
    NoBytes(b);
    LastByte(b, 1);
    LastByte(b, 2);
    LastByte(b, 3);
    LastByte(b, 4);
  }

  lemma EightBytes(b: seq<u8>)
    requires |b| == 8
    ensures FromBytes(b)
            == b[0] as int * 0x100_0000_0000_0000 + b[1] as int * 0x1_0000_0000_0000 + b[2] as int * 0x100_0000_0000
               + b[3] as int * 0x1_0000_0000 + b[4] as int * 0x100_0000 + b[5] as int * 0x1_0000 + b[6] as int * 0x100
               + b[7] as int
  {
    hide FromBytes, Pow256;
    NoBytes(b);
    LastByte(b, 1);
    LastByte(b, 2);
    LastByte(b, 3);
    LastByte(b, 4);
    LastByte(b, 5);
    LastByte(b, 6);
    LastByte(b, 7);
    LastByte(b, 8);
  }

  /** Every 18-byte string is the encoding of the header it decodes to. */
  lemma BytesRoundTrip(bs: seq<u8>)
    requires |bs| == HEADER_SIZE
    ensures EncodeHeader(HeaderOf(bs)) == bs
  {
    ToFromBytes(bs[0..2]);
    ToFromBytes(bs[2..4]);
    ToFromBytes(bs[6..14]);
    ToFromBytes(bs[14..18]);
    assert bs == bs[0..2] + bs[2..4] + [bs[4]] + [bs[5]] + bs[6..14] + bs[14..18];
  }

  lemma EncodeAllCons(f: Frame, fs: seq<Frame>)
    ensures EncodeAll([f] + fs) == EncodeFrame(f) + EncodeAll(fs)
  {
    hide EncodeFrame;
    assert ([f] + fs)[1..] == fs;
  }

  lemma {:induction false} EncodeAllAppend(a: seq<Frame>, b: seq<Frame>)
    ensures EncodeAll(a + b) == EncodeAll(a) + EncodeAll(b)
  {
    assert EncodeAll([]) == [];
    hide EncodeAll, EncodeFrame;
    if a == [] {
      assert a + b == b;
    } else {
      EncodeAllAppend(a[1..], b);
      SplitFirst(a);
      SplitFirst(a + b);
      assert (a + b)[1..] == a[1..] + b;
      Associative(EncodeFrame(a[0]), EncodeAll(a[1..]), EncodeAll(b));
    }
  }

  lemma Associative(x: seq<u8>, y: seq<u8>, z: seq<u8>)
    ensures x + (y + z) == (x + y) + z
  {
  }

  lemma SplitFirst(fs: seq<Frame>)
    requires fs != []
    ensures EncodeAll(fs) == EncodeFrame(fs[0]) + EncodeAll(fs[1..])
  {
  }

  lemma EncodeAllSnoc(a: seq<Frame>, f: Frame)
    ensures EncodeAll(a + [f]) == EncodeAll(a) + EncodeFrame(f)
  {
    hide EncodeFrame;
    EncodeAllAppend(a, [f]);
    assert EncodeAll([f]) == EncodeFrame(f);
  }

  /** encode_frame_header fills the fixed array field by field. */
  method EncodeFrameHeader(h: FrameHeader) returns (bytes: seq<u8>)
    ensures bytes == EncodeHeader(h)
  {
    hide ToBytes;
    var out := new u8[18];
    WriteBe16(out, 0, h.version.major);
    assert out[0..2] == ToBytes(h.version.major, 2);
    WriteBe16(out, 2, h.version.minor);
    assert out[0..2] == ToBytes(h.version.major, 2) && out[2..4] == ToBytes(h.version.minor, 2);
    out[4] := h.kind;
    out[5] := h.flags;
    ghost var front := out[..6];
    assert front == ToBytes(h.version.major, 2) + ToBytes(h.version.minor, 2) + [h.kind] + [h.flags] by {
      assert front == out[0..2] + out[2..4] + [out[4]] + [out[5]];
    }
    WriteBe64(out, 6, h.stream);
    assert out[..14] == front + ToBytes(h.stream, 8);
    WriteBe32(out, 14, h.payloadSize);
    assert out[..] == front + ToBytes(h.stream, 8) + ToBytes(h.payloadSize, 4);
    bytes := out[..];
  }

  /** decode_frame_header: nothing when fewer than 18 bytes are available; trailing bytes are ignored. */
  method DecodeFrameHeader(bytes: seq<u8>) returns (header: Option<FrameHeader>)
    ensures header.None? <==> |bytes| < HEADER_SIZE
    ensures header.Some? ==> header.value == HeaderOf(bytes[..HEADER_SIZE])
    ensures header.Some? ==> EncodeHeader(header.value) == bytes[..HEADER_SIZE]
  {
    if |bytes| < HEADER_SIZE {
      return None;
    }
    var stream := ReadBe64(bytes, 6);
    var h := FrameHeader(ProtocolVersion(ReadBe16(bytes, 0), ReadBe16(bytes, 2)),
                         bytes[4], bytes[5], stream, ReadBe32(bytes, 14));
    var prefix := bytes[..HEADER_SIZE];
    assert prefix[0..2] == bytes[0..2] && prefix[2..4] == bytes[2..4];
    assert prefix[6..14] == bytes[6..14] && prefix[14..18] == bytes[14..18];
    BytesRoundTrip(prefix);
    header := Some(h);
  }

  /** encode_frame: header bytes followed by payload bytes. */
  method EncodeFrameBytes(f: Frame) returns (out: seq<u8>)
    ensures out == EncodeFrame(f)
  {
    out := EncodeFrameHeader(f.header);
    out := out + f.payload;
  }
}
