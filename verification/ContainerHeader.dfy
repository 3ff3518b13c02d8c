/** The 32-byte header of the proxy stream container. */
module ContainerHeaders {
  import opened Bytes

  /** The frame rate is carried as the 64 bits of its IEEE 754 double. */
  datatype Header = Header(width: u32, height: u32, fps: u64, frameCount: u32)

  const MAGIC: seq<byte> := [0x54, 0x50, 0x54, 0x56, 0x50, 0x52, 0x31]
  const HEADER_LEN := 32
  const INFINITY: u64 := 0x7FF0_0000_0000_0000
  const VERSION: byte := 1
  const TRANSFORM_ID: byte := 0
  const PLANE_COUNT := 3
  const BIT_DEPTH: byte := 16

  /** The doubles that are finite and above zero: sign clear, not zero, exponent not all ones. */
  predicate PositiveFinite(bits: u64) {
    0 < bits < INFINITY
  }

  /** By the fields of the double: the sign is clear, the exponent is not all ones, and exponent and
      mantissa are not both zero. */
  lemma PositiveFiniteIff(bits: u64)
    ensures var sign, exponent, mantissa := bits / 0x8000_0000_0000_0000, bits / 0x10_0000_0000_0000 % 0x800, bits % 0x10_0000_0000_0000;
            PositiveFinite(bits) <==> sign == 0 && exponent != 0x7FF && !(exponent == 0 && mantissa == 0)
  {
    var exponent, mantissa := bits / 0x10_0000_0000_0000 % 0x800, bits % 0x10_0000_0000_0000;
    assert bits == 0x8000_0000_0000_0000 * (bits / 0x8000_0000_0000_0000) + 0x10_0000_0000_0000 * exponent + mantissa;
  }

  predicate ValidHeader(h: Header) {
    h.width != 0 && h.height != 0 && PositiveFinite(h.fps)
  }

  function Word(raw: seq<byte>, at: nat): u32
    requires at + 4 <= |raw|
  {
    WordBounds(raw[at..at + 4]);
    FromLittleEndian(raw[at..at + 4])
  }

  function Parse(raw: seq<byte>): Result<Header>
    requires |raw| == HEADER_LEN
  {
    if raw[0..7] != MAGIC then Err
    else
      WordBounds(raw[16..24]);
      var h := Header(Word(raw, 8), Word(raw, 12), FromLittleEndian(raw[16..24]), Word(raw, 24));
      if h.width == 0 || h.height == 0 then Err
      else if !PositiveFinite(h.fps) then Err
      else if raw[28] != VERSION || raw[29] != TRANSFORM_ID || raw[30] != PLANE_COUNT || raw[31] != BIT_DEPTH then Err
      else Ok(h)
  }

  /** The on-disk header, field after field. */
  function HeaderBytes(h: Header): (raw: seq<byte>)
    ensures |raw| == HEADER_LEN
  {
    MAGIC + [0] + LittleEndian(h.width, 4) + LittleEndian(h.height, 4) + LittleEndian(h.fps, 8)
    + LittleEndian(h.frameCount, 4) + [VERSION, TRANSFORM_ID, PLANE_COUNT, BIT_DEPTH]
  }

  lemma Extends(front: seq<byte>, field: seq<byte>, raw: seq<byte>)
    requires front + field <= raw
    ensures front <= raw && raw[|front|..|front| + |field|] == field
  {
    assert raw[..|front + field|] == front + field;
  }

  /** The places of the fields. */
  lemma HeaderFields(h: Header)
    ensures var raw := HeaderBytes(h);
            && raw[0..7] == [0x54, 0x50, 0x54, 0x56, 0x50, 0x52, 0x31] && raw[7] == 0
            && raw[8..12] == LittleEndian(h.width, 4) && raw[12..16] == LittleEndian(h.height, 4)
            && raw[16..24] == LittleEndian(h.fps, 8) && raw[24..28] == LittleEndian(h.frameCount, 4)
            && raw[28..32] == [1, 0, 3, 16]
  {
    var raw := HeaderBytes(h);
    var magic := MAGIC + [0];
    var width := magic + LittleEndian(h.width, 4);
    var height := width + LittleEndian(h.height, 4);
    var fps := height + LittleEndian(h.fps, 8);
    var count := fps + LittleEndian(h.frameCount, 4);
    Extends(count, [VERSION, TRANSFORM_ID, PLANE_COUNT, BIT_DEPTH], raw);
    Extends(fps, LittleEndian(h.frameCount, 4), raw);
    Extends(height, LittleEndian(h.fps, 8), raw);
    Extends(width, LittleEndian(h.height, 4), raw);
    Extends(magic, LittleEndian(h.width, 4), raw);
    assert raw[..8] == magic;
    assert raw[0..7] == magic[0..7] == MAGIC && raw[7] == magic[7];
  }

  lemma Cut(raw: seq<byte>, i: nat, j: nat)
    requires i <= j <= |raw|
    ensures raw[..j] == raw[..i] + raw[i..j]
  {
  }

  lemma FieldsMakeHeader(h: Header, raw: seq<byte>)
    requires |raw| == HEADER_LEN && raw[0..7] == MAGIC && raw[7] == 0
    requires raw[8..12] == LittleEndian(h.width, 4) && raw[12..16] == LittleEndian(h.height, 4)
    requires raw[16..24] == LittleEndian(h.fps, 8) && raw[24..28] == LittleEndian(h.frameCount, 4)
    requires raw[28..32] == [VERSION, TRANSFORM_ID, PLANE_COUNT, BIT_DEPTH]
    ensures raw == HeaderBytes(h)
  {
    Cut(raw, 0, 7);
    Cut(raw, 7, 8);
    assert raw[7..8] == [0];
    Cut(raw, 8, 12);
    Cut(raw, 12, 16);
    Cut(raw, 16, 24);
    Cut(raw, 24, 28);
    Cut(raw, 28, 32);
    assert raw == raw[..32];
  }

  /** Fields of the lengths of the header, written to their places in a zeroed buffer. */
  method FillBuffer(magic: seq<byte>, width: seq<byte>, height: seq<byte>, fps: seq<byte>, count: seq<byte>, tail: seq<byte>)
    returns (raw: seq<byte>)
    requires |magic| == 7 && |width| == 4 && |height| == 4 && |fps| == 8 && |count| == 4 && |tail| == 4
    ensures raw == magic + [0] + width + height + fps + count + tail
  {
    var buffer := new byte[HEADER_LEN](_ => 0);
    CopyInto(buffer, 0, magic);
    assert buffer[..8] == magic + [0] by { assert buffer[7] == buffer[7..][0] == 0; }
    CopyInto(buffer, 8, width);
    assert buffer[..12] == magic + [0] + width;
    CopyInto(buffer, 12, height);
    assert buffer[..16] == magic + [0] + width + height;
    CopyInto(buffer, 16, fps);
    CopyInto(buffer, 24, count);
    CopyInto(buffer, 28, tail);
    raw := buffer[..];
    assert raw == buffer[..32];
  }

  /** The header serialiser. */
  method WriteHeader(h: Header) returns (raw: seq<byte>)
    ensures raw == HeaderBytes(h)
  {
    raw := FillBuffer(MAGIC, LittleEndian(h.width, 4), LittleEndian(h.height, 4), LittleEndian(h.fps, 8),
                      LittleEndian(h.frameCount, 4), [VERSION, TRANSFORM_ID, PLANE_COUNT, BIT_DEPTH]);
  }

  /** Parsing undoes serialising exactly for headers with an area and a usable frame rate, and
      rejects the serialisation of any other header. */
  lemma HeaderRoundTrip(h: Header)
    ensures Parse(HeaderBytes(h)) == if ValidHeader(h) then Ok(h) else Err
  {
    var raw := HeaderBytes(h);
    HeaderFields(h);
    WordRoundTrips();
    assert raw[28..32][0] == VERSION && raw[28..32][1] == TRANSFORM_ID;
    assert raw[28..32][2] == PLANE_COUNT && raw[28..32][3] == BIT_DEPTH;
  }

  /** A block of 32 bytes is accepted exactly when it is the serialisation of a valid header, except
      that byte 7, the last byte of the documented magic, may hold anything. */
  lemma ParsedHeader(raw: seq<byte>)
    requires |raw| == HEADER_LEN
    ensures Parse(raw).Ok? ==> ValidHeader(Parse(raw).value) && HeaderBytes(Parse(raw).value) == raw[7 := 0]
    ensures Parse(raw[7 := 0]) == Parse(raw)
  {
    var zeroed := raw[7 := 0];
    assert zeroed[0..7] == raw[0..7] && zeroed[8..12] == raw[8..12] && zeroed[12..16] == raw[12..16];
    assert zeroed[16..24] == raw[16..24] && zeroed[24..28] == raw[24..28];
    if Parse(raw).Ok? {
      FromLittleEndianRoundTrip(raw[8..12]);
      FromLittleEndianRoundTrip(raw[12..16]);
      FromLittleEndianRoundTrip(raw[16..24]);
      FromLittleEndianRoundTrip(raw[24..28]);
      assert zeroed[28..32] == [VERSION, TRANSFORM_ID, PLANE_COUNT, BIT_DEPTH];
      FieldsMakeHeader(Parse(raw).value, zeroed);
    }
  }
}
