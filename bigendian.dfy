/** BigEndianReader and BigEndianWriter: fixed-width unsigned integers in
    most-significant-byte-first order, over an in-memory byte stream. */
module BigEndian {
  import opened Wrappers

  type byte = x: int | 0 <= x < 0x100
  type uint16 = x: int | 0 <= x < 0x1_0000
  type uint32 = x: int | 0 <= x < 0x1_0000_0000

  /** A value read from the stream and the position just after it. */
  datatype Read<T> = Read(value: T, next: nat)

  /** The number the bytes spell, most significant first. */
  function BigEndianValue(bs: seq<byte>): nat
  {
    if bs == [] then 0 else BigEndianValue(bs[..|bs| - 1]) * 0x100 + bs[|bs| - 1]
  }

  /** BinaryReader.ReadByte: fails at the end of the stream. */
  function ReadByte(s: seq<byte>, pos: nat): Result<Read<byte>>
  {
    if pos < |s| then Ok(Read(s[pos], pos + 1)) else Fail(EndOfStream)
  }

  /** BinaryReader.ReadBytes: returns fewer bytes than asked at the end of the stream. */
  function ReadBytes(s: seq<byte>, pos: nat, count: nat): Read<seq<byte>>
  {
    if pos >= |s| then Read([], pos)
    else if pos + count <= |s| then Read(s[pos..pos + count], pos + count)
    else Read(s[pos..], |s|)
  }

  /** The big-endian value of a 2-, 3- or 4-byte sequence, written out. */
  lemma BigEndianValueSmall(bs: seq<byte>)
    requires 2 <= |bs| <= 4
    ensures |bs| == 2 ==> BigEndianValue(bs) == bs[0] as int * 0x100 + bs[1]
    ensures |bs| == 3 ==> BigEndianValue(bs) == (bs[0] as int * 0x100 + bs[1]) * 0x100 + bs[2]
    ensures |bs| == 4 ==>
      BigEndianValue(bs) == ((bs[0] as int * 0x100 + bs[1]) * 0x100 + bs[2]) * 0x100 + bs[3]
  {
    var n := |bs|;
    assert bs[..n - 1][..n - 2] == bs[..n - 2];
    if n == 2 {
      assert bs[..0] == [];
    } else {
      assert bs[..n - 2][..n - 3] == bs[..n - 3];
      if n == 4 {
        assert bs[..1][..0] == [];
      } else {
        assert bs[..0] == [];
      }
    }
  }

  /** ReadUInt16: two bytes, high byte first; a short read fails when the
      missing byte is indexed. The shifted bytes occupy disjoint bits, so
      the source's OR of shifts is the sum written here. */
  function ReadUInt16(s: seq<byte>, pos: nat): (r: Result<Read<uint16>>)
    ensures r.Ok? <==> pos + 2 <= |s|
    ensures r.Fail? ==> r.failure == IndexOutOfRange
    ensures r.Ok? ==> r.value.next == pos + 2
    ensures r.Ok? ==> r.value.value == BigEndianValue(s[pos..pos + 2])
  {
    var b := ReadBytes(s, pos, 2).value;
    if |b| < 2 then Fail(IndexOutOfRange)
    else
      BigEndianValueSmall(b);
      Ok(Read(b[0] as int * 0x100 + b[1], pos + 2))
  }

  /** ReadUInt24: three bytes, most significant first, so the value is below 2^24. */
  function ReadUInt24(s: seq<byte>, pos: nat): (r: Result<Read<uint32>>)
    ensures r.Ok? <==> pos + 3 <= |s|
    ensures r.Fail? ==> r.failure == IndexOutOfRange
    ensures r.Ok? ==> r.value.next == pos + 3
    ensures r.Ok? ==> r.value.value == BigEndianValue(s[pos..pos + 3])
    ensures r.Ok? ==> r.value.value < 0x100_0000
  {
    var b := ReadBytes(s, pos, 3).value;
    if |b| < 3 then Fail(IndexOutOfRange)
    else
      BigEndianValueSmall(b);
      Ok(Read(b[0] as int * 0x1_0000 + b[1] as int * 0x100 + b[2], pos + 3))
  }

  /** ReadUInt32: four bytes, most significant first. */
  function ReadUInt32(s: seq<byte>, pos: nat): (r: Result<Read<uint32>>)
    ensures r.Ok? <==> pos + 4 <= |s|
    ensures r.Fail? ==> r.failure == IndexOutOfRange
    ensures r.Ok? ==> r.value.next == pos + 4
    ensures r.Ok? ==> r.value.value == BigEndianValue(s[pos..pos + 4])
  {
    var b := ReadBytes(s, pos, 4).value;
    if |b| < 4 then Fail(IndexOutOfRange)
    else
      BigEndianValueSmall(b);
      Ok(Read(b[0] as int * 0x100_0000 + b[1] as int * 0x1_0000 + b[2] as int * 0x100 + b[3], pos + 4))
  }

  /** Write(ushort): the high byte, then the low byte. */
  function WriteUInt16(v: uint16): (b: seq<byte>)
    ensures |b| == 2 && BigEndianValue(b) == v
  {
    BigEndianValueSmall([v / 0x100, v % 0x100]);
    [v / 0x100, v % 0x100]
  }

  /** WriteUint24: the low 24 bits of v in three bytes, most significant first. */
  function WriteUInt24(v: uint32): (b: seq<byte>)
    ensures |b| == 3 && BigEndianValue(b) == v % 0x100_0000
  {
    var v8 := v / 0x100;
    var v16 := v8 / 0x100;
    BigEndianValueSmall([v16 % 0x100, v8 % 0x100, v % 0x100]);
    [v16 % 0x100, v8 % 0x100, v % 0x100]
  }

  /** Write(uint): four bytes, most significant first. */
  function WriteUInt32(v: uint32): (b: seq<byte>)
    ensures |b| == 4 && BigEndianValue(b) == v
  {
    var v8 := v / 0x100;
    var v16 := v8 / 0x100;
    var v24 := v16 / 0x100;
    var b := [v24 % 0x100, v16 % 0x100, v8 % 0x100, v % 0x100];
    BigEndianValueSmall(b);
    b
  }

  /** ReadUInt16 gives back what Write(ushort) wrote, and consumes exactly it. */
  lemma RoundTrip16(v: uint16, rest: seq<byte>)
    ensures ReadUInt16(WriteUInt16(v) + rest, 0) == Ok(Read(v, 2))
  {
  }

  /** ReadUInt24 of what WriteUint24 wrote gives v modulo 2^24. */
  lemma RoundTrip24(v: uint32, rest: seq<byte>)
    ensures ReadUInt24(WriteUInt24(v) + rest, 0) == Ok(Read(v % 0x100_0000, 3))
  {
  }

  /** ReadUInt32 gives back what Write(uint) wrote, and consumes exactly it. */
  lemma RoundTrip32(v: uint32, rest: seq<byte>)
    ensures ReadUInt32(WriteUInt32(v) + rest, 0) == Ok(Read(v, 4))
  {
    var w := WriteUInt32(v) + rest;
    assert w[0..4] == WriteUInt32(v);
  }
}
