/** MidiBigEndianReader and MidiBigEndianWriter: text and MIDI
    variable-length quantities (7 bits per byte, bit 7 set on every byte but
    the last, at most 4 bytes). */
module Vlq {
  import opened Wrappers
  import opened BigEndian
  import MathExt

  /** A decoded quantity and the number of bytes it took. */
  datatype VlqRead = VlqRead(value: nat, length: nat)

  /** The quantity the 7-bit groups spell, most significant first. */
  function GroupValue(bs: seq<byte>): nat
  {
    if bs == [] then 0 else GroupValue(bs[..|bs| - 1]) * 0x80 + bs[|bs| - 1] % 0x80
  }

  /** Where the quantity that starts at `pos` ends, searching from its k-th byte:
      its byte count, or the failure ReadVariableLengthValue reports. */
  function VlqLength(s: seq<byte>, pos: nat, k: nat): Result<nat>
    requires k < 4
    decreases 4 - k
  {
    if pos + k >= |s| then Fail(EndOfStream)
    else if s[pos + k] < 0x80 then Ok(k + 1)
    else if k + 1 >= 4 then Fail(FormatError)
    else VlqLength(s, pos, k + 1)
  }

  /** The reference decoding of the quantity at `pos`. */
  function DecodeVlq(s: seq<byte>, pos: nat): Result<VlqRead>
  {
    match VlqLength(s, pos, 0)
    case Ok(n) => if pos + n <= |s| then Ok(VlqRead(GroupValue(s[pos..pos + n]), n)) else Fail(EndOfStream)
    case Fail(e) => Fail(e)
  }

  /** The quantity ends at the first byte with bit 7 clear, within 4 bytes;
      otherwise the stream ended first or the 4th byte still had bit 7 set. */
  lemma {:induction false} VlqLengthSpec(s: seq<byte>, pos: nat, k: nat)
    requires k < 4 && pos + k <= |s|
    requires forall i :: pos <= i < pos + k ==> s[i] >= 0x80
    ensures VlqLength(s, pos, k).Ok? ==>
      var n := VlqLength(s, pos, k).value;
      k < n <= 4 && pos + n <= |s| && s[pos + n - 1] < 0x80 &&
      forall i :: pos <= i < pos + n - 1 ==> s[i] >= 0x80
    ensures VlqLength(s, pos, k) == Fail(FormatError) <==>
      pos + 4 <= |s| && forall i :: pos <= i < pos + 4 ==> s[i] >= 0x80
    ensures VlqLength(s, pos, k) == Fail(EndOfStream) <==>
      |s| < pos + 4 && forall i :: pos <= i < |s| ==> s[i] >= 0x80
    ensures VlqLength(s, pos, k).Fail? ==> VlqLength(s, pos, k).failure in {FormatError, EndOfStream}
    decreases 4 - k
  {
    if pos + k >= |s| {
    } else if s[pos + k] < 0x80 {
      assert pos <= pos + k < pos + 4 && pos + k < |s|;
    } else if k + 1 >= 4 {
    } else {
      VlqLengthSpec(s, pos, k + 1);
    }
  }

  /** A decoded quantity takes one to four bytes of the stream. */
  lemma DecodedWithin(s: seq<byte>, pos: nat)
    requires pos <= |s|
    ensures DecodeVlq(s, pos).Ok? ==> 1 <= DecodeVlq(s, pos).value.length <= 4 && pos + DecodeVlq(s, pos).value.length <= |s|
  {
    VlqLengthSpec(s, pos, 0);
  }

  /** n groups of 7 bits hold a value below 2^(7n). */
  lemma {:induction false} GroupValueBound(bs: seq<byte>)
    requires |bs| <= 4
    ensures GroupValue(bs) < Pow128(|bs|)
    decreases |bs|
  {
    if bs != [] {
      GroupValueBound(bs[..|bs| - 1]);
    }
  }

  function Pow128(n: nat): nat
  {
    if n == 0 then 1 else 0x80 * Pow128(n - 1)
  }

  /** ReadVariableLengthValue: accumulates value = value << 7 | (c & 0x7F)
      until a byte with bit 7 clear; throws on a 4th byte with bit 7 set. */
  method ReadVariableLengthValue(s: seq<byte>, pos: nat) returns (r: Result<VlqRead>)
    requires pos <= |s|
    ensures r == DecodeVlq(s, pos)
    ensures r.Ok? ==> 1 <= r.value.length <= 4 && pos + r.value.length <= |s|
    ensures r.Ok? ==> r.value.value < 0x1000_0000
  {
    var length := 0;
    var value: nat := 0;
    while true
      invariant 0 <= length < 4
      invariant pos + length <= |s|
      invariant forall i :: pos <= i < pos + length ==> s[i] >= 0x80
      invariant value == GroupValue(s[pos..pos + length])
      invariant VlqLength(s, pos, length) == VlqLength(s, pos, 0)
      decreases 4 - length
    {
      if pos + length >= |s| {
        VlqLengthSpec(s, pos, 0);
        return Fail(EndOfStream);
      }
      var c := s[pos + length];
      length := length + 1;
      assert s[pos..pos + length][..length - 1] == s[pos..pos + length - 1];
      value := value * 0x80 + c % 0x80;
      if c < 0x80 {
        VlqLengthSpec(s, pos, 0);
        GroupValueBound(s[pos..pos + length]);
        assert Pow128(length) <= Pow128(4);
        return Ok(VlqRead(value, length));
      }
      if length >= 4 {
        VlqLengthSpec(s, pos, 0);
        return Fail(FormatError);
      }
    }
  }

  /** The characters whose codes are the given bytes. */
  function Chars(bs: seq<byte>): (t: string)
    ensures |t| == |bs| && forall i :: 0 <= i < |bs| ==> t[i] as int == bs[i]
  {
    seq(|bs|, i requires 0 <= i < |bs| => bs[i] as char)
  }

  /** ReadText: `length` bytes, each taken as one character. */
  method ReadText(s: seq<byte>, pos: nat, length: uint32) returns (r: Result<Read<string>>)
    requires pos <= |s|
    ensures r.Ok? <==> pos + length <= |s|
    ensures r.Fail? ==> r.failure == EndOfStream
    ensures r.Ok? ==> |r.value.value| == length && r.value.next == pos + length
    ensures r.Ok? ==> forall i :: 0 <= i < length ==> r.value.value[i] as int == s[pos + i]
    ensures r.Ok? ==> r.value.value == Chars(s[pos..pos + length])
  {
    var output: string := [];
    var i := 0;
    while i < length
      invariant 0 <= i <= length
      invariant pos + i <= |s|
      invariant |output| == i
      invariant forall j :: 0 <= j < i ==> output[j] as int == s[pos + j]
    {
      if pos + i >= |s| {
        return Fail(EndOfStream);
      }
      output := output + [s[pos + i] as char];
      i := i + 1;
    }
    return Ok(Read(output, pos + length));
  }

  /** (byte)(b | 0x80) and (byte)(b & 0x7F) on a byte. */
  function SetTop(b: byte): byte { b % 0x80 + 0x80 }
  function ClearTop(b: byte): byte { b % 0x80 }

  /** WriteVariableLengthValue: the bytes emitted (their count is the
      return value). The four 7-bit groups are (byte)(v >> 21),
      (byte)(v >> 14), (byte)(v >> 7) and (byte)v; leading zero groups are
      skipped by testing whole bytes, so bit 28 of v still selects 4 bytes. */
  function WriteVariableLengthValue(v: uint32): (out: seq<byte>)
    ensures 1 <= |out| <= 4
    ensures forall i :: 0 <= i < |out| - 1 ==> out[i] >= 0x80
    ensures out[|out| - 1] < 0x80
  {
    var b0, b1, b2, b3 := (v / 0x20_0000) % 0x100, (v / 0x4000) % 0x100, (v / 0x80) % 0x100, v % 0x100;
    if b0 != 0 then [SetTop(b0), SetTop(b1), SetTop(b2), ClearTop(b3)]
    else if b1 != 0 then [SetTop(b1), SetTop(b2), ClearTop(b3)]
    else if b2 != 0 then [SetTop(b2), ClearTop(b3)]
    else [ClearTop(b3)]
  }

  /** WriteSemiVariableLengthValue: always four bytes, leading groups kept. */
  function WriteSemiVariableLengthValue(v: uint32): (out: seq<byte>)
    ensures |out| == 4
    ensures forall i :: 0 <= i < 3 ==> out[i] >= 0x80
    ensures out[3] < 0x80
  {
    [SetTop((v / 0x20_0000) % 0x100), SetTop((v / 0x4000) % 0x100), SetTop((v / 0x80) % 0x100), ClearTop(v % 0x100)]
  }

  /** GroupValue of one to four bytes, written out. */
  lemma GroupValueSmall(bs: seq<byte>)
    requires 1 <= |bs| <= 4
    ensures |bs| == 1 ==> GroupValue(bs) == (bs[0] as int) % 0x80
    ensures |bs| == 2 ==> GroupValue(bs) == (bs[0] as int) % 0x80 * 0x80 + (bs[1] as int) % 0x80
    ensures |bs| == 3 ==>
      GroupValue(bs) == ((bs[0] as int) % 0x80 * 0x80 + (bs[1] as int) % 0x80) * 0x80 + (bs[2] as int) % 0x80
    ensures |bs| == 4 ==>
      GroupValue(bs) == (((bs[0] as int) % 0x80 * 0x80 + (bs[1] as int) % 0x80) * 0x80
                         + (bs[2] as int) % 0x80) * 0x80 + (bs[3] as int) % 0x80
  {
    var n := |bs|;
    if n == 1 {
      assert bs[..0] == [];
    } else {
      GroupValueSmall(bs[..n - 1]);
    }
  }

  /** v >> 14 and v >> 21 are repeated 7-bit shifts. */
  lemma ShiftsBy7(v: nat)
    ensures v / 0x4000 == (v / 0x80) / 0x80
    ensures v / 0x20_0000 == ((v / 0x80) / 0x80) / 0x80
  {
    var q1 := v / 0x80;
    var q2 := q1 / 0x80;
    var q3 := q2 / 0x80;
    assert v == q1 * 0x80 + v % 0x80;
    assert q1 == q2 * 0x80 + q1 % 0x80;
    assert q2 == q3 * 0x80 + q2 % 0x80;
    MathExt.DivModUnique(v, 0x4000, q2, (q1 % 0x80) * 0x80 + v % 0x80);
    MathExt.DivModUnique(v, 0x20_0000, q3, ((q2 % 0x80) * 0x80 + q1 % 0x80) * 0x80 + v % 0x80);
  }

  /** The low 28 bits of v are its four lowest 7-bit digits. */
  lemma LowBits28(v: nat)
    ensures v % 0x1000_0000
      == ((((v / 0x80) / 0x80) / 0x80 % 0x80 * 0x80 + (v / 0x80) / 0x80 % 0x80) * 0x80 + v / 0x80 % 0x80) * 0x80 + v % 0x80
  {
    var q1 := v / 0x80;
    var q2 := q1 / 0x80;
    var q3 := q2 / 0x80;
    var q4 := q3 / 0x80;
    assert v == q1 * 0x80 + v % 0x80;
    assert q1 == q2 * 0x80 + q1 % 0x80;
    assert q2 == q3 * 0x80 + q2 % 0x80;
    assert q3 == q4 * 0x80 + q3 % 0x80;
    var x := ((q3 % 0x80 * 0x80 + q2 % 0x80) * 0x80 + q1 % 0x80) * 0x80 + v % 0x80;
    MathExt.DivModUnique(v, 0x1000_0000, q4, x);
  }

  lemma LowBitsKept(b: byte)
    ensures (SetTop(b) as int) % 0x80 == (b as int) % 0x80
    ensures (ClearTop(b) as int) % 0x80 == (b as int) % 0x80
  {
  }

  /** The four 7-bit groups of v, most significant first, spell v mod 2^28. */
  lemma GroupsOfValue(v: uint32)
    ensures GroupValue([SetTop((v / 0x20_0000) % 0x100), SetTop((v / 0x4000) % 0x100),
                        SetTop((v / 0x80) % 0x100), ClearTop(v % 0x100)]) == v % 0x1000_0000
  {
    var q1 := v / 0x80;
    var q2 := q1 / 0x80;
    var q3 := q2 / 0x80;
    ShiftsBy7(v);
    LowBits28(v);
    MathExt.LowBitsOfByte(q1);
    MathExt.LowBitsOfByte(q2);
    MathExt.LowBitsOfByte(q3);
    MathExt.LowBitsOfByte(v);
    LowBitsKept(q3 % 0x100);
    LowBitsKept(q2 % 0x100);
    LowBitsKept(q1 % 0x100);
    LowBitsKept(v % 0x100);
    GroupValueSmall([SetTop(q3 % 0x100), SetTop(q2 % 0x100), SetTop(q1 % 0x100), ClearTop(v % 0x100)]);
  }

  /** A run of bytes with bit 7 set closed by one with bit 7 clear, within
      4 bytes, is read as one quantity of exactly that length. */
  lemma {:induction false} VlqLengthOfTerminated(s: seq<byte>, pos: nat, k: nat, n: nat)
    requires k < n <= 4 && pos + n <= |s|
    requires forall i :: pos + k <= i < pos + n - 1 ==> s[i] >= 0x80
    requires s[pos + n - 1] < 0x80
    ensures VlqLength(s, pos, k) == Ok(n)
    decreases n - k
  {
    if k < n - 1 {
      VlqLengthOfTerminated(s, pos, k + 1, n);
    }
  }

  /** The groups written by WriteVariableLengthValue spell v mod 2^28. */
  lemma WrittenGroups(v: uint32)
    ensures GroupValue(WriteVariableLengthValue(v)) == v % 0x1000_0000
  {
    var q1 := v / 0x80;
    var q2 := q1 / 0x80;
    var q3 := q2 / 0x80;
    ShiftsBy7(v);
    LowBits28(v);
    MathExt.LowBitsOfByte(q1);
    MathExt.LowBitsOfByte(q2);
    MathExt.LowBitsOfByte(q3);
    MathExt.LowBitsOfByte(v);
    LowBitsKept(q3 % 0x100);
    LowBitsKept(q2 % 0x100);
    LowBitsKept(q1 % 0x100);
    LowBitsKept(v % 0x100);
    var a, b, c, d := SetTop(q3 % 0x100), SetTop(q2 % 0x100), SetTop(q1 % 0x100), ClearTop(v % 0x100);
    if q3 % 0x100 != 0 {
      GroupValueSmall([a, b, c, d]);
    } else if q2 % 0x100 != 0 {
      GroupValueSmall([b, c, d]);
    } else if q1 % 0x100 != 0 {
      GroupValueSmall([c, d]);
    } else {
      GroupValueSmall([d]);
    }
  }

  /** Decoding what WriteVariableLengthValue wrote gives v mod 2^28 and
      consumes exactly the returned byte count. */
  lemma VlqRoundTrip(v: uint32, rest: seq<byte>)
    ensures DecodeVlq(WriteVariableLengthValue(v) + rest, 0)
         == Ok(VlqRead(v % 0x1000_0000, |WriteVariableLengthValue(v)|))
  {
    var out := WriteVariableLengthValue(v);
    var s := out + rest;
    VlqLengthOfTerminated(s, 0, 0, |out|);
    assert s[0..|out|] == out;
    WrittenGroups(v);
  }

  /** For v < 2^28 the byte count is the least n with v < 2^(7n). */
  lemma VlqMinimal(v: uint32)
    requires v < 0x1000_0000
    ensures var n := |WriteVariableLengthValue(v)|;
      v < Pow128(n) && (n > 1 ==> Pow128(n - 1) <= v)
  {
    var q1 := v / 0x80;
    var q2 := q1 / 0x80;
    var q3 := q2 / 0x80;
    ShiftsBy7(v);
    assert Pow128(1) == 0x80 && Pow128(2) == 0x4000 && Pow128(3) == 0x20_0000 && Pow128(4) == 0x1000_0000;
  }

  /** WriteSemiVariableLengthValue always takes 4 bytes, which decode to v mod 2^28. */
  lemma SemiVlqRoundTrip(v: uint32, rest: seq<byte>)
    ensures DecodeVlq(WriteSemiVariableLengthValue(v) + rest, 0) == Ok(VlqRead(v % 0x1000_0000, 4))
  {
    var out := WriteSemiVariableLengthValue(v);
    var s := out + rest;
    VlqLengthOfTerminated(s, 0, 0, 4);
    assert s[0..4] == out;
    GroupsOfValue(v);
  }
}
