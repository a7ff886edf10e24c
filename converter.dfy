/**
 * pkg/converter/converter.go: PCM samples (`[]int16`) to little-endian bytes and back.
 * `ToByte` and `ToInt16` are loops appending to `dst`; each is proved against a pure
 * description of its output.
 */
module Converter {
  import opened Words

  /** Go's `uint16(s)` for an `int16`: the two's complement bit pattern. */
  function Bits(s: int16): (u: uint16)
    ensures (u - s) % 0x1_0000 == 0
  {
    if s < 0 then s + 0x1_0000 else s
  }

  /** Go's `int16(u)` for a `uint16`: reads the bit pattern as two's complement. */
  function Signed(u: uint16): (s: int16)
    ensures (u - s) % 0x1_0000 == 0
  {
    if u < 0x8000 then u else u - 0x1_0000
  }

  /** Byte 0 that `binary.LittleEndian.PutUint16` writes for `uint16(s)`. */
  function LowByte(s: int16): byte
  {
    Bits(s) % 0x100
  }

  /** Byte 1 that `binary.LittleEndian.PutUint16` writes for `uint16(s)`. */
  function HighByte(s: int16): byte
  {
    Bits(s) / 0x100
  }

  /** `int16(binary.LittleEndian.Uint16([lo, hi]))`, i.e. `int16(lo | hi<<8)`. */
  function Sample(lo: byte, hi: byte): int16
  {
    Signed(lo + 0x100 * hi)
  }

  /** The two bytes of a sample decode to that sample. */
  lemma SampleOfBytes(s: int16)
    ensures Sample(LowByte(s), HighByte(s)) == s
  {
    assert LowByte(s) + 0x100 * HighByte(s) == Bits(s);
  }

  /** The bytes `ToByte` produces: two per sample, low byte first. */
  function Encode(src: seq<int16>): (r: seq<byte>)
    ensures |r| == 2 * |src|
    ensures forall i :: 0 <= i < |src| ==> r[2 * i] == LowByte(src[i]) && r[2 * i + 1] == HighByte(src[i])
  {
    if src == [] then [] else Encode(src[..|src| - 1]) + [LowByte(src[|src| - 1]), HighByte(src[|src| - 1])]
  }

  /** The first `count` samples read pairwise from `src`. */
  function Decode(src: seq<byte>, count: nat): (r: seq<int16>)
    requires 2 * count <= |src|
    ensures |r| == count
    ensures forall j :: 0 <= j < count ==> r[j] == Sample(src[2 * j], src[2 * j + 1])
  {
    seq(count, j requires 0 <= j < count => Sample(src[2 * j], src[2 * j + 1]))
  }

  /**
   * How many samples `ToInt16` yields for `n` input bytes: one per iteration of
   * `for i := 0; i < n-2; i += 2`, so the last complete pair is never read.
   */
  function AsWrittenCount(n: nat): (c: nat)
    ensures 2 * c <= n
    ensures n % 2 == 0 && n > 0 ==> c == n / 2 - 1
  {
    if n <= 2 then 0 else (n - 1) / 2
  }

  /** converter.go:10-16. */
  method ToByte(src: seq<int16>) returns (dst: seq<byte>)
    ensures dst == Encode(src)
  {
    dst := [];
    var k := 0;
    while k < |src|
      invariant 0 <= k <= |src|
      invariant dst == Encode(src[..k])
    {
      dst := dst + [LowByte(src[k]), HighByte(src[k])];
      assert src[..k + 1][..k] == src[..k];
      k := k + 1;
    }
    assert src[..k] == src;
  }

  /** converter.go:20-26, with its loop bound `i < len(src)-2` as written. */
  method ToInt16(src: seq<byte>) returns (dst: seq<int16>)
    ensures |dst| == AsWrittenCount(|src|)
    ensures dst == Decode(src, AsWrittenCount(|src|))
  {
    dst := [];
    var i := 0;
    while i < |src| - 2
      invariant i == 2 * |dst| && i <= |src|
      invariant |src| > 2 ==> i <= |src| - 1
      invariant |src| <= 2 ==> i == 0
      invariant dst == Decode(src, |dst|)
    {
      dst := dst + [Sample(src[i], src[i + 1])];
      i := i + 2;
    }
  }

  /** The decoder as evidently intended: every complete pair, `for i := 0; i+1 < len(src); i += 2`. */
  method ToInt16Intended(src: seq<byte>) returns (dst: seq<int16>)
    ensures |dst| == |src| / 2
    ensures dst == Decode(src, |src| / 2)
  {
    dst := [];
    var i := 0;
    while i + 1 < |src|
      invariant i == 2 * |dst| && i <= |src|
      invariant dst == Decode(src, |dst|)
    {
      dst := dst + [Sample(src[i], src[i + 1])];
      i := i + 2;
    }
  }

  /** Decoding all pairs of an encoding gives the samples back. */
  lemma RoundTrip(s: seq<int16>)
    ensures Decode(Encode(s), |Encode(s)| / 2) == s
  {
    var d := Decode(Encode(s), |s|);
    forall j | 0 <= j < |s| ensures d[j] == s[j] {
      SampleOfBytes(s[j]);
    }
  }

  /** The decoder as written loses the last sample of every non-empty encoding. */
  lemma RoundTripAsWrittenDropsLast(s: seq<int16>)
    requires |s| > 0
    ensures Decode(Encode(s), AsWrittenCount(|Encode(s)|)) == s[..|s| - 1]
  {
    var d := Decode(Encode(s), |s| - 1);
    forall j | 0 <= j < |s| - 1 ensures d[j] == s[j] {
      SampleOfBytes(s[j]);
    }
  }

  /** The smallest input that shows it: one sample encodes and decodes to nothing. */
  lemma OneSampleIsLost()
    ensures Decode(Encode([1]), AsWrittenCount(|Encode([1])|)) == []
  {
  }

  /** `ToInt16(ToByte(s))` as written: every sample but the last comes back. */
  method EncodeThenDecodeAsWritten(s: seq<int16>) returns (r: seq<int16>)
    ensures |s| > 0 ==> r == s[..|s| - 1]
    ensures |s| == 0 ==> r == []
  {
    var bytes := ToByte(s);
    r := ToInt16(bytes);
    if |s| > 0 {
      RoundTripAsWrittenDropsLast(s);
    }
  }

  /** With the intended loop bound, decoding the encoding gives every sample back. */
  method EncodeThenDecodeIntended(s: seq<int16>) returns (r: seq<int16>)
    ensures r == s
  {
    var bytes := ToByte(s);
    r := ToInt16Intended(bytes);
    RoundTrip(s);
  }
}
