/** `pcm16ToBase64`: the samples of an `Int16Array` are viewed as the bytes that
    hold them, each byte becomes one character of a binary string, and `btoa`
    encodes that string. Samples are stored little-endian, the byte order of
    every platform the desktop app runs on. */
module Pcm16Base64 {
  import opened Wrappers
  import opened Base64

  /** A signed 16-bit sample. */
  predicate IsInt16(x: int) {
    -32768 <= x < 32768
  }

  /** An `Int16Array`: a window of `length` samples over an `ArrayBuffer`,
      starting `byteOffset` bytes in. */
  datatype Int16View = Int16View(buffer: seq<byte>, byteOffset: nat, length: nat) {
    /** What the `Int16Array` constructor demands of its buffer and offset. */
    predicate Valid() {
      byteOffset % 2 == 0 && byteOffset + 2 * length <= |buffer|
    }

    /** `byteLength`. */
    function ByteLength(): nat {
      2 * length
    }

    /** `new Uint8Array(buffer, byteOffset, byteLength)`, as a sequence. */
    function Bytes(): (r: seq<byte>)
      requires Valid()
      ensures |r| == ByteLength()
    {
      buffer[byteOffset..byteOffset + 2 * length]
    }

    /** Element `i`, read little-endian and sign-extended. */
    function At(i: nat): (x: int)
      requires Valid() && i < length
      ensures IsInt16(x)
    {
      var u := buffer[byteOffset + 2 * i] as int + 256 * buffer[byteOffset + 2 * i + 1] as int;
      if u >= 32768 then u - 65536 else u
    }

    function Samples(): (r: seq<int>)
      requires Valid()
      ensures |r| == length
      ensures forall i :: 0 <= i < length ==> r[i] == At(i)
    {
      seq(length, i requires 0 <= i < length => At(i))
    }
  }

  function LowByte(x: int): byte
    requires IsInt16(x)
  {
    ((x + 65536) % 65536 % 256) as byte
  }

  function HighByte(x: int): byte
    requires IsInt16(x)
  {
    ((x + 65536) % 65536 / 256) as byte
  }

  function LittleEndian(s: seq<int>): (r: seq<byte>)
    requires forall i :: 0 <= i < |s| ==> IsInt16(s[i])
    ensures |r| == 2 * |s|
  {
    if s == [] then [] else [LowByte(s[0]), HighByte(s[0])] + LittleEndian(s[1..])
  }

  /** A fresh `Int16Array` holding `s` (what `new Int16Array(n)` followed by
      element writes, or `slice`, produces): its own buffer, offset zero. */
  function FromSamples(s: seq<int>): (v: Int16View)
    requires forall i :: 0 <= i < |s| ==> IsInt16(s[i])
    ensures v.Valid() && v.length == |s| && v.byteOffset == 0
  {
    Int16View(LittleEndian(s), 0, |s|)
  }

  lemma {:induction false} LittleEndianAt(s: seq<int>, i: nat)
    requires forall k :: 0 <= k < |s| ==> IsInt16(s[k])
    requires i < |s|
    ensures LittleEndian(s)[2 * i] == LowByte(s[i]) && LittleEndian(s)[2 * i + 1] == HighByte(s[i])
  {
    if i > 0 {
      LittleEndianAt(s[1..], i - 1);
    }
  }

  /** Reading a fresh array back gives the samples written into it. */
  lemma SamplesFromSamples(s: seq<int>)
    requires forall i :: 0 <= i < |s| ==> IsInt16(s[i])
    ensures FromSamples(s).Samples() == s
  {
    var v := FromSamples(s);
    forall i | 0 <= i < |s| ensures v.At(i) == s[i] {
      LittleEndianAt(s, i);
    }
  }

  /** The value read from two bytes gives those bytes back. */
  lemma BytesOfRead(lo: byte, hi: byte)
    ensures var u := lo as int + 256 * hi as int;
      var x := if u >= 32768 then u - 65536 else u;
      IsInt16(x) && LowByte(x) == lo && HighByte(x) == hi
  {
  }

  /** Element `i` gives back the two bytes it was read from. */
  lemma SampleBytes(v: Int16View, i: nat)
    requires v.Valid() && i < v.length
    ensures LowByte(v.At(i)) == v.Bytes()[2 * i] && HighByte(v.At(i)) == v.Bytes()[2 * i + 1]
  {
    var j := v.byteOffset + 2 * i;
    assert v.Bytes()[2 * i] == v.buffer[j] && v.Bytes()[2 * i + 1] == v.buffer[j + 1];
    BytesOfRead(v.buffer[j], v.buffer[j + 1]);
  }

  /** The byte view of any valid array is its samples written back
      little-endian: `Samples` loses nothing, whatever the buffer and offset. */
  lemma ByteViewHoldsSamples(v: Int16View)
    requires v.Valid()
    ensures LittleEndian(v.Samples()) == v.Bytes()
  {
    var s := v.Samples();
    var b := v.Bytes();
    var e := LittleEndian(s);
    forall i | 0 <= i < v.length ensures e[2 * i] == b[2 * i] && e[2 * i + 1] == b[2 * i + 1] {
      LittleEndianAt(s, i);
      SampleBytes(v, i);
    }
    forall k | 0 <= k < |b| ensures e[k] == b[k] {
      var i := k / 2;
      assert k == 2 * i || k == 2 * i + 1;
    }
  }

  /** `btoa` of a binary string: the RFC 4648 encoding of its code units as bytes.
      (`btoa` throws on a code unit of 256 or more; the requires excludes that.) */
  function Btoa(bin: string): (r: string)
    requires forall k :: 0 <= k < |bin| ==> bin[k] as int < 256
  {
    Encode(CodeUnits(bin))
  }

  function CodeUnits(bin: string): (bs: seq<byte>)
    requires forall k :: 0 <= k < |bin| ==> bin[k] as int < 256
    ensures |bs| == |bin|
    ensures forall k :: 0 <= k < |bin| ==> bs[k] as int == bin[k] as int
  {
    seq(|bin|, k requires 0 <= k < |bin| => bin[k] as int as byte)
  }

  /** `pcm16ToBase64`: the encoding of exactly the `byteLength` bytes from
      `byteOffset`; it is 4 * ceil(2n / 3) characters long for n samples, and the
      backend's decoder gives the same bytes back. */
  method Pcm16ToBase64(pcm16: Int16View) returns (r: string)
    requires pcm16.Valid()
    ensures r == Encode(pcm16.Bytes())
    ensures |r| == 4 * ((2 * pcm16.length + 2) / 3)
    ensures Decode(r) == Some(pcm16.Bytes())
  {
    var u8 := pcm16.buffer[pcm16.byteOffset..pcm16.byteOffset + pcm16.ByteLength()];
    assert u8 == pcm16.Bytes();
    var bin: string := "";
    var i := 0;
    while i < |u8|
      invariant 0 <= i <= |u8|
      invariant |bin| == i
      invariant forall k :: 0 <= k < i ==> bin[k] as int == u8[k] as int
    {
      bin := bin + [(u8[i] as int) as char];
      i := i + 1;
    }
    BtoaOfBinary(bin, u8);
    r := Btoa(bin);
  }

  /** A binary string holding the bytes `u8` is encoded as those bytes are. */
  lemma BtoaOfBinary(bin: string, u8: seq<byte>)
    requires |bin| == |u8| && forall k :: 0 <= k < |bin| ==> bin[k] as int == u8[k] as int
    ensures forall k :: 0 <= k < |bin| ==> bin[k] as int < 256
    ensures Btoa(bin) == Encode(u8)
    ensures |Btoa(bin)| == 4 * ((|u8| + 2) / 3)
    ensures Decode(Btoa(bin)) == Some(u8)
  {
    assert CodeUnits(bin) == u8;
    EncodeLength(u8);
    DecodeEncode(u8);
  }
}
