/**
 * 16-bit PCM as it crosses the wire: signed 16-bit samples laid out
 * little-endian in bytes, and their normalised float view (sample / 32768)
 * used for playback.
 */
module Pcm16 {

  newtype Byte = x: int | 0 <= x < 256

  /** The range of a signed 16-bit integer (an `Int16Array` element). */
  predicate IsInt16(v: int) {
    -32768 <= v < 32768
  }

  predicate AllInt16(xs: seq<int>) {
    forall i :: 0 <= i < |xs| ==> IsInt16(xs[i])
  }

  /** Two's-complement bit pattern of a signed 16-bit value, read unsigned. */
  function ToUnsigned(v: int): (u: int)
    requires IsInt16(v)
    ensures 0 <= u < 65536
    ensures u % 65536 == v % 65536
  {
    if v < 0 then v + 65536 else v
  }

  /** Signed reading of a 16-bit pattern. */
  function FromUnsigned(u: int): (v: int)
    requires 0 <= u < 65536
    ensures IsInt16(v)
    ensures v % 65536 == u
  {
    if u >= 32768 then u - 65536 else u
  }

  /** The sample at index i of an `Int16Array` laid over `bytes` (little-endian). */
  function SampleAt(bytes: seq<Byte>, i: int): int
    requires 0 <= i < |bytes| / 2
  {
    FromUnsigned(bytes[2 * i] as int + 256 * bytes[2 * i + 1] as int)
  }

  /** `new Int16Array(bytes.buffer)`: the byte payload read as 16-bit samples. */
  function DecodeLE(bytes: seq<Byte>): (xs: seq<int>)
    requires |bytes| % 2 == 0
    ensures |xs| == |bytes| / 2
    ensures AllInt16(xs)
  {
    seq(|bytes| / 2, i requires 0 <= i < |bytes| / 2 => SampleAt(bytes, i))
  }

  /** Low and high byte of a sample, as a `Uint8Array` over an `Int16Array` sees them. */
  function LowByte(v: int): Byte
    requires IsInt16(v)
  {
    (ToUnsigned(v) % 256) as Byte
  }

  function HighByte(v: int): Byte
    requires IsInt16(v)
  {
    (ToUnsigned(v) / 256) as Byte
  }

  /** `new Uint8Array(int16.buffer)`: samples laid out little-endian. */
  function EncodeLE(xs: seq<int>): (bytes: seq<Byte>)
    requires AllInt16(xs)
    ensures |bytes| == 2 * |xs|
  {
    seq(2 * |xs|, j requires 0 <= j < 2 * |xs| =>
      if j % 2 == 0 then LowByte(xs[j / 2]) else HighByte(xs[j / 2]))
  }

  lemma SampleOfBytes(v: int)
    requires IsInt16(v)
    ensures FromUnsigned(LowByte(v) as int + 256 * HighByte(v) as int) == v
  {
    var u := ToUnsigned(v);
    assert LowByte(v) as int + 256 * HighByte(v) as int == u;
  }

  lemma BytesOfSample(lo: Byte, hi: Byte)
    ensures var v := FromUnsigned(lo as int + 256 * hi as int);
      LowByte(v) == lo && HighByte(v) == hi
  {
    var u := lo as int + 256 * hi as int;
    assert ToUnsigned(FromUnsigned(u)) == u;
    assert u % 256 == lo as int && u / 256 == hi as int;
  }

  /** Reading the bytes of encoded samples gives the samples back. */
  lemma DecodeEncode(xs: seq<int>)
    requires AllInt16(xs)
    ensures DecodeLE(EncodeLE(xs)) == xs
  {
    var bytes := EncodeLE(xs);
    forall i | 0 <= i < |xs| ensures DecodeLE(bytes)[i] == xs[i] {
      assert bytes[2 * i] == LowByte(xs[i]);
      assert (2 * i + 1) / 2 == i;
      assert bytes[2 * i + 1] == HighByte(xs[i]);
      SampleOfBytes(xs[i]);
    }
  }

  /** Writing decoded samples back out gives the original bytes. */
  lemma EncodeDecode(bytes: seq<Byte>)
    requires |bytes| % 2 == 0
    ensures EncodeLE(DecodeLE(bytes)) == bytes
  {
    var xs := DecodeLE(bytes);
    forall j | 0 <= j < |bytes| ensures EncodeLE(xs)[j] == bytes[j] {
      var i := j / 2;
      BytesOfSample(bytes[2 * i], bytes[2 * i + 1]);
    }
  }

  /** One sample of the playback float buffer: `int16 / 32768`. */
  function ToFloat(v: int): (f: real)
    requires IsInt16(v)
    ensures -1.0 <= f < 1.0
    ensures f * 32768.0 == v as real
  {
    v as real / 32768.0
  }

  /** The float samples decoded from a PCM16 payload, in order. */
  function DecodeSamples(bytes: seq<Byte>): (fs: seq<real>)
    requires |bytes| % 2 == 0
    ensures |fs| == |bytes| / 2
    ensures forall i :: 0 <= i < |fs| ==> -1.0 <= fs[i] < 1.0
    ensures forall i :: 0 <= i < |fs| ==> fs[i] * 32768.0 == DecodeLE(bytes)[i] as real
  {
    var xs := DecodeLE(bytes);
    seq(|xs|, i requires 0 <= i < |xs| => ToFloat(xs[i]))
  }
}
