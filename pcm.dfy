/**
 * Decoding of the model's speech chunks: the payload bytes are reinterpreted
 * as little-endian signed 16-bit values (the Int16Array view over the byte
 * buffer) and every value v becomes the sample v / 32768 of a single-channel
 * buffer at 24 kHz.
 */
module Pcm {
  import opened Wrappers

  /** One byte of a decoded payload. */
  type Byte = x: int | 0 <= x < 256

  /** Sample rate of the output context and of every playback buffer. */
  const OutputSampleRate: nat := 24000

  /** Divisor that maps a 16-bit value into the unit range. */
  const Int16Scale: real := 32768.0

  predicate IsInt16(v: int) {
    -32768 <= v <= 32767
  }

  predicate InUnitRange(x: real) {
    -1.0 <= x < 1.0
  }

  predicate AllInt16(vs: seq<int>) {
    forall i :: 0 <= i < |vs| ==> IsInt16(vs[i])
  }

  predicate AllInUnitRange(xs: seq<real>) {
    forall i :: 0 <= i < |xs| ==> InUnitRange(xs[i])
  }

  /** The RangeError the Int16Array constructor raises for a buffer of odd length; the length is recorded by the model only. */
  datatype DecodeError = OddByteLength(length: nat)

  /** The signed 16-bit value whose little-endian bytes are lo, hi. */
  function Int16FromLE(lo: Byte, hi: Byte): (v: int)
    ensures IsInt16(v)
    ensures (v + 65536) % 65536 == hi * 256 + lo
    ensures v < 0 <==> hi >= 128
  {
    var u := hi * 256 + lo;
    if u >= 32768 then u - 65536 else u
  }

  /** Reference encoder: the two's-complement little-endian bytes of v. */
  function Int16ToLE(v: int): (bytes: seq<Byte>)
    requires IsInt16(v)
    ensures |bytes| == 2
  {
    var u := if v < 0 then v + 65536 else v;
    [u % 256, u / 256]
  }

  lemma Int16LERoundTrip(v: int)
    requires IsInt16(v)
    ensures Int16FromLE(Int16ToLE(v)[0], Int16ToLE(v)[1]) == v
  {
  }

  lemma Int16LEBytesRoundTrip(lo: Byte, hi: Byte)
    ensures Int16ToLE(Int16FromLE(lo, hi)) == [lo, hi]
  {
  }

  /**
   * The values of an Int16Array laid over the bytes: value i is made of
   * bytes 2i and 2i+1; an odd byte count is rejected.
   */
  function ReadInt16s(bytes: seq<Byte>): (r: Result<seq<int>, DecodeError>)
    ensures r.Success? <==> |bytes| % 2 == 0
    ensures r.Failure? ==> r.error == OddByteLength(|bytes|)
    ensures r.Success? ==> |r.value| == |bytes| / 2 && AllInt16(r.value)
    ensures r.Success? ==> forall i :: 0 <= i < |r.value| ==>
              r.value[i] == Int16FromLE(bytes[2 * i], bytes[2 * i + 1])
    decreases |bytes|
  {
    if |bytes| == 0 then Success([])
    else if |bytes| == 1 then Failure(OddByteLength(1))
    else
      match ReadInt16s(bytes[2..])
      case Success(rest) => Success([Int16FromLE(bytes[0], bytes[1])] + rest)
      case Failure(_) => Failure(OddByteLength(|bytes|))
  }

  /** Reference encoder for a whole sequence of 16-bit values. */
  function WriteInt16s(vs: seq<int>): (bytes: seq<Byte>)
    requires AllInt16(vs)
    ensures |bytes| == 2 * |vs|
  {
    if vs == [] then [] else Int16ToLE(vs[0]) + WriteInt16s(vs[1..])
  }

  /** Reading back what the reference encoder wrote gives the same values. */
  lemma {:induction false} ReadWriteRoundTrip(vs: seq<int>)
    requires AllInt16(vs)
    ensures ReadInt16s(WriteInt16s(vs)) == Success(vs)
  {
    if vs != [] {
      var bytes := WriteInt16s(vs);
      assert bytes[2..] == WriteInt16s(vs[1..]);
      ReadWriteRoundTrip(vs[1..]);
      Int16LERoundTrip(vs[0]);
      assert vs == [vs[0]] + vs[1..];
    }
  }

  /** The channel data of the playback buffer: one sample per 16-bit value. */
  function Decode(pcm: seq<int>): (samples: seq<real>)
    ensures |samples| == |pcm|
  {
    if pcm == [] then [] else [pcm[0] as real / Int16Scale] + Decode(pcm[1..])
  }

  lemma {:induction false} DecodeAt(pcm: seq<int>, i: nat)
    requires i < |pcm|
    ensures Decode(pcm)[i] == pcm[i] as real / Int16Scale
  {
    if i > 0 {
      DecodeAt(pcm[1..], i - 1);
    }
  }

  /** Every decoded 16-bit value lies in [-1, 1). */
  lemma DecodeInUnitRange(pcm: seq<int>)
    requires AllInt16(pcm)
    ensures AllInUnitRange(Decode(pcm))
  {
    forall i | 0 <= i < |pcm| ensures InUnitRange(Decode(pcm)[i]) {
      DecodeAt(pcm, i);
    }
  }

  /** The decode loop: channel[i] := pcm[i] / 32768 for every index. */
  method FillChannel(pcm: seq<int>, channel: array<real>)
    requires channel.Length == |pcm|
    modifies channel
    ensures channel[..] == Decode(pcm)
  {
    var i := 0;
    while i < |pcm|
      invariant 0 <= i <= |pcm|
      invariant forall k :: 0 <= k < i ==> channel[k] == pcm[k] as real / Int16Scale
    {
      channel[i] := pcm[i] as real / Int16Scale;
      i := i + 1;
    }
    forall k | 0 <= k < |pcm| ensures channel[..][k] == Decode(pcm)[k] {
      DecodeAt(pcm, k);
    }
  }
}
