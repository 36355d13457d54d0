/** The 16-bit PCM encoder of the live-transcription audio callback: each
    sample is clamped to [-1, 1], scaled by 0x7fff and stored with
    `DataView.setInt16(2 * i, value, true)`, whose ToInt16 conversion
    (section 7.1.8 of ECMA-262) truncates toward zero and wraps modulo 2^16,
    and whose `true` selects little-endian byte order. Samples are
    mathematical reals. */
module Pcm {

  newtype byte = x: int | 0 <= x < 256

  /** `Math.max(-1, Math.min(1, x))`. */
  function Clamp(x: real): (r: real)
    ensures -1.0 <= r <= 1.0
    ensures -1.0 <= x <= 1.0 ==> r == x
  {
    if x < -1.0 then -1.0 else if x > 1.0 then 1.0 else x
  }

  /** Truncation toward zero. */
  function Truncate(x: real): (n: int)
    ensures x >= 0.0 ==> 0.0 <= n as real <= x < n as real + 1.0
    ensures x < 0.0 ==> n as real - 1.0 < x <= n as real <= 0.0
  {
    if x >= 0.0 then x.Floor else -((-x).Floor)
  }

  /** ToInt16 of an integral number: its value modulo 2^16 read as a signed 16-bit integer. */
  function ToInt16(n: int): (r: int)
    ensures -32768 <= r < 32768
    ensures (r - n) % 65536 == 0
  {
    var m := n % 65536;
    if m >= 32768 then m - 65536 else m
  }

  /** The 16-bit value stored for one sample. It lies in [-32767, 32767], so
      -32768 never occurs, and `setInt16`'s wrap-around never changes it. */
  function Quantize(x: real): (v: int)
    ensures -32767 <= v <= 32767
  {
    var t := Truncate(Clamp(x) * 32767.0);
    assert -32767 <= t <= 32767;
    ToInt16(t)
  }

  function LowByte(v: int): byte {
    (v % 256) as byte
  }

  function HighByte(v: int): byte {
    ((v % 65536) / 256) as byte
  }

  /** Reads two little-endian bytes back as a signed 16-bit integer (`getInt16(k, true)`). */
  function DecodeInt16(lo: byte, hi: byte): int {
    var u := hi as int * 256 + lo as int;
    if u >= 32768 then u - 65536 else u
  }

  /** The stored value is the scaled sample rounded toward zero: it is off by less than one step. */
  lemma QuantizeError(x: real)
    ensures var e := Clamp(x) * 32767.0 - Quantize(x) as real; -1.0 < e < 1.0
    ensures Clamp(x) >= 0.0 ==> Quantize(x) >= 0 && Quantize(x) as real <= Clamp(x) * 32767.0
    ensures Clamp(x) < 0.0 ==> Quantize(x) <= 0 && Quantize(x) as real >= Clamp(x) * 32767.0
  {
  }

  /** Full-scale and out-of-range samples map to the extreme values. */
  lemma QuantizeSaturates(x: real)
    ensures x >= 1.0 ==> Quantize(x) == 32767
    ensures x <= -1.0 ==> Quantize(x) == -32767
    ensures Quantize(0.0) == 0
  {
  }

  /** Truncation toward zero makes the encoding symmetric. */
  lemma QuantizeOdd(x: real)
    ensures Quantize(-x) == -Quantize(x)
  {
    assert Clamp(-x) == -Clamp(x);
  }

  /** A louder sample never encodes to a smaller value. */
  lemma QuantizeMonotone(x: real, y: real)
    requires x <= y
    ensures Quantize(x) <= Quantize(y)
  {
    var a := Clamp(x) * 32767.0;
    var b := Clamp(y) * 32767.0;
    assert a <= b;
  }

  /** The two bytes of a 16-bit value decode back to it. */
  lemma Int16RoundTrip(v: int)
    requires -32768 <= v < 32768
    ensures DecodeInt16(LowByte(v), HighByte(v)) == v
  {
    var u := v % 65536;
    assert (u - v) % 65536 == 0;
    assert u == if v >= 0 then v else v + 65536;
    assert v % 256 == u % 256;
    assert u == (u / 256) * 256 + u % 256;
  }

  /** A frame of `2 * n` bytes in which sample i is stored at bytes 2i (low
      half) and 2i + 1 (high half). */
  predicate Encodes(samples: seq<real>, bytes: seq<byte>) {
    && |bytes| == 2 * |samples|
    && forall i :: 0 <= i < |samples| ==>
      bytes[2 * i] == LowByte(Quantize(samples[i])) && bytes[2 * i + 1] == HighByte(Quantize(samples[i]))
  }

  /** `onaudioprocess`'s conversion loop over a fresh buffer. */
  method EncodeBlock(samples: seq<real>) returns (bytes: seq<byte>)
    ensures Encodes(samples, bytes)
  {
    var buffer := new byte[2 * |samples|];
    var i := 0;
    while i < |samples|
      invariant 0 <= i <= |samples|
      invariant forall k :: 0 <= k < i ==>
        buffer[2 * k] == LowByte(Quantize(samples[k])) && buffer[2 * k + 1] == HighByte(Quantize(samples[k]))
    {
      var v := Quantize(samples[i]);
      buffer[2 * i] := LowByte(v);
      buffer[2 * i + 1] := HighByte(v);
      i := i + 1;
    }
    bytes := buffer[..];
  }

  /** `getInt16(2 * i, true)` for every i: the receiver's view of a frame. */
  function DecodeFrame(bytes: seq<byte>): (r: seq<int>)
    requires |bytes| % 2 == 0
    ensures |r| == |bytes| / 2
  {
    seq(|bytes| / 2, i requires 0 <= i < |bytes| / 2 => DecodeInt16(bytes[2 * i], bytes[2 * i + 1]))
  }

  /** Decoding an encoded frame gives the quantized samples back, in order. */
  lemma FrameRoundTrip(samples: seq<real>, bytes: seq<byte>)
    requires Encodes(samples, bytes)
    ensures DecodeFrame(bytes) == seq(|samples|, i requires 0 <= i < |samples| => Quantize(samples[i]))
  {
    var d := DecodeFrame(bytes);
    var q := seq(|samples|, i requires 0 <= i < |samples| => Quantize(samples[i]));
    assert |d| == |q|;
    forall i | 0 <= i < |samples| ensures d[i] == q[i] {
      DecodeSample(samples, bytes, i);
    }
  }

  /** Sample i of an encoded frame decodes back to its quantized value. */
  lemma DecodeSample(samples: seq<real>, bytes: seq<byte>, i: nat)
    requires Encodes(samples, bytes) && i < |samples|
    ensures DecodeFrame(bytes)[i] == Quantize(samples[i])
  {
    var v := Quantize(samples[i]);
    assert bytes[2 * i] == LowByte(v) && bytes[2 * i + 1] == HighByte(v);
    assert DecodeFrame(bytes)[i] == DecodeInt16(bytes[2 * i], bytes[2 * i + 1]);
    Int16RoundTrip(v);
  }
}
