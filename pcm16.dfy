/** 16-bit signed little-endian mono PCM: the byte layout `generateTestAudio`
    writes, and its decoding. */
module Pcm16 {

  /** A Go `byte`. */
  type Byte = b: int | 0 <= b < 256

  /** A Go `int16` sample. */
  type Int16 = x: int | -32768 <= x < 32768

  /** `byte(sample & 0xFF)`: the two's-complement low byte. Dafny's `%` is
      Euclidean, so for a negative sample this is the same bit pattern. */
  function LowByte(sample: Int16): (b: Byte)
    ensures (sample - b) % 256 == 0
  {
    sample % 256
  }

  /** `byte((sample >> 8) & 0xFF)`: `>>` on int16 is an arithmetic shift, i.e.
      floor division by 256, which Dafny's Euclidean `/` by a positive divisor is. */
  function HighByte(sample: Int16): (b: Byte)
    ensures sample == 256 * (if b >= 128 then b - 256 else b) + LowByte(sample)
  {
    (sample / 256) % 256
  }

  /** Reads a little-endian pair of bytes back as a signed 16-bit value. */
  function SampleFromBytes(lo: Byte, hi: Byte): (s: Int16)
    ensures s == lo + 256 * hi || s == lo + 256 * hi - 65536
    ensures (s < 0) == (hi >= 128)
  {
    var u := lo + 256 * hi;
    if u >= 32768 then u - 65536 else u
  }

  /** Encoding one sample is undone by decoding its two bytes. */
  lemma SampleRoundTrip(sample: Int16)
    ensures SampleFromBytes(LowByte(sample), HighByte(sample)) == sample
  {
  }

  /** Decoding two bytes and encoding the sample gives back the same bytes, so
      every byte pair is the encoding of exactly one sample. */
  lemma BytesRoundTrip(lo: Byte, hi: Byte)
    ensures LowByte(SampleFromBytes(lo, hi)) == lo
    ensures HighByte(SampleFromBytes(lo, hi)) == hi
  {
  }

  /** The buffer the encoder produces: sample i at bytes 2i (low) and 2i+1 (high). */
  function Encode(samples: seq<Int16>): (bytes: seq<Byte>)
    ensures |bytes| == 2 * |samples|
  {
    if samples == [] then []
    else [LowByte(samples[0]), HighByte(samples[0])] + Encode(samples[1..])
  }

  /** Sample i of a buffer, read from bytes 2i and 2i+1. */
  function SampleAt(bytes: seq<Byte>, i: nat): (s: Int16)
    requires 2 * i + 1 < |bytes|
  {
    SampleFromBytes(bytes[2 * i], bytes[2 * i + 1])
  }

  /** The samples of a buffer with an even number of bytes. */
  function Decode(bytes: seq<Byte>): (samples: seq<Int16>)
    requires |bytes| % 2 == 0
    ensures 2 * |samples| == |bytes|
  {
    if bytes == [] then []
    else [SampleFromBytes(bytes[0], bytes[1])] + Decode(bytes[2..])
  }

  /** The layout of the encoding: sample k occupies bytes 2k and 2k+1. */
  lemma {:induction false} EncodeAt(samples: seq<Int16>, k: nat)
    requires k < |samples|
    ensures Encode(samples)[2 * k] == LowByte(samples[k])
    ensures Encode(samples)[2 * k + 1] == HighByte(samples[k])
  {
    if k > 0 {
      EncodeAt(samples[1..], k - 1);
    }
  }

  /** Decoding reads sample i from bytes 2i and 2i+1. */
  lemma {:induction false} DecodeAt(bytes: seq<Byte>, i: nat)
    requires |bytes| % 2 == 0 && 2 * i + 1 < |bytes|
    ensures Decode(bytes)[i] == SampleAt(bytes, i)
  {
    if i > 0 {
      DecodeAt(bytes[2..], i - 1);
    }
  }

  /** Round trip: decoding the encoder's buffer gives back the samples. */
  lemma {:induction false} DecodeEncode(samples: seq<Int16>)
    ensures Decode(Encode(samples)) == samples
  {
    if samples != [] {
      var bytes := Encode(samples);
      assert bytes[2..] == Encode(samples[1..]);
      DecodeEncode(samples[1..]);
      SampleRoundTrip(samples[0]);
    }
  }

  /** The other direction: every even-length buffer is the encoding of its samples. */
  lemma {:induction false} EncodeDecode(bytes: seq<Byte>)
    requires |bytes| % 2 == 0
    ensures Encode(Decode(bytes)) == bytes
  {
    if bytes != [] {
      var samples := Decode(bytes);
      assert samples[1..] == Decode(bytes[2..]);
      EncodeDecode(bytes[2..]);
      BytesRoundTrip(bytes[0], bytes[1]);
      assert bytes == [bytes[0], bytes[1]] + bytes[2..];
    }
  }

  /** The loop of `generateTestAudio` with the sine computation taken out: it
      allocates `2 * numSamples` bytes and writes each sample's low and high
      byte in place. */
  method EncodeSamples(samples: seq<Int16>) returns (audio: array<Byte>)
    ensures audio.Length == 2 * |samples|
    ensures forall k :: 0 <= k < |samples| ==>
              audio[2 * k] == LowByte(samples[k]) && audio[2 * k + 1] == HighByte(samples[k])
    ensures audio[..] == Encode(samples)
    ensures Decode(audio[..]) == samples
  {
    var numSamples := |samples|;
    audio := new Byte[numSamples * 2];
    for i := 0 to numSamples
      invariant forall k :: 0 <= k < i ==>
                  audio[2 * k] == LowByte(samples[k]) && audio[2 * k + 1] == HighByte(samples[k])
    {
      var sample := samples[i];
      audio[i * 2] := LowByte(sample);
      audio[i * 2 + 1] := HighByte(sample);
    }
    forall j | 0 <= j < audio.Length
      ensures audio[j] == Encode(samples)[j]
    {
      EncodeAt(samples, j / 2);
    }
    assert audio[..] == Encode(samples);
    DecodeEncode(samples);
  }
}
