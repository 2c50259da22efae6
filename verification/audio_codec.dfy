/** The wire format of the live session's audio: microphone frames are
    16-bit little-endian PCM sent as base 64, and the service's audio
    arrives the same way and is split into channels for playback. The
    floating-point sample scaling on either side is not part of this model. */
module AudioCodec {
  import opened Wrappers
  import Base64

  type Byte = Base64.Byte
  type Int16 = x: int | -0x8000 <= x < 0x8000

  const InputSampleRate: nat := 16000
  const OutputSampleRate: nat := 24000
  const InputMimeType: string := "audio/pcm;rate=16000"

  /** `encode(bytes)`: `btoa` of the string whose character codes are the bytes. */
  function EncodeBytes(bytes: seq<Byte>): (s: string)
    ensures |s| == 4 * ((|bytes| + 2) / 3)
    ensures s == Base64.Encode(bytes)
  {
    Base64.Btoa(Base64.BinaryString(bytes)).value
  }

  /** `decode(base64)`: the character codes of `atob(base64)`; `None` where
      `atob` throws. */
  function DecodeBytes(s: string): (r: Option<seq<Byte>>)
    ensures r.Some? <==> Base64.Atob(s).Some?
    ensures r.Some? ==> |r.value| == |Base64.Atob(s).value|
    ensures r == Base64.Decode(s)
  {
    match Base64.Atob(s)
    case None => None
    case Some(binary) => Some(Base64.Codes(binary))
  }

  /** The bytes of every frame survive the trip through the wire format. */
  lemma DecodeEncodeBytes(bytes: seq<Byte>)
    ensures DecodeBytes(EncodeBytes(bytes)) == Some(bytes)
  {
    Base64.AtobBtoa(Base64.BinaryString(bytes));
  }

  /** The signed sample stored little-endian in `lo`, `hi`. */
  function Sample(lo: Byte, hi: Byte): Int16 {
    var u := hi * 256 + lo;
    if u >= 0x8000 then u - 0x1_0000 else u
  }

  /** The two's-complement bytes of a sample, low byte first. */
  function LowByte(x: Int16): Byte { ((x + 0x1_0000) % 0x1_0000) % 256 }
  function HighByte(x: Int16): Byte { ((x + 0x1_0000) % 0x1_0000) / 256 }

  lemma SampleOfBytes(x: Int16)
    ensures Sample(LowByte(x), HighByte(x)) == x
  {
  }

  /** `new Int16Array(bytes.buffer)`: one sample per byte pair, in order;
      `None` where the constructor throws because the byte length is odd. */
  function Int16View(bytes: seq<Byte>): (r: Option<seq<Int16>>)
    ensures r.Some? <==> |bytes| % 2 == 0
    ensures r.Some? ==> |r.value| == |bytes| / 2
    ensures r.Some? && |bytes| >= 2 ==> r.value[0] == Sample(bytes[0], bytes[1])
    decreases |bytes|
  {
    if |bytes| == 0 then Some([])
    else if |bytes| == 1 then None
    else match Int16View(bytes[2..])
      case None => None
      case Some(rest) => Some([Sample(bytes[0], bytes[1])] + rest)
  }

  /** Sample `i` of the view is read from bytes `2i` (low) and `2i + 1`
      (high). */
  lemma {:induction false} Int16ViewReadsPairs(bytes: seq<Byte>)
    requires |bytes| % 2 == 0
    ensures forall i :: 0 <= i < |bytes| / 2 ==>
              Int16View(bytes).value[i] == Sample(bytes[2 * i], bytes[2 * i + 1])
    decreases |bytes|
  {
    if |bytes| >= 2 {
      var tail := bytes[2..];
      Int16ViewReadsPairs(tail);
      var rest := Int16View(tail).value;
      assert Int16View(bytes).value == [Sample(bytes[0], bytes[1])] + rest;
      forall i | 1 <= i < |bytes| / 2
        ensures Int16View(bytes).value[i] == Sample(bytes[2 * i], bytes[2 * i + 1])
      {
        assert tail[2 * (i - 1)] == bytes[2 * i];
        assert tail[2 * (i - 1) + 1] == bytes[2 * i + 1];
      }
    }
  }

  /** `new Uint8Array(int16.buffer)`: the bytes of the samples, in order. */
  function SampleBytes(samples: seq<Int16>): (bytes: seq<Byte>)
    ensures |bytes| == 2 * |samples|
  {
    if samples == [] then []
    else [LowByte(samples[0]), HighByte(samples[0])] + SampleBytes(samples[1..])
  }

  /** Viewing the bytes of samples as samples gives them back. */
  lemma {:induction false} Int16ViewOfSampleBytes(samples: seq<Int16>)
    ensures Int16View(SampleBytes(samples)) == Some(samples)
  {
    if samples != [] {
      var bytes := SampleBytes(samples);
      assert bytes[2..] == SampleBytes(samples[1..]);
      Int16ViewOfSampleBytes(samples[1..]);
      SampleOfBytes(samples[0]);
      assert [samples[0]] + samples[1..] == samples;
    }
  }

  lemma MulMonotone(a: nat, b: nat, n: nat)
    requires a <= b
    ensures a * n <= b * n
  {
    assert b * n == a * n + (b - a) * n;
  }

  /** Where frame `i` of channel `c` sits among interleaved samples of `n`
      channels. */
  function Offset(i: nat, n: nat, c: nat): nat { i * n + c }

  /** Every frame of a buffer of `len / n` frames lies inside `len` samples. */
  lemma OffsetBounds(n: nat, c: nat, len: nat)
    requires 1 <= n && c < n
    ensures forall i: nat :: i < len / n ==> Offset(i, n, c) < len
  {
    forall i: nat | i < len / n
      ensures Offset(i, n, c) < len
    {
      MulMonotone(i + 1, len / n, n);
      assert (i + 1) * n == i * n + n;
      assert len == (len / n) * n + len % n;
    }
  }

  /** Channel `channel` of interleaved samples, as `decodeAudioData` fills
      it: the buffer holds `len / n` frames (truncated), and frame `i` of the
      channel is sample `i * n + channel`. */
  function ChannelData(samples: seq<Int16>, n: nat, channel: nat): (r: seq<Int16>)
    requires 1 <= n && channel < n
    ensures |r| == |samples| / n
    ensures forall i :: 0 <= i < |r| ==>
              Offset(i, n, channel) < |samples| && r[i] == samples[Offset(i, n, channel)]
  {
    OffsetBounds(n, channel, |samples|);
    seq(|samples| / n, i requires 0 <= i < |samples| / n => samples[Offset(i, n, channel)])
  }

  /** A single channel is the samples themselves. */
  lemma MonoChannelIsSamples(samples: seq<Int16>)
    ensures ChannelData(samples, 1, 0) == samples
  {
  }

  /** A buffer of `len` samples over `n` channels has no frame exactly when
      it has fewer samples than channels. */
  lemma NoFrameIffShort(len: nat, n: nat)
    requires n >= 1
    ensures len / n == 0 <==> len < n
  {
    assert len == (len / n) * n + len % n;
    if len / n >= 1 {
      MulMonotone(1, len / n, n);
    }
  }

  /** `decodeAudioData(data, ctx, sampleRate, n)`: one sequence of samples
      per channel; `None` where it throws: an odd byte length, no channel,
      or fewer samples than channels (a buffer of zero frames). */
  function DecodeAudioData(data: seq<Byte>, n: nat): (r: Option<seq<seq<Int16>>>)
    ensures r.Some? <==> |data| % 2 == 0 && n >= 1 && |data| / 2 >= n
    ensures r.Some? ==> |r.value| == n
    ensures r.Some? ==> forall c :: 0 <= c < n ==>
              r.value[c] == ChannelData(Int16View(data).value, n, c)
  {
    match Int16View(data)
    case None => None
    case Some(samples) =>
      if n == 0 then None
      else
        NoFrameIffShort(|samples|, n);
        if |samples| / n == 0 then None
        else Some(seq(n, c requires 0 <= c < n => ChannelData(samples, n, c)))
  }

  /** Playback length of a decoded buffer, in seconds. */
  function FrameDuration(frames: nat, sampleRate: nat): (d: real)
    requires sampleRate >= 1
    ensures d >= 0.0
    ensures d > 0.0 <==> frames >= 1
    ensures d * sampleRate as real == frames as real
  {
    frames as real / sampleRate as real
  }

  /** The blob a microphone frame becomes: its samples' bytes in base 64,
      tagged with the input rate. */
  datatype Blob = Blob(data: string, mimeType: string)

  function CaptureBlob(samples: seq<Int16>): (b: Blob)
    ensures b.mimeType == InputMimeType
    ensures |b.data| == 4 * ((2 * |samples| + 2) / 3)
  {
    Blob(EncodeBytes(SampleBytes(samples)), InputMimeType)
  }

  /** A non-empty frame sent in the wire format is played back, mono, as
      exactly the samples that were captured. */
  lemma CapturedFramePlaysBack(samples: seq<Int16>)
    requires |samples| >= 1
    ensures DecodeBytes(CaptureBlob(samples).data).Some?
    ensures DecodeAudioData(DecodeBytes(CaptureBlob(samples).data).value, 1) == Some([samples])
  {
    var bytes := SampleBytes(samples);
    DecodeEncodeBytes(bytes);
    assert DecodeBytes(CaptureBlob(samples).data) == Some(bytes);
    Int16ViewOfSampleBytes(samples);
    assert |bytes| % 2 == 0 && |bytes| / 2 >= 1;
    var r := DecodeAudioData(bytes, 1);
    assert r.Some?;
    MonoChannelIsSamples(samples);
    assert r.value[0] == samples;
    assert r.value == [samples];
  }
}
