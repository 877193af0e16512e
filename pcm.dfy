/**
 * Byte- and sample-level arithmetic of the audio source: 16-bit signed
 * little-endian stereo PCM at 44100 Hz in, the same format at 48000 Hz out.
 * Everything here is pure; the stateful side lives in module Audio.
 */
module Pcm {
  import opened Wrappers

  type byte = x: int | 0 <= x < 0x100
  type int16 = x: int | -0x8000 <= x < 0x8000

  const InputRate: nat := 44100
  const OutputRate: nat := 48000
  const Channels: nat := 2
  /** Bytes per sample (S16) */
  const SampleWidth: nat := 2
  /** Bytes per stereo frame: one sample per channel */
  const FrameBytes: nat := 4

  /** The exceptions numpy raises inside the resampling step. */
  datatype ResampleError =
    | BufferSizeNotMultiple   // np.frombuffer on an odd number of bytes
    | ColumnLengthMismatch    // np.column_stack on channels of different lengths

  /**
   * One channel's rate conversion: scipy's resample_poly followed by the
   * cast back to int16. It is left uninterpreted and passed in by callers.
   */
  type Resampler = seq<int16> -> seq<int16>

  /** `n` zero bytes. */
  function Zeros(n: nat): seq<byte>
  {
    seq(n, _ => 0)
  }

  // ---------------------------------------------------------------------
  // Sizes

  /**
   * Bytes requested from the decoder for an output block of `blocksize`
   * bytes: the block scaled by 44100/48000 and rounded down to whole frames.
   */
  function InputSize(blocksize: nat): (n: nat)
    ensures n % 4 == 0
    ensures n <= blocksize * 44100 / 48000 < n + 4
    ensures n <= blocksize
  {
    var inputSize := blocksize * 44100 / 48000;
    (inputSize / 4) * 4
  }

  /** Drops the trailing partial frame of what the decoder returned. */
  function Align(data: seq<byte>): (aligned: seq<byte>)
    ensures |aligned| <= |data| && |data| - |aligned| < 4
    ensures |aligned| % 4 == 0
    ensures aligned == data[..|aligned|]
  {
    if |data| % 4 != 0 then data[..(|data| / 4) * 4] else data
  }

  /**
   * Number of samples scipy's resample_poly returns for `n` input samples
   * with up = 48000 and down = 44100: the ceiling of n * 48000 / 44100.
   */
  function ResampledCount(n: nat): nat
  {
    (n * 48000 + 44099) / 44100
  }

  /** A resampler whose output has the length resample_poly gives. */
  ghost predicate KeepsScipyLength(resample: Resampler)
  {
    forall x: seq<int16> {:trigger resample(x)} :: |resample(x)| == ResampledCount(|x|)
  }

  // ---------------------------------------------------------------------
  // Bytes <-> samples (np.frombuffer / ndarray.tobytes, little-endian int16)

  /** The little-endian two's-complement int16 held in two bytes. */
  function SampleOf(lo: byte, hi: byte): (v: int16)
    ensures v < 0 <==> hi >= 0x80
    ensures (v - (lo + 0x100 * hi)) % 0x1_0000 == 0
  {
    var u := lo + 0x100 * hi;
    if u < 0x8000 then u else u - 0x1_0000
  }

  /** The first (least significant) byte of a sample. */
  function LowByte(v: int16): (lo: byte)
    ensures (v - lo) % 0x100 == 0
  {
    (if v < 0 then v + 0x1_0000 else v) % 0x100
  }

  /** The second byte of a sample; its top bit is the sign. */
  function HighByte(v: int16): (hi: byte)
    ensures v < 0 <==> hi >= 0x80
  {
    (if v < 0 then v + 0x1_0000 else v) / 0x100
  }

  function FromBuffer(data: seq<byte>): (samples: seq<int16>)
    requires |data| % 2 == 0
    ensures 2 * |samples| == |data|
  {
    seq(|data| / 2, i requires 0 <= i < |data| / 2 => SampleOf(data[2 * i], data[2 * i + 1]))
  }

  function ToBytes(samples: seq<int16>): (data: seq<byte>)
    ensures |data| == 2 * |samples|
  {
    seq(2 * |samples|, i requires 0 <= i < 2 * |samples| =>
      if i % 2 == 0 then LowByte(samples[i / 2]) else HighByte(samples[i / 2]))
  }

  lemma SampleRoundTrip(v: int16)
    ensures SampleOf(LowByte(v), HighByte(v)) == v
  {
    var u := if v < 0 then v + 0x1_0000 else v;
    assert u == LowByte(v) + 0x100 * HighByte(v);
  }

  lemma ByteRoundTrip(lo: byte, hi: byte)
    ensures LowByte(SampleOf(lo, hi)) == lo && HighByte(SampleOf(lo, hi)) == hi
  {
    var u := lo + 0x100 * hi;
    var v: int := SampleOf(lo, hi);
    assert (if v < 0 then v + 0x1_0000 else v) == u;
  }

  /** Decoding what was encoded gives back the samples. */
  lemma FromBufferToBytes(samples: seq<int16>)
    ensures FromBuffer(ToBytes(samples)) == samples
  {
    var back := FromBuffer(ToBytes(samples));
    forall i | 0 <= i < |samples|
      ensures back[i] == samples[i]
    {
      SampleRoundTrip(samples[i]);
    }
  }

  /** Encoding what was decoded gives back the bytes. */
  lemma ToBytesFromBuffer(data: seq<byte>)
    requires |data| % 2 == 0
    ensures ToBytes(FromBuffer(data)) == data
  {
    var samples := FromBuffer(data);
    var back := ToBytes(samples);
    forall i | 0 <= i < |data|
      ensures back[i] == data[i]
    {
      var k := i / 2;
      ByteRoundTrip(data[2 * k], data[2 * k + 1]);
    }
  }

  // ---------------------------------------------------------------------
  // 2 (reshape(-1, 2), x[:, c] and np.column_stack)

  /** Drops a trailing unpaired sample so the samples split into frames. */
  function EvenSamples(samples: seq<int16>): (even: seq<int16>)
    ensures |even| <= |samples| && |samples| - |even| < 2
    ensures |even| % 2 == 0
    ensures even == samples[..|even|]
  {
    if |samples| % 2 != 0 then samples[..|samples| - 1] else samples
  }

  /** Column `c` of the interleaved samples seen as rows of `2` samples. */
  function Channel(samples: seq<int16>, c: nat): (column: seq<int16>)
    requires |samples| % 2 == 0 && c < 2
    ensures 2 * |column| == |samples|
  {
    seq(|samples| / 2, i requires 0 <= i < |samples| / 2 => samples[2 * i + c])
  }

  /** Row-major flattening of two equally long columns placed side by side. */
  function Interleave(left: seq<int16>, right: seq<int16>): (samples: seq<int16>)
    requires |left| == |right|
    ensures |samples| == 2 * |left|
  {
    seq(2 * |left|, i requires 0 <= i < 2 * |left| => if i % 2 == 0 then left[i / 2] else right[i / 2])
  }

  /** Splitting into channels and stacking them back gives the original samples. */
  lemma SplitJoin(samples: seq<int16>)
    requires |samples| % 2 == 0
    ensures Interleave(Channel(samples, 0), Channel(samples, 1)) == samples
  {
    var joined := Interleave(Channel(samples, 0), Channel(samples, 1));
    forall i | 0 <= i < |samples|
      ensures joined[i] == samples[i]
    {
      assert i == 2 * (i / 2) + i % 2;
    }
  }

  /** Stacking two columns and splitting again gives the columns back. */
  lemma JoinSplit(left: seq<int16>, right: seq<int16>)
    requires |left| == |right|
    ensures Channel(Interleave(left, right), 0) == left
    ensures Channel(Interleave(left, right), 1) == right
  {
    var joined := Interleave(left, right);
    forall i | 0 <= i < |left|
      ensures Channel(joined, 0)[i] == left[i] && Channel(joined, 1)[i] == right[i]
    {
      assert (2 * i) / 2 == i && (2 * i + 1) / 2 == i;
    }
  }

  /** np.column_stack of the channel list, flattened by tobytes. */
  function ColumnStack(columns: seq<seq<int16>>): (r: Result<seq<int16>, ResampleError>)
    requires |columns| == 2
    ensures r.Ok? <==> |columns[0]| == |columns[1]|
    ensures r.Err? ==> r.error == ColumnLengthMismatch
    ensures r.Ok? ==> |r.value| == 2 * |columns[0]|
  {
    if |columns[0]| != |columns[1]| then Err(ColumnLengthMismatch)
    else Ok(Interleave(columns[0], columns[1]))
  }

  /** The list `resampled_channels`: each channel of `samples` through the resampler. */
  function ResampledColumns(samples: seq<int16>, resample: Resampler): (columns: seq<seq<int16>>)
    requires |samples| % 2 == 0
    ensures |columns| == 2
  {
    seq(Channels, c requires 0 <= c < Channels => resample(Channel(samples, c)))
  }

  /** What _resample_audio returns, or the exception it raises. */
  function ResampleBytes(data: seq<byte>, resample: Resampler): (r: Result<seq<byte>, ResampleError>)
    ensures r == Err(BufferSizeNotMultiple) <==> |data| % 2 != 0
    ensures r.Err? && |data| % 2 == 0 ==> r == Err(ColumnLengthMismatch)
  {
    if |data| % 2 != 0 then Err(BufferSizeNotMultiple)
    else
      var samples := EvenSamples(FromBuffer(data));
      match ColumnStack(ResampledColumns(samples, resample))
      case Err(e) => Err(e)
      case Ok(joined) => Ok(ToBytes(joined))
  }

  /** A whole number of frames decodes to an even number of samples, which the trim keeps. */
  lemma NoOddTrim(data: seq<byte>)
    requires |data| % 4 == 0
    ensures EvenSamples(FromBuffer(data)) == FromBuffer(data)
  {
    assert |FromBuffer(data)| % 2 == 0;
  }

  /**
   * On frame-aligned input the odd-sample trim does nothing, np.frombuffer
   * cannot fail, and the only failure left is channels of unequal length.
   */
  lemma ResampleAligned(data: seq<byte>, resample: Resampler)
    requires |data| % 4 == 0
    ensures EvenSamples(FromBuffer(data)) == FromBuffer(data)
    ensures var left := resample(Channel(FromBuffer(data), 0));
            var right := resample(Channel(FromBuffer(data), 1));
            && (ResampleBytes(data, resample).Ok? <==> |left| == |right|)
            && (|left| == |right| ==> ResampleBytes(data, resample) == Ok(ToBytes(Interleave(left, right))))
  {
    NoOddTrim(data);
  }

  /**
   * Under a resampler of scipy's length, frame-aligned input always
   * resamples, to 4 bytes per output frame.
   */
  lemma ScipyLengthResample(data: seq<byte>, resample: Resampler)
    requires KeepsScipyLength(resample)
    requires |data| % 4 == 0
    ensures ResampleBytes(data, resample).Ok?
    ensures |ResampleBytes(data, resample).value| == 4 * ResampledCount(|data| / 4)
  {
    var samples := FromBuffer(data);
    assert |Channel(samples, 0)| == |Channel(samples, 1)| == |data| / 4;
    var left := resample(Channel(samples, 0));
    var right := resample(Channel(samples, 1));
    assert |left| == |right| == ResampledCount(|data| / 4);
    ResampleAligned(data, resample);
    assert |ToBytes(Interleave(left, right))| == 4 * |left|;
  }

  /**
   * With the identity in place of the resampler, the decode, channel split,
   * column stack and encode of _resample_audio give back the aligned input.
   */
  lemma ResampleIdentity(data: seq<byte>)
    requires |data| % 4 == 0
    ensures ResampleBytes(data, x => x) == Ok(data)
  {
    var samples := FromBuffer(data);
    ResampleAligned(data, x => x);
    SplitJoin(samples);
    ToBytesFromBuffer(data);
  }

  /**
   * Length normalisation of read(): truncate to the block, or pad. The pad
   * is `blocksize - len` copies of two zero bytes, so a short buffer comes
   * back `2 * blocksize - len` bytes long, not `blocksize`.
   */
  function FitToBlock(resampled: seq<byte>, blocksize: nat): (out: seq<byte>)
    ensures |resampled| >= blocksize ==> out == resampled[..blocksize]
    ensures |resampled| < blocksize ==>
      && |out| == 2 * blocksize - |resampled|
      && out[..|resampled|] == resampled
      && forall i :: |resampled| <= i < |out| ==> out[i] == 0
  {
    if |resampled| > blocksize then resampled[..blocksize]
    else if |resampled| < blocksize then resampled + Zeros(2 * (blocksize - |resampled|))
    else resampled
  }

  /**
   * The byte length of the resampled buffer for a frame-aligned input of
   * InputSize(blocksize) bytes, under a resampler of scipy's length, lies
   * between blocksize - 4 and blocksize + 3.
   */
  lemma ResampledBlockBounds(blocksize: nat)
    ensures var frames := InputSize(blocksize) / 4;
            blocksize <= 4 * ResampledCount(frames) + 4 &&
            4 * ResampledCount(frames) <= blocksize + 3
  {
    var q := blocksize * 44100 / 48000;
    var frames := InputSize(blocksize) / 4;
    var m := ResampledCount(frames);
    assert 4 * frames == InputSize(blocksize);
    assert q * 48000 <= blocksize * 44100 < q * 48000 + 48000;
    assert q - 3 <= 4 * frames <= q;
    assert m * 44100 <= frames * 48000 + 44099 < m * 44100 + 44100;
  }
}
