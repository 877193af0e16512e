/**
 * The LibrespotAudio audio source: it owns one decoder process, launches it
 * once, tears it down idempotently, and serves fixed-size blocks of 48 kHz
 * PCM pulled by the voice transport, resampled from the decoder's 44.1 kHz
 * output.
 */
module Audio {
  import opened Wrappers
  import opened Pcm

  /**
   * The decoder's standard output: the bytes it has still to deliver before
   * end of stream, and whether the pipe is still open for reading.
   */
  datatype Pipe = Pipe(pending: seq<byte>, open: bool)

  /** A launched decoder process; `stdout` is None when no pipe was attached. */
  datatype Decoder = Decoder(stdout: Option<Pipe>)

  /** What launching the decoder gives: a process, or the launch error. */
  datatype Spawn = Spawned(decoder: Decoder) | SpawnFailed

  /** Reading a pipe that has been closed raises. */
  datatype StreamError = ReadOnClosedPipe

  /**
   * A blocking read of up to `n` bytes: exactly `n` while the decoder has
   * them, fewer only when the stream ends.
   */
  function PipeRead(pipe: Pipe, n: nat): (r: (Result<seq<byte>, StreamError>, Pipe))
    ensures !pipe.open ==> r == (Err(ReadOnClosedPipe), pipe)
    ensures pipe.open ==>
      && r.0.Ok? && r.1.open
      && pipe.pending == r.0.value + r.1.pending
      && |r.0.value| == (if n <= |pipe.pending| then n else |pipe.pending|)
  {
    if !pipe.open then (Err(ReadOnClosedPipe), pipe)
    else
      var k := if n <= |pipe.pending| then n else |pipe.pending|;
      (Ok(pipe.pending[..k]), Pipe(pipe.pending[k..], true))
  }

  /** The bytes read() returns and the decoder it leaves behind. */
  datatype Frame = Frame(bytes: seq<byte>, process: Option<Decoder>)

  /**
   * read(blocksize) as a value: the silence fallbacks, the exception path
   * (which returns no bytes at all), and the resample-and-normalise path.
   */
  function ReadFrame(process: Option<Decoder>, blocksize: nat, resample: Resampler): (frame: Frame)
    ensures frame.process.Some? == process.Some?
    ensures process.Some? ==> frame.process.value.stdout.Some? == process.value.stdout.Some?
    ensures process.Some? && process.value.stdout.Some? ==>
      var before := process.value.stdout.value.pending;
      var after := frame.process.value.stdout.value.pending;
      |after| <= |before| && after == before[|before| - |after|..]
  {
    if process.None? || process.value.stdout.None? then Frame(Zeros(blocksize / 2), process)
    else
      var step := PipeRead(process.value.stdout.value, InputSize(blocksize));
      var after := Some(process.value.(stdout := Some(step.1)));
      match step.0
      case Err(_) => Frame([], after)
      case Ok(data) =>
        if data == [] then Frame(Zeros(2 * blocksize), after)
        else
          match ResampleBytes(Align(data), resample)
          case Err(_) => Frame([], after)
          case Ok(resampled) => Frame(FitToBlock(resampled, blocksize), after)
  }

  class LibrespotAudio {
    var process: Option<Decoder>
    var started: bool

    /** The source is started exactly when it holds a decoder process. */
    ghost predicate Valid()
      reads this
    {
      started <==> process.Some?
    }

    constructor()
      ensures Valid() && process == None && !started
    {
      process := None;
      started := false;
    }

    /**
     * Launches the decoder unless already started. A launch failure is
     * re-raised (`raised`) and leaves the source not started.
     */
    method Start(spawn: Spawn) returns (raised: bool)
      modifies this
      ensures old(started) ==> !raised && process == old(process) && started
      ensures !old(started) && spawn.Spawned? ==> !raised && process == Some(spawn.decoder) && started
      ensures !old(started) && spawn.SpawnFailed? ==> raised && process == old(process) && !started
      ensures old(Valid()) ==> Valid()
    {
      raised := false;
      if started {
        return;
      }
      match spawn
      case SpawnFailed =>
        raised := true;
      case Spawned(decoder) =>
        process := Some(decoder);
        started := true;
    }

    /**
     * _resample_audio: decode the bytes to int16 samples, drop an unpaired
     * sample, resample each channel in turn and stack the channels back.
     */
    method ResampleAudio(data: seq<byte>, resample: Resampler) returns (r: Result<seq<byte>, ResampleError>)
      ensures r == ResampleBytes(data, resample)
    {
      if |data| % 2 != 0 {
        return Err(BufferSizeNotMultiple);
      }
      var samples := FromBuffer(data);
      if |samples| % 2 != 0 {
        samples := samples[..|samples| - 1];
      }
      var resampledChannels: seq<seq<int16>> := [];
      for channel := 0 to Channels
        invariant |resampledChannels| == channel
        invariant forall c :: 0 <= c < channel ==> resampledChannels[c] == resample(Channel(samples, c))
      {
        resampledChannels := resampledChannels + [resample(Channel(samples, channel))];
      }
      assert resampledChannels == ResampledColumns(samples, resample);
      if |resampledChannels[0]| != |resampledChannels[1]| {
        return Err(ColumnLengthMismatch);
      }
      r := Ok(ToBytes(Interleave(resampledChannels[0], resampledChannels[1])));
    }

    /** read(blocksize): one block pulled by the voice transport. */
    method Read(blocksize: nat, resample: Resampler) returns (out: seq<byte>)
      modifies this
      ensures started == old(started) && process.Some? == old(process).Some?
      ensures out == ReadFrame(old(process), blocksize, resample).bytes
      ensures process == ReadFrame(old(process), blocksize, resample).process
    {
      if process.None? || process.value.stdout.None? {
        return Zeros(blocksize / 2);
      }
      var inputSize := blocksize * InputRate / OutputRate;
      inputSize := (inputSize / 4) * 4;
      assert inputSize == InputSize(blocksize);
      var step := PipeRead(process.value.stdout.value, inputSize);
      process := Some(process.value.(stdout := Some(step.1)));
      if step.0.Err? {
        return [];
      }
      var data := step.0.value;
      if data == [] {
        return Zeros(2 * blocksize);
      }
      if |data| % 4 != 0 {
        data := data[..(|data| / 4) * 4];
      }
      assert data == Align(step.0.value);
      var resampled := ResampleAudio(data, resample);
      if resampled.Err? {
        return [];
      }
      var resampledData := resampled.value;
      if |resampledData| > blocksize {
        out := resampledData[..blocksize];
      } else if |resampledData| < blocksize {
        out := resampledData + Zeros(2 * (blocksize - |resampledData|));
      } else {
        out := resampledData;
      }
      assert out == FitToBlock(resampledData, blocksize);
    }

    /**
     * Terminates and releases the decoder if there is one; with no decoder
     * held it changes nothing, so a second call is a no-op.
     */
    method Cleanup()
      modifies this
      ensures old(process).Some? ==> process.None? && !started
      ensures old(process).None? ==> process == old(process) && started == old(started)
      ensures old(Valid()) ==> Valid()
    {
      if process.Some? {
        process := None;
        started := false;
      }
    }
  }

  /**
   * The fallbacks: no decoder or no pipe gives blocksize / 2 zero bytes; a
   * read that returns nothing gives 2 * blocksize zero bytes; an exception,
   * from the pipe read or from the resampling step, gives no bytes. From a
   * decoder whose stdout is open, a block below 5 bytes requests 0 bytes and
   * so always takes the empty-read fallback.
   */
  lemma ReadFallbacks(process: Option<Decoder>, blocksize: nat, resample: Resampler)
    ensures process.None? || process.value.stdout.None? ==>
      ReadFrame(process, blocksize, resample) == Frame(Zeros(blocksize / 2), process)
    ensures process.Some? && process.value.stdout.Some? && !process.value.stdout.value.open ==>
      ReadFrame(process, blocksize, resample) == Frame([], process)
    ensures process.Some? && process.value.stdout.Some? && process.value.stdout.value.open &&
            (process.value.stdout.value.pending == [] || blocksize < 5) ==>
      ReadFrame(process, blocksize, resample) == Frame(Zeros(2 * blocksize), process)
    ensures process.Some? && process.value.stdout.Some? && process.value.stdout.value.open &&
            (var data := PipeRead(process.value.stdout.value, InputSize(blocksize)).0.value;
             data != [] && ResampleBytes(Align(data), resample).Err?) ==>
      ReadFrame(process, blocksize, resample).bytes == []
  {
    if process.Some? && process.value.stdout.Some? {
      var pipe := process.value.stdout.value;
      var step := PipeRead(pipe, InputSize(blocksize));
      if pipe.open {
        if blocksize < 5 {
          assert InputSize(blocksize) == 0;
        }
        if pipe.pending == [] || blocksize < 5 {
          assert step == (Ok([]), pipe);
        }
      }
    }
  }

  /**
   * Reading a whole number of frames and dropping a trailing partial frame
   * leaves a frame-aligned prefix of the decoder's output; bytes are dropped
   * only when the stream has ended.
   */
  lemma AlignedPrefix(pipe: Pipe, n: nat)
    requires pipe.open && n % 4 == 0
    ensures var step := PipeRead(pipe, n);
            var aligned := Align(step.0.value);
            && aligned == pipe.pending[..|aligned|]
            && (|aligned| < |step.0.value| ==> step.1.pending == [])
  {
    var step := PipeRead(pipe, n);
    var data := step.0.value;
    var aligned := Align(data);
    assert data == pipe.pending[..|data|] by {
      assert pipe.pending == data + step.1.pending;
    }
    assert aligned == data[..|aligned|];
    if |aligned| < |data| {
      assert |data| % 4 != 0;
    }
  }

  /**
   * What reaches the resampler is a whole number of frames, a prefix of the
   * decoder's output, at most 3 bytes short of what was read; bytes are
   * dropped only when the stream has ended. (NoOddTrim: on such input the
   * odd-sample trim of _resample_audio never fires.)
   */
  lemma ReadChunkAligned(pipe: Pipe, blocksize: nat)
    requires pipe.open
    ensures var step := PipeRead(pipe, InputSize(blocksize));
            var data := step.0.value;
            && |Align(data)| % 4 == 0
            && Align(data) == pipe.pending[..|Align(data)|]
            && |data| - |Align(data)| < 4
            && (|Align(data)| < |data| ==> step.1.pending == [])
  {
    AlignedPrefix(pipe, InputSize(blocksize));
  }

  /**
   * A decoder with at least a block's worth of input buffered on an open
   * stdout, and a resampler with scipy's output length: blocks below 5 bytes
   * come back as 2 * blocksize zero bytes; any other block consumes InputSize(blocksize)
   * bytes and comes back between blocksize and blocksize + 4 bytes long,
   * exactly blocksize when the resampled buffer is long enough, else
   * 2 * blocksize minus its length.
   */
  lemma SteadyReadLength(pending: seq<byte>, blocksize: nat, resample: Resampler)
    requires KeepsScipyLength(resample)
    requires |pending| >= InputSize(blocksize)
    ensures var frame := ReadFrame(Some(Decoder(Some(Pipe(pending, true)))), blocksize, resample);
            var produced := 4 * ResampledCount(InputSize(blocksize) / 4);
            && frame.process == Some(Decoder(Some(Pipe(pending[InputSize(blocksize)..], true))))
            && (blocksize < 5 ==> frame.bytes == Zeros(2 * blocksize))
            && (blocksize >= 5 ==>
                  && blocksize <= |frame.bytes| <= blocksize + 4
                  && |frame.bytes| == if produced >= blocksize then blocksize else 2 * blocksize - produced)
  {
    var process := Some(Decoder(Some(Pipe(pending, true))));
    var n := InputSize(blocksize);
    var data := pending[..n];
    assert PipeRead(Pipe(pending, true), n) == (Ok(data), Pipe(pending[n..], true));
    if blocksize < 5 {
      ReadFallbacks(process, blocksize, resample);
    } else {
      assert n >= 4;
      assert Align(data) == data;
      ScipyLengthResample(data, resample);
      ResampledBlockBounds(blocksize);
    }
  }

  /**
   * Discord's 20 ms block: 3840 bytes requested, 3528 bytes read, exactly
   * 3840 bytes returned.
   */
  lemma ReadTransportBlock(pending: seq<byte>, resample: Resampler)
    requires KeepsScipyLength(resample)
    requires |pending| >= 3528
    ensures InputSize(3840) == 3528
    ensures var frame := ReadFrame(Some(Decoder(Some(Pipe(pending, true)))), 3840, resample);
            |frame.bytes| == 3840 && frame.process == Some(Decoder(Some(Pipe(pending[3528..], true))))
  {
    assert InputSize(3840) == 3528;
    assert ResampledCount(882) == 960;
    SteadyReadLength(pending, 3840, resample);
  }

  /** A 960-byte block requests 880 input bytes and returns 960 bytes. */
  lemma Read960(pending: seq<byte>, resample: Resampler)
    requires KeepsScipyLength(resample)
    requires |pending| >= 880
    ensures InputSize(960) == 880
    ensures var frame := ReadFrame(Some(Decoder(Some(Pipe(pending, true)))), 960, resample);
            |frame.bytes| == 960 && frame.process == Some(Decoder(Some(Pipe(pending[880..], true))))
  {
    assert InputSize(960) == 880;
    assert ResampledCount(220) == 240;
    SteadyReadLength(pending, 960, resample);
  }

  /**
   * The padding overrun: a 100-byte block resamples to 96 bytes, and the
   * pad of two zero bytes per missing byte makes the block 104 bytes long.
   */
  lemma PaddedBlockOverrun(pending: seq<byte>, resample: Resampler)
    requires KeepsScipyLength(resample)
    requires |pending| >= 88
    ensures InputSize(100) == 88
    ensures |ReadFrame(Some(Decoder(Some(Pipe(pending, true)))), 100, resample).bytes| == 104
  {
    assert InputSize(100) == 88;
    assert ResampledCount(22) == 24;
    SteadyReadLength(pending, 100, resample);
  }

  /**
   * A source started, started again, read from and cleaned up twice:
   * the second start launches nothing and the second cleanup changes nothing.
   */
  method Lifecycle(decoder: Decoder, resample: Resampler)
  {
    var source := new LibrespotAudio();
    var silence := source.Read(960, resample);
    assert |silence| == 480;
    var raised := source.Start(Spawned(decoder));
    assert !raised && source.process == Some(decoder) && source.Valid();
    raised := source.Start(SpawnFailed);
    assert !raised && source.process == Some(decoder);
    source.Cleanup();
    assert source.process == None && !source.started;
    source.Cleanup();
    assert source.process == None && !source.started && source.Valid();
  }
}
