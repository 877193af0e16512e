# LibrespotAudio and queue planning, modelled in Dafny

The bot streams a Spotify session into a Discord voice channel. The core modelled here comes from `bot.py`:

- **`LibrespotAudio`**: the audio source handed to the voice transport. It owns one `librespot` decoder process. It launches the process once (`start`) and tears it down idempotently (`cleanup`). Each `read(blocksize)` pulls 44.1 kHz 16-bit stereo PCM from the decoder's stdout and resamples it to 48 kHz. The result is then truncated or padded towards `blocksize` bytes.
- **Start-or-enqueue planning** in `/play` (album and track) and `/radio`: which track URIs are sent as "start playback" and which as "add to queue".

Modules:

- `Wrappers` (wrappers.dfy): `Option` and `Result`.
- `Pcm` (pcm.dfy): pure byte and sample arithmetic.
  - The input size derived from the block size.
  - Frame alignment.
  - Little-endian int16 decode and encode (`np.frombuffer` / `tobytes`).
  - The channel split (`reshape(-1, 2)` with `[:, c]`) and the re-join (`np.column_stack`).
  - `ResampleBytes`, the value `_resample_audio` returns.
  - `FitToBlock`, the length normalisation as written.
- `Audio` (audio.dfy): the class `LibrespotAudio`.
  - Fields: `process` (absent or a decoder) and `started`.
  - Methods: `Start`, `ResampleAudio` (its loop over the channels), `Read` and `Cleanup`.
  - The object invariant `Valid()` (`started` exactly when a process is held). `Start`, `Read` and `Cleanup` each preserve it.
  - `ReadFrame`: the function that specifies `Read`. Lemmas about `ReadFrame` give the length of each branch.
- `Queue` (queue.dfy): `PlanQueue`, `PlanTrack` and `PlanRadio` as pure functions from "is something playing" and a list of URIs to a list of `Start(uri)` / `Enqueue(uri)` calls.

How the outside world enters the model:

- The decoder's stdout is a value `Pipe(pending, open)`.
  - `pending` holds the bytes the decoder has yet to deliver.
  - A read of `n` bytes returns `n` of them, or fewer only at end of stream. That is the behaviour of a buffered pipe read.
  - Reading a closed pipe raises.
- Launching the decoder is a parameter `Spawn`: either a decoder, or a launch failure.
- The per-channel resampler (scipy's `resample_poly` followed by the cast to int16) is a parameter of type `seq<int16> -> seq<int16>`. It is left uninterpreted.
  - Some lemmas assume only that the resampler has the output length `resample_poly` has: the ceiling of `n * 48000 / 44100`. That assumption is `KeepsScipyLength`.
- "Is Spotify playing" is a boolean parameter of the planning functions.

The lengths the code really produces are modelled as written:

- No process, or no stdout: `blocksize // 2` zero bytes.
- A read that returns nothing: `2 * blocksize` zero bytes.
- Any exception: `b'' * blocksize`, which is empty.
- Normal path, resampled buffer too long: truncated to exactly `blocksize` bytes.
- Normal path, resampled buffer shorter than `blocksize`: padded with `b'\x00\x00' * (blocksize - len)`. The block is then `2 * blocksize - len` bytes long, not `blocksize` as the comment at `bot.py:128` says.

`Audio.Lifecycle` is a worked example of the class contracts. It reads from a source with no decoder, which gives `blocksize // 2` zero bytes. It then starts the source twice: the second start launches nothing, even with a failing launch. It then cleans up twice: the second cleanup changes nothing.

The voice transport expects exactly `blocksize` bytes from every pull, but the code does not always deliver that. The model follows the code:

- `SteadyReadLength`: with a steadily producing decoder, blocks from 5 bytes up come back between `blocksize` and `blocksize + 4` bytes long.
- From a running decoder whose stdout is open, blocks below 5 bytes request 0 input bytes. They then always come back as `2 * blocksize` zero bytes. Without a decoder they still give `blocksize // 2` zero bytes, and a closed stdout still raises and gives none.
- `ReadTransportBlock` and `Read960`: Discord's 3840-byte frame and a 960-byte block come back exactly right.
- `PaddedBlockOverrun`: a 100-byte block comes back 104 bytes long.

`bot.py` has no confirmation vote for pause, skip or shutdown, and no single-session arbitration. `pause` and `skip` act at once, and `join` and `resume` connect without checking for an existing session. The model adds none of this.

## Model

| member | source | states |
|---|---|---|
| `Pcm.InputSize` | bot.py:114-115 | the requested input size is a multiple of 4, equals floor(blocksize·44100/48000) rounded down to a multiple of 4, and never exceeds blocksize |
| `Pcm.Align` | bot.py:121-123 | the aligned data is a prefix of what was read, its length is a multiple of 4, and at most 3 bytes are dropped |
| `Pcm.SampleOf` | bot.py:82 | two bytes decode, little-endian, to the int16 congruent to lo + 256·hi modulo 2^16, negative exactly when the high byte's top bit is set |
| `Pcm.LowByte` | bot.py:105 | the first byte of an encoded sample is congruent to the sample modulo 256 |
| `Pcm.HighByte` | bot.py:105 | the second byte of an encoded sample has its top bit set exactly when the sample is negative |
| `Pcm.FromBuffer` | bot.py:82 | decoding an even number of bytes as int16 gives half as many samples |
| `Pcm.ToBytes` | bot.py:105 | encoding int16 samples gives two bytes per sample |
| `Pcm.FromBufferToBytes` | bot.py:82-105 | decoding the little-endian encoding of any samples gives the samples back |
| `Pcm.ToBytesFromBuffer` | bot.py:82-105 | encoding the decoded samples of an even-length byte string gives the bytes back |
| `Pcm.EvenSamples` | bot.py:84-86 | the trimmed samples are a prefix of even length, at most one sample shorter |
| `Pcm.Channel` | bot.py:89-95 | one column of the reshaped samples holds half as many samples as there are interleaved samples |
| `Pcm.Interleave` | bot.py:102 | stacking two equal columns gives twice as many samples |
| `Pcm.SplitJoin` | bot.py:89-102 | splitting an even-length interleaved sequence into 2 channels and stacking them column-wise gives back the original |
| `Pcm.JoinSplit` | bot.py:89-102 | splitting the column-stack of two equal-length channels gives back each channel |
| `Pcm.ColumnStack` | bot.py:102 | stacking the two channels succeeds exactly when they have equal lengths, giving twice as many samples; otherwise it raises the column-length error |
| `Pcm.ResampledColumns` | bot.py:92-99 | one resampled column is produced per channel |
| `Pcm.NoOddTrim` | bot.py:84-86 | input whose length is a multiple of 4 decodes to an even number of samples, so the odd-sample trim never fires on the read path |
| `Pcm.ResampleBytes` | bot.py:80-105 | the value of _resample_audio: it raises the frombuffer size error exactly on an odd byte count; on an even byte count the only error left is the column-length mismatch |
| `Pcm.ResampleAligned` | bot.py:80-105 | on input whose length is a multiple of 4, the odd-sample trim never fires and the resampling step fails exactly when the two channels resample to different lengths; otherwise it returns the encoded column-stack |
| `Pcm.ScipyLengthResample` | bot.py:80-105 | under resample_poly's output length, frame-aligned input always resamples, to 4 bytes per output frame |
| `Pcm.ResampleIdentity` | bot.py:80-105 | with the identity as resampler, decoding, channel split, column-stack and encoding give back the aligned input bytes |
| `Pcm.FitToBlock` | bot.py:128-133 | a buffer of at least blocksize bytes yields exactly its first blocksize bytes; a shorter one yields itself followed by zero bytes, 2·blocksize − len bytes in all |
| `Pcm.ResampledBlockBounds` | bot.py:112-126 | under resample_poly's output length, the resampled buffer for a block lies between blocksize − 4 and blocksize + 3 bytes |
| `Audio.PipeRead` | bot.py:117 | a read from the open pipe returns min(n, available) bytes, a prefix of the pending output, and leaves the rest pending; a closed pipe raises and is unchanged |
| `Audio.ReadFrame` | bot.py:107-137 | the value of read(): it keeps the presence of the process and of its stdout, and leaves the stream with a suffix of what was pending |
| `Audio.LibrespotAudio.constructor` | bot.py:50-52 | a new source holds no process and is not started |
| `Audio.LibrespotAudio.Start` | bot.py:58-78 | if already started nothing changes and nothing is launched; a successful launch sets the process and started; a failed launch is re-raised and leaves the source not started; started ⇔ process present is preserved |
| `Audio.LibrespotAudio.ResampleAudio` | bot.py:80-105 | the channel loop computes exactly ResampleBytes: frombuffer error on an odd byte count, odd-sample trim, per-channel resampling, column-stack error on unequal lengths, encoded result |
| `Audio.LibrespotAudio.Read` | bot.py:107-137 | the step-by-step read returns exactly ReadFrame's bytes, advances the decoder's stream as ReadFrame says, and keeps started and the presence of a process |
| `Audio.LibrespotAudio.Cleanup` | bot.py:139-147 | with a process held, the process is released and started becomes false; with none held nothing changes, so a second call is a no-op; started ⇔ process present is preserved |
| `Audio.ReadFallbacks` | bot.py:107-137 | no process or no stdout gives blocksize//2 zero bytes; a read from a closed pipe raises and gives an empty byte string; a resampling step that raises (odd byte count, channels of unequal length) gives an empty byte string; from an open stdout, an empty read or any block below 5 bytes gives 2·blocksize zero bytes |
| `Audio.AlignedPrefix` | bot.py:117-123 | reading a multiple of 4 bytes and trimming to a multiple of 4 leaves a prefix of the decoder output, and bytes are dropped only at end of stream |
| `Audio.ReadChunkAligned` | bot.py:112-123 | what reaches the resampler is a frame-aligned prefix of the decoder output, at most 3 bytes short of what was read; bytes are dropped only at end of stream |
| `Audio.SteadyReadLength` | bot.py:107-133 | with a block's worth of input available and resample_poly's output length, read consumes exactly InputSize bytes; blocks below 5 bytes give 2·blocksize zeros; other blocks come back blocksize bytes when the resampled buffer is long enough, else 2·blocksize − len, always between blocksize and blocksize + 4 |
| `Audio.ReadTransportBlock` | bot.py:112-133 | a 3840-byte block requests 3528 input bytes and returns exactly 3840 bytes |
| `Audio.Read960` | bot.py:112-133 | a 960-byte block requests 880 input bytes and returns exactly 960 bytes |
| `Audio.PaddedBlockOverrun` | bot.py:128-133 | a 100-byte block resamples to 96 bytes and the padding makes it 104 bytes long, contrary to the comment at line 128 |
| `Queue.EnqueueAll` | bot.py:312-313 | one add-to-queue call per URI, in order |
| `Queue.PlanQueue` | bot.py:310-326 | one call per URI, carrying that URI; the only start call is the first, and only when nothing is playing; every other call enqueues |
| `Queue.PlanTrack` | bot.py:340-347 | a single track is enqueued when something is playing and started otherwise |
| `Queue.PlanRadio` | bot.py:475-480 | radio starts the first recommendation and enqueues the rest in order, whatever is playing |
| `Queue.SentUrisInOrder` | bot.py:310-326 | a plan whose i-th call carries the i-th URI sends exactly the URI list |
| `Queue.PlanSendsEveryUri` | bot.py:310-326 | in both branches the URIs sent, concatenated, equal the input list |

## Left out

- `Pcm.InputSize`: models `int(blocksize * 44100 / 48000)` as the exact floor of the integer quotient. Python's float division gives the same value while the quotient stays below 2^53 / 48000, that is for blocks below about 2·10^11 bytes. Larger blocks are not modelled.
- `Audio.LibrespotAudio.Read`: the block size is a natural number. A negative `blocksize` is never passed by the transport and is not modelled.
- The numeric resampling itself (`signal.resample_poly`) and the float-to-int16 `astype` cast. They are floating-point code in a library and stay an uninterpreted parameter. An exception raised inside `resample_poly` is not modelled: the parameter is total. Only the `np.column_stack` length mismatch and the `np.frombuffer` odd-size error are modelled as exceptions.
- The unused float `_resample_ratio` (bot.py:56), `is_opus` (always false), and `__del__`, which only calls `cleanup`.
- The subprocess launch arguments, `terminate`, `wait(timeout=1)` and `kill`, and the stderr pipe. They are OS I/O. A launch is success or failure, and teardown always ends with the process released.
- Timing and concurrency: the decoder writing into the pipe while `read` waits. The pipe holds, up front, all the bytes the decoder will deliver.
- All Discord plumbing: command registration, responses, `channel.connect`, `vc.play`, `bot.run`.
- The Spotify client: authentication, search, devices, `transfer_playback`, next and previous track, `stop`. These are network calls.
  - `is_spotify_playing` becomes a boolean parameter; it maps any error to "not playing".
  - A remote call that raises midway through a plan, which would stop the remaining calls, is not modelled.
- The device-handshake polling loops (bot.py:206-218, 277-289, 391-403). They poll a remote API without bound.
- The playback watchdog `monitor_playback_and_disconnect` (bot.py:161-177), a timer task over remote queries. On an error it stops polling without cleanup or disconnect, unlike its "not playing" branch.
- Text formatting of search and radio results.
