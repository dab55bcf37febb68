# Varispeed sample provider, modelled in Dafny

The model covers the playback-rate adapter of the VarispeedDemo application. `VarispeedSampleProvider` sits between an audio source and the audio output, and plays the source at an adjustable speed through the SoundTouch time/pitch-stretching engine. `SoundTouchProfile` holds the three switches that choose how the engine is driven:

- tempo or rate mode;
- anti-aliasing;
- quick seek.

The provider is imperative and keeps its imperative form here, as the class `Varispeed.VarispeedSampleProvider`. It has:

- the same fields: the source, the engine, the two `float[]` buffers (as `array<real>`), the channel count, the playback rate, the current profile and the reposition flag;
- methods that change them under `modifies` frames.

`Read` runs the source's feed/drain `while` loop, with its invariants, over the caller's array. Three steps are written as separate methods so that each stays small enough to prove:

- one iteration of the loop (`ReadRound`);
- pulling a chunk from the source (`PullSourceChunk`);
- draining the engine with the copy loop (`DrainEngine`).

The profile is a class with three mutable fields and a setter for each.

Two modules stand in for code the provider calls but that is not part of this model:

- **The engine** (`SoundTouchEngine`). SoundTouch.cs and the native library behind it are not part of this model. The engine is a class with three parts:
  - a command log, which records every call in order;
  - a FIFO of interleaved output samples;
  - a `stretch` function, which decides how many whole frames of output each Put or Flush makes available.

  Every property is proved for every `stretch` function. The engine's settings (rate, tempo, pitch, the two flags) are read off the log with `Apply`.
- **The source** (`Source`). It is a finite stream of interleaved samples with a read position. A read returns fewer samples than asked only when the stream runs out.

Properties of one `Read` call are stated about a ghost trace of `Round`s, one per loop iteration (module `ReadProtocol`). Each round records:

- the engine's FIFO when the round starts, and the frame count the engine reported for it;
- the source position when the round starts, and the chunk pulled from the source, if any;
- the FIFO after the pull, the frames asked of the engine, the samples received, and the FIFO left behind.

`Chained` links the rounds to the engine: each round starts from the FIFO and the source position the previous round left. The first round starts from the empty FIFO after a reposition's Clear, or from the engine's FIFO otherwise. `RoundAgrees` ties each round's record together: the reported count is the FIFO's length in frames, a chunk holds `min(buffer length, remaining)` samples, and the samples received are `min(desired, available)` frames taken from the front of the FIFO.

`Read` ensures that:

- the engine log grows by exactly the commands the trace implies;
- the caller's buffer equals the old buffer overwritten at `offset` with the samples received (`Buffers.Overwrite`), so nothing outside `offset..offset+samplesRead` changes;
- the source was read exactly when the engine's FIFO was empty, and the chunks read are exactly the next stretch of the source;
- the engine's FIFO after the call is what the last round left;
- a round runs only while fewer than `count` samples have been received, and the loop stops at the first round that receives nothing after the source ran dry;
- a read is short exactly when it stopped that way, and then leaves the engine's FIFO empty. Once the source is exhausted and the engine drained, a further read returns nothing if the engine's flush yields no output (`DrainedReadIsEmpty`).

Settings-level properties of the rate setter and of a profile switch (which multiplier carries the rate, continuity of a tempo/rate handoff) are stated about the command sequences those operations issue, in module `Control`. The methods issue exactly those sequences.

`EPS` is `float.Epsilon` (2^-149) as an exact real.

## Model

| member | source | states |
|---|---|---|
| Varispeed.VarispeedSampleProvider.constructor | VarispeedDemo/SoundTouch/VarispeedSampleProvider.cs:16-30 | The source buffer holds `ReadBufferSize(sampleRate, channels, readDurationMilliseconds)` samples (whole frames, see Findings). The engine buffer is ten times that. The rate is 1 and no reposition is pending. The engine log is the profile's commands, then SetSampleRate and SetChannels with the source's format. The engine FIFO is empty. |
| Varispeed.VarispeedSampleProvider.ActiveTempoFlag | VarispeedDemo/SoundTouch/VarispeedSampleProvider.cs:103 | The tempo flag of the current profile is absent exactly when no profile is set. |
| Varispeed.VarispeedSampleProvider.Read | VarispeedDemo/SoundTouch/VarispeedSampleProvider.cs:32-82 | At a rate ≤ EPS: returns `count`, the buffer is the old buffer with `count` zeros at `offset`, and the engine, the source and the reposition flag are untouched. Otherwise: the returned count is ≤ `count`, is whole frames, and equals the samples received. The buffer is the old buffer overwritten at `offset` with those samples. The log grows by a Clear (only if a reposition was pending) and then each round's commands. The samples received are the samples the log's Receive commands returned. The source chunks are exactly the source's next samples. The rounds are chained to the engine (`Chained`): each starts from the FIFO and source position the previous one left, the first from the old FIFO or, after a reposition, from the empty one. Each round's reported count is its FIFO's length in frames, its chunk holds `min(buffer length, remaining)` samples, and it receives `min(desired, available)` frames from the front of the FIFO. The source is read exactly when the FIFO is empty. Each round runs while samples are still missing and asks for exactly the frames still missing. No round but the last meets the break condition (nothing received after the source ran dry). The final FIFO is what the last round left. The flag is cleared. The read is short exactly when the last round meets the break condition; then the source is exhausted and the engine's FIFO is empty. |
| Varispeed.VarispeedSampleProvider.ReadStretched | VarispeedDemo/SoundTouch/VarispeedSampleProvider.cs:44-81 | The non-silent part of Read: the same guarantees as Read's second case, including the Clear first when a reposition is pending, the rounds chained from the emptied or the old FIFO, the final FIFO, the loop's guard and break condition, and a read that is short exactly when it broke, leaving an empty FIFO. |
| Varispeed.VarispeedSampleProvider.FeedAndDrain | VarispeedDemo/SoundTouch/VarispeedSampleProvider.cs:50-81 | The loop: on exit the buffer, the log and the source position agree with the rounds run (`LoopState`, `Progress`). The rounds are chained from the FIFO and source position at entry, and the FIFO at exit is what the last round left. `samplesRead` is the number of samples written. The end of the source was reached exactly when a source read returned nothing. Every round ran while samples were missing, and only the last may meet the break condition. The loop stops short of `count` exactly when the last round received nothing after the source ran dry. |
| Varispeed.VarispeedSampleProvider.ReadRound | VarispeedDemo/SoundTouch/VarispeedSampleProvider.cs:53-78 | One iteration: the round records the FIFO and source position at its start, and the FIFO it leaves is the engine's. The reported count is the FIFO's length in frames. The source is read exactly when the FIFO is empty, for `min(buffer length, remaining)` samples, and the position advances by the chunk. The samples received are `min(desired, available)` frames and come off the front of the FIFO after the pull. The log grows by that round's Put/Flush and Receive. The buffer gains the received samples right after those already written. The drain asks for `(count - samplesRead) / channels` frames. The end flag becomes set by an empty source read, and by nothing else. Each round receives something, reaches the end or advances the source (the loop's progress measure). |
| Varispeed.VarispeedSampleProvider.PullSourceChunk | VarispeedDemo/SoundTouch/VarispeedSampleProvider.cs:56-66 | Reads `min(buffer length, remaining)` samples, which are the source's next samples. The log grows by a Put of their whole frames, or by a Flush when none were read. The engine's FIFO only grows: the old FIFO is a prefix of the new one. |
| Varispeed.VarispeedSampleProvider.DrainEngine | VarispeedDemo/SoundTouch/VarispeedSampleProvider.cs:69-76 | Receives `min(desired, available)` frames, taken from the front of the FIFO, which loses exactly those samples. The result is whole frames, and is non-empty when the engine had output and frames were asked for. The log grows by one Receive. The caller's buffer is overwritten at `at` with exactly the samples received. |
| Varispeed.VarispeedSampleProvider.PlaySilence | VarispeedDemo/SoundTouch/VarispeedSampleProvider.cs:34-42 | The buffer becomes the old buffer with `count` zeros written from `offset`. Nothing else changes. |
| Varispeed.VarispeedSampleProvider.SetPlaybackRate | VarispeedDemo/SoundTouch/VarispeedSampleProvider.cs:86-97 | The rate becomes `NextRate(old rate, value)`. The log grows by `RateCommands` for the current mode. The FIFO is unchanged. |
| Varispeed.VarispeedSampleProvider.UpdatePlaybackRate | VarispeedDemo/SoundTouch/VarispeedSampleProvider.cs:99-112 | The log grows by `UpdateCommands(value, tempo mode)`. The FIFO and the channel count are unchanged. |
| Varispeed.VarispeedSampleProvider.SetSoundTouchProfile | VarispeedDemo/SoundTouch/VarispeedSampleProvider.cs:119-141 | The profile becomes the argument. The log grows by `ProfileCommands(previous tempo flag, rate, new flags)`. |
| Varispeed.VarispeedSampleProvider.HandOffRate | VarispeedDemo/SoundTouch/VarispeedSampleProvider.cs:125-135 | The log grows by the handoff steps for the new mode at the current rate. |
| Varispeed.VarispeedSampleProvider.Reposition | VarispeedDemo/SoundTouch/VarispeedSampleProvider.cs:143-146 | A reposition is pending. Only the flag changes. |
| Profile.SoundTouchProfile.constructor | VarispeedDemo/SoundTouch/SoundTouchProfile.cs:3-7 | Tempo and anti-aliasing come from the arguments. Quick seek starts off. |
| Profile.SoundTouchProfile.SetUseTempo | VarispeedDemo/SoundTouch/SoundTouchProfile.cs:5 | Sets the tempo flag and leaves the other two unchanged. |
| Profile.SoundTouchProfile.SetUseAntiAliasing | VarispeedDemo/SoundTouch/SoundTouchProfile.cs:6 | Sets the anti-aliasing flag and leaves the other two unchanged. |
| Profile.SoundTouchProfile.SetUseQuickSeek | VarispeedDemo/SoundTouch/SoundTouchProfile.cs:7 | Sets the quick-seek flag and leaves the other two unchanged. |
| Control.UpdateCommands | VarispeedDemo/SoundTouch/VarispeedSampleProvider.cs:99-112 | At most one command. No command exactly when the value is 0. Otherwise only SetTempo(value) in tempo mode, or SetRate(value) otherwise. |
| Control.NextRate | VarispeedDemo/SoundTouch/VarispeedSampleProvider.cs:89-96 | The stored rate is the old one or the new value, and is within EPS of the new value. It stays the old one when the value is within EPS of it. |
| Control.RateCommands | VarispeedDemo/SoundTouch/VarispeedSampleProvider.cs:89-112 | At most one command. None when the value is within EPS of the current rate. Any command sets the mode's multiplier to a non-zero value. |
| Control.RateSetterEffect | VarispeedDemo/SoundTouch/VarispeedSampleProvider.cs:89-112 | The setter's effect on the engine settings: the mode's multiplier becomes the value when it differs by more than EPS and is non-zero. Otherwise the settings are unchanged. |
| Control.RateSetterIdempotent | VarispeedDemo/SoundTouch/VarispeedSampleProvider.cs:91-94 | Setting the same value twice reconfigures the engine at most once, and the second call leaves the rate as it is. |
| Control.ProfileCommands | VarispeedDemo/SoundTouch/VarispeedSampleProvider.cs:119-141 | Always ends with SetUseAntiAliasing and then SetUseQuickSeek, with the new flags. Anything before them is present exactly when a handoff is needed. There is never a handoff for the first profile. |
| Control.HandoffEffect | VarispeedDemo/SoundTouch/VarispeedSampleProvider.cs:121-136 | With a handoff to tempo mode: rate = 1, pitch = 0, tempo = current rate. With a handoff to rate mode: tempo = 1, rate = current rate. Without a handoff: nothing changes. |
| Control.ProfileSwitchEffect | VarispeedDemo/SoundTouch/VarispeedSampleProvider.cs:119-141 | The settings after a whole profile switch: both flags from the new profile, with the multipliers moved as HandoffEffect says. |
| Control.HandoffContinuity | VarispeedDemo/SoundTouch/VarispeedSampleProvider.cs:121-136 | The old mode's unused multiplier starts at unity. Then no intermediate state of the switch has both rate and tempo away from unity. After a handoff, the new mode's multiplier carries the current rate and the other one is at unity. |
| Control.SwitchPrefix | VarispeedDemo/SoundTouch/VarispeedSampleProvider.cs:121-140 | Every prefix of a switch's commands keeps at least one multiplier at unity. Without a handoff, no prefix changes the multipliers. |
| Control.LiveFlagFlipKeepsRate | VarispeedDemo/SoundTouch/SoundTouchProfile.cs:5 | Flipping the tempo flag of the profile in use hands nothing over. A rate of 2 in rate mode followed by a rate of 3 in tempo mode issues SetRate(2) and SetTempo(3), and leaves both multipliers away from unity. |
| Control.HandoffAtZeroRate | VarispeedDemo/SoundTouch/VarispeedSampleProvider.cs:121-136 | At a playback rate of 0 (silence), a mode switch does push a zero rate or tempo to the engine, which the rate setter (line 101) never does. |
| ReadProtocol.Feed | VarispeedDemo/SoundTouch/VarispeedSampleProvider.cs:57-66 | A source read becomes commands: none exactly when the source was not read. Otherwise a Put of the whole frames read, or a Flush when the read returned nothing. |
| ReadProtocol.ProgressStep | VarispeedDemo/SoundTouch/VarispeedSampleProvider.cs:52-79 | One more round that drains the remaining frames preserves the loop invariant. The round must follow one that did not meet the break condition, and must read the source only when the engine is empty. |
| ReadProtocol.ChainStep | VarispeedDemo/SoundTouch/VarispeedSampleProvider.cs:52-79 | A round that agrees with itself and starts from the FIFO and source position the chain left extends the chain. The FIFO after it is the round's leftover, and the position is advanced by its chunk. |
| ReadProtocol.ChainLinks | VarispeedDemo/SoundTouch/VarispeedSampleProvider.cs:54-76 | In a chain, every round agrees with itself and starts from the FIFO and source position left by the rounds before it. |
| ReadProtocol.ShortReadDrainsEngine | VarispeedDemo/SoundTouch/VarispeedSampleProvider.cs:69-78 | When the drains ask for the missing frames and the last round received nothing short of `count`, the engine's FIFO is empty after it. |
| ReadProtocol.StopsShort | VarispeedDemo/SoundTouch/VarispeedSampleProvider.cs:52-78 | A round that receives nothing ran while samples were missing, so a read ending with it is short. |
| ReadProtocol.RunsOnPrefix | VarispeedDemo/SoundTouch/VarispeedSampleProvider.cs:78 | In a run of the loop, no proper prefix of the rounds meets the break condition. |
| ReadProtocol.DrainedReadIsEmpty | VarispeedDemo/SoundTouch/VarispeedSampleProvider.cs:52-78 | Starting from an empty FIFO and an exhausted source, with a flush that yields nothing, the rounds of a read receive nothing and there is at most one of them. |
| ReadProtocol.ReceivedOutputAppend | VarispeedDemo/SoundTouch/VarispeedSampleProvider.cs:71 | The samples received over two logs are those of the first followed by those of the second. |
| ReadProtocol.CommandsReceiveRounds | VarispeedDemo/SoundTouch/VarispeedSampleProvider.cs:71-76 | The samples that the Receive commands of the rounds' log returned are exactly the samples the rounds copied out. |
| ReadProtocol.ReadTraceReceives | VarispeedDemo/SoundTouch/VarispeedSampleProvider.cs:44-76 | The same holds for a whole Read's trace, with or without the leading Clear. |
| ReadProtocol.CommandsNeverClear | VarispeedDemo/SoundTouch/VarispeedSampleProvider.cs:52-79 | The loop never clears the engine. |
| ReadProtocol.RepositionClearsFirst | VarispeedDemo/SoundTouch/VarispeedSampleProvider.cs:44-48 | With a pending reposition, the trace starts with the only Clear. Without one, there is no Clear at all. |
| ReadProtocol.FlushMeansEndOfSource | VarispeedDemo/SoundTouch/VarispeedSampleProvider.cs:57-66 | The engine is flushed during a Read if and only if a source read returned nothing. |
| ReadProtocol.DrainBounded | VarispeedDemo/SoundTouch/VarispeedSampleProvider.cs:69-76 | When each drain asks only for the missing frames, the total received is at most `count` and is whole frames. |
| Buffers.OverwriteMeans | VarispeedDemo/SoundTouch/VarispeedSampleProvider.cs:73-76 | The overwritten buffer keeps its length, holds the written samples from `at` on, and holds the old samples at every other index. |
| Buffers.OverwriteAppend | VarispeedDemo/SoundTouch/VarispeedSampleProvider.cs:73-76 | Writing a second run right after a first is writing their concatenation. |
| Frames.FramesInIsQuotient | VarispeedDemo/SoundTouch/VarispeedSampleProvider.cs:59 | The frame count of `n` samples is the integer quotient `n / channels`, and a count is whole frames exactly when it divides. |
| Frames.SamplesIsProduct | VarispeedDemo/SoundTouch/VarispeedSampleProvider.cs:71 | `frames` frames hold `frames * channels` samples. |
| Frames.FramesBetween | VarispeedDemo/SoundTouch/VarispeedSampleProvider.cs:69 | While fewer than `count` samples are written (both whole frames), at least one frame is desired, and the desired frames are exactly the missing samples. |
| Sizing.AsWrittenDropsASample | VarispeedDemo/SoundTouch/VarispeedSampleProvider.cs:28 | With the size as the source computes it, an 11025 Hz stereo source at 100 ms gets a 2205-sample buffer. A full chunk reaches the engine as 1102 frames, and its last sample is not fed. |
| Sizing.ReadBufferSize | VarispeedDemo/SoundTouch/VarispeedSampleProvider.cs:28 | The size rounded down to whole frames: within one frame of the size as written, and equal to it whenever that is already whole frames. |
| Sizing.WholeChunkFedEntirely | VarispeedDemo/SoundTouch/VarispeedSampleProvider.cs:59 | A non-empty chunk of whole frames reaches the engine complete, as one Put. |
| SoundTouchEngine.SoundTouch.constructor | VarispeedDemo/SoundTouch/VarispeedSampleProvider.cs:21 | A new engine has an empty log and FIFO, and no channel count yet. |
| SoundTouchEngine.SoundTouch.NumberOfSamplesAvailable | VarispeedDemo/SoundTouch/VarispeedSampleProvider.cs:54 | The frames ready are the FIFO length in frames. They are 0 exactly when the FIFO is empty. |
| SoundTouchEngine.SoundTouch.SetSampleRate | VarispeedDemo/SoundTouch/VarispeedSampleProvider.cs:25 | Logs the call. The FIFO and channels are unchanged. |
| SoundTouchEngine.SoundTouch.SetChannels | VarispeedDemo/SoundTouch/VarispeedSampleProvider.cs:27 | Logs the call and fixes the channel count. |
| SoundTouchEngine.SoundTouch.SetRate | VarispeedDemo/SoundTouch/VarispeedSampleProvider.cs:109 | Logs the call. The FIFO and channels are unchanged. |
| SoundTouchEngine.SoundTouch.SetTempo | VarispeedDemo/SoundTouch/VarispeedSampleProvider.cs:105 | Logs the call. The FIFO and channels are unchanged. |
| SoundTouchEngine.SoundTouch.SetPitchOctaves | VarispeedDemo/SoundTouch/VarispeedSampleProvider.cs:128 | Logs the call. The FIFO and channels are unchanged. |
| SoundTouchEngine.SoundTouch.SetUseAntiAliasing | VarispeedDemo/SoundTouch/VarispeedSampleProvider.cs:139 | Logs the call. The FIFO and channels are unchanged. |
| SoundTouchEngine.SoundTouch.SetUseQuickSeek | VarispeedDemo/SoundTouch/VarispeedSampleProvider.cs:140 | Logs the call. The FIFO and channels are unchanged. |
| SoundTouchEngine.SoundTouch.PutSamples | VarispeedDemo/SoundTouch/VarispeedSampleProvider.cs:59 | Logs a Put of the first `frames` frames of the buffer. The FIFO only grows, by whole frames. |
| SoundTouchEngine.SoundTouch.Flush | VarispeedDemo/SoundTouch/VarispeedSampleProvider.cs:65 | Logs a Flush. The FIFO only grows, by whole frames. |
| SoundTouchEngine.SoundTouch.Clear | VarispeedDemo/SoundTouch/VarispeedSampleProvider.cs:46 | Logs a Clear and empties the FIFO. |
| SoundTouchEngine.SoundTouch.ReceiveSamples | VarispeedDemo/SoundTouch/VarispeedSampleProvider.cs:71 | Returns `min(maxFrames, frames ready)`. Copies that many frames from the front of the FIFO into the destination, leaves the rest of the destination alone, drops them from the FIFO, and logs them. |
| SoundTouchEngine.ApplyAppend | VarispeedDemo/SoundTouch/VarispeedSampleProvider.cs:119-141 | The settings after two command runs are the settings after their concatenation. |
| Source.SampleSource.Read | VarispeedDemo/SoundTouch/VarispeedSampleProvider.cs:56 | Returns `min(count, remaining)` samples, which are the stream's next samples, written at `offset`. Nothing else in the buffer changes, and the position advances by that many. |

## Findings

| source | as written | input that shows it | evidently intended | confidence | as-written member | corrected member |
|---|---|---|---|---|---|---|
| VarispeedDemo/SoundTouch/VarispeedSampleProvider.cs:28 | The source buffer holds `sampleRate * channels * ms / 1000` samples, which need not be a whole number of frames. Line 59 then feeds `readFromSource / channelCount` frames, and the remainder is never fed. | An 11025 Hz stereo file at 100 ms, which is how VarispeedDemo/MainForm.cs:107 builds the provider. Every chunk is 2205 samples, and only 1102 frames (2204 samples) reach the engine. The next chunk starts on a right-channel sample, so the channels of every other chunk are swapped. | A read-ahead buffer of whole frames, so that every sample read is fed. | medium; not executed | Sizing.AsWrittenDropsASample | Sizing.ReadBufferSize (with Sizing.WholeChunkFedEntirely), used by Varispeed.VarispeedSampleProvider.constructor |

## Left out

- Varispeed.VarispeedSampleProvider.Read: requires that `count` is whole frames and at most the engine buffer's length when the rate is above EPS.
  - If `count` is not whole frames, the source loop can spin forever: once fewer than one frame is missing, it asks the engine for 0 frames while the engine still has output.
  - A larger count asks the engine for more frames than its output buffer holds.
  - Neither case can be expressed by a terminating method over in-bounds arrays.
- Varispeed.VarispeedSampleProvider.Read: the requirement that `offset + count` fits the buffer stands in for the IndexOutOfRangeException the source would throw. Negative `offset` and `count` cannot occur with `nat`.
- Varispeed.VarispeedSampleProvider.SetSoundTouchProfile: does not restate that the provider's invariant is kept. It follows from the frame, which changes only the profile field and the engine's log.
- Varispeed.VarispeedSampleProvider.constructor: the 32-bit `int` product and the array-size limit of line 28 are not modelled; sizes are unbounded naturals.
- Dispose (lines 114-117) releases the native engine and is not modelled; resource lifetime has no counterpart here.
- The `WaveFormat` property and the `PlaybackRate` getter (lines 84, 88) only return a field or the source's format; the model reads those fields directly.
- Control.HandoffContinuity: requires that the unused multiplier starts at unity, and the provider's own states are not shown to meet it. There are two routes to a state that breaks it:
  - The provider keeps the caller's profile by reference (VarispeedDemo/SoundTouch/VarispeedSampleProvider.cs:138) and reads its tempo flag afresh on every rate change (line 103), and the flag has a public setter (VarispeedDemo/SoundTouch/SoundTouchProfile.cs:5). Flipping the flag of the profile in use switches mode with no handoff, as `Control.LiveFlagFlipKeepsRate` shows. VarispeedDemo/MainForm.cs only ever passes fresh profiles.
  - With `EPS` as an exact real, a rate of 2 in rate mode followed by a rate of `1 + EPS/2` sets the engine's rate to `1 + EPS/2`. A switch to tempo mode then hands off nothing, because that rate is within EPS of 1. In single precision the only float within `float.Epsilon` of 1 is 1 itself, so this route exists only in the real-number model.
- Floating point: `float` values are exact reals. `float.Epsilon` is the exact real 2^-149. The rounding of `playbackRate - value` in single precision is not modelled.
- The engine's stretching algorithm and its native library: SoundTouch.cs is not part of this model. Output is produced by an arbitrary `stretch` function, in whole frames.
- The audio file reader (NAudio's AudioFileReader) is modelled as a finite sequence of samples with a read position.
- Concurrency: the controller and the audio thread share the reposition flag and the rate without synchronisation. The model treats their calls as one sequential interleaving.
- MainForm (the user interface) is not modelled.
