/**
 * Size of the provider's source read-ahead buffer. The source buffer holds `readDurationMilliseconds`
 * of interleaved audio, but the count as written (sample rate × channels × milliseconds / 1000)
 * need not be a whole number of frames: at 11025 Hz stereo and 100 ms it is 2205 samples. Each
 * full chunk then reaches the engine as 1102 frames, the last sample is never fed, and the next
 * chunk starts one channel late. The provider in this model therefore sizes the buffer to whole
 * frames (`ReadBufferSize`), which feeds every sample of a whole chunk (`WholeChunkFedEntirely`).
 */
module Sizing {
  import opened SoundTouchEngine
  import opened ReadProtocol
  import opened Wrappers
  import Frames

  /** The read-ahead size in samples as the source computes it. */
  function ReadBufferSizeAsWritten(sampleRate: nat, channels: nat, readDurationMilliseconds: nat): nat
  {
    sampleRate * channels * readDurationMilliseconds / 1000
  }

  /** With the size as written, a full chunk from an 11025 Hz stereo source loses its last sample. */
  lemma AsWrittenDropsASample(chunk: seq<real>)
    requires |chunk| == ReadBufferSizeAsWritten(11025, 2, 100)
    ensures |chunk| == 2205 && !Frames.Whole(|chunk|, 2)
    ensures Feed(Some(chunk), 2) == [Put(1102, chunk[..2204])]
  {
    Frames.FramesInIsQuotient(2205, 2);
    Frames.SamplesIsProduct(1102, 2);
  }

  /** The read-ahead size rounded down to whole frames: the largest whole-frame count not above the size as written. */
  function ReadBufferSize(sampleRate: nat, channels: nat, readDurationMilliseconds: nat): (size: nat)
    requires channels > 0
    ensures Frames.Whole(size, channels)
    ensures size <= ReadBufferSizeAsWritten(sampleRate, channels, readDurationMilliseconds)
            < size + channels
    ensures Frames.Whole(ReadBufferSizeAsWritten(sampleRate, channels, readDurationMilliseconds), channels)
            ==> size == ReadBufferSizeAsWritten(sampleRate, channels, readDurationMilliseconds)
  {
    var asWritten := ReadBufferSizeAsWritten(sampleRate, channels, readDurationMilliseconds);
    Frames.WholeFramesWithin(asWritten, channels);
    Frames.FramesInWithin(asWritten, channels);
    Frames.Samples(Frames.FramesIn(asWritten, channels), channels)
  }

  /** A non-empty chunk of whole frames reaches the engine complete. */
  lemma WholeChunkFedEntirely(chunk: seq<real>, channels: nat)
    requires channels > 0 && |chunk| > 0 && Frames.Whole(|chunk|, channels)
    ensures Feed(Some(chunk), channels) == [Put(Frames.FramesIn(|chunk|, channels), chunk)]
  {
    assert chunk[..Frames.Samples(Frames.FramesIn(|chunk|, channels), channels)] == chunk;
  }
}
