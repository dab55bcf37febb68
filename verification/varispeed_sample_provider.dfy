/**
 * The varispeed sample provider: a pull-based adapter between an audio source and a consumer that
 * plays the source at an adjustable rate through the stretching engine. The consumer pulls blocks
 * of samples with Read; a controller changes the rate, swaps the profile and requests a
 * reposition. Calls from the controller and the consumer are modelled as one sequential
 * interleaving.
 */
module Varispeed {
  import opened Wrappers
  import opened SoundTouchEngine
  import opened Source
  import opened Profile
  import opened Control
  import opened ReadProtocol
  import opened Buffers
  import opened Sizing
  import Frames

  class VarispeedSampleProvider {
    const sourceProvider: SampleSource
    const soundTouch: SoundTouch
    /** Holds one chunk read from the source. */
    const sourceReadBuffer: array<real>
    /** Holds one drain of the engine; ten times a source chunk, for rates down to 0.1. */
    const soundTouchReadBuffer: array<real>
    const channelCount: nat
    var playbackRate: real
    var currentSoundTouchProfile: SoundTouchProfile?
    var repositionRequested: bool

    ghost predicate Valid()
      reads this, soundTouch, sourceProvider
    {
      channelCount > 0
      && soundTouch.channels == channelCount && soundTouch.Valid()
      && sourceProvider.Valid()
      && sourceReadBuffer != soundTouchReadBuffer
      && soundTouchReadBuffer.Length == 10 * sourceReadBuffer.Length
      && currentSoundTouchProfile != null
    }

    /**
     * Sizes the source buffer for `readDurationMilliseconds` of audio and the engine buffer at ten
     * times that, adopts the profile, and tells the engine the source's format. `stretch` stands
     * for the engine's stretching algorithm.
     */
    constructor (sourceProvider: SampleSource, readDurationMilliseconds: nat,
                 soundTouchProfile: SoundTouchProfile, stretch: seq<Command> -> seq<real>)
      requires sourceProvider.Valid() && sourceProvider.channels > 0
      ensures Valid()
      ensures fresh(soundTouch) && fresh(sourceReadBuffer) && fresh(soundTouchReadBuffer)
      ensures this.sourceProvider == sourceProvider && channelCount == sourceProvider.channels
      ensures sourceReadBuffer.Length
              == ReadBufferSize(sourceProvider.sampleRate, sourceProvider.channels, readDurationMilliseconds)
      ensures Frames.Whole(sourceReadBuffer.Length, channelCount)
      ensures soundTouchReadBuffer.Length == 10 * sourceReadBuffer.Length
      ensures playbackRate == 1.0 && !repositionRequested
      ensures currentSoundTouchProfile == soundTouchProfile
      ensures soundTouch.log
              == ProfileCommands(None, 1.0, soundTouchProfile.useTempo,
                                 soundTouchProfile.useAntiAliasing, soundTouchProfile.useQuickSeek)
                 + [SetSampleRate(sourceProvider.sampleRate), SetChannels(channelCount)]
      ensures soundTouch.fifo == [] && soundTouch.stretch == stretch
    {
      soundTouch := new SoundTouch(stretch);
      this.sourceProvider := sourceProvider;
      channelCount := sourceProvider.channels;
      var size := ReadBufferSize(sourceProvider.sampleRate, sourceProvider.channels, readDurationMilliseconds);
      sourceReadBuffer := new real[size];
      soundTouchReadBuffer := new real[10 * size];
      playbackRate := 1.0;
      currentSoundTouchProfile := null;
      repositionRequested := false;
      new;
      SetSoundTouchProfile(soundTouchProfile);
      ghost var configured := soundTouch.log;
      soundTouch.SetSampleRate(sourceProvider.sampleRate);
      soundTouch.SetChannels(channelCount);
      assert soundTouch.log == configured + [SetSampleRate(sourceProvider.sampleRate), SetChannels(channelCount)];
    }

    /** The tempo flag of the profile in use; None before the first profile is set. */
    function ActiveTempoFlag(): (flag: Option<bool>)
      reads this, currentSoundTouchProfile
      ensures flag.None? <==> currentSoundTouchProfile == null
    {
      if currentSoundTouchProfile == null then None else Some(currentSoundTouchProfile.useTempo)
    }

    /** Whether the rate is applied as a tempo change. */
    predicate TempoMode()
      reads this, currentSoundTouchProfile
    {
      ActiveTempoFlag() == Some(true)
    }

    /**
     * Fills `buffer[offset..offset + count]` in place. At a rate at or below EPS it writes silence;
     * otherwise it feeds the engine from the source whenever the engine has nothing ready, drains
     * it into the buffer, and stops short of `count` only once the source is exhausted and the
     * engine has nothing left. `rounds` records what each iteration of the loop saw and did.
     */
    method Read(buffer: array<real>, offset: nat, count: nat) returns (samplesRead: nat, ghost rounds: seq<Round>)
      requires Valid()
      requires buffer != sourceReadBuffer && buffer != soundTouchReadBuffer
      requires offset + count <= buffer.Length
      requires playbackRate > EPS ==> Frames.Whole(count, channelCount) && count <= soundTouchReadBuffer.Length
      modifies this`repositionRequested, soundTouch, sourceProvider, buffer, sourceReadBuffer, soundTouchReadBuffer
      ensures Valid()
      ensures samplesRead <= count
      ensures old(sourceProvider.position) <= sourceProvider.position
      ensures playbackRate <= EPS ==>
                samplesRead == count && rounds == []
                && buffer[..] == Overwrite(old(buffer[..]), offset, Silence(count))
                && soundTouch.log == old(soundTouch.log) && soundTouch.fifo == old(soundTouch.fifo)
                && sourceProvider.position == old(sourceProvider.position)
                && repositionRequested == old(repositionRequested)
      ensures playbackRate > EPS ==>
                !repositionRequested
                && samplesRead == |Received(rounds)| && Frames.Whole(samplesRead, channelCount)
                && buffer[..] == Overwrite(old(buffer[..]), offset, Received(rounds))
                && soundTouch.log == old(soundTouch.log) + ReadTrace(old(repositionRequested), rounds, channelCount)
                && Received(rounds) == ReceivedOutput(soundTouch.log[|old(soundTouch.log)|..])
                && Pulled(rounds) == sourceProvider.data[old(sourceProvider.position)..sourceProvider.position]
                && PullsOnlyWhenEmpty(rounds)
                && DrainsRemaining(rounds, count, channelCount) && RunsOn(rounds)
                && Chained(StartFifo(old(repositionRequested), old(soundTouch.fifo)), old(sourceProvider.position), rounds,
                           sourceReadBuffer.Length, |sourceProvider.data|, channelCount)
                && soundTouch.fifo == FifoAfter(StartFifo(old(repositionRequested), old(soundTouch.fifo)), rounds)
      ensures playbackRate > EPS ==> (samplesRead < count <==> Stops(rounds))
      ensures playbackRate > EPS && samplesRead < count ==>
                soundTouch.fifo == []
                && (sourceReadBuffer.Length > 0 ==> sourceProvider.position == |sourceProvider.data|)
    {
      if playbackRate <= EPS {
        PlaySilence(buffer, offset, count);
        return count, [];
      }

      samplesRead, rounds := ReadStretched(buffer, offset, count);
    }

    /**
     * The part of Read that runs at a rate above EPS: honours a pending reposition, then feeds
     * and drains the engine until `count` samples are in the buffer or the source and the engine
     * are both exhausted.
     */
    method ReadStretched(buffer: array<real>, offset: nat, count: nat) returns (samplesRead: nat, ghost rounds: seq<Round>)
      requires Valid()
      requires buffer != sourceReadBuffer && buffer != soundTouchReadBuffer
      requires offset + count <= buffer.Length
      requires Frames.Whole(count, channelCount) && count <= soundTouchReadBuffer.Length
      modifies this`repositionRequested, soundTouch, sourceProvider, buffer, sourceReadBuffer, soundTouchReadBuffer
      ensures Valid() && !repositionRequested
      ensures samplesRead <= count && samplesRead == |Received(rounds)| && Frames.Whole(samplesRead, channelCount)
      ensures old(sourceProvider.position) <= sourceProvider.position
      ensures buffer[..] == Overwrite(old(buffer[..]), offset, Received(rounds))
      ensures soundTouch.log == old(soundTouch.log) + ReadTrace(old(repositionRequested), rounds, channelCount)
      ensures Received(rounds) == ReceivedOutput(soundTouch.log[|old(soundTouch.log)|..])
      ensures Pulled(rounds) == sourceProvider.data[old(sourceProvider.position)..sourceProvider.position]
      ensures PullsOnlyWhenEmpty(rounds)
      ensures DrainsRemaining(rounds, count, channelCount) && RunsOn(rounds)
      ensures Chained(StartFifo(old(repositionRequested), old(soundTouch.fifo)), old(sourceProvider.position), rounds,
                      sourceReadBuffer.Length, |sourceProvider.data|, channelCount)
      ensures soundTouch.fifo == FifoAfter(StartFifo(old(repositionRequested), old(soundTouch.fifo)), rounds)
      ensures samplesRead < count <==> Stops(rounds)
      ensures samplesRead < count ==>
                soundTouch.fifo == []
                && (sourceReadBuffer.Length > 0 ==> sourceProvider.position == |sourceProvider.data|)
    {
      if repositionRequested {
        soundTouch.Clear();
        repositionRequested := false;
      }
      ghost var cleared: seq<Command> := if old(repositionRequested) then [Clear] else [];
      assert soundTouch.log == old(soundTouch.log) + cleared;
      ghost var fifo0 := soundTouch.fifo;
      assert fifo0 == StartFifo(old(repositionRequested), old(soundTouch.fifo));
      ghost var out, pulled, reachedEnd;
      samplesRead, rounds, out, pulled, reachedEnd := FeedAndDrain(buffer, offset, count);
      if samplesRead < count {
        ShortReadDrainsEngine(fifo0, old(sourceProvider.position), rounds, sourceReadBuffer.Length,
                              |sourceProvider.data|, count, channelCount);
      }
      AppendAssoc(old(soundTouch.log), cleared, Commands(rounds, channelCount));
      ReadTraceReceives(old(repositionRequested), rounds, channelCount);
    }

    /**
     * Read's feed/drain loop, entered with no reposition pending: runs rounds until `count`
     * samples are in the buffer or a round finds the source exhausted and receives nothing.
     * `out` is what the rounds wrote into the buffer from `offset` on and `pulled` what they read
     * from the source.
     */
    method FeedAndDrain(buffer: array<real>, offset: nat, count: nat)
      returns (samplesRead: nat, ghost rounds: seq<Round>, ghost out: seq<real>, ghost pulled: seq<real>,
               ghost reachedEndOfSource: bool)
      requires Valid() && !repositionRequested
      requires buffer != sourceReadBuffer && buffer != soundTouchReadBuffer
      requires offset + count <= buffer.Length
      requires Frames.Whole(count, channelCount) && count <= soundTouchReadBuffer.Length
      modifies soundTouch, sourceProvider, buffer, sourceReadBuffer, soundTouchReadBuffer
      ensures LoopState(buffer, old(buffer[..]), offset, out, old(sourceProvider.position), pulled,
                        old(soundTouch.log), rounds)
      ensures Progress(rounds, count, channelCount, out, pulled, reachedEndOfSource)
      ensures samplesRead == |out|
      ensures Chained(old(soundTouch.fifo), old(sourceProvider.position), rounds, sourceReadBuffer.Length,
                      |sourceProvider.data|, channelCount)
      ensures soundTouch.fifo == FifoAfter(old(soundTouch.fifo), rounds)
      ensures reachedEndOfSource && sourceReadBuffer.Length > 0 ==> sourceProvider.position == |sourceProvider.data|
      ensures samplesRead < count <==> Stops(rounds)
    {
      ghost var b0 := buffer[..];
      ghost var start := soundTouch.log;
      ghost var position0 := sourceProvider.position;
      ghost var fifo0 := soundTouch.fifo;
      samplesRead := 0;
      rounds, out, pulled := [], [], [];
      var reachedEnd := false;
      ProgressStart(count, channelCount);
      OverwriteNothing(b0, offset);
      while samplesRead < count
        invariant LoopState(buffer, b0, offset, out, position0, pulled, start, rounds)
        invariant Progress(rounds, count, channelCount, out, pulled, reachedEnd)
        invariant samplesRead == |out|
        invariant Chained(fifo0, position0, rounds, sourceReadBuffer.Length, |sourceProvider.data|, channelCount)
        invariant soundTouch.fifo == FifoAfter(fifo0, rounds) && sourceProvider.position == PositionAfter(position0, rounds)
        invariant reachedEnd && sourceReadBuffer.Length > 0 ==> sourceProvider.position == |sourceProvider.data|
        invariant !Stops(rounds)
        decreases count - samplesRead, |sourceProvider.data| - sourceProvider.position
      {
        var received, reachedEnd';
        ghost var round;
        received, reachedEnd', round :=
          ReadRound(buffer, offset, count, samplesRead, reachedEnd, b0, out, position0, pulled, start, rounds);
        ProgressStep(rounds, round, count, channelCount, out, pulled, reachedEnd, reachedEnd');
        ChainStep(fifo0, position0, rounds, round, sourceReadBuffer.Length, |sourceProvider.data|, channelCount);
        samplesRead := samplesRead + received;
        out, pulled, rounds := out + round.received, pulled + PulledBy(round), rounds + [round];
        reachedEnd := reachedEnd';
        if received == 0 && reachedEnd {
          break;
        }
      }
      if Stops(rounds) {
        StopsShort(rounds, count, channelCount);
      }
      reachedEndOfSource := reachedEnd;
    }

    /** Writes `count` zeros into `buffer` from `offset` on and leaves the rest of it alone. */
    method PlaySilence(buffer: array<real>, offset: nat, count: nat)
      requires offset + count <= buffer.Length
      modifies buffer
      ensures buffer[..] == Overwrite(old(buffer[..]), offset, Silence(count))
    {
      ghost var b0 := buffer[..];
      OverwriteNothing(b0, offset);
      assert Silence(0) == [];
      for n := 0 to count
        invariant buffer[..] == Overwrite(b0, offset, Silence(n))
      {
        OverwriteStep(b0, offset, Silence(n), 0.0);
        assert Silence(n + 1) == Silence(n) + [0.0];
        ghost var before := buffer[..];
        buffer[offset + n] := 0.0;
        assert buffer[..] == before[offset + n := 0.0];
      }
    }

    /**
     * How the state of the provider, the engine, the source and `buffer` stands to the values Read's
     * loop tracks: `buffer` is its content `b0` on entry with `out` written from `offset` on, the
     * source has handed over `pulled` since `position0`, and the engine log is `start` followed by
     * the commands of `rounds`.
     */
    ghost predicate LoopState(buffer: array<real>, b0: seq<real>, offset: nat, out: seq<real>, position0: nat,
                              pulled: seq<real>, start: seq<Command>, rounds: seq<Round>)
      reads this, soundTouch, sourceProvider, buffer
    {
      Valid() && !repositionRequested
      && |b0| == buffer.Length && offset + |out| <= |b0| && buffer[..] == Overwrite(b0, offset, out)
      && position0 <= sourceProvider.position && sourceProvider.data[position0..sourceProvider.position] == pulled
      && soundTouch.log == start + Commands(rounds, channelCount)
    }

    /**
     * One iteration of Read's loop: when the engine has nothing ready, pull a chunk from the source
     * (or flush at its end); then drain the whole frames still missing into the buffer right after
     * the `samplesRead` samples already there. Returns the samples received; `round` records the
     * iteration.
     */
    method ReadRound(buffer: array<real>, offset: nat, count: nat, samplesRead: nat, reachedEndOfSource: bool,
                     ghost b0: seq<real>, ghost out: seq<real>, ghost position0: nat, ghost pulled: seq<real>,
                     ghost start: seq<Command>, ghost rounds: seq<Round>)
      returns (received: nat, reachedEnd: bool, ghost round: Round)
      requires buffer != sourceReadBuffer && buffer != soundTouchReadBuffer
      requires LoopState(buffer, b0, offset, out, position0, pulled, start, rounds)
      requires Frames.Whole(count, channelCount) && count <= soundTouchReadBuffer.Length
      requires Frames.Whole(samplesRead, channelCount) && samplesRead == |out| < count && offset + count <= buffer.Length
      modifies soundTouch, sourceProvider, buffer, sourceReadBuffer, soundTouchReadBuffer
      ensures received == |round.received|
      ensures LoopState(buffer, b0, offset, out + round.received, position0, pulled + PulledBy(round), start, rounds + [round])
      ensures RoundAgrees(round, sourceReadBuffer.Length, |sourceProvider.data|, channelCount)
      ensures round.fifo == old(soundTouch.fifo) && soundTouch.fifo == round.left
      ensures round.position == old(sourceProvider.position) && sourceProvider.position == round.position + |PulledBy(round)|
      ensures round.pulled.Some? <==> round.fifo == []
      ensures RoundDrains(round, samplesRead, count, channelCount)
      ensures reachedEnd ==> reachedEndOfSource || round.pulled == Some([])
      ensures round.pulled == Some([]) ==> reachedEnd
      ensures reachedEndOfSource ==> reachedEnd
      ensures reachedEnd && sourceReadBuffer.Length > 0 && !reachedEndOfSource ==> sourceProvider.position == |sourceProvider.data|
      ensures old(sourceProvider.position) <= sourceProvider.position
      ensures received > 0 || reachedEnd || old(sourceProvider.position) < sourceProvider.position
    {
      reachedEnd := reachedEndOfSource;
      ghost var fifo, position := soundTouch.fifo, sourceProvider.position;
      var available := soundTouch.NumberOfSamplesAvailable();
      Frames.FramesOfSamples(available, channelCount);
      ghost var chunkRead: Option<seq<real>> := None;
      if available == 0 {
        var readFromSource, chunk := PullSourceChunk();
        chunkRead := Some(chunk);
        if readFromSource == 0 {
          reachedEnd := true;
        }
        SliceJoin(sourceProvider.data, position0, old(sourceProvider.position), sourceProvider.position);
      }
      ghost var fed := soundTouch.fifo;

      Frames.FramesBetween(count, samplesRead, channelCount);
      var desiredSampleFrames := Frames.FramesIn(count - samplesRead, channelCount);
      ghost var got;
      received, got := DrainEngine(buffer, offset + samplesRead, desiredSampleFrames);

      round := Round(fifo, available, position, chunkRead, fed, desiredSampleFrames, got, soundTouch.fifo);
      OverwriteAppend(b0, offset, out, offset + samplesRead, got);
      Extend(rounds, round, count, channelCount);
      AppendAssoc(old(soundTouch.log), Feed(chunkRead, channelCount), [Receive(desiredSampleFrames, got)]);
      AppendAssoc(start, Commands(rounds, channelCount), RoundCommands(round, channelCount));
    }

    /**
     * Reads one chunk from the source into the source buffer and feeds its whole frames to the
     * engine; when the source returned nothing, flushes the engine instead.
     */
    method PullSourceChunk() returns (readFromSource: nat, ghost chunk: seq<real>)
      requires Valid()
      modifies sourceProvider, sourceReadBuffer, soundTouch
      ensures Valid()
      ensures readFromSource == |chunk| == Min(sourceReadBuffer.Length, |sourceProvider.data| - old(sourceProvider.position))
      ensures sourceProvider.position == old(sourceProvider.position) + readFromSource
      ensures chunk == sourceProvider.data[old(sourceProvider.position)..sourceProvider.position]
      ensures soundTouch.log == old(soundTouch.log) + Feed(Some(chunk), channelCount)
      ensures |old(soundTouch.fifo)| <= |soundTouch.fifo| && soundTouch.fifo[..|old(soundTouch.fifo)|] == old(soundTouch.fifo)
    {
      readFromSource := sourceProvider.Read(sourceReadBuffer, 0, sourceReadBuffer.Length);
      chunk := sourceReadBuffer[..readFromSource];
      if readFromSource > 0 {
        var frames := Frames.FramesIn(readFromSource, channelCount);
        Frames.FramesInWithin(readFromSource, channelCount);
        ghost var fed := Frames.Samples(frames, channelCount);
        assert sourceReadBuffer[..fed] == chunk[..fed];
        soundTouch.PutSamples(sourceReadBuffer, frames);
      } else {
        // the source is exhausted: let the engine process what it still holds
        soundTouch.Flush();
      }
    }

    /**
     * Receives up to `desiredSampleFrames` frames from the engine and copies them, one sample at a
     * time, into `buffer` from index `at` on; returns the number of samples copied.
     */
    method DrainEngine(buffer: array<real>, at: nat, desiredSampleFrames: nat) returns (received: nat, ghost got: seq<real>)
      requires Valid() && buffer != soundTouchReadBuffer
      requires Frames.Samples(desiredSampleFrames, channelCount) <= soundTouchReadBuffer.Length
      requires at + Frames.Samples(desiredSampleFrames, channelCount) <= buffer.Length
      modifies soundTouch, soundTouchReadBuffer, buffer
      ensures Valid()
      ensures soundTouch.log == old(soundTouch.log) + [Receive(desiredSampleFrames, got)]
      ensures received == |got| && Frames.Whole(received, channelCount)
      ensures received <= Frames.Samples(desiredSampleFrames, channelCount)
      ensures received
              == Frames.Samples(Min(desiredSampleFrames, Frames.FramesIn(|old(soundTouch.fifo)|, channelCount)), channelCount)
      ensures old(soundTouch.fifo) == got + soundTouch.fifo
      ensures old(soundTouch.fifo) != [] && desiredSampleFrames > 0 ==> received > 0
      ensures at + received <= buffer.Length
      ensures buffer[..] == Overwrite(old(buffer[..]), at, got)
    {
      var frames := soundTouch.ReceiveSamples(soundTouchReadBuffer, desiredSampleFrames);
      received := Frames.Samples(frames, channelCount);
      Frames.FramesOfSamples(frames, channelCount);
      got := soundTouchReadBuffer[..received];
      assert old(soundTouch.fifo) == got + soundTouch.fifo by {
        assert old(soundTouch.fifo) == old(soundTouch.fifo)[..received] + old(soundTouch.fifo)[received..];
      }
      if old(soundTouch.fifo) != [] && desiredSampleFrames > 0 {
        assert Frames.FramesIn(|old(soundTouch.fifo)|, channelCount) > 0;
      }
      ghost var b0 := buffer[..];
      OverwriteNothing(b0, at);
      // a loop rather than a bulk copy, as the destination may be a view over other memory
      for n := 0 to received
        modifies buffer
        invariant buffer[..] == Overwrite(b0, at, got[..n])
      {
        OverwriteStep(b0, at, got[..n], got[n]);
        assert got[..n + 1] == got[..n] + [got[n]];
        ghost var before := buffer[..];
        buffer[at + n] := soundTouchReadBuffer[n];
        assert buffer[..] == before[at + n := got[n]];
      }
      assert got[..received] == got;
    }

    /** The playback-rate setter: ignores a value within EPS of the current rate and never pushes a zero rate. */
    method SetPlaybackRate(value: real)
      requires Valid()
      modifies this`playbackRate, soundTouch
      ensures Valid()
      ensures playbackRate == NextRate(old(playbackRate), value)
      ensures soundTouch.log == old(soundTouch.log) + RateCommands(old(playbackRate), value, TempoMode())
      ensures soundTouch.fifo == old(soundTouch.fifo)
    {
      if Abs(playbackRate - value) > EPS {
        UpdatePlaybackRate(value);
        playbackRate := value;
      }
    }

    /** Pushes a non-zero rate into the engine as a tempo or a rate, as the profile selects. */
    method UpdatePlaybackRate(value: real)
      modifies soundTouch
      ensures soundTouch.log == old(soundTouch.log) + UpdateCommands(value, TempoMode())
      ensures soundTouch.fifo == old(soundTouch.fifo) && soundTouch.channels == old(soundTouch.channels)
    {
      if value != 0.0 {
        if currentSoundTouchProfile != null && currentSoundTouchProfile.useTempo {
          soundTouch.SetTempo(value);
        } else {
          soundTouch.SetRate(value);
        }
      }
    }

    /**
     * Adopts a new profile. When a profile was already in use, the rate is not unity and the
     * tempo flag changes, the rate is first handed over from the old multiplier to the new one;
     * the quality flags are always applied from the new profile.
     */
    method SetSoundTouchProfile(soundTouchProfile: SoundTouchProfile)
      modifies this`currentSoundTouchProfile, soundTouch`log
      ensures currentSoundTouchProfile == soundTouchProfile
      ensures soundTouch.log
              == old(soundTouch.log)
                 + ProfileCommands(old(ActiveTempoFlag()), playbackRate, soundTouchProfile.useTempo,
                                   soundTouchProfile.useAntiAliasing, soundTouchProfile.useQuickSeek)
    {
      ghost var log0 := soundTouch.log;
      ghost var handoff := Handoff(ActiveTempoFlag(), playbackRate, soundTouchProfile.useTempo);
      ghost var flags := [SetUseAntiAliasing(soundTouchProfile.useAntiAliasing),
                          SetUseQuickSeek(soundTouchProfile.useQuickSeek)];
      if currentSoundTouchProfile != null && Abs(playbackRate - 1.0) > EPS
         && soundTouchProfile.useTempo != currentSoundTouchProfile.useTempo
      {
        HandOffRate(soundTouchProfile.useTempo);
      }
      assert soundTouch.log == log0 + handoff;
      currentSoundTouchProfile := soundTouchProfile;
      soundTouch.SetUseAntiAliasing(soundTouchProfile.useAntiAliasing);
      soundTouch.SetUseQuickSeek(soundTouchProfile.useQuickSeek);
      assert soundTouch.log == (log0 + handoff) + flags;
      assert ProfileCommands(old(ActiveTempoFlag()), playbackRate, soundTouchProfile.useTempo,
                             soundTouchProfile.useAntiAliasing, soundTouchProfile.useQuickSeek) == handoff + flags;
      AppendAssoc(log0, handoff, flags);
    }

    /** Moves the current rate onto the multiplier of the new mode, tempo when `toTempo`, rate otherwise. */
    method HandOffRate(toTempo: bool)
      modifies soundTouch`log
      ensures soundTouch.log == old(soundTouch.log) + HandoffSteps(toTempo, playbackRate)
    {
      if toTempo {
        soundTouch.SetRate(1.0);
        soundTouch.SetPitchOctaves(0.0);
        soundTouch.SetTempo(playbackRate);
      } else {
        soundTouch.SetTempo(1.0);
        soundTouch.SetRate(playbackRate);
      }
    }

    /** Asks the next Read to clear the engine; the engine itself is not touched here. */
    method Reposition()
      modifies this`repositionRequested
      ensures repositionRequested
    {
      repositionRequested := true;
    }
  }
}
