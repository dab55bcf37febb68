/**
 * The time/pitch-stretching engine that the sample provider drives. The engine itself is a native
 * library and its stretching algorithm is not part of this model; what is modelled is the
 * interface the provider uses: every call is recorded, in order, in a command log, and the engine
 * holds a FIFO of interleaved output samples that grows by an unspecified number of whole frames
 * whenever samples are put or the engine is flushed, and shrinks when samples are received.
 *
 * How much output the engine produces is decided by `stretch`, an arbitrary function of the
 * command history; every property of the provider is proved for every such function.
 */
module SoundTouchEngine {
  import opened Wrappers
  import Frames

  /** One call from the provider into the engine, with its arguments (and, for Receive, its result). */
  datatype Command =
    | SetSampleRate(hz: nat)
    | SetChannels(count: nat)
    | SetRate(rate: real)
    | SetTempo(tempo: real)
    | SetPitchOctaves(octaves: real)
    | SetUseAntiAliasing(enabled: bool)
    | SetUseQuickSeek(enabled: bool)
    | Put(frames: nat, samples: seq<real>)
    | Flush
    | Clear
    | Receive(maxFrames: nat, samples: seq<real>)

  /** The engine's playback settings, as the commands in its log have left them. */
  datatype Settings = Settings(
    rate: real,
    tempo: real,
    pitchOctaves: real,
    antiAliasing: bool,
    quickSeek: bool)

  /** The effect of one command on the settings: only the setters change them. */
  function Step(s: Settings, c: Command): Settings
  {
    match c
    case SetRate(r) => s.(rate := r)
    case SetTempo(t) => s.(tempo := t)
    case SetPitchOctaves(o) => s.(pitchOctaves := o)
    case SetUseAntiAliasing(on) => s.(antiAliasing := on)
    case SetUseQuickSeek(on) => s.(quickSeek := on)
    case _ => s
  }

  /** The settings after a sequence of commands, starting from `s`. */
  function Apply(s: Settings, cmds: seq<Command>): Settings
    decreases |cmds|
  {
    if cmds == [] then s else Step(Apply(s, cmds[..|cmds| - 1]), cmds[|cmds| - 1])
  }

  /** Applying two command sequences one after the other is applying their concatenation. */
  lemma {:induction false} ApplyAppend(s: Settings, a: seq<Command>, b: seq<Command>)
    ensures Apply(s, a + b) == Apply(Apply(s, a), b)
    decreases |b|
  {
    if b != [] {
      assert (a + b)[..|a + b| - 1] == a + b[..|b| - 1];
      ApplyAppend(s, a, b[..|b| - 1]);
    } else {
      assert a + b == a;
    }
  }

  /** The prefix of `output` made of whole frames. */
  function WholeFrames(output: seq<real>, channels: nat): (r: seq<real>)
    requires channels > 0
    ensures Frames.Whole(|r|, channels) && |output| - channels < |r| <= |output|
    ensures r == output[..|r|]
  {
    Frames.WholeFramesWithin(|output|, channels);
    Frames.FramesInWithin(|output|, channels);
    output[..Frames.Samples(Frames.FramesIn(|output|, channels), channels)]
  }

  class SoundTouch {
    /** Every call the engine has received, oldest first. */
    var log: seq<Command>
    /** Interleaved output samples ready to be received. */
    var fifo: seq<real>
    /** Channel count; 0 until SetChannels is called. */
    var channels: nat
    /** The stretching algorithm: the output one Put or Flush makes available, given the log up to and including it. */
    const stretch: seq<Command> -> seq<real>

    /** The FIFO always holds whole frames. */
    ghost predicate Valid()
      reads this
    {
      channels > 0 ==> Frames.Whole(|fifo|, channels)
    }

    constructor (stretch: seq<Command> -> seq<real>)
      ensures Valid() && this.stretch == stretch
      ensures log == [] && fifo == [] && channels == 0
    {
      this.stretch := stretch;
      log, fifo, channels := [], [], 0;
    }

    /** The number of whole frames ready to be received. */
    function NumberOfSamplesAvailable(): (frames: nat)
      requires Valid() && channels > 0
      reads this
      ensures Frames.Samples(frames, channels) == |fifo|
      ensures frames == 0 <==> fifo == []
    {
      Frames.FramesIn(|fifo|, channels)
    }

    method SetSampleRate(hz: nat)
      modifies this`log
      ensures log == old(log) + [Command.SetSampleRate(hz)]
      ensures fifo == old(fifo) && channels == old(channels)
    {
      log := log + [Command.SetSampleRate(hz)];
    }

    method SetChannels(count: nat)
      requires count > 0 && fifo == []
      modifies this
      ensures Valid() && channels == count
      ensures log == old(log) + [Command.SetChannels(count)]
      ensures fifo == old(fifo)
    {
      log := log + [Command.SetChannels(count)];
      channels := count;
    }

    method SetRate(rate: real)
      modifies this`log
      ensures log == old(log) + [Command.SetRate(rate)]
      ensures fifo == old(fifo) && channels == old(channels)
    {
      log := log + [Command.SetRate(rate)];
    }

    method SetTempo(tempo: real)
      modifies this`log
      ensures log == old(log) + [Command.SetTempo(tempo)]
      ensures fifo == old(fifo) && channels == old(channels)
    {
      log := log + [Command.SetTempo(tempo)];
    }

    method SetPitchOctaves(octaves: real)
      modifies this`log
      ensures log == old(log) + [Command.SetPitchOctaves(octaves)]
      ensures fifo == old(fifo) && channels == old(channels)
    {
      log := log + [Command.SetPitchOctaves(octaves)];
    }

    method SetUseAntiAliasing(enabled: bool)
      modifies this`log
      ensures log == old(log) + [Command.SetUseAntiAliasing(enabled)]
      ensures fifo == old(fifo) && channels == old(channels)
    {
      log := log + [Command.SetUseAntiAliasing(enabled)];
    }

    method SetUseQuickSeek(enabled: bool)
      modifies this`log
      ensures log == old(log) + [Command.SetUseQuickSeek(enabled)]
      ensures fifo == old(fifo) && channels == old(channels)
    {
      log := log + [Command.SetUseQuickSeek(enabled)];
    }

    /** Feeds the first `frames` frames of `samples`; some whole frames of output may become available. */
    method PutSamples(samples: array<real>, frames: nat)
      requires Valid() && channels > 0 && Frames.Samples(frames, channels) <= samples.Length
      modifies this
      ensures Valid() && channels == old(channels)
      ensures log == old(log) + [Put(frames, samples[..Frames.Samples(frames, channels)])]
      ensures |fifo| >= |old(fifo)| && fifo[..|old(fifo)|] == old(fifo)
    {
      log := log + [Put(frames, samples[..Frames.Samples(frames, channels)])];
      var produced := WholeFrames(stretch(log), channels);
      Frames.AddWhole(|fifo|, |produced|, channels);
      fifo := fifo + produced;
    }

    /** Processes what the engine still holds internally; some whole frames of output may become available. */
    method Flush()
      requires Valid() && channels > 0
      modifies this
      ensures Valid() && channels == old(channels)
      ensures log == old(log) + [Command.Flush]
      ensures |fifo| >= |old(fifo)| && fifo[..|old(fifo)|] == old(fifo)
    {
      log := log + [Command.Flush];
      var produced := WholeFrames(stretch(log), channels);
      Frames.AddWhole(|fifo|, |produced|, channels);
      fifo := fifo + produced;
    }

    /** Discards all buffered samples. */
    method Clear()
      modifies this
      ensures Valid() && channels == old(channels)
      ensures log == old(log) + [Command.Clear] && fifo == []
    {
      log := log + [Command.Clear];
      fifo := [];
    }

    /** Moves up to `maxFrames` whole frames from the front of the FIFO into `dest`; returns how many. */
    method ReceiveSamples(dest: array<real>, maxFrames: nat) returns (frames: nat)
      requires Valid() && channels > 0 && Frames.Samples(maxFrames, channels) <= dest.Length
      modifies this, dest
      ensures Valid() && channels == old(channels)
      ensures frames == Min(maxFrames, Frames.FramesIn(|old(fifo)|, channels))
      ensures Frames.Samples(frames, channels) <= |old(fifo)|
      ensures Frames.Samples(frames, channels) <= Frames.Samples(maxFrames, channels)
      ensures log == old(log) + [Receive(maxFrames, old(fifo)[..Frames.Samples(frames, channels)])]
      ensures fifo == old(fifo)[Frames.Samples(frames, channels)..]
      ensures dest[..Frames.Samples(frames, channels)] == old(fifo)[..Frames.Samples(frames, channels)]
      ensures forall i :: Frames.Samples(frames, channels) <= i < dest.Length ==> dest[i] == old(dest[i])
    {
      frames := Min(maxFrames, Frames.FramesIn(|fifo|, channels));
      Frames.FramesFit(frames, |fifo|, channels);
      Frames.SamplesMono(frames, maxFrames, channels);
      var n := Frames.Samples(frames, channels);
      var got := fifo[..n];
      forall i | 0 <= i < n {
        dest[i] := got[i];
      }
      Frames.FramesOfSamples(frames, channels);
      Frames.DropWhole(|fifo|, n, channels);
      log := log + [Receive(maxFrames, got)];
      fifo := fifo[n..];
    }
  }
}
