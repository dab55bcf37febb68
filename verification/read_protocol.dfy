/**
 * The feed/drain loop of the provider's Read, described one iteration ("round") at a time: what
 * the engine held and reported as available, what was pulled from the source (only when the
 * engine held nothing), how many frames were asked of the engine and which samples it handed
 * back. The commands a round issues to the engine follow from the record, and the lemmas here
 * relate the whole trace of a call to what Read returns and to the engine's output FIFO.
 */
module ReadProtocol {
  import opened Wrappers
  import opened SoundTouchEngine
  import Frames

  datatype Round = Round(
    fifo: seq<real>,               // the engine's output FIFO at the start of the round
    available: nat,                // frames the engine reported at the start of the round
    position: nat,                 // the source's read position at the start of the round
    pulled: Option<seq<real>>,     // the chunk read from the source, if the source was read
    fed: seq<real>,                // the engine's output FIFO after the source chunk or the flush
    desired: nat,                  // frames asked of the engine
    received: seq<real>,           // interleaved samples the engine returned
    left: seq<real>)               // the engine's output FIFO at the end of the round

  /** What a source read turns into: a Put of the whole frames read, or a Flush when nothing was read. */
  function Feed(pulled: Option<seq<real>>, channels: nat): (cmds: seq<Command>)
    requires channels > 0
    ensures pulled.None? <==> cmds == []
  {
    match pulled
    case None => []
    case Some(chunk) =>
      if |chunk| > 0 then
        var frames := Frames.FramesIn(|chunk|, channels);
        Frames.FramesInWithin(|chunk|, channels);
        [Put(frames, chunk[..Frames.Samples(frames, channels)])]
      else [Flush]
  }

  function RoundCommands(r: Round, channels: nat): seq<Command>
    requires channels > 0
  {
    Feed(r.pulled, channels) + [Receive(r.desired, r.received)]
  }

  /** The engine commands of a sequence of rounds, in order. */
  function Commands(rounds: seq<Round>, channels: nat): seq<Command>
    requires channels > 0
    decreases |rounds|
  {
    if rounds == [] then []
    else Commands(rounds[..|rounds| - 1], channels) + RoundCommands(rounds[|rounds| - 1], channels)
  }

  /** All samples the engine returned over the rounds, in order. */
  function Received(rounds: seq<Round>): seq<real>
    decreases |rounds|
  {
    if rounds == [] then [] else Received(rounds[..|rounds| - 1]) + rounds[|rounds| - 1].received
  }

  /** The samples a round read from the source; none when it did not read it. */
  function PulledBy(r: Round): seq<real>
  {
    match r.pulled
    case Some(chunk) => chunk
    case None => []
  }

  /** All samples read from the source over the rounds, in order. */
  function Pulled(rounds: seq<Round>): seq<real>
    decreases |rounds|
  {
    if rounds == [] then [] else Pulled(rounds[..|rounds| - 1]) + PulledBy(rounds[|rounds| - 1])
  }

  /** Some round found the source exhausted. */
  predicate EndOfSource(rounds: seq<Round>)
  {
    exists i :: 0 <= i < |rounds| && rounds[i].pulled == Some([])
  }

  /** The source is read exactly in the rounds that found the engine's output FIFO empty. */
  predicate PullsOnlyWhenEmpty(rounds: seq<Round>)
  {
    forall i :: 0 <= i < |rounds| ==> (rounds[i].pulled.Some? <==> rounds[i].fifo == [])
  }

  /**
   * A round's record agrees with how the engine and the source behave: the FIFO holds whole
   * frames and the count reported is its length in frames; a chunk read from the source is as
   * long as the source buffer, or all that is left of the source when that is shorter; without a
   * source read the FIFO is not fed; the drain hands back the first `min(desired, frames held)`
   * frames of the FIFO, and the rest stays.
   */
  predicate RoundAgrees(r: Round, bufferLength: nat, sourceLength: nat, channels: nat)
    requires channels > 0
  {
    Frames.Whole(|r.fifo|, channels) && r.available == Frames.FramesIn(|r.fifo|, channels)
    && r.position <= sourceLength
    && (r.pulled.Some? ==> |r.pulled.value| == Min(bufferLength, sourceLength - r.position))
    && (r.pulled.None? ==> r.fed == r.fifo)
    && Frames.Whole(|r.fed|, channels)
    && |r.received| == Frames.Samples(Min(r.desired, Frames.FramesIn(|r.fed|, channels)), channels)
    && r.fed == r.received + r.left
  }

  /** The engine's output FIFO when Read's loop starts: emptied by the Clear of a pending reposition. */
  function StartFifo(reposition: bool, fifo: seq<real>): seq<real>
  {
    if reposition then [] else fifo
  }

  /** The engine's output FIFO after the rounds, `start` before any. */
  function FifoAfter(start: seq<real>, rounds: seq<Round>): seq<real>
  {
    if rounds == [] then start else rounds[|rounds| - 1].left
  }

  /** The source's read position after the rounds, `start` before any. */
  function PositionAfter(start: nat, rounds: seq<Round>): nat
  {
    if rounds == [] then start else rounds[|rounds| - 1].position + |PulledBy(rounds[|rounds| - 1])|
  }

  /**
   * Every round agrees with the engine and the source, and each starts with the FIFO and the
   * source position the one before it left; the first starts from `fifo0` and `position0`.
   */
  predicate Chained(fifo0: seq<real>, position0: nat, rounds: seq<Round>, bufferLength: nat, sourceLength: nat,
                    channels: nat)
    requires channels > 0
    decreases |rounds|
  {
    rounds == []
    || (var init, r := rounds[..|rounds| - 1], rounds[|rounds| - 1];
        Chained(fifo0, position0, init, bufferLength, sourceLength, channels)
        && RoundAgrees(r, bufferLength, sourceLength, channels)
        && r.fifo == FifoAfter(fifo0, init) && r.position == PositionAfter(position0, init))
  }

  /**
   * A round that runs while fewer than `count` samples have been received (`done` of them), asks
   * for the whole frames still missing and receives whole frames, at most that many.
   */
  predicate RoundDrains(r: Round, done: nat, count: nat, channels: nat)
    requires channels > 0
  {
    done < count
    && r.desired == Frames.FramesIn(count - done, channels)
    && |r.received| <= Frames.Samples(r.desired, channels)
    && Frames.Whole(|r.received|, channels)
  }

  /** Each round asks for the whole frames still missing from `count` samples, given what earlier rounds received. */
  predicate DrainsRemaining(rounds: seq<Round>, count: nat, channels: nat)
    requires channels > 0
    decreases |rounds|
  {
    rounds == []
    || (DrainsRemaining(rounds[..|rounds| - 1], count, channels)
        && RoundDrains(rounds[|rounds| - 1], |Received(rounds[..|rounds| - 1])|, count, channels))
  }

  /** The loop's break condition after `rounds`: the last round received nothing and the source has been found exhausted. */
  predicate Stops(rounds: seq<Round>)
  {
    rounds != [] && rounds[|rounds| - 1].received == [] && EndOfSource(rounds)
  }

  /** The loop went on after every round but the last: none of the earlier rounds met the break condition. */
  predicate RunsOn(rounds: seq<Round>)
    decreases |rounds|
  {
    |rounds| <= 1 || (RunsOn(rounds[..|rounds| - 1]) && !Stops(rounds[..|rounds| - 1]))
  }

  /**
   * What Read's loop keeps true after each round, over the values involved: `filled` is what the
   * buffer holds so far, `pulled` what was read from the source so far, and `reachedEnd` whether
   * the source was found exhausted. The buffer holds exactly the received samples, whole frames
   * and no more than `count`; the source was read exactly when the engine was empty; every
   * round ran while samples were missing and asked for exactly the whole frames still missing;
   * and the loop went on after every round but the last.
   */
  ghost predicate Progress(rounds: seq<Round>, count: nat, channels: nat, filled: seq<real>, pulled: seq<real>,
                           reachedEnd: bool)
    requires channels > 0
  {
    |filled| <= count && Frames.Whole(|filled|, channels)
    && filled == Received(rounds)
    && pulled == Pulled(rounds)
    && PullsOnlyWhenEmpty(rounds)
    && DrainsRemaining(rounds, count, channels)
    && RunsOn(rounds)
    && (reachedEnd <==> EndOfSource(rounds))
  }

  /** Before the first round nothing is filled, pulled or exhausted. */
  lemma ProgressStart(count: nat, channels: nat)
    requires channels > 0
    ensures Progress([], count, channels, [], [], false)
  {
    assert Frames.FramesIn(0, channels) == 0;
  }

  /**
   * A round after one that did not meet the break condition, that reads the source only when the
   * engine is empty and asks for the whole frames still missing, keeps Progress, with its received samples appended to the buffer and its chunk
   * to what was pulled.
   */
  lemma ProgressStep(rounds: seq<Round>, r: Round, count: nat, channels: nat, filled: seq<real>, pulled: seq<real>,
                     reachedEnd: bool, reachedEnd': bool)
    requires channels > 0 && Progress(rounds, count, channels, filled, pulled, reachedEnd)
    requires r.pulled.Some? <==> r.fifo == []
    requires RoundDrains(r, |filled|, count, channels)
    requires !Stops(rounds)
    requires reachedEnd' <==> reachedEnd || r.pulled == Some([])
    ensures Progress(rounds + [r], count, channels, filled + r.received, pulled + PulledBy(r), reachedEnd')
  {
    Extend(rounds, r, count, channels);
    ExtendRun(rounds, r);
    Frames.FramesInWithin(count - |filled|, channels);
    Frames.AddWhole(|filled|, |r.received|, channels);
  }

  /** Concatenation regroups freely. */
  lemma AppendAssoc<T>(a: seq<T>, b: seq<T>, c: seq<T>)
    ensures a + (b + c) == (a + b) + c
  {
  }

  /** The engine commands of one non-silent Read: a Clear when a reposition was requested, then the rounds. */
  function ReadTrace(reposition: bool, rounds: seq<Round>, channels: nat): seq<Command>
    requires channels > 0
  {
    (if reposition then [Clear] else []) + Commands(rounds, channels)
  }

  /** How each description of the rounds grows when one more round is appended. */
  lemma Extend(rounds: seq<Round>, r: Round, count: nat, channels: nat)
    requires channels > 0
    ensures var more := rounds + [r];
            Commands(more, channels) == Commands(rounds, channels) + RoundCommands(r, channels)
            && Received(more) == Received(rounds) + r.received
            && Pulled(more) == Pulled(rounds) + PulledBy(r)
            && (DrainsRemaining(rounds, count, channels) && RoundDrains(r, |Received(rounds)|, count, channels)
                ==> DrainsRemaining(more, count, channels))
            && (PullsOnlyWhenEmpty(rounds) && (r.pulled.Some? <==> r.fifo == []) ==> PullsOnlyWhenEmpty(more))
            && (EndOfSource(rounds) || r.pulled == Some([]) ==> EndOfSource(more))
  {
    var more := rounds + [r];
    assert more[..|more| - 1] == rounds;
    if EndOfSource(rounds) {
      var i :| 0 <= i < |rounds| && rounds[i].pulled == Some([]);
      assert more[i] == rounds[i];
    }
    if r.pulled == Some([]) {
      assert more[|rounds|] == r;
    }
  }

  /**
   * Appending a round finds the source exhausted only if an earlier round did or this one reads
   * nothing, and the loop goes on to it only if the earlier rounds did not meet the break condition.
   */
  lemma ExtendRun(rounds: seq<Round>, r: Round)
    ensures var more := rounds + [r];
            (EndOfSource(more) ==> EndOfSource(rounds) || r.pulled == Some([]))
            && (RunsOn(rounds) && !Stops(rounds) ==> RunsOn(more))
  {
    var more := rounds + [r];
    assert more[..|more| - 1] == rounds;
    if EndOfSource(more) && r.pulled != Some([]) {
      var i :| 0 <= i < |more| && more[i].pulled == Some([]);
      assert rounds[i] == more[i];
    }
  }

  /** The samples handed back by the Receive commands of a log, in order. */
  function ReceivedOutput(log: seq<Command>): seq<real>
    decreases |log|
  {
    if log == [] then []
    else ReceivedOutput(log[..|log| - 1]) + (if log[|log| - 1].Receive? then log[|log| - 1].samples else [])
  }

  lemma {:induction false} ReceivedOutputAppend(a: seq<Command>, b: seq<Command>)
    ensures ReceivedOutput(a + b) == ReceivedOutput(a) + ReceivedOutput(b)
    decreases |b|
  {
    if b == [] {
      assert a + b == a;
    } else {
      assert (a + b)[..|a + b| - 1] == a + b[..|b| - 1];
      ReceivedOutputAppend(a, b[..|b| - 1]);
    }
  }

  /** The Receive commands of the rounds hand back exactly the rounds' received samples. */
  lemma {:induction false} CommandsReceiveRounds(rounds: seq<Round>, channels: nat)
    requires channels > 0
    ensures ReceivedOutput(Commands(rounds, channels)) == Received(rounds)
    decreases |rounds|
  {
    if rounds != [] {
      var init, last := rounds[..|rounds| - 1], rounds[|rounds| - 1];
      CommandsReceiveRounds(init, channels);
      ReceivedOutputAppend(Commands(init, channels), RoundCommands(last, channels));
      ReceivedOutputAppend(Feed(last.pulled, channels), [Receive(last.desired, last.received)]);
      assert ReceivedOutput(Feed(last.pulled, channels)) == [] by {
        var f := Feed(last.pulled, channels);
        if f != [] {
          assert f[..0] == [];
        }
      }
      assert ReceivedOutput([Receive(last.desired, last.received)]) == last.received by {
        assert [Receive(last.desired, last.received)][..0] == [];
      }
    }
  }

  /** A whole Read trace hands back the rounds' received samples, whether or not it starts with a Clear. */
  lemma ReadTraceReceives(reposition: bool, rounds: seq<Round>, channels: nat)
    requires channels > 0
    ensures ReceivedOutput(ReadTrace(reposition, rounds, channels)) == Received(rounds)
  {
    var head: seq<Command> := if reposition then [Clear] else [];
    ReceivedOutputAppend(head, Commands(rounds, channels));
    CommandsReceiveRounds(rounds, channels);
    if reposition {
      assert head[..0] == [];
    }
  }

  /** The rounds never clear the engine. */
  lemma {:induction false} CommandsNeverClear(rounds: seq<Round>, channels: nat)
    requires channels > 0
    ensures Clear !in Commands(rounds, channels)
    decreases |rounds|
  {
    if rounds != [] {
      CommandsNeverClear(rounds[..|rounds| - 1], channels);
    }
  }

  /**
   * After a reposition request the engine is cleared first, before any Put, Flush or Receive of
   * that Read, and only once.
   */
  lemma RepositionClearsFirst(rounds: seq<Round>, channels: nat)
    requires channels > 0
    ensures var t := ReadTrace(true, rounds, channels);
            t[0] == Clear && forall i :: 0 < i < |t| ==> t[i] != Clear
    ensures Clear !in ReadTrace(false, rounds, channels)
  {
    CommandsNeverClear(rounds, channels);
    var t := ReadTrace(true, rounds, channels);
    forall i | 0 < i < |t|
      ensures t[i] != Clear
    {
      assert t[i] == Commands(rounds, channels)[i - 1];
    }
  }

  /** The engine is flushed in a Read exactly when some round found the source exhausted. */
  lemma {:induction false} FlushMeansEndOfSource(rounds: seq<Round>, channels: nat)
    requires channels > 0
    ensures Flush in Commands(rounds, channels) <==> EndOfSource(rounds)
    decreases |rounds|
  {
    if rounds != [] {
      var init, last := rounds[..|rounds| - 1], rounds[|rounds| - 1];
      FlushMeansEndOfSource(init, channels);
      assert Flush in RoundCommands(last, channels) <==> last.pulled == Some([]);
      if EndOfSource(rounds) {
        var i :| 0 <= i < |rounds| && rounds[i].pulled == Some([]);
        if i < |init| {
          assert init[i] == rounds[i];
        }
      }
      if EndOfSource(init) {
        var i :| 0 <= i < |init| && init[i].pulled == Some([]);
        assert rounds[i] == init[i];
      }
    }
  }

  /**
   * Draining never returns more than was asked for: the received samples total at most `count`
   * and are whole frames.
   */
  lemma {:induction false} DrainBounded(rounds: seq<Round>, count: nat, channels: nat)
    requires channels > 0 && DrainsRemaining(rounds, count, channels)
    ensures |Received(rounds)| <= count
    ensures Frames.Whole(|Received(rounds)|, channels)
    decreases |rounds|
  {
    if rounds == [] {
      assert Frames.FramesIn(0, channels) == 0;
    } else {
      var init, last := rounds[..|rounds| - 1], rounds[|rounds| - 1];
      DrainBounded(init, count, channels);
      var done := |Received(init)|;
      assert RoundDrains(last, done, count, channels);
      Frames.FramesInWithin(count - done, channels);
      Frames.AddWhole(done, |last.received|, channels);
    }
  }

  /** A round that agrees with the engine and the source and starts where the earlier rounds left off extends the chain. */
  lemma ChainStep(fifo0: seq<real>, position0: nat, rounds: seq<Round>, r: Round, bufferLength: nat,
                  sourceLength: nat, channels: nat)
    requires channels > 0 && Chained(fifo0, position0, rounds, bufferLength, sourceLength, channels)
    requires RoundAgrees(r, bufferLength, sourceLength, channels)
    requires r.fifo == FifoAfter(fifo0, rounds) && r.position == PositionAfter(position0, rounds)
    ensures Chained(fifo0, position0, rounds + [r], bufferLength, sourceLength, channels)
    ensures FifoAfter(fifo0, rounds + [r]) == r.left
    ensures PositionAfter(position0, rounds + [r]) == r.position + |PulledBy(r)|
  {
    assert (rounds + [r])[..|rounds|] == rounds;
  }

  /**
   * The chain read round by round: round `i` agrees with the engine and the source and starts
   * from the FIFO and the position that the rounds before it left.
   */
  lemma {:induction false} ChainLinks(fifo0: seq<real>, position0: nat, rounds: seq<Round>, bufferLength: nat,
                                      sourceLength: nat, channels: nat)
    requires channels > 0 && Chained(fifo0, position0, rounds, bufferLength, sourceLength, channels)
    ensures forall i :: 0 <= i < |rounds| ==>
              RoundAgrees(rounds[i], bufferLength, sourceLength, channels)
              && rounds[i].fifo == FifoAfter(fifo0, rounds[..i]) && rounds[i].position == PositionAfter(position0, rounds[..i])
    decreases |rounds|
  {
    if rounds != [] {
      var init := rounds[..|rounds| - 1];
      ChainLinks(fifo0, position0, init, bufferLength, sourceLength, channels);
      forall i | 0 <= i < |rounds|
        ensures RoundAgrees(rounds[i], bufferLength, sourceLength, channels)
                && rounds[i].fifo == FifoAfter(fifo0, rounds[..i]) && rounds[i].position == PositionAfter(position0, rounds[..i])
      {
        if i < |init| {
          assert rounds[i] == init[i] && rounds[..i] == init[..i];
        } else {
          assert rounds[..i] == init;
        }
      }
    }
  }

  /**
   * When the last round of a Read, with fewer than `count` samples received, asked the engine
   * for the missing frames and got nothing, the engine's FIFO is left empty.
   */
  lemma ShortReadDrainsEngine(fifo0: seq<real>, position0: nat, rounds: seq<Round>, bufferLength: nat,
                               sourceLength: nat, count: nat, channels: nat)
    requires channels > 0 && Frames.Whole(count, channels)
    requires Chained(fifo0, position0, rounds, bufferLength, sourceLength, channels)
    requires DrainsRemaining(rounds, count, channels)
    requires rounds != [] && rounds[|rounds| - 1].received == [] && |Received(rounds)| < count
    ensures FifoAfter(fifo0, rounds) == []
  {
    var init, last := rounds[..|rounds| - 1], rounds[|rounds| - 1];
    DrainBounded(init, count, channels);
    var done := |Received(init)|;
    assert Received(rounds) == Received(init) + [];
    Frames.FramesBetween(count, done, channels);
    var frames := Min(last.desired, Frames.FramesIn(|last.fed|, channels));
    Frames.SamplesMono(0, frames, channels);
    assert Frames.FramesIn(|last.fed|, channels) == 0;
  }

  /** A round that receives nothing ran while samples were missing, so the Read it ends is short. */
  lemma StopsShort(rounds: seq<Round>, count: nat, channels: nat)
    requires channels > 0 && DrainsRemaining(rounds, count, channels)
    requires rounds != [] && rounds[|rounds| - 1].received == []
    ensures |Received(rounds)| < count
  {
    assert Received(rounds) == Received(rounds[..|rounds| - 1]) + [];
  }

  /**
   * Once the source is exhausted and the engine is drained, a Read returns nothing: its first
   * round finds the FIFO empty, reads nothing from the source and flushes, and when the flush
   * yields no output the loop breaks after that round.
   */
  lemma DrainedReadIsEmpty(rounds: seq<Round>, bufferLength: nat, sourceLength: nat, count: nat, channels: nat)
    requires channels > 0
    requires Chained([], sourceLength, rounds, bufferLength, sourceLength, channels)
    requires PullsOnlyWhenEmpty(rounds) && DrainsRemaining(rounds, count, channels) && RunsOn(rounds)
    requires |Received(rounds)| == count || Stops(rounds)
    requires rounds != [] ==> rounds[0].fed == []
    ensures Received(rounds) == [] && |rounds| <= 1
  {
    if rounds != [] {
      ChainLinks([], sourceLength, rounds, bufferLength, sourceLength, channels);
      var first := rounds[0];
      assert rounds[..0] == [];
      assert first.pulled == Some([]);
      Frames.SamplesMono(0, Min(first.desired, Frames.FramesIn(|first.fed|, channels)), channels);
      assert first.received == [];
      assert Stops(rounds[..1]) by { assert rounds[..1] == [first] && [first][0] == first; }
      if |rounds| > 1 {
        RunsOnPrefix(rounds, 1);
      }
      assert rounds == [first];
    }
  }

  /** The loop went on after each proper non-empty prefix of a run. */
  lemma {:induction false} RunsOnPrefix(rounds: seq<Round>, k: nat)
    requires RunsOn(rounds) && 1 <= k < |rounds|
    ensures RunsOn(rounds[..k]) && !Stops(rounds[..k])
    decreases |rounds|
  {
    var init := rounds[..|rounds| - 1];
    if k < |init| {
      RunsOnPrefix(init, k);
      assert init[..k] == rounds[..k];
    } else {
      assert init == rounds[..k];
    }
  }
}
