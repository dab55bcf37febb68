/**
 * What the provider's control operations say to the engine: the playback-rate setter and the
 * profile switch, each as the sequence of commands it issues, with the effect of that sequence
 * on the engine's settings.
 */
module Control {
  import opened Wrappers
  import opened SoundTouchEngine

  /** The tolerance of the rate comparisons: the smallest positive single-precision float, 2^-149. */
  const EPS: real := 1.0 / 713623846352979940529142984724747568191373312.0

  function Abs(x: real): real
  {
    if x < 0.0 then -x else x
  }

  /** Two rates the provider treats as different. */
  predicate Differs(a: real, b: real)
  {
    Abs(a - b) > EPS
  }

  /** The settings with the multiplier selected by the mode set to `m`: tempo in tempo mode, rate otherwise. */
  function Activate(s: Settings, m: real, tempoMode: bool): Settings
  {
    if tempoMode then s.(tempo := m) else s.(rate := m)
  }

  /** The commands pushing `value` into the engine, as UpdatePlaybackRate issues them. */
  function UpdateCommands(value: real, tempoMode: bool): (cmds: seq<Command>)
    ensures |cmds| <= 1
    ensures value == 0.0 <==> cmds == []
    ensures forall c :: c in cmds ==> c == (if tempoMode then SetTempo(value) else SetRate(value))
  {
    if value != 0.0 then [if tempoMode then SetTempo(value) else SetRate(value)] else []
  }

  /** The value the playback-rate field holds after the setter is given `value`. */
  function NextRate(current: real, value: real): (r: real)
    ensures r == current || r == value
    ensures Abs(r - value) <= EPS
    ensures !Differs(current, value) ==> r == current
  {
    if Differs(current, value) then value else current
  }

  /** The commands the playback-rate setter issues when the field holds `current`. */
  function RateCommands(current: real, value: real, tempoMode: bool): (cmds: seq<Command>)
    ensures |cmds| <= 1
    ensures !Differs(current, value) ==> cmds == []
    ensures forall c :: c in cmds ==>
              (c.SetTempo? && tempoMode && c.tempo == value != 0.0) || (c.SetRate? && !tempoMode && c.rate == value != 0.0)
  {
    if Differs(current, value) then UpdateCommands(value, tempoMode) else []
  }

  /** Applying at most one setting command is one Step. */
  lemma ApplyOne(s: Settings, c: Command)
    ensures Apply(s, [c]) == Step(s, c)
  {
    assert [c][..0] == [];
  }

  /**
   * The setter changes the engine only when the value differs from the current rate and is not
   * zero, and then only the multiplier the mode selects; a negative value is pushed like any other.
   */
  lemma RateSetterEffect(s: Settings, current: real, value: real, tempoMode: bool)
    ensures Apply(s, RateCommands(current, value, tempoMode))
         == if Differs(current, value) && value != 0.0 then Activate(s, value, tempoMode) else s
  {
    var cmds := RateCommands(current, value, tempoMode);
    if cmds != [] {
      ApplyOne(s, cmds[0]);
      assert cmds == [cmds[0]];
    }
  }

  /** Setting the same value twice reconfigures the engine at most once, and the second call changes nothing. */
  lemma RateSetterIdempotent(current: real, value: real, tempoMode: bool)
    ensures var once := NextRate(current, value);
            |RateCommands(current, value, tempoMode) + RateCommands(once, value, tempoMode)| <= 1
            && NextRate(once, value) == once
  {
  }

  /** Whether a profile switch hands the rate over from one multiplier to the other. */
  predicate HandoffNeeded(previousTempo: Option<bool>, rate: real, useTempo: bool)
  {
    previousTempo.Some? && Differs(rate, 1.0) && useTempo != previousTempo.value
  }

  /**
   * The commands that move `rate` from one multiplier to the other: reset the old multiplier to
   * unity (and, entering tempo mode, the pitch offset to zero), then set the new one.
   */
  function HandoffSteps(toTempo: bool, rate: real): seq<Command>
  {
    if toTempo then [SetRate(1.0), SetPitchOctaves(0.0), SetTempo(rate)]
    else [SetTempo(1.0), SetRate(rate)]
  }

  /** The continuity-preserving handoff of a profile switch, when one is needed. */
  function Handoff(previousTempo: Option<bool>, rate: real, useTempo: bool): seq<Command>
  {
    if HandoffNeeded(previousTempo, rate, useTempo) then HandoffSteps(useTempo, rate) else []
  }

  /**
   * The commands SetSoundTouchProfile issues. `previousTempo` is the tempo flag of the profile
   * in use before the call, None when there was none.
   */
  function ProfileCommands(previousTempo: Option<bool>, rate: real, useTempo: bool,
                           antiAliasing: bool, quickSeek: bool): (cmds: seq<Command>)
    ensures |cmds| >= 2
    ensures cmds[|cmds| - 2] == SetUseAntiAliasing(antiAliasing) && cmds[|cmds| - 1] == SetUseQuickSeek(quickSeek)
    ensures !HandoffNeeded(previousTempo, rate, useTempo) <==> |cmds| == 2
    ensures previousTempo.None? ==> |cmds| == 2
  {
    Handoff(previousTempo, rate, useTempo) + [SetUseAntiAliasing(antiAliasing), SetUseQuickSeek(quickSeek)]
  }

  /** The settings after the first `k + 1` commands are one Step after the first `k`. */
  lemma ApplyPrefix(s: Settings, cmds: seq<Command>, k: nat)
    requires k < |cmds|
    ensures Apply(s, cmds[..k + 1]) == Step(Apply(s, cmds[..k]), cmds[k])
  {
    assert cmds[..k + 1][..k] == cmds[..k];
  }

  /** Applying a sequence that starts with `c` is applying the rest after one Step. */
  lemma ApplyCons(s: Settings, c: Command, rest: seq<Command>)
    ensures Apply(s, [c] + rest) == Apply(Step(s, c), rest)
  {
    ApplyAppend(s, [c], rest);
    ApplyOne(s, c);
  }

  /** The settings after the handoff alone. */
  lemma HandoffEffect(s: Settings, previousTempo: Option<bool>, rate: real, useTempo: bool)
    ensures Apply(s, Handoff(previousTempo, rate, useTempo))
         == if !HandoffNeeded(previousTempo, rate, useTempo) then s
            else if useTempo then s.(rate := 1.0, pitchOctaves := 0.0, tempo := rate)
            else s.(tempo := 1.0, rate := rate)
  {
    if HandoffNeeded(previousTempo, rate, useTempo) {
      if useTempo {
        assert Handoff(previousTempo, rate, useTempo) == [SetRate(1.0)] + [SetPitchOctaves(0.0), SetTempo(rate)];
        ApplyCons(s, SetRate(1.0), [SetPitchOctaves(0.0), SetTempo(rate)]);
        assert [SetPitchOctaves(0.0), SetTempo(rate)] == [SetPitchOctaves(0.0)] + [SetTempo(rate)];
        ApplyCons(s.(rate := 1.0), SetPitchOctaves(0.0), [SetTempo(rate)]);
        ApplyOne(s.(rate := 1.0, pitchOctaves := 0.0), SetTempo(rate));
      } else {
        ApplyCons(s, SetTempo(1.0), [SetRate(rate)]);
        ApplyOne(s.(tempo := 1.0), SetRate(rate));
      }
    }
  }

  /**
   * The effect of a profile switch on the engine: both flags come from the new profile; with a
   * handoff to tempo mode the rate is back at unity, the pitch offset at zero and the tempo at the
   * current rate; with a handoff to rate mode the tempo is back at unity and the rate is the
   * current rate; without a handoff the multipliers are untouched.
   */
  lemma ProfileSwitchEffect(s: Settings, previousTempo: Option<bool>, rate: real,
                            useTempo: bool, antiAliasing: bool, quickSeek: bool)
    ensures var t := Apply(s, ProfileCommands(previousTempo, rate, useTempo, antiAliasing, quickSeek));
            var flags := s.(antiAliasing := antiAliasing, quickSeek := quickSeek);
            t == if !HandoffNeeded(previousTempo, rate, useTempo) then flags
                 else if useTempo then flags.(rate := 1.0, pitchOctaves := 0.0, tempo := rate)
                 else flags.(tempo := 1.0, rate := rate)
  {
    var h := Handoff(previousTempo, rate, useTempo);
    ApplyAppend(s, h, [SetUseAntiAliasing(antiAliasing), SetUseQuickSeek(quickSeek)]);
    HandoffEffect(s, previousTempo, rate, useTempo);
    var u := Apply(s, h);
    ApplyCons(u, SetUseAntiAliasing(antiAliasing), [SetUseQuickSeek(quickSeek)]);
    ApplyOne(u.(antiAliasing := antiAliasing), SetUseQuickSeek(quickSeek));
  }

  /** One multiplier at most is away from unity. */
  predicate OneMultiplier(s: Settings)
  {
    s.rate == 1.0 || s.tempo == 1.0
  }

  /** The multiplier the mode does not use is at unity. */
  predicate InactiveUnity(s: Settings, tempoMode: bool)
  {
    if tempoMode then s.rate == 1.0 else s.tempo == 1.0
  }

  /**
   * Continuity of a handoff: when the multiplier the old mode did not use is at unity, no
   * intermediate state of the switch has both rate and tempo away from unity, and afterwards the
   * new mode's unused multiplier is at unity and its own multiplier holds the current rate.
   */
  lemma HandoffContinuity(s: Settings, previousTempo: Option<bool>, rate: real,
                          useTempo: bool, antiAliasing: bool, quickSeek: bool)
    requires previousTempo.Some? && InactiveUnity(s, previousTempo.value)
    ensures var cmds := ProfileCommands(previousTempo, rate, useTempo, antiAliasing, quickSeek);
            forall k :: 0 <= k <= |cmds| ==> OneMultiplier(Apply(s, cmds[..k]))
    ensures var t := Apply(s, ProfileCommands(previousTempo, rate, useTempo, antiAliasing, quickSeek));
            HandoffNeeded(previousTempo, rate, useTempo) ==>
              InactiveUnity(t, useTempo) && (if useTempo then t.tempo else t.rate) == rate
  {
    var cmds := ProfileCommands(previousTempo, rate, useTempo, antiAliasing, quickSeek);
    var handoff := HandoffNeeded(previousTempo, rate, useTempo);
    forall k | 0 <= k <= |cmds|
      ensures OneMultiplier(Apply(s, cmds[..k]))
    {
      SwitchPrefix(s, cmds, handoff, useTempo, k);
    }
    ProfileSwitchEffect(s, previousTempo, rate, useTempo, antiAliasing, quickSeek);
  }

  /**
   * Every prefix of a switch: the multipliers are those of `s` while no handoff happens; once a
   * handoff has issued its first command, the new mode's unused multiplier stays at unity.
   */
  lemma {:induction false} SwitchPrefix(s: Settings, cmds: seq<Command>, handoff: bool, useTempo: bool, k: nat)
    requires OneMultiplier(s)
    requires !handoff ==> |cmds| == 2 && !cmds[0].SetRate? && !cmds[0].SetTempo?
                                      && !cmds[1].SetRate? && !cmds[1].SetTempo?
    requires handoff && useTempo ==> |cmds| == 5 && s.tempo == 1.0 && cmds[0] == SetRate(1.0)
                                      && forall i :: 1 <= i < 5 ==> !cmds[i].SetRate?
    requires handoff && !useTempo ==> |cmds| == 4 && s.rate == 1.0 && cmds[0] == SetTempo(1.0)
                                      && forall i :: 1 <= i < 4 ==> !cmds[i].SetTempo?
    requires k <= |cmds|
    ensures OneMultiplier(Apply(s, cmds[..k]))
    ensures !handoff ==> Apply(s, cmds[..k]).rate == s.rate && Apply(s, cmds[..k]).tempo == s.tempo
    ensures handoff && k >= 1 ==> InactiveUnity(Apply(s, cmds[..k]), useTempo)
  {
    if k == 0 {
      assert cmds[..0] == [];
    } else {
      SwitchPrefix(s, cmds, handoff, useTempo, k - 1);
      ApplyPrefix(s, cmds, k - 1);
    }
  }

  /**
   * The handoff does not apply the setter's zero guard: switching from tempo to rate mode while
   * the rate is 0 pushes a zero rate into the engine.
   */
  lemma HandoffAtZeroRate(antiAliasing: bool, quickSeek: bool)
    ensures SetRate(0.0) in ProfileCommands(Some(true), 0.0, false, antiAliasing, quickSeek)
    ensures SetTempo(0.0) in ProfileCommands(Some(false), 0.0, true, antiAliasing, quickSeek)
  {
    assert Differs(0.0, 1.0);
  }

  /**
   * Flipping the tempo flag of the profile already in use, rather than switching profiles, hands
   * nothing over: after a rate of 2 in rate mode and a rate of 3 in tempo mode, the engine runs
   * with both multipliers away from unity.
   */
  lemma LiveFlagFlipKeepsRate(s: Settings)
    requires s.rate == 1.0 && s.tempo == 1.0
    ensures var cmds := RateCommands(1.0, 2.0, false) + RateCommands(2.0, 3.0, true);
            cmds == [SetRate(2.0), SetTempo(3.0)]
            && !OneMultiplier(Apply(s, cmds))
  {
    var cmds := RateCommands(1.0, 2.0, false) + RateCommands(2.0, 3.0, true);
    assert cmds == [SetRate(2.0), SetTempo(3.0)];
    assert cmds[..1] == [SetRate(2.0)] && [SetRate(2.0)][..0] == [];
  }
}
