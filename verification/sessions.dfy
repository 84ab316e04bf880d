/**
  Sequences of control calls. A `Command` names one entry point of the
  engine with its arguments; `Run` applies a list of them in order and
  collects every filter recomputation and virtualizer hook they caused.
 */
module Sessions {
  import opened Ints
  import opened EffectFlags
  import opened Dispatch
  import opened Effects

  datatype Command =
    | Initialize
    | SampleRateChanged(dstSampleRate: uint32)
    | VirtualizerReconfigured
    | EqualizerReset
    | EqualizerSwitch(enabled: uint32)
    | BassBoostSwitch(enabled: uint32)
    | VirtualizerSwitch(venabled: int32)
    | AgcSwitch(enabled: uint32)
    | BandLevel(band: uint32, level: int32)
    | AllBandLevels(levels: ShortArray)
    | BassBoostAmount(strength: int32)
    | VirtualizerAmount(strength: int32)

  /** The only argument the engine trusts its caller with: a non-null level array has ten entries. */
  predicate CommandOk(c: Command) {
    c.AllBandLevels? && c.levels.Elements? ==> |c.levels.elems| >= BAND_COUNT
  }

  predicate AllOk(cmds: seq<Command>) {
    forall i :: 0 <= i < |cmds| ==> CommandOk(cmds[i])
  }

  function Apply(e: Engine, c: Command): Step
    requires CommandOk(c)
  {
    match c
    case Initialize => InitializeEffects(e)
    case SampleRateChanged(rate) => EqualizerConfigChanged(e, rate)
    case VirtualizerReconfigured => VirtualizerConfigChanged(e)
    case EqualizerReset => Step(ResetEqualizer(e), {}, [])
    case EqualizerSwitch(enabled) => EnableEqualizer(e, enabled)
    case BassBoostSwitch(enabled) => EnableBassBoost(e, enabled)
    case VirtualizerSwitch(enabled) => EnableVirtualizer(e, enabled)
    case AgcSwitch(enabled) => Step(EnableAutomaticEffectsGain(e, enabled), {}, [])
    case BandLevel(band, level) => SetEqualizerBandLevel(e, band, level)
    case AllBandLevels(levels) => SetEqualizerBandLevels(e, levels)
    case BassBoostAmount(strength) => SetBassBoostStrength(e, strength)
    case VirtualizerAmount(strength) => SetVirtualizerStrength(e, strength)
  }

  /** The final engine, every band recomputed along the way, and every virtualizer hook called, in order. */
  function Run(e: Engine, cmds: seq<Command>): Step
    requires AllOk(cmds)
    decreases |cmds|
  {
    if cmds == [] then Step(e, {}, [])
    else
      var s := Apply(e, cmds[0]);
      var rest := Run(s.engine, cmds[1..]);
      Step(rest.engine, s.recomputed + rest.recomputed, s.virtualizer + rest.virtualizer)
  }

  /**
    Every entry point keeps the engine invariant: flags within the three
    effect bits, levels within plus or minus 15 dB, strengths within
    [0, 1000], band count 0 or 6..10, and the dispatched routine matching
    the switches.
   */
  lemma ApplyKeepsInvariant(e: Engine, c: Command)
    requires CommandOk(c)
    requires Valid(e) && Consistent(e)
    ensures Valid(Apply(e, c).engine) && Consistent(Apply(e, c).engine)
  {
  }

  /** The invariant holds after any sequence of calls that starts from an engine satisfying it. */
  lemma {:induction false} RunKeepsInvariant(e: Engine, cmds: seq<Command>)
    requires AllOk(cmds)
    requires Valid(e) && Consistent(e)
    ensures Valid(Run(e, cmds).engine) && Consistent(Run(e, cmds).engine)
    decreases |cmds|
  {
    if cmds != [] {
      ApplyKeepsInvariant(e, cmds[0]);
      var s := Apply(e, cmds[0]);
      assert AllOk(cmds[1..]) by {
        forall i | 0 <= i < |cmds[1..]| ensures CommandOk(cmds[1..][i]) {
          assert cmds[1..][i] == cmds[i + 1];
        }
      }
      RunKeepsInvariant(s.engine, cmds[1..]);
    }
  }

  /**
    Once a band count has been set, every call short of re-initialization
    recomputes only bands of the bank and keeps a band count.
   */
  lemma ApplyRecomputesInsideBank(e: Engine, c: Command)
    requires CommandOk(c) && !c.Initialize?
    requires Valid(e) && e.maxBandCount != 0
    ensures Apply(e, c).recomputed <= ALL_BANDS
    ensures Apply(e, c).engine.maxBandCount != 0
  {
  }

  /**
    After the first sample-rate notification, no sequence of calls without
    `initializeEffects` asks `computeFilter` for an index outside the bank.
   */
  lemma {:induction false} RunRecomputesInsideBank(e: Engine, cmds: seq<Command>)
    requires AllOk(cmds)
    requires forall i :: 0 <= i < |cmds| ==> !cmds[i].Initialize?
    requires Valid(e) && Consistent(e) && e.maxBandCount != 0
    ensures Run(e, cmds).recomputed <= ALL_BANDS
    decreases |cmds|
  {
    if cmds != [] {
      ApplyKeepsInvariant(e, cmds[0]);
      ApplyRecomputesInsideBank(e, cmds[0]);
      var s := Apply(e, cmds[0]);
      var tail := cmds[1..];
      assert AllOk(tail) && forall i :: 0 <= i < |tail| ==> !tail[i].Initialize? by {
        forall i | 0 <= i < |tail| ensures CommandOk(tail[i]) && !tail[i].Initialize? {
          assert tail[i] == cmds[i + 1];
        }
      }
      RunRecomputesInsideBank(s.engine, tail);
    }
  }

  /**
    The dispatch scenario: from a fresh engine, the equalizer alone selects the
    equalizer routine, adding the virtualizer selects the combined routine,
    dropping the equalizer leaves the virtualizer routine, and dropping the
    virtualizer too brings back the null routine.
   */
  lemma DispatchScenario(e: Engine)
    ensures var b := BackendFor(e.neonMode);
            var e0 := InitializeEffects(e).engine;
            var e1 := EnableEqualizer(e0, 1).engine;
            var e2 := EnableVirtualizer(e1, 1).engine;
            var e3 := EnableEqualizer(e2, 0).engine;
            var e4 := EnableVirtualizer(e3, 0).engine;
            && e1.routine == EqualizerProc(b)
            && e2.routine == EffectsProc(b)
            && e3.routine == VirtualizerProc(b)
            && e4.routine == Null
  {
  }
}
