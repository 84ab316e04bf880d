/**
  The control plane of the audio effects engine (jni/x/Effects.h): the
  effect switches, the band levels and strengths, the active band count,
  the automatic gain control (AGC) state and the dispatched routine.

  The engine's process-wide globals are gathered into one immutable
  `Engine` value and every entry point is a pure transition. Filter
  coefficients are not modelled: each call to `computeFilter(i)` is recorded
  as the index `i` in the `recomputed` set of the `Step` a transition
  returns, and each call to one of the (empty) virtualizer hooks is recorded,
  in order, in its `virtualizer` list.
 */
module Effects {
  import opened Ints
  import opened EffectFlags
  import opened Dispatch

  const BAND_COUNT: int := 10
  /** Band levels are limited to plus or minus 15 dB, in millibels. */
  const DB_RANGE: int := 1500
  const MAX_STRENGTH: int := 1000
  /** Hold-off value meaning "gain recovery is not armed". */
  const HOLD_OFF_DISARMED: int32 := 0x7FFF_FFFF

  /** Every band index of the filter bank. */
  const ALL_BANDS: set<int> := set i | 0 <= i < BAND_COUNT

  /** The per-band levels, in millibels (the engine keeps them as dB floats). */
  type BandLevels = s: seq<int> | |s| == BAND_COUNT witness [0, 0, 0, 0, 0, 0, 0, 0, 0, 0]

  /** The limiter's clip gain, observed only as "exactly 1" or "something else". */
  datatype ClipGain = Unity | Reduced

  /** The per-frame reduction and recovery factors: 1.0, or derived from a sample rate. */
  datatype GainRates = Neutral | DerivedFrom(sampleRate: uint32)

  /** The filter bank's recursive history (`equalizerSamples`, `effectsTemp`). */
  datatype History = Cleared | Live

  datatype Agc = Agc(
    enabled: uint32,
    mustReduce: int32,
    framesBeforeRecovering: int32,
    clip: ClipGain,
    rates: GainRates)

  datatype Engine = Engine(
    flags: Flags,
    levels: BandLevels,
    bassBoostStrength: uint32,
    virtualizerStrength: uint32,
    maxBandCount: uint32,
    agc: Agc,
    history: History,
    routine: Routine,
    /** Whether the NEON routines may be used; set outside the engine. */
    neonMode: bool)

  /** The empty virtualizer lifecycle hooks, recorded by name. */
  datatype VirtualizerHook = DestroyVirtualizer | RecomputeVirtualizer | ResetVirtualizer

  /** The new engine, the bands whose filters were recomputed, and the virtualizer hooks called. */
  datatype Step = Step(engine: Engine, recomputed: set<int>, virtualizer: seq<VirtualizerHook>)

  /** A Java `short[]` reference as the engine receives it: possibly null. */
  datatype ShortArray = NullArray | Elements(elems: seq<int16>)

  /** What every reachable engine satisfies. */
  ghost predicate Valid(e: Engine) {
    && WellFormed(e.flags)
    && (forall i :: 0 <= i < BAND_COUNT ==> -DB_RANGE <= e.levels[i] <= DB_RANGE)
    && e.bassBoostStrength <= MAX_STRENGTH
    && e.virtualizerStrength <= MAX_STRENGTH
    && (e.maxBandCount == 0 || 6 <= e.maxBandCount <= BAND_COUNT)
  }

  /** The dispatched routine is the one the current switches call for. */
  ghost predicate Consistent(e: Engine) {
    e.routine == SelectRoutine(e.flags, e.neonMode)
  }

  /** The AGC state left by a reset: no suppression, no reduction pending, recovery disarmed. */
  ghost predicate AgcAtRest(a: Agc) {
    a.clip == Unity && a.mustReduce == 0 && a.framesBeforeRecovering == HOLD_OFF_DISARMED
  }

  /** `(int32_t)` applied to a `uint32_t`: two's-complement reinterpretation. */
  function AsInt32(x: uint32): (r: int32)
    ensures x < 0x8000_0000 ==> r == x
    ensures r % TWO_TO_THE_32 == x % TWO_TO_THE_32
  {
    if x < 0x8000_0000 then x else x - TWO_TO_THE_32
  }

  // ---------------------------------------------------------------------
  // Dispatch, reset and lifecycle
  // ---------------------------------------------------------------------

  /** `updateEffectProc`: re-selects the routine and touches nothing else. */
  function UpdateEffectProc(e: Engine): (r: Engine)
    ensures Consistent(r)
    ensures r == e.(routine := r.routine)
  {
    e.(routine := SelectRoutine(e.flags, e.neonMode))
  }

  /** `resetEqualizer`: the limiter returns to rest and the filter history is zeroed. */
  function ResetEqualizer(e: Engine): (r: Engine)
    ensures AgcAtRest(r.agc)
    ensures r.history == Cleared
    ensures r.agc.enabled == e.agc.enabled && r.agc.rates == e.agc.rates
    ensures r == e.(agc := r.agc, history := Cleared)
  {
    e.(agc := e.agc.(clip := Unity, mustReduce := 0, framesBeforeRecovering := HOLD_OFF_DISARMED),
       history := Cleared)
  }

  /**
    `equalizerMaxBandCount` as `equalizerConfigChanged` derives it: a band is
    dropped for every halving of the rate at or below 32 kHz, down to six.
   */
  function BandCountFor(dstSampleRate: uint32): (c: uint32)
    ensures 6 <= c <= BAND_COUNT
    ensures c == 10 <==> dstSampleRate > 32000
    ensures c >= 9 <==> dstSampleRate > 16000
    ensures c >= 8 <==> dstSampleRate > 8000
    ensures c >= 7 <==> dstSampleRate > 4000
  {
    if dstSampleRate > 2 * 16000 then 10
    else if dstSampleRate > 2 * 8000 then 9
    else if dstSampleRate > 2 * 4000 then 8
    else if dstSampleRate > 2 * 2000 then 7
    else 6
  }

  /**
    `equalizerConfigChanged`, called when the output sample rate changes: sets
    the band count and the AGC rates for the new rate, recomputes all ten
    bands and resets the equalizer. The effect switches and routine stay.
   */
  function EqualizerConfigChanged(e: Engine, dstSampleRate: uint32): (r: Step)
    ensures r.engine.maxBandCount == BandCountFor(dstSampleRate)
    ensures r.engine.agc.rates == DerivedFrom(dstSampleRate)
    ensures AgcAtRest(r.engine.agc) && r.engine.agc.enabled == e.agc.enabled
    ensures r.engine.history == Cleared
    ensures r.recomputed == ALL_BANDS && r.virtualizer == []
    ensures r.engine == e.(maxBandCount := r.engine.maxBandCount, agc := r.engine.agc, history := Cleared)
  {
    var e1 := e.(maxBandCount := BandCountFor(dstSampleRate),
                 agc := e.agc.(rates := DerivedFrom(dstSampleRate)));
    Step(ResetEqualizer(e1), ALL_BANDS, [])
  }

  /**
    `virtualizerConfigChanged`: with the virtualizer off it returns at once;
    otherwise it destroys, recomputes and resets the virtualizer, in that order.
   */
  function VirtualizerConfigChanged(e: Engine): (r: Step)
    ensures r.engine == e && r.recomputed == {}
    ensures r.virtualizer == [] <==> e.flags & VIRTUALIZER == 0
    ensures r.virtualizer != [] ==> r.virtualizer == [DestroyVirtualizer, RecomputeVirtualizer, ResetVirtualizer]
  {
    if e.flags & VIRTUALIZER == 0 then Step(e, {}, [])
    else Step(e, {}, [DestroyVirtualizer, RecomputeVirtualizer, ResetVirtualizer])
  }

  /**
    `initializeEffects`: every effect off, levels and strengths zero, band
    count zero (it is set by the first `equalizerConfigChanged`), AGC enabled
    and at rest with neutral rates, and the null routine dispatched. No band
    filter is recomputed. Only `neonMode` survives from the previous state.
   */
  function InitializeEffects(e: Engine): (r: Step)
    ensures r.engine.flags == 0
    ensures forall i :: 0 <= i < BAND_COUNT ==> r.engine.levels[i] == 0
    ensures r.engine.bassBoostStrength == 0 && r.engine.virtualizerStrength == 0
    ensures r.engine.maxBandCount == 0
    ensures r.engine.agc.enabled == 1 && AgcAtRest(r.engine.agc) && r.engine.agc.rates == Neutral
    ensures r.engine.history == Cleared
    ensures r.engine.routine == Null
    ensures r.engine.neonMode == e.neonMode
    ensures Valid(r.engine) && Consistent(r.engine)
    ensures r.recomputed == {} && r.virtualizer == [ResetVirtualizer]
  {
    var e1 := e.(flags := 0, bassBoostStrength := 0, virtualizerStrength := 0, maxBandCount := 0,
                 agc := e.agc.(enabled := 1, rates := Neutral),
                 levels := [0, 0, 0, 0, 0, 0, 0, 0, 0, 0]);
    Step(UpdateEffectProc(ResetEqualizer(e1)), {}, [ResetVirtualizer])
  }

  // ---------------------------------------------------------------------
  // Automatic gain control
  // ---------------------------------------------------------------------

  /**
    `enableAutomaticEffectsGain`: stores the argument as given; switching the
    AGC off also returns the limiter to rest, switching it on changes nothing
    else. The filter history is not touched either way.
   */
  function EnableAutomaticEffectsGain(e: Engine, enabled: uint32): (r: Engine)
    ensures r.agc.enabled == enabled
    ensures enabled == 0 ==> AgcAtRest(r.agc)
    ensures enabled != 0 ==> r.agc == e.agc.(enabled := enabled)
    ensures r.agc.rates == e.agc.rates
    ensures r == e.(agc := r.agc)
  {
    var a := e.agc.(enabled := enabled);
    if enabled == 0 then
      e.(agc := a.(clip := Unity, mustReduce := 0, framesBeforeRecovering := HOLD_OFF_DISARMED))
    else
      e.(agc := a)
  }

  /** `isAutomaticEffectsGainEnabled`: the stored value, not normalised to 0 or 1. */
  function IsAutomaticEffectsGainEnabled(e: Engine): (r: uint32)
    ensures r == e.agc.enabled
    ensures r == 0 ==> forall g: int32 :: CurrentAutomaticEffectsGainInMB(e, g) == 0
  {
    e.agc.enabled
  }

  /**
    `getCurrentAutomaticEffectsGainInMB`. The conversion `2000 * log10(gain)`
    of a reduced gain is floating-point and is taken as the parameter
    `reducedGainInMB`; a unity gain reads as exactly 0, since log10(1) is 0.
   */
  function CurrentAutomaticEffectsGainInMB(e: Engine, reducedGainInMB: int32): (r: int32)
    ensures e.agc.enabled == 0 || e.flags == 0 ==> r == 0
    ensures e.agc.clip == Unity ==> r == 0
    ensures r != 0 ==> r == reducedGainInMB
  {
    if e.agc.enabled != 0 && e.flags != 0 then
      (if e.agc.clip == Unity then 0 else reducedGainInMB)
    else
      0
  }

  // ---------------------------------------------------------------------
  // Equalizer
  // ---------------------------------------------------------------------

  /**
    `enableEqualizer`: toggles the equalizer bit; when bass boost is on the
    whole bank is recomputed, because the boost is folded into the low bands.
   */
  function EnableEqualizer(e: Engine, enabled: uint32): (r: Step)
    ensures r.engine.flags & EQUALIZER != 0 <==> enabled != 0
    ensures r.engine.flags & BASSBOOST == e.flags & BASSBOOST
    ensures r.engine.flags & VIRTUALIZER == e.flags & VIRTUALIZER
    ensures r.recomputed == (if e.flags & BASSBOOST != 0 then ALL_BANDS else {})
    ensures r.virtualizer == []
    ensures Consistent(r.engine)
    ensures r.engine == e.(flags := r.engine.flags, routine := r.engine.routine)
  {
    var flags := Toggle(e.flags, Equalizer, enabled);
    var recomputed := if flags & BASSBOOST != 0 then ALL_BANDS else {};
    Step(UpdateEffectProc(e.(flags := flags)), recomputed, [])
  }

  /** `isEqualizerEnabled`: the raw equalizer bit, which is bit 0 and so reads 0 or 1. */
  function IsEqualizerEnabled(e: Engine): (r: uint32)
    ensures r == 0 || r == 1
    ensures r == 1 <==> e.flags & EQUALIZER != 0
  {
    (e.flags & EQUALIZER) as int
  }

  /**
    The filters `setEqualizerBandLevel` recomputes for `band`: the band below
    (if any), the band itself, and the band above when `band` is below
    `equalizerMaxBandCount - 1` computed in unsigned 32-bit arithmetic.
   */
  function BandNeighbours(band: uint32, maxBandCount: uint32): (r: set<int>)
    requires band < BAND_COUNT
    ensures band in r && r <= {band - 1, band, band + 1}
    ensures band - 1 in r <==> band > 0
    ensures band + 1 in r <==> band < Sub32(maxBandCount, 1)
    ensures maxBandCount != 0 ==> (band + 1 in r <==> band + 1 < maxBandCount)
  {
    (if band > 0 then {band - 1} else {})
    + {band}
    + (if band < Sub32(maxBandCount, 1) then {band + 1} else {})
  }

  /**
    `setEqualizerBandLevel`: an out-of-range band is ignored; otherwise the
    band's level is clamped to plus or minus 15 dB and its neighbourhood of
    filters recomputed. No other band level changes.
   */
  function SetEqualizerBandLevel(e: Engine, band: uint32, level: int32): (r: Step)
    ensures band >= BAND_COUNT ==> r == Step(e, {}, [])
    ensures band < BAND_COUNT ==> r.engine.levels[band] == Clamp(level, -DB_RANGE, DB_RANGE)
    ensures forall i :: 0 <= i < BAND_COUNT && i != band ==> r.engine.levels[i] == e.levels[i]
    ensures r.engine == e.(levels := r.engine.levels)
    ensures band < BAND_COUNT ==> band in r.recomputed && r.recomputed <= {band - 1, band, band + 1}
    ensures band < BAND_COUNT ==> (band - 1 in r.recomputed <==> band > 0)
    ensures band < BAND_COUNT ==> (band + 1 in r.recomputed <==> band < Sub32(e.maxBandCount, 1))
    ensures r.virtualizer == []
  {
    if band >= BAND_COUNT then Step(e, {}, [])
    else
      var levels := e.levels[band := Clamp(level, -DB_RANGE, DB_RANGE)];
      Step(e.(levels := levels), BandNeighbours(band, e.maxBandCount), [])
  }

  /**
    `setEqualizerBandLevels`: a null array changes nothing; otherwise the first
    ten levels are clamped and stored and the whole bank is recomputed.
   */
  function SetEqualizerBandLevels(e: Engine, levels: ShortArray): (r: Step)
    requires levels.Elements? ==> |levels.elems| >= BAND_COUNT
    ensures levels.NullArray? ==> r == Step(e, {}, [])
    ensures levels.Elements? ==>
              forall i :: 0 <= i < BAND_COUNT ==>
                r.engine.levels[i] == Clamp(levels.elems[i], -DB_RANGE, DB_RANGE)
    ensures levels.Elements? ==> r.recomputed == ALL_BANDS
    ensures r.engine == e.(levels := r.engine.levels)
    ensures r.virtualizer == []
  {
    match levels
    case NullArray => Step(e, {}, [])
    case Elements(xs) =>
      var stored := seq(BAND_COUNT, i requires 0 <= i < BAND_COUNT => Clamp(xs[i], -DB_RANGE, DB_RANGE));
      Step(e.(levels := stored), ALL_BANDS, [])
  }

  // ---------------------------------------------------------------------
  // Bass boost
  // ---------------------------------------------------------------------

  /** `enableBassBoost`: toggles the bit and recomputes the whole bank either way. */
  function EnableBassBoost(e: Engine, enabled: uint32): (r: Step)
    ensures r.engine.flags & BASSBOOST != 0 <==> enabled != 0
    ensures r.engine.flags & EQUALIZER == e.flags & EQUALIZER
    ensures r.engine.flags & VIRTUALIZER == e.flags & VIRTUALIZER
    ensures r.recomputed == ALL_BANDS && r.virtualizer == []
    ensures Consistent(r.engine)
    ensures r.engine == e.(flags := r.engine.flags, routine := r.engine.routine)
  {
    var flags := Toggle(e.flags, BassBoost, enabled);
    Step(UpdateEffectProc(e.(flags := flags)), ALL_BANDS, [])
  }

  /** `isBassBoostEnabled`: the bass-boost bit shifted down to 0 or 1. */
  function IsBassBoostEnabled(e: Engine): (r: uint32)
    ensures r == 0 || r == 1
    ensures r == 1 <==> e.flags & BASSBOOST != 0
  {
    ((e.flags & BASSBOOST) >> 1) as int
  }

  /** `setBassBoostStrength`: clamps into [0, 1000]; recomputes the bank only while bass boost is on. */
  function SetBassBoostStrength(e: Engine, strength: int32): (r: Step)
    ensures r.engine.bassBoostStrength == Clamp(strength, 0, MAX_STRENGTH)
    ensures r.recomputed == (if e.flags & BASSBOOST != 0 then ALL_BANDS else {})
    ensures r.virtualizer == []
    ensures r.engine == e.(bassBoostStrength := r.engine.bassBoostStrength)
  {
    var stored := Clamp(strength, 0, MAX_STRENGTH);
    var recomputed := if e.flags & BASSBOOST != 0 then ALL_BANDS else {};
    Step(e.(bassBoostStrength := stored), recomputed, [])
  }

  /** `getBassBoostRoundedStrength`: the stored strength, as a signed 32-bit value. */
  function GetBassBoostRoundedStrength(e: Engine): (r: int32)
    ensures e.bassBoostStrength < 0x8000_0000 ==> r == e.bassBoostStrength
    ensures Valid(e) ==> 0 <= r <= MAX_STRENGTH
  {
    AsInt32(e.bassBoostStrength)
  }

  // ---------------------------------------------------------------------
  // Virtualizer
  // ---------------------------------------------------------------------

  /**
    `enableVirtualizer`: toggles the bit, then rebuilds the virtualizer when it
    is now on and destroys it when it is now off.
   */
  function EnableVirtualizer(e: Engine, enabled: int32): (r: Step)
    ensures r.engine.flags & VIRTUALIZER != 0 <==> enabled != 0
    ensures r.engine.flags & EQUALIZER == e.flags & EQUALIZER
    ensures r.engine.flags & BASSBOOST == e.flags & BASSBOOST
    ensures enabled != 0 ==> r.virtualizer == [DestroyVirtualizer, RecomputeVirtualizer, ResetVirtualizer]
    ensures enabled == 0 ==> r.virtualizer == [DestroyVirtualizer]
    ensures r.recomputed == {}
    ensures Consistent(r.engine)
    ensures r.engine == e.(flags := r.engine.flags, routine := r.engine.routine)
  {
    var e1 := e.(flags := Toggle(e.flags, Virtualizer, enabled));
    var hooks :=
      if e1.flags & VIRTUALIZER != 0 then VirtualizerConfigChanged(e1).virtualizer
      else [DestroyVirtualizer];
    Step(UpdateEffectProc(e1), {}, hooks)
  }

  /** `isVirtualizerEnabled`: the virtualizer bit shifted down to 0 or 1. */
  function IsVirtualizerEnabled(e: Engine): (r: uint32)
    ensures r == 0 || r == 1
    ensures r == 1 <==> e.flags & VIRTUALIZER != 0
  {
    ((e.flags & VIRTUALIZER) >> 2) as int
  }

  /** `setVirtualizerStrength`: clamps into [0, 1000]; recomputes the virtualizer only while it is on. */
  function SetVirtualizerStrength(e: Engine, strength: int32): (r: Step)
    ensures r.engine.virtualizerStrength == Clamp(strength, 0, MAX_STRENGTH)
    ensures r.virtualizer == (if e.flags & VIRTUALIZER != 0 then [RecomputeVirtualizer] else [])
    ensures r.recomputed == {}
    ensures r.engine == e.(virtualizerStrength := r.engine.virtualizerStrength)
  {
    var stored := Clamp(strength, 0, MAX_STRENGTH);
    var hooks := if e.flags & VIRTUALIZER != 0 then [RecomputeVirtualizer] else [];
    Step(e.(virtualizerStrength := stored), {}, hooks)
  }

  /** `getVirtualizerRoundedStrength`: the stored strength, as a signed 32-bit value. */
  function GetVirtualizerRoundedStrength(e: Engine): (r: int32)
    ensures e.virtualizerStrength < 0x8000_0000 ==> r == e.virtualizerStrength
    ensures Valid(e) ==> 0 <= r <= MAX_STRENGTH
  {
    AsInt32(e.virtualizerStrength)
  }
}
