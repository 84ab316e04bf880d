/**
  Properties relating the engine's entry points to one another: getters read
  back what setters stored, every transition keeps the engine invariant, the
  single-band fan-out stays inside the bank once the band count is known,
  and the bulk level setter agrees with ten single-band calls.
 */
module EngineProperties {
  import opened Ints
  import opened EffectFlags
  import opened Dispatch
  import opened Effects

  // ---------------------------------------------------------------------
  // Getters read back what the setters stored
  // ---------------------------------------------------------------------

  /** Both strength getters return exactly the clamped value the setter stored. */
  lemma StrengthRoundTrip(e: Engine, strength: int32)
    ensures GetBassBoostRoundedStrength(SetBassBoostStrength(e, strength).engine) == Clamp(strength, 0, MAX_STRENGTH)
    ensures GetVirtualizerRoundedStrength(SetVirtualizerStrength(e, strength).engine) == Clamp(strength, 0, MAX_STRENGTH)
  {
  }

  /** The equalizer switch reads back as 0 or 1; the other two switches read as before. */
  lemma EqualizerSwitchRoundTrip(e: Engine, enabled: uint32)
    ensures IsEqualizerEnabled(EnableEqualizer(e, enabled).engine) == (if enabled != 0 then 1 else 0)
    ensures IsBassBoostEnabled(EnableEqualizer(e, enabled).engine) == IsBassBoostEnabled(e)
    ensures IsVirtualizerEnabled(EnableEqualizer(e, enabled).engine) == IsVirtualizerEnabled(e)
  {
  }

  /** The bass-boost switch reads back as 0 or 1; the other two switches read as before. */
  lemma BassBoostSwitchRoundTrip(e: Engine, enabled: uint32)
    ensures IsBassBoostEnabled(EnableBassBoost(e, enabled).engine) == (if enabled != 0 then 1 else 0)
    ensures IsEqualizerEnabled(EnableBassBoost(e, enabled).engine) == IsEqualizerEnabled(e)
    ensures IsVirtualizerEnabled(EnableBassBoost(e, enabled).engine) == IsVirtualizerEnabled(e)
  {
  }

  /** The virtualizer switch reads back as 0 or 1; the other two switches read as before. */
  lemma VirtualizerSwitchRoundTrip(e: Engine, enabled: int32)
    ensures IsVirtualizerEnabled(EnableVirtualizer(e, enabled).engine) == (if enabled != 0 then 1 else 0)
    ensures IsEqualizerEnabled(EnableVirtualizer(e, enabled).engine) == IsEqualizerEnabled(e)
    ensures IsBassBoostEnabled(EnableVirtualizer(e, enabled).engine) == IsBassBoostEnabled(e)
  {
  }

  /** The AGC switch reads back the raw value stored, and switching it off zeroes the gain reading. */
  lemma AgcSwitchRoundTrip(e: Engine, enabled: uint32, reducedGainInMB: int32)
    ensures IsAutomaticEffectsGainEnabled(EnableAutomaticEffectsGain(e, enabled)) == enabled
    ensures CurrentAutomaticEffectsGainInMB(EnableAutomaticEffectsGain(e, 0), reducedGainInMB) == 0
    ensures CurrentAutomaticEffectsGainInMB(ResetEqualizer(e), reducedGainInMB) == 0
  {
  }

  // ---------------------------------------------------------------------
  // Band count
  // ---------------------------------------------------------------------

  /** A higher output sample rate never enables fewer bands. */
  lemma BandCountMonotone(rate1: uint32, rate2: uint32)
    requires rate1 <= rate2
    ensures BandCountFor(rate1) <= BandCountFor(rate2)
  {
  }

  // ---------------------------------------------------------------------
  // Single-band fan-out
  // ---------------------------------------------------------------------

  /**
    Once `equalizerConfigChanged` has set a band count, the unsigned test
    `band < equalizerMaxBandCount - 1` is the plain "the band above is active",
    and every recomputed filter is a real band of the bank.
   */
  lemma BandNeighboursInsideBank(e: Engine, band: uint32, level: int32)
    requires Valid(e) && e.maxBandCount != 0
    requires band < BAND_COUNT
    ensures band + 1 in SetEqualizerBandLevel(e, band, level).recomputed <==> band + 1 < e.maxBandCount
    ensures SetEqualizerBandLevel(e, band, level).recomputed <= ALL_BANDS
  {
  }

  /**
    Before any `equalizerConfigChanged` the band count is 0, so
    `equalizerMaxBandCount - 1` wraps to 0xFFFFFFFF: every band also
    recomputes the band above it, and band 9 asks for filter 10, which is
    not a band of the bank.
   */
  lemma BandLevelBeforeConfigReachesPastBank(e: Engine, band: uint32, level: int32)
    requires band < BAND_COUNT
    ensures band + 1 in SetEqualizerBandLevel(InitializeEffects(e).engine, band, level).recomputed
    ensures band == 9 ==> BAND_COUNT in SetEqualizerBandLevel(InitializeEffects(e).engine, band, level).recomputed
  {
  }

  // ---------------------------------------------------------------------
  // Bulk levels against single-band levels
  // ---------------------------------------------------------------------

  /** The engine after `setEqualizerBandLevel(i, xs[i])` for the bands `from`..9, in order. */
  function SetBandsFrom(e: Engine, xs: seq<int16>, from: nat): Engine
    requires |xs| >= BAND_COUNT
    requires from <= BAND_COUNT
    decreases BAND_COUNT - from
  {
    if from == BAND_COUNT then e
    else SetBandsFrom(SetEqualizerBandLevel(e, from, xs[from]).engine, xs, from + 1)
  }

  /** Setting bands `from`..9 one at a time stores their clamped levels and keeps the lower bands. */
  lemma {:induction false} SetBandsFromLevels(e: Engine, xs: seq<int16>, from: nat)
    requires |xs| >= BAND_COUNT
    requires from <= BAND_COUNT
    ensures SetBandsFrom(e, xs, from) == e.(levels := SetBandsFrom(e, xs, from).levels)
    ensures forall i :: 0 <= i < from ==> SetBandsFrom(e, xs, from).levels[i] == e.levels[i]
    ensures forall i :: from <= i < BAND_COUNT ==>
              SetBandsFrom(e, xs, from).levels[i] == Clamp(xs[i], -DB_RANGE, DB_RANGE)
    decreases BAND_COUNT - from
  {
    if from < BAND_COUNT {
      var e1 := SetEqualizerBandLevel(e, from, xs[from]).engine;
      SetBandsFromLevels(e1, xs, from + 1);
    }
  }

  /**
    `setEqualizerBandLevels` leaves the engine exactly as ten calls of
    `setEqualizerBandLevel`, band 0 to band 9, would, whatever the band count.
   */
  lemma BulkLevelsMatchSingleBandCalls(e: Engine, xs: seq<int16>)
    requires |xs| >= BAND_COUNT
    ensures SetEqualizerBandLevels(e, Elements(xs)).engine == SetBandsFrom(e, xs, 0)
  {
  }

  /**
    Once a band count is set, the filters the bulk setter recomputes cover
    every filter each single-band call would recompute.
   */
  lemma BulkRecomputesSingleBandFanOut(e: Engine, xs: seq<int16>)
    requires |xs| >= BAND_COUNT
    requires Valid(e) && e.maxBandCount != 0
    ensures forall band: uint32 :: band < BAND_COUNT ==>
              SetEqualizerBandLevel(e, band, xs[band]).recomputed <= SetEqualizerBandLevels(e, Elements(xs)).recomputed
  {
  }

  /**
    With the band count still 0, the single-band call for band 9 asks for
    filter 10 while the bulk setter recomputes only the ten real bands, so
    the bulk setter no longer covers the single-band fan-out.
   */
  lemma BulkMissesWrappedNeighbour(e: Engine, xs: seq<int16>)
    requires |xs| >= BAND_COUNT
    requires e.maxBandCount == 0
    ensures BAND_COUNT in SetEqualizerBandLevel(e, 9, xs[9]).recomputed
    ensures BAND_COUNT !in SetEqualizerBandLevels(e, Elements(xs)).recomputed
  {
  }

  // ---------------------------------------------------------------------
  // Dispatch
  // ---------------------------------------------------------------------

  /** Bass boost alone is run by the equalizer routine, not by the null one. */
  lemma BassBoostAloneUsesEqualizerRoutine(e: Engine)
    requires e.flags == 0
    ensures EnableBassBoost(e, 1).engine.routine == EqualizerProc(BackendFor(e.neonMode))
  {
  }
}
