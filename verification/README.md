# Audio effects engine control plane, in Dafny

This project models the control plane of FPlayAndroid's native audio effects
engine (`jni/x/Effects.h`). It covers everything in that file that is not
floating-point signal processing:

- the effect switches (`effectsEnabled`: EQUALIZER=1, BASSBOOST=2, VIRTUALIZER=4), with their toggles and getters;
- the ten equalizer band levels, kept here as integer millibels clamped to ±1500;
- the bass-boost and virtualizer strengths, clamped to [0, 1000];
- `equalizerMaxBandCount`, derived from the output sample rate;
- the automatic gain control (AGC) state: the switch, the "must reduce" flag, the recovery hold-off counter, the clip gain and the per-frame rate factors;
- the dispatched processing routine;
- the null routine `processNull`.

The engine's globals become one immutable `Effects.Engine` value, and every
entry point becomes a pure function from an engine to a new one. Filter
coefficients are not modelled. Instead, every transition returns an
`Effects.Step`, which records two things. `recomputed` is the set of band
indices passed to `computeFilter`. `virtualizer` is the ordered list of calls
to the virtualizer's lifecycle hooks, which are empty in the engine.
This makes the fan-out rules checkable:

- a single band recomputes itself and its neighbours;
- the bulk setter and `enableBassBoost` recompute the whole bank;
- `enableEqualizer` and `setBassBoostStrength` recompute the whole bank only while bass boost is on;
- `virtualizerConfigChanged` does nothing while the virtualizer is off.

Integer widths are explicit. `equalizerMaxBandCount - 1` is computed modulo
2^32 (`Ints.Sub32`), as the C code does. Between `initializeEffects`, which
sets the count to 0, and the first `equalizerConfigChanged`, the test
`band < equalizerMaxBandCount - 1` is therefore always true. So
`setEqualizerBandLevel(9, …)` also calls `computeFilter(10)`, an index outside
the ten-band bank. `EngineProperties.BandLevelBeforeConfigReachesPastBank`
proves this. `Sessions.RunRecomputesInsideBank` proves the converse: once a
band count is set, no sequence of calls that does not call `initializeEffects`
asks for an index outside the bank.
The `memcpy` byte count in `processNull`, `sizeInFrames << 2`, is also a
`uint32_t`. It is modelled with its wrap-around (`Ints.Shl2`,
`NullRoutine.CopiedSamples`).

The modules follow the engine's parts. `Ints` holds the machine integers and
clamping. `EffectFlags` holds the bit set. `Dispatch` holds `updateEffectProc`.
`Effects` holds the engine state and entry points. `NullRoutine` holds
`processNull`. `EngineProperties` relates entry points to each other:
round trips, fan-out and bulk-versus-single-band. `Sessions` holds arbitrary
call sequences and the invariants they keep.

Two facts about the code shape the model:

- No enable toggle resets the filter history or the AGC. Only `equalizerConfigChanged`, `initializeEffects` and `enableAutomaticEffectsGain(0)` do, and the last one resets only the AGC.
- `equalizerMaxBandCount` is 0 from `initializeEffects` (`jni/x/Effects.h:177`) until the first `equalizerConfigChanged`, and 6 to 10 after it.

## Model

| member | source | states |
|---|---|---|
| Ints.Sub32 | jni/x/Effects.h:364 | unsigned 32-bit subtraction: the plain difference when it is non-negative, otherwise 2^32 minus the shortfall; congruent to the difference modulo 2^32 |
| Ints.Shl2 | jni/x/Effects.h:199 | `x << 2` on uint32: equals 4x below 2^30, is always a multiple of 4, and is 4 times x reduced modulo 2^30 |
| Ints.Clamp | jni/x/Effects.h:358 | the stored value lies in [lo, hi], equals the input when it is already in range, and is the nearer bound otherwise |
| EffectFlags.Toggle | jni/x/Effects.h:335-339 | after an enable/disable, the effect's own bit is set exactly when the argument is non-zero; each of the other two bits is unchanged; no bit outside the three is ever introduced |
| Dispatch.SelectRoutine | jni/x/Effects.h:444-469 | virtualizer with equalizer or bass boost selects the combined routine; virtualizer alone selects the virtualizer routine; equalizer or bass boost without virtualizer selects the equalizer routine; no effect bit selects the null routine; non-null routines are the NEON ones exactly when `neonMode` is on |
| Dispatch.SelectRoutineMatchesTable | jni/x/Effects.h:453-467 | for every flag word, the bit-level dispatch equals an independent table over the three on/off switches |
| Effects.UpdateEffectProc | jni/x/Effects.h:444-451 | the routine afterwards is the one the current switches call for, and no other state changes |
| Effects.ResetEqualizer | jni/x/Effects.h:110-120 | clip gain back to 1, must-reduce 0, hold-off 0x7FFFFFFF, filter history zeroed; the AGC switch, rates and all other state unchanged |
| Effects.BandCountFor | jni/x/Effects.h:131-140 | the band count is in [6, 10]; it is 10 exactly above 32000 Hz, at least 9 exactly above 16000, at least 8 exactly above 8000, at least 7 exactly above 4000 |
| Effects.EqualizerConfigChanged | jni/x/Effects.h:128-151 | sets the band count for the new rate and the AGC rates from that rate, recomputes all ten bands, leaves the AGC at rest with its switch unchanged and the history cleared; switches, levels, strengths and routine unchanged |
| Effects.VirtualizerConfigChanged | jni/x/Effects.h:157-171 | calls no hook while the virtualizer bit is clear; otherwise calls destroy, recompute and reset in that order; never changes the engine or recomputes a band |
| Effects.InitializeEffects | jni/x/Effects.h:173-194 | all switches off, levels and strengths 0, band count 0, AGC enabled and at rest with neutral rates, history cleared, null routine, no band recomputed, only the virtualizer reset hook called; the result satisfies the engine invariant |
| Effects.EnableAutomaticEffectsGain | jni/x/Effects.h:93-104 | stores the raw argument; with 0 the AGC returns to rest (clip gain 1, must-reduce 0, hold-off 0x7FFFFFFF); with non-zero the rest of the AGC state is untouched; nothing outside the AGC changes |
| Effects.CurrentAutomaticEffectsGainInMB | jni/x/Effects.h:89-91 | reads 0 whenever the AGC is off, no effect bit is set, or the clip gain is 1; any non-zero reading is the reduced gain's millibel value |
| Effects.EnableEqualizer | jni/x/Effects.h:335-348 | sets the equalizer bit iff the argument is non-zero, keeps the other bits, recomputes all bands exactly when bass boost is on, re-dispatches, and changes nothing else |
| Effects.IsAutomaticEffectsGainEnabled | jni/x/Effects.h:106-108 | returns the raw stored switch value, not normalised to 0 or 1; while it reads 0 the gain reading is 0 whatever the reduced gain |
| Effects.BandNeighbours | jni/x/Effects.h:360-365 | the band itself is always recomputed, nothing beyond its two neighbours is; the band below iff the band is above 0; the band above iff `band < count - 1` in uint32 arithmetic, which once a count is set means iff the band above is below the count |
| Effects.IsEqualizerEnabled | jni/x/Effects.h:350-352 | returns the raw equalizer bit: 1 when set, 0 otherwise |
| Effects.SetEqualizerBandLevel | jni/x/Effects.h:354-366 | a band of 10 or more changes nothing; otherwise stores the clamped level for that band only and recomputes that band, the band below iff it exists, and the band above iff `band < count - 1` in uint32 arithmetic |
| Effects.SetEqualizerBandLevels | jni/x/Effects.h:368-380 | a null array changes nothing; otherwise every band stores its clamped level and all ten bands are recomputed |
| Effects.EnableBassBoost | jni/x/Effects.h:382-393 | sets the bass-boost bit iff the argument is non-zero, keeps the other bits, always recomputes all ten bands, re-dispatches, and changes nothing else |
| Effects.IsBassBoostEnabled | jni/x/Effects.h:395-397 | returns 1 when the bass-boost bit is set and 0 otherwise |
| Effects.SetBassBoostStrength | jni/x/Effects.h:399-407 | stores the strength clamped to [0, 1000] and recomputes all bands exactly when bass boost is on |
| Effects.EnableVirtualizer | jni/x/Effects.h:413-426 | sets the virtualizer bit iff the argument is non-zero, keeps the other bits, rebuilds the virtualizer when it is now on and only destroys it when it is now off, re-dispatches |
| Effects.GetBassBoostRoundedStrength | jni/x/Effects.h:409-411 | returns the stored strength unchanged whenever it fits in int32, and a value in [0, 1000] for any engine satisfying the invariant |
| Effects.IsVirtualizerEnabled | jni/x/Effects.h:428-430 | returns 1 when the virtualizer bit is set and 0 otherwise |
| Effects.SetVirtualizerStrength | jni/x/Effects.h:432-438 | stores the strength clamped to [0, 1000] and calls the virtualizer's recompute hook exactly when the virtualizer is on |
| Effects.GetVirtualizerRoundedStrength | jni/x/Effects.h:440-442 | returns the stored strength unchanged whenever it fits in int32, and a value in [0, 1000] for any engine satisfying the invariant |
| Effects.AsInt32 | jni/x/Effects.h:409-411 | the signed reading of a stored unsigned strength: equal to it below 2^31, congruent to it modulo 2^32 |
| NullRoutine.CopiedSamples | jni/x/Effects.h:199 | the copy covers 2 samples per frame for sizes below 2^30 frames, and in general twice the size reduced modulo 2^30 |
| NullRoutine.ProcessNull | jni/x/Effects.h:196-200 | the destination's copied prefix equals the source, the rest of the destination is untouched, the same buffer is left unchanged, and a whole-buffer copy makes the destination equal to the source |
| EngineProperties.StrengthRoundTrip | jni/x/Effects.h:399-442 | each strength getter returns exactly the clamped value its setter stored |
| EngineProperties.EqualizerSwitchRoundTrip | jni/x/Effects.h:335-352 | after `enableEqualizer(x)` the equalizer reads 1 iff x is non-zero, and the bass-boost and virtualizer getters read as before |
| EngineProperties.BassBoostSwitchRoundTrip | jni/x/Effects.h:382-397 | after `enableBassBoost(x)` bass boost reads 1 iff x is non-zero, and the other two getters read as before |
| EngineProperties.VirtualizerSwitchRoundTrip | jni/x/Effects.h:413-430 | after `enableVirtualizer(x)` the virtualizer reads 1 iff x is non-zero, and the other two getters read as before |
| EngineProperties.AgcSwitchRoundTrip | jni/x/Effects.h:89-120 | the AGC getter returns the raw stored argument; the gain reading is 0 after the AGC is switched off and after `resetEqualizer` |
| EngineProperties.BandCountMonotone | jni/x/Effects.h:131-140 | a higher sample rate never gives fewer bands |
| EngineProperties.BandNeighboursInsideBank | jni/x/Effects.h:360-365 | once a band count is set, the band above is recomputed iff it is below the count, and every recomputed index is a band of the bank |
| EngineProperties.BandLevelBeforeConfigReachesPastBank | jni/x/Effects.h:364-365 | right after `initializeEffects` (count 0, line 177) every band also recomputes the band above, so band 9 asks for filter 10 |
| EngineProperties.SetBandsFromLevels | jni/x/Effects.h:354-358 | setting bands from..9 one at a time stores their clamped levels, keeps the lower bands, and changes nothing but levels |
| EngineProperties.BulkLevelsMatchSingleBandCalls | jni/x/Effects.h:354-380 | whatever the band count, the bulk setter leaves the same engine as ten single-band calls for bands 0 to 9 |
| EngineProperties.BulkRecomputesSingleBandFanOut | jni/x/Effects.h:360-379 | for an engine satisfying the invariant with a band count set (non-zero), the bulk setter recomputes every filter that any single-band call would |
| EngineProperties.BulkMissesWrappedNeighbour | jni/x/Effects.h:360-379 | with the band count still 0, the single-band call for band 9 asks for filter 10 but the bulk setter does not, so the bulk setter's recomputations no longer cover the single-band fan-out |
| EngineProperties.BassBoostAloneUsesEqualizerRoutine | jni/x/Effects.h:461-464 | with no effect on, enabling bass boost alone dispatches the equalizer routine |
| Sessions.ApplyKeepsInvariant | jni/x/Effects.h:335-442 | every entry point keeps flags within the three bits, levels within ±1500, strengths within [0, 1000], band count 0 or 6 to 10, and the routine matching the switches |
| Sessions.RunKeepsInvariant | jni/x/Effects.h:335-469 | the same invariant holds after any sequence of calls from an engine that satisfies it |
| Sessions.ApplyRecomputesInsideBank | jni/x/Effects.h:342-406 | with a band count set, no single call other than `initializeEffects` recomputes an index outside the bank, and the count stays set |
| Sessions.RunRecomputesInsideBank | jni/x/Effects.h:128-151 | after the first sample-rate notification, no sequence of calls without `initializeEffects` asks `computeFilter` for an index outside the bank |
| Sessions.DispatchScenario | jni/x/Effects.h:444-469 | from a fresh engine: equalizer on gives the equalizer routine, adding the virtualizer gives the combined routine, dropping the equalizer gives the virtualizer routine, dropping the virtualizer gives the null routine |

## Left out

- Filter coefficients and `computeFilter`: `Filter.h` is not part of this model. Each call is recorded only as the band index it receives.
- The processing routines `processEqualizer`, `processVirtualizer` and `processEffects`, with their macros (`equalizerPlain`, `virtualizerPlain`, `floatToShortPlain`, `footerPlain` and the x86 variants): `EffectsImplMacros.h` is not part of this model, and the routines do 32-bit float DSP. The AGC's per-frame update, including the hold-off decrement at lines 203, 246 and 289, therefore has no model. So the filter history never moves from `Cleared` to `Live` in this model.
- The NEON routines `processEqualizerNeon`, `processVirtualizerNeon` and `processEffectsNeon` are external assembly. They appear only as the `Neon` backend tag of a dispatched routine.
- The SSE intrinsics of the x86 build are left out. On x86, `updateEffectProc` makes the same choice as the ARM build with `neonMode` off.
- Floating-point and transcendental maths are left out: `pow` and `log10` at lines 90 and 142-145, and the division of levels by 100 into dB floats. Levels stay in integer millibels. The AGC rates are recorded only as "neutral" or "derived from this sample rate".
- Effects.CurrentAutomaticEffectsGainInMB: the `(int32_t)(2000 * log10(gain))` value of a reduced gain is a parameter. The model proves only when the reading is 0.
- Effects.SetEqualizerBandLevels: the JNI array access (`GetPrimitiveArrayCritical`/`ReleasePrimitiveArrayCritical`) is modelled as a possibly-null sequence of 16-bit values. The sequence must hold at least ten entries, because the engine reads ten without checking.
- `neonMode` and `dstSampleRate` are set outside this file. `neonMode` is an engine field that no entry point changes, and the sample rate is an argument of `equalizerConfigChanged`.
- The virtualizer's `destroyVirtualizer`, `resetVirtualizer` and `recomputeVirtualizer` are empty. They are recorded by name in the order they are called.
- The engine's state before `initializeEffects` (zeroed globals, no routine) is not modelled. Every call sequence is meant to start from `initializeEffects`.
- The render path runs concurrently with the control path without synchronisation. That race has no counterpart in a sequential model.
