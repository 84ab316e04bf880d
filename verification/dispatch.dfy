/**
  The effect dispatcher: `updateEffectProc` picks the per-buffer processing
  routine from the effect bits and from whether the NEON routines may be
  used. The routines themselves are only tags here.
 */
module Dispatch {
  import opened EffectFlags

  /** The routines defined in the engine itself, or the external NEON ones. */
  datatype Backend = Plain | Neon

  /** `processNull` is shared by both backends. */
  datatype Routine =
    | Null
    | EqualizerProc(backend: Backend)
    | VirtualizerProc(backend: Backend)
    | EffectsProc(backend: Backend)

  function BackendFor(neonMode: bool): Backend {
    if neonMode then Neon else Plain
  }

  /**
    `updateEffectProc`. The virtualizer bit is tested first; bass boost runs
    through the equalizer routine because both share the filter bank. The x86
    build takes the same choice as the ARM build with `neonMode` off.
   */
  function SelectRoutine(f: Flags, neonMode: bool): (r: Routine)
    ensures r.Null? <==> f & ALL_EFFECTS == 0
    ensures r.EffectsProc? <==> f & VIRTUALIZER != 0 && f & FILTER_BANK != 0
    ensures r.VirtualizerProc? <==> f & VIRTUALIZER != 0 && f & FILTER_BANK == 0
    ensures r.EqualizerProc? <==> f & VIRTUALIZER == 0 && f & FILTER_BANK != 0
    ensures !r.Null? ==> (r.backend == Neon <==> neonMode)
  {
    var backend := BackendFor(neonMode);
    if f & VIRTUALIZER != 0 then
      (if f & FILTER_BANK != 0 then EffectsProc(backend) else VirtualizerProc(backend))
    else if f & FILTER_BANK != 0 then
      EqualizerProc(backend)
    else
      Null
  }

  /**
    Reference table of the dispatch over the three effect switches,
    written independently of the bit encoding.
   */
  function ExpectedRoutine(equalizer: bool, bassBoost: bool, virtualizer: bool, neonMode: bool): Routine {
    var b := BackendFor(neonMode);
    match (equalizer || bassBoost, virtualizer)
    case (true, true) => EffectsProc(b)
    case (false, true) => VirtualizerProc(b)
    case (true, false) => EqualizerProc(b)
    case (false, false) => Null
  }

  /** The bit-level dispatch agrees with the reference table for every flag word. */
  lemma SelectRoutineMatchesTable(f: Flags, neonMode: bool)
    ensures SelectRoutine(f, neonMode) ==
            ExpectedRoutine(f & EQUALIZER != 0, f & BASSBOOST != 0, f & VIRTUALIZER != 0, neonMode)
  {
  }
}
