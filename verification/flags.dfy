/**
  The `effectsEnabled` bit set: one bit per effect, changed only by the
  enable/disable toggles, which OR the bit in or AND its complement out.
 */
module EffectFlags {

  type Flags = bv32

  const EQUALIZER: Flags := 1
  const BASSBOOST: Flags := 2
  const VIRTUALIZER: Flags := 4

  /** The bits that feed the filter bank: equalizer or bass boost. */
  const FILTER_BANK: Flags := EQUALIZER | BASSBOOST
  const ALL_EFFECTS: Flags := EQUALIZER | BASSBOOST | VIRTUALIZER

  datatype Effect = Equalizer | BassBoost | Virtualizer

  function Bit(x: Effect): Flags {
    match x
    case Equalizer => EQUALIZER
    case BassBoost => BASSBOOST
    case Virtualizer => VIRTUALIZER
  }

  /** No bit outside the three effect bits is set (they are the three lowest bits). */
  predicate WellFormed(f: Flags) {
    f <= ALL_EFFECTS
  }

  /** `flags |= bit` when `enabled` is non-zero, `flags &= ~bit` otherwise. */
  function Toggle(f: Flags, x: Effect, enabled: int): (r: Flags)
    ensures r & Bit(x) != 0 <==> enabled != 0
    ensures x != Equalizer ==> r & EQUALIZER == f & EQUALIZER
    ensures x != BassBoost ==> r & BASSBOOST == f & BASSBOOST
    ensures x != Virtualizer ==> r & VIRTUALIZER == f & VIRTUALIZER
    ensures WellFormed(f) ==> WellFormed(r)
  {
    match x
    case Equalizer => if enabled != 0 then f | EQUALIZER else f & !EQUALIZER
    case BassBoost => if enabled != 0 then f | BASSBOOST else f & !BASSBOOST
    case Virtualizer => if enabled != 0 then f | VIRTUALIZER else f & !VIRTUALIZER
  }
}
