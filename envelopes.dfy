/**
 * The attack envelope several scenes keep (StarryLake, ElevatorShaft, LunarPhases,
 * DigitalCurtain's flash): when an attack value passes its threshold the envelope jumps to a
 * peak, and every frame it is multiplied by a decay factor below 1.
 */
module Envelopes {
  import opened Utils

  /** `if (attack > threshold) effect = peak;` */
  function Triggered(e: real, attack: real, threshold: real, peak: real): (r: real)
    ensures attack > threshold ==> r == peak
    ensures attack <= threshold ==> r == e
  {
    if attack > threshold then peak else e
  }

  /** `effect *= factor;` */
  function Decayed(e: real, factor: real): real {
    e * factor
  }

  /**
   * An envelope in [0, peak] stays in [0, peak] through a trigger and a decay by a factor in
   * [0, 1]; without a trigger it never grows.
   */
  lemma EnvelopeBounds(e: real, attack: real, threshold: real, peak: real, factor: real)
    requires 0.0 <= e <= peak && 0.0 <= factor <= 1.0
    ensures 0.0 <= Triggered(e, attack, threshold, peak) <= peak
    ensures 0.0 <= Decayed(Triggered(e, attack, threshold, peak), factor) <= peak
    ensures attack <= threshold ==> Decayed(Triggered(e, attack, threshold, peak), factor) <= e
  {
    var t := Triggered(e, attack, threshold, peak);
    MulNonneg(t, factor);
    MulNonneg(t, 1.0 - factor);
  }

  /** A decaying envelope that is never triggered again after n frames is e * factor^n. */
  function DecayedN(e: real, factor: real, n: nat): real {
    if n == 0 then e else Decayed(DecayedN(e, factor, n - 1), factor)
  }

  /** Without triggers a non-negative envelope only shrinks, frame after frame. */
  lemma {:induction false} DecayedNShrinks(e: real, factor: real, n: nat)
    requires 0.0 <= e && 0.0 <= factor <= 1.0
    ensures 0.0 <= DecayedN(e, factor, n) <= e
  {
    if n > 0 {
      DecayedNShrinks(e, factor, n - 1);
      var d := DecayedN(e, factor, n - 1);
      MulNonneg(d, factor);
      MulNonneg(d, 1.0 - factor);
    }
  }
}
