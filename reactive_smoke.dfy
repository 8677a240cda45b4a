/**
 * scenes/ReactiveSmoke.js: a full-screen shader of drifting smoke. All the drawing is in the
 * fragment shader; the scene object only feeds it uniforms each frame, and keeps two attack
 * envelopes that add up with each attack, saturate at 1, and fade slowly.
 *
 * The shader itself and the colour uniform are left out; the window size that `update` copies
 * into `u_resolution` comes in as parameters.
 */
module ReactiveSmoke {
  import opened Utils

  const AttackThreshold: real := 0.1
  const BassDecay: real := 0.99
  const TrebleDecay: real := 0.98

  /** An envelope after an attack: when the attack is above 0.1 it adds twice the attack, up to 1. */
  function Accumulated(e: real, attack: real): real {
    if attack > AttackThreshold then Min(1.0, e + attack * 2.0) else e
  }

  /**
   * The accumulator never loses anything, saturates at exactly 1, and keeps an envelope in
   * [0, 1]; below the threshold it changes nothing.
   */
  lemma AccumulatedBounds(e: real, attack: real)
    requires 0.0 <= e <= 1.0
    ensures e <= Accumulated(e, attack) <= 1.0
    ensures attack <= AttackThreshold ==> Accumulated(e, attack) == e
    ensures attack > AttackThreshold ==>
              (Accumulated(e, attack) == 1.0 <==> e + attack * 2.0 >= 1.0)
    ensures attack > AttackThreshold ==> Accumulated(e, attack) > e || e == 1.0
  {
  }

  /** The envelope after one whole frame: accumulate, then decay by `factor`. */
  function Stepped(e: real, attack: real, factor: real): real {
    Accumulated(e, attack) * factor
  }

  /** A frame keeps both envelopes in [0, 1]. */
  lemma SteppedBounds(e: real, attack: real, factor: real)
    requires 0.0 <= e <= 1.0 && 0.0 <= factor <= 1.0
    ensures 0.0 <= Stepped(e, attack, factor) <= 1.0
  {
    AccumulatedBounds(e, attack);
    var a := Accumulated(e, attack);
    MulNonneg(a, factor);
    MulNonneg(a, 1.0 - factor);
  }

  class ReactiveSmokeScene {
    var bassAttackEffect: real
    var trebleAttackEffect: real
    /** The shader's uniforms that `update` writes. */
    var uTime: real
    var uBass: real
    var uMid: real
    var uTreble: real
    var uBassAttack: real
    var uTrebleAttack: real
    var uResolutionX: real
    var uResolutionY: real
    var visible: bool

    ghost predicate Valid()
      reads this
    {
      0.0 <= bassAttackEffect <= 1.0 && 0.0 <= trebleAttackEffect <= 1.0
    }

    /** constructor and init: both envelopes and all level uniforms at 0, `u_resolution` the window size. */
    constructor (windowWidth: real, windowHeight: real)
      ensures Valid() && visible
      ensures bassAttackEffect == 0.0 && trebleAttackEffect == 0.0
      ensures uTime == 0.0 && uBass == 0.0 && uMid == 0.0 && uTreble == 0.0
      ensures uBassAttack == 0.0 && uTrebleAttack == 0.0
      ensures uResolutionX == windowWidth && uResolutionY == windowHeight
    {
      bassAttackEffect, trebleAttackEffect := 0.0, 0.0;
      uTime, uBass, uMid, uTreble := 0.0, 0.0, 0.0, 0.0;
      uBassAttack, uTrebleAttack := 0.0, 0.0;
      uResolutionX, uResolutionY := windowWidth, windowHeight;
      visible := true;
    }

    /**
     * update: accumulate the attacks, hand the time, the levels and the accumulated (not yet
     * decayed) envelopes to the shader, then decay the envelopes by 0.99 and 0.98.
     */
    method Update(bass: real, mid: real, treble: real, bassAttack: real, trebleAttack: real, time: real,
                  windowWidth: real, windowHeight: real)
      requires Valid()
      modifies this
      ensures Valid() && visible == old(visible)
      ensures uTime == time && uBass == bass && uMid == mid && uTreble == treble
      ensures uBassAttack == Accumulated(old(bassAttackEffect), bassAttack)
      ensures uTrebleAttack == Accumulated(old(trebleAttackEffect), trebleAttack)
      ensures bassAttackEffect == Stepped(old(bassAttackEffect), bassAttack, BassDecay)
      ensures trebleAttackEffect == Stepped(old(trebleAttackEffect), trebleAttack, TrebleDecay)
      ensures bassAttackEffect == uBassAttack * BassDecay && trebleAttackEffect == uTrebleAttack * TrebleDecay
      ensures uResolutionX == windowWidth && uResolutionY == windowHeight
    {
      SteppedBounds(bassAttackEffect, bassAttack, BassDecay);
      SteppedBounds(trebleAttackEffect, trebleAttack, TrebleDecay);
      if bassAttack > AttackThreshold {
        bassAttackEffect := Min(1.0, bassAttackEffect + bassAttack * 2.0);
      }
      if trebleAttack > AttackThreshold {
        trebleAttackEffect := Min(1.0, trebleAttackEffect + trebleAttack * 2.0);
      }
      uTime, uBass, uMid, uTreble := time, bass, mid, treble;
      uBassAttack, uTrebleAttack := bassAttackEffect, trebleAttackEffect;
      uResolutionX, uResolutionY := windowWidth, windowHeight;
      bassAttackEffect := bassAttackEffect * BassDecay;
      trebleAttackEffect := trebleAttackEffect * TrebleDecay;
    }

    method Show()
      modifies this`visible
      ensures visible
      ensures old(Valid()) ==> Valid()
    {
      visible := true;
    }

    method Hide()
      modifies this`visible
      ensures !visible
      ensures old(Valid()) ==> Valid()
    {
      visible := false;
    }
  }
}
