/**
 * scenes/DigitalCurtain.js: a 20 x 12 wall of seven-segment digits. Each digit keeps its own
 * state (the digit shown, when it last changed, its change speed, a speed boost, a flash and a
 * darkening factor); every segment of every digit is one instance of an instanced mesh, and
 * `update` writes one colour per instance.
 *
 * A colour is the foreground colour times a scalar; the model keeps the scalar, per instance, in
 * `shades`. Instance placement (`setMatrixAt`) is kept as the position and rotation of each
 * instance. Every Math.random() is a parameter in [0, 1).
 */
module DigitalCurtain {
  import opened Utils

  const GridWidth: nat := 20
  const GridHeight: nat := 12
  const NumDigits: nat := 240
  const SegmentsPerDigit: nat := 7
  const NumInstances: nat := 1680
  const SpacingX: real := 1.8
  const SpacingY: real := 2.8
  const FlashThreshold: real := 0.05

  /** Which of the segments a to g each digit lights, indexed by the digit. */
  const SegmentMap: seq<seq<bool>> := [
    [true, true, true, true, true, true, false],
    [false, true, true, false, false, false, false],
    [true, true, false, true, true, false, true],
    [true, true, true, true, false, false, true],
    [false, true, true, false, false, true, true],
    [true, false, true, true, false, true, true],
    [true, false, true, true, true, true, true],
    [true, true, true, false, false, false, false],
    [true, true, true, true, true, true, true],
    [true, true, true, true, false, true, true]
  ]

  /** Whether digit d lights segment s (a = 0, ..., g = 6). */
  function Lit(d: int, s: nat): bool
    requires 0 <= d < 10 && s < SegmentsPerDigit
  {
    SegmentMap[d][s]
  }

  /** The standard encoding: 8 lights every segment, 1 only b and c, 0 every segment but g. */
  lemma StandardDigits()
    ensures forall s :: 0 <= s < SegmentsPerDigit ==> Lit(8, s)
    ensures forall s :: 0 <= s < SegmentsPerDigit ==> (Lit(1, s) <==> s == 1 || s == 2)
    ensures forall s :: 0 <= s < SegmentsPerDigit ==> (Lit(0, s) <==> s != 6)
  {
  }

  /** The segments a digit lights, read as a number whose bit s is segment s. */
  function Pattern(d: int): nat
    requires 0 <= d < 10
  {
    (if Lit(d, 0) then 1 else 0) + (if Lit(d, 1) then 2 else 0) + (if Lit(d, 2) then 4 else 0)
    + (if Lit(d, 3) then 8 else 0) + (if Lit(d, 4) then 16 else 0) + (if Lit(d, 5) then 32 else 0)
    + (if Lit(d, 6) then 64 else 0)
  }

  /** Two digits with the same lit segments are the same digit: every digit can be read back. */
  lemma DigitsDistinguishable(d1: int, d2: int)
    requires 0 <= d1 < 10 && 0 <= d2 < 10
    requires forall s :: 0 <= s < SegmentsPerDigit ==> Lit(d1, s) == Lit(d2, s)
    ensures d1 == d2
  {
    var patterns := [63, 6, 91, 79, 102, 109, 125, 7, 127, 111];
    assert forall d :: 0 <= d < 10 ==> Pattern(d) == patterns[d];
    assert Pattern(d1) == Pattern(d2);
  }

  /** The state `init` creates for each digit and `update` rewrites. */
  datatype DigitState = DigitState(
    currentDigit: int,
    lastChange: real,
    changeSpeed: real,
    flash: real,
    speedMultiplier: real,
    darkenFactor: real)

  /** The random draws `update` makes for one digit, in the order the code makes them. */
  datatype DigitDraws = DigitDraws(flash: real, boost: real, boostSpeed: real, digit: real, darken: real)

  predicate DrawsInRange(d: DigitDraws) {
    && 0.0 <= d.flash < 1.0 && 0.0 <= d.boost < 1.0 && 0.0 <= d.boostSpeed < 1.0
    && 0.0 <= d.digit < 1.0 && 0.0 <= d.darken < 1.0
  }

  /** Math.floor(Math.random() * 10). */
  function RandomDigit(r: real): (d: int)
    requires 0.0 <= r < 1.0
    ensures 0 <= d < 10
  {
    (r * 10.0).Floor
  }

  /** The bounds every digit state keeps. */
  ghost predicate WellFormed(s: DigitState) {
    && 0 <= s.currentDigit < 10
    && 0.1 <= s.changeSpeed < 0.6
    && (s.speedMultiplier == 1.0 || 20.0 <= s.speedMultiplier < 40.0)
    && 0.0 <= s.flash <= 1.0
    && 0.0 <= s.darkenFactor < 1.01
  }

  /** The state `init` pushes for a digit, from its two draws. */
  function InitialState(digitDraw: real, speedDraw: real): (s: DigitState)
    requires 0.0 <= digitDraw < 1.0 && 0.0 <= speedDraw < 1.0
  {
    DigitState(RandomDigit(digitDraw), 0.0, speedDraw * 0.5 + 0.1, 0.0, 1.0, 1.0)
  }

  /** A freshly created digit is well formed, at rest (no boost), not flashing and not darkened. */
  lemma InitialWellFormed(digitDraw: real, speedDraw: real)
    requires 0.0 <= digitDraw < 1.0 && 0.0 <= speedDraw < 1.0
    ensures var s := InitialState(digitDraw, speedDraw);
      WellFormed(s) && s.speedMultiplier == 1.0 && s.flash == 0.0 && s.darkenFactor == 1.0
  {
    MulNonneg(speedDraw, 0.5);
    MulNonneg(1.0 - speedDraw, 0.5);
  }

  /** The flash pass: on a bass attack above 0.05, each digit flashes with probability 0.1. */
  function Flashed(s: DigitState, draw: real, bassAttack: real): DigitState {
    if bassAttack > FlashThreshold && draw < 0.1 then s.(flash := 1.0) else s
  }

  /** The boost step: a digit at rest may get a speed multiplier in [20, 40). */
  function Boosted(s: DigitState, d: DigitDraws, mid: real): DigitState {
    if s.speedMultiplier == 1.0 && d.boost < Map(mid, 0.3, 1.0, 0.0, 0.4)
    then s.(speedMultiplier := d.boostSpeed * 20.0 + 20.0)
    else s
  }

  /** Whether a digit is due to change at `time`. */
  function Due(s: DigitState, time: real): bool
    requires s.changeSpeed * s.speedMultiplier != 0.0
  {
    time - s.lastChange > 1.0 / (s.changeSpeed * s.speedMultiplier)
  }

  /** The change step: a due digit shows a new random digit, records the time and drops its boost. */
  function Changed(s: DigitState, d: DigitDraws, time: real): DigitState
    requires s.changeSpeed * s.speedMultiplier != 0.0 && 0.0 <= d.digit < 1.0
  {
    if Due(s, time)
    then s.(currentDigit := RandomDigit(d.digit), lastChange := time,
            speedMultiplier := if s.speedMultiplier > 1.0 then 1.0 else s.speedMultiplier)
    else s
  }

  /** The darkening step: strong treble switches the digit off for a while. */
  function Darkened(s: DigitState, d: DigitDraws, treble: real): DigitState {
    if d.darken < Map(treble, 0.2, 0.8, 0.0, 0.5) then s.(darkenFactor := 0.0) else s
  }

  /** The state a digit is drawn with: boost, change, darken. */
  function Advanced(s: DigitState, d: DigitDraws, time: real, mid: real, treble: real): DigitState
    requires WellFormed(s) && DrawsInRange(d)
  {
    var boosted := Boosted(s, d, mid);
    assert boosted.changeSpeed * boosted.speedMultiplier != 0.0 by {
      MulNonneg(boosted.changeSpeed, boosted.speedMultiplier - 1.0);
    }
    Darkened(Changed(boosted, d, time), d, treble)
  }

  /** The end of the frame: the flash decays by 0.9, a darkened digit recovers by 0.01. */
  function Faded(s: DigitState): DigitState {
    s.(flash := s.flash * 0.9,
       darkenFactor := if s.darkenFactor < 1.0 then s.darkenFactor + 0.01 else s.darkenFactor)
  }

  /** One digit over one frame, after the flash pass. */
  function Stepped(s: DigitState, d: DigitDraws, time: real, mid: real, treble: real): DigitState
    requires WellFormed(s) && DrawsInRange(d)
  {
    Faded(Advanced(s, d, time, mid, treble))
  }

  /** The colour scalar of segment `seg` of a digit drawn in state s. */
  function Shade(s: DigitState, seg: nat, bass: real): real
    requires 0 <= s.currentDigit < 10 && seg < SegmentsPerDigit
  {
    if Lit(s.currentDigit, seg) then (0.04 + Map(bass, 0.0, 1.0, 0.0, 0.3) + s.flash * 1.5) * s.darkenFactor
    else 0.02 * s.darkenFactor
  }

  /** Every step keeps a digit well formed: shown digit in 0..9, flash in [0, 1], and so on. */
  lemma StepWellFormed(s: DigitState, flashDraw: real, d: DigitDraws, bassAttack: real, time: real,
                       mid: real, treble: real)
    requires WellFormed(s) && DrawsInRange(d)
    ensures WellFormed(Flashed(s, flashDraw, bassAttack))
    ensures WellFormed(Advanced(s, d, time, mid, treble))
    ensures WellFormed(Stepped(s, d, time, mid, treble))
  {
    var a := Advanced(s, d, time, mid, treble);
    MulNonneg(d.boostSpeed, 20.0);
    MulNonneg(1.0 - d.boostSpeed, 20.0);
    MulNonneg(a.flash, 0.9);
    MulNonneg(a.flash, 0.1);
  }

  /**
   * A boost is applied only to a digit whose multiplier is exactly 1.0: any other multiplier
   * leaves the frame unchanged or dropped back to 1.0.
   */
  lemma BoostOnlyAtRest(s: DigitState, d: DigitDraws, time: real, mid: real, treble: real)
    requires WellFormed(s) && DrawsInRange(d) && s.speedMultiplier != 1.0
    ensures var a := Advanced(s, d, time, mid, treble);
      a.speedMultiplier == s.speedMultiplier || a.speedMultiplier == 1.0
  {
  }

  /**
   * The change rule: a digit changes exactly when more than 1 / (changeSpeed * multiplier) has
   * passed since its last change, multiplier taken after the boost step; a change records the
   * time, shows a digit in 0..9 and resets any boost; otherwise the digit and its time stay.
   */
  lemma ChangeTiming(s: DigitState, d: DigitDraws, time: real, mid: real, treble: real)
    requires WellFormed(s) && DrawsInRange(d)
    ensures var b := Boosted(s, d, mid);
      var a := Advanced(s, d, time, mid, treble);
      b.changeSpeed * b.speedMultiplier > 0.0 &&
      (if time - s.lastChange > 1.0 / (b.changeSpeed * b.speedMultiplier)
       then a.lastChange == time && 0 <= a.currentDigit < 10 && a.speedMultiplier == 1.0
       else a.lastChange == s.lastChange && a.currentDigit == s.currentDigit
            && a.speedMultiplier == b.speedMultiplier)
  {
    var b := Boosted(s, d, mid);
    MulNonneg(b.changeSpeed, b.speedMultiplier - 1.0);
  }

  /**
   * Darkening: a trigger sets the factor to 0, otherwise it climbs by 0.01 a frame until it
   * reaches 1; the flash only ever shrinks by 0.9 between triggers.
   */
  lemma DarkenAndFlash(s: DigitState, flashDraw: real, d: DigitDraws, bassAttack: real, time: real,
                       mid: real, treble: real)
    requires WellFormed(s) && DrawsInRange(d)
    ensures var f := Flashed(s, flashDraw, bassAttack);
      var a := Advanced(f, d, time, mid, treble);
      var r := Stepped(f, d, time, mid, treble);
      && (d.darken < Map(treble, 0.2, 0.8, 0.0, 0.5) ==> a.darkenFactor == 0.0 && r.darkenFactor == 0.01)
      && (d.darken >= Map(treble, 0.2, 0.8, 0.0, 0.5) ==>
            r.darkenFactor == if s.darkenFactor < 1.0 then s.darkenFactor + 0.01 else s.darkenFactor)
      && (bassAttack > FlashThreshold && flashDraw < 0.1 ==> r.flash == 0.9)
      && (bassAttack <= FlashThreshold || flashDraw >= 0.1 ==> r.flash == s.flash * 0.9)
  {
  }

  /** With bass in [0, 1] a lit segment is never darker than an unlit one of the same digit. */
  lemma LitOutshinesUnlit(s: DigitState, lit: nat, unlit: nat, bass: real)
    requires WellFormed(s) && 0.0 <= bass <= 1.0
    requires lit < SegmentsPerDigit && unlit < SegmentsPerDigit
    requires Lit(s.currentDigit, lit) && !Lit(s.currentDigit, unlit)
    ensures Shade(s, unlit, bass) <= Shade(s, lit, bass)
  {
    MapWithinRange(bass, 0.0, 1.0, 0.0, 0.3);
    var scalar := 0.04 + Map(bass, 0.0, 1.0, 0.0, 0.3) + s.flash * 1.5;
    MulNonneg(s.flash, 1.5);
    MulNonneg(scalar - 0.02, s.darkenFactor);
  }

  /** x of the digits in column x: the grid is centred on the origin with a pitch of 1.8. */
  function DigitX(x: nat): real {
    (x as real - GridWidth as real / 2.0 + 0.5) * SpacingX
  }

  /** y of the digits in row y, with a pitch of 2.8. */
  function DigitY(y: nat): real {
    (y as real - GridHeight as real / 2.0 + 0.5) * SpacingY
  }

  /** The grid is symmetric about the origin: column x mirrors column 19 - x, row y row 11 - y. */
  lemma GridCentred(x: nat, y: nat)
    requires x < GridWidth && y < GridHeight
    ensures DigitX(x) == -DigitX(GridWidth - 1 - x) && DigitY(y) == -DigitY(GridHeight - 1 - y)
  {
  }

  /** Offset and rotation of segment s within its digit: a top, b/c right, d bottom, e/f left, g middle. */
  function SegmentDX(s: nat): real requires s < SegmentsPerDigit {
    [0.0, 0.5, 0.5, 0.0, -0.5, -0.5, 0.0][s]
  }

  function SegmentDY(s: nat): real requires s < SegmentsPerDigit {
    [1.0, 0.5, -0.5, -1.0, -0.5, 0.5, 0.0][s]
  }

  function SegmentAngle(s: nat): real requires s < SegmentsPerDigit {
    [0.0, -Pi / 2.0, -Pi / 2.0, 0.0, -Pi / 2.0, -Pi / 2.0, 0.0][s]
  }

  /** The segments sit inside their digit's cell, so no two digits' segments share a place. */
  lemma SegmentsInsideCell(s: nat)
    requires s < SegmentsPerDigit
    ensures -SpacingX / 2.0 < SegmentDX(s) < SpacingX / 2.0
    ensures -SpacingY / 2.0 < SegmentDY(s) < SpacingY / 2.0
  {
  }

  class DigitalCurtainScene {
    /** The digit states, row by row: digit (x, y) is entry 20 y + x. */
    const states: array<DigitState>
    /** The colour scalar of each instance: segment s of digit d is instance 7 d + s. */
    const shades: array<real>
    const instanceX: array<real>
    const instanceY: array<real>
    const instanceAngle: array<real>
    var visible: bool

    ghost predicate Valid()
      reads this, states
    {
      && states.Length == NumDigits && shades.Length == NumInstances
      && instanceX.Length == NumInstances && instanceY.Length == NumInstances
      && instanceAngle.Length == NumInstances
      && shades != instanceX && shades != instanceY && shades != instanceAngle
      && forall i :: 0 <= i < NumDigits ==> WellFormed(states[i])
    }

    /** Digit 20 y + x lies in column x of row y. */
    static lemma DigitCoords(x: nat, y: nat)
      requires x < GridWidth
      ensures (GridWidth * y + x) % GridWidth == x && (GridWidth * y + x) / GridWidth == y
    {
    }

    /** The seven instances of the digit at (x, y), and its state. */
    static method PlaceDigit(xs: array<real>, ys: array<real>, angles: array<real>, states: array<DigitState>,
                             x: nat, y: nat, digitDraw: real, speedDraw: real)
      requires xs.Length == NumInstances && ys.Length == NumInstances && angles.Length == NumInstances
      requires states.Length == NumDigits && x < GridWidth && y < GridHeight
      requires xs != ys && xs != angles && ys != angles
      requires 0.0 <= digitDraw < 1.0 && 0.0 <= speedDraw < 1.0
      modifies xs, ys, angles, states
      ensures forall i :: 0 <= i < NumDigits ==>
                states[i] == if i == GridWidth * y + x then InitialState(digitDraw, speedDraw) else old(states[i])
      ensures forall k :: 0 <= k < NumInstances ==>
                if k / SegmentsPerDigit == GridWidth * y + x then
                  && xs[k] == DigitX((k / SegmentsPerDigit) % GridWidth) + SegmentDX(k % SegmentsPerDigit)
                  && ys[k] == DigitY((k / SegmentsPerDigit) / GridWidth) + SegmentDY(k % SegmentsPerDigit)
                  && angles[k] == SegmentAngle(k % SegmentsPerDigit)
                else xs[k] == old(xs[k]) && ys[k] == old(ys[k]) && angles[k] == old(angles[k])
    {
      DigitCoords(x, y);
      var digitX := (x as real - GridWidth as real / 2.0 + 0.5) * SpacingX;
      var digitY := (y as real - GridHeight as real / 2.0 + 0.5) * SpacingY;
      var instanceIdx := SegmentsPerDigit * (GridWidth * y + x);
      var i := 0;
      while i < SegmentsPerDigit
        invariant 0 <= i <= SegmentsPerDigit
        invariant instanceIdx == SegmentsPerDigit * (GridWidth * y + x) + i
        invariant states[..] == old(states[..])
        invariant forall k :: 0 <= k < NumInstances ==>
                    if k / SegmentsPerDigit == GridWidth * y + x && k % SegmentsPerDigit < i then
                      && xs[k] == DigitX(x) + SegmentDX(k % SegmentsPerDigit)
                      && ys[k] == DigitY(y) + SegmentDY(k % SegmentsPerDigit)
                      && angles[k] == SegmentAngle(k % SegmentsPerDigit)
                    else xs[k] == old(xs[k]) && ys[k] == old(ys[k]) && angles[k] == old(angles[k])
      {
        xs[instanceIdx] := digitX + SegmentDX(i);
        ys[instanceIdx] := digitY + SegmentDY(i);
        angles[instanceIdx] := SegmentAngle(i);
        instanceIdx := instanceIdx + 1;
        i := i + 1;
      }
      states[GridWidth * y + x] := InitialState(digitDraw, speedDraw);
    }

    /** One row of `init`'s grid loop: the 20 digits of row y. */
    static method PlaceRow(xs: array<real>, ys: array<real>, angles: array<real>, st: array<DigitState>,
                           y: nat, initDraws: seq<(real, real)>)
      requires xs.Length == NumInstances && ys.Length == NumInstances && angles.Length == NumInstances
      requires st.Length == NumDigits && y < GridHeight
      requires xs != ys && xs != angles && ys != angles
      requires |initDraws| == NumDigits
      requires forall i :: 0 <= i < NumDigits ==> 0.0 <= initDraws[i].0 < 1.0 && 0.0 <= initDraws[i].1 < 1.0
      modifies xs, ys, angles, st
      ensures forall i :: 0 <= i < NumDigits ==>
                st[i] == if GridWidth * y <= i < GridWidth * (y + 1) then InitialState(initDraws[i].0, initDraws[i].1)
                         else old(st[i])
      ensures forall k :: 0 <= k < NumInstances ==>
                if GridWidth * y <= k / SegmentsPerDigit < GridWidth * (y + 1) then
                  && xs[k] == DigitX((k / SegmentsPerDigit) % GridWidth) + SegmentDX(k % SegmentsPerDigit)
                  && ys[k] == DigitY((k / SegmentsPerDigit) / GridWidth) + SegmentDY(k % SegmentsPerDigit)
                  && angles[k] == SegmentAngle(k % SegmentsPerDigit)
                else xs[k] == old(xs[k]) && ys[k] == old(ys[k]) && angles[k] == old(angles[k])
    {
      var x := 0;
      while x < GridWidth
        invariant 0 <= x <= GridWidth
        invariant forall i :: 0 <= i < NumDigits ==>
                    st[i] == if GridWidth * y <= i < GridWidth * y + x then InitialState(initDraws[i].0, initDraws[i].1)
                             else old(st[i])
        invariant forall k :: 0 <= k < NumInstances ==>
                    if GridWidth * y <= k / SegmentsPerDigit < GridWidth * y + x then
                      && xs[k] == DigitX((k / SegmentsPerDigit) % GridWidth) + SegmentDX(k % SegmentsPerDigit)
                      && ys[k] == DigitY((k / SegmentsPerDigit) / GridWidth) + SegmentDY(k % SegmentsPerDigit)
                      && angles[k] == SegmentAngle(k % SegmentsPerDigit)
                    else xs[k] == old(xs[k]) && ys[k] == old(ys[k]) && angles[k] == old(angles[k])
      {
        var draw := initDraws[GridWidth * y + x];
        PlaceDigit(xs, ys, angles, st, x, y, draw.0, draw.1);
        x := x + 1;
      }
    }

    /**
     * constructor and init: 240 digits row by row, each with its seven segment instances placed
     * around the digit's centre; digit (x, y) starts from draws[20 y + x].
     */
    constructor (initDraws: seq<(real, real)>)
      requires |initDraws| == NumDigits
      requires forall i :: 0 <= i < NumDigits ==> 0.0 <= initDraws[i].0 < 1.0 && 0.0 <= initDraws[i].1 < 1.0
      ensures Valid() && visible
      ensures forall i :: 0 <= i < NumDigits ==> states[i] == InitialState(initDraws[i].0, initDraws[i].1)
      ensures forall k :: 0 <= k < NumInstances ==>
                && instanceX[k] == DigitX((k / SegmentsPerDigit) % GridWidth) + SegmentDX(k % SegmentsPerDigit)
                && instanceY[k] == DigitY((k / SegmentsPerDigit) / GridWidth) + SegmentDY(k % SegmentsPerDigit)
                && instanceAngle[k] == SegmentAngle(k % SegmentsPerDigit)
    {
      var st := new DigitState[NumDigits](_ => DigitState(0, 0.0, 0.1, 0.0, 1.0, 1.0));
      var xs := new real[NumInstances];
      var ys := new real[NumInstances];
      var angles := new real[NumInstances];
      var y := 0;
      while y < GridHeight
        invariant 0 <= y <= GridHeight
        invariant forall i :: 0 <= i < NumDigits ==>
                    i < GridWidth * y ==> st[i] == InitialState(initDraws[i].0, initDraws[i].1)
        invariant forall k :: 0 <= k < NumInstances && k / SegmentsPerDigit < GridWidth * y ==>
                    && xs[k] == DigitX((k / SegmentsPerDigit) % GridWidth) + SegmentDX(k % SegmentsPerDigit)
                    && ys[k] == DigitY((k / SegmentsPerDigit) / GridWidth) + SegmentDY(k % SegmentsPerDigit)
                    && angles[k] == SegmentAngle(k % SegmentsPerDigit)
      {
        PlaceRow(xs, ys, angles, st, y, initDraws);
        y := y + 1;
      }
      forall i | 0 <= i < NumDigits
        ensures WellFormed(st[i])
      {
        InitialWellFormed(initDraws[i].0, initDraws[i].1);
      }
      states := st;
      shades := new real[NumInstances];
      instanceX, instanceY, instanceAngle := xs, ys, angles;
      visible := true;
    }

    /** The flash pass of `update`. */
    method FlashAll(bassAttack: real, flashDraws: seq<real>)
      requires Valid() && |flashDraws| == NumDigits
      modifies states
      ensures Valid()
      ensures forall i :: 0 <= i < NumDigits ==> states[i] == Flashed(old(states[i]), flashDraws[i], bassAttack)
    {
      if bassAttack > FlashThreshold {
        var i := 0;
        while i < NumDigits
          invariant 0 <= i <= NumDigits
          invariant forall j :: 0 <= j < NumDigits ==>
                      states[j] == if j < i then Flashed(old(states[j]), flashDraws[j], bassAttack) else old(states[j])
          invariant forall j :: 0 <= j < NumDigits ==> WellFormed(states[j])
        {
          if flashDraws[i] < 0.1 {
            states[i] := states[i].(flash := 1.0);
          }
          i := i + 1;
        }
      }
    }

    /** The seven colour writes of one digit, from instance 7 i on. */
    method ShadeDigit(i: nat, s: DigitState, bass: real)
      requires shades.Length == NumInstances && i < NumDigits && 0 <= s.currentDigit < 10
      modifies shades
      ensures forall k :: 0 <= k < NumInstances ==>
                shades[k] == if k / SegmentsPerDigit == i then Shade(s, k % SegmentsPerDigit, bass) else old(shades[k])
    {
      var brightness := (0.04 + Map(bass, 0.0, 1.0, 0.0, 0.3) + s.flash * 1.5) * s.darkenFactor;
      var instanceIdx := SegmentsPerDigit * i;
      var seg := 0;
      while seg < SegmentsPerDigit
        invariant 0 <= seg <= SegmentsPerDigit && instanceIdx == SegmentsPerDigit * i + seg
        invariant forall k :: 0 <= k < NumInstances ==>
                    shades[k] == if k / SegmentsPerDigit == i && k % SegmentsPerDigit < seg
                                 then Shade(s, k % SegmentsPerDigit, bass) else old(shades[k])
      {
        if SegmentMap[s.currentDigit][seg] {
          shades[instanceIdx] := brightness;
        } else {
          shades[instanceIdx] := 0.02 * s.darkenFactor;
        }
        instanceIdx := instanceIdx + 1;
        seg := seg + 1;
      }
    }

    /** One pass of the digit loop: advance digit i, write its colours, then fade it. */
    method StepDigit(i: nat, d: DigitDraws, time: real, bass: real, mid: real, treble: real)
      requires Valid() && i < NumDigits && DrawsInRange(d)
      modifies states, shades
      ensures Valid()
      ensures forall j :: 0 <= j < NumDigits ==>
                states[j] == if j == i then Stepped(old(states[i]), d, time, mid, treble) else old(states[j])
      ensures forall k :: 0 <= k < NumInstances ==>
                shades[k] == if k / SegmentsPerDigit == i
                             then Shade(Advanced(old(states[i]), d, time, mid, treble), k % SegmentsPerDigit, bass)
                             else old(shades[k])
    {
      var state := states[i];
      StepWellFormed(state, 0.0, d, 0.0, time, mid, treble);
      var drawn := Advanced(state, d, time, mid, treble);
      ShadeDigit(i, drawn, bass);
      states[i] := Faded(drawn);
    }

    /**
     * update: the flash pass, then for each digit the boost, change and darken steps, its seven
     * colours, and the fading of its flash and darkening. The draws for digit i are
     * flashDraws[i] and draws[i].
     */
    method Update(bass: real, mid: real, treble: real, bassAttack: real, time: real,
                  flashDraws: seq<real>, draws: seq<DigitDraws>)
      requires Valid() && |flashDraws| == NumDigits && |draws| == NumDigits
      requires forall i :: 0 <= i < NumDigits ==> DrawsInRange(draws[i])
      modifies states, shades
      ensures Valid()
      ensures forall i :: 0 <= i < NumDigits ==>
                states[i] == Stepped(Flashed(old(states[i]), flashDraws[i], bassAttack), draws[i], time, mid, treble)
      ensures forall k :: 0 <= k < NumInstances ==>
                var i := k / SegmentsPerDigit;
                shades[k] == Shade(Advanced(Flashed(old(states[i]), flashDraws[i], bassAttack), draws[i], time, mid, treble),
                                   k % SegmentsPerDigit, bass)
    {
      FlashAll(bassAttack, flashDraws);
      ghost var flashed := states[..];
      var i := 0;
      while i < NumDigits
        invariant 0 <= i <= NumDigits && Valid()
        invariant forall j :: 0 <= j < NumDigits ==>
                    flashed[j] == Flashed(old(states[j]), flashDraws[j], bassAttack) && WellFormed(flashed[j])
        invariant forall j :: 0 <= j < NumDigits ==>
                    states[j] == if j < i then Stepped(flashed[j], draws[j], time, mid, treble) else flashed[j]
        invariant forall k :: 0 <= k < NumInstances && k / SegmentsPerDigit < i ==>
                    shades[k] == Shade(Advanced(flashed[k / SegmentsPerDigit], draws[k / SegmentsPerDigit], time, mid, treble),
                                       k % SegmentsPerDigit, bass)
      {
        StepDigit(i, draws[i], time, bass, mid, treble);
        i := i + 1;
      }
    }

    method Show()
      modifies this`visible
      ensures visible
      ensures old(Valid()) ==> Valid()
    {
      visible := true;
    }

    method Hide()
      modifies this`visible
      ensures !visible
      ensures old(Valid()) ==> Valid()
    {
      visible := false;
    }
  }
}
