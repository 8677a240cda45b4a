/**
 * scenes/WavyLinesv2.js: the wavy lines of scenes/WavyLines.js, made to react to attacks. A
 * bass attack kicks the middle lines upwards, a mid attack swells the waves and a treble
 * attack sparks extra glitch. Each attack above its threshold sets its envelope outright
 * (it does not add to it), and the envelopes fade fast.
 *
 * Line depths, the view's width and height and the line centres are those of WavyLines.
 */
module WavyLinesV2 {
  import opened Utils
  import opened Stage
  import opened LineRows
  import opened WavyLines

  const BassThreshold: real := 0.1
  const MidThreshold: real := 0.1
  const TrebleThreshold: real := 0.08
  const BassGain: real := 2.0
  const MidGain: real := 1.5
  const TrebleGain: real := 5.0
  const BassDecay: real := 0.90
  const MidDecay: real := 0.85
  const TrebleDecay: real := 0.80

  /** An envelope after an attack: above the threshold it becomes attack * gain, whatever it was. */
  function Overwritten(e: real, attack: real, threshold: real, gain: real): real {
    if attack > threshold then attack * gain else e
  }

  /**
   * The envelope is set, not added to: above the threshold its old value is forgotten, below
   * it nothing changes. With attacks in [0, 1] an envelope in [0, gain] stays there through a
   * frame's trigger and decay.
   */
  lemma OverwriteForgets(e1: real, e2: real, attack: real, threshold: real, gain: real, factor: real)
    ensures attack > threshold ==> Overwritten(e1, attack, threshold, gain) == Overwritten(e2, attack, threshold, gain)
    ensures attack <= threshold ==> Overwritten(e1, attack, threshold, gain) == e1
    ensures 0.0 <= e1 <= gain && 0.0 <= attack <= 1.0 && 0.0 <= factor <= 1.0 ==>
              0.0 <= Overwritten(e1, attack, threshold, gain) * factor <= gain
  {
    if 0.0 <= e1 <= gain && 0.0 <= attack <= 1.0 && 0.0 <= factor <= 1.0 {
      var o := Overwritten(e1, attack, threshold, gain);
      MulNonneg(attack, gain);
      MulNonneg(1.0 - attack, gain);
      MulNonneg(o, factor);
      MulNonneg(o, 1.0 - factor);
    }
  }

  /**
   * The bass kick of line i: sin(i / numLines * pi) * effect * 2, which lifts the middle
   * visible lines the most. Only lines i < numLines are drawn, so numLines is at least 1
   * wherever a kick is used; the guard only keeps the division total.
   */
  function Kick(i: nat, numLines: int, effect: real, sin: real -> real): real {
    if numLines <= 0 then 0.0 else sin(i as real / numLines as real * Pi) * effect * 2.0
  }

  /** The y of point j of line i: its centre lifted by the kick, plus the wave, plus the glitch. */
  function KickedPointY(i: nat, j: nat, time: real, halfWidth: real, range: real, numLines: int, bassEffect: real,
                  amplitude: real, noise: real, sin: real -> real, rand: (nat, nat) -> real): real
  {
    var x := PointX(j, halfWidth);
    var yOffset := LineCentre(i, range) + Kick(i, numLines, bassEffect, sin);
    var wave := sin((time - LineDepth(i) * 0.2) * 2.0 + x * 0.5 + i as real * 0.3) * amplitude;
    var glitch := (rand(i, j) - 0.5) * noise;
    yOffset + wave + glitch
  }

  /**
   * A point is within twice the bass envelope, plus the wave amplitude, plus half the noise,
   * of its line's resting centre; without a bass envelope the lines do not move off centre
   * beyond the wave and the glitch, and the first line is never kicked.
   */
  lemma PointNearKickedCentre(i: nat, j: nat, time: real, halfWidth: real, range: real, numLines: int,
                              bassEffect: real, amplitude: real, noise: real,
                              sin: real -> real, rand: (nat, nat) -> real)
    requires bassEffect >= 0.0 && amplitude >= 0.0 && noise >= 0.0 && 0.0 <= rand(i, j) < 1.0
    requires forall a :: -1.0 <= sin(a) <= 1.0
    ensures var c := LineCentre(i, range);
      var y := KickedPointY(i, j, time, halfWidth, range, numLines, bassEffect, amplitude, noise, sin, rand);
      var reach := 2.0 * bassEffect + amplitude + noise / 2.0;
      c - reach <= y <= c + reach
    ensures (bassEffect == 0.0 || (i == 0 && sin(0.0) == 0.0)) ==> Kick(i, numLines, bassEffect, sin) == 0.0
  {
    var s := sin((time - LineDepth(i) * 0.2) * 2.0 + PointX(j, halfWidth) * 0.5 + i as real * 0.3);
    assert -1.0 <= s <= 1.0;
    MulNonneg(1.0 - s, amplitude);
    MulNonneg(1.0 + s, amplitude);
    MulNonneg(rand(i, j), noise);
    MulNonneg(1.0 - rand(i, j), noise);
    if numLines > 0 {
      var k := sin(i as real / numLines as real * Pi);
      assert -1.0 <= k <= 1.0;
      MulNonneg(1.0 - k, bassEffect);
      MulNonneg(1.0 + k, bassEffect);
    }
  }

  /** The y of every point of every line in one frame. */
  function KickedFrameYs(time: real, halfWidth: real, range: real, numLines: int, bassEffect: real,
                   amplitude: real, noise: real, sin: real -> real, rand: (nat, nat) -> real): (nat, nat) -> real
  {
    (i: nat, j: nat) => KickedPointY(i, j, time, halfWidth, range, numLines, bassEffect, amplitude, noise, sin, rand)
  }

  class WavyLinesScene {
    const camera: Camera
    const lines: LineGroup
    /** line.position.z of each line. */
    const depth: array<real>
    var bassAttackEffect: real
    var midAttackEffect: real
    var trebleAttackEffect: real
    var visible: bool

    ghost predicate Valid()
      reads this, lines, depth
    {
      lines.Valid() && depth.Length == MaxLines && forall i :: 0 <= i < MaxLines ==> depth[i] == LineDepth(i)
    }

    /** constructor and init: twenty visible, zero-filled lines at their depths, the envelopes 0. */
    constructor (camera: Camera)
      ensures Valid() && visible && this.camera == camera
      ensures fresh(lines) && fresh(lines.visible) && fresh(lines.points)
      ensures forall i :: 0 <= i < MaxLines ==> lines.visible[i]
      ensures bassAttackEffect == 0.0 && midAttackEffect == 0.0 && trebleAttackEffect == 0.0
    {
      var zs := new real[MaxLines];
      var i := 0;
      while i < MaxLines
        invariant 0 <= i <= MaxLines
        invariant forall k :: 0 <= k < i ==> zs[k] == LineDepth(k)
      {
        zs[i] := Map(i as real, 0.0, MaxLines as real, 0.0, -5.0);
        i := i + 1;
      }
      this.camera := camera;
      depth := zs;
      lines := new LineGroup(true);
      bassAttackEffect, midAttackEffect, trebleAttackEffect := 0.0, 0.0, 0.0;
      visible := true;
    }

    /** The line loop of `update`: the first numLines lines rewritten, the rest hidden. */
    method DrawLines(numLines: int, time: real, bassEffect: real, amplitude: real, noise: real,
                     sin: real -> real, tan: real -> real, rand: (nat, nat) -> real)
      requires Valid()
      modifies lines.visible, lines.points
      ensures Valid()
      ensures forall i :: 0 <= i < MaxLines ==> lines.visible[i] == (i < numLines)
      ensures forall i, k :: 0 <= i < MaxLines && 0 <= k < RowLength ==>
        var halfWidth := HalfWidth(camera.fov, camera.z, camera.aspect, tan);
        lines.points[i, k] ==
          if i < numLines
          then RowValue(i, k, halfWidth,
                        KickedFrameYs(time, halfWidth, VerticalRange(camera.fov, camera.z, tan), numLines,
                                bassEffect, amplitude, noise, sin, rand))
          else old(lines.points[i, k])
    {
      var halfWidth := HalfWidth(camera.fov, camera.z, camera.aspect, tan);
      var verticalRange := VerticalRange(camera.fov, camera.z, tan);
      lines.Draw(numLines, halfWidth, KickedFrameYs(time, halfWidth, verticalRange, numLines, bassEffect, amplitude, noise, sin, rand));
    }

    /**
     * update: set the envelopes of the attacks above their thresholds, draw the first
     * floor(map(bass, 0, 1, 1, 20)) lines with the wave swelled by the mid envelope, the glitch
     * by the treble envelope and the centres kicked by the bass envelope, then decay the
     * envelopes by 0.90, 0.85 and 0.80.
     */
    method Update(bass: real, mid: real, treble: real, bassAttack: real, midAttack: real, trebleAttack: real,
                  time: real, sin: real -> real, tan: real -> real, rand: (nat, nat) -> real)
      requires Valid()
      modifies this, lines.visible, lines.points
      ensures Valid() && visible == old(visible)
      ensures var bassLit := Overwritten(old(bassAttackEffect), bassAttack, BassThreshold, BassGain);
        var midLit := Overwritten(old(midAttackEffect), midAttack, MidThreshold, MidGain);
        var trebleLit := Overwritten(old(trebleAttackEffect), trebleAttack, TrebleThreshold, TrebleGain);
        && bassAttackEffect == bassLit * BassDecay
        && midAttackEffect == midLit * MidDecay
        && trebleAttackEffect == trebleLit * TrebleDecay
        && (forall i :: 0 <= i < MaxLines ==> lines.visible[i] == (i < VisibleLineCount(bass)))
        && forall i, k :: 0 <= i < MaxLines && 0 <= k < RowLength ==>
             var halfWidth := HalfWidth(camera.fov, camera.z, camera.aspect, tan);
             lines.points[i, k] ==
               if i < VisibleLineCount(bass)
               then RowValue(i, k, halfWidth,
                             KickedFrameYs(time, halfWidth, VerticalRange(camera.fov, camera.z, tan), VisibleLineCount(bass),
                                     bassLit, Map(mid, 0.0, 1.0, 0.1, 2.0) + midLit,
                                     Map(treble, 0.0, 1.0, 0.0, 0.5) + trebleLit, sin, rand))
               else old(lines.points[i, k])
    {
      Trigger(bassAttack, midAttack, trebleAttack);
      var numLines := VisibleLineCount(bass);
      var waveAmplitude := Map(mid, 0.0, 1.0, 0.1, 2.0) + midAttackEffect;
      var noiseAmount := Map(treble, 0.0, 1.0, 0.0, 0.5) + trebleAttackEffect;
      DrawLines(numLines, time, bassAttackEffect, waveAmplitude, noiseAmount, sin, tan, rand);
      bassAttackEffect := bassAttackEffect * BassDecay;
      midAttackEffect := midAttackEffect * MidDecay;
      trebleAttackEffect := trebleAttackEffect * TrebleDecay;
    }

    /** The first lines of update: each attack above its threshold sets its envelope. */
    method Trigger(bassAttack: real, midAttack: real, trebleAttack: real)
      modifies this
      ensures bassAttackEffect == Overwritten(old(bassAttackEffect), bassAttack, BassThreshold, BassGain)
      ensures midAttackEffect == Overwritten(old(midAttackEffect), midAttack, MidThreshold, MidGain)
      ensures trebleAttackEffect == Overwritten(old(trebleAttackEffect), trebleAttack, TrebleThreshold, TrebleGain)
      ensures visible == old(visible)
    {
      if bassAttack > BassThreshold { bassAttackEffect := bassAttack * BassGain; }
      if midAttack > MidThreshold { midAttackEffect := midAttack * MidGain; }
      if trebleAttack > TrebleThreshold { trebleAttackEffect := trebleAttack * TrebleGain; }
    }

    method Show()
      modifies this`visible
      ensures visible
      ensures old(Valid()) ==> Valid()
    {
      visible := true;
    }

    method Hide()
      modifies this`visible
      ensures !visible
      ensures old(Valid()) ==> Valid()
    {
      visible := false;
    }
  }
}
