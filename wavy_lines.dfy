/**
 * scenes/WavyLines.js: up to twenty wavy lines across the whole screen, one behind the other.
 * The bass sets how many are shown, the mids how high they wave and the treble how much they
 * glitch; the lines fill the view's width and are spread over its height.
 *
 * The lines are a LineGroup; each line's `position.z` is kept in `depth`. Math.sin and
 * Math.tan are parameters, and `rand(i, j)` is the Math.random() drawn for point j of line i.
 */
module WavyLines {
  import opened Utils
  import opened Stage
  import opened LineRows

  /** The depth `init` gives line i: map(i, 0, 20, 0, -5), a quarter unit further back per line. */
  function LineDepth(i: nat): real {
    Map(i as real, 0.0, MaxLines as real, 0.0, -5.0)
  }

  lemma LineDepths(i: nat)
    requires i < MaxLines
    ensures LineDepth(i) == -(i as real) / 4.0
    ensures -5.0 < LineDepth(i) <= 0.0
  {
  }

  /** Half the width of the view at the camera's distance from the origin. */
  function HalfWidth(fov: real, cameraZ: real, aspect: real, tan: real -> real): real {
    ViewWidth(ViewportHeight(fov, cameraZ, tan), aspect) / 2.0
  }

  /** How far the line centres spread up and down: half the view's height less 2.5 of margin. */
  function VerticalRange(fov: real, cameraZ: real, tan: real -> real): real {
    ViewportHeight(fov, cameraZ, tan) / 2.0 - 2.5
  }

  /** The centre of line i: map(i, 0, 20, -range, range). */
  function LineCentre(i: nat, range: real): real {
    Map(i as real, 0.0, MaxLines as real, -range, range)
  }

  /**
   * The centres start at the bottom of the range and climb in equal steps of a tenth of the
   * range; for a non-negative range the twenty of them lie in [-range, range).
   */
  lemma CentresSpread(i: nat, range: real)
    ensures LineCentre(0, range) == -range
    ensures LineCentre(i + 1, range) - LineCentre(i, range) == range / 10.0
    ensures i < MaxLines && range >= 0.0 ==> -range <= LineCentre(i, range) <= range
    ensures i < MaxLines && range > 0.0 ==> LineCentre(i, range) < range
  {
    MapEndpoints(0.0, MaxLines as real, -range, range);
    assert LineCentre(i, range) == -range + i as real * range / 10.0;
    if i < MaxLines && range >= 0.0 {
      MulNonneg(i as real, range);
      MulNonneg(19.0 - i as real, range);
      assert LineCentre(i, range) <= 0.9 * range;
    }
  }

  /** The y of point j of line i: its centre, plus the wave, plus the glitch. */
  function PointY(i: nat, j: nat, time: real, halfWidth: real, range: real, amplitude: real, noise: real,
                  sin: real -> real, rand: (nat, nat) -> real): real
  {
    var x := PointX(j, halfWidth);
    var wave := sin((time - LineDepth(i) * 0.2) * 2.0 + x * 0.5 + i as real * 0.3) * amplitude;
    var glitch := (rand(i, j) - 0.5) * noise;
    LineCentre(i, range) + wave + glitch
  }

  /** A point is within the wave amplitude plus half the noise of its line's centre. */
  lemma PointNearCentre(i: nat, j: nat, time: real, halfWidth: real, range: real, amplitude: real, noise: real,
                        sin: real -> real, rand: (nat, nat) -> real)
    requires amplitude >= 0.0 && noise >= 0.0 && 0.0 <= rand(i, j) < 1.0
    requires forall a :: -1.0 <= sin(a) <= 1.0
    ensures var c := LineCentre(i, range);
      var y := PointY(i, j, time, halfWidth, range, amplitude, noise, sin, rand);
      c - amplitude - noise / 2.0 <= y <= c + amplitude + noise / 2.0
  {
    var s := sin((time - LineDepth(i) * 0.2) * 2.0 + PointX(j, halfWidth) * 0.5 + i as real * 0.3);
    assert -1.0 <= s <= 1.0;
    MulNonneg(1.0 - s, amplitude);
    MulNonneg(1.0 + s, amplitude);
    MulNonneg(rand(i, j), noise);
    MulNonneg(1.0 - rand(i, j), noise);
  }

  /**
   * The margin of 2.5 keeps the lines on screen: with mid and treble in [0, 1] the wave is at
   * most 2 and the glitch at most 0.25, so wherever the view is at least 5 high every point
   * lies within half of it.
   */
  lemma LinesStayInView(i: nat, j: nat, time: real, fov: real, cameraZ: real, aspect: real,
                        mid: real, treble: real, sin: real -> real, tan: real -> real, rand: (nat, nat) -> real)
    requires i < MaxLines && 0.0 <= mid <= 1.0 && 0.0 <= treble <= 1.0 && 0.0 <= rand(i, j) < 1.0
    requires forall a :: -1.0 <= sin(a) <= 1.0
    requires VerticalRange(fov, cameraZ, tan) >= 0.0
    ensures var half := ViewportHeight(fov, cameraZ, tan) / 2.0;
      var y := PointY(i, j, time, HalfWidth(fov, cameraZ, aspect, tan), VerticalRange(fov, cameraZ, tan),
                      Map(mid, 0.0, 1.0, 0.1, 2.0), Map(treble, 0.0, 1.0, 0.0, 0.5), sin, rand);
      -half <= y <= half
  {
    var range := VerticalRange(fov, cameraZ, tan);
    var amplitude := Map(mid, 0.0, 1.0, 0.1, 2.0);
    var noise := Map(treble, 0.0, 1.0, 0.0, 0.5);
    MapWithinRange(mid, 0.0, 1.0, 0.1, 2.0);
    MapWithinRange(treble, 0.0, 1.0, 0.0, 0.5);
    CentresSpread(i, range);
    PointNearCentre(i, j, time, HalfWidth(fov, cameraZ, aspect, tan), range, amplitude, noise, sin, rand);
  }

  /** The y of every point of every line in one frame. */
  function FrameYs(time: real, halfWidth: real, range: real, amplitude: real, noise: real,
                   sin: real -> real, rand: (nat, nat) -> real): (nat, nat) -> real
  {
    (i: nat, j: nat) => PointY(i, j, time, halfWidth, range, amplitude, noise, sin, rand)
  }

  class WavyLinesScene {
    const camera: Camera
    const lines: LineGroup
    /** line.position.z of each line. */
    const depth: array<real>
    var visible: bool

    ghost predicate Valid()
      reads this, lines, depth
    {
      lines.Valid() && depth.Length == MaxLines && forall i :: 0 <= i < MaxLines ==> depth[i] == LineDepth(i)
    }

    /** The line loop of `init`: twenty visible, zero-filled lines, line i at depth map(i, 0, 20, 0, -5). */
    constructor (camera: Camera)
      ensures Valid() && visible && this.camera == camera
      ensures fresh(lines) && fresh(lines.visible) && fresh(lines.points)
      ensures forall i :: 0 <= i < MaxLines ==> lines.visible[i]
    {
      var zs := new real[MaxLines];
      var i := 0;
      while i < MaxLines
        invariant 0 <= i <= MaxLines
        invariant forall k :: 0 <= k < i ==> zs[k] == LineDepth(k)
      {
        zs[i] := Map(i as real, 0.0, MaxLines as real, 0.0, -5.0);
        i := i + 1;
      }
      this.camera := camera;
      depth := zs;
      lines := new LineGroup(true);
      visible := true;
    }

    /**
     * update: show the first floor(map(bass, 0, 1, 1, 20)) lines, each rewritten across the
     * view's width around its centre, and hide the rest without touching their points.
     */
    method Update(bass: real, mid: real, treble: real, time: real,
                  sin: real -> real, tan: real -> real, rand: (nat, nat) -> real)
      requires Valid()
      modifies lines.visible, lines.points
      ensures Valid()
      ensures forall i :: 0 <= i < MaxLines ==> lines.visible[i] == (i < VisibleLineCount(bass))
      ensures forall i, k :: 0 <= i < MaxLines && 0 <= k < RowLength ==>
        var halfWidth := HalfWidth(camera.fov, camera.z, camera.aspect, tan);
        lines.points[i, k] ==
          if i < VisibleLineCount(bass)
          then RowValue(i, k, halfWidth,
                        FrameYs(time, halfWidth, VerticalRange(camera.fov, camera.z, tan),
                                Map(mid, 0.0, 1.0, 0.1, 2.0), Map(treble, 0.0, 1.0, 0.0, 0.5), sin, rand))
          else old(lines.points[i, k])
    {
      var numLines := VisibleLineCount(bass);
      var waveAmplitude := Map(mid, 0.0, 1.0, 0.1, 2.0);
      var noiseAmount := Map(treble, 0.0, 1.0, 0.0, 0.5);
      var halfWidth := HalfWidth(camera.fov, camera.z, camera.aspect, tan);
      var verticalRange := VerticalRange(camera.fov, camera.z, tan);
      lines.Draw(numLines, halfWidth, FrameYs(time, halfWidth, verticalRange, waveAmplitude, noiseAmount, sin, rand));
    }

    method Show()
      modifies this`visible
      ensures visible
      ensures old(Valid()) ==> Valid()
    {
      visible := true;
    }

    method Hide()
      modifies this`visible
      ensures !visible
      ensures old(Valid()) ==> Valid()
    {
      visible := false;
    }
  }
}
