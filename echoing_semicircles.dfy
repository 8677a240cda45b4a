/**
 * scenes/EchoingSemicircles.js: two semicircles of 65 vertices each; the left one follows
 * the current bass, the right one the bass of 9 frames ago, read from a 10-entry history
 * (push, then shift once it is longer than 10).
 *
 * Math.cos, Math.sin and Math.sqrt are parameters; the per-vertex Math.random() of the
 * glitch term is `rand(i)` for vertex i.
 */
module EchoingSemicircles {
  import opened Utils

  const DelayFrames: nat := 10
  const Segments: nat := 64
  /** Vertices per semicircle times 3 coordinates. */
  const VertexBufferLength: nat := 195

  /** The history after push-then-shift: append x, and drop the oldest entry once there are more than 10. */
  function PushShift(h: seq<real>, x: real): (r: seq<real>)
    ensures |h| == DelayFrames ==> |r| == DelayFrames && r[DelayFrames - 1] == x
  {
    var pushed := h + [x];
    if |pushed| > DelayFrames then pushed[1..] else pushed
  }

  function Zeros(n: nat): (r: seq<real>)
    ensures |r| == n && forall i :: 0 <= i < n ==> r[i] == 0.0
  {
    seq(n, _ => 0.0)
  }

  /** The history as a window: the last 10 entries of ten zeros followed by every bass passed so far. */
  function Window(inputs: seq<real>): (r: seq<real>)
    ensures |r| == DelayFrames
  {
    (Zeros(DelayFrames) + inputs)[|inputs|..]
  }

  /** The push-then-shift step keeps the history equal to the window over all inputs. */
  lemma WindowStep(inputs: seq<real>, x: real)
    ensures Window(inputs + [x]) == PushShift(Window(inputs), x)
  {
    var all := Zeros(DelayFrames) + inputs;
    assert Zeros(DelayFrames) + (inputs + [x]) == all + [x];
    assert (all + [x])[|inputs| + 1..] == (all[|inputs|..] + [x])[1..];
  }

  /**
   * The delay line: after t updates the oldest entry is the bass passed 9 updates before the
   * latest, or 0 during the first 9 updates; the newest entry is the latest bass.
   */
  lemma DelayedBass(inputs: seq<real>)
    ensures Window(inputs)[0] == if |inputs| < DelayFrames then 0.0 else inputs[|inputs| - DelayFrames]
    ensures |inputs| > 0 ==> Window(inputs)[DelayFrames - 1] == inputs[|inputs| - 1]
  {
  }

  /** Radius of a semicircle for a bass level: 3 + map(bass, 0, 1, 0, 4). */
  function Radius(bass: real): real {
    3.0 + Map(bass, 0.0, 1.0, 0.0, 4.0)
  }

  /** For a bass level in [0, 1] the radius lies in [3, 7]. */
  lemma RadiusBounds(bass: real)
    requires 0.0 <= bass <= 1.0
    ensures 3.0 <= Radius(bass) <= 7.0
  {
    MapWithinRange(bass, 0.0, 1.0, 0.0, 4.0);
  }

  /** Angle of vertex i: from -pi/2 to pi/2 on the left, from pi/2 to 3 pi/2 on the right. */
  function VertexAngle(isLeft: bool, i: nat): real {
    var angleStart := if isLeft then -Pi / 2.0 else Pi / 2.0;
    var angleEnd := if isLeft then Pi / 2.0 else Pi * 1.5;
    angleStart + (angleEnd - angleStart) * (i as real / Segments as real)
  }

  /** The distance of a base vertex from the centre. */
  function BaseRadius(x: real, y: real, sqrt: real -> real): real {
    sqrt(x * x + y * y)
  }

  /** The distorted radius of vertex i. */
  function CurrentRadius(radius: real, baseRadius: real, i: nat, distortion: real, glitch: real,
                         rand: nat -> real, sin: real -> real): real
  {
    radius * baseRadius + sin(i as real * 0.5) * distortion + (rand(i) - 0.5) * glitch
  }

  /** A base coordinate scaled out from the base radius to the current radius. */
  function Scaled(b: real, baseRadius: real, currentRadius: real): real
    requires baseRadius != 0.0
  {
    b / baseRadius * currentRadius
  }

  /** With no distortion and no glitch every vertex is its base vertex times the radius. */
  lemma UndistortedScales(b: real, baseRadius: real, radius: real, i: nat, rand: nat -> real, sin: real -> real)
    requires baseRadius != 0.0
    ensures Scaled(b, baseRadius, CurrentRadius(radius, baseRadius, i, 0.0, 0.0, rand, sin)) == b * radius
  {
    assert CurrentRadius(radius, baseRadius, i, 0.0, 0.0, rand, sin) == radius * baseRadius;
    assert b / baseRadius * (radius * baseRadius) == b * radius by {
      assert b / baseRadius * baseRadius == b;
    }
  }

  class EchoingSemicirclesScene {
    const leftPositions: array<real>
    const rightPositions: array<real>
    const leftBase: array<real>
    const rightBase: array<real>
    var bassHistory: seq<real>
    var visible: bool
    /** Every bass passed to `update` so far. */
    ghost var inputs: seq<real>

    ghost predicate Valid()
      reads this
    {
      && leftPositions.Length == VertexBufferLength && rightPositions.Length == VertexBufferLength
      && leftBase.Length == VertexBufferLength && rightBase.Length == VertexBufferLength
      && leftPositions != rightPositions
      && {leftPositions, rightPositions} !! {leftBase, rightBase}
      && bassHistory == Window(inputs)
    }

    /** Vertex i of a semicircle: (cos, sin, 0) of its angle. */
    static function BaseCoord(isLeft: bool, k: nat, cos: real -> real, sin: real -> real): real {
      if k % 3 == 0 then cos(VertexAngle(isLeft, k / 3))
      else if k % 3 == 1 then sin(VertexAngle(isLeft, k / 3))
      else 0.0
    }

    /** init: both semicircles at their base vertices, and a history of ten zeros. */
    constructor (cos: real -> real, sin: real -> real)
      ensures Valid() && inputs == [] && bassHistory == Zeros(DelayFrames) && visible
      ensures forall k :: 0 <= k < VertexBufferLength ==>
                leftBase[k] == BaseCoord(true, k, cos, sin) && leftPositions[k] == leftBase[k]
      ensures forall k :: 0 <= k < VertexBufferLength ==>
                rightBase[k] == BaseCoord(false, k, cos, sin) && rightPositions[k] == rightBase[k]
    {
      leftPositions := new real[VertexBufferLength](k => BaseCoord(true, k, cos, sin));
      rightPositions := new real[VertexBufferLength](k => BaseCoord(false, k, cos, sin));
      leftBase := new real[VertexBufferLength](k => BaseCoord(true, k, cos, sin));
      rightBase := new real[VertexBufferLength](k => BaseCoord(false, k, cos, sin));
      var h: seq<real> := [];
      var i := 0;
      while i < DelayFrames
        invariant 0 <= i <= DelayFrames && h == Zeros(i)
      {
        h := h + [0.0];
        i := i + 1;
      }
      bassHistory := h;
      inputs := [];
      visible := true;
    }

    /** The distance of base vertex i from the centre. */
    static function VertexRadius(base: array<real>, i: nat, sqrt: real -> real): real
      reads base
      requires 3 * i + 1 < base.Length
    {
      BaseRadius(base[3 * i], base[3 * i + 1], sqrt)
    }

    /** The value updateSemicircleVertices writes at entry k (k % 3 < 2) of a semicircle. */
    static function NewCoord(base: array<real>, k: nat, radius: real, distortion: real, glitch: real,
                             rand: nat -> real, sin: real -> real, sqrt: real -> real): real
      reads base
      requires base.Length == VertexBufferLength && k < VertexBufferLength
      requires VertexRadius(base, k / 3, sqrt) != 0.0
    {
      var br := VertexRadius(base, k / 3, sqrt);
      Scaled(base[k], br, CurrentRadius(radius, br, k / 3, distortion, glitch, rand, sin))
    }

    /** The base vertices all lie off the centre, as the unit-circle points they are do. */
    static predicate OffCentre(base: array<real>, sqrt: real -> real)
      reads base
      requires base.Length == VertexBufferLength
    {
      forall i :: 0 <= i <= Segments ==> VertexRadius(base, i, sqrt) != 0.0
    }

    /**
     * updateSemicircleVertices: x and y of each of the 65 vertices become its base vertex scaled
     * to the distorted radius; z and the base vertices are not written.
     */
    method UpdateVertices(positions: array<real>, base: array<real>, radius: real, distortion: real,
                          glitch: real, rand: nat -> real, sin: real -> real, sqrt: real -> real)
      requires positions.Length == VertexBufferLength && base.Length == VertexBufferLength
      requires positions != base && OffCentre(base, sqrt)
      modifies positions
      ensures forall k :: 0 <= k < VertexBufferLength ==>
                positions[k] == if k % 3 < 2 then NewCoord(base, k, radius, distortion, glitch, rand, sin, sqrt)
                                else old(positions[k])
    {
      var i := 0;
      while i <= Segments
        invariant 0 <= i <= Segments + 1
        invariant OffCentre(base, sqrt)
        invariant forall k :: 0 <= k < VertexBufferLength ==>
                    positions[k] == if k / 3 < i && k % 3 < 2
                                    then NewCoord(base, k, radius, distortion, glitch, rand, sin, sqrt)
                                    else old(positions[k])
      {
        SetVertex(positions, base, i, radius, distortion, glitch, rand, sin, sqrt);
        i := i + 1;
      }
    }

    /** One pass of updateSemicircleVertices' loop: x and y of vertex i are rescaled. */
    static method SetVertex(positions: array<real>, base: array<real>, i: nat, radius: real, distortion: real,
                            glitch: real, rand: nat -> real, sin: real -> real, sqrt: real -> real)
      requires positions.Length == VertexBufferLength && base.Length == VertexBufferLength
      requires positions != base && i <= Segments && VertexRadius(base, i, sqrt) != 0.0
      modifies positions
      ensures forall k :: 0 <= k < VertexBufferLength ==>
                positions[k] == if k / 3 == i && k % 3 < 2
                                then NewCoord(base, k, radius, distortion, glitch, rand, sin, sqrt)
                                else old(positions[k])
    {
      var baseRadius := BaseRadius(base[i * 3], base[i * 3 + 1], sqrt);
      assert baseRadius == VertexRadius(base, i, sqrt);
      var currentRadius := radius * baseRadius + sin(i as real * 0.5) * distortion + (rand(i) - 0.5) * glitch;
      assert (3 * i) / 3 == i && (3 * i + 1) / 3 == i;
      positions[i * 3] := base[i * 3] / baseRadius * currentRadius;
      positions[i * 3 + 1] := base[i * 3 + 1] / baseRadius * currentRadius;
    }

    /**
     * update: push the bass into the history, then redraw the left semicircle with the current
     * bass and the right one with the delayed bass (the oldest history entry).
     */
    method Update(bass: real, mid: real, treble: real, randLeft: nat -> real, randRight: nat -> real,
                  sin: real -> real, sqrt: real -> real)
      requires Valid() && OffCentre(leftBase, sqrt) && OffCentre(rightBase, sqrt)
      modifies this, leftPositions, rightPositions
      ensures Valid() && inputs == old(inputs) + [bass] && visible == old(visible)
      ensures bassHistory == PushShift(old(bassHistory), bass)
      ensures var distortion := Map(mid, 0.0, 1.0, 0.0, 1.5);
        var glitch := Map(treble, 0.5, 1.0, 0.0, 0.5);
        && (forall k :: 0 <= k < VertexBufferLength ==>
              leftPositions[k] == if k % 3 < 2
                                  then NewCoord(leftBase, k, Radius(bass), distortion, glitch, randLeft, sin, sqrt)
                                  else old(leftPositions[k]))
        && (forall k :: 0 <= k < VertexBufferLength ==>
              rightPositions[k] == if k % 3 < 2
                                   then NewCoord(rightBase, k, Radius(bassHistory[0]), distortion, glitch, randRight, sin, sqrt)
                                   else old(rightPositions[k]))
    {
      WindowStep(inputs, bass);
      bassHistory := bassHistory + [bass];
      if |bassHistory| > DelayFrames {
        bassHistory := bassHistory[1..];
      }
      inputs := inputs + [bass];
      var delayedBass := bassHistory[0];
      var leftRadius := 3.0 + Map(bass, 0.0, 1.0, 0.0, 4.0);
      var rightRadius := 3.0 + Map(delayedBass, 0.0, 1.0, 0.0, 4.0);
      var distortion := Map(mid, 0.0, 1.0, 0.0, 1.5);
      var glitch := Map(treble, 0.5, 1.0, 0.0, 0.5);
      UpdateVertices(leftPositions, leftBase, leftRadius, distortion, glitch, randLeft, sin, sqrt);
      UpdateVertices(rightPositions, rightBase, rightRadius, distortion, glitch, randRight, sin, sqrt);
    }

    method Show()
      modifies this`visible
      ensures visible
      ensures old(Valid()) ==> Valid()
    {
      visible := true;
    }

    method Hide()
      modifies this`visible
      ensures !visible
      ensures old(Valid()) ==> Valid()
    {
      visible := false;
    }
  }
}
