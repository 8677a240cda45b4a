/**
 * scenes/CurveRacer.js: a glowing ball that races round a closed figure-of-eight course. The
 * mids set its speed, the bass its size, and treble above 0.3 makes the course shiver.
 *
 * The Catmull-Rom curve belongs to three.js: its 201 sampled points (`getPoints(200)`) come in
 * as `course`, three coordinates each, and `getPointAt` as the function `pointAt`. The
 * Math.random() draws of one frame are `rand(k)`, in [0, 1): two per course point, x then y.
 */
module CurveRacer {
  import opened Utils

  const CoursePoints: nat := 201
  const CourseLength: nat := 603

  /** The distance along the course travelled per frame for a mid level: map(mid, 0, 1, 0.001, 0.01). */
  function Pace(mid: real): real {
    Map(mid, 0.0, 1.0, 0.001, 0.01)
  }

  /** One frame of the racer's progress: forward by the pace, and back by one lap once past 1. */
  function Advance(progress: real, pace: real): real {
    var moved := progress + pace;
    if moved > 1.0 then moved - 1.0 else moved
  }

  /**
   * With the mids in [0, 1] the progress keeps inside [0, 1] and moves forward by the pace,
   * modulo one lap.
   */
  lemma ProgressStaysOnLap(progress: real, mid: real)
    requires 0.0 <= progress <= 1.0 && 0.0 <= mid <= 1.0
    ensures 0.001 <= Pace(mid) <= 0.01
    ensures 0.0 <= Advance(progress, Pace(mid)) <= 1.0
    ensures Advance(progress, Pace(mid)) == progress + Pace(mid)
         || Advance(progress, Pace(mid)) == progress + Pace(mid) - 1.0
  {
    MapWithinRange(mid, 0.0, 1.0, 0.001, 0.01);
  }

  /** The racer's size for a bass level: 1 + map(bass, 0, 1, 0, 2.5). */
  function RacerScale(bass: real): real {
    1.0 + Map(bass, 0.0, 1.0, 0.0, 2.5)
  }

  lemma RacerScaleBounds(bass: real)
    requires 0.0 <= bass <= 1.0
    ensures 1.0 <= RacerScale(bass) <= 3.5
  {
    MapWithinRange(bass, 0.0, 1.0, 0.0, 2.5);
  }

  /** How far the course shivers for a treble level: map(treble, 0.3, 1, 0, 0.5); positive just above 0.3. */
  function NoiseAmount(treble: real): real {
    Map(treble, 0.3, 1.0, 0.0, 0.5)
  }

  lemma NoiseOnlyAboveThreshold(treble: real)
    ensures NoiseAmount(treble) > 0.0 <==> treble > 0.3
    ensures treble <= 1.0 ==> NoiseAmount(treble) <= 0.5
  {
  }

  /** One coordinate's displacement: (r - 0.5) * noise. */
  function Jitter(r: real, noise: real): real {
    (r - 0.5) * noise
  }

  /** A draw in [0, 1) moves a coordinate by at most half the noise amount either way. */
  lemma JitterBounded(r: real, noise: real)
    requires 0.0 <= r < 1.0 && noise >= 0.0
    ensures -noise / 2.0 <= Jitter(r, noise) <= noise / 2.0
  {
    MulNonneg(r, noise);
    MulNonneg(1.0 - r, noise);
  }

  /** A course rebuilt from its base with draws in [0, 1) lies within half the noise of the base. */
  lemma ShiveredNearBase(pos: seq<real>, base: seq<real>, noise: real, rand: nat -> real)
    requires |pos| == CourseLength && |base| == CourseLength
    requires noise >= 0.0 && forall k :: 0.0 <= rand(k) < 1.0
    requires forall j :: 0 <= j < CoursePoints ==>
               && pos[3 * j] == base[3 * j] + Jitter(rand(2 * j), noise)
               && pos[3 * j + 1] == base[3 * j + 1] + Jitter(rand(2 * j + 1), noise)
    ensures forall j :: 0 <= j < CoursePoints ==>
              && base[3 * j] - noise / 2.0 <= pos[3 * j] <= base[3 * j] + noise / 2.0
              && base[3 * j + 1] - noise / 2.0 <= pos[3 * j + 1] <= base[3 * j + 1] + noise / 2.0
  {
    forall j | 0 <= j < CoursePoints
      ensures base[3 * j] - noise / 2.0 <= pos[3 * j] <= base[3 * j] + noise / 2.0
      ensures base[3 * j + 1] - noise / 2.0 <= pos[3 * j + 1] <= base[3 * j + 1] + noise / 2.0
    {
      JitterBounded(rand(2 * j), noise);
      JitterBounded(rand(2 * j + 1), noise);
    }
  }

  class CurveRacerScene {
    /** The course line's vertex buffer, x, y, z per point. */
    const positions: array<real>
    /** The copy of the course taken at `init`, which the shivering is measured from. */
    const basePositions: array<real>
    var progress: real
    var racerX: real
    var racerY: real
    var racerZ: real
    var racerScale: real
    var visible: bool

    ghost predicate Valid()
      reads this
    {
      && positions.Length == CourseLength && basePositions.Length == CourseLength
      && positions != basePositions
      && 0.0 <= progress <= 1.0
    }

    /** constructor and init: the course and its copy, the racer at the start with scale 1. */
    constructor (course: seq<real>)
      requires |course| == CourseLength
      ensures Valid() && visible && progress == 0.0 && racerScale == 1.0
      ensures positions[..] == course && basePositions[..] == course
    {
      positions := new real[CourseLength](k requires 0 <= k < CourseLength => course[k]);
      basePositions := new real[CourseLength](k requires 0 <= k < CourseLength => course[k]);
      progress := 0.0;
      racerX, racerY, racerZ := 0.0, 0.0, 0.0;
      racerScale := 1.0;
      visible := true;
    }

    /**
     * The course loop of `update`: every point's x and y is its base plus its own jitter,
     * its z is left as it is.
     */
    method Shiver(noise: real, rand: nat -> real)
      requires Valid()
      modifies positions
      ensures forall j :: 0 <= j < CoursePoints ==>
                && positions[3 * j] == basePositions[3 * j] + Jitter(rand(2 * j), noise)
                && positions[3 * j + 1] == basePositions[3 * j + 1] + Jitter(rand(2 * j + 1), noise)
                && positions[3 * j + 2] == old(positions[3 * j + 2])
      ensures noise >= 0.0 && (forall k :: 0.0 <= rand(k) < 1.0) ==>
                forall j :: 0 <= j < CoursePoints ==>
                  && basePositions[3 * j] - noise / 2.0 <= positions[3 * j] <= basePositions[3 * j] + noise / 2.0
                  && basePositions[3 * j + 1] - noise / 2.0 <= positions[3 * j + 1] <= basePositions[3 * j + 1] + noise / 2.0
    {
      var i := 0;
      var point := 0;
      while i < positions.Length
        invariant 0 <= point <= CoursePoints && i == 3 * point
        invariant forall j :: 0 <= j < point ==>
                    && positions[3 * j] == basePositions[3 * j] + Jitter(rand(2 * j), noise)
                    && positions[3 * j + 1] == basePositions[3 * j + 1] + Jitter(rand(2 * j + 1), noise)
        invariant forall j :: 0 <= j < CoursePoints ==> positions[3 * j + 2] == old(positions[3 * j + 2])
        invariant forall j :: point <= j < CoursePoints ==>
                    positions[3 * j] == old(positions[3 * j]) && positions[3 * j + 1] == old(positions[3 * j + 1])
      {
        var noiseX := (rand(2 * point) - 0.5) * noise;
        var noiseY := (rand(2 * point + 1) - 0.5) * noise;
        positions[i] := basePositions[i] + noiseX;
        positions[i + 1] := basePositions[i + 1] + noiseY;
        i, point := i + 3, point + 1;
      }
      if noise >= 0.0 && (forall k :: 0.0 <= rand(k) < 1.0) {
        ShiveredNearBase(positions[..], basePositions[..], noise, rand);
      }
    }

    /**
     * update: advance the racer along the course, size it by the bass, and, only when the
     * treble is above 0.3, rebuild the course from its base with fresh jitter.
     */
    method Update(bass: real, mid: real, treble: real, pointAt: real -> (real, real, real), rand: nat -> real)
      requires Valid() && 0.0 <= mid <= 1.0
      modifies this, positions
      ensures Valid() && visible == old(visible)
      ensures progress == Advance(old(progress), Pace(mid))
      ensures (racerX, racerY, racerZ) == pointAt(progress)
      ensures racerScale == RacerScale(bass)
      ensures NoiseAmount(treble) <= 0.0 ==> positions[..] == old(positions[..])
      ensures NoiseAmount(treble) > 0.0 ==>
                forall j :: 0 <= j < CoursePoints ==>
                  && positions[3 * j] == basePositions[3 * j] + Jitter(rand(2 * j), NoiseAmount(treble))
                  && positions[3 * j + 1] == basePositions[3 * j + 1] + Jitter(rand(2 * j + 1), NoiseAmount(treble))
                  && positions[3 * j + 2] == old(positions[3 * j + 2])
    {
      ProgressStaysOnLap(progress, mid);
      progress := progress + Map(mid, 0.0, 1.0, 0.001, 0.01);
      if progress > 1.0 {
        progress := progress - 1.0;
      }
      var (x, y, z) := pointAt(progress);
      racerX, racerY, racerZ := x, y, z;
      racerScale := 1.0 + Map(bass, 0.0, 1.0, 0.0, 2.5);
      var noiseAmount := Map(treble, 0.3, 1.0, 0.0, 0.5);
      if noiseAmount > 0.0 {
        Shiver(noiseAmount, rand);
      }
    }

    method Show()
      modifies this`visible
      ensures visible
      ensures old(Valid()) ==> Valid()
    {
      visible := true;
    }

    method Hide()
      modifies this`visible
      ensures !visible
      ensures old(Valid()) ==> Valid()
    {
      visible := false;
    }
  }
}
