/**
 * scenes/MirroredLake.js: a mountain drawn from the lower half of the byte spectrum and its
 * mirror image in a lake, under 2000 stars that drift upwards and wrap around.
 *
 * A THREE.Shape is kept as the list of points its moveTo/lineTo calls visit; turning it into
 * a ShapeGeometry is three.js's work and is not modelled. Math.tan is a parameter and the
 * Math.random() draws of `init` are `rand(k)`, in [0, 1).
 */
module MirroredLake {
  import opened Utils
  import opened Stage

  const NumStars: nat := 2000
  const StarBufferLength: nat := 6000
  const StarYRange: real := 100.0
  const MountainZ: real := -20.0

  datatype Point = Point(x: real, y: real)

  /**
   * The height of the view at the mountains' depth (z = -20) for a camera at depth `cameraZ`;
   * the mountains are as wide as the view, this height times the aspect ratio.
   */
  function LakeViewHeight(fov: real, cameraZ: real, tan: real -> real): real {
    ViewportHeight(fov, if cameraZ - MountainZ >= 0.0 then cameraZ - MountainZ else MountainZ - cameraZ, tan)
  }

  /** How many spectrum bins the mountain shows: the lower half, floor(0.5 n). */
  function PointsToShow(n: nat): nat {
    n / 2
  }

  /**
   * The outline of a mountain `width` wide whose ridge point i has height
   * map(data[i], 0, 255, 0, peak): it starts at the left end of the horizon, runs along the
   * ridge, and closes along the horizon back to its start. A negative peak mirrors it.
   */
  function Outline(data: seq<Byte>, width: real, peak: real): (r: seq<Point>)
    requires PointsToShow(|data|) != 1
  {
    var n := PointsToShow(|data|);
    [Point(-width / 2.0, 0.0)]
    + seq(n, i requires 0 <= i < n => Point(Map(i as real, 0.0, (n - 1) as real, -width / 2.0, width / 2.0),
                                             Map(data[i] as real, 0.0, 255.0, 0.0, peak)))
    + [Point(width / 2.0, 0.0), Point(-width / 2.0, 0.0)]
  }

  /**
   * The reflection is the mountain upside down: the same points with their heights negated;
   * both outlines are closed and visit floor(n / 2) ridge points spread evenly from the left
   * edge to the right edge.
   */
  lemma ReflectionMirrorsMountain(data: seq<Byte>, width: real, peak: real)
    requires PointsToShow(|data|) != 1
    ensures var m := Outline(data, width, peak);
      var r := Outline(data, width, -peak);
      && |m| == |r| == PointsToShow(|data|) + 3
      && m[0] == m[|m| - 1] == Point(-width / 2.0, 0.0)
      && (forall k :: 0 <= k < |m| ==> r[k].x == m[k].x && r[k].y == -m[k].y)
      && (PointsToShow(|data|) >= 2 ==> m[1].x == -width / 2.0 && m[PointsToShow(|data|)].x == width / 2.0)
  {
    var n := PointsToShow(|data|);
    var m := Outline(data, width, peak);
    var r := Outline(data, width, -peak);
    forall k | 1 <= k <= n
      ensures r[k].y == -m[k].y
    {
      var v := data[k - 1] as real;
      assert Map(v, 0.0, 255.0, 0.0, -peak) == -Map(v, 0.0, 255.0, 0.0, peak);
    }
    if n >= 2 {
      MapEndpoints(0.0, (n - 1) as real, -width / 2.0, width / 2.0);
    }
  }

  /** The mountain for a view `height` high: as wide as the view, peaking at 0.3 of its height. */
  function MountainShape(data: seq<Byte>, height: real, aspect: real): seq<Point>
    requires PointsToShow(|data|) != 1
  {
    Outline(data, ViewWidth(height, aspect), height * 0.3)
  }

  /** The reflection for a view `height` high: the same outline with peak -0.3 of the height. */
  function ReflectionShape(data: seq<Byte>, height: real, aspect: real): seq<Point>
    requires PointsToShow(|data|) != 1
  {
    Outline(data, ViewWidth(height, aspect), -height * 0.3)
  }

  /** For a non-negative peak every ridge point of the mountain lies between the horizon and the peak. */
  lemma MountainBelowPeak(data: seq<Byte>, width: real, peak: real)
    requires PointsToShow(|data|) != 1 && peak >= 0.0
    ensures forall k :: 0 <= k < |Outline(data, width, peak)| ==> 0.0 <= Outline(data, width, peak)[k].y <= peak
  {
    var n := PointsToShow(|data|);
    var m := Outline(data, width, peak);
    forall k | 1 <= k <= n
      ensures 0.0 <= m[k].y <= peak
    {
      MapWithinRange(data[k - 1] as real, 0.0, 255.0, 0.0, peak);
    }
  }

  /** One frame of a star's y: up by the speed, and down by 100 once it is above 100. */
  function StarStep(y: real, speed: real): real {
    var moved := y + speed;
    if moved > StarYRange then moved - StarYRange else moved
  }

  /** A star in [0, 100] stays there when the speed is in [0, 100]. */
  lemma StarStaysInSky(y: real, speed: real)
    requires 0.0 <= y <= StarYRange && 0.0 <= speed <= StarYRange
    ensures 0.0 <= StarStep(y, speed) <= StarYRange
  {
  }

  /** The drift speed of the stars for a mid level: map(mid, 0, 1, 0, 0.1), in [0, 0.1] for mid in [0, 1]. */
  function StarSpeed(mid: real): real {
    Map(mid, 0.0, 1.0, 0.0, 0.1)
  }

  lemma StarSpeedBounds(mid: real)
    requires 0.0 <= mid <= 1.0
    ensures 0.0 <= StarSpeed(mid) <= 0.1
  {
    MapWithinRange(mid, 0.0, 1.0, 0.0, 0.1);
  }

  class MirroredLakeScene {
    const camera: Camera
    /** x, y, z of each star; the reflection draws the same buffer flipped. */
    const starPositions: array<real>
    const starColors: array<real>
    var mountainOutline: seq<Point>
    var reflectedOutline: seq<Point>
    var starOpacity: real
    var reflectedStarOpacity: real
    var visible: bool

    ghost predicate Valid()
      reads this, starPositions
    {
      && starPositions.Length == StarBufferLength && starColors.Length == StarBufferLength
      && starPositions != starColors
      && forall i :: 0 <= i < NumStars ==> 0.0 <= starPositions[3 * i + 1] <= StarYRange
    }

    /** Star coordinate k from the draws of `init`: star i takes rand(4 i) .. rand(4 i + 2). */
    static function InitialStarCoord(k: nat, rand: nat -> real): real {
      var i := k / 3;
      if k % 3 == 0 then (rand(4 * i) - 0.5) * 400.0
      else if k % 3 == 1 then rand(4 * i + 1) * StarYRange
      else (rand(4 * i + 2) - 0.5) * 50.0 - 20.0
    }

    /** The grey level of star k / 3: rand(4 i + 3) * 0.5 + 0.5. */
    static function InitialStarColor(k: nat, rand: nat -> real): real {
      rand(4 * (k / 3) + 3) * 0.5 + 0.5
    }

    /** Entries 3 i, 3 i + 1 and 3 i + 2 are the x, y and z of star i. */
    static lemma StarSlots(i: nat)
      ensures (3 * i) / 3 == i && (3 * i) % 3 == 0
      ensures (3 * i + 1) / 3 == i && (3 * i + 1) % 3 == 1
      ensures (3 * i + 2) / 3 == i && (3 * i + 2) % 3 == 2
    {
    }

    /** The star loop of `init`. */
    static method PlaceStars(ps: array<real>, cs: array<real>, rand: nat -> real)
      requires ps.Length == StarBufferLength && cs.Length == StarBufferLength && ps != cs
      modifies ps, cs
      ensures forall k :: 0 <= k < StarBufferLength ==>
                ps[k] == InitialStarCoord(k, rand) && cs[k] == InitialStarColor(k, rand)
    {
      var i := 0;
      while i < NumStars
        invariant 0 <= i <= NumStars
        invariant forall k :: 0 <= k < 3 * i ==>
                    ps[k] == InitialStarCoord(k, rand) && cs[k] == InitialStarColor(k, rand)
      {
        StarSlots(i);
        var x := (rand(4 * i) - 0.5) * 400.0;
        var y := rand(4 * i + 1) * StarYRange;
        var z := (rand(4 * i + 2) - 0.5) * 50.0 - 20.0;
        ps[3 * i], ps[3 * i + 1], ps[3 * i + 2] := x, y, z;
        var brightness := rand(4 * i + 3) * 0.5 + 0.5;
        cs[3 * i], cs[3 * i + 1], cs[3 * i + 2] := brightness, brightness, brightness;
        i := i + 1;
      }
    }

    /** constructor and init: random stars in [-200, 200) x [0, 100) x [-45, 5), empty mountains. */
    constructor (camera: Camera, rand: nat -> real)
      requires forall k :: 0.0 <= rand(k) < 1.0
      ensures Valid() && visible && this.camera == camera
      ensures forall k :: 0 <= k < StarBufferLength ==>
                starPositions[k] == InitialStarCoord(k, rand) && starColors[k] == InitialStarColor(k, rand)
      ensures mountainOutline == [] && reflectedOutline == [] && reflectedStarOpacity == 0.4
    {
      var ps := new real[StarBufferLength];
      var cs := new real[StarBufferLength];
      PlaceStars(ps, cs, rand);
      this.camera := camera;
      starPositions, starColors := ps, cs;
      mountainOutline, reflectedOutline := [], [];
      starOpacity, reflectedStarOpacity := 1.0, 0.4;
      visible := true;
      new;
      forall i | 0 <= i < NumStars
        ensures 0.0 <= starPositions[3 * i + 1] <= StarYRange
      {
        assert starPositions[3 * i + 1] == rand(4 * i + 1) * StarYRange;
        MulNonneg(rand(4 * i + 1), StarYRange);
        MulNonneg(1.0 - rand(4 * i + 1), StarYRange);
      }
    }

    /** One of the two shape loops of `update`: the outline for a given peak. */
    static method BuildOutline(data: seq<Byte>, width: real, peak: real) returns (shape: seq<Point>)
      requires PointsToShow(|data|) != 1
      ensures shape == Outline(data, width, peak)
    {
      shape := [Point(-width / 2.0, 0.0)];
      var pointsToShow := |data| / 2;
      var i := 0;
      while i < pointsToShow
        invariant 0 <= i <= pointsToShow && |shape| == i + 1
        invariant shape[0] == Point(-width / 2.0, 0.0)
        invariant forall k :: 1 <= k <= i ==>
                    shape[k] == Point(Map((k - 1) as real, 0.0, (pointsToShow - 1) as real, -width / 2.0, width / 2.0),
                                      Map(data[k - 1] as real, 0.0, 255.0, 0.0, peak))
      {
        var x := Map(i as real, 0.0, (pointsToShow - 1) as real, -width / 2.0, width / 2.0);
        var y := Map(data[i] as real, 0.0, 255.0, 0.0, peak);
        shape := shape + [Point(x, y)];
        i := i + 1;
      }
      shape := shape + [Point(width / 2.0, 0.0)];
      shape := shape + [Point(-width / 2.0, 0.0)];
    }

    /** The shape part of `update`: the mountain and its reflection, as wide as the view. */
    method Redraw(data: seq<Byte>, tan: real -> real)
      requires PointsToShow(|data|) != 1
      modifies this
      ensures mountainOutline == MountainShape(data, LakeViewHeight(camera.fov, camera.z, tan), camera.aspect)
      ensures reflectedOutline == ReflectionShape(data, LakeViewHeight(camera.fov, camera.z, tan), camera.aspect)
      ensures starOpacity == old(starOpacity) && reflectedStarOpacity == old(reflectedStarOpacity)
      ensures visible == old(visible)
    {
      var height := LakeViewHeight(camera.fov, camera.z, tan);
      var aspect := camera.aspect;
      var width := ViewWidth(height, aspect);
      var shape := BuildOutline(data, width, height * 0.3);
      var reflected := BuildOutline(data, width, -height * 0.3);
      mountainOutline, reflectedOutline := shape, reflected;
    }

    /** The star loop of `update`: only the y of each star moves. */
    method DriftStars(speed: real)
      requires Valid() && 0.0 <= speed <= StarYRange
      modifies starPositions
      ensures Valid()
      ensures forall k :: 0 <= k < StarBufferLength ==>
                starPositions[k] == if k % 3 == 1 then StarStep(old(starPositions[k]), speed) else old(starPositions[k])
    {
      var i := 0;
      while i < NumStars
        invariant 0 <= i <= NumStars
        invariant forall k :: 0 <= k < StarBufferLength ==>
                    starPositions[k] == if k % 3 == 1 && k / 3 < i then StarStep(old(starPositions[k]), speed)
                                        else old(starPositions[k])
        invariant forall j :: 0 <= j < NumStars ==> 0.0 <= starPositions[3 * j + 1] <= StarYRange
      {
        var y := starPositions[3 * i + 1];
        StarStaysInSky(y, speed);
        starPositions[3 * i + 1] := y + speed;
        if starPositions[3 * i + 1] > StarYRange {
          starPositions[3 * i + 1] := starPositions[3 * i + 1] - StarYRange;
        }
        i := i + 1;
      }
    }

    /**
     * update: nothing at all without spectrum data; otherwise rebuild the mountain and its
     * reflection for the current view, drift the stars, and set the star opacities.
     */
    method Update(mid: real, treble: real, frequencyData: Option<seq<Byte>>, tan: real -> real)
      requires Valid() && 0.0 <= mid <= 1.0
      requires frequencyData.Some? ==> PointsToShow(|frequencyData.value|) != 1
      modifies this, starPositions
      ensures Valid() && visible == old(visible)
      ensures frequencyData.None? ==>
                && mountainOutline == old(mountainOutline) && reflectedOutline == old(reflectedOutline)
                && starPositions[..] == old(starPositions[..])
                && starOpacity == old(starOpacity) && reflectedStarOpacity == old(reflectedStarOpacity)
      ensures frequencyData.Some? ==>
                && mountainOutline == MountainShape(frequencyData.value, LakeViewHeight(camera.fov, camera.z, tan), camera.aspect)
                && reflectedOutline == ReflectionShape(frequencyData.value, LakeViewHeight(camera.fov, camera.z, tan), camera.aspect)
                && (forall k :: 0 <= k < StarBufferLength ==>
                      starPositions[k] == if k % 3 == 1 then StarStep(old(starPositions[k]), StarSpeed(mid))
                                          else old(starPositions[k]))
                && starOpacity == Map(treble, 0.0, 0.5, 0.2, 2.0)
                && reflectedStarOpacity == starOpacity * 0.3
    {
      if frequencyData.None? {
        return;
      }
      Redraw(frequencyData.value, tan);
      var speed := Map(mid, 0.0, 1.0, 0.0, 0.1);
      StarSpeedBounds(mid);
      DriftStars(speed);
      starOpacity := Map(treble, 0.0, 0.5, 0.2, 2.0);
      reflectedStarOpacity := starOpacity * 0.3;
    }

    method Show()
      modifies this`visible
      ensures visible
      ensures old(Valid()) ==> Valid()
    {
      visible := true;
    }

    method Hide()
      modifies this`visible
      ensures !visible
      ensures old(Valid()) ==> Valid()
    {
      visible := false;
    }
  }
}
