/**
 * scenes/ElevatorShaft.js: an elevator rising through an endless shaft. Ten shaft segments
 * scroll down and wrap around; three layers of building windows scroll down at their own
 * parallax speeds, each layer as two copies that leapfrog each other; a bass attack flashes the
 * elevator floor, and treble lights random windows.
 *
 * A window colour is the foreground colour times a scalar; the model keeps the scalar per
 * window in `windowShades`, the six window meshes one after the other (layer by layer, the
 * first copy before the second). Math.random() draws are parameters in [0, 1).
 */
module ElevatorShaft {
  import opened Utils
  import opened Envelopes

  const NumShaftSegments: nat := 10
  const ShaftHeight: real := 5.0
  /** The whole shaft, 10 segments of 5: the segments wrap around over this height. */
  const TotalShaftHeight: real := 50.0
  const HalfHeight: real := 25.0
  const NumLayers: nat := 3
  /** Vertical extent of one copy of a building layer. */
  const YRange: real := 60.0
  const BassAttackThreshold: real := 0.1
  /** Windows per mesh of each layer: 40, 60, 80; two meshes per layer. */
  const NumWindows: nat := 360

  /** The parallax speed factor of layer l: the nearest layer moves fastest. */
  function SpeedFactor(l: nat): real
    requires l < NumLayers
  {
    [1.0, 0.5, 0.2][l]
  }

  /** The elevator's speed for a mid level: map(mid, 0, 1, 0.08, 0.8). */
  function Speed(mid: real): real {
    Map(mid, 0.0, 1.0, 0.08, 0.8)
  }

  lemma SpeedBounds(mid: real)
    requires 0.0 <= mid <= 1.0
    ensures 0.08 <= Speed(mid) <= 0.8
  {
    MapWithinRange(mid, 0.0, 1.0, 0.08, 0.8);
  }

  /** Where `init` puts shaft segment i: 5 i - 25. */
  function InitialSegmentY(i: nat): real {
    i as real * ShaftHeight - (NumShaftSegments as real * ShaftHeight / 2.0)
  }

  /** One frame of a shaft segment: down by the speed, then up by 50 once it is below -25. */
  function SegmentStep(y: real, speed: real): real {
    var moved := y - speed;
    if moved < -HalfHeight then moved + TotalShaftHeight else moved
  }

  /** A segment in [-25, 25) stays there when the speed is in [0, 50]. */
  lemma SegmentStaysInShaft(y: real, speed: real)
    requires -HalfHeight <= y < HalfHeight && 0.0 <= speed <= TotalShaftHeight
    ensures -HalfHeight <= SegmentStep(y, speed) < HalfHeight
  {
  }

  /**
   * The shaft scrolls rigidly: a segment at its start position moved down by d, modulo 50, is
   * after a step of s at its start position moved down by d + s, modulo 50; `laps` counts the
   * wraps.
   */
  lemma SegmentScrollsRigidly(i: nat, y: real, d: real, laps: int, speed: real)
    requires y == InitialSegmentY(i) - d + TotalShaftHeight * laps as real
    ensures var laps' := if y - speed < -HalfHeight then laps + 1 else laps;
      SegmentStep(y, speed) == InitialSegmentY(i) - (d + speed) + TotalShaftHeight * laps' as real
  {
  }

  /** The two copies of a building layer after one frame of moving down by `step`. */
  function Leapfrog(mesh1: real, mesh2: real, step: real): (real, real) {
    var m1 := mesh1 - step;
    var m2 := mesh2 - step;
    var m1' := if m1 < -YRange then m2 + YRange else m1;
    var m2' := if m2 < -YRange then m1' + YRange else m2;
    (m1', m2')
  }

  /** The two copies are stacked: one exactly 60 above the other, the lower one not below -60. */
  ghost predicate Stacked(mesh1: real, mesh2: real) {
    && (mesh2 == mesh1 + YRange || mesh1 == mesh2 + YRange)
    && -YRange <= Min(mesh1, mesh2)
  }

  /**
   * Leapfrogging keeps the copies stacked for any step up to 60: the copy that falls below
   * -60 jumps on top of the other, so together they always cover 120 units from the lower one.
   */
  lemma LeapfrogKeepsStacked(mesh1: real, mesh2: real, step: real)
    requires Stacked(mesh1, mesh2) && 0.0 <= step <= YRange
    ensures Stacked(Leapfrog(mesh1, mesh2, step).0, Leapfrog(mesh1, mesh2, step).1)
  {
  }

  /** The flicker threshold for a treble level: 1 - map(treble, 0.2, 1, 0, 0.95). */
  function FlickerThreshold(treble: real): real {
    1.0 - Map(treble, 0.2, 1.0, 0.0, 0.95)
  }

  /** The shade of a window: lit to map(bright, 0, 1, 0.1, 0.8) when its draw passes the threshold, else 0.1. */
  function WindowShade(treble: real, flicker: real, bright: real): real {
    if flicker > FlickerThreshold(treble) then Map(bright, 0.0, 1.0, 0.1, 0.8) else 0.1
  }

  /**
   * Every window shade lies in [0.1, 0.8]; at a treble of 0.2 or less no window lights, and only
   * a lit window is brighter than 0.1.
   */
  lemma WindowShadeBounds(treble: real, flicker: real, bright: real)
    requires 0.0 <= flicker < 1.0 && 0.0 <= bright < 1.0
    ensures 0.1 <= WindowShade(treble, flicker, bright) <= 0.8
    ensures treble <= 0.2 ==> WindowShade(treble, flicker, bright) == 0.1
    ensures WindowShade(treble, flicker, bright) > 0.1 ==> flicker > FlickerThreshold(treble)
  {
    MapWithinRange(bright, 0.0, 1.0, 0.1, 0.8);
    if treble <= 0.2 {
      MapMonotone(treble, 0.2, 0.2, 1.0, 0.0, 0.95);
      MapEndpoints(0.2, 1.0, 0.0, 0.95);
    }
  }

  /** The floor opacity for an envelope: 0.2 + 0.5 e, in [0.2, 0.7] for e in [0, 1]. */
  function FloorOpacity(e: real): real {
    0.2 + e * 0.5
  }

  lemma FloorOpacityBounds(e: real)
    requires 0.0 <= e <= 1.0
    ensures 0.2 <= FloorOpacity(e) <= 0.7
  {
    MulNonneg(e, 0.5);
    MulNonneg(1.0 - e, 0.5);
  }

  class ElevatorShaftScene {
    const segmentY: array<real>
    /** The y of the first and second copy of each building layer. */
    const mesh1Y: array<real>
    const mesh2Y: array<real>
    const windowShades: array<real>
    var bassAttackEffect: real
    var unitOpacity: real
    var floorOpacity: real
    var visible: bool
    /** The distance the shaft has scrolled since `init`. */
    ghost var travelled: real
    /** How often each segment has wrapped around. */
    ghost var laps: seq<int>

    ghost predicate Valid()
      reads this, segmentY, mesh1Y, mesh2Y
    {
      && segmentY.Length == NumShaftSegments && mesh1Y.Length == NumLayers && mesh2Y.Length == NumLayers
      && windowShades.Length == NumWindows && mesh1Y != mesh2Y
      && segmentY != mesh1Y && segmentY != mesh2Y
      && |laps| == NumShaftSegments
      && (forall i :: 0 <= i < NumShaftSegments ==>
            segmentY[i] == InitialSegmentY(i) - travelled + TotalShaftHeight * laps[i] as real)
      && (forall i :: 0 <= i < NumShaftSegments ==> -HalfHeight <= segmentY[i] < HalfHeight)
      && (forall l :: 0 <= l < NumLayers ==> Stacked(mesh1Y[l], mesh2Y[l]))
      && 0.0 <= bassAttackEffect <= 1.0
    }

    /** constructor and init: segments at 5 i - 25, each layer's second copy 60 above its first. */
    constructor ()
      ensures Valid() && visible && travelled == 0.0 && bassAttackEffect == 0.0
      ensures forall i :: 0 <= i < NumShaftSegments ==> segmentY[i] == InitialSegmentY(i)
      ensures forall l :: 0 <= l < NumLayers ==> mesh1Y[l] == 0.0 && mesh2Y[l] == YRange
    {
      var ys := new real[NumShaftSegments];
      var i := 0;
      while i < NumShaftSegments
        invariant 0 <= i <= NumShaftSegments
        invariant forall j :: 0 <= j < i ==> ys[j] == InitialSegmentY(j)
      {
        ys[i] := i as real * ShaftHeight - (NumShaftSegments as real * ShaftHeight / 2.0);
        i := i + 1;
      }
      segmentY := ys;
      mesh1Y := new real[NumLayers](_ => 0.0);
      mesh2Y := new real[NumLayers](_ => YRange);
      windowShades := new real[NumWindows](_ => 0.1);
      bassAttackEffect := 0.0;
      unitOpacity := 0.2;
      floorOpacity := 0.2;
      visible := true;
      travelled := 0.0;
      laps := seq(NumShaftSegments, _ => 0);
    }

    /** The shaft loop of `update`. */
    method ScrollShaft(speed: real)
      requires Valid() && 0.0 <= speed <= TotalShaftHeight
      modifies this, segmentY
      ensures Valid() && travelled == old(travelled) + speed
      ensures forall i :: 0 <= i < NumShaftSegments ==> segmentY[i] == SegmentStep(old(segmentY[i]), speed)
      ensures bassAttackEffect == old(bassAttackEffect) && unitOpacity == old(unitOpacity)
      ensures floorOpacity == old(floorOpacity) && visible == old(visible)
    {
      ghost var newLaps := laps;
      var i := 0;
      while i < NumShaftSegments
        invariant 0 <= i <= NumShaftSegments && |newLaps| == NumShaftSegments
        invariant laps == old(laps) && travelled == old(travelled)
        invariant forall j :: 0 <= j < NumShaftSegments ==>
                    segmentY[j] == if j < i then SegmentStep(old(segmentY[j]), speed) else old(segmentY[j])
        invariant forall j :: 0 <= j < i ==>
                    segmentY[j] == InitialSegmentY(j) - (travelled + speed) + TotalShaftHeight * newLaps[j] as real
        invariant forall j :: i <= j < NumShaftSegments ==> newLaps[j] == laps[j]
        invariant forall j :: 0 <= j < NumShaftSegments ==> -HalfHeight <= segmentY[j] < HalfHeight
        invariant bassAttackEffect == old(bassAttackEffect) && unitOpacity == old(unitOpacity)
        invariant floorOpacity == old(floorOpacity) && visible == old(visible)
      {
        SegmentScrollsRigidly(i, segmentY[i], travelled, laps[i], speed);
        SegmentStaysInShaft(segmentY[i], speed);
        if segmentY[i] - speed < -HalfHeight {
          newLaps := newLaps[i := newLaps[i] + 1];
        }
        segmentY[i] := segmentY[i] - speed;
        if segmentY[i] < -HalfHeight {
          segmentY[i] := segmentY[i] + TotalShaftHeight;
        }
        i := i + 1;
      }
      travelled := travelled + speed;
      laps := newLaps;
    }

    /** The building loop of `update`: every layer moves by speed times its factor and leapfrogs. */
    method ScrollBuildings(speed: real)
      requires Valid() && 0.0 <= speed <= YRange
      modifies mesh1Y, mesh2Y
      ensures Valid()
      ensures forall l :: 0 <= l < NumLayers ==>
                (mesh1Y[l], mesh2Y[l]) == Leapfrog(old(mesh1Y[l]), old(mesh2Y[l]), speed * SpeedFactor(l))
    {
      var l := 0;
      while l < NumLayers
        invariant 0 <= l <= NumLayers
        invariant forall j :: 0 <= j < NumLayers ==>
                    (mesh1Y[j], mesh2Y[j]) == if j < l then Leapfrog(old(mesh1Y[j]), old(mesh2Y[j]), speed * SpeedFactor(j))
                                              else (old(mesh1Y[j]), old(mesh2Y[j]))
        invariant forall j :: 0 <= j < NumLayers ==> Stacked(mesh1Y[j], mesh2Y[j])
      {
        var step := speed * SpeedFactor(l);
        MulNonneg(speed, SpeedFactor(l));
        MulNonneg(speed, 1.0 - SpeedFactor(l));
        LeapfrogKeepsStacked(mesh1Y[l], mesh2Y[l], step);
        mesh1Y[l] := mesh1Y[l] - step;
        mesh2Y[l] := mesh2Y[l] - step;
        if mesh1Y[l] < -YRange {
          mesh1Y[l] := mesh2Y[l] + YRange;
        }
        if mesh2Y[l] < -YRange {
          mesh2Y[l] := mesh1Y[l] + YRange;
        }
        l := l + 1;
      }
    }

    /** The window loops of `update`: window w uses the draws flicker(w) and bright(w). */
    method FlickerWindows(treble: real, flicker: nat -> real, bright: nat -> real)
      requires windowShades.Length == NumWindows
      modifies windowShades
      ensures forall w :: 0 <= w < NumWindows ==> windowShades[w] == WindowShade(treble, flicker(w), bright(w))
    {
      var flickerThreshold := 1.0 - Map(treble, 0.2, 1.0, 0.0, 0.95);
      var w := 0;
      while w < NumWindows
        invariant 0 <= w <= NumWindows
        invariant forall v :: 0 <= v < w ==> windowShades[v] == WindowShade(treble, flicker(v), bright(v))
      {
        if flicker(w) > flickerThreshold {
          windowShades[w] := Map(bright(w), 0.0, 1.0, 0.1, 0.8);
        } else {
          windowShades[w] := 0.1;
        }
        w := w + 1;
      }
    }

    /** The elevator part of `update`: the unit glows with the bass, the floor flashes on an attack. */
    method LightElevator(bass: real, bassAttack: real)
      requires Valid()
      modifies this
      ensures Valid() && visible == old(visible)
      ensures travelled == old(travelled) && laps == old(laps)
      ensures var e := Triggered(old(bassAttackEffect), bassAttack, BassAttackThreshold, 1.0);
        && unitOpacity == Map(bass, 0.0, 1.0, 0.2, 0.8)
        && floorOpacity == FloorOpacity(e)
        && bassAttackEffect == Decayed(e, 0.85)
    {
      if bassAttack > BassAttackThreshold {
        bassAttackEffect := 1.0;
      }
      unitOpacity := Map(bass, 0.0, 1.0, 0.2, 0.8);
      floorOpacity := 0.2 + bassAttackEffect * 0.5;
      EnvelopeBounds(old(bassAttackEffect), bassAttack, BassAttackThreshold, 1.0, 0.85);
      bassAttackEffect := bassAttackEffect * 0.85;
    }

    /**
     * update: scroll the shaft and the buildings at the mid-driven speed, flash the floor on a
     * bass attack, light windows with the treble.
     */
    method Update(bass: real, mid: real, treble: real, bassAttack: real,
                  flicker: nat -> real, bright: nat -> real)
      requires Valid() && 0.0 <= mid <= 1.0
      modifies this, segmentY, mesh1Y, mesh2Y, windowShades
      ensures Valid() && visible == old(visible)
      ensures travelled == old(travelled) + Speed(mid)
      ensures forall i :: 0 <= i < NumShaftSegments ==> segmentY[i] == SegmentStep(old(segmentY[i]), Speed(mid))
      ensures forall l :: 0 <= l < NumLayers ==>
                (mesh1Y[l], mesh2Y[l]) == Leapfrog(old(mesh1Y[l]), old(mesh2Y[l]), Speed(mid) * SpeedFactor(l))
      ensures var e := Triggered(old(bassAttackEffect), bassAttack, BassAttackThreshold, 1.0);
        && unitOpacity == Map(bass, 0.0, 1.0, 0.2, 0.8)
        && floorOpacity == FloorOpacity(e)
        && bassAttackEffect == Decayed(e, 0.85)
      ensures forall w :: 0 <= w < NumWindows ==> windowShades[w] == WindowShade(treble, flicker(w), bright(w))
    {
      var speed := Map(mid, 0.0, 1.0, 0.08, 0.8);
      SpeedBounds(mid);
      ScrollShaft(speed);
      ScrollBuildings(speed);
      LightElevator(bass, bassAttack);
      FlickerWindows(treble, flicker, bright);
    }

    method Show()
      modifies this`visible
      ensures visible
      ensures old(Valid()) ==> Valid()
    {
      visible := true;
    }

    method Hide()
      modifies this`visible
      ensures !visible
      ensures old(Valid()) ==> Valid()
    {
      visible := false;
    }
  }
}
