/**
 * scenes/InfiniteTunnel.js: twenty wire rings, evenly spaced along 100 units of depth, that
 * fly towards the camera at a speed set by the mids; a ring that passes the camera goes back
 * to the far end, so the tunnel never ends. The bass widens the tunnel, the treble twists it.
 *
 * Each ring is reduced to the two numbers `update` writes, its `position.z` and `rotation.z`;
 * the group to its `scale` and `visible`.
 */
module InfiniteTunnel {
  import opened Utils
  import opened Stage

  const NumRings: nat := 20
  const RingSegments: nat := 32
  const TunnelDepth: real := 100.0

  /** Where `init` puts ring i: (i / 20) * -100, so 5 units apart from 0 back to -95. */
  function InitialRingZ(i: nat): real {
    (i as real / NumRings as real) * -TunnelDepth
  }

  lemma InitialRingsEvenlySpaced(i: nat)
    requires i < NumRings
    ensures InitialRingZ(i) == -5.0 * i as real
    ensures -TunnelDepth < InitialRingZ(i) <= 0.0
    ensures i + 1 < NumRings ==> InitialRingZ(i) - InitialRingZ(i + 1) == 5.0
  {
  }

  /** The flight speed for a mid level: map(mid, 0, 1, 0.1, 0.8). */
  function FlightSpeed(mid: real): real {
    Map(mid, 0.0, 1.0, 0.1, 0.8)
  }

  /** The scale of the tunnel's cross-section for a bass level: 1 + map(bass, 0, 1, 0, 0.8). */
  function CrossSection(bass: real): real {
    1.0 + Map(bass, 0.0, 1.0, 0.0, 0.8)
  }

  /** With the levels in [0, 1] the tunnel flies at 0.1 to 0.8 a frame and widens up to 1.8 times. */
  lemma LevelsBounded(mid: real, bass: real)
    requires 0.0 <= mid <= 1.0 && 0.0 <= bass <= 1.0
    ensures 0.1 <= FlightSpeed(mid) <= 0.8
    ensures 1.0 <= CrossSection(bass) <= 1.8
  {
    MapWithinRange(mid, 0.0, 1.0, 0.1, 0.8);
    MapWithinRange(bass, 0.0, 1.0, 0.0, 0.8);
  }

  /** The twist added per frame for a treble level: map(treble, 0, 1, 0, 0.3). */
  function Twist(treble: real): real {
    Map(treble, 0.0, 1.0, 0.0, 0.3)
  }

  /** One frame of a ring's depth: forward by the speed, and back by 100 once past the camera. */
  function RingStep(z: real, speed: real, cameraZ: real): real {
    var moved := z + speed;
    if moved > cameraZ then moved - TunnelDepth else moved
  }

  /** The deepest a ring can be: 100 behind the camera, or 100 behind the origin where `init` puts them. */
  function Floor(cameraZ: real): real {
    Min(-TunnelDepth, cameraZ - TunnelDepth)
  }

  /**
   * A ring between the floor and the camera stays there, whatever forward speed up to the
   * tunnel depth it flies at.
   */
  lemma RingStaysInTunnel(z: real, speed: real, cameraZ: real)
    requires Floor(cameraZ) < z <= cameraZ && 0.0 <= speed <= TunnelDepth
    ensures Floor(cameraZ) < RingStep(z, speed, cameraZ) <= cameraZ
  {
  }

  /**
   * Every ring moves by the same amount modulo the tunnel depth, so the gaps between two
   * rings are kept up to a whole tunnel length: the tunnel stays evenly spaced.
   */
  lemma RingsKeepTheirSpacing(a: real, b: real, speed: real, cameraZ: real)
    ensures var d := RingStep(a, speed, cameraZ) - RingStep(b, speed, cameraZ);
      d == a - b || d == a - b + TunnelDepth || d == a - b - TunnelDepth
    ensures RingStep(a, speed, cameraZ) == a + speed || RingStep(a, speed, cameraZ) == a + speed - TunnelDepth
  {
  }

  class InfiniteTunnelScene {
    const camera: Camera
    const ringZ: array<real>
    const ringRotation: array<real>
    var speed: real
    var scaleX: real
    var scaleY: real
    var scaleZ: real
    var visible: bool

    /** Every ring is between the floor and the camera. */
    ghost predicate Valid()
      reads this, camera, ringZ
    {
      && ringZ.Length == NumRings && ringRotation.Length == NumRings && ringZ != ringRotation
      && forall i :: 0 <= i < NumRings ==> Floor(camera.z) < ringZ[i] <= camera.z
    }

    /** The ring loop of `init`. */
    static method PlaceRings(zs: array<real>, rs: array<real>)
      requires zs.Length == NumRings && rs.Length == NumRings && zs != rs
      modifies zs, rs
      ensures forall i :: 0 <= i < NumRings ==> zs[i] == InitialRingZ(i) && rs[i] == 0.0
    {
      var i := 0;
      while i < NumRings
        invariant 0 <= i <= NumRings
        invariant forall k :: 0 <= k < i ==> zs[k] == InitialRingZ(k) && rs[k] == 0.0
      {
        zs[i] := (i as real / NumRings as real) * -TunnelDepth;
        rs[i] := 0.0;
        i := i + 1;
      }
    }

    /** constructor and init: the rings at their initial depths, speed 0, the group at scale 1. */
    constructor (camera: Camera)
      requires camera.z >= 0.0
      ensures Valid() && visible && this.camera == camera
      ensures forall i :: 0 <= i < NumRings ==> ringZ[i] == InitialRingZ(i) && ringRotation[i] == 0.0
      ensures speed == 0.0 && scaleX == 1.0 && scaleY == 1.0 && scaleZ == 1.0
    {
      var zs := new real[NumRings];
      var rs := new real[NumRings];
      PlaceRings(zs, rs);
      this.camera := camera;
      ringZ, ringRotation := zs, rs;
      speed := 0.0;
      scaleX, scaleY, scaleZ := 1.0, 1.0, 1.0;
      visible := true;
      new;
      forall i | 0 <= i < NumRings
        ensures Floor(camera.z) < ringZ[i] <= camera.z
      {
        InitialRingsEvenlySpaced(i);
      }
    }

    /**
     * update: set the speed from the mids and the cross-section from the bass, then move and
     * twist every ring, sending each ring that passed the camera back by the tunnel depth.
     */
    method Update(bass: real, mid: real, treble: real)
      requires Valid() && 0.0 <= mid <= 1.0
      modifies this, ringZ, ringRotation
      ensures Valid() && visible == old(visible)
      ensures speed == FlightSpeed(mid)
      ensures scaleX == CrossSection(bass) && scaleY == CrossSection(bass) && scaleZ == 1.0
      ensures forall i :: 0 <= i < NumRings ==>
                && ringZ[i] == RingStep(old(ringZ[i]), FlightSpeed(mid), camera.z)
                && ringRotation[i] == old(ringRotation[i]) + Twist(treble)
    {
      speed := Map(mid, 0.0, 1.0, 0.1, 0.8);
      MapWithinRange(mid, 0.0, 1.0, 0.1, 0.8);
      var scale := 1.0 + Map(bass, 0.0, 1.0, 0.0, 0.8);
      scaleX, scaleY, scaleZ := scale, scale, 1.0;
      FlyRings(speed, Twist(treble));
    }

    /** The ring loop of `update`. */
    method FlyRings(speed: real, twist: real)
      requires Valid() && 0.0 <= speed <= TunnelDepth
      modifies ringZ, ringRotation
      ensures Valid()
      ensures forall i :: 0 <= i < NumRings ==>
                && ringZ[i] == RingStep(old(ringZ[i]), speed, camera.z)
                && ringRotation[i] == old(ringRotation[i]) + twist
    {
      var i := 0;
      while i < NumRings
        invariant 0 <= i <= NumRings
        invariant forall k :: 0 <= k < NumRings ==>
                    && ringZ[k] == (if k < i then RingStep(old(ringZ[k]), speed, camera.z) else old(ringZ[k]))
                    && ringRotation[k] == (if k < i then old(ringRotation[k]) + twist else old(ringRotation[k]))
        invariant forall k :: 0 <= k < NumRings ==> Floor(camera.z) < ringZ[k] <= camera.z
      {
        RingStaysInTunnel(ringZ[i], speed, camera.z);
        ringZ[i] := ringZ[i] + speed;
        ringRotation[i] := ringRotation[i] + twist;
        if ringZ[i] > camera.z {
          ringZ[i] := ringZ[i] - TunnelDepth;
        }
        i := i + 1;
      }
    }

    method Show()
      modifies this`visible
      ensures visible
      ensures old(Valid()) ==> Valid()
    {
      visible := true;
    }

    method Hide()
      modifies this`visible
      ensures !visible
      ensures old(Valid()) ==> Valid()
    {
      visible := false;
    }
  }
}
