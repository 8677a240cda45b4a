/**
 * scenes/DeepSea.js: looking up from the deep at a rippling water surface, with bubbles
 * drifting towards the camera. Each bubble rises by its own speed every frame; one that has
 * passed the surface plane is either released again from below the camera, with a chance that
 * grows with the bass, or parked far out of sight.
 *
 * The surface's shaders and the bubble texture are left out; the scene keeps the uniforms it
 * hands them. Each bubble is its three coordinates in `positions` and its entry of
 * `bubbleStates`, here the arrays `speeds` and `lives`. The Math.random() draws are the
 * parameter `rand`: rand(i, 0) is the chance drawn for bubble i in a frame, and the four draws
 * of a reset are rand(i, 1) to rand(i, 4) in `update` and rand(i, 0) to rand(i, 3) in `init`.
 */
module DeepSea {
  import opened Utils
  import opened Stage

  const NumBubbles: nat := 200
  const BufferLength: nat := 600
  /** waterSurface.position.z. */
  const SurfaceZ: real := -10.0
  /** Where a bubble that is not released again is parked. */
  const ParkedZ: real := -1000.0
  /** A released bubble's x and y spread over 30 units, and its z over the 30 units below the camera. */
  const Spread: real := 30.0

  datatype Bubble = Bubble(x: real, y: real, z: real, speed: real, life: real)

  /** resetBubble: x and y of (random - 0.5) * 30, z of camera z + random * -30, speed random * 0.05 + 0.02, life 1. */
  function Fresh(cameraZ: real, rx: real, ry: real, rz: real, rs: real): Bubble {
    Bubble((rx - 0.5) * Spread, (ry - 0.5) * Spread, cameraZ + rz * -Spread, rs * 0.05 + 0.02, 1.0)
  }

  /** With draws in [0, 1) a released bubble starts inside the 30-unit box just below the camera. */
  lemma FreshBounds(cameraZ: real, rx: real, ry: real, rz: real, rs: real)
    requires 0.0 <= rx < 1.0 && 0.0 <= ry < 1.0 && 0.0 <= rz < 1.0 && 0.0 <= rs < 1.0
    ensures var b := Fresh(cameraZ, rx, ry, rz, rs);
      && -15.0 <= b.x < 15.0 && -15.0 <= b.y < 15.0
      && cameraZ - Spread < b.z <= cameraZ
      && 0.02 <= b.speed < 0.07 && b.life == 1.0
  {
  }

  /**
   * One frame of a bubble in `update`: rise by its speed; past the surface, release it again
   * when the chance drawn is below bass * 0.5, and park it at -1000 otherwise.
   */
  function Next(b: Bubble, bass: real, cameraZ: real, chance: real, rx: real, ry: real, rz: real, rs: real): Bubble {
    var z := b.z + b.speed;
    if z > SurfaceZ then
      if chance < bass * 0.5 then Fresh(cameraZ, rx, ry, rz, rs) else b.(z := ParkedZ)
    else b.(z := z)
  }

  /**
   * After a frame a bubble is below the surface plane or freshly released. Without bass no
   * bubble is ever released; with bass 2 or more every surfacing bubble is. A bubble that does
   * not surface keeps its x, y and speed.
   */
  lemma NextOutcomes(b: Bubble, bass: real, cameraZ: real, chance: real, rx: real, ry: real, rz: real, rs: real)
    requires 0.0 <= chance < 1.0
    ensures var n := Next(b, bass, cameraZ, chance, rx, ry, rz, rs);
      n.z <= SurfaceZ || n == Fresh(cameraZ, rx, ry, rz, rs)
    ensures bass <= 0.0 ==>
      var n := Next(b, bass, cameraZ, chance, rx, ry, rz, rs);
      n.z <= SurfaceZ && n.x == b.x && n.y == b.y && n.speed == b.speed && n.life == b.life
    ensures bass >= 2.0 && b.z + b.speed > SurfaceZ ==>
      Next(b, bass, cameraZ, chance, rx, ry, rz, rs) == Fresh(cameraZ, rx, ry, rz, rs)
  {
    if bass <= 0.0 {
      assert !(chance < bass * 0.5);
    }
  }

  /**
   * n frames of one bubble; frame k draws draws(k, 0) as its chance and draws(k, 1) to
   * draws(k, 4) for a release.
   */
  function Drift(b: Bubble, n: nat, bass: real, cameraZ: real, draws: (nat, nat) -> real): Bubble {
    if n == 0 then b
    else Next(Drift(b, n - 1, bass, cameraZ, draws), bass, cameraZ,
              draws(n - 1, 0), draws(n - 1, 1), draws(n - 1, 2), draws(n - 1, 3), draws(n - 1, 4))
  }

  /**
   * A parked bubble is gone for good as far as a performance goes: rising at under 0.07 a
   * frame, for 14000 frames it only climbs and never reaches the surface, whatever the bass.
   */
  lemma {:induction false} ParkedBubbleStaysDown(b: Bubble, n: nat, bass: real, cameraZ: real, draws: (nat, nat) -> real)
    requires b.z == ParkedZ && 0.0 <= b.speed < 0.07 && n <= 14000
    ensures Drift(b, n, bass, cameraZ, draws) == b.(z := ParkedZ + n as real * b.speed)
    ensures Drift(b, n, bass, cameraZ, draws).z <= SurfaceZ - 10.0
  {
    if n > 0 {
      ParkedBubbleStaysDown(b, n - 1, bass, cameraZ, draws);
      MulNonneg(14000.0 - n as real, b.speed);
      MulNonneg(n as real, 0.07 - b.speed);
      assert (n - 1) as real * b.speed + b.speed == n as real * b.speed;
    }
    MulNonneg(14000.0 - n as real, b.speed);
    MulNonneg(n as real, 0.07 - b.speed);
  }

  class DeepSeaScene {
    const camera: Camera
    /** The bubbles' x, y, z, three entries per bubble. */
    const positions: array<real>
    /** bubbleStates[i].speed and bubbleStates[i].life. */
    const speeds: array<real>
    const lives: array<real>
    /** originalCameraPos. */
    const savedX: real
    const savedY: real
    const savedZ: real
    /** The surface shader's uniforms. */
    var uTime: real
    var uMid: real
    var uTreble: real
    var visible: bool

    ghost predicate Valid()
      reads this, speeds, lives
    {
      && positions.Length == BufferLength && speeds.Length == NumBubbles && lives.Length == NumBubbles
      && positions != speeds && positions != lives && speeds != lives
      && forall i :: 0 <= i < NumBubbles ==> 0.02 <= speeds[i] < 0.07 && lives[i] == 1.0
    }

    /** Bubble i as it stands in the arrays. */
    ghost function BubbleAt(i: nat): Bubble
      requires i < NumBubbles && positions.Length == BufferLength && speeds.Length == NumBubbles && lives.Length == NumBubbles
      reads this, positions, speeds, lives
    {
      Bubble(positions[3 * i], positions[3 * i + 1], positions[3 * i + 2], speeds[i], lives[i])
    }

    /** resetBubble(i): bubble i released afresh below the camera; no other bubble changes. */
    method ResetBubble(i: nat, rx: real, ry: real, rz: real, rs: real)
      requires Valid() && i < NumBubbles && 0.0 <= rs < 1.0
      modifies positions, speeds, lives
      ensures Valid()
      ensures BubbleAt(i) == Fresh(camera.z, rx, ry, rz, rs)
      ensures forall k :: 0 <= k < NumBubbles && k != i ==> BubbleAt(k) == old(BubbleAt(k))
    {
      positions[3 * i] := (rx - 0.5) * 30.0;
      positions[3 * i + 1] := (ry - 0.5) * 30.0;
      positions[3 * i + 2] := camera.z + rz * -30.0;
      speeds[i] := rs * 0.05 + 0.02;
      lives[i] := 1.0;
    }

    /** constructor and init: the camera position saved, every bubble released afresh. */
    constructor (camera: Camera, rand: (nat, nat) -> real)
      requires forall i, d :: 0.0 <= rand(i, d) < 1.0
      ensures Valid() && visible && this.camera == camera
      ensures savedX == camera.x && savedY == camera.y && savedZ == camera.z
      ensures forall i :: 0 <= i < NumBubbles ==>
                BubbleAt(i) == Fresh(camera.z, rand(i, 0), rand(i, 1), rand(i, 2), rand(i, 3))
      ensures fresh(positions) && fresh(speeds) && fresh(lives)
    {
      this.camera := camera;
      positions := new real[BufferLength];
      speeds := new real[NumBubbles](i => 0.02);
      lives := new real[NumBubbles](i => 1.0);
      savedX, savedY, savedZ := camera.x, camera.y, camera.z;
      uTime, uMid, uTreble := 0.0, 0.0, 0.0;
      visible := true;
      new;
      var i := 0;
      while i < NumBubbles
        invariant 0 <= i <= NumBubbles
        invariant Valid() && visible
        invariant forall k :: 0 <= k < i ==>
                    BubbleAt(k) == Fresh(camera.z, rand(k, 0), rand(k, 1), rand(k, 2), rand(k, 3))
      {
        ResetBubble(i, rand(i, 0), rand(i, 1), rand(i, 2), rand(i, 3));
        i := i + 1;
      }
    }

    /** One bubble of the loop in `update`. */
    method StepBubble(i: nat, bass: real, chance: real, rx: real, ry: real, rz: real, rs: real)
      requires Valid() && i < NumBubbles && 0.0 <= rs < 1.0
      modifies positions, speeds, lives
      ensures Valid()
      ensures BubbleAt(i) == Next(old(BubbleAt(i)), bass, camera.z, chance, rx, ry, rz, rs)
      ensures forall k :: 0 <= k < NumBubbles && k != i ==> BubbleAt(k) == old(BubbleAt(k))
    {
      positions[3 * i + 2] := positions[3 * i + 2] + speeds[i];
      if positions[3 * i + 2] > SurfaceZ {
        if chance < bass * 0.5 {
          ResetBubble(i, rx, ry, rz, rs);
        } else {
          positions[3 * i + 2] := ParkedZ;
        }
      }
    }

    /** The bubble loop of `update`. */
    method RiseBubbles(bass: real, rand: (nat, nat) -> real)
      requires Valid() && forall i, d :: 0.0 <= rand(i, d) < 1.0
      modifies positions, speeds, lives
      ensures Valid()
      ensures forall i :: 0 <= i < NumBubbles ==>
                BubbleAt(i) == Next(old(BubbleAt(i)), bass, camera.z, rand(i, 0), rand(i, 1), rand(i, 2), rand(i, 3), rand(i, 4))
    {
      var i := 0;
      while i < NumBubbles
        invariant 0 <= i <= NumBubbles
        invariant Valid()
        invariant forall k :: 0 <= k < i ==>
                    BubbleAt(k) == Next(old(BubbleAt(k)), bass, camera.z, rand(k, 0), rand(k, 1), rand(k, 2), rand(k, 3), rand(k, 4))
        invariant forall k :: i <= k < NumBubbles ==> BubbleAt(k) == old(BubbleAt(k))
      {
        StepBubble(i, bass, rand(i, 0), rand(i, 1), rand(i, 2), rand(i, 3), rand(i, 4));
        i := i + 1;
      }
    }

    /**
     * update: hand time, mid and treble to the surface shader, sway the camera on a circle of
     * radius 2 in x and y, and move every bubble one frame.
     */
    method Update(bass: real, mid: real, treble: real, time: real,
                  sin: real -> real, cos: real -> real, rand: (nat, nat) -> real)
      requires Valid() && forall i, d :: 0.0 <= rand(i, d) < 1.0
      modifies this, camera, positions, speeds, lives
      ensures Valid() && visible == old(visible)
      ensures uTime == time && uMid == mid && uTreble == treble
      ensures camera.x == sin(time * 0.05) * 2.0 && camera.y == cos(time * 0.05) * 2.0
      ensures camera.z == old(camera.z) && camera.fov == old(camera.fov)
      ensures camera.aspect == old(camera.aspect) && camera.far == old(camera.far)
      ensures forall i :: 0 <= i < NumBubbles ==>
                BubbleAt(i) == Next(old(BubbleAt(i)), bass, camera.z, rand(i, 0), rand(i, 1), rand(i, 2), rand(i, 3), rand(i, 4))
    {
      uTime, uMid, uTreble := time, mid, treble;
      camera.x := sin(time * 0.05) * 2.0;
      camera.y := cos(time * 0.05) * 2.0;
      RiseBubbles(bass, rand);
    }

    method Show()
      modifies this`visible
      ensures visible
      ensures old(Valid()) ==> Valid()
    {
      visible := true;
    }

    /** hide: the camera goes back to where the scene found it, and the scene disappears. */
    method Hide()
      modifies this`visible, camera
      ensures !visible
      ensures old(Valid()) ==> Valid()
      ensures camera.x == savedX && camera.y == savedY && camera.z == savedZ
      ensures camera.fov == old(camera.fov) && camera.aspect == old(camera.aspect) && camera.far == old(camera.far)
    {
      camera.x, camera.y, camera.z := savedX, savedY, savedZ;
      visible := false;
    }

    /** dispose: what it changes outside three.js is the camera position, put back. */
    method Dispose()
      modifies camera
      ensures camera.x == savedX && camera.y == savedY && camera.z == savedZ
      ensures camera.fov == old(camera.fov) && camera.aspect == old(camera.aspect) && camera.far == old(camera.far)
    {
      camera.x, camera.y, camera.z := savedX, savedY, savedZ;
    }
  }
}
