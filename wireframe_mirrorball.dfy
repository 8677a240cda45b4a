/**
 * scenes/WireframeMirrorball.js: a wireframe mirror ball hanging above the floor, turning with
 * the mids; loud attacks light up random panels that then fade out, and fifty rays shoot out
 * of it, as long as the bass is loud and as many as the treble is bright.
 *
 * The ball is an icosahedron of detail 1, whose 80 faces are the panels. A panel's emissive
 * colour is the foreground colour times a level, and only that level is kept (0 is black).
 * The rays' random directions of `init` are left out; the Math.random() draws of `update` are
 * `flashDraws(k)` for the panels and `rayDraws(k)` for the rays, all in [0, 1).
 */
module WireframeMirrorball {
  import opened Utils
  import opened Stage

  const FaceCount: nat := 80
  const MaxRays: nat := 50
  const AttackThreshold: real := 0.15
  const FlashIntensity: real := 1.2
  const PanelDecay: real := 0.92
  const DarkLevel: real := 0.01
  const ShowFar: real := 1000.0

  /** floor(80 * 0.3): how many draws one flash makes. */
  const FlashCount: nat := 24

  /** The panel a draw picks: floor(r * 80). */
  function Pick(r: real): (i: int)
    requires 0.0 <= r < 1.0
    ensures 0 <= i < FaceCount
  {
    (r * FaceCount as real).Floor
  }

  /** Whether one of the first n draws picks panel j. */
  ghost predicate Hit(j: int, n: int, draws: nat -> real)
    requires forall k :: 0.0 <= draws(k) < 1.0
  {
    exists k: nat :: k < n && Pick(draws(k)) == j
  }

  /** A flash fires when the louder of the two attacks is above 0.15. */
  function Flashes(bassAttack: real, trebleAttack: real): bool {
    Max(bassAttack, trebleAttack) > AttackThreshold
  }

  /** A panel's intensity after this frame's flash. */
  ghost function Flashed(i: int, intensity: real, fires: bool, draws: nat -> real): real
    requires forall k :: 0.0 <= draws(k) < 1.0
  {
    if fires && Hit(i, FlashCount, draws) then FlashIntensity else intensity
  }

  /** The decay of one frame: a lit panel keeps 92% of its light, and goes dark below 0.01. */
  function Faded(intensity: real): real {
    if intensity > 0.0 then
      var dimmed := intensity * PanelDecay;
      if dimmed < DarkLevel then 0.0 else dimmed
    else intensity
  }

  /** The emissive level a panel shows after this frame: its light before the decay, black when it went dark. */
  function Glow(intensity: real, emissive: real): real {
    if intensity > 0.0 then
      if intensity * PanelDecay < DarkLevel then 0.0 else intensity
    else emissive
  }

  /** A panel is dark, or lit between 0.01 and 1.2. */
  predicate PanelLevel(intensity: real) {
    intensity == 0.0 || DarkLevel <= intensity <= FlashIntensity
  }

  /**
   * The decay keeps panels dark or between 0.01 and 1.2, never lights a panel, and takes at
   * least 8% of a lit panel's light; a panel that is dark afterwards shows black.
   */
  lemma FadeKeepsLevel(intensity: real)
    requires PanelLevel(intensity)
    ensures PanelLevel(Faded(intensity))
    ensures Faded(intensity) <= intensity * PanelDecay
    ensures intensity == 0.0 ==> Faded(intensity) == 0.0
    ensures intensity > 0.0 && Faded(intensity) == 0.0 ==> Glow(intensity, 0.0) == 0.0 && intensity < DarkLevel / PanelDecay
  {
  }

  /** A panel lit by a flash is at 1.2, and is still lit after the decay of the same frame. */
  lemma FlashedPanelLit(intensity: real, draws: nat -> real, i: int)
    requires forall k :: 0.0 <= draws(k) < 1.0
    requires PanelLevel(intensity)
    ensures PanelLevel(Flashed(i, intensity, true, draws))
    ensures Hit(i, FlashCount, draws) ==> Faded(Flashed(i, intensity, true, draws)) == FlashIntensity * PanelDecay
    ensures !Hit(i, FlashCount, draws) ==> Flashed(i, intensity, true, draws) == intensity
  {
  }

  /** The length of every ray for a bass level: map(bass, 0, 1, 5, 50). */
  function RayLength(bass: real): real {
    Map(bass, 0.0, 1.0, 5.0, 50.0)
  }

  /** The chance that a ray shows for a treble level: map(treble, 0, 1, 0.1, 1). */
  function RayChance(treble: real): real {
    Map(treble, 0.0, 1.0, 0.1, 1.0)
  }

  /** With the levels in [0, 1] rays are 5 to 50 long and show with a chance of 10% up to always. */
  lemma RaysBounded(bass: real, treble: real)
    requires 0.0 <= bass <= 1.0 && 0.0 <= treble <= 1.0
    ensures 5.0 <= RayLength(bass) <= 50.0
    ensures 0.1 <= RayChance(treble) <= 1.0
    ensures treble == 1.0 ==> RayChance(treble) == 1.0
  {
    MapWithinRange(bass, 0.0, 1.0, 5.0, 50.0);
    MapWithinRange(treble, 0.0, 1.0, 0.1, 1.0);
    MapEndpoints(0.0, 1.0, 0.1, 1.0);
  }

  class WireframeMirrorballScene {
    const camera: Camera
    /** camera.far as the scene found it, which `hide` and `dispose` put back. */
    const originalFar: real
    /** panelStates[i].intensity */
    const intensity: array<real>
    /** The emissive level of panel i's material. */
    const emissive: array<real>
    const rayLength: array<real>
    const rayVisible: array<bool>
    var ballRotationX: real
    var ballRotationY: real
    /** The wireframe and the ray group copy the ball's rotation. */
    var wireRotationX: real
    var wireRotationY: real
    var raysRotationX: real
    var raysRotationY: real
    /** The rays' colour is the foreground colour times this. */
    var rayBrightness: real
    var visible: bool

    ghost predicate Valid()
      reads this, intensity
    {
      && intensity.Length == FaceCount && emissive.Length == FaceCount
      && rayLength.Length == MaxRays && rayVisible.Length == MaxRays
      && intensity != emissive && rayLength != intensity && rayLength != emissive
      && forall i :: 0 <= i < FaceCount ==> PanelLevel(intensity[i])
    }

    /** constructor and init: every panel dark, every ray of length 1, `far` remembered. */
    constructor (camera: Camera)
      ensures Valid() && visible && this.camera == camera && originalFar == camera.far
      ensures forall i :: 0 <= i < FaceCount ==> intensity[i] == 0.0 && emissive[i] == 0.0
      ensures forall i :: 0 <= i < MaxRays ==> rayLength[i] == 1.0 && rayVisible[i]
    {
      this.camera := camera;
      originalFar := camera.far;
      intensity := new real[FaceCount](i => 0.0);
      emissive := new real[FaceCount](i => 0.0);
      rayLength := new real[MaxRays](i => 1.0);
      rayVisible := new bool[MaxRays](i => true);
      ballRotationX, ballRotationY := 0.0, 0.0;
      wireRotationX, wireRotationY := 0.0, 0.0;
      raysRotationX, raysRotationY := 0.0, 0.0;
      rayBrightness := 1.0;
      visible := true;
    }

    /** The flash loop of `update`: each of the 24 draws sets one panel to 1.2. */
    method Flash(draws: nat -> real)
      requires Valid() && forall k :: 0.0 <= draws(k) < 1.0
      modifies intensity
      ensures Valid()
      ensures forall j :: 0 <= j < FaceCount ==> intensity[j] == Flashed(j, old(intensity[j]), true, draws)
    {
      var i := 0;
      while i < FlashCount
        invariant 0 <= i <= FlashCount
        invariant forall j :: 0 <= j < FaceCount ==>
                    intensity[j] == if Hit(j, i, draws) then FlashIntensity else old(intensity[j])
        invariant forall j :: 0 <= j < FaceCount ==> PanelLevel(intensity[j])
      {
        var randomIndex := Pick(draws(i));
        intensity[randomIndex] := FlashIntensity;
        forall j | 0 <= j < FaceCount && Hit(j, i + 1, draws) && !Hit(j, i, draws)
          ensures j == randomIndex
        {
        }
        i := i + 1;
      }
    }

    /** One panel of the decay loop of `update`. */
    method FadePanel(i: int)
      requires Valid() && 0 <= i < FaceCount
      modifies intensity, emissive
      ensures Valid()
      ensures intensity[i] == Faded(old(intensity[i])) && emissive[i] == Glow(old(intensity[i]), old(emissive[i]))
      ensures forall j :: 0 <= j < FaceCount && j != i ==> intensity[j] == old(intensity[j]) && emissive[j] == old(emissive[j])
    {
      FadeKeepsLevel(intensity[i]);
      if intensity[i] > 0.0 {
        emissive[i] := intensity[i];
        intensity[i] := intensity[i] * PanelDecay;
        if intensity[i] < DarkLevel {
          intensity[i] := 0.0;
          emissive[i] := 0.0;
        }
      }
    }

    /** The decay loop of `update`, over every panel. */
    method FadeAll()
      requires Valid()
      modifies intensity, emissive
      ensures Valid()
      ensures forall j :: 0 <= j < FaceCount ==>
                intensity[j] == Faded(old(intensity[j])) && emissive[j] == Glow(old(intensity[j]), old(emissive[j]))
    {
      var i := 0;
      while i < FaceCount
        invariant 0 <= i <= FaceCount && Valid()
        invariant forall j :: 0 <= j < FaceCount ==>
                    && intensity[j] == (if j < i then Faded(old(intensity[j])) else old(intensity[j]))
                    && emissive[j] == (if j < i then Glow(old(intensity[j]), old(emissive[j])) else old(emissive[j]))
      {
        FadePanel(i);
        i := i + 1;
      }
    }

    /** The ray loop of `update`. */
    method CastRays(length: real, chance: real, draws: nat -> real)
      requires Valid()
      modifies rayLength, rayVisible
      ensures Valid()
      ensures forall k :: 0 <= k < MaxRays ==> rayLength[k] == length && rayVisible[k] == (draws(k) < chance)
    {
      var k := 0;
      while k < MaxRays
        invariant 0 <= k <= MaxRays
        invariant forall j :: 0 <= j < k ==> rayLength[j] == length && rayVisible[j] == (draws(j) < chance)
      {
        rayLength[k] := length;
        rayVisible[k] := draws(k) < chance;
        k := k + 1;
      }
    }

    /**
     * update: turn the ball, flash panels on a loud attack, fade every lit panel, then set
     * the rays' length, visibility and brightness.
     */
    method Update(bass: real, mid: real, treble: real, bassAttack: real, trebleAttack: real,
                  flashDraws: nat -> real, rayDraws: nat -> real)
      requires Valid() && forall k :: 0.0 <= flashDraws(k) < 1.0
      modifies this, intensity, emissive, rayLength, rayVisible
      ensures Valid() && visible == old(visible)
      ensures ballRotationX == old(ballRotationX) + Map(mid, 0.0, 1.0, 0.0, 0.01)
      ensures ballRotationY == old(ballRotationY) + Map(mid, 0.0, 1.0, 0.005, 0.02)
      ensures wireRotationX == ballRotationX && wireRotationY == ballRotationY
      ensures raysRotationX == ballRotationX && raysRotationY == ballRotationY
      ensures forall j :: 0 <= j < FaceCount ==>
                var lit := Flashed(j, old(intensity[j]), Flashes(bassAttack, trebleAttack), flashDraws);
                intensity[j] == Faded(lit) && emissive[j] == Glow(lit, old(emissive[j]))
      ensures forall k :: 0 <= k < MaxRays ==>
                rayLength[k] == RayLength(bass) && rayVisible[k] == (rayDraws(k) < RayChance(treble))
      ensures rayBrightness == Map(bass, 0.7, 1.0, 1.0, 2.0)
    {
      ballRotationX := ballRotationX + Map(mid, 0.0, 1.0, 0.0, 0.01);
      ballRotationY := ballRotationY + Map(mid, 0.0, 1.0, 0.005, 0.02);
      wireRotationX, wireRotationY := ballRotationX, ballRotationY;
      raysRotationX, raysRotationY := ballRotationX, ballRotationY;
      var attack := Max(bassAttack, trebleAttack);
      if attack > AttackThreshold {
        Flash(flashDraws);
      }
      FadeAll();
      CastRays(Map(bass, 0.0, 1.0, 5.0, 50.0), Map(treble, 0.0, 1.0, 0.1, 1.0), rayDraws);
      rayBrightness := Map(bass, 0.7, 1.0, 1.0, 2.0);
    }

    /** show: the ball appears and the camera sees out to 1000. */
    method Show()
      modifies this`visible, camera
      ensures visible && camera.far == ShowFar
      ensures old(Valid()) ==> Valid()
      ensures camera.x == old(camera.x) && camera.y == old(camera.y) && camera.z == old(camera.z)
      ensures camera.fov == old(camera.fov) && camera.aspect == old(camera.aspect)
    {
      visible := true;
      camera.far := ShowFar;
    }

    /** hide: the ball disappears and the camera's far plane is put back. */
    method Hide()
      modifies this`visible, camera
      ensures !visible && camera.far == originalFar
      ensures old(Valid()) ==> Valid()
      ensures camera.x == old(camera.x) && camera.y == old(camera.y) && camera.z == old(camera.z)
      ensures camera.fov == old(camera.fov) && camera.aspect == old(camera.aspect)
    {
      visible := false;
      camera.far := originalFar;
    }

    /** dispose: what it changes outside three.js is the camera's far plane, put back. */
    method Dispose()
      modifies camera
      ensures camera.far == originalFar
      ensures camera.x == old(camera.x) && camera.y == old(camera.y) && camera.z == old(camera.z)
      ensures camera.fov == old(camera.fov) && camera.aspect == old(camera.aspect)
    {
      camera.far := originalFar;
    }
  }
}
