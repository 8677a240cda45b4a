/**
 * scenes/HeavyRain.js: 200 rain lines and 50 ripples, each kept in an object pool
 * (see module Pools). Rain falls from z = 10 and is recycled once it passes z = 0;
 * ripples are spawned on bass, grow and fade over 25 frames.
 *
 * Only the numeric fields the scene writes are kept: visibility, depth, speed,
 * opacity and scale. The x/y placement, `lookAt`, the camera's quaternion and the
 * colour are three.js calls on values that nothing else reads.
 */
module HeavyRain {
  import opened Utils
  import opened Pools
  import opened Stage

  const RainCount: nat := 200
  const RippleCount: nat := 50
  const RainDefaultOpacity: real := 0.5
  const RainFlashOpacity: real := 0.9
  const RainFlashThreshold: real := 0.15
  const RippleSpawnThreshold: real := 0.08

  datatype Drop = Drop(visible: bool, z: real, speed: real, opacity: real, scaleZ: real)

  datatype Ripple = Ripple(visible: bool, life: real, speed: real, opacity: real, scale: real)

  /** Rain lines spawned per frame before the pool runs dry: 2 + floor((treble + trebleAttack) * 50). */
  function RainSpawnCount(treble: real, trebleAttack: real): int {
    2 + ((treble + trebleAttack) * 50.0).Floor
  }

  /** Ripples spawned per frame: none unless bassAttack > 0.08 or bass > 0.5, else 1 + floor(bass * 10). */
  function RippleSpawnCount(bass: real, bassAttack: real): int {
    if bassAttack > RippleSpawnThreshold || bass > 0.5 then 1 + (bass * 10.0).Floor else 0
  }

  /** The set-up of the k-th drop spawned this frame; `rand(k)` is the Math.random() of its speed. */
  function RainSpawned(mid: real, treble: real, trebleAttack: real, rand: nat -> real): (nat, Drop) -> Drop {
    (k: nat, d: Drop) =>
      Drop(true, 10.0, Map(mid, 0.0, 1.0, 0.2, 0.8) + rand(k) * 0.2,
           if trebleAttack > RainFlashThreshold then RainFlashOpacity else RainDefaultOpacity,
           1.0 + treble * 5.0)
  }

  /** One frame of fall for a live drop: down by its speed, and a flash fades by 0.05. */
  function RainAdvance(d: Drop): Drop {
    d.(z := d.z - d.speed, opacity := if d.opacity > RainDefaultOpacity then d.opacity - 0.05 else d.opacity)
  }

  function RainExpired(d: Drop): bool { d.z < 0.0 }

  function HideDrop(d: Drop): Drop { d.(visible := false) }

  function RippleSpawned(bass: real, mid: real): (nat, Ripple) -> Ripple {
    (k: nat, r: Ripple) => Ripple(true, 1.0, Map(mid, 0.0, 1.0, 1.02, 1.05), Map(bass, 0.0, 1.0, 0.7, 1.0), 0.5)
  }

  /** One frame for a live ripple: life drops by 0.04, it grows by its speed, its opacity is its life. */
  function RippleAdvance(r: Ripple): Ripple {
    r.(life := r.life - 0.04, scale := r.scale * r.speed, opacity := r.life - 0.04)
  }

  function RippleExpired(r: Ripple): bool { r.life <= 0.0 }

  function HideRipple(r: Ripple): Ripple { r.(visible := false) }

  /** The rain half of one `update`: spawn, then the reverse pass over the live rain. */
  function RainFrame(s: Arena<Drop>, mid: real, treble: real, trebleAttack: real, rand: nat -> real): Arena<Drop>
    requires InRange(s)
  {
    StepAll(SpawnFrom(s, 0, RainSpawnCount(treble, trebleAttack), RainSpawned(mid, treble, trebleAttack, rand)),
            RainAdvance, RainExpired, HideDrop)
  }

  /** The ripple half of one `update`. */
  function RippleFrame(s: Arena<Ripple>, bass: real, mid: real, bassAttack: real): Arena<Ripple>
    requires InRange(s)
  {
    StepAll(SpawnFrom(s, 0, RippleSpawnCount(bass, bassAttack), RippleSpawned(bass, mid)),
            RippleAdvance, RippleExpired, HideRipple)
  }

  function DropVisible(d: Drop): bool { d.visible }
  function RippleVisible(r: Ripple): bool { r.visible }

  /** A live drop's opacity: the flash value 0.9 fading in steps of 0.05 down to about 0.5. */
  function DropOpacityOk(d: Drop): bool { 0.45 < d.opacity <= RainFlashOpacity }

  function DropAboveGround(d: Drop): bool { d.z >= 0.0 }

  function RippleLifeOk(r: Ripple): bool { 0.0 < r.life <= 1.0 }

  function RippleSettled(r: Ripple): bool { r.life > 0.0 && r.opacity == r.life }

  /** The pool invariants of the rain lines. */
  predicate RainValid(s: Arena<Drop>) {
    |s.items| == RainCount && InRange(s) && Partitioned(s) && Shown(s, DropVisible) && ActiveGood(s, DropOpacityOk)
  }

  /** The pool invariants of the ripples. */
  predicate RippleValid(s: Arena<Ripple>) {
    |s.items| == RippleCount && InRange(s) && Partitioned(s) && Shown(s, RippleVisible) && ActiveGood(s, RippleLifeOk)
  }

  /**
   * A rain frame keeps every line in exactly one of the two lists (so the lists' lengths
   * add up to 200), keeps exactly the live lines visible and their opacity in (0.45, 0.9],
   * and leaves no live line below z = 0.
   */
  lemma RainFrameKeepsPool(s: Arena<Drop>, mid: real, treble: real, trebleAttack: real, rand: nat -> real)
    requires RainValid(s)
    ensures InRange(s)
    ensures var r := RainFrame(s, mid, treble, trebleAttack, rand);
      && RainValid(r)
      && |r.pool| + |r.active| == RainCount
      && (forall h :: 0 <= h < RainCount ==> (h in r.pool <==> h !in r.active))
      && forall k :: 0 <= k < |r.active| ==> r.items[r.active[k]].z >= 0.0
  {
    FramePreserves(s, RainSpawnCount(treble, trebleAttack), RainSpawned(mid, treble, trebleAttack, rand),
                   RainAdvance, RainExpired, HideDrop, DropVisible, DropOpacityOk, DropAboveGround);
  }

  /**
   * A ripple frame keeps every ripple in exactly one list, keeps exactly the live ones
   * visible with life in (0, 1], and leaves every live ripple's opacity equal to its life.
   */
  lemma RippleFrameKeepsPool(s: Arena<Ripple>, bass: real, mid: real, bassAttack: real)
    requires RippleValid(s)
    ensures InRange(s)
    ensures var r := RippleFrame(s, bass, mid, bassAttack);
      && RippleValid(r)
      && |r.pool| + |r.active| == RippleCount
      && (forall h :: 0 <= h < RippleCount ==> (h in r.pool <==> h !in r.active))
      && forall k :: 0 <= k < |r.active| ==> r.items[r.active[k]].opacity == r.items[r.active[k]].life
  {
    FramePreserves(s, RippleSpawnCount(bass, bassAttack), RippleSpawned(bass, mid),
                   RippleAdvance, RippleExpired, HideRipple, RippleVisible, RippleLifeOk, RippleSettled);
  }

  /**
   * The spawn loop takes min(count, free lines) lines from the end of the free list and
   * appends them to the live list: it stops early only when the pool runs dry.
   */
  lemma RainSpawnTakesFromPool(s: Arena<Drop>, mid: real, treble: real, trebleAttack: real, rand: nat -> real)
    requires InRange(s)
    ensures var count := RainSpawnCount(treble, trebleAttack);
      var r := SpawnFrom(s, 0, count, RainSpawned(mid, treble, trebleAttack, rand));
      var moved := if count <= 0 then 0 else MinInt(count, |s.pool|);
      && r.pool == s.pool[..|s.pool| - moved]
      && |r.active| == |s.active| + moved
      && r.active[..|s.active|] == s.active
  {
    SpawnMoves(s, 0, RainSpawnCount(treble, trebleAttack), RainSpawned(mid, treble, trebleAttack, rand));
  }

  /** With treble and trebleAttack at least 0, at least two drops are asked for each frame. */
  lemma RainSpawnCountAtLeastTwo(treble: real, trebleAttack: real)
    requires treble >= 0.0 && trebleAttack >= 0.0
    ensures RainSpawnCount(treble, trebleAttack) >= 2
  {
    MulNonneg(treble + trebleAttack, 50.0);
  }

  /**
   * A spawned drop is visible at z = 10, flashes at 0.9 opacity only on a treble attack
   * above 0.15, and for levels in [0, 1] falls at a speed in [0.2, 1.0).
   */
  lemma SpawnedDrop(k: nat, d: Drop, mid: real, treble: real, trebleAttack: real, rand: nat -> real)
    requires 0.0 <= mid <= 1.0 && 0.0 <= rand(k) < 1.0
    ensures var n := RainSpawned(mid, treble, trebleAttack, rand)(k, d);
      && n.visible && n.z == 10.0
      && n.opacity == (if trebleAttack > 0.15 then 0.9 else 0.5)
      && 0.2 <= n.speed < 1.0
  {
    MapWithinRange(mid, 0.0, 1.0, 0.2, 0.8);
  }

  /** A ripple spawned this frame lives exactly 25 frames: 1.0 - 25 * 0.04 = 0. */
  lemma RippleLifetime(r: Ripple)
    requires r.life == 1.0
    ensures var r24 := RippleAdvanceN(r, 24); !RippleExpired(r24)
    ensures RippleExpired(RippleAdvance(RippleAdvanceN(r, 24)))
  {
    RippleLifeAfter(r, 24);
  }

  function RippleAdvanceN(r: Ripple, n: nat): Ripple {
    if n == 0 then r else RippleAdvance(RippleAdvanceN(r, n - 1))
  }

  lemma {:induction false} RippleLifeAfter(r: Ripple, n: nat)
    ensures RippleAdvanceN(r, n).life == r.life - 0.04 * n as real
  {
    if n > 0 {
      RippleLifeAfter(r, n - 1);
    }
  }

  /** 200 hidden rain lines, all on the free list, satisfy the rain invariants. */
  lemma FreshRain(items: seq<Drop>)
    requires |items| == RainCount && forall h :: 0 <= h < |items| ==> !items[h].visible
    ensures RainValid(Arena(items, Range(|items|), []))
  {
    FreshArena(items, DropVisible, DropOpacityOk);
  }

  /** 50 hidden ripples, all on the free list, satisfy the ripple invariants. */
  lemma FreshRipples(items: seq<Ripple>)
    requires |items| == RippleCount && forall h :: 0 <= h < |items| ==> !items[h].visible
    ensures RippleValid(Arena(items, Range(|items|), []))
  {
    FreshArena(items, RippleVisible, RippleLifeOk);
  }

  class HeavyRainScene {
    const camera: Camera
    /** originalCameraPos. */
    const savedX: real
    const savedY: real
    const savedZ: real
    var visible: bool
    const rain: array<Drop>
    const ripples: array<Ripple>
    var rainPool: seq<nat>
    var activeRain: seq<nat>
    var ripplePool: seq<nat>
    var activeRipples: seq<nat>

    function RainState(): Arena<Drop>
      reads this, rain
    {
      Arena(rain[..], rainPool, activeRain)
    }

    function RippleState(): Arena<Ripple>
      reads this, ripples
    {
      Arena(ripples[..], ripplePool, activeRipples)
    }

    ghost predicate Valid()
      reads this, rain, ripples
    {
      RainValid(RainState()) && RippleValid(RippleState())
    }

    /**
     * constructor and init: the camera position saved, 200 hidden rain lines and 50 hidden
     * ripples, all pushed on their free lists.
     */
    constructor (camera: Camera)
      ensures Valid() && fresh(rain) && fresh(ripples)
      ensures this.camera == camera && visible
      ensures savedX == camera.x && savedY == camera.y && savedZ == camera.z
      ensures rain.Length == RainCount && ripples.Length == RippleCount
      ensures rainPool == Range(rain.Length) && activeRain == []
      ensures ripplePool == Range(ripples.Length) && activeRipples == []
    {
      var drops := new Drop[RainCount](_ => Drop(false, 0.0, 0.0, RainDefaultOpacity, 1.0));
      var rings := new Ripple[RippleCount](_ => Ripple(false, 0.0, 0.0, 1.0, 1.0));
      this.camera := camera;
      savedX, savedY, savedZ := camera.x, camera.y, camera.z;
      visible := true;
      rain := drops;
      ripples := rings;
      rainPool := Range(drops.Length);
      activeRain := [];
      ripplePool := Range(rings.Length);
      activeRipples := [];
      new;
      assert RainState() == Arena(drops[..], Range(|drops[..]|), []);
      assert RippleState() == Arena(rings[..], Range(|rings[..]|), []);
      FreshRain(drops[..]);
      FreshRipples(rings[..]);
    }

    /** The rain spawn loop: pop, set up, push on the live list; `break` once the pool is empty. */
    method SpawnRain(count: int, init: (nat, Drop) -> Drop)
      requires InRange(RainState())
      modifies this`rainPool, this`activeRain, rain
      ensures RainState() == SpawnFrom(old(RainState()), 0, count, init)
    {
      var i := 0;
      while i < count
        invariant 0 <= i
        invariant InRange(RainState())
        invariant SpawnFrom(RainState(), i, count, init) == SpawnFrom(old(RainState()), 0, count, init)
        decreases count - i
      {
        if |rainPool| == 0 {
          SpawnFromEmptyPool(RainState(), i, count, init);
          break;
        }
        ghost var before := RainState();
        var m := |rainPool| - 1;
        var h := rainPool[m];
        rainPool := rainPool[..m];
        rain[h] := init(i, rain[h]);
        activeRain := activeRain + [h];
        assert RainState() == SpawnOne(before, i, init);
        i := i + 1;
      }
    }

    /** One iteration of the rain pass: the live drop at position i falls, and is recycled once below z = 0. */
    method StepRainAt(i: nat)
      requires InRange(RainState()) && i < |activeRain|
      modifies this`rainPool, this`activeRain, rain
      ensures RainState() == StepAt(old(RainState()), i, RainAdvance, RainExpired, HideDrop)
    {
      ghost var before := RainState();
      var h := activeRain[i];
      var d := rain[h];
      ghost var d0 := d;
      assert d0 == before.items[h];
      d := d.(z := d.z - d.speed);
      if d.opacity > RainDefaultOpacity {
        d := d.(opacity := d.opacity - 0.05);
      }
      assert d == RainAdvance(d0);
      if d.z < 0.0 {
        d := d.(visible := false);
        rainPool := rainPool + [h];
        activeRain := activeRain[..i] + activeRain[i + 1..];
      }
      rain[h] := d;
      assert rain[..] == before.items[h := d];
    }

    /** The reverse pass over the live rain: `for (i = activeRain.length - 1; i >= 0; i--)`. */
    method StepRain()
      requires InRange(RainState())
      modifies this`rainPool, this`activeRain, rain
      ensures RainState() == StepAll(old(RainState()), RainAdvance, RainExpired, HideDrop)
    {
      var i := |activeRain| - 1;
      while i >= 0
        invariant -1 <= i && i + 1 <= |activeRain|
        invariant InRange(RainState())
        invariant StepFrom(RainState(), i + 1, RainAdvance, RainExpired, HideDrop)
                  == StepAll(old(RainState()), RainAdvance, RainExpired, HideDrop)
      {
        ghost var before := RainState();
        assert StepFrom(before, i + 1, RainAdvance, RainExpired, HideDrop)
               == StepFrom(StepAt(before, i, RainAdvance, RainExpired, HideDrop), i, RainAdvance, RainExpired, HideDrop);
        StepRainAt(i);
        i := i - 1;
      }
    }

    /** The ripple spawn loop, the same pop-and-push as for rain. */
    method SpawnRipples(count: int, init: (nat, Ripple) -> Ripple)
      requires InRange(RippleState())
      modifies this`ripplePool, this`activeRipples, ripples
      ensures RippleState() == SpawnFrom(old(RippleState()), 0, count, init)
    {
      var j := 0;
      while j < count
        invariant 0 <= j
        invariant InRange(RippleState())
        invariant SpawnFrom(RippleState(), j, count, init) == SpawnFrom(old(RippleState()), 0, count, init)
        decreases count - j
      {
        ghost var before := RippleState();
        if |ripplePool| > 0 {
          var m := |ripplePool| - 1;
          var h := ripplePool[m];
          ripplePool := ripplePool[..m];
          ripples[h] := init(j, ripples[h]);
          activeRipples := activeRipples + [h];
        }
        assert RippleState() == SpawnOne(before, j, init);
        j := j + 1;
      }
    }

    /** One iteration of the ripple pass: the live ripple at position i fades and grows, and is recycled once its life is spent. */
    method StepRippleAt(i: nat)
      requires InRange(RippleState()) && i < |activeRipples|
      modifies this`ripplePool, this`activeRipples, ripples
      ensures RippleState() == StepAt(old(RippleState()), i, RippleAdvance, RippleExpired, HideRipple)
    {
      ghost var before := RippleState();
      var h := activeRipples[i];
      var r := ripples[h];
      ghost var r0 := r;
      assert r0 == before.items[h];
      r := r.(life := r.life - 0.04);
      r := r.(scale := r.scale * r.speed);
      r := r.(opacity := r.life);
      assert r == RippleAdvance(r0);
      if r.life <= 0.0 {
        r := r.(visible := false);
        ripplePool := ripplePool + [h];
        activeRipples := activeRipples[..i] + activeRipples[i + 1..];
      }
      ripples[h] := r;
      assert ripples[..] == before.items[h := r];
    }

    /** The reverse pass over the live ripples. */
    method StepRipples()
      requires InRange(RippleState())
      modifies this`ripplePool, this`activeRipples, ripples
      ensures RippleState() == StepAll(old(RippleState()), RippleAdvance, RippleExpired, HideRipple)
    {
      var i := |activeRipples| - 1;
      while i >= 0
        invariant -1 <= i && i + 1 <= |activeRipples|
        invariant InRange(RippleState())
        invariant StepFrom(RippleState(), i + 1, RippleAdvance, RippleExpired, HideRipple)
                  == StepAll(old(RippleState()), RippleAdvance, RippleExpired, HideRipple)
      {
        ghost var before := RippleState();
        assert StepFrom(before, i + 1, RippleAdvance, RippleExpired, HideRipple)
               == StepFrom(StepAt(before, i, RippleAdvance, RippleExpired, HideRipple), i, RippleAdvance, RippleExpired, HideRipple);
        StepRippleAt(i);
        i := i - 1;
      }
    }

    /** The rain half of `update`: spawn, then the reverse pass. */
    method UpdateRain(mid: real, treble: real, trebleAttack: real, rand: nat -> real)
      requires RainValid(RainState())
      modifies this`rainPool, this`activeRain, rain
      ensures RainValid(RainState())
      ensures RainState() == RainFrame(old(RainState()), mid, treble, trebleAttack, rand)
    {
      RainFrameKeepsPool(RainState(), mid, treble, trebleAttack, rand);
      SpawnRain(RainSpawnCount(treble, trebleAttack), RainSpawned(mid, treble, trebleAttack, rand));
      StepRain();
    }

    /** The ripple half of `update`: spawn on bass, then the reverse pass. */
    method UpdateRipples(bass: real, mid: real, bassAttack: real)
      requires RippleValid(RippleState())
      modifies this`ripplePool, this`activeRipples, ripples
      ensures RippleValid(RippleState())
      ensures RippleState() == RippleFrame(old(RippleState()), bass, mid, bassAttack)
    {
      RippleFrameKeepsPool(RippleState(), bass, mid, bassAttack);
      SpawnRipples(RippleSpawnCount(bass, bassAttack), RippleSpawned(bass, mid));
      StepRipples();
    }

    /**
     * update: rain spawn and pass, then ripple spawn and pass. `rand(k)` is the
     * Math.random() behind the speed of the k-th drop spawned this frame.
     */
    method Update(bass: real, mid: real, treble: real, bassAttack: real, trebleAttack: real, rand: nat -> real)
      requires Valid()
      modifies this`rainPool, this`activeRain, rain, this`ripplePool, this`activeRipples, ripples
      ensures Valid()
      ensures RainState() == RainFrame(old(RainState()), mid, treble, trebleAttack, rand)
      ensures RippleState() == RippleFrame(old(RippleState()), bass, mid, bassAttack)
    {
      UpdateRain(mid, treble, trebleAttack, rand);
      UpdateRipples(bass, mid, bassAttack);
    }

    /** show: the scene appears and the camera moves to (0, 0, 5). */
    method Show()
      modifies this`visible, camera
      ensures visible
      ensures old(Valid()) ==> Valid()
      ensures camera.x == 0.0 && camera.y == 0.0 && camera.z == 5.0
      ensures camera.fov == old(camera.fov) && camera.aspect == old(camera.aspect) && camera.far == old(camera.far)
    {
      visible := true;
      camera.x, camera.y, camera.z := 0.0, 0.0, 5.0;
      assert RainState() == old(RainState()) && RippleState() == old(RippleState());
    }

    /** hide: the scene disappears and the camera goes back to where the scene found it. */
    method Hide()
      modifies this`visible, camera
      ensures !visible
      ensures old(Valid()) ==> Valid()
      ensures camera.x == savedX && camera.y == savedY && camera.z == savedZ
      ensures camera.fov == old(camera.fov) && camera.aspect == old(camera.aspect) && camera.far == old(camera.far)
    {
      visible := false;
      camera.x, camera.y, camera.z := savedX, savedY, savedZ;
      assert RainState() == old(RainState()) && RippleState() == old(RippleState());
    }

    /** dispose: what it changes outside three.js is the camera position, put back. */
    method Dispose()
      modifies camera
      ensures camera.x == savedX && camera.y == savedY && camera.z == savedZ
      ensures camera.fov == old(camera.fov) && camera.aspect == old(camera.aspect) && camera.far == old(camera.far)
    {
      camera.x, camera.y, camera.z := savedX, savedY, savedZ;
    }
  }
}
