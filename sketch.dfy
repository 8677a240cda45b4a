/**
 * sketch.js: the p5.js prototype the three.js visualizer grew from. Three scenes are chosen
 * with the keys 1, 2 and 3; nothing is drawn until the audio has started. Scene 2 bursts
 * particles from the centre on a bass beat; each particle fades out over 128 frames and is
 * removed from the list, in place, in the frame it dies.
 *
 * Only the state the sketch keeps from frame to frame is modelled: the current scene, the
 * particle list, the previous bass level and the polygon's angle. The p5 drawing calls are left
 * out; the canvas size comes in as `width` and `height`, and p5.Vector.random2D().mult(random(1, 5))
 * as `velocity(k)` for the k-th particle of a burst.
 */
module Sketch {
  import opened Utils

  const InitialLifespan: int := 255
  const BeatThreshold: real := 20.0
  const MinBassLevel: real := 140.0

  class Particle {
    var x: real
    var y: real
    var vx: real
    var vy: real
    var lifespan: int

    /** new Particle(x, y): at (x, y), with the given velocity, lifespan 255. */
    constructor (x: real, y: real, vx: real, vy: real)
      ensures this.x == x && this.y == y && this.vx == vx && this.vy == vy
      ensures lifespan == InitialLifespan
    {
      this.x, this.y := x, y;
      this.vx, this.vy := vx, vy;
      lifespan := InitialLifespan;
    }

    /** update: speed up (or slow down) by map(mid, 0, 255, 0.8, 1.5), move, and lose 2 of lifespan. */
    method Update(mid: real)
      modifies this
      ensures vx == old(vx) * Map(mid, 0.0, 255.0, 0.8, 1.5) && vy == old(vy) * Map(mid, 0.0, 255.0, 0.8, 1.5)
      ensures x == old(x) + vx && y == old(y) + vy
      ensures lifespan == old(lifespan) - 2
    {
      var speedMultiplier := Map(mid, 0.0, 255.0, 0.8, 1.5);
      vx, vy := vx * speedMultiplier, vy * speedMultiplier;
      x, y := x + vx, y + vy;
      lifespan := lifespan - 2;
    }

    predicate IsDead()
      reads this
    {
      lifespan < 0
    }
  }

  /** A particle's lifespan after n updates. */
  function LifespanAfter(n: nat): int {
    if n == 0 then InitialLifespan else LifespanAfter(n - 1) - 2
  }

  /** A particle is dead after exactly 128 updates: alive (lifespan 1) after 127, dead (lifespan -1) after 128. */
  lemma {:induction false} DiesAfter128Updates(n: nat)
    ensures LifespanAfter(n) == InitialLifespan - 2 * n
    ensures LifespanAfter(n) < 0 <==> n >= 128
  {
    if n > 0 {
      DiesAfter128Updates(n - 1);
    }
  }

  /** The particles of s that are not dead, in their order in s. */
  function Alive(s: seq<Particle>): seq<Particle>
    reads s
  {
    if s == [] then [] else (if s[0].IsDead() then [] else [s[0]]) + Alive(s[1..])
  }

  /** Culling a list is culling its two halves: the survivors keep their relative order. */
  lemma {:induction false} AliveAppend(s: seq<Particle>, t: seq<Particle>)
    ensures Alive(s + t) == Alive(s) + Alive(t)
  {
    if s == [] {
      assert s + t == t;
    } else {
      assert (s + t)[1..] == s[1..] + t;
      AliveAppend(s[1..], t);
    }
  }

  /** A particle survives the cull exactly when it was in the list and is not dead. */
  lemma {:induction false} AliveExactly(s: seq<Particle>, p: Particle)
    ensures p in Alive(s) <==> p in s && !p.IsDead()
  {
    if s != [] {
      AliveExactly(s[1..], p);
      assert s == [s[0]] + s[1..];
    }
  }

  /** The fields of a particle at one moment. */
  datatype Snapshot = Snapshot(x: real, y: real, vx: real, vy: real, lifespan: int)

  ghost function SnapshotOf(p: Particle): Snapshot
    reads p
  {
    Snapshot(p.x, p.y, p.vx, p.vy, p.lifespan)
  }

  /** p is what one call of Particle.update with this mid makes of a particle whose fields were s. */
  ghost predicate SteppedFrom(p: Particle, s: Snapshot, mid: real)
    reads p
  {
    var m := Map(mid, 0.0, 255.0, 0.8, 1.5);
    && p.lifespan == s.lifespan - 2
    && p.vx == s.vx * m && p.vy == s.vy * m
    && p.x == s.x + p.vx && p.y == s.y + p.vy
  }

  /** One call of Particle.update with this mid, between the two states. */
  twostate predicate Stepped(p: Particle, mid: real)
    reads p
  {
    SteppedFrom(p, old(SnapshotOf(p)), mid)
  }

  /** No particle appears twice in s. */
  ghost predicate Distinct(s: seq<Particle>) {
    forall i, j :: 0 <= i < j < |s| ==> s[i] != s[j]
  }

  /** Culling a list without repeats leaves a list without repeats, no longer than the original. */
  lemma {:induction false} AliveDistinct(s: seq<Particle>)
    requires Distinct(s)
    ensures Distinct(Alive(s)) && |Alive(s)| <= |s|
  {
    if s != [] {
      AliveDistinct(s[1..]);
      AliveExactly(s[1..], s[0]);
      assert s[0] !in s[1..];
    }
  }

  /** The bass beat of drawScene2: more than 20 above the previous frame's bass, and above 140. */
  predicate Beat(bass: real, prevBass: real) {
    bass > prevBass + BeatThreshold && bass > MinBassLevel
  }

  /**
   * int(map(bass, 140, 255, 5, 30)): how many particles a beat releases. p5's int truncates
   * towards zero, which is the floor here, since the map is above 5 whenever there is a beat.
   */
  function SpawnCount(bass: real): int {
    Map(bass, MinBassLevel, 255.0, 5.0, 30.0).Floor
  }

  /**
   * A beat releases between 5 and 30 particles for a bass of at most 255; a bass that holds
   * steady is never a beat, so one loud note releases one burst.
   */
  lemma BeatBounds(bass: real, prevBass: real)
    ensures Beat(bass, prevBass) && bass <= 255.0 ==> 5 <= SpawnCount(bass) <= 30
    ensures !Beat(bass, bass)
    ensures Beat(bass, prevBass) ==> bass - prevBass > BeatThreshold
  {
    if Beat(bass, prevBass) && bass <= 255.0 {
      MapWithinRange(bass, MinBassLevel, 255.0, 5.0, 30.0);
    }
  }

  /** The scene the keys select: '1', '2' and '3' pick scenes 1, 2 and 3; other keys change nothing. */
  function SceneAfterKey(key: char, current: int): int {
    if key == '1' then 1 else if key == '2' then 2 else if key == '3' then 3 else current
  }

  /** The current scene is always one of the three, whatever keys are pressed. */
  lemma SceneAfterKeyStaysValid(key: char, current: int)
    requires 1 <= current <= 3
    ensures 1 <= SceneAfterKey(key, current) <= 3
    ensures key in "123" ==> SceneAfterKey(key, current) == (key as int) - ('0' as int)
    ensures key !in "123" ==> SceneAfterKey(key, current) == current
  {
  }

  class SketchState {
    var audioStarted: bool
    var currentScene: int
    var particles: seq<Particle>
    var prevBass: real
    var angle: real

    ghost predicate Valid()
      reads this
    {
      1 <= currentScene <= 3 && Distinct(particles)
    }

    /** The globals as the script declares them. */
    constructor ()
      ensures Valid()
      ensures !audioStarted && currentScene == 1 && particles == [] && prevBass == 0.0 && angle == 0.0
    {
      audioStarted, currentScene, particles, prevBass, angle := false, 1, [], 0.0, 0.0;
    }

    /** mousePressed: the audio starts (the microphone and the FFT themselves are left out). */
    method MousePressed()
      modifies this
      ensures audioStarted
      ensures currentScene == old(currentScene) && particles == old(particles)
      ensures prevBass == old(prevBass) && angle == old(angle)
    {
      audioStarted := true;
    }

    /** keyPressed: pick the scene; choosing scene 2 also empties the particle list. */
    method KeyPressed(key: char)
      requires Valid()
      modifies this
      ensures Valid()
      ensures currentScene == SceneAfterKey(key, old(currentScene))
      ensures particles == if key == '2' then [] else old(particles)
      ensures audioStarted == old(audioStarted) && prevBass == old(prevBass) && angle == old(angle)
    {
      if key == '1' {
        currentScene := 1;
      } else if key == '2' {
        currentScene := 2;
        particles := [];
      } else if key == '3' {
        currentScene := 3;
      }
    }

    /** The spawn loop of drawScene2: `count` new particles pushed, all at the centre. */
    method Spawn(count: int, width: real, height: real, velocity: nat -> (real, real))
      returns (ghost born: seq<Particle>)
      requires Valid()
      modifies this
      ensures Valid()
      ensures particles == old(particles) + born
      ensures |born| == if count < 0 then 0 else count
      ensures forall p :: p in born ==> fresh(p)
      ensures forall k :: 0 <= k < |born| ==>
                && born[k].x == width / 2.0 && born[k].y == height / 2.0
                && (born[k].vx, born[k].vy) == velocity(k) && born[k].lifespan == InitialLifespan
      ensures audioStarted == old(audioStarted) && currentScene == old(currentScene)
      ensures prevBass == old(prevBass) && angle == old(angle)
    {
      born := [];
      var i := 0;
      while i < count
        invariant 0 <= i && (count >= 0 ==> i <= count) && (count < 0 ==> i == 0) && |born| == i
        invariant Valid() && particles == old(particles) + born
        invariant forall p :: p in born ==> fresh(p)
        invariant forall k :: 0 <= k < |born| ==>
                    && born[k].x == width / 2.0 && born[k].y == height / 2.0
                    && (born[k].vx, born[k].vy) == velocity(k) && born[k].lifespan == InitialLifespan
        invariant audioStarted == old(audioStarted) && currentScene == old(currentScene)
        invariant prevBass == old(prevBass) && angle == old(angle)
      {
        var (vx, vy) := velocity(i);
        var p := new Particle(width / 2.0, height / 2.0, vx, vy);
        particles := particles + [p];
        born := born + [p];
        i := i + 1;
      }
    }

    /**
     * The reverse loop of drawScene2: every particle is updated, and each one that is then dead
     * is spliced out of the list where it stands.
     */
    method Cull(mid: real)
      requires Valid()
      modifies this, particles
      ensures Valid()
      ensures particles == Alive(old(particles))
      ensures forall p :: p in old(particles) ==> Stepped(p, mid)
      ensures audioStarted == old(audioStarted) && currentScene == old(currentScene)
      ensures prevBass == old(prevBass) && angle == old(angle)
    {
      ghost var orig := particles;
      ghost var snap := seq(|orig|, k requires 0 <= k < |orig| reads orig => SnapshotOf(orig[k]));
      var i := |particles|;
      while i > 0
        invariant 0 <= i <= |orig|
        invariant particles == orig[..i] + Alive(orig[i..])
        invariant forall k :: 0 <= k < i ==> SnapshotOf(orig[k]) == snap[k]
        invariant forall k :: i <= k < |orig| ==> SteppedFrom(orig[k], snap[k], mid)
        invariant audioStarted == old(audioStarted) && currentScene == old(currentScene)
        invariant prevBass == old(prevBass) && angle == old(angle)
      {
        i := i - 1;
        CullAt(orig, snap, i, mid);
      }
      assert orig[0..] == orig;
      AliveDistinct(orig);
      forall p | p in old(particles)
        ensures Stepped(p, mid)
      {
        var k :| 0 <= k < |orig| && orig[k] == p;
        assert SteppedFrom(orig[k], snap[k], mid);
      }
    }

    /**
     * One pass of the reverse loop: particle i, so far untouched, is updated and then spliced
     * out if it is dead; the particles after it were updated by earlier passes.
     */
    method CullAt(ghost orig: seq<Particle>, ghost snap: seq<Snapshot>, i: nat, mid: real)
      requires Distinct(orig) && i < |orig| == |snap| && particles == orig[..i + 1] + Alive(orig[i + 1..])
      requires forall k :: 0 <= k <= i ==> SnapshotOf(orig[k]) == snap[k]
      requires forall k :: i < k < |orig| ==> SteppedFrom(orig[k], snap[k], mid)
      modifies this, orig[i]
      ensures particles == orig[..i] + Alive(orig[i..])
      ensures forall k :: 0 <= k < i ==> SnapshotOf(orig[k]) == snap[k]
      ensures forall k :: i <= k < |orig| ==> SteppedFrom(orig[k], snap[k], mid)
      ensures audioStarted == old(audioStarted) && currentScene == old(currentScene)
      ensures prevBass == old(prevBass) && angle == old(angle)
    {
      StepParticle(orig, i, mid);
      SpliceIfDead(orig, i);
    }

    /** One pass of the reverse loop begins: particle i is updated, and nothing else changes. */
    method StepParticle(ghost orig: seq<Particle>, i: nat, mid: real)
      requires Distinct(orig) && i < |orig| && particles == orig[..i + 1] + Alive(orig[i + 1..])
      modifies orig[i]
      ensures particles == orig[..i + 1] + Alive(orig[i + 1..])
      ensures Stepped(orig[i], mid)
    {
      assert orig[i] !in orig[i + 1..];
      assert particles[i] == orig[i];
      particles[i].Update(mid);
    }

    /** The rest of one pass of the reverse loop: particle i, just updated, is spliced out if dead. */
    method SpliceIfDead(ghost orig: seq<Particle>, i: nat)
      requires i < |orig| && particles == orig[..i + 1] + Alive(orig[i + 1..])
      modifies this
      ensures particles == orig[..i] + Alive(orig[i..])
      ensures audioStarted == old(audioStarted) && currentScene == old(currentScene)
      ensures prevBass == old(prevBass) && angle == old(angle)
    {
      ghost var rest := Alive(orig[i + 1..]);
      assert particles[..i] == orig[..i] && particles[i] == orig[i] && particles[i + 1..] == rest;
      assert orig[i..][0] == orig[i] && orig[i..][1..] == orig[i + 1..];
      if particles[i].IsDead() {
        particles := particles[..i] + particles[i + 1..];
      }
    }

    /** drawScene3's state: the polygon turns by map(mid, 0, 255, 0, 0.03). */
    method DrawScene3(mid: real)
      modifies this
      ensures angle == old(angle) + Map(mid, 0.0, 255.0, 0.0, 0.03)
      ensures audioStarted == old(audioStarted) && currentScene == old(currentScene)
      ensures particles == old(particles) && prevBass == old(prevBass)
    {
      angle := angle + Map(mid, 0.0, 255.0, 0.0, 0.03);
    }

    /**
     * drawScene2: on a beat, release int(map(bass, 140, 255, 5, 30)) particles at the centre;
     * remember the bass; then update every particle and remove the dead ones, keeping the order
     * of the rest.
     */
    method DrawScene2(bass: real, mid: real, width: real, height: real, velocity: nat -> (real, real))
      returns (ghost born: seq<Particle>)
      requires Valid()
      modifies this, particles
      ensures Valid()
      ensures |born| == if Beat(bass, old(prevBass)) then SpawnCount(bass) else 0
      ensures forall p :: p in born ==> fresh(p)
      ensures particles == Alive(old(particles)) + Alive(born)
      ensures forall p :: p in old(particles) ==> p.lifespan == old(p.lifespan) - 2
      ensures forall p :: p in born ==> p.lifespan == InitialLifespan - 2 && p in particles
      ensures prevBass == bass
      ensures audioStarted == old(audioStarted) && currentScene == old(currentScene) && angle == old(angle)
    {
      born := SpawnOnBeat(bass, width, height, velocity);
      ghost var all := particles;
      forall k | 0 <= k < |all|
        ensures all[k] in old(particles) || fresh(all[k])
      {
        if k >= |old(particles)| {
          assert all[k] == born[k - |old(particles)|] && born[k - |old(particles)|] in born;
        } else {
          assert all[k] == old(particles)[k];
        }
      }
      label BeforeCull:
      Cull(mid);
      AliveAppend(old(particles), born);
      forall p | p in old(particles)
        ensures p.lifespan == old(p.lifespan) - 2
      {
        assert p in all && Stepped@BeforeCull(p, mid);
      }
      forall p | p in born
        ensures p.lifespan == InitialLifespan - 2 && p in particles
      {
        assert p in all && Stepped@BeforeCull(p, mid);
        AliveExactly(all, p);
      }
    }

    /** The first half of drawScene2: the burst on a beat, then the bass remembered. */
    method SpawnOnBeat(bass: real, width: real, height: real, velocity: nat -> (real, real))
      returns (ghost born: seq<Particle>)
      requires Valid()
      modifies this
      ensures Valid()
      ensures |born| == if Beat(bass, old(prevBass)) then SpawnCount(bass) else 0
      ensures particles == old(particles) + born
      ensures forall p :: p in born ==> fresh(p) && p.lifespan == InitialLifespan
      ensures prevBass == bass
      ensures audioStarted == old(audioStarted) && currentScene == old(currentScene) && angle == old(angle)
    {
      born := [];
      if bass > prevBass + BeatThreshold && bass > MinBassLevel {
        var particleCount := Map(bass, MinBassLevel, 255.0, 5.0, 30.0).Floor;
        born := Spawn(particleCount, width, height, velocity);
      }
      prevBass := bass;
    }

    /**
     * draw: nothing at all until the audio has started; then the current scene's frame.
     * Scene 1 only draws, so it changes no state.
     */
    method Draw(bass: real, mid: real, width: real, height: real, velocity: nat -> (real, real))
      returns (ghost born: seq<Particle>)
      requires Valid()
      modifies this, particles
      ensures Valid()
      ensures audioStarted == old(audioStarted) && currentScene == old(currentScene)
      ensures !audioStarted || currentScene != 2 ==>
                particles == old(particles) && prevBass == old(prevBass) && born == []
      ensures !audioStarted || currentScene != 3 ==> angle == old(angle)
      ensures audioStarted && currentScene == 3 ==> angle == old(angle) + Map(mid, 0.0, 255.0, 0.0, 0.03)
      ensures audioStarted && currentScene == 2 ==>
                && particles == Alive(old(particles)) + Alive(born) && prevBass == bass
                && |born| == (if Beat(bass, old(prevBass)) then SpawnCount(bass) else 0)
    {
      born := [];
      if !audioStarted {
        return;
      }
      if currentScene == 2 {
        born := DrawScene2(bass, mid, width, height, velocity);
      } else if currentScene == 3 {
        DrawScene3(mid);
      }
    }
  }
}
