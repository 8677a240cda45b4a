/**
 * scenes/ParticleBurst.js: 1000 particles kept in three Float32Arrays (position and
 * velocity, 3 entries per particle, and lifespan, 1 entry). A bass beat writes a burst
 * of particles into a ring buffer whose write index wraps at 1000; every frame the live
 * particles (lifespan > 0) drift, slow down and age.
 *
 * The k-th particle emitted by one `emitParticles` call draws two Math.random() values,
 * modelled as `randAngle(k)` and `randPower(k)`; Math.cos and Math.sin are parameters.
 */
module ParticleBurst {
  import opened Utils

  const MaxParticles: nat := 1000
  const BufferLength: nat := 3000
  const BeatThreshold: real := 0.3
  const SpeedFactor: real := 0.995
  const LifespanStep: real := 0.015

  /** A beat: bass jumped by more than 0.3 since the last frame and is above 0.6. */
  predicate Beat(bass: real, prevBass: real) {
    bass > prevBass + BeatThreshold && bass > 0.6
  }

  /** Particles emitted on a beat: Math.floor(map(bass, 0.6, 1, 10, 50)). */
  function BurstSize(bass: real): int {
    Map(bass, 0.6, 1.0, 10.0, 50.0).Floor
  }

  /** On a beat the burst holds between 10 and 50 particles, 50 only at full bass. */
  lemma BurstSizeBounds(bass: real)
    requires 0.6 < bass <= 1.0
    ensures 10 <= BurstSize(bass) <= 50
    ensures BurstSize(bass) == 50 <==> bass == 1.0
  {
    MapWithinRange(bass, 0.6, 1.0, 10.0, 50.0);
    assert Map(bass, 0.6, 1.0, 10.0, 50.0) == 10.0 + 100.0 * (bass - 0.6);
  }

  /**
   * Which emission of a burst of `count` particles starting at write index `start` last
   * wrote slot p: the largest k < count with (start + k) % 1000 == p, or -1 if none did.
   */
  function LastEmission(start: nat, count: int, p: nat): (r: int)
    ensures -1 <= r && (r >= 0 ==> r < count)
    ensures r >= 0 ==> (start + r) % MaxParticles == p
    decreases count
  {
    if count <= 0 then -1
    else if (start + (count - 1)) % MaxParticles == p then count - 1
    else LastEmission(start, count - 1, p)
  }

  /**
   * A burst of at most 1000 particles writes each of the `count` slots following the write
   * index exactly once, and no other slot: slot p is written by emission (p - start) mod 1000.
   */
  lemma {:induction false} EmittedSlots(start: nat, count: int, p: nat)
    requires start < MaxParticles && p < MaxParticles && count <= MaxParticles
    ensures LastEmission(start, count, p) >= 0 <==> (p - start) % MaxParticles < count
    ensures LastEmission(start, count, p) >= 0 ==> LastEmission(start, count, p) == (p - start) % MaxParticles
    decreases count
  {
    if count > 0 {
      EmittedSlots(start, count - 1, p);
      var d := (p - start) % MaxParticles;
      assert d == if p >= start then p - start else p - start + MaxParticles;
      assert (start + d) % MaxParticles == p;
      if (start + (count - 1)) % MaxParticles == p {
        WrapUnique(start, count - 1, d);
      }
    }
  }

  /** Two emissions fewer than 1000 apart never land on the same slot. */
  lemma WrapUnique(start: nat, a: nat, b: nat)
    requires a < MaxParticles && b < MaxParticles
    requires (start + a) % MaxParticles == (start + b) % MaxParticles
    ensures a == b
  {
    var qa := (start + a) / MaxParticles;
    var qb := (start + b) / MaxParticles;
    assert start + a == qa * MaxParticles + (start + a) % MaxParticles;
    assert start + b == qb * MaxParticles + (start + b) % MaxParticles;
    assert a - b == (qa - qb) * MaxParticles;
  }

  /** Advancing a wrapped index by one is the same as wrapping the advanced index. */
  lemma WrapSucc(x: nat)
    ensures (x % MaxParticles + 1) % MaxParticles == (x + 1) % MaxParticles
  {
  }

  /** Lifespans after a burst: every emitted slot starts at 1.0. */
  function EmitLifespans(ls: seq<real>, start: nat, count: int): (r: seq<real>)
    ensures |r| == |ls|
  {
    seq(|ls|, p requires 0 <= p < |ls| => if LastEmission(start, count, p) >= 0 then 1.0 else ls[p])
  }

  /** Positions after a burst: every emitted particle restarts at the origin. */
  function EmitPositions(ps: seq<real>, start: nat, count: int): (r: seq<real>)
    ensures |r| == |ps|
  {
    seq(|ps|, k requires 0 <= k < |ps| => if LastEmission(start, count, k / 3) >= 0 then 0.0 else ps[k])
  }

  /**
   * The x (axis 0) or y (axis 1) velocity the k-th emission of a burst gives its particle:
   * cos or sin of an angle in [0, 2 pi) times a power in [0.1, 0.35).
   */
  function EmitVelocity(k: nat, axis: nat, randAngle: nat -> real, randPower: nat -> real,
                        cos: real -> real, sin: real -> real): real
  {
    var angle := randAngle(k) * 2.0 * Pi;
    var power := randPower(k) * 0.25 + 0.1;
    if axis == 0 then cos(angle) * power else sin(angle) * power
  }

  /** Velocities after a burst; the z velocity is never written. */
  function EmitVelocities(vs: seq<real>, start: nat, count: int, randAngle: nat -> real, randPower: nat -> real,
                          cos: real -> real, sin: real -> real): (r: seq<real>)
    ensures |r| == |vs|
  {
    seq(|vs|, k requires 0 <= k < |vs| =>
      var e := LastEmission(start, count, k / 3);
      if e >= 0 && k % 3 < 2 then EmitVelocity(e, k % 3, randAngle, randPower, cos, sin) else vs[k])
  }

  /** Lifespans after the first n particles have aged: live ones lose 0.015. */
  function AgeLifespans(ls: seq<real>, n: nat): (r: seq<real>)
    ensures |r| == |ls|
  {
    seq(|ls|, p requires 0 <= p < |ls| => if p < n && ls[p] > 0.0 then ls[p] - LifespanStep else ls[p])
  }

  /** Positions after the first n particles have moved: x and y of live ones advance by their velocity. */
  function MovePositions(ps: seq<real>, vs: seq<real>, ls: seq<real>, n: nat): (r: seq<real>)
    requires |vs| == |ps| == 3 * |ls|
    ensures |r| == |ps|
  {
    seq(|ps|, k requires 0 <= k < |ps| =>
      if k / 3 < n && ls[k / 3] > 0.0 && k % 3 < 2 then ps[k] + vs[k] else ps[k])
  }

  /** Velocities after the first n particles have moved: x and y of live ones are damped by 0.995. */
  function DampVelocities(vs: seq<real>, ls: seq<real>, n: nat): (r: seq<real>)
    requires |vs| == 3 * |ls|
    ensures |r| == |vs|
  {
    seq(|vs|, k requires 0 <= k < |vs| =>
      if k / 3 < n && ls[k / 3] > 0.0 && k % 3 < 2 then vs[k] * SpeedFactor else vs[k])
  }

  /**
   * One more emission writes exactly the slot at the write index: its lifespan becomes 1.0,
   * its position the origin and its x/y velocity the emission's.
   */
  lemma EmitOneMore(ls: seq<real>, ps: seq<real>, vs: seq<real>, start: nat, i: nat,
                    randAngle: nat -> real, randPower: nat -> real, cos: real -> real, sin: real -> real)
    requires |ls| == MaxParticles && |ps| == |vs| == BufferLength
    ensures var q := (start + i) % MaxParticles;
      && EmitLifespans(ls, start, i + 1) == EmitLifespans(ls, start, i)[q := 1.0]
      && EmitPositions(ps, start, i + 1) == EmitPositions(ps, start, i)[3 * q := 0.0][3 * q + 1 := 0.0][3 * q + 2 := 0.0]
      && EmitVelocities(vs, start, i + 1, randAngle, randPower, cos, sin)
         == EmitVelocities(vs, start, i, randAngle, randPower, cos, sin)
              [3 * q := EmitVelocity(i, 0, randAngle, randPower, cos, sin)]
              [3 * q + 1 := EmitVelocity(i, 1, randAngle, randPower, cos, sin)]
  {
  }

  /** A lifespan as the scene keeps it: dead at 0 or just below, at most the 1.0 of a fresh particle. */
  predicate LifespanOk(l: real) { -LifespanStep < l <= 1.0 }

  predicate AllLifespansOk(ls: seq<real>) {
    forall p :: 0 <= p < |ls| ==> LifespanOk(ls[p])
  }

  /** A burst and a frame of ageing keep every lifespan in (-0.015, 1.0]. */
  lemma LifespansStayInRange(ls: seq<real>, start: nat, count: int)
    requires AllLifespansOk(ls)
    ensures AllLifespansOk(EmitLifespans(ls, start, count))
    ensures AllLifespansOk(AgeLifespans(EmitLifespans(ls, start, count), |ls|))
  {
  }

  /** Ageing and moving touch no dead particle, and never the z coordinate. */
  lemma DeadParticlesUntouched(ps: seq<real>, vs: seq<real>, ls: seq<real>, k: nat)
    requires |vs| == |ps| == 3 * |ls| && k < |ps|
    requires ls[k / 3] <= 0.0 || k % 3 == 2
    ensures MovePositions(ps, vs, ls, |ls|)[k] == ps[k]
    ensures DampVelocities(vs, ls, |ls|)[k] == vs[k]
    ensures k % 3 == 2 || AgeLifespans(ls, |ls|)[k / 3] == ls[k / 3]
  {
  }

  /** Particles emitted by one `update`: a burst on a beat, none otherwise. */
  function BurstOf(bass: real, prevBass: real): int {
    if Beat(bass, prevBass) then BurstSize(bass) else 0
  }

  /** On a beat (bass at most 1) a frame emits 10 to 50 particles; without one it emits none. */
  lemma BurstOfBounds(bass: real, prevBass: real)
    requires bass <= 1.0
    ensures Beat(bass, prevBass) ==> 10 <= BurstOf(bass, prevBass) <= 50
    ensures !Beat(bass, prevBass) ==> BurstOf(bass, prevBass) == 0
  {
    if Beat(bass, prevBass) {
      BurstSizeBounds(bass);
    }
  }

  /** The three buffers are those of the first `count` emissions of a burst over ls, ps and vs. */
  predicate Emitted(ls': seq<real>, ps': seq<real>, vs': seq<real>, ls: seq<real>, ps: seq<real>, vs: seq<real>,
                    start: nat, count: int, randAngle: nat -> real, randPower: nat -> real,
                    cos: real -> real, sin: real -> real)
  {
    && ls' == EmitLifespans(ls, start, count)
    && ps' == EmitPositions(ps, start, count)
    && vs' == EmitVelocities(vs, start, count, randAngle, randPower, cos, sin)
  }

  /** Emitting no particles leaves all three buffers as they were. */
  lemma EmitNothing(ls: seq<real>, ps: seq<real>, vs: seq<real>, start: nat, count: int,
                    randAngle: nat -> real, randPower: nat -> real, cos: real -> real, sin: real -> real)
    requires count <= 0
    ensures EmitLifespans(ls, start, count) == ls
    ensures EmitPositions(ps, start, count) == ps
    ensures EmitVelocities(vs, start, count, randAngle, randPower, cos, sin) == vs
  {
  }

  /** One more particle of the frame's pass: it moves, slows and ages if it is live. */
  lemma DriftOneMore(ps: seq<real>, vs: seq<real>, ls: seq<real>, i: nat)
    requires |vs| == |ps| == 3 * |ls| && i < |ls|
    ensures var live := ls[i] > 0.0;
      && AgeLifespans(ls, i + 1) == AgeLifespans(ls, i)[i := if live then ls[i] - LifespanStep else ls[i]]
      && MovePositions(ps, vs, ls, i + 1)
         == MovePositions(ps, vs, ls, i)[3 * i := if live then ps[3 * i] + vs[3 * i] else ps[3 * i]]
                                        [3 * i + 1 := if live then ps[3 * i + 1] + vs[3 * i + 1] else ps[3 * i + 1]]
      && DampVelocities(vs, ls, i + 1)
         == DampVelocities(vs, ls, i)[3 * i := if live then vs[3 * i] * SpeedFactor else vs[3 * i]]
                                     [3 * i + 1 := if live then vs[3 * i + 1] * SpeedFactor else vs[3 * i + 1]]
  {
  }

  class ParticleBurstScene {
    const positions: array<real>
    const velocities: array<real>
    const lifespans: array<real>
    var particleNextIndex: nat
    var prevBass: real
    /** The point material's size. */
    var size: real
    var visible: bool

    ghost predicate Valid()
      reads this, lifespans
    {
      && positions.Length == BufferLength && velocities.Length == BufferLength
      && lifespans.Length == MaxParticles
      && positions != velocities
      && particleNextIndex < MaxParticles
      && AllLifespansOk(lifespans[..])
    }

    /** constructor and init: write index 0, no previous bass, every particle dead. */
    constructor ()
      ensures Valid() && fresh(positions) && fresh(velocities) && fresh(lifespans)
      ensures particleNextIndex == 0 && prevBass == 0.0 && visible
      ensures forall p :: 0 <= p < MaxParticles ==> lifespans[p] == 0.0
    {
      positions := new real[BufferLength](_ => 0.0);
      velocities := new real[BufferLength](_ => 0.0);
      lifespans := new real[MaxParticles](_ => 0.0);
      particleNextIndex := 0;
      prevBass := 0.0;
      size := 0.1;
      visible := true;
    }

    /** The body of the emission loop for slot p: back to the origin, new x/y velocity, lifespan 1.0. */
    method Launch(p: nat, vx: real, vy: real)
      requires Valid() && p < MaxParticles
      modifies positions, velocities, lifespans
      ensures Valid()
      ensures lifespans[..] == old(lifespans[..])[p := 1.0]
      ensures positions[..] == old(positions[..])[3 * p := 0.0][3 * p + 1 := 0.0][3 * p + 2 := 0.0]
      ensures velocities[..] == old(velocities[..])[3 * p := vx][3 * p + 1 := vy]
    {
      positions[p * 3] := 0.0;
      positions[p * 3 + 1] := 0.0;
      positions[p * 3 + 2] := 0.0;
      velocities[p * 3] := vx;
      velocities[p * 3 + 1] := vy;
      lifespans[p] := 1.0;
    }

    /** emitParticles: `count` writes at the wrapping write index. */
    method EmitParticles(count: int, randAngle: nat -> real, randPower: nat -> real,
                         cos: real -> real, sin: real -> real)
      requires Valid()
      modifies positions, velocities, lifespans, this`particleNextIndex
      ensures Valid()
      ensures particleNextIndex == (old(particleNextIndex) + (if count > 0 then count else 0)) % MaxParticles
      ensures lifespans[..] == EmitLifespans(old(lifespans[..]), old(particleNextIndex), count)
      ensures positions[..] == EmitPositions(old(positions[..]), old(particleNextIndex), count)
      ensures velocities[..] == EmitVelocities(old(velocities[..]), old(particleNextIndex), count,
                                               randAngle, randPower, cos, sin)
    {
      ghost var start := particleNextIndex;
      ghost var ls0 := lifespans[..];
      ghost var ps0 := positions[..];
      ghost var vs0 := velocities[..];
      EmitNothing(ls0, ps0, vs0, start, 0, randAngle, randPower, cos, sin);
      if count <= 0 {
        EmitNothing(ls0, ps0, vs0, start, count, randAngle, randPower, cos, sin);
      }
      var i := 0;
      while i < count
        invariant 0 <= i <= (if count > 0 then count else 0)
        invariant particleNextIndex == (start + i) % MaxParticles
        invariant Emitted(lifespans[..], positions[..], velocities[..], ls0, ps0, vs0, start, i,
                          randAngle, randPower, cos, sin)
        invariant Valid()
        decreases count - i
      {
        EmitOne(ls0, ps0, vs0, start, i, randAngle, randPower, cos, sin);
        i := i + 1;
      }
      assert i == if count > 0 then count else 0;
    }

    /** One pass of emitParticles' loop: the i-th particle of the burst, at the write index. */
    method EmitOne(ghost ls0: seq<real>, ghost ps0: seq<real>, ghost vs0: seq<real>, ghost start: nat, i: nat,
                   randAngle: nat -> real, randPower: nat -> real, cos: real -> real, sin: real -> real)
      requires Valid() && |ls0| == MaxParticles && |ps0| == |vs0| == BufferLength
      requires particleNextIndex == (start + i) % MaxParticles
      requires Emitted(lifespans[..], positions[..], velocities[..], ls0, ps0, vs0, start, i,
                       randAngle, randPower, cos, sin)
      modifies positions, velocities, lifespans, this`particleNextIndex
      ensures Valid()
      ensures particleNextIndex == (start + i + 1) % MaxParticles
      ensures Emitted(lifespans[..], positions[..], velocities[..], ls0, ps0, vs0, start, i + 1,
                      randAngle, randPower, cos, sin)
    {
      WrapSucc(start + i);
      EmitOneMore(ls0, ps0, vs0, start, i, randAngle, randPower, cos, sin);
      var pIndex := particleNextIndex;
      var angle := randAngle(i) * 2.0 * Pi;
      var power := randPower(i) * 0.25 + 0.1;
      assert cos(angle) * power == EmitVelocity(i, 0, randAngle, randPower, cos, sin);
      assert sin(angle) * power == EmitVelocity(i, 1, randAngle, randPower, cos, sin);
      Launch(pIndex, cos(angle) * power, sin(angle) * power);
      particleNextIndex := (particleNextIndex + 1) % MaxParticles;
    }

    /** The body of the pass for particle i. */
    method DriftOne(i: nat)
      requires Valid() && i < MaxParticles
      modifies positions, velocities, lifespans
      ensures Valid()
      ensures var live := old(lifespans[i]) > 0.0;
        && lifespans[..] == old(lifespans[..])[i := if live then old(lifespans[i]) - LifespanStep else old(lifespans[i])]
        && positions[..] == old(positions[..])
             [3 * i := if live then old(positions[3 * i] + velocities[3 * i]) else old(positions[3 * i])]
             [3 * i + 1 := if live then old(positions[3 * i + 1] + velocities[3 * i + 1]) else old(positions[3 * i + 1])]
        && velocities[..] == old(velocities[..])
             [3 * i := if live then old(velocities[3 * i]) * SpeedFactor else old(velocities[3 * i])]
             [3 * i + 1 := if live then old(velocities[3 * i + 1]) * SpeedFactor else old(velocities[3 * i + 1])]
    {
      if lifespans[i] > 0.0 {
        positions[i * 3] := positions[i * 3] + velocities[i * 3];
        positions[i * 3 + 1] := positions[i * 3 + 1] + velocities[i * 3 + 1];
        velocities[i * 3] := velocities[i * 3] * SpeedFactor;
        velocities[i * 3 + 1] := velocities[i * 3 + 1] * SpeedFactor;
        lifespans[i] := lifespans[i] - LifespanStep;
      }
    }

    /** The pass over all 1000 slots: only live particles move, slow down and age. */
    method Drift()
      requires Valid()
      modifies positions, velocities, lifespans
      ensures Valid()
      ensures lifespans[..] == AgeLifespans(old(lifespans[..]), MaxParticles)
      ensures positions[..] == MovePositions(old(positions[..]), old(velocities[..]), old(lifespans[..]), MaxParticles)
      ensures velocities[..] == DampVelocities(old(velocities[..]), old(lifespans[..]), MaxParticles)
    {
      ghost var ls0 := lifespans[..];
      ghost var ps0 := positions[..];
      ghost var vs0 := velocities[..];
      var i := 0;
      while i < MaxParticles
        invariant 0 <= i <= MaxParticles && Valid()
        invariant lifespans[..] == AgeLifespans(ls0, i)
        invariant positions[..] == MovePositions(ps0, vs0, ls0, i)
        invariant velocities[..] == DampVelocities(vs0, ls0, i)
      {
        DriftOne(i);
        DriftOneMore(ps0, vs0, ls0, i);
        i := i + 1;
      }
    }

    /**
     * update: emit a burst on a beat, remember the bass, size the points by treble, then
     * run the pass over the live particles.
     */
    method Update(bass: real, treble: real, randAngle: nat -> real, randPower: nat -> real,
                  cos: real -> real, sin: real -> real)
      requires Valid()
      modifies this, positions, velocities, lifespans
      ensures Valid()
      ensures prevBass == bass && size == Map(treble, 0.0, 1.0, 0.05, 0.25) && visible == old(visible)
      ensures var count := BurstOf(bass, old(prevBass));
        && particleNextIndex == (old(particleNextIndex) + (if count > 0 then count else 0)) % MaxParticles
        && var ls := EmitLifespans(old(lifespans[..]), old(particleNextIndex), count);
           && lifespans[..] == AgeLifespans(ls, MaxParticles)
           && positions[..] == MovePositions(EmitPositions(old(positions[..]), old(particleNextIndex), count),
                                             EmitVelocities(old(velocities[..]), old(particleNextIndex), count,
                                                            randAngle, randPower, cos, sin),
                                             ls, MaxParticles)
           && velocities[..] == DampVelocities(EmitVelocities(old(velocities[..]), old(particleNextIndex), count,
                                                              randAngle, randPower, cos, sin),
                                               ls, MaxParticles)
    {
      if bass > prevBass + BeatThreshold && bass > 0.6 {
        var count := Map(bass, 0.6, 1.0, 10.0, 50.0).Floor;
        EmitParticles(count, randAngle, randPower, cos, sin);
      } else {
        EmitNothing(lifespans[..], positions[..], velocities[..], particleNextIndex, 0, randAngle, randPower, cos, sin);
      }
      prevBass := bass;
      size := Map(treble, 0.0, 1.0, 0.05, 0.25);
      Drift();
    }

    method Show()
      modifies this`visible
      ensures visible
      ensures old(Valid()) ==> Valid()
    {
      visible := true;
    }

    method Hide()
      modifies this`visible
      ensures !visible
      ensures old(Valid()) ==> Valid()
    {
      visible := false;
    }
  }
}
