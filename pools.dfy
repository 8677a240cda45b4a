/**
 * Fixed-size object pools with a free list, as scenes/HeavyRain.js keeps them for its
 * rain lines and its ripples.
 *
 * The scene creates n objects once. A free list (`pool`) and a list of live objects
 * (`active`) hold references to them; spawning pops the last free object, sets it up
 * and pushes it on the live list; the per-frame pass walks the live list from its
 * end to its start, advances each object and, when the object has expired, hides it,
 * pushes it back on the free list and splices it out of the live list.
 *
 * Objects are named by their index in `items`; the two lists hold indices.
 */
module Pools {

  datatype Arena<T> = Arena(items: seq<T>, pool: seq<nat>, active: seq<nat>)

  /** The indices 0..n-1 in order. */
  function Range(n: nat): (r: seq<nat>)
    ensures |r| == n
  {
    if n == 0 then [] else Range(n - 1) + [n - 1]
  }

  /** Every index below n occurs once in Range(n), and nothing else occurs. */
  lemma {:induction false} RangeCounts(n: nat, x: nat)
    ensures multiset(Range(n))[x] == if x < n then 1 else 0
  {
    if n > 0 {
      RangeCounts(n - 1, x);
      assert multiset(Range(n)) == multiset(Range(n - 1)) + multiset{(n - 1) as nat};
    }
  }

  /** Both lists hold only indices of existing objects. */
  predicate InRange<T>(s: Arena<T>) {
    && (forall k :: 0 <= k < |s.pool| ==> s.pool[k] < |s.items|)
    && (forall k :: 0 <= k < |s.active| ==> s.active[k] < |s.items|)
  }

  /** The free list and the live list together hold every object exactly once. */
  predicate Partitioned<T>(s: Arena<T>) {
    multiset(s.pool) + multiset(s.active) == multiset(Range(|s.items|))
  }

  /** Exactly the live objects are visible. */
  predicate Shown<T>(s: Arena<T>, visibleOf: T -> bool) {
    forall h :: 0 <= h < |s.items| ==> (visibleOf(s.items[h]) <==> h in s.active)
  }

  /** Every live object satisfies `good`. */
  predicate ActiveGood<T>(s: Arena<T>, good: T -> bool) {
    forall h :: h in s.active ==> h < |s.items| && good(s.items[h])
  }

  /** The three invariants a pass over the live list keeps. */
  predicate Healthy<T>(s: Arena<T>, visibleOf: T -> bool, good: T -> bool) {
    Partitioned(s) && Shown(s, visibleOf) && ActiveGood(s, good)
  }

  /** No index occurs twice in a sequence. */
  predicate Distinct(xs: seq<nat>) {
    forall a, b :: 0 <= a < b < |xs| ==> xs[a] != xs[b]
  }

  /** A fresh pool: every object hidden and on the free list, nothing live. */
  lemma FreshArena<T>(items: seq<T>, visibleOf: T -> bool, good: T -> bool)
    requires forall h :: 0 <= h < |items| ==> !visibleOf(items[h])
    ensures var s := Arena(items, Range(|items|), []);
      InRange(s) && Partitioned(s) && Shown(s, visibleOf) && ActiveGood(s, good)
  {
    RangeBelow(|items|);
  }

  /** Range(n) holds only indices below n. */
  lemma {:induction false} RangeBelow(n: nat)
    ensures forall k :: 0 <= k < n ==> Range(n)[k] < n
  {
    if n > 0 {
      RangeBelow(n - 1);
      assert forall k :: 0 <= k < n - 1 ==> Range(n)[k] == Range(n - 1)[k];
    }
  }

  /**
   * In a partitioned arena every object is either free or live, never both and never
   * neither; the two lists together are as long as there are objects, and neither
   * list repeats an object.
   */
  lemma PartitionExactlyOnce<T>(s: Arena<T>)
    requires Partitioned(s)
    ensures |s.pool| + |s.active| == |s.items|
    ensures forall h :: 0 <= h < |s.items| ==> (h in s.pool <==> h !in s.active)
    ensures InRange(s)
    ensures Distinct(s.pool) && Distinct(s.active)
  {
    assert |multiset(s.pool) + multiset(s.active)| == |multiset(Range(|s.items|))|;
    forall h | 0 <= h < |s.items| ensures h in s.pool <==> h !in s.active {
      RangeCounts(|s.items|, h);
    }
    forall k | 0 <= k < |s.pool| ensures s.pool[k] < |s.items| {
      RangeCounts(|s.items|, s.pool[k]);
      assert s.pool[k] in multiset(s.pool);
    }
    forall k | 0 <= k < |s.active| ensures s.active[k] < |s.items| {
      RangeCounts(|s.items|, s.active[k]);
      assert s.active[k] in multiset(s.active);
    }
    forall x ensures multiset(s.pool)[x] <= 1 && multiset(s.active)[x] <= 1 {
      RangeCounts(|s.items|, x);
    }
    AtMostOnceIsDistinct(s.pool);
    AtMostOnceIsDistinct(s.active);
  }

  lemma AtMostOnceIsDistinct(xs: seq<nat>)
    requires forall x :: multiset(xs)[x] <= 1
    ensures Distinct(xs)
  {
    forall a, b | 0 <= a < b < |xs| ensures xs[a] != xs[b] {
      assert xs == xs[..b] + xs[b..];
      assert xs[a] == xs[..b][a];
      assert xs[b] == xs[b..][0];
      assert multiset(xs) == multiset(xs[..b]) + multiset(xs[b..]);
      assert xs[a] in multiset(xs[..b]);
      assert multiset(xs)[xs[a]] <= 1;
      assert multiset(xs[b..])[xs[a]] == 0;
      assert xs[b] in multiset(xs[b..]);
    }
  }

  /**
   * One spawn (iteration k of a spawn loop): pop the last free object, set it up with
   * `init` and push it on the live list; with an empty free list nothing happens.
   */
  function SpawnOne<T>(s: Arena<T>, k: nat, init: (nat, T) -> T): (r: Arena<T>)
    requires InRange(s)
    ensures InRange(r) && |r.items| == |s.items|
  {
    if s.pool == [] then s
    else
      var h := s.pool[|s.pool| - 1];
      Arena(s.items[h := init(k, s.items[h])], s.pool[..|s.pool| - 1], s.active + [h])
  }

  /** Spawn iterations k, k+1, ..., count-1. */
  function SpawnFrom<T>(s: Arena<T>, k: nat, count: int, init: (nat, T) -> T): (r: Arena<T>)
    requires InRange(s)
    ensures InRange(r) && |r.items| == |s.items|
    decreases count - k
  {
    if k >= count then s else SpawnFrom(SpawnOne(s, k, init), k + 1, count, init)
  }

  /** Once the free list is empty the remaining spawn iterations change nothing (the loop's `break`). */
  lemma {:induction false} SpawnFromEmptyPool<T>(s: Arena<T>, k: nat, count: int, init: (nat, T) -> T)
    requires InRange(s) && s.pool == []
    ensures SpawnFrom(s, k, count, init) == s
    decreases count - k
  {
    if k < count {
      SpawnFromEmptyPool(SpawnOne(s, k, init), k + 1, count, init);
    }
  }

  function MinInt(a: int, b: int): int { if a <= b then a else b }

  /**
   * Spawning count - k times moves min(count - k, free objects) objects, taken from the
   * end of the free list, onto the end of the live list; the first ones stay free.
   */
  lemma {:induction false} SpawnMoves<T>(s: Arena<T>, k: nat, count: int, init: (nat, T) -> T)
    requires InRange(s)
    ensures var r := SpawnFrom(s, k, count, init);
      var moved := if k >= count then 0 else MinInt(count - k, |s.pool|);
      && |r.pool| == |s.pool| - moved
      && r.pool == s.pool[..|r.pool|]
      && |r.active| == |s.active| + moved
      && r.active[..|s.active|] == s.active
    decreases count - k
  {
    if k < count {
      var s1 := SpawnOne(s, k, init);
      SpawnMoves(s1, k + 1, count, init);
      if s.pool != [] {
        var r := SpawnFrom(s1, k + 1, count, init);
        assert r.pool == s1.pool[..|r.pool|];
        assert r.active[..|s1.active|] == s1.active;
        assert r.active[..|s.active|] == s1.active[..|s.active|];
      }
    }
  }

  /** A spawn keeps the arena partitioned and keeps the visible objects exactly the live ones. */
  lemma SpawnOnePreserves<T>(s: Arena<T>, k: nat, init: (nat, T) -> T, visibleOf: T -> bool, good: T -> bool)
    requires Partitioned(s) && InRange(s) && Shown(s, visibleOf) && ActiveGood(s, good)
    requires forall j, t :: visibleOf(init(j, t)) && good(init(j, t))
    ensures var r := SpawnOne(s, k, init);
      Partitioned(r) && Shown(r, visibleOf) && ActiveGood(r, good)
  {
    PartitionExactlyOnce(s);
    if s.pool != [] {
      var m := |s.pool| - 1;
      var h := s.pool[m];
      var r := SpawnOne(s, k, init);
      assert s.pool == s.pool[..m] + [h];
      assert multiset(s.pool) == multiset(s.pool[..m]) + multiset{h};
      assert multiset(r.active) == multiset(s.active) + multiset{h};
      assert h !in s.active;
      forall g | 0 <= g < |r.items| ensures visibleOf(r.items[g]) <==> g in r.active {
        if g != h {
          assert g in r.active <==> g in s.active;
        }
      }
    }
  }

  lemma {:induction false} SpawnFromPreserves<T>(s: Arena<T>, k: nat, count: int, init: (nat, T) -> T,
                                                 visibleOf: T -> bool, good: T -> bool)
    requires Partitioned(s) && Shown(s, visibleOf) && ActiveGood(s, good) && InRange(s)
    requires forall j, t :: visibleOf(init(j, t)) && good(init(j, t))
    ensures var r := SpawnFrom(s, k, count, init);
      Partitioned(r) && Shown(r, visibleOf) && ActiveGood(r, good)
    decreases count - k
  {
    if k < count {
      SpawnOnePreserves(s, k, init, visibleOf, good);
      SpawnFromPreserves(SpawnOne(s, k, init), k + 1, count, init, visibleOf, good);
    }
  }

  /**
   * The per-frame pass on live index i: advance the object; if it has expired, retire
   * it (hide it), push it on the free list and splice it out of the live list.
   */
  function StepAt<T>(s: Arena<T>, i: nat, advance: T -> T, expired: T -> bool, retire: T -> T): (r: Arena<T>)
    requires InRange(s) && i < |s.active|
    ensures InRange(r) && |r.items| == |s.items|
    ensures |r.active| >= i && r.active[..i] == s.active[..i]
  {
    var h := s.active[i];
    var t := advance(s.items[h]);
    if expired(t) then
      Arena(s.items[h := retire(t)], s.pool + [h], s.active[..i] + s.active[i + 1..])
    else
      Arena(s.items[h := t], s.pool, s.active)
  }

  /** The reverse loop with live indices i-1, i-2, ..., 0 still to visit. */
  function StepFrom<T>(s: Arena<T>, i: nat, advance: T -> T, expired: T -> bool, retire: T -> T): (r: Arena<T>)
    requires InRange(s) && i <= |s.active|
    ensures InRange(r) && |r.items| == |s.items|
    decreases i
  {
    if i == 0 then s else StepFrom(StepAt(s, i - 1, advance, expired, retire), i - 1, advance, expired, retire)
  }

  /** The whole per-frame pass over the live list. */
  function StepAll<T>(s: Arena<T>, advance: T -> T, expired: T -> bool, retire: T -> T): (r: Arena<T>)
    requires InRange(s)
    ensures InRange(r) && |r.items| == |s.items|
  {
    StepFrom(s, |s.active|, advance, expired, retire)
  }

  /**
   * The pass on one live index keeps the arena partitioned; an expired object leaves
   * the live list (and only it does), a surviving one leaves the lists as they were.
   */
  lemma StepAtPartitioned<T>(s: Arena<T>, i: nat, advance: T -> T, expired: T -> bool, retire: T -> T)
    requires Partitioned(s) && InRange(s) && i < |s.active|
    ensures var r := StepAt(s, i, advance, expired, retire);
      var h := s.active[i];
      && Partitioned(r)
      && (expired(advance(s.items[h])) ==>
            h !in r.active && forall g :: g != h ==> (g in r.active <==> g in s.active))
      && (!expired(advance(s.items[h])) ==> r.active == s.active)
  {
    var h := s.active[i];
    if expired(advance(s.items[h])) {
      var r := StepAt(s, i, advance, expired, retire);
      assert s.active == s.active[..i] + [h] + s.active[i + 1..];
      assert multiset(s.active) == multiset(r.active) + multiset{h};
      assert multiset(r.pool) == multiset(s.pool) + multiset{h};
      RangeCounts(|s.items|, h);
      assert multiset(r.active)[h] == 0;
      forall g | g != h ensures g in r.active <==> g in s.active {
        assert multiset(r.active)[g] == multiset(s.active)[g];
      }
    }
  }

  lemma StepAtPreserves<T>(s: Arena<T>, i: nat, advance: T -> T, expired: T -> bool, retire: T -> T,
                           visibleOf: T -> bool, good: T -> bool)
    requires Partitioned(s) && InRange(s) && i < |s.active|
    requires Shown(s, visibleOf) && ActiveGood(s, good)
    requires forall t :: visibleOf(advance(t)) == visibleOf(t)
    requires forall t :: !visibleOf(retire(t))
    requires forall t :: good(t) && !expired(advance(t)) ==> good(advance(t))
    ensures Healthy(StepAt(s, i, advance, expired, retire), visibleOf, good)
  {
    StepAtPartitioned(s, i, advance, expired, retire);
    var h := s.active[i];
    var r := StepAt(s, i, advance, expired, retire);
    assert h in s.active;
    forall g | 0 <= g < |r.items| ensures visibleOf(r.items[g]) <==> g in r.active {
      if g != h {
        assert r.items[g] == s.items[g];
        assert visibleOf(s.items[g]) <==> g in s.active;
        assert g in r.active <==> g in s.active;
      } else if expired(advance(s.items[h])) {
        var t := advance(s.items[h]);
        RetireHides(t, retire, visibleOf);
        assert r.items[h] == retire(t);
        assert h !in r.active;
      } else {
        assert r.items[h] == advance(s.items[h]);
        assert visibleOf(s.items[h]);
        assert r.active == s.active;
      }
    }
  }

  lemma RetireHides<T>(x: T, retire: T -> T, visibleOf: T -> bool)
    requires forall t :: !visibleOf(retire(t))
    ensures !visibleOf(retire(x))
  {
  }

  lemma {:induction false} StepFromPreserves<T>(s: Arena<T>, i: nat, advance: T -> T, expired: T -> bool,
                                                retire: T -> T, visibleOf: T -> bool, good: T -> bool)
    requires InRange(s) && i <= |s.active| && Healthy(s, visibleOf, good)
    requires forall t :: visibleOf(advance(t)) == visibleOf(t)
    requires forall t :: !visibleOf(retire(t))
    requires forall t :: good(t) && !expired(advance(t)) ==> good(advance(t))
    ensures Healthy(StepFrom(s, i, advance, expired, retire), visibleOf, good)
    decreases i
  {
    if i > 0 {
      StepAtPreserves(s, i - 1, advance, expired, retire, visibleOf, good);
      StepFromPreserves(StepAt(s, i - 1, advance, expired, retire), i - 1, advance, expired, retire, visibleOf, good);
    }
  }

  /**
   * Live objects from index i on have already been visited: they have not expired and
   * are `settled`, the state that one advance leaves every surviving object in.
   */
  predicate SurvivorsFrom<T>(s: Arena<T>, i: nat, expired: T -> bool, settled: T -> bool)
    requires InRange(s)
  {
    forall k :: i <= k < |s.active| ==> !expired(s.items[s.active[k]]) && settled(s.items[s.active[k]])
  }

  lemma AdvanceSettles<T>(x: T, advance: T -> T, expired: T -> bool, settled: T -> bool)
    requires forall t :: !expired(advance(t)) ==> settled(advance(t))
    ensures !expired(advance(x)) ==> settled(advance(x))
  {
  }

  lemma StepAtSurvivors<T>(s: Arena<T>, i: nat, advance: T -> T, expired: T -> bool, retire: T -> T,
                           settled: T -> bool)
    requires Partitioned(s) && InRange(s) && i < |s.active| && SurvivorsFrom(s, i + 1, expired, settled)
    requires forall t :: !expired(advance(t)) ==> settled(advance(t))
    ensures Partitioned(StepAt(s, i, advance, expired, retire))
    ensures SurvivorsFrom(StepAt(s, i, advance, expired, retire), i, expired, settled)
  {
    StepAtPartitioned(s, i, advance, expired, retire);
    PartitionExactlyOnce(s);
    var h := s.active[i];
    AdvanceSettles(s.items[h], advance, expired, settled);
    var r := StepAt(s, i, advance, expired, retire);
    forall k | i <= k < |r.active| ensures !expired(r.items[r.active[k]]) && settled(r.items[r.active[k]]) {
      if expired(advance(s.items[h])) {
        assert r.active[k] == s.active[k + 1];
        assert s.active[k + 1] != h;
      } else if k > i {
        assert s.active[k] != h;
      }
    }
  }

  lemma {:induction false} StepFromSurvivors<T>(s: Arena<T>, i: nat, advance: T -> T, expired: T -> bool,
                                                retire: T -> T, settled: T -> bool)
    requires Partitioned(s) && InRange(s) && i <= |s.active| && SurvivorsFrom(s, i, expired, settled)
    requires forall t :: !expired(advance(t)) ==> settled(advance(t))
    ensures var r := StepFrom(s, i, advance, expired, retire);
      SurvivorsFrom(r, 0, expired, settled)
    decreases i
  {
    if i > 0 {
      StepAtSurvivors(s, i - 1, advance, expired, retire, settled);
      StepFromSurvivors(StepAt(s, i - 1, advance, expired, retire), i - 1, advance, expired, retire, settled);
    }
  }

  /**
   * The per-frame pass keeps the pool invariants, and afterwards every live object has
   * been advanced without expiring: every expired object has gone back to the free list.
   */
  lemma StepAllPreserves<T>(s: Arena<T>, advance: T -> T, expired: T -> bool, retire: T -> T,
                            visibleOf: T -> bool, good: T -> bool, settled: T -> bool)
    requires Partitioned(s) && Shown(s, visibleOf) && ActiveGood(s, good)
    requires forall t :: visibleOf(advance(t)) == visibleOf(t)
    requires forall t :: !visibleOf(retire(t))
    requires forall t :: good(t) && !expired(advance(t)) ==> good(advance(t))
    requires forall t :: !expired(advance(t)) ==> settled(advance(t))
    ensures InRange(s)
    ensures var r := StepAll(s, advance, expired, retire);
      && Partitioned(r) && Shown(r, visibleOf) && ActiveGood(r, good)
      && SurvivorsFrom(r, 0, expired, settled)
  {
    PartitionExactlyOnce(s);
    StepFromPreserves(s, |s.active|, advance, expired, retire, visibleOf, good);
    StepFromSurvivors(s, |s.active|, advance, expired, retire, settled);
  }

  /**
   * One whole frame of a pooled scene, the spawn loop followed by the reverse pass,
   * keeps the pool invariants and leaves only settled survivors in the live list.
   */
  lemma FramePreserves<T>(s: Arena<T>, count: int, init: (nat, T) -> T, advance: T -> T,
                          expired: T -> bool, retire: T -> T,
                          visibleOf: T -> bool, good: T -> bool, settled: T -> bool)
    requires Partitioned(s) && Shown(s, visibleOf) && ActiveGood(s, good)
    requires forall j, t :: visibleOf(init(j, t)) && good(init(j, t))
    requires forall t :: visibleOf(advance(t)) == visibleOf(t)
    requires forall t :: !visibleOf(retire(t))
    requires forall t :: good(t) && !expired(advance(t)) ==> good(advance(t))
    requires forall t :: !expired(advance(t)) ==> settled(advance(t))
    ensures InRange(s)
    ensures var r := StepAll(SpawnFrom(s, 0, count, init), advance, expired, retire);
      && |r.items| == |s.items|
      && InRange(r) && Partitioned(r) && Shown(r, visibleOf) && ActiveGood(r, good)
      && SurvivorsFrom(r, 0, expired, settled)
      && |r.pool| + |r.active| == |r.items|
      && (forall h :: 0 <= h < |r.items| ==> (h in r.pool <==> h !in r.active))
  {
    PartitionExactlyOnce(s);
    SpawnFromPreserves(s, 0, count, init, visibleOf, good);
    var s1 := SpawnFrom(s, 0, count, init);
    StepAllPreserves(s1, advance, expired, retire, visibleOf, good, settled);
    PartitionExactlyOnce(StepAll(s1, advance, expired, retire));
  }
}
