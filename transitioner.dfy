/**
 * The crossfade state machine of core/Transitioner.js.
 *
 * A Transitioner is either Idle (no scenes, progress 0, slot -1) or Active, carrying
 * the scene it fades from, the scene it fades to, the target slot and a progress
 * value that `update` pushes towards 1.0. Scenes are JavaScript objects; the model
 * names each by an identity number, and a missing scene (`null`/`undefined`) is None.
 */
module Transitions {
  import opened Utils

  /** A scene reference as the caller passes it: absent, or an object identity. */
  type SceneRef = Option<nat>

  datatype TransitionState = TransitionState(
    isActive: bool,
    progress: real,
    fromScene: SceneRef,
    toScene: SceneRef,
    toSlotIndex: int)

  /** The field values the constructor assigns. */
  const Idle: TransitionState := TransitionState(false, 0.0, None, None, -1)

  /**
   * The states a Transitioner can be in: an idle one holds exactly the constructor's
   * values; an active one holds two distinct scenes and a progress in [0, 1].
   */
  predicate WellFormed(s: TransitionState) {
    && 0.0 <= s.progress <= 1.0
    && (!s.isActive ==> s == Idle)
    && (s.isActive ==> s.fromScene.Some? && s.toScene.Some? && s.fromScene != s.toScene)
  }

  /**
   * One call of `start`: the accepted flag and the state after the call. The call is
   * refused when a transition is running, when either scene is missing, or when both
   * are the same object; a refused call leaves the state as it was.
   */
  function StartStep(s: TransitionState, from: SceneRef, to: SceneRef, slot: int): (r: (bool, TransitionState))
    ensures r.0 <==> !s.isActive && from.Some? && to.Some? && from.value != to.value
    ensures !r.0 ==> r.1 == s
    ensures r.0 ==> r.1 == TransitionState(true, 0.0, from, to, slot)
  {
    if s.isActive || from.None? || to.None? || from == to then (false, s)
    else (true, TransitionState(true, 0.0, from, to, slot))
  }

  /** One call of `stop`: every field goes back to its constructor value. */
  function StopStep(s: TransitionState): (r: TransitionState)
    ensures r == Idle
  {
    Idle
  }

  /**
   * One call of `update(deltaTime, duration)`: an idle state is left alone; an active
   * one advances its progress by deltaTime / duration, clamped at 1.0. Nothing but the
   * progress changes.
   */
  function UpdateStep(s: TransitionState, deltaTime: real, duration: real): (r: TransitionState)
    requires duration > 0.0
    ensures !s.isActive ==> r == s
    ensures r.isActive == s.isActive && r.fromScene == s.fromScene
    ensures r.toScene == s.toScene && r.toSlotIndex == s.toSlotIndex
    ensures s.isActive ==> r.progress == Min(1.0, s.progress + deltaTime / duration)
  {
    if !s.isActive then s
    else
      var p := s.progress + deltaTime / duration;
      s.(progress := if p >= 1.0 then 1.0 else p)
  }

  /** A sequence of `update` calls with the same duration. */
  function Run(s: TransitionState, deltas: seq<real>, duration: real): TransitionState
    requires duration > 0.0
    decreases |deltas|
  {
    if deltas == [] then s else Run(UpdateStep(s, deltas[0], duration), deltas[1..], duration)
  }

  function Sum(xs: seq<real>): real {
    if xs == [] then 0.0 else xs[0] + Sum(xs[1..])
  }

  predicate AllNonNegative(xs: seq<real>) {
    forall i :: 0 <= i < |xs| ==> xs[i] >= 0.0
  }

  /** Every step keeps a Transitioner in one of its well-formed states (for non-negative deltaTime). */
  lemma StepsPreserveWellFormed(s: TransitionState, from: SceneRef, to: SceneRef, slot: int,
                                deltaTime: real, duration: real)
    requires WellFormed(s) && deltaTime >= 0.0 && duration > 0.0
    ensures WellFormed(StartStep(s, from, to, slot).1)
    ensures WellFormed(StopStep(s))
    ensures WellFormed(UpdateStep(s, deltaTime, duration))
  {
    if s.isActive {
      assert deltaTime / duration >= 0.0 by { ProductSign(deltaTime / duration, duration); }
    }
  }

  /** While a transition is active every further `start` is refused: at most one is in flight. */
  lemma AtMostOneInFlight(s: TransitionState, from: SceneRef, to: SceneRef, slot: int,
                          from2: SceneRef, to2: SceneRef, slot2: int)
    requires StartStep(s, from, to, slot).0
    ensures !StartStep(StartStep(s, from, to, slot).1, from2, to2, slot2).0
    ensures StartStep(StartStep(s, from, to, slot).1, from2, to2, slot2).1 == StartStep(s, from, to, slot).1
  {
  }

  /** `update` never decreases progress and never lets it pass 1.0. */
  lemma UpdateMonotoneClamped(s: TransitionState, deltaTime: real, duration: real)
    requires WellFormed(s) && deltaTime >= 0.0 && duration > 0.0
    ensures s.progress <= UpdateStep(s, deltaTime, duration).progress <= 1.0
  {
    ProductSign(deltaTime / duration, duration);
  }

  /** Calling `stop` twice gives the same state as calling it once. */
  lemma StopIdempotent(s: TransitionState)
    ensures StopStep(StopStep(s)) == StopStep(s)
    ensures WellFormed(StopStep(s))
  {
  }

  /**
   * The closed form of a run of updates on an active transition: progress is the start
   * value plus the summed deltaTime over duration, capped at 1.0; the transition stays
   * active with the same scenes and slot, so updates never complete it on their own.
   */
  lemma {:induction false} RunClosedForm(s: TransitionState, deltas: seq<real>, duration: real)
    requires WellFormed(s) && s.isActive && duration > 0.0 && AllNonNegative(deltas)
    ensures var r := Run(s, deltas, duration);
      && r.progress == Min(1.0, s.progress + Sum(deltas) / duration)
      && r.isActive && r.fromScene == s.fromScene && r.toScene == s.toScene
      && r.toSlotIndex == s.toSlotIndex
    decreases |deltas|
  {
    if deltas != [] {
      var s1 := UpdateStep(s, deltas[0], duration);
      UpdateMonotoneClamped(s, deltas[0], duration);
      StepsPreserveWellFormed(s, None, None, 0, deltas[0], duration);
      assert AllNonNegative(deltas[1..]) by {
        forall i | 0 <= i < |deltas[1..]| ensures deltas[1..][i] >= 0.0 {
          assert deltas[1..][i] == deltas[i + 1];
        }
      }
      RunClosedForm(s1, deltas[1..], duration);
      SumNonNegative(deltas[1..]);
      CappedSum(s.progress, deltas[0], Sum(deltas[1..]), duration);
    }
  }

  /** Capping after each step or once at the end gives the same progress. */
  lemma CappedSum(p: real, d: real, rest: real, duration: real)
    requires 0.0 <= p && d >= 0.0 && rest >= 0.0 && duration > 0.0
    ensures Min(1.0, Min(1.0, p + d / duration) + rest / duration) == Min(1.0, p + (d + rest) / duration)
  {
    assert (d + rest) / duration == d / duration + rest / duration;
    ProductSign(rest / duration, duration);
  }

  lemma {:induction false} SumNonNegative(xs: seq<real>)
    requires AllNonNegative(xs)
    ensures Sum(xs) >= 0.0
  {
    if xs != [] {
      assert AllNonNegative(xs[1..]) by {
        forall i | 0 <= i < |xs[1..]| ensures xs[1..][i] >= 0.0 {
          assert xs[1..][i] == xs[i + 1];
        }
      }
      SumNonNegative(xs[1..]);
    }
  }

  /** The object of core/Transitioner.js, its five fields updated in place. */
  class Transitioner {
    var isActive: bool
    var progress: real
    var fromScene: SceneRef
    var toScene: SceneRef
    var toSlotIndex: int

    function State(): TransitionState
      reads this
    {
      TransitionState(isActive, progress, fromScene, toScene, toSlotIndex)
    }

    constructor ()
      ensures State() == Idle && WellFormed(State())
    {
      isActive := false;
      progress := 0.0;
      fromScene := None;
      toScene := None;
      toSlotIndex := -1;
    }

    method Start(from: SceneRef, to: SceneRef, slot: int) returns (started: bool)
      modifies this
      ensures (started, State()) == StartStep(old(State()), from, to, slot)
    {
      if isActive || from.None? || to.None? || from == to {
        return false;
      }
      isActive := true;
      progress := 0.0;
      fromScene := from;
      toScene := to;
      toSlotIndex := slot;
      return true;
    }

    method Stop()
      modifies this
      ensures State() == StopStep(old(State()))
    {
      isActive := false;
      progress := 0.0;
      fromScene := None;
      toScene := None;
      toSlotIndex := -1;
    }

    method Update(deltaTime: real, duration: real)
      requires duration > 0.0
      modifies this
      ensures State() == UpdateStep(old(State()), deltaTime, duration)
    {
      if !isActive {
        return;
      }
      progress := progress + deltaTime / duration;
      if progress >= 1.0 {
        progress := 1.0;
      }
    }
  }
}
