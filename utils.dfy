/**
 * The linear remap `map(value, start1, stop1, start2, stop2)` that every scene uses
 * (core/utils.js, repeated verbatim in main.js), together with the small shared
 * vocabulary of the model: an Option type for JavaScript's null/undefined and the
 * constant Math.PI.
 */
module Utils {

  /** A value that may be JavaScript's `null`/`undefined`. */
  datatype Option<T> = None | Some(value: T)

  /** One entry of a Uint8Array (the analyser's byte spectrum). */
  type Byte = x: int | 0 <= x < 256

  /** Math.PI as a real number. */
  const Pi: real := 3.141592653589793

  function Min(a: real, b: real): real { if a <= b then a else b }
  function Max(a: real, b: real): real { if a <= b then b else a }

  /**
   * Carries `value` from the range [start1, stop1] to [start2, stop2] by the affine
   * map that sends start1 to start2 and stop1 to stop2. Nothing is clamped.
   * The source divides by stop1 - start1 unguarded; the model requires it non-zero.
   */
  function Map(value: real, start1: real, stop1: real, start2: real, stop2: real): real
    requires start1 != stop1
  {
    start2 + (stop2 - start2) * ((value - start1) / (stop1 - start1))
  }

  /** The two ends of the input range land on the two ends of the output range. */
  lemma MapEndpoints(start1: real, stop1: real, start2: real, stop2: real)
    requires start1 != stop1
    ensures Map(start1, start1, stop1, start2, stop2) == start2
    ensures Map(stop1, start1, stop1, start2, stop2) == stop2
  {
    assert (stop1 - start1) / (stop1 - start1) == 1.0;
  }

  /** Sign of a product with a positive factor (a helper for the remap lemmas). */
  lemma ProductSign(x: real, d: real)
    requires d > 0.0
    ensures x * d >= 0.0 <==> x >= 0.0
    ensures x * d > 0.0 <==> x > 0.0
  {}

  lemma MulNonneg(a: real, b: real)
    requires a >= 0.0 && b >= 0.0
    ensures a * b >= 0.0
  {}

  /** A ratio of a part to a positive whole lies in the unit interval. */
  lemma DivUnit(a: real, d: real)
    requires d > 0.0 && 0.0 <= a <= d
    ensures 0.0 <= a / d <= 1.0
  {
    var t := a / d;
    assert t * d == a;
    ProductSign(t, d);
    ProductSign(1.0 - t, d);
  }

  /** A value inside [start1, stop1] is carried inside the output range (whichever way it runs). */
  lemma MapWithinRange(value: real, start1: real, stop1: real, start2: real, stop2: real)
    requires start1 < stop1 && start1 <= value <= stop1
    ensures Min(start2, stop2) <= Map(value, start1, stop1, start2, stop2) <= Max(start2, stop2)
  {
    var t := (value - start1) / (stop1 - start1);
    DivUnit(value - start1, stop1 - start1);
    if start2 <= stop2 {
      MulNonneg(stop2 - start2, t);
      MulNonneg(stop2 - start2, 1.0 - t);
    } else {
      MulNonneg(start2 - stop2, t);
      MulNonneg(start2 - stop2, 1.0 - t);
    }
  }

  /** With both ranges increasing, the remap is monotone non-decreasing in `value`. */
  lemma MapMonotone(v1: real, v2: real, start1: real, stop1: real, start2: real, stop2: real)
    requires start1 < stop1 && start2 <= stop2 && v1 <= v2
    ensures Map(v1, start1, stop1, start2, stop2) <= Map(v2, start1, stop1, start2, stop2)
  {
    var d := stop1 - start1;
    var t1, t2 := (v1 - start1) / d, (v2 - start1) / d;
    assert (t2 - t1) * d == v2 - v1;
    ProductSign(t2 - t1, d);
    MulNonneg(stop2 - start2, t2 - t1);
  }

  /** No clamping: inputs beyond either end of [start1, stop1] are carried beyond the output range. */
  lemma MapExtrapolates(value: real, start1: real, stop1: real, start2: real, stop2: real)
    requires start1 < stop1 && start2 < stop2
    ensures value > stop1 ==> Map(value, start1, stop1, start2, stop2) > stop2
    ensures value < start1 ==> Map(value, start1, stop1, start2, stop2) < start2
  {
    var d := stop1 - start1;
    var t := (value - start1) / d;
    assert t * d == value - start1;
    ProductSign(t - 1.0, d);
    ProductSign(-t, d);
    ProductSign(t - 1.0, stop2 - start2);
    ProductSign(-t, stop2 - start2);
  }

  /** Remapping back with the ranges swapped returns the original value: the map is invertible. */
  lemma MapRoundTrip(value: real, start1: real, stop1: real, start2: real, stop2: real)
    requires start1 != stop1 && start2 != stop2
    ensures Map(Map(value, start1, stop1, start2, stop2), start2, stop2, start1, stop1) == value
  {
    var t := (value - start1) / (stop1 - start1);
    var y := start2 + (stop2 - start2) * t;
    assert (y - start2) / (stop2 - start2) == t;
    assert start1 + (stop1 - start1) * t == value;
  }
}
