/**
 * The fixed-length scrolling history kept by StarryLake's bass history and by each
 * AudioGraph graph line: every frame the oldest entry is dropped and the new value appended.
 */
module Histories {
  /** The history after `shift` then `push`: drop the oldest value, append the new one. */
  function Scroll(h: seq<real>, x: real): (r: seq<real>)
    requires |h| > 0
    ensures |r| == |h| && r[|r| - 1] == x
    ensures forall i :: 0 <= i < |h| - 1 ==> r[i] == h[i + 1]
  {
    h[1..] + [x]
  }

  /** The history after a run of shift-then-push steps, one per value. */
  function ScrollAll(h: seq<real>, xs: seq<real>): (r: seq<real>)
    requires |h| > 0
    ensures |r| == |h|
    decreases |xs|
  {
    if xs == [] then h else ScrollAll(Scroll(h, xs[0]), xs[1..])
  }

  /**
   * A fixed-length history scrolled through any run of values is the last |h| entries of the
   * old history followed by those values: once |h| values have passed it holds exactly them.
   */
  lemma {:induction false} ScrollAllWindow(h: seq<real>, xs: seq<real>)
    requires |h| > 0
    ensures ScrollAll(h, xs) == (h + xs)[|xs|..]
    decreases |xs|
  {
    if xs != [] {
      ScrollAllWindow(Scroll(h, xs[0]), xs[1..]);
      assert Scroll(h, xs[0]) + xs[1..] == (h + xs)[1..];
    }
  }
}
