/**
 * The per-frame audio analysis and the built-in wavy-lines scene of main.js.
 *
 * `updateAudio` splits the analyser's byte spectrum of n bins into three contiguous
 * bands (bass: bins 0..floor(0.2 n), mid: up to floor(0.5 n), treble: the rest) and
 * stores each band's mean divided by 255. `updateWavyLinesScene` turns the three
 * levels into a prefix of visible lines with wave-shaped point buffers.
 */
module MainScript {
  import opened Utils
  import opened LineRows

  datatype Band = Bass | Mid | Treble

  /** Last bass bin: Math.floor(freqBinCount * 0.2). */
  function BassEnd(n: nat): nat { n / 5 }

  /** Last mid bin: Math.floor(freqBinCount * 0.5). */
  function MidEnd(n: nat): nat { n / 2 }

  /** The band that the loop of updateAudio adds bin i to. */
  function BandOf(n: nat, i: nat): Band {
    if i <= BassEnd(n) then Bass else if i <= MidEnd(n) then Mid else Treble
  }

  /** Sum of the first k bins that fall in band b. */
  function BandSum(data: seq<Byte>, b: Band, k: nat): nat
    requires k <= |data|
  {
    if k == 0 then 0
    else BandSum(data, b, k - 1) + (if BandOf(|data|, k - 1) == b then data[k - 1] else 0)
  }

  /** Number of the first k bin indices of an n-bin spectrum that fall in band b. */
  function BandCount(n: nat, b: Band, k: nat): nat {
    if k == 0 then 0 else BandCount(n, b, k - 1) + (if BandOf(n, k - 1) == b then 1 else 0)
  }

  /** The three divisors of updateAudio (treble's is used only when positive). */
  function Divisor(n: nat, b: Band): int {
    match b
    case Bass => BassEnd(n) + 1
    case Mid => MidEnd(n) - BassEnd(n)
    case Treble => n - MidEnd(n) - 1
  }

  datatype Levels = Levels(bass: real, mid: real, treble: real)

  /**
   * The levels that updateAudio stores for a spectrum of at least two bins. Only the
   * treble divisor has a fallback (1 when it is not positive); with two or more bins
   * the bass and mid divisors are positive.
   */
  function BandLevels(data: seq<Byte>): (r: Levels)
    requires |data| >= 2
  {
    var n := |data|;
    var trebleDivisor := if Divisor(n, Treble) > 0 then Divisor(n, Treble) else 1;
    Levels(
      (BandSum(data, Bass, n) as real / Divisor(n, Bass) as real) / 255.0,
      (BandSum(data, Mid, n) as real / Divisor(n, Mid) as real) / 255.0,
      (BandSum(data, Treble, n) as real / trebleDivisor as real) / 255.0)
  }

  /**
   * The bands partition the bins 0..n-1 in order: bass up to floor(0.2 n), then mid up
   * to floor(0.5 n), then treble; every index is in exactly one band.
   */
  lemma BandsPartition(n: nat, i: nat)
    requires 2 <= n && i < n
    ensures BandOf(n, i) == Bass <==> i <= BassEnd(n)
    ensures BandOf(n, i) == Mid <==> BassEnd(n) < i <= MidEnd(n)
    ensures BandOf(n, i) == Treble <==> MidEnd(n) < i
    ensures BassEnd(n) < MidEnd(n) < n
  {
  }

  /** The number of the first k bins in each band, in closed form. */
  lemma {:induction false} BandCountPrefix(n: nat, k: nat)
    requires 2 <= n
    ensures BandCount(n, Bass, k) == if k <= BassEnd(n) + 1 then k else BassEnd(n) + 1
    ensures BandCount(n, Mid, k) ==
      if k <= BassEnd(n) + 1 then 0
      else if k <= MidEnd(n) + 1 then k - BassEnd(n) - 1
      else MidEnd(n) - BassEnd(n)
    ensures BandCount(n, Treble, k) == if k <= MidEnd(n) + 1 then 0 else k - MidEnd(n) - 1
  {
    if k > 0 {
      BandCountPrefix(n, k - 1);
    }
  }

  /** Each divisor is exactly the number of bins in its band; the treble band may be empty. */
  lemma DivisorsCountBins(n: nat)
    requires 2 <= n
    ensures BandCount(n, Bass, n) == Divisor(n, Bass) > 0
    ensures BandCount(n, Mid, n) == Divisor(n, Mid) > 0
    ensures BandCount(n, Treble, n) == Divisor(n, Treble) >= 0
    ensures Divisor(n, Treble) == 0 <==> n == 2
  {
    BandCountPrefix(n, n);
  }

  /** A band's sum is at most 255 times its bin count. */
  lemma {:induction false} BandSumBounded(data: seq<Byte>, b: Band, k: nat)
    requires k <= |data|
    ensures BandSum(data, b, k) <= 255 * BandCount(|data|, b, k)
  {
    if k > 0 {
      BandSumBounded(data, b, k - 1);
    }
  }

  /** A silent spectrum has every band sum zero. */
  lemma {:induction false} BandSumOfSilence(data: seq<Byte>, b: Band, k: nat)
    requires k <= |data| && forall i :: 0 <= i < |data| ==> data[i] == 0
    ensures BandSum(data, b, k) == 0
  {
    if k > 0 {
      BandSumOfSilence(data, b, k - 1);
    }
  }

  lemma MeanInUnit(sum: nat, count: nat, divisor: nat)
    requires 0 < divisor && sum <= 255 * count && count <= divisor
    ensures 0.0 <= (sum as real / divisor as real) / 255.0 <= 1.0
  {
    DivUnit(sum as real, 255.0 * divisor as real);
    assert (sum as real / divisor as real) / 255.0 == sum as real / (255.0 * divisor as real);
  }

  /** With byte bins every level lies in [0, 1]. */
  lemma LevelsInUnit(data: seq<Byte>)
    requires |data| >= 2
    ensures var r := BandLevels(data);
      0.0 <= r.bass <= 1.0 && 0.0 <= r.mid <= 1.0 && 0.0 <= r.treble <= 1.0
  {
    var n := |data|;
    DivisorsCountBins(n);
    BandSumBounded(data, Bass, n);
    BandSumBounded(data, Mid, n);
    BandSumBounded(data, Treble, n);
    MeanInUnit(BandSum(data, Bass, n), BandCount(n, Bass, n), Divisor(n, Bass));
    MeanInUnit(BandSum(data, Mid, n), BandCount(n, Mid, n), Divisor(n, Mid));
    var td := if Divisor(n, Treble) > 0 then Divisor(n, Treble) else 1;
    MeanInUnit(BandSum(data, Treble, n), BandCount(n, Treble, n), td);
  }

  /** An all-zero spectrum gives zero levels. */
  lemma SilenceIsZero(data: seq<Byte>)
    requires |data| >= 2 && forall i :: 0 <= i < |data| ==> data[i] == 0
    ensures BandLevels(data) == Levels(0.0, 0.0, 0.0)
  {
    BandSumOfSilence(data, Bass, |data|);
    BandSumOfSilence(data, Mid, |data|);
    BandSumOfSilence(data, Treble, |data|);
  }

  /** A spectrum at full scale gives the levels 1, 1 and (for n > 2 bins) 1. */
  lemma FullScaleIsOne(data: seq<Byte>)
    requires |data| >= 3 && forall i :: 0 <= i < |data| ==> data[i] == 255
    ensures BandLevels(data) == Levels(1.0, 1.0, 1.0)
  {
    var n := |data|;
    DivisorsCountBins(n);
    BandSumFullScale(data, Bass, n);
    BandSumFullScale(data, Mid, n);
    BandSumFullScale(data, Treble, n);
    FullMean(Divisor(n, Bass));
    FullMean(Divisor(n, Mid));
    FullMean(Divisor(n, Treble));
  }

  lemma FullMean(count: int)
    requires count > 0
    ensures ((255 * count) as real / count as real) / 255.0 == 1.0
  {
  }

  lemma {:induction false} BandSumFullScale(data: seq<Byte>, b: Band, k: nat)
    requires k <= |data| && forall i :: 0 <= i < |data| ==> data[i] == 255
    ensures BandSum(data, b, k) == 255 * BandCount(|data|, b, k)
  {
    if k > 0 {
      BandSumFullScale(data, b, k - 1);
    }
  }

  /** y of point j of line i in main.js: yOffset + wave + glitch. */
  function WavePointY(i: nat, j: nat, time: real, amplitude: real, noise: real,
                      sin: real -> real, rand: (nat, nat) -> real): real
  {
    var yOffset := Map(i as real, 0.0, MaxLines as real, -5.0, 5.0);
    var x := PointX(j, 10.0);
    yOffset + sin(time * 0.2 + x * 1.0 + i as real * 0.3) * amplitude + (rand(i, j) - 0.5) * noise
  }

  /**
   * A point stays within the wave amplitude plus half the noise of its line's centre,
   * the centres being spread evenly over [-5, 5) by line index.
   */
  lemma WavePointNearCentre(i: nat, j: nat, time: real, amplitude: real, noise: real,
                            sin: real -> real, rand: (nat, nat) -> real)
    requires i < MaxLines && amplitude >= 0.0 && noise >= 0.0
    requires -1.0 <= sin(time * 0.2 + PointX(j, 10.0) * 1.0 + i as real * 0.3) <= 1.0
    requires 0.0 <= rand(i, j) < 1.0
    ensures var c := -5.0 + i as real / 2.0;
      var y := WavePointY(i, j, time, amplitude, noise, sin, rand);
      c - amplitude - noise / 2.0 <= y <= c + amplitude + noise / 2.0
  {
    var s := sin(time * 0.2 + PointX(j, 10.0) * 1.0 + i as real * 0.3);
    MulNonneg(1.0 - s, amplitude);
    MulNonneg(1.0 + s, amplitude);
    MulNonneg(rand(i, j), noise);
    MulNonneg(1.0 - rand(i, j), noise);
  }

  /** The y of every point of every line in one frame. */
  function WaveYs(time: real, amplitude: real, noise: real, sin: real -> real,
                  rand: (nat, nat) -> real): (nat, nat) -> real
  {
    (i: nat, j: nat) => WavePointY(i, j, time, amplitude, noise, sin, rand)
  }

  /** The module-level state of main.js that the two update functions read and write. */
  class Visualizer {
    /** Whether startAudio has created the analyser. */
    var analyserReady: bool
    var bass: real
    var mid: real
    var treble: real
    var time: real
    const lines: LineGroup

    ghost predicate Valid()
      reads this, lines
    {
      lines.Valid()
    }

    /** The state after init: no analyser yet, silent levels and 20 hidden lines. */
    constructor ()
      ensures Valid() && fresh(lines) && fresh(lines.visible) && fresh(lines.points)
      ensures !analyserReady && bass == 0.0 && mid == 0.0 && treble == 0.0 && time == 0.0
      ensures forall i :: 0 <= i < MaxLines ==> !lines.visible[i]
    {
      analyserReady := false;
      bass, mid, treble := 0.0, 0.0, 0.0;
      time := 0.0;
      lines := new LineGroup(false);
    }

    /**
     * updateAudio: without an analyser nothing changes; otherwise the byte spectrum
     * just read is summed band by band and the three means over 255 are stored.
     */
    method UpdateAudio(spectrum: seq<Byte>)
      requires analyserReady ==> |spectrum| >= 2
      modifies this
      ensures analyserReady == old(analyserReady) && time == old(time)
      ensures !analyserReady ==> bass == old(bass) && mid == old(mid) && treble == old(treble)
      ensures analyserReady ==> Levels(bass, mid, treble) == BandLevels(spectrum)
    {
      if !analyserReady {
        return;
      }
      var n := |spectrum|;
      var bassEndIndex := n / 5;
      var midEndIndex := n / 2;
      var bassSum: nat, midSum: nat, trebleSum: nat := 0, 0, 0;
      var i := 0;
      while i < n
        invariant 0 <= i <= n
        invariant bassSum == BandSum(spectrum, Bass, i)
        invariant midSum == BandSum(spectrum, Mid, i)
        invariant trebleSum == BandSum(spectrum, Treble, i)
      {
        if i <= bassEndIndex {
          bassSum := bassSum + spectrum[i];
        } else if i <= midEndIndex {
          midSum := midSum + spectrum[i];
        } else {
          trebleSum := trebleSum + spectrum[i];
        }
        i := i + 1;
      }
      var bassDivisor := bassEndIndex + 1;
      var midDivisor := midEndIndex - bassEndIndex;
      var trebleDivisor := n - midEndIndex - 1;
      bass := (bassSum as real / bassDivisor as real) / 255.0;
      mid := (midSum as real / midDivisor as real) / 255.0;
      treble := (trebleSum as real / (if trebleDivisor > 0 then trebleDivisor else 1) as real) / 255.0;
    }

    /**
     * updateWavyLinesScene: the first floor(map(bass, 0, 1, 1, 20)) lines are shown,
     * each rewritten with 121 points spread over x in [-10, 10]; the rest are hidden.
     * Math.sin is `sin`, and `rand(i, j)` is the Math.random() drawn for point j of line i.
     */
    method UpdateWavyLinesScene(sin: real -> real, rand: (nat, nat) -> real)
      requires Valid()
      modifies lines.visible, lines.points
      ensures forall i :: 0 <= i < MaxLines ==> lines.visible[i] == (i < VisibleLineCount(bass))
      ensures forall i, k :: 0 <= i < MaxLines && 0 <= k < RowLength ==>
        lines.points[i, k] ==
          if i < VisibleLineCount(bass)
          then RowValue(i, k, 10.0, WaveYs(time, Map(mid, 0.0, 1.0, 0.1, 2.0),
                                           Map(treble, 0.0, 1.0, 0.0, 0.5), sin, rand))
          else old(lines.points[i, k])
    {
      var numLines := VisibleLineCount(bass);
      var waveAmplitude := Map(mid, 0.0, 1.0, 0.1, 2.0);
      var noiseAmount := Map(treble, 0.0, 1.0, 0.0, 0.5);
      lines.Draw(numLines, 10.0, WaveYs(time, waveAmplitude, noiseAmount, sin, rand));
    }
  }
}
