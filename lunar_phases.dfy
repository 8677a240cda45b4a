/**
 * scenes/LunarPhases.js: nine moons on a 3 x 3 grid that wax and wane with the music. The top
 * row follows the treble, the middle row the mids, the bottom row the bass; within a row the
 * three moons are a third of a cycle apart, and an attack in a row's band makes its moons flash.
 *
 * Each moon is reduced to its position and its two shader uniforms `u_phase` and `u_flash`;
 * Math.sin is the parameter `sin`. The moons' colour is left out.
 */
module LunarPhases {
  import opened Utils
  import opened Envelopes

  const GridSize: nat := 3
  const NumMoons: nat := 9
  const MoonSize: real := 2.0
  const Padding: real := 1.5
  const AttackThreshold: real := 0.1
  const FlashPeak: real := 0.8
  const FlashDecay: real := 0.9

  /** The distance between neighbouring moons: moon size plus padding. */
  const Pitch: real := MoonSize + Padding

  /** 3 * 2 + 2 * 1.5: the grid's width, and its height. */
  const TotalWidth: real := GridSize as real * MoonSize + (GridSize - 1) as real * Padding

  /** The centre of the top-left moon. */
  const StartX: real := -TotalWidth / 2.0 + MoonSize / 2.0
  const StartY: real := TotalWidth / 2.0 - MoonSize / 2.0

  /** Moon i sits in row i / 3, column i % 3, as `init` pushes them row by row. */
  function Row(i: nat): nat { i / GridSize }
  function Col(i: nat): nat { i % GridSize }

  function MoonX(i: nat): real {
    StartX + Col(i) as real * Pitch
  }

  function MoonY(i: nat): real {
    StartY - Row(i) as real * Pitch
  }

  /**
   * The moons are 3.5 apart, the middle one at the origin, and the grid is symmetric: moon i
   * and moon 8 - i are mirror images through the origin.
   */
  lemma GridCentred(i: nat)
    requires i < NumMoons
    ensures MoonX(4) == 0.0 && MoonY(4) == 0.0
    ensures MoonX(i) == -MoonX(NumMoons - 1 - i) && MoonY(i) == -MoonY(NumMoons - 1 - i)
    ensures Col(i) < 2 ==> MoonX(i + 1) - MoonX(i) == Pitch && MoonY(i + 1) == MoonY(i)
    ensures Row(i) < 2 ==> MoonY(i) - MoonY(i + 3) == Pitch && MoonX(i + 3) == MoonX(i)
    ensures -3.5 <= MoonX(i) <= 3.5 && -3.5 <= MoonY(i) <= 3.5
  {
  }

  /** The band a row follows, as an index of attackEffects: row 0 treble (2), row 1 mid (1), row 2 bass (0). */
  function RowBand(row: nat): nat
    requires row < GridSize
  {
    GridSize - 1 - row
  }

  /** The level of band b: bass, mid or treble. */
  function BandLevel(b: nat, bass: real, mid: real, treble: real): real
    requires b < 3
  {
    if b == 0 then bass else if b == 1 then mid else treble
  }

  /** A column's phase offset: (col / 3) * 2 pi. */
  function PhaseOffset(col: nat): real {
    (col as real / 3.0) * Pi * 2.0
  }

  /** The phase of a moon: (sin(map(level, 0, 1, 0, 2 pi) + offset) + 1) / 2. */
  function Phase(level: real, col: nat, sin: real -> real): real {
    (sin(Map(level, 0.0, 1.0, 0.0, Pi * 2.0) + PhaseOffset(col)) + 1.0) / 2.0
  }

  /** The columns of a row are a third of a cycle apart, and every phase lies in [0, 1]. */
  lemma PhaseBounds(level: real, col: nat, sin: real -> real)
    requires forall a :: -1.0 <= sin(a) <= 1.0
    ensures 0.0 <= Phase(level, col, sin) <= 1.0
    ensures PhaseOffset(col + 1) - PhaseOffset(col) == Pi * 2.0 / 3.0
    ensures PhaseOffset(0) == 0.0
  {
    var a := Map(level, 0.0, 1.0, 0.0, Pi * 2.0) + PhaseOffset(col);
    assert -1.0 <= sin(a) <= 1.0;
  }

  /** The three envelopes after the triggers of one frame (before its decay). */
  function TriggeredEffects(effects: seq<real>, bassAttack: real, midAttack: real, trebleAttack: real): (r: seq<real>)
    requires |effects| == 3
    ensures |r| == 3
  {
    [Triggered(effects[0], bassAttack, AttackThreshold, FlashPeak),
     Triggered(effects[1], midAttack, AttackThreshold, FlashPeak),
     Triggered(effects[2], trebleAttack, AttackThreshold, FlashPeak)]
  }

  /** Moon i after one frame: its phase and flash, from the band levels and attacks of the frame. */
  function MoonAfter(i: nat, effects: seq<real>, bass: real, mid: real, treble: real,
                     bassAttack: real, midAttack: real, trebleAttack: real, sin: real -> real): (real, real)
    requires i < NumMoons && |effects| == 3
  {
    var b := RowBand(Row(i));
    (Phase(BandLevel(b, bass, mid, treble), Col(i), sin),
     TriggeredEffects(effects, bassAttack, midAttack, trebleAttack)[b])
  }

  /**
   * A moon follows one band only: inputs that agree on the level and the attack of the band
   * of its row give it the same phase and flash, whatever the other two bands do; and the
   * three moons of a row show the same flash.
   */
  lemma RowsFollowTheirBand(i: nat, j: nat, effects: seq<real>,
                            bass: real, mid: real, treble: real,
                            bassAttack: real, midAttack: real, trebleAttack: real,
                            bass': real, mid': real, treble': real,
                            bassAttack': real, midAttack': real, trebleAttack': real, sin: real -> real)
    requires i < NumMoons && j < NumMoons && |effects| == 3
    ensures var b := RowBand(Row(i));
      BandLevel(b, bass, mid, treble) == BandLevel(b, bass', mid', treble')
      && BandLevel(b, bassAttack, midAttack, trebleAttack) == BandLevel(b, bassAttack', midAttack', trebleAttack')
      ==> MoonAfter(i, effects, bass, mid, treble, bassAttack, midAttack, trebleAttack, sin)
          == MoonAfter(i, effects, bass', mid', treble', bassAttack', midAttack', trebleAttack', sin)
    ensures Row(i) == Row(j) ==>
      MoonAfter(i, effects, bass, mid, treble, bassAttack, midAttack, trebleAttack, sin).1
      == MoonAfter(j, effects, bass, mid, treble, bassAttack, midAttack, trebleAttack, sin).1
  {
    var b := RowBand(Row(i));
    assert TriggeredEffects(effects, bassAttack, midAttack, trebleAttack)[b]
      == Triggered(effects[b], BandLevel(b, bassAttack, midAttack, trebleAttack), AttackThreshold, FlashPeak);
    assert TriggeredEffects(effects, bassAttack', midAttack', trebleAttack')[b]
      == Triggered(effects[b], BandLevel(b, bassAttack', midAttack', trebleAttack'), AttackThreshold, FlashPeak);
  }

  class LunarPhasesScene {
    const moonX: array<real>
    const moonY: array<real>
    /** u_phase of moon i. */
    const phase: array<real>
    /** u_flash of moon i. */
    const flash: array<real>
    /** The envelopes of the bass, mid and treble attacks. */
    const attackEffects: array<real>
    var visible: bool

    ghost predicate Valid()
      reads this, attackEffects
    {
      && moonX.Length == NumMoons && moonY.Length == NumMoons
      && phase.Length == NumMoons && flash.Length == NumMoons && attackEffects.Length == 3
      && phase != flash && attackEffects != phase && attackEffects != flash
      && forall b :: 0 <= b < 3 ==> 0.0 <= attackEffects[b] <= FlashPeak
    }

    /** One row of the grid loop of `init`. */
    static method PlaceRow(xs: array<real>, ys: array<real>, y: nat)
      requires xs.Length == NumMoons && ys.Length == NumMoons && xs != ys && y < GridSize
      modifies xs, ys
      ensures forall i :: 0 <= i < NumMoons ==>
                if Row(i) == y then xs[i] == MoonX(i) && ys[i] == MoonY(i)
                else xs[i] == old(xs[i]) && ys[i] == old(ys[i])
    {
      var x := 0;
      while x < GridSize
        invariant 0 <= x <= GridSize
        invariant forall i :: 0 <= i < NumMoons ==>
                    if Row(i) == y && Col(i) < x then xs[i] == MoonX(i) && ys[i] == MoonY(i)
                    else xs[i] == old(xs[i]) && ys[i] == old(ys[i])
      {
        var i := y * GridSize + x;
        assert Row(i) == y && Col(i) == x;
        xs[i] := StartX + x as real * Pitch;
        ys[i] := StartY - y as real * Pitch;
        x := x + 1;
      }
    }

    /** constructor and init: the moons on the grid, all phases and flashes 0, the envelopes 0. */
    constructor ()
      ensures Valid() && visible
      ensures forall i :: 0 <= i < NumMoons ==>
                moonX[i] == MoonX(i) && moonY[i] == MoonY(i) && phase[i] == 0.0 && flash[i] == 0.0
      ensures attackEffects[..] == [0.0, 0.0, 0.0]
    {
      var xs := new real[NumMoons];
      var ys := new real[NumMoons];
      var y := 0;
      while y < GridSize
        invariant 0 <= y <= GridSize
        invariant forall i :: 0 <= i < NumMoons && Row(i) < y ==> xs[i] == MoonX(i) && ys[i] == MoonY(i)
      {
        PlaceRow(xs, ys, y);
        y := y + 1;
      }
      moonX, moonY := xs, ys;
      phase := new real[NumMoons](i => 0.0);
      flash := new real[NumMoons](i => 0.0);
      attackEffects := new real[3](b => 0.0);
      visible := true;
      new;
      assert attackEffects[..] == [0.0, 0.0, 0.0];
    }

    /** The moon loop of `update`: phase by the row's band and column, flash by the row's envelope. */
    method SetMoons(bass: real, mid: real, treble: real, sin: real -> real)
      requires Valid()
      modifies phase, flash
      ensures Valid()
      ensures forall i :: 0 <= i < NumMoons ==>
                && phase[i] == Phase(BandLevel(RowBand(Row(i)), bass, mid, treble), Col(i), sin)
                && flash[i] == attackEffects[RowBand(Row(i))]
    {
      var i := 0;
      while i < NumMoons
        invariant 0 <= i <= NumMoons
        invariant forall k :: 0 <= k < i ==>
                    && phase[k] == Phase(BandLevel(RowBand(Row(k)), bass, mid, treble), Col(k), sin)
                    && flash[k] == attackEffects[RowBand(Row(k))]
      {
        SetMoon(i, bass, mid, treble, sin);
        i := i + 1;
      }
    }

    /** One pass of the moon loop: moon i takes its row's phase and flash; the others keep theirs. */
    method SetMoon(i: nat, bass: real, mid: real, treble: real, sin: real -> real)
      requires Valid() && i < NumMoons
      modifies phase, flash
      ensures Valid()
      ensures phase[i] == Phase(BandLevel(RowBand(Row(i)), bass, mid, treble), Col(i), sin)
      ensures flash[i] == attackEffects[RowBand(Row(i))]
      ensures forall k :: 0 <= k < NumMoons && k != i ==> phase[k] == old(phase[k]) && flash[k] == old(flash[k])
    {
      var row := i / 3;
      var col := i % 3;
      var p := 0.0;
      var phaseOffset := (col as real / 3.0) * Pi * 2.0;
      if row == 0 {
        p := (sin(Map(treble, 0.0, 1.0, 0.0, Pi * 2.0) + phaseOffset) + 1.0) / 2.0;
        flash[i] := attackEffects[2];
      } else if row == 1 {
        p := (sin(Map(mid, 0.0, 1.0, 0.0, Pi * 2.0) + phaseOffset) + 1.0) / 2.0;
        flash[i] := attackEffects[1];
      } else if row == 2 {
        p := (sin(Map(bass, 0.0, 1.0, 0.0, Pi * 2.0) + phaseOffset) + 1.0) / 2.0;
        flash[i] := attackEffects[0];
      }
      phase[i] := p;
    }

    /**
     * update: trigger the envelopes of the attacks above 0.1, set every moon from its row's
     * band, then decay the three envelopes by 0.9.
     */
    method Update(bass: real, mid: real, treble: real, bassAttack: real, midAttack: real, trebleAttack: real,
                  sin: real -> real)
      requires Valid()
      modifies this, phase, flash, attackEffects
      ensures Valid() && visible == old(visible)
      ensures var lit := TriggeredEffects(old(attackEffects[..]), bassAttack, midAttack, trebleAttack);
        && (forall i :: 0 <= i < NumMoons ==>
              && phase[i] == Phase(BandLevel(RowBand(Row(i)), bass, mid, treble), Col(i), sin)
              && flash[i] == lit[RowBand(Row(i))])
        && attackEffects[..] == [Decayed(lit[0], FlashDecay), Decayed(lit[1], FlashDecay), Decayed(lit[2], FlashDecay)]
      ensures forall i :: 0 <= i < NumMoons ==>
        (phase[i], flash[i]) == MoonAfter(i, old(attackEffects[..]), bass, mid, treble, bassAttack, midAttack, trebleAttack, sin)
    {
      TriggerEffects(bassAttack, midAttack, trebleAttack);
      SetMoons(bass, mid, treble, sin);
      DecayEffects();
    }

    /** The first lines of update: an attack above 0.1 sets its band's envelope to 0.8. */
    method TriggerEffects(bassAttack: real, midAttack: real, trebleAttack: real)
      requires Valid()
      modifies attackEffects
      ensures Valid()
      ensures attackEffects[..] == TriggeredEffects(old(attackEffects[..]), bassAttack, midAttack, trebleAttack)
    {
      ghost var lit := TriggeredEffects(attackEffects[..], bassAttack, midAttack, trebleAttack);
      if bassAttack > AttackThreshold { attackEffects[0] := FlashPeak; }
      if midAttack > AttackThreshold { attackEffects[1] := FlashPeak; }
      if trebleAttack > AttackThreshold { attackEffects[2] := FlashPeak; }
      assert attackEffects[..] == lit;
    }

    /** The last lines of update: each envelope decays by 0.9. */
    method DecayEffects()
      requires Valid()
      modifies attackEffects
      ensures Valid()
      ensures attackEffects[..] == [Decayed(old(attackEffects[0]), FlashDecay), Decayed(old(attackEffects[1]), FlashDecay),
                                    Decayed(old(attackEffects[2]), FlashDecay)]
    {
      EnvelopeBounds(attackEffects[0], 0.0, AttackThreshold, FlashPeak, FlashDecay);
      EnvelopeBounds(attackEffects[1], 0.0, AttackThreshold, FlashPeak, FlashDecay);
      EnvelopeBounds(attackEffects[2], 0.0, AttackThreshold, FlashPeak, FlashDecay);
      attackEffects[0] := attackEffects[0] * FlashDecay;
      attackEffects[1] := attackEffects[1] * FlashDecay;
      attackEffects[2] := attackEffects[2] * FlashDecay;
    }

    method Show()
      modifies this`visible
      ensures visible
      ensures old(Valid()) ==> Valid()
    {
      visible := true;
    }

    method Hide()
      modifies this`visible
      ensures !visible
      ensures old(Valid()) ==> Valid()
    {
      visible := false;
    }
  }
}
