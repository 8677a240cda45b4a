/**
 * scenes/Pulsing3DGrid.js: an 11 x 11 x 11 lattice of points that swells with the bass, turns
 * with the mids and, above half treble, flickers: each frame some points take a random colour
 * and all the others go back to their base colour.
 *
 * The lattice is built by `init` the way the source builds it, by pushing onto plain lists
 * that then become the geometry's fixed-size buffers. Each Math.random() draw is the parameter
 * `rand`: rand(p, 0) is the chance drawn for point p in a frame, rand(p, 1) to rand(p, 3) its
 * random colour. The circle texture is left out.
 */
module Pulsing3DGrid {
  import opened Utils

  const GridSize: real := 10.0
  const GridDivisions: nat := 10
  /** Points along each edge: GridDivisions + 1. */
  const Side: nat := 11
  const NumPoints: nat := 1331
  const BufferLength: nat := 3993
  const Step: real := GridSize / GridDivisions as real
  const HalfSize: real := GridSize / 2.0

  datatype Color = Color(r: real, g: real, b: real)
  datatype Point3 = Point3(x: real, y: real, z: real)

  /** The list position of the point pushed for loop counters x, y, z. */
  function Index(x: nat, y: nat, z: nat): nat {
    (x * Side + y) * Side + z
  }

  /** The loop counters of the point at list position p. */
  function GridX(p: nat): nat { p / (Side * Side) }
  function GridY(p: nat): nat { (p / Side) % Side }
  function GridZ(p: nat): nat { p % Side }

  /** The position of point p: each counter k becomes k * step - halfSize. */
  function GridPoint(p: nat): Point3 {
    Point3(GridX(p) as real * Step - HalfSize, GridY(p) as real * Step - HalfSize, GridZ(p) as real * Step - HalfSize)
  }

  /**
   * The triple loop numbers the points 0 to 1330 without gaps or repeats: counters (x, y, z)
   * give list position 121 x + 11 y + z, from which the counters are read back.
   */
  lemma IndexRoundTrip(x: nat, y: nat, z: nat)
    requires x < Side && y < Side && z < Side
    ensures Index(x, y, z) < NumPoints
    ensures GridX(Index(x, y, z)) == x && GridY(Index(x, y, z)) == y && GridZ(Index(x, y, z)) == z
  {
    var p := Index(x, y, z);
    assert p == 121 * x + (11 * y + z) && 11 * y + z < 121;
    assert p / 121 == x;
    assert p / 11 == 11 * x + y;
    assert (11 * x + y) % 11 == y;
  }

  /** The point pushed for counters x, y, z is at (x, y, z) * step - halfSize. */
  lemma GridPointAt(x: nat, y: nat, z: nat)
    requires x < Side && y < Side && z < Side
    ensures GridPoint(Index(x, y, z)) == Point3(x as real * Step - HalfSize, y as real * Step - HalfSize, z as real * Step - HalfSize)
  {
    IndexRoundTrip(x, y, z);
  }

  /** The lattice is centred: every coordinate is a whole number in [-5, 5], and the ends are reached. */
  lemma GridCentred(p: nat)
    requires p < NumPoints
    ensures -5.0 <= GridPoint(p).x <= 5.0 && -5.0 <= GridPoint(p).y <= 5.0 && -5.0 <= GridPoint(p).z <= 5.0
    ensures GridPoint(0) == Point3(-5.0, -5.0, -5.0) && GridPoint(NumPoints - 1) == Point3(5.0, 5.0, 5.0)
  {
    assert GridX(p) <= 10 && GridY(p) <= 10 && GridZ(p) <= 10;
    assert GridX(NumPoints - 1) == 10 && GridY(NumPoints - 1) == 10 && GridZ(NumPoints - 1) == 10;
  }

  /** map(treble, 0.5, 1, 0, 1): how strongly the treble makes the points flicker. */
  function TrebleEffect(treble: real): real {
    Map(treble, 0.5, 1.0, 0.0, 1.0)
  }

  /**
   * The colours are touched only above half treble, and then at most one point in ten, on
   * average, is picked while the treble stays within 1.
   */
  lemma FlickersAboveHalfTreble(treble: real)
    ensures TrebleEffect(treble) > 0.0 <==> treble > 0.5
    ensures treble <= 1.0 ==> TrebleEffect(treble) * 0.1 <= 0.1
  {
  }

  /** A point's colour in a flickering frame: a random colour if picked, its base colour otherwise. */
  function Flicker(base: Color, effect: real, chance: real, r: real, g: real, b: real): Color {
    if chance < effect * 0.1 then Color(r, g, b) else base
  }

  /** A colour that Math.random() could have drawn. */
  predicate RandomColor(c: Color) {
    0.0 <= c.r < 1.0 && 0.0 <= c.g < 1.0 && 0.0 <= c.b < 1.0
  }

  /** A flickering point shows its base colour or a random one, never anything else. */
  lemma FlickerBaseOrRandom(base: Color, effect: real, chance: real, r: real, g: real, b: real)
    requires 0.0 <= r < 1.0 && 0.0 <= g < 1.0 && 0.0 <= b < 1.0
    ensures var c := Flicker(base, effect, chance, r, g, b);
      c == base || RandomColor(c)
    ensures effect <= 0.0 && chance >= 0.0 ==> Flicker(base, effect, chance, r, g, b) == base
  {
  }

  /** With a bass in [0, 1] the points grow to between 1 and 2.5 times, and their size stays in [0.05, 0.15]. */
  lemma PulseBounds(bass: real)
    requires 0.0 <= bass <= 1.0
    ensures 1.0 <= 1.0 + Map(bass, 0.0, 1.0, 0.0, 1.5) <= 2.5
    ensures 0.05 <= Map(bass, 0.0, 1.0, 0.05, 0.15) <= 0.15
  {
    MapWithinRange(bass, 0.0, 1.0, 0.0, 1.5);
    MapWithinRange(bass, 0.0, 1.0, 0.05, 0.15);
  }

  /** The entries pushed for point p: its position, then its colour. */
  ghost predicate PointPushed(ps: seq<real>, cs: seq<real>, bs: seq<Color>, p: nat, base: Color)
    requires 3 * p + 2 < |ps| && 3 * p + 2 < |cs| && p < |bs|
  {
    && Point3(ps[3 * p], ps[3 * p + 1], ps[3 * p + 2]) == GridPoint(p)
    && Color(cs[3 * p], cs[3 * p + 1], cs[3 * p + 2]) == base && bs[p] == base
  }

  /** The three pushes of one pass of the innermost loop of `init`, for counters x, y, z. */
  method PushPoint(ps: seq<real>, cs: seq<real>, bs: seq<Color>, base: Color, x: nat, y: nat, z: nat)
    returns (ps': seq<real>, cs': seq<real>, bs': seq<Color>)
    requires x < Side && y < Side && z < Side
    requires |bs| == Index(x, y, z) && |ps| == 3 * |bs| && |cs| == 3 * |bs|
    requires forall p :: 0 <= p < |bs| ==> PointPushed(ps, cs, bs, p, base)
    ensures |bs'| == |bs| + 1 && |ps'| == 3 * |bs'| && |cs'| == 3 * |bs'|
    ensures forall p :: 0 <= p < |bs'| ==> PointPushed(ps', cs', bs', p, base)
  {
    ps' := ps + [x as real * Step - HalfSize, y as real * Step - HalfSize, z as real * Step - HalfSize];
    cs' := cs + [base.r, base.g, base.b];
    bs' := bs + [base];
    forall p | 0 <= p < |bs|
      ensures PointPushed(ps', cs', bs', p, base)
    {
      assert PointPushed(ps, cs, bs, p, base);
      assert ps'[3 * p] == ps[3 * p] && ps'[3 * p + 1] == ps[3 * p + 1] && ps'[3 * p + 2] == ps[3 * p + 2];
      assert cs'[3 * p] == cs[3 * p] && cs'[3 * p + 1] == cs[3 * p + 1] && cs'[3 * p + 2] == cs[3 * p + 2];
    }
    GridPointAt(x, y, z);
    assert PointPushed(ps', cs', bs', |bs|, base);
  }

  /** The innermost loop of `init`: the eleven points of column (x, y), pushed in order of z. */
  method PushColumn(ps: seq<real>, cs: seq<real>, bs: seq<Color>, base: Color, x: nat, y: nat)
    returns (ps': seq<real>, cs': seq<real>, bs': seq<Color>)
    requires x < Side && y < Side
    requires |bs| == Index(x, y, 0) && |ps| == 3 * |bs| && |cs| == 3 * |bs|
    requires forall p :: 0 <= p < |bs| ==> PointPushed(ps, cs, bs, p, base)
    ensures |bs'| == |bs| + Side && |ps'| == 3 * |bs'| && |cs'| == 3 * |bs'|
    ensures forall p :: 0 <= p < |bs'| ==> PointPushed(ps', cs', bs', p, base)
  {
    ps', cs', bs' := ps, cs, bs;
    var z := 0;
    while z <= GridDivisions
      invariant 0 <= z <= Side
      invariant |bs'| == |bs| + z && |ps'| == 3 * |bs'| && |cs'| == 3 * |bs'|
      invariant forall p :: 0 <= p < |bs'| ==> PointPushed(ps', cs', bs', p, base)
    {
      ps', cs', bs' := PushPoint(ps', cs', bs', base, x, y, z);
      z := z + 1;
    }
  }

  /** The middle loop of `init`: the 121 points of slab x, column by column. */
  method PushSlab(ps: seq<real>, cs: seq<real>, bs: seq<Color>, base: Color, x: nat)
    returns (ps': seq<real>, cs': seq<real>, bs': seq<Color>)
    requires x < Side
    requires |bs| == Index(x, 0, 0) && |ps| == 3 * |bs| && |cs| == 3 * |bs|
    requires forall p :: 0 <= p < |bs| ==> PointPushed(ps, cs, bs, p, base)
    ensures |bs'| == |bs| + Side * Side && |ps'| == 3 * |bs'| && |cs'| == 3 * |bs'|
    ensures forall p :: 0 <= p < |bs'| ==> PointPushed(ps', cs', bs', p, base)
  {
    ps', cs', bs' := ps, cs, bs;
    var y := 0;
    while y <= GridDivisions
      invariant 0 <= y <= Side
      invariant |bs'| == |bs| + Side * y && |ps'| == 3 * |bs'| && |cs'| == 3 * |bs'|
      invariant forall p :: 0 <= p < |bs'| ==> PointPushed(ps', cs', bs', p, base)
    {
      ps', cs', bs' := PushColumn(ps', cs', bs', base, x, y);
      y := y + 1;
    }
  }

  /** The triple loop of `init`: every point's position, colour and base colour, in push order. */
  method BuildGrid(base: Color) returns (ps: seq<real>, cs: seq<real>, bs: seq<Color>)
    ensures |bs| == NumPoints && |ps| == BufferLength && |cs| == BufferLength
    ensures forall p :: 0 <= p < NumPoints ==> PointPushed(ps, cs, bs, p, base)
  {
    ps, cs, bs := [], [], [];
    var x := 0;
    while x <= GridDivisions
      invariant 0 <= x <= Side
      invariant |bs| == Side * Side * x && |ps| == 3 * |bs| && |cs| == 3 * |bs|
      invariant forall p :: 0 <= p < |bs| ==> PointPushed(ps, cs, bs, p, base)
    {
      ps, cs, bs := PushSlab(ps, cs, bs, base, x);
      x := x + 1;
    }
  }

  class Pulsing3DGridScene {
    /** The geometry's position and colour buffers, three entries per point. */
    const positions: array<real>
    const colors: array<real>
    /** baseColors: the colour each point returns to. */
    const baseColors: array<Color>
    var scale: real
    var size: real
    var opacity: real
    var rotationX: real
    var rotationY: real
    var visible: bool

    ghost function ColorAt(p: nat): Color
      requires p < NumPoints && colors.Length == BufferLength
      reads this, colors
    {
      Color(colors[3 * p], colors[3 * p + 1], colors[3 * p + 2])
    }

    ghost function PositionAt(p: nat): Point3
      requires p < NumPoints && positions.Length == BufferLength
      reads this, positions
    {
      Point3(positions[3 * p], positions[3 * p + 1], positions[3 * p + 2])
    }

    /**
     * The lattice never moves, and every point shows either its base colour or a colour the
     * flicker drew at random.
     */
    ghost predicate Valid()
      reads this, positions, colors, baseColors
    {
      && positions.Length == BufferLength && colors.Length == BufferLength && baseColors.Length == NumPoints
      && positions != colors
      && (forall p :: 0 <= p < NumPoints ==> PositionAt(p) == GridPoint(p))
      && forall p :: 0 <= p < NumPoints ==> ColorAt(p) == baseColors[p] || RandomColor(ColorAt(p))
    }

    /** constructor and init: the lattice, every point in the foreground colour. */
    constructor (base: Color)
      ensures Valid() && visible
      ensures forall p :: 0 <= p < NumPoints ==> ColorAt(p) == base && baseColors[p] == base
      ensures scale == 1.0 && size == 0.05 && opacity == 1.0 && rotationX == 0.0 && rotationY == 0.0
    {
      var ps, cs, bs := BuildGrid(base);
      positions := new real[BufferLength](q requires 0 <= q < BufferLength => ps[q]);
      colors := new real[BufferLength](q requires 0 <= q < BufferLength => cs[q]);
      baseColors := new Color[NumPoints](p requires 0 <= p < NumPoints => bs[p]);
      scale, size, opacity := 1.0, 0.05, 1.0;
      rotationX, rotationY := 0.0, 0.0;
      visible := true;
      new;
      forall p | 0 <= p < NumPoints
        ensures PositionAt(p) == GridPoint(p) && ColorAt(p) == base && baseColors[p] == base
      {
        assert PointPushed(ps, cs, bs, p, base);
      }
    }

    /** One point of the colour loop in `update`. */
    method FlickerPoint(p: nat, effect: real, chance: real, r: real, g: real, b: real)
      requires Valid() && p < NumPoints && 0.0 <= r < 1.0 && 0.0 <= g < 1.0 && 0.0 <= b < 1.0
      modifies colors
      ensures Valid()
      ensures ColorAt(p) == Flicker(baseColors[p], effect, chance, r, g, b)
      ensures forall q :: 0 <= q < NumPoints && q != p ==> ColorAt(q) == old(ColorAt(q))
    {
      if chance < effect * 0.1 {
        SetColor(p, Color(r, g, b));
      } else {
        SetColor(p, baseColors[p]);
      }
    }

    /** The three colour entries of point p become c; the rest of the buffer is untouched. */
    method SetColor(p: nat, c: Color)
      requires p < NumPoints && colors.Length == BufferLength
      modifies colors
      ensures ColorAt(p) == c
      ensures forall q :: 0 <= q < NumPoints && q != p ==> ColorAt(q) == old(ColorAt(q))
    {
      colors[3 * p] := c.r;
      colors[3 * p + 1] := c.g;
      colors[3 * p + 2] := c.b;
    }

    /** The colour loop of `update`: every point flickers or returns to its base colour. */
    method FlickerAll(effect: real, rand: (nat, nat) -> real)
      requires Valid() && forall p, d :: 0.0 <= rand(p, d) < 1.0
      modifies colors
      ensures Valid()
      ensures forall p :: 0 <= p < NumPoints ==>
                ColorAt(p) == Flicker(baseColors[p], effect, rand(p, 0), rand(p, 1), rand(p, 2), rand(p, 3))
    {
      var p := 0;
      while p < NumPoints
        invariant 0 <= p <= NumPoints
        invariant Valid()
        invariant forall q :: 0 <= q < p ==>
                    ColorAt(q) == Flicker(baseColors[q], effect, rand(q, 0), rand(q, 1), rand(q, 2), rand(q, 3))
      {
        FlickerPoint(p, effect, rand(p, 0), rand(p, 1), rand(p, 2), rand(p, 3));
        p := p + 1;
      }
    }

    /**
     * update: scale 1 + map(bass, 0, 1, 0, 1.5) and size map(bass, 0, 1, 0.05, 0.15), turn by
     * the mids, opacity map(treble, 0, 1, 0.6, 1); above half treble every colour is redrawn.
     */
    method Update(bass: real, mid: real, treble: real, rand: (nat, nat) -> real)
      requires Valid() && forall p, d :: 0.0 <= rand(p, d) < 1.0
      modifies this, colors
      ensures Valid() && visible == old(visible)
      ensures scale == 1.0 + Map(bass, 0.0, 1.0, 0.0, 1.5) && size == Map(bass, 0.0, 1.0, 0.05, 0.15)
      ensures rotationY == old(rotationY) + Map(mid, 0.0, 1.0, 0.0, 0.01)
      ensures rotationX == old(rotationX) + Map(mid, 0.0, 1.0, 0.0, 0.005)
      ensures opacity == Map(treble, 0.0, 1.0, 0.6, 1.0)
      ensures forall p :: 0 <= p < NumPoints ==>
                ColorAt(p) == if TrebleEffect(treble) > 0.0
                              then Flicker(baseColors[p], TrebleEffect(treble), rand(p, 0), rand(p, 1), rand(p, 2), rand(p, 3))
                              else old(ColorAt(p))
    {
      scale := 1.0 + Map(bass, 0.0, 1.0, 0.0, 1.5);
      size := Map(bass, 0.0, 1.0, 0.05, 0.15);
      rotationY := rotationY + Map(mid, 0.0, 1.0, 0.0, 0.01);
      rotationX := rotationX + Map(mid, 0.0, 1.0, 0.0, 0.005);
      opacity := Map(treble, 0.0, 1.0, 0.6, 1.0);
      var trebleEffect := Map(treble, 0.5, 1.0, 0.0, 1.0);
      if trebleEffect > 0.0 {
        FlickerAll(trebleEffect, rand);
      }
    }

    /** One point of the loop in `updateForegroundColor`. */
    method RecolorPoint(p: nat, c: Color)
      requires Valid() && p < NumPoints
      modifies colors, baseColors
      ensures Valid()
      ensures ColorAt(p) == c && baseColors[p] == c
      ensures forall q :: 0 <= q < NumPoints && q != p ==> ColorAt(q) == old(ColorAt(q)) && baseColors[q] == old(baseColors[q])
    {
      baseColors[p] := c;
      SetColor(p, c);
    }

    /** updateForegroundColor: every point, and every base colour, becomes the new colour. */
    method UpdateForegroundColor(c: Color)
      requires Valid()
      modifies colors, baseColors
      ensures Valid()
      ensures forall p :: 0 <= p < NumPoints ==> ColorAt(p) == c && baseColors[p] == c
    {
      var p := 0;
      while p < NumPoints
        invariant 0 <= p <= NumPoints
        invariant Valid()
        invariant forall q :: 0 <= q < p ==> ColorAt(q) == c && baseColors[q] == c
      {
        RecolorPoint(p, c);
        p := p + 1;
      }
    }

    method Show()
      modifies this`visible
      ensures visible
      ensures old(Valid()) ==> Valid()
    {
      visible := true;
    }

    method Hide()
      modifies this`visible
      ensures !visible
      ensures old(Valid()) ==> Valid()
    {
      visible := false;
    }
  }
}
