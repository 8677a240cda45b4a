/**
 * scenes/TriTile.js: a 44 x 24 plane of alternating up and down triangles. Each tile keeps a
 * life that a treble flash sets to 1 and that fades by 0.05 a frame; every frame each tile's
 * three vertices get one colour, the background blended towards the foreground by the tile's
 * brightness.
 *
 * The colour of a vertex is `lerp(background, foreground, t)`; the model keeps t per vertex in
 * `blend`. Math.sqrt(3) is its double value, Math.sin and Math.cos are parameters, and the
 * k-th Math.random() of the flash loop is `rand(k)`, in [0, 1).
 */
module TriTile {
  import opened Utils

  const TileSize: real := 2.5
  const GridWidth: nat := 44
  const GridHeight: nat := 24
  const NumTiles: nat := 1056
  /** Three vertices of three coordinates per tile. */
  const PositionBufferLength: nat := 9504
  const ColorVertices: nat := 3168
  const Sqrt3: real := 1.7320508075688772
  const TrebleThreshold: real := 0.12
  const TrebleMultiplier: real := 50.0
  const LifeStep: real := 0.05

  function TriangleHeight(): real { (Sqrt3 / 2.0) * TileSize }

  /** Lower-left corner of the cell of tile (x, y); the grid is centred on the origin. */
  function CornerX(x: nat): real {
    x as real * TileSize * 0.5 + -(GridWidth as real * TileSize * 0.5) / 2.0
  }

  function CornerY(y: nat): real {
    y as real * TriangleHeight() + -(GridHeight as real * TriangleHeight()) / 2.0
  }

  /** Tile (x, y) points up exactly when x + y is even. */
  predicate PointsUp(x: nat, y: nat) {
    (x + y) % 2 == 0
  }

  /** Coordinate c (0..8) of tile (x, y): three vertices (x, y, z), z always 0. */
  function TileCoord(x: nat, y: nat, c: nat): real
    requires c < 9
  {
    var px := CornerX(x);
    var py := CornerY(y);
    var h := TriangleHeight();
    if PointsUp(x, y) then
      [px, py, 0.0, px + TileSize, py, 0.0, px + TileSize / 2.0, py + h, 0.0][c]
    else
      [px + TileSize / 2.0, py, 0.0, px, py + h, 0.0, px + TileSize, py + h, 0.0][c]
  }

  /**
   * The orientation rule: an upward tile has its base (two vertices) at the bottom of its row
   * and its apex at the top; a downward tile the other way round. Neighbours in a row or a
   * column always point opposite ways.
   */
  lemma Orientation(x: nat, y: nat)
    ensures PointsUp(x, y) ==>
      TileCoord(x, y, 1) == TileCoord(x, y, 4) == CornerY(y) && TileCoord(x, y, 7) == CornerY(y) + TriangleHeight()
    ensures !PointsUp(x, y) ==>
      TileCoord(x, y, 4) == TileCoord(x, y, 7) == CornerY(y) + TriangleHeight() && TileCoord(x, y, 1) == CornerY(y)
    ensures PointsUp(x, y) != PointsUp(x + 1, y) && PointsUp(x, y) != PointsUp(x, y + 1)
  {
  }

  /**
   * Neighbours in a row share an edge: the right edge of tile (x, y) is the left edge of tile
   * (x + 1, y), so the triangles tile the plane without gaps.
   */
  lemma SharedEdge(x: nat, y: nat)
    ensures PointsUp(x, y) ==>
      && TileCoord(x, y, 3) == TileCoord(x + 1, y, 0) && TileCoord(x, y, 4) == TileCoord(x + 1, y, 1)
      && TileCoord(x, y, 6) == TileCoord(x + 1, y, 3) && TileCoord(x, y, 7) == TileCoord(x + 1, y, 4)
    ensures !PointsUp(x, y) ==>
      && TileCoord(x, y, 0) == TileCoord(x + 1, y, 0) && TileCoord(x, y, 1) == TileCoord(x + 1, y, 1)
      && TileCoord(x, y, 6) == TileCoord(x + 1, y, 6) && TileCoord(x, y, 7) == TileCoord(x + 1, y, 7)
  {
    assert PointsUp(x, y) != PointsUp(x + 1, y);
  }

  /** The tile a random draw picks: Math.floor(Math.random() * 1056). */
  function Pick(r: real): (i: int)
    requires 0.0 <= r < 1.0
    ensures 0 <= i < NumTiles
  {
    (r * NumTiles as real).Floor
  }

  /** How many tiles a treble value flashes: none up to 0.12, then floor(map(treble, 0.12, 1, 1, 50)). */
  function FlashCount(treble: real): int {
    if treble > TrebleThreshold then Map(treble, TrebleThreshold, 1.0, 1.0, TrebleMultiplier).Floor else 0
  }

  /** A treble in (0.12, 1] flashes between 1 and 50 tiles. */
  lemma FlashCountBounds(treble: real)
    requires TrebleThreshold < treble <= 1.0
    ensures 1 <= FlashCount(treble) <= 50
  {
    MapWithinRange(treble, TrebleThreshold, 1.0, 1.0, TrebleMultiplier);
  }

  /** Whether one of the first n draws picks tile j. */
  ghost predicate Hit(j: int, n: int, rand: nat -> real)
    requires forall k :: 0.0 <= rand(k) < 1.0
  {
    exists k: nat :: k < n && Pick(rand(k)) == j
  }

  /** The fade of one frame: a live tile loses 0.05, any other is clamped to 0. */
  function Faded(life: real): real {
    if life > 0.0 then life - LifeStep else 0.0
  }

  /** A life in (-0.05, 1] stays there, never grows, and is 0 after a frame that starts at or below 0. */
  lemma FadeBounds(life: real)
    requires -LifeStep < life <= 1.0
    ensures -LifeStep < Faded(life) <= 1.0 && Faded(life) <= Max(life, 0.0)
    ensures life <= 0.0 ==> Faded(life) == 0.0
  {
  }

  /** The life n frames after being set to 1 with no new flash. */
  function FadedN(n: nat): real {
    if n == 0 then 1.0 else Faded(FadedN(n - 1))
  }

  /** A flashed tile loses 0.05 a frame and is dark, at exactly 0, from the 20th frame on. */
  lemma {:induction false} FadesOut(n: nat)
    ensures n <= 20 ==> FadedN(n) == 1.0 - LifeStep * n as real
    ensures n >= 20 ==> FadedN(n) == 0.0
  {
    if n > 0 {
      FadesOut(n - 1);
    }
  }

  /** The idle shimmer of a tile: (sin(0.5 time + idle) + 1) / 2 * 0.05. */
  function IdleBrightness(time: real, idle: real, sin: real -> real): real {
    (sin(time * 0.5 + idle) + 1.0) / 2.0 * 0.05
  }

  /** The bass pulse every tile gets: map(bass, 0.6, 1, 0, 0.4). */
  function BassPulse(bass: real): real {
    Map(bass, 0.6, 1.0, 0.0, 0.4)
  }

  /** The shimmer of an idle tile stays within [0, 0.05]. */
  lemma IdleBounds(time: real, idle: real, sin: real -> real)
    requires forall a :: -1.0 <= sin(a) <= 1.0
    ensures 0.0 <= IdleBrightness(time, idle, sin) <= 0.05
  {
    var a := time * 0.5 + idle;
    assert -1.0 <= sin(a) <= 1.0;
  }

  /**
   * A tile flashed this frame outshines every dark tile at the same bass, whatever the two
   * tiles' shimmer phases: the shimmer is too faint to close the gap.
   */
  lemma FlashOutshinesShimmer(time: real, idleLit: real, idleDark: real, bass: real, sin: real -> real)
    requires forall a :: -1.0 <= sin(a) <= 1.0
    ensures var lit := Faded(1.0) + IdleBrightness(time, idleLit, sin) + BassPulse(bass);
      var dark := Faded(0.0) + IdleBrightness(time, idleDark, sin) + BassPulse(bass);
      0.9 <= lit - dark <= 1.0
  {
    IdleBounds(time, idleLit, sin);
    IdleBounds(time, idleDark, sin);
  }

  /**
   * The blend factor of a tile whose life lies in its invariant range, for a bass level in
   * [0, 1], lies in (-0.65, 1.4]; it is negative only below the 0.6 bass floor, where the
   * pulse maps below zero, and a dark tile above that floor stays within [0, 0.45].
   */
  lemma BlendBounds(life: real, time: real, idle: real, bass: real, sin: real -> real)
    requires -LifeStep < life <= 1.0 && 0.0 <= bass <= 1.0
    requires forall a :: -1.0 <= sin(a) <= 1.0
    ensures var b := Faded(life) + IdleBrightness(time, idle, sin) + BassPulse(bass);
      && -0.65 < b <= 1.4
      && (0.6 <= bass && life <= 0.0 ==> 0.0 <= b <= 0.45)
      && (bass < 0.6 && life <= 0.0 && IdleBrightness(time, idle, sin) < 0.6 - bass ==> b < 0.0)
  {
    IdleBounds(time, idle, sin);
    FadeBounds(life);
  }

  /** Tile 44 y + x is in column x and row y. */
  lemma TileIndex(x: nat, y: nat)
    requires x < GridWidth
    ensures (GridWidth * y + x) % GridWidth == x && (GridWidth * y + x) / GridWidth == y
  {
  }

  class TriTileScene {
    const positions: array<real>
    /** The life of each tile; tile (x, y) is tile 44 y + x. */
    const life: array<real>
    /** The random phase of each tile's shimmer, fixed at `init`. */
    const idle: array<real>
    /** The blend factor of each colour vertex; vertices 3 i, 3 i + 1 and 3 i + 2 belong to tile i. */
    const blend: array<real>
    var groupX: real
    var groupY: real
    var visible: bool

    ghost predicate Valid()
      reads this, life
    {
      && positions.Length == PositionBufferLength && life.Length == NumTiles
      && idle.Length == NumTiles && blend.Length == ColorVertices
      && life != idle && blend != positions
      && forall i :: 0 <= i < NumTiles ==> -LifeStep < life[i] <= 1.0
    }

    /** The nine coordinates of tile (x, y), from entry 9 (44 y + x) on. */
    static method PlaceTile(ps: array<real>, x: nat, y: nat)
      requires ps.Length == PositionBufferLength && x < GridWidth && y < GridHeight
      modifies ps
      ensures forall k :: 0 <= k < PositionBufferLength ==>
                ps[k] == if k / 9 == GridWidth * y + x
                         then TileCoord((k / 9) % GridWidth, (k / 9) / GridWidth, k % 9) else old(ps[k])
    {
      TileIndex(x, y);
      var px := x as real * TileSize * 0.5 + -(GridWidth as real * TileSize * 0.5) / 2.0;
      var py := y as real * TriangleHeight() + -(GridHeight as real * TriangleHeight()) / 2.0;
      var h := TriangleHeight();
      var p: seq<real>;
      if (x + y) % 2 == 0 {
        p := [px, py, 0.0, px + TileSize, py, 0.0, px + TileSize / 2.0, py + h, 0.0];
      } else {
        p := [px + TileSize / 2.0, py, 0.0, px, py + h, 0.0, px + TileSize, py + h, 0.0];
      }
      var base := 9 * (GridWidth * y + x);
      var c := 0;
      while c < 9
        invariant 0 <= c <= 9
        invariant forall k :: 0 <= k < PositionBufferLength ==>
                    ps[k] == if k / 9 == GridWidth * y + x && k % 9 < c then TileCoord(x, y, k % 9) else old(ps[k])
      {
        ps[base + c] := p[c];
        c := c + 1;
      }
    }

    /** One row of `init`'s grid loop. */
    static method PlaceRow(ps: array<real>, y: nat)
      requires ps.Length == PositionBufferLength && y < GridHeight
      modifies ps
      ensures forall k :: 0 <= k < PositionBufferLength ==>
                ps[k] == if GridWidth * y <= k / 9 < GridWidth * (y + 1)
                         then TileCoord((k / 9) % GridWidth, (k / 9) / GridWidth, k % 9) else old(ps[k])
    {
      var x := 0;
      while x < GridWidth
        invariant 0 <= x <= GridWidth
        invariant forall k :: 0 <= k < PositionBufferLength ==>
                    ps[k] == if GridWidth * y <= k / 9 < GridWidth * y + x
                             then TileCoord((k / 9) % GridWidth, (k / 9) / GridWidth, k % 9) else old(ps[k])
      {
        PlaceTile(ps, x, y);
        x := x + 1;
      }
    }

    /**
     * constructor and init: the triangles row by row, every tile dark (life 0) with the shimmer
     * phase 2 pi idleDraws[i], and every vertex in the background colour.
     */
    constructor (idleDraws: seq<real>)
      requires |idleDraws| == NumTiles
      ensures Valid() && visible && groupX == 0.0 && groupY == 0.0
      ensures forall k :: 0 <= k < PositionBufferLength ==>
                positions[k] == TileCoord((k / 9) % GridWidth, (k / 9) / GridWidth, k % 9)
      ensures forall i :: 0 <= i < NumTiles ==> life[i] == 0.0 && idle[i] == idleDraws[i] * Pi * 2.0
      ensures forall v :: 0 <= v < ColorVertices ==> blend[v] == 0.0
    {
      var ps := new real[PositionBufferLength];
      var y := 0;
      while y < GridHeight
        invariant 0 <= y <= GridHeight
        invariant forall k :: 0 <= k < PositionBufferLength && k / 9 < GridWidth * y ==>
                    ps[k] == TileCoord((k / 9) % GridWidth, (k / 9) / GridWidth, k % 9)
      {
        PlaceRow(ps, y);
        y := y + 1;
      }
      positions := ps;
      life := new real[NumTiles](_ => 0.0);
      idle := new real[NumTiles](i requires 0 <= i < NumTiles => idleDraws[i] * Pi * 2.0);
      blend := new real[ColorVertices](_ => 0.0);
      groupX, groupY := 0.0, 0.0;
      visible := true;
    }

    /** The flash loop of `update`: each of the FlashCount(treble) draws sets one tile's life to 1. */
    method Flash(treble: real, rand: nat -> real)
      requires Valid() && forall k :: 0.0 <= rand(k) < 1.0
      modifies life
      ensures Valid()
      ensures forall j :: 0 <= j < NumTiles ==>
                life[j] == if Hit(j, FlashCount(treble), rand) then 1.0 else old(life[j])
    {
      if treble > TrebleThreshold {
        var flashCount := Map(treble, TrebleThreshold, 1.0, 1.0, TrebleMultiplier).Floor;
        var i := 0;
        while i < flashCount
          invariant 0 <= i <= Max(flashCount as real, 0.0).Floor
          invariant forall j :: 0 <= j < NumTiles ==>
                      life[j] == if Hit(j, i, rand) then 1.0 else old(life[j])
          invariant forall j :: 0 <= j < NumTiles ==> -LifeStep < life[j] <= 1.0
        {
          var tileIndex := Pick(rand(i));
          life[tileIndex] := 1.0;
          forall j | 0 <= j < NumTiles && Hit(j, i + 1, rand) && !Hit(j, i, rand)
            ensures j == tileIndex
          {
          }
          i := i + 1;
        }
      }
    }

    /** One pass of the colour loop: fade tile i and colour its three vertices alike. */
    method ShadeTile(i: nat, time: real, bassPulse: real, sin: real -> real)
      requires Valid() && i < NumTiles
      modifies life, blend
      ensures Valid()
      ensures forall j :: 0 <= j < NumTiles ==> life[j] == if j == i then Faded(old(life[i])) else old(life[j])
      ensures forall v :: 0 <= v < ColorVertices ==>
                blend[v] == if v / 3 == i then life[i] + IdleBrightness(time, idle[i], sin) + bassPulse
                            else old(blend[v])
    {
      if life[i] > 0.0 {
        life[i] := life[i] - LifeStep;
      } else {
        life[i] := 0.0;
      }
      var idleBrightness := (sin(time * 0.5 + idle[i]) + 1.0) / 2.0 * 0.05;
      var totalBrightness := life[i] + idleBrightness + bassPulse;
      blend[i * 3 + 0] := totalBrightness;
      blend[i * 3 + 1] := totalBrightness;
      blend[i * 3 + 2] := totalBrightness;
    }

    /**
     * update: drift the group with the mid level, flash random tiles on treble, then fade every
     * tile and give its three vertices the blend of its life, its shimmer and the bass pulse.
     */
    method Update(bass: real, mid: real, treble: real, time: real, sin: real -> real, cos: real -> real,
                  rand: nat -> real)
      requires Valid() && forall k :: 0.0 <= rand(k) < 1.0
      modifies this, life, blend
      ensures Valid() && visible == old(visible)
      ensures groupX == sin(time * 0.1) * 10.0 * Map(mid, 0.0, 1.0, 0.01, 0.1)
      ensures groupY == cos(time * 0.08) * 10.0 * Map(mid, 0.0, 1.0, 0.01, 0.1)
      ensures forall j :: 0 <= j < NumTiles ==>
                life[j] == Faded(if Hit(j, FlashCount(treble), rand) then 1.0 else old(life[j]))
      ensures forall v :: 0 <= v < ColorVertices ==>
                blend[v] == life[v / 3] + IdleBrightness(time, idle[v / 3], sin) + BassPulse(bass)
    {
      var moveSpeed := Map(mid, 0.0, 1.0, 0.01, 0.1);
      groupX := sin(time * 0.1) * 10.0 * moveSpeed;
      groupY := cos(time * 0.08) * 10.0 * moveSpeed;
      var bassPulse := Map(bass, 0.6, 1.0, 0.0, 0.4);
      Flash(treble, rand);
      ghost var flashed := life[..];
      var i := 0;
      while i < NumTiles
        invariant 0 <= i <= NumTiles && Valid()
        invariant groupX == sin(time * 0.1) * 10.0 * moveSpeed && groupY == cos(time * 0.08) * 10.0 * moveSpeed
        invariant visible == old(visible)
        invariant forall j :: 0 <= j < NumTiles ==> life[j] == if j < i then Faded(flashed[j]) else flashed[j]
        invariant forall v :: 0 <= v < ColorVertices && v / 3 < i ==>
                    blend[v] == life[v / 3] + IdleBrightness(time, idle[v / 3], sin) + bassPulse
      {
        ShadeTile(i, time, bassPulse, sin);
        i := i + 1;
      }
    }

    method Show()
      modifies this`visible
      ensures visible
      ensures old(Valid()) ==> Valid()
    {
      visible := true;
    }

    method Hide()
      modifies this`visible
      ensures !visible
      ensures old(Valid()) ==> Valid()
    {
      visible := false;
    }
  }
}
