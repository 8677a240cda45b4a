/**
 * scenes/AudioGraph.js: six scrolling line graphs (treble, mid, bass and their attacks) laid
 * out in three rows and two columns across the view.
 *
 * Each GraphDisplay owns a line of 120 points (one Float32Array of 360 coordinates) and a
 * border loop of 5 points (15 coordinates). Math.tan is a parameter.
 */
module AudioGraph {
  import opened Utils
  import opened Histories
  import opened Stage

  const NumPoints: nat := 120
  const LineBufferLength: nat := 360
  const BorderBufferLength: nat := 15
  const Margin: real := 0.8
  const NumRows: nat := 3
  const NumCols: nat := 2
  const NumGraphs: nat := 6
  /** The label sprite is 1.5 wide and its text starts 10 pixels into a 300-pixel canvas. */
  const LabelX: real := 1.5 / 2.0 - 10.0 / 300.0 * 1.5

  /** Coordinate c (0 = x, 1 = y, 2 = z) of each of the 120 points of a line buffer. */
  function Column(s: seq<real>, c: nat): (r: seq<real>)
    requires |s| == LineBufferLength && c < 3
    ensures |r| == NumPoints && forall i :: 0 <= i < NumPoints ==> r[i] == s[3 * i + c]
  {
    seq(NumPoints, i requires 0 <= i < NumPoints => s[3 * i + c])
  }

  /** Writing coordinate c of point p changes entry p of column c and no other column. */
  lemma ColumnUpdate(s: seq<real>, p: nat, c: nat, v: real)
    requires |s| == LineBufferLength && p < NumPoints && c < 3
    ensures Column(s[3 * p + c := v], c) == Column(s, c)[p := v]
    ensures c != 0 ==> Column(s[3 * p + c := v], 0) == Column(s, 0)
    ensures c != 1 ==> Column(s[3 * p + c := v], 1) == Column(s, 1)
    ensures c != 2 ==> Column(s[3 * p + c := v], 2) == Column(s, 2)
  {
  }

  /** One step of the left shift: the y values from 1 to i + 1 have moved one place left. */
  lemma ShiftStep(ys: seq<real>, i: nat)
    requires |ys| == NumPoints && i < NumPoints - 1
    ensures (ys[1..i + 1] + ys[i..])[i + 1] == ys[i + 1]
    ensures (ys[1..i + 1] + ys[i..])[i := ys[i + 1]] == ys[1..i + 2] + ys[i + 1..]
  {
  }

  /** The last y after the shift is replaced by the new value: a scroll. */
  lemma ShiftLast(ys: seq<real>, v: real)
    requires |ys| == NumPoints
    ensures (ys[1..NumPoints] + ys[NumPoints - 1..])[NumPoints - 1 := v] == Scroll(ys, v)
  {
  }

  /** The x of the points of a graph `width` wide: map(i, 0, 119, 0, width). */
  function GridXs(width: real): (r: seq<real>)
    ensures |r| == NumPoints
  {
    seq(NumPoints, i => Map(i as real, 0.0, (NumPoints - 1) as real, 0.0, width))
  }

  /** The line runs from x = 0 to x = width in 119 equal steps. */
  lemma GridXsSpan(width: real)
    ensures GridXs(width)[0] == 0.0 && GridXs(width)[NumPoints - 1] == width
    ensures forall i :: 0 <= i < NumPoints - 1 ==> GridXs(width)[i + 1] - GridXs(width)[i] == width / 119.0
  {
    MapEndpoints(0.0, (NumPoints - 1) as real, 0.0, width);
  }

  /** The border: the graph's rectangle from (0, 0) to (width, height), drawn as a closed loop. */
  function BorderLoop(width: real, height: real): (r: seq<real>)
    ensures |r| == BorderBufferLength
    ensures r[..3] == r[12..] == [0.0, 0.0, 0.0]
    ensures forall p :: 0 <= p < 5 ==> r[3 * p + 2] == 0.0
  {
    [0.0, 0.0, 0.0, width, 0.0, 0.0, width, height, 0.0, 0.0, height, 0.0, 0.0, 0.0, 0.0]
  }

  /** Where one graph goes: its group position and its size. */
  datatype Cell = Cell(x: real, y: real, width: real, height: real)

  /**
   * updateLayout's grid for a view `viewWidth` by `viewHeight`: graph k (in the order TREBLE,
   * MID, BASS, TREBLE ATK, MID ATK, BASS ATK) goes to column k / 3 and row k % 3.
   */
  function CellAt(viewWidth: real, viewHeight: real, k: nat): Cell {
    var graphWidth := (viewWidth - (NumCols + 1) as real * Margin) / NumCols as real;
    var graphHeight := (viewHeight - (NumRows + 1) as real * Margin) / NumRows as real;
    var startX := -viewWidth / 2.0 + Margin;
    var startY := viewHeight / 2.0 - Margin - graphHeight;
    var secondColX := startX + graphWidth + Margin;
    var x := if k / 3 == 0 then startX else secondColX;
    var y := if k % 3 == 0 then startY
             else if k % 3 == 1 then startY - (graphHeight + Margin)
             else startY - 2.0 * (graphHeight + Margin);
    Cell(x, y, graphWidth, graphHeight)
  }

  /**
   * The six cells tile the view with a margin of 0.8 everywhere: at the four edges of the view
   * and between neighbouring graphs; graphs in one column share x, graphs in one row share y.
   */
  lemma LayoutTiles(viewWidth: real, viewHeight: real)
    ensures forall k :: 0 <= k < NumGraphs ==>
      CellAt(viewWidth, viewHeight, k).width == (viewWidth - 2.4) / 2.0 &&
      CellAt(viewWidth, viewHeight, k).height == (viewHeight - 3.2) / 3.0
    ensures CellAt(viewWidth, viewHeight, 0).x == -viewWidth / 2.0 + Margin
    ensures CellAt(viewWidth, viewHeight, 3).x + CellAt(viewWidth, viewHeight, 3).width == viewWidth / 2.0 - Margin
    ensures CellAt(viewWidth, viewHeight, 0).y + CellAt(viewWidth, viewHeight, 0).height == viewHeight / 2.0 - Margin
    ensures CellAt(viewWidth, viewHeight, 2).y == -viewHeight / 2.0 + Margin
    ensures CellAt(viewWidth, viewHeight, 3).x - (CellAt(viewWidth, viewHeight, 0).x + CellAt(viewWidth, viewHeight, 0).width) == Margin
    ensures forall k :: 0 <= k < NumGraphs && k % 3 != 2 ==>
      CellAt(viewWidth, viewHeight, k).y - (CellAt(viewWidth, viewHeight, k + 1).y + CellAt(viewWidth, viewHeight, k + 1).height) == Margin
    ensures CellAt(viewWidth, viewHeight, 0).y == CellAt(viewWidth, viewHeight, 3).y
    ensures CellAt(viewWidth, viewHeight, 1).y == CellAt(viewWidth, viewHeight, 4).y
    ensures CellAt(viewWidth, viewHeight, 2).y == CellAt(viewWidth, viewHeight, 5).y
    ensures CellAt(viewWidth, viewHeight, 0).x == CellAt(viewWidth, viewHeight, 1).x == CellAt(viewWidth, viewHeight, 2).x
    ensures CellAt(viewWidth, viewHeight, 3).x == CellAt(viewWidth, viewHeight, 4).x == CellAt(viewWidth, viewHeight, 5).x
  {
  }

  /** Where one graph sits and what its x column and border hold: everything setLayout writes. */
  datatype GraphLayout = GraphLayout(x: real, y: real, width: real, height: real, labelX: real, labelY: real,
                                     xs: seq<real>, border: seq<real>)

  /** A graph as `setLayout` leaves it for a cell. */
  ghost predicate Placed(l: GraphLayout, c: Cell) {
    && l.x == c.x && l.y == c.y && l.width == c.width && l.height == c.height
    && l.labelX == LabelX && l.labelY == c.height
    && l.xs == GridXs(c.width)
    && l.border == BorderLoop(c.width, c.height)
  }

  /** One graph: its line buffer, its border buffer, its size, and where its group and label sit. */
  class GraphDisplay {
    const positions: array<real>
    const border: array<real>
    var width: real
    var height: real
    var x: real
    var y: real
    var labelX: real
    var labelY: real

    ghost predicate Valid() {
      positions.Length == LineBufferLength && border.Length == BorderBufferLength
    }

    /** The y values of the line's points, oldest first. */
    function Ys(): seq<real>
      reads positions
      requires Valid()
    {
      Column(positions[..], 1)
    }

    function Layout(): GraphLayout
      reads this, positions, border
      requires Valid()
    {
      GraphLayout(x, y, width, height, labelX, labelY, Column(positions[..], 0), border[..])
    }

    /** constructor and init: an all-zero line and border, width and height 0. */
    constructor ()
      ensures Valid() && fresh(positions) && fresh(border)
      ensures width == 0.0 && height == 0.0
      ensures positions[..] == seq(LineBufferLength, _ => 0.0) && border[..] == seq(BorderBufferLength, _ => 0.0)
    {
      positions := new real[LineBufferLength](_ => 0.0);
      border := new real[BorderBufferLength](_ => 0.0);
      width, height := 0.0, 0.0;
      x, y := 0.0, 0.0;
      labelX, labelY := 0.0, 0.0;
    }

    /**
     * update: the y values scroll one point to the left and the new value, mapped to the graph's
     * height, becomes the last y; no x or z changes.
     */
    method Update(value: real)
      requires Valid()
      modifies positions
      ensures Column(positions[..], 1) == Scroll(Column(old(positions[..]), 1), Map(value, 0.0, 1.0, 0.0, height))
      ensures Layout() == old(Layout())
      ensures Column(positions[..], 2) == Column(old(positions[..]), 2)
    {
      ghost var ys := Column(positions[..], 1);
      var i := 0;
      while i < NumPoints - 1
        invariant 0 <= i <= NumPoints - 1
        invariant Column(positions[..], 0) == Column(old(positions[..]), 0)
        invariant Column(positions[..], 2) == Column(old(positions[..]), 2)
        invariant Column(positions[..], 1) == ys[1..i + 1] + ys[i..]
      {
        ShiftOne(i, ys);
        i := i + 1;
      }
      ghost var before := positions[..];
      var v := Map(value, 0.0, 1.0, 0.0, height);
      positions[(NumPoints - 1) * 3 + 1] := v;
      assert positions[..] == before[3 * (NumPoints - 1) + 1 := v];
      ColumnUpdate(before, NumPoints - 1, 1, v);
      ShiftLast(ys, v);
    }

    /** One pass of the shift loop: y of point i takes the y of point i + 1. */
    method ShiftOne(i: nat, ghost ys: seq<real>)
      requires Valid() && |ys| == NumPoints && i < NumPoints - 1
      requires Column(positions[..], 1) == ys[1..i + 1] + ys[i..]
      modifies positions
      ensures Column(positions[..], 1) == ys[1..i + 2] + ys[i + 1..]
      ensures Column(positions[..], 0) == Column(old(positions[..]), 0)
      ensures Column(positions[..], 2) == Column(old(positions[..]), 2)
    {
      ghost var before := positions[..];
      ShiftStep(ys, i);
      assert before[3 * (i + 1) + 1] == ys[i + 1];
      positions[i * 3 + 1] := positions[(i + 1) * 3 + 1];
      assert positions[..] == before[3 * i + 1 := ys[i + 1]];
      ColumnUpdate(before, i, 1, ys[i + 1]);
    }

    /**
     * setLayout: records the size and position, spreads the line's x over the width and draws the
     * border rectangle; the line's y and z are not written.
     */
    method SetLayout(px: real, py: real, w: real, h: real)
      requires Valid()
      modifies this, positions, border
      ensures Valid() && Placed(Layout(), Cell(px, py, w, h))
      ensures Column(positions[..], 1) == Column(old(positions[..]), 1)
      ensures Column(positions[..], 2) == Column(old(positions[..]), 2)
    {
      width := w;
      height := h;
      x, y := px, py;
      var i := 0;
      while i < NumPoints
        invariant 0 <= i <= NumPoints
        invariant width == w && height == h && x == px && y == py
        invariant Column(positions[..], 0) == GridXs(w)[..i] + Column(old(positions[..]), 0)[i..]
        invariant Column(positions[..], 1) == Column(old(positions[..]), 1)
        invariant Column(positions[..], 2) == Column(old(positions[..]), 2)
      {
        PlaceX(i, w, Column(old(positions[..]), 0));
        i := i + 1;
      }
      DrawBorder(w, h);
      labelX, labelY := LabelX, h;
    }

    /** The border part of setLayout: the five corners of the loop, the first repeated at the end. */
    method DrawBorder(w: real, h: real)
      requires Valid()
      modifies border
      ensures border[..] == BorderLoop(w, h)
    {
      border[0] := 0.0; border[1] := 0.0; border[2] := 0.0;
      border[3] := w; border[4] := 0.0; border[5] := 0.0;
      border[6] := w; border[7] := h; border[8] := 0.0;
      border[9] := 0.0; border[10] := h; border[11] := 0.0;
      border[12] := 0.0; border[13] := 0.0; border[14] := 0.0;
    }

    /** One pass of setLayout's x loop: x of point i becomes map(i, 0, 119, 0, w). */
    method PlaceX(i: nat, w: real, ghost xs: seq<real>)
      requires Valid() && i < NumPoints && |xs| == NumPoints
      requires Column(positions[..], 0) == GridXs(w)[..i] + xs[i..]
      modifies positions
      ensures Column(positions[..], 0) == GridXs(w)[..i + 1] + xs[i + 1..]
      ensures Column(positions[..], 1) == Column(old(positions[..]), 1)
      ensures Column(positions[..], 2) == Column(old(positions[..]), 2)
    {
      ghost var before := positions[..];
      positions[i * 3] := Map(i as real, 0.0, (NumPoints - 1) as real, 0.0, w);
      assert positions[..] == before[3 * i + 0 := GridXs(w)[i]];
      ColumnUpdate(before, i, 0, GridXs(w)[i]);
      assert (GridXs(w)[..i] + xs[i..])[i := GridXs(w)[i]] == GridXs(w)[..i + 1] + xs[i + 1..];
    }
  }

  /** The y of a scene's z-distance camera view and its width at the camera's aspect. */
  function ViewSize(camera: Camera, tan: real -> real): (real, real)
    reads camera
  {
    var h := ViewportHeight(camera.fov, camera.z, tan);
    (ViewWidth(h, camera.aspect), h)
  }

  /** The keys of `graphs`, in the order the scene creates them; graph k is the one named GraphNames[k]. */
  const GraphNames: seq<string> := ["TREBLE", "MID", "BASS", "TREBLE ATK", "MID ATK", "BASS ATK"]

  class AudioGraphScene {
    const camera: Camera
    /** The graphs, indexed like GraphNames. */
    const graphs: seq<GraphDisplay>
    var lastAspect: real
    var visible: bool

    /** Every object the scene's graphs own: the graphs and their two buffers each. */
    ghost const Repr: set<object>

    /** The first n graphs are valid, owned by the scene, and share no object. */
    static ghost predicate Separate(gs: seq<GraphDisplay>, repr: set<object>, n: nat)
      requires n <= |gs|
    {
      && (forall k :: 0 <= k < n ==>
            gs[k] in repr && gs[k].positions in repr && gs[k].border in repr)
      && (forall k :: 0 <= k < n ==> gs[k].Valid() && gs[k].positions != gs[k].border)
      && (forall j, k :: 0 <= j < k < n ==>
            && gs[j] != gs[k]
            && gs[j].positions != gs[k].positions && gs[j].border != gs[k].border
            && gs[j].positions != gs[k].border && gs[j].border != gs[k].positions)
    }

    ghost predicate Valid() {
      && |graphs| == NumGraphs && this !in Repr && camera !in Repr
      && Separate(graphs, Repr, NumGraphs)
    }

    /** Every graph sits in its cell of the grid for a view of the given size. */
    ghost predicate LaidOut(viewWidth: real, viewHeight: real)
      reads Repr
      requires Valid()
    {
      && Placed(graphs[0].Layout(), CellAt(viewWidth, viewHeight, 0))
      && Placed(graphs[1].Layout(), CellAt(viewWidth, viewHeight, 1))
      && Placed(graphs[2].Layout(), CellAt(viewWidth, viewHeight, 2))
      && Placed(graphs[3].Layout(), CellAt(viewWidth, viewHeight, 3))
      && Placed(graphs[4].Layout(), CellAt(viewWidth, viewHeight, 4))
      && Placed(graphs[5].Layout(), CellAt(viewWidth, viewHeight, 5))
    }

    /**
     * Three of updateLayout's setLayout calls: graphs first, first + 1 and first + 2 go one
     * under the other in the column at x, the top one at startY.
     */
    method PlaceColumn(first: nat, x: real, startY: real, graphWidth: real, graphHeight: real)
      requires Valid() && (first == 0 || first == 3)
      modifies graphs[first], graphs[first].positions, graphs[first].border
      modifies graphs[first + 1], graphs[first + 1].positions, graphs[first + 1].border
      modifies graphs[first + 2], graphs[first + 2].positions, graphs[first + 2].border
      ensures Placed(graphs[first].Layout(), Cell(x, startY, graphWidth, graphHeight))
      ensures Placed(graphs[first + 1].Layout(), Cell(x, startY - (graphHeight + Margin), graphWidth, graphHeight))
      ensures Placed(graphs[first + 2].Layout(), Cell(x, startY - 2.0 * (graphHeight + Margin), graphWidth, graphHeight))
      ensures forall k :: 0 <= k < NumGraphs && (k < first || first + 3 <= k) ==>
                graphs[k].Layout() == old(graphs[k].Layout())
      ensures forall k :: 0 <= k < NumGraphs ==> graphs[k].Ys() == old(graphs[k].Ys())
    {
      graphs[first].SetLayout(x, startY, graphWidth, graphHeight);
      graphs[first + 1].SetLayout(x, startY - (graphHeight + Margin), graphWidth, graphHeight);
      graphs[first + 2].SetLayout(x, startY - 2.0 * (graphHeight + Margin), graphWidth, graphHeight);
    }

    /** updateLayout: every graph to its cell for the camera's current view. */
    method UpdateLayout(tan: real -> real)
      requires Valid()
      modifies Repr
      ensures var (w, h) := ViewSize(camera, tan); LaidOut(w, h)
      ensures forall k :: 0 <= k < NumGraphs ==> graphs[k].Ys() == old(graphs[k].Ys())
    {
      var height := ViewportHeight(camera.fov, camera.z, tan);
      var width := ViewWidth(height, camera.aspect);
      var graphWidth := (width - (NumCols + 1) as real * Margin) / NumCols as real;
      var graphHeight := (height - (NumRows + 1) as real * Margin) / NumRows as real;
      var startX := -width / 2.0 + Margin;
      var startY := height / 2.0 - Margin - graphHeight;
      PlaceColumn(0, startX, startY, graphWidth, graphHeight);
      var secondColX := startX + graphWidth + Margin;
      PlaceColumn(3, secondColX, startY, graphWidth, graphHeight);
      assert (width, height) == ViewSize(camera, tan);
      assert CellAt(width, height, 0) == Cell(startX, startY, graphWidth, graphHeight);
      assert CellAt(width, height, 1) == Cell(startX, startY - (graphHeight + Margin), graphWidth, graphHeight);
      assert CellAt(width, height, 2) == Cell(startX, startY - 2.0 * (graphHeight + Margin), graphWidth, graphHeight);
      assert CellAt(width, height, 3) == Cell(secondColX, startY, graphWidth, graphHeight);
      assert CellAt(width, height, 4) == Cell(secondColX, startY - (graphHeight + Margin), graphWidth, graphHeight);
      assert CellAt(width, height, 5) == Cell(secondColX, startY - 2.0 * (graphHeight + Margin), graphWidth, graphHeight);
    }

    /** constructor and init: one fresh graph per name, lastAspect 0, then the first layout. */
    constructor (camera: Camera, tan: real -> real)
      ensures Valid() && this.camera == camera && lastAspect == 0.0 && visible
      ensures var (w, h) := ViewSize(camera, tan); LaidOut(w, h)
    {
      var gs: seq<GraphDisplay> := [];
      ghost var repr: set<object> := {};
      var i := 0;
      while i < |GraphNames|
        invariant 0 <= i <= |GraphNames| && |gs| == i
        invariant Separate(gs, repr, i)
        invariant forall o :: o in repr ==> fresh(o)
      {
        var g := new GraphDisplay();
        gs := gs + [g];
        repr := repr + {g, g.positions, g.border};
        i := i + 1;
      }
      this.camera := camera;
      graphs := gs;
      Repr := repr;
      lastAspect := 0.0;
      visible := true;
      new;
      UpdateLayout(tan);
    }

    /**
     * Three of update's graph updates: graphs first, first + 1 and first + 2 each scroll in their
     * own value, scaled to the graph's height.
     */
    method FeedGroup(first: nat, a: real, b: real, c: real)
      requires Valid() && (first == 0 || first == 3)
      modifies graphs[first].positions, graphs[first + 1].positions, graphs[first + 2].positions
      ensures graphs[first].Ys() == Scroll(old(graphs[first].Ys()), Map(a, 0.0, 1.0, 0.0, graphs[first].height))
      ensures graphs[first + 1].Ys() == Scroll(old(graphs[first + 1].Ys()), Map(b, 0.0, 1.0, 0.0, graphs[first + 1].height))
      ensures graphs[first + 2].Ys() == Scroll(old(graphs[first + 2].Ys()), Map(c, 0.0, 1.0, 0.0, graphs[first + 2].height))
      ensures forall k :: 0 <= k < NumGraphs && (k < first || first + 3 <= k) ==> graphs[k].Ys() == old(graphs[k].Ys())
      ensures forall k :: 0 <= k < NumGraphs ==> graphs[k].Layout() == old(graphs[k].Layout())
    {
      graphs[first].Update(a);
      graphs[first + 1].Update(b);
      graphs[first + 2].Update(c);
    }

    /** The aspect check of update: lay the graphs out again only when the aspect changed. */
    method RelayoutIfResized(tan: real -> real)
      requires Valid()
      modifies this`lastAspect, Repr
      ensures lastAspect == camera.aspect
      ensures old(camera.aspect) != old(lastAspect) ==> var (w, h) := ViewSize(camera, tan); LaidOut(w, h)
      ensures old(camera.aspect) == old(lastAspect) ==>
                forall k :: 0 <= k < NumGraphs ==> graphs[k].Layout() == old(graphs[k].Layout())
      ensures forall k :: 0 <= k < NumGraphs ==> graphs[k].Ys() == old(graphs[k].Ys())
    {
      if camera.aspect != lastAspect {
        UpdateLayout(tan);
        RecordAspect();
      }
    }

    /** The aspect the graphs were last laid out for. */
    method RecordAspect()
      modifies this`lastAspect
      ensures lastAspect == camera.aspect
    {
      lastAspect := camera.aspect;
    }

    /** The graph updates of update: each audio value scrolls into the graph of its name. */
    method FeedAll(treble: real, mid: real, bass: real, trebleAttack: real, midAttack: real, bassAttack: real)
      requires Valid()
      modifies Repr
      ensures graphs[0].Ys() == Scroll(old(graphs[0].Ys()), Map(treble, 0.0, 1.0, 0.0, graphs[0].height))
      ensures graphs[1].Ys() == Scroll(old(graphs[1].Ys()), Map(mid, 0.0, 1.0, 0.0, graphs[1].height))
      ensures graphs[2].Ys() == Scroll(old(graphs[2].Ys()), Map(bass, 0.0, 1.0, 0.0, graphs[2].height))
      ensures graphs[3].Ys() == Scroll(old(graphs[3].Ys()), Map(trebleAttack, 0.0, 1.0, 0.0, graphs[3].height))
      ensures graphs[4].Ys() == Scroll(old(graphs[4].Ys()), Map(midAttack, 0.0, 1.0, 0.0, graphs[4].height))
      ensures graphs[5].Ys() == Scroll(old(graphs[5].Ys()), Map(bassAttack, 0.0, 1.0, 0.0, graphs[5].height))
      ensures forall k :: 0 <= k < NumGraphs ==> graphs[k].Layout() == old(graphs[k].Layout())
    {
      FeedGroup(0, treble, mid, bass);
      FeedGroup(3, trebleAttack, midAttack, bassAttack);
    }

    /**
     * update: lay the graphs out again only when the camera's aspect changed since the last
     * layout, then feed each audio value to the graph of its name.
     */
    method Update(treble: real, mid: real, bass: real, trebleAttack: real, midAttack: real, bassAttack: real,
                  tan: real -> real)
      requires Valid()
      modifies this, Repr
      ensures lastAspect == camera.aspect && visible == old(visible)
      ensures old(camera.aspect) != old(lastAspect) ==> var (w, h) := ViewSize(camera, tan); LaidOut(w, h)
      ensures old(camera.aspect) == old(lastAspect) ==>
                forall k :: 0 <= k < NumGraphs ==> graphs[k].Layout() == old(graphs[k].Layout())
      ensures graphs[0].Ys() == Scroll(old(graphs[0].Ys()), Map(treble, 0.0, 1.0, 0.0, graphs[0].height))
      ensures graphs[1].Ys() == Scroll(old(graphs[1].Ys()), Map(mid, 0.0, 1.0, 0.0, graphs[1].height))
      ensures graphs[2].Ys() == Scroll(old(graphs[2].Ys()), Map(bass, 0.0, 1.0, 0.0, graphs[2].height))
      ensures graphs[3].Ys() == Scroll(old(graphs[3].Ys()), Map(trebleAttack, 0.0, 1.0, 0.0, graphs[3].height))
      ensures graphs[4].Ys() == Scroll(old(graphs[4].Ys()), Map(midAttack, 0.0, 1.0, 0.0, graphs[4].height))
      ensures graphs[5].Ys() == Scroll(old(graphs[5].Ys()), Map(bassAttack, 0.0, 1.0, 0.0, graphs[5].height))
    {
      RelayoutIfResized(tan);
      FeedAll(treble, mid, bass, trebleAttack, midAttack, bassAttack);
    }

    /** show: make the scene visible and lay it out for the current view. */
    method Show(tan: real -> real)
      requires Valid()
      modifies this`visible, Repr
      ensures Valid() && visible && lastAspect == old(lastAspect)
      ensures var (w, h) := ViewSize(camera, tan); LaidOut(w, h)
      ensures forall k :: 0 <= k < NumGraphs ==> graphs[k].Ys() == old(graphs[k].Ys())
    {
      visible := true;
      UpdateLayout(tan);
    }

    /** hide: only the visibility flag changes. */
    method Hide()
      modifies this`visible
      ensures !visible && lastAspect == old(lastAspect)
    {
      visible := false;
    }
  }
}
