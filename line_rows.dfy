/**
 * The group of 20 wavy lines shared by main.js, scenes/WavyLines.js and
 * scenes/WavyLinesv2.js. Each line owns a Float32Array of (120 + 1) * 3 coordinates;
 * the model keeps the 20 buffers as the rows of one two-dimensional array and the
 * lines' `visible` flags in a boolean array.
 *
 * Every frame the three callers make a prefix of the lines visible, rewrite each
 * visible line's 121 points (x evenly spaced, a caller-specific y, z = 0) and hide
 * the others without touching their buffers.
 */
module LineRows {
  import opened Utils

  const MaxLines: nat := 20
  const LineSegments: nat := 120
  /** Length of one line's position buffer: (LineSegments + 1) points of 3 coordinates. */
  const RowLength: nat := 363

  /** Number of visible lines for a bass level: Math.floor(map(bass, 0, 1, 1, MAX_LINES)). */
  function VisibleLineCount(bass: real): int {
    Map(bass, 0.0, 1.0, 1.0, MaxLines as real).Floor
  }

  /** For a bass level in [0, 1] between 1 and 20 lines are visible, all 20 only at full bass. */
  lemma VisibleLineCountBounds(bass: real)
    requires 0.0 <= bass <= 1.0
    ensures 1 <= VisibleLineCount(bass) <= MaxLines
    ensures VisibleLineCount(bass) == MaxLines <==> bass == 1.0
  {
    MapWithinRange(bass, 0.0, 1.0, 1.0, MaxLines as real);
    var m := Map(bass, 0.0, 1.0, 1.0, MaxLines as real);
    assert m == 1.0 + 19.0 * bass;
  }

  /** Louder bass never shows fewer lines. */
  lemma VisibleLineCountMonotone(b1: real, b2: real)
    requires b1 <= b2
    ensures VisibleLineCount(b1) <= VisibleLineCount(b2)
  {
    MapMonotone(b1, b2, 0.0, 1.0, 1.0, MaxLines as real);
  }

  /** x coordinate of point j of a line spanning [-halfWidth, halfWidth]. */
  function PointX(j: int, halfWidth: real): real {
    Map(j as real, 0.0, LineSegments as real, -halfWidth, halfWidth)
  }

  /** The 121 points run from -halfWidth to halfWidth in equal steps of halfWidth / 60. */
  lemma PointsEvenlySpaced(j: int, halfWidth: real)
    ensures PointX(0, halfWidth) == -halfWidth
    ensures PointX(LineSegments, halfWidth) == halfWidth
    ensures PointX(j + 1, halfWidth) - PointX(j, halfWidth) == halfWidth / 60.0
  {
    MapEndpoints(0.0, LineSegments as real, -halfWidth, halfWidth);
  }

  /**
   * What entry k of a drawn line's buffer holds: x of point k / 3, the caller's y for
   * that point, or z = 0.
   */
  function RowValue(i: nat, k: nat, halfWidth: real, ys: (nat, nat) -> real): real {
    if k % 3 == 0 then PointX(k / 3, halfWidth)
    else if k % 3 == 1 then ys(i, k / 3)
    else 0.0
  }

  class LineGroup {
    const visible: array<bool>
    const points: array2<real>

    ghost predicate Valid()
      reads this
    {
      visible.Length == MaxLines && points.Length0 == MaxLines && points.Length1 == RowLength
    }

    /**
     * 20 lines with zero-filled buffers, as a fresh Float32Array is. A new THREE.Line
     * is visible, which the scenes keep; main.js hides each line as it creates it.
     */
    constructor (shown: bool)
      ensures Valid() && fresh(visible) && fresh(points)
      ensures forall i :: 0 <= i < MaxLines ==> visible[i] == shown
      ensures forall i, k :: 0 <= i < MaxLines && 0 <= k < RowLength ==> points[i, k] == 0.0
    {
      visible := new bool[MaxLines](_ => shown);
      points := new real[MaxLines, RowLength]((_, _) => 0.0);
    }

    /** The inner `for (j = 0; j <= LINE_SEGMENTS; j++)` loop for line i. */
    method WriteRow(i: nat, halfWidth: real, ys: (nat, nat) -> real)
      requires Valid() && i < MaxLines
      modifies points
      ensures forall k :: 0 <= k < RowLength ==> points[i, k] == RowValue(i, k, halfWidth, ys)
      ensures forall i', k :: 0 <= i' < MaxLines && i' != i && 0 <= k < RowLength ==>
                points[i', k] == old(points[i', k])
    {
      var j := 0;
      while j <= LineSegments
        invariant 0 <= j <= LineSegments + 1
        invariant forall k :: 0 <= k < 3 * j ==> points[i, k] == RowValue(i, k, halfWidth, ys)
        invariant forall i', k :: 0 <= i' < MaxLines && i' != i && 0 <= k < RowLength ==>
                    points[i', k] == old(points[i', k])
      {
        points[i, j * 3] := PointX(j, halfWidth);
        points[i, j * 3 + 1] := ys(i, j);
        points[i, j * 3 + 2] := 0.0;
        j := j + 1;
      }
    }

    /**
     * The `linesGroup.children.forEach` of the three callers: line i is shown and
     * rewritten when i < numLines, and hidden with its buffer left as it was otherwise.
     */
    method Draw(numLines: int, halfWidth: real, ys: (nat, nat) -> real)
      requires Valid()
      modifies visible, points
      ensures forall i :: 0 <= i < MaxLines ==> visible[i] == (i < numLines)
      ensures forall i, k :: 0 <= i < MaxLines && 0 <= k < RowLength ==>
                points[i, k] == if i < numLines then RowValue(i, k, halfWidth, ys) else old(points[i, k])
    {
      var i := 0;
      while i < MaxLines
        invariant 0 <= i <= MaxLines
        invariant forall i' :: 0 <= i' < i ==> visible[i'] == (i' < numLines)
        invariant forall i', k :: 0 <= i' < MaxLines && 0 <= k < RowLength ==>
                    points[i', k] == if i' < i && i' < numLines then RowValue(i', k, halfWidth, ys)
                                     else old(points[i', k])
      {
        if i < numLines {
          visible[i] := true;
          WriteRow(i, halfWidth, ys);
        } else {
          visible[i] := false;
        }
        i := i + 1;
      }
    }
  }
}
