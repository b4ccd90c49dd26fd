/**
 * Grid plan generation (generate_and_save_coordinates): a raster of
 * waypoints, outer loop over y, inner loop over x, every waypoint carrying the
 * same stay time. The step counts are floating-point bounds compared with
 * `<` by loop counters that start at 0 and go up by 1.
 */
module GridPlan {
  import opened Model

  /** The origin, the step sizes in millimetres and the stay time in seconds. */
  datatype GridSpec = GridSpec(x0: real, y0: real, xSize: real, ySize: real, stay: int)

  /** The coordinate of step number n from `origin`: `origin + n * size`. */
  function Coord(origin: real, n: nat, size: real): real {
    origin + n as real * size
  }

  /**
   * How often `for (double c = 0; c < bound; ++c)` runs its body: the least
   * natural number at or above the bound.
   */
  function StepCount(bound: real): (r: nat)
    ensures bound <= r as real
    ensures r == 0 || ((r - 1) as real) < bound
  {
    if bound <= 0.0 then 0
    else if bound.Floor as real == bound then bound.Floor
    else bound.Floor + 1
  }

  /** The loop runs once for every natural number below its bound, and only for those. */
  lemma StepCountIsExact(bound: real, k: nat)
    ensures k < StepCount(bound) <==> (k as real) < bound
  {
  }

  /** The x sweep at height `y`: `nx` waypoints, left to right. */
  function Sweep(g: GridSpec, y: real, nx: nat): seq<Row> {
    if nx == 0 then [] else Sweep(g, y, nx - 1) + [Row(Coord(g.x0, nx - 1, g.xSize), y, g.stay)]
  }

  /** The first `ny` rows of the raster, each a full x sweep. */
  function Grid(g: GridSpec, nx: nat, ny: nat): seq<Row> {
    if ny == 0 then [] else Grid(g, nx, ny - 1) + Sweep(g, Coord(g.y0, ny - 1, g.ySize), nx)
  }

  lemma {:induction false} SweepAt(g: GridSpec, y: real, nx: nat, i: nat)
    requires i < nx
    ensures |Sweep(g, y, nx)| == nx
    ensures Sweep(g, y, nx)[i] == Row(Coord(g.x0, i, g.xSize), y, g.stay)
  {
    if i < nx - 1 {
      SweepAt(g, y, nx - 1, i);
    } else {
      SweepLength(g, y, nx - 1);
    }
  }

  lemma {:induction false} SweepLength(g: GridSpec, y: real, nx: nat)
    ensures |Sweep(g, y, nx)| == nx
  {
    if nx > 0 { SweepLength(g, y, nx - 1); }
  }

  /** The plan has exactly one waypoint per (column, row) pair. */
  lemma {:induction false} GridSize(g: GridSpec, nx: nat, ny: nat)
    ensures |Grid(g, nx, ny)| == nx * ny
  {
    if ny > 0 {
      GridSize(g, nx, ny - 1);
      SweepLength(g, Coord(g.y0, ny - 1, g.ySize), nx);
      assert nx * ny == nx * (ny - 1) + nx;
    }
  }

  /**
   * Row-major layout: waypoint number `j * nx + i` is column i of row j, at
   * `x0 + i * xSize`, `y0 + j * ySize`, with the common stay time.
   */
  lemma {:induction false} GridAt(g: GridSpec, nx: nat, ny: nat, i: nat, j: nat)
    requires i < nx && j < ny
    ensures j * nx + i < |Grid(g, nx, ny)|
    ensures Grid(g, nx, ny)[j * nx + i] == Row(Coord(g.x0, i, g.xSize), Coord(g.y0, j, g.ySize), g.stay)
  {
    GridSize(g, nx, ny - 1);
    var k := j * nx + i;
    if j < ny - 1 {
      IndexBelow(nx, ny - 1, i, j);
      GridAt(g, nx, ny - 1, i, j);
      GridPrefix(g, nx, ny, k);
    } else {
      LastRowIndex(nx, ny, i, j);
      GridLastRow(g, nx, ny, i);
    }
  }

  /** Adding a row leaves the earlier waypoints in place. */
  lemma GridPrefix(g: GridSpec, nx: nat, ny: nat, k: nat)
    requires ny > 0 && k < |Grid(g, nx, ny - 1)|
    ensures k < |Grid(g, nx, ny)| && Grid(g, nx, ny)[k] == Grid(g, nx, ny - 1)[k]
  {
  }

  /** The last row of the plan is the x sweep at `y0 + (ny - 1) * ySize`. */
  lemma GridLastRow(g: GridSpec, nx: nat, ny: nat, i: nat)
    requires ny > 0 && i < nx
    ensures var k := |Grid(g, nx, ny - 1)| + i;
      k < |Grid(g, nx, ny)| &&
      Grid(g, nx, ny)[k] == Row(Coord(g.x0, i, g.xSize), Coord(g.y0, ny - 1, g.ySize), g.stay)
  {
    var y := Coord(g.y0, ny - 1, g.ySize);
    var before, last := Grid(g, nx, ny - 1), Sweep(g, y, nx);
    assert Grid(g, nx, ny) == before + last;
    SweepAt(g, y, nx, i);
    ConcatAt(before, last, i);
  }

  lemma ConcatAt<T>(a: seq<T>, b: seq<T>, i: nat)
    requires i < |b|
    ensures (a + b)[|a| + i] == b[i]
  {
  }

  lemma LastRowIndex(nx: nat, ny: nat, i: nat, j: nat)
    requires j + 1 == ny
    ensures j * nx + i == nx * (ny - 1) + i
  {
  }

  /** Cell (i, j) of an nx-wide raster lies in its first n rows when j < n. */
  lemma IndexBelow(nx: nat, n: nat, i: nat, j: nat)
    requires i < nx && j < n
    ensures j * nx + i < nx * n
  {
    var d: nat := n - j - 1;
    assert j * nx + i < (j + 1) * nx;
    assert (j + 1) * nx <= n * nx by {
      assert n * nx == (j + 1) * nx + d * nx;
      assert d * nx >= 0;
    }
  }

  /** A plan with no columns or no rows is empty. */
  lemma GridEmpty(g: GridSpec, nx: nat, ny: nat)
    requires nx == 0 || ny == 0
    ensures Grid(g, nx, ny) == []
  {
    GridSize(g, nx, ny);
  }

  /** Loop bounds at or below zero give an empty plan. */
  lemma NonPositiveBoundsGiveEmptyPlan(g: GridSpec, xSteps: real, ySteps: real)
    requires xSteps <= 0.0 || ySteps <= 0.0
    ensures Grid(g, StepCount(xSteps), StepCount(ySteps)) == []
  {
    GridEmpty(g, StepCount(xSteps), StepCount(ySteps));
  }

  /** Origin (10, 5), 2 x 2 steps of 1 mm and 2 mm, 3 s stay. */
  lemma GridExample()
    ensures Grid(GridSpec(10.0, 5.0, 1.0, 2.0, 3), 2, 2)
      == [Row(10.0, 5.0, 3), Row(11.0, 5.0, 3), Row(10.0, 7.0, 3), Row(11.0, 7.0, 3)]
  {
    var g := GridSpec(10.0, 5.0, 1.0, 2.0, 3);
    assert Sweep(g, 5.0, 2) == [Row(10.0, 5.0, 3), Row(11.0, 5.0, 3)];
    assert Sweep(g, 7.0, 2) == [Row(10.0, 7.0, 3), Row(11.0, 7.0, 3)];
  }
}
