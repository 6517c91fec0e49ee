/**
 * Scene-space vectors, the voxel grid and the axis-locking rule of a drag
 * stroke, shared by both variants of the sculptor.
 */
module Grid {
  import opened Wrappers

  /** Side of one voxel cell in scene units (GRID_SIZE / gridSize). */
  const GRID: real := 1.2

  datatype Vec3 = Vec3(x: real, y: real, z: real)

  const ORIGIN: Vec3 := Vec3(0.0, 0.0, 0.0)

  function Add(a: Vec3, b: Vec3): Vec3 { Vec3(a.x + b.x, a.y + b.y, a.z + b.z) }

  function Sub(a: Vec3, b: Vec3): Vec3 { Vec3(a.x - b.x, a.y - b.y, a.z - b.z) }

  /**
   * A grid cell by its integer index on each axis. The source keys cells by
   * the string `${gx.toFixed(1)},${gy.toFixed(1)},${gz.toFixed(1)}` of the
   * snapped coordinates gx = index * 1.2; the index triple is the same key
   * without the string rendering.
   */
  datatype Cell = Cell(x: int, y: int, z: int)

  datatype Axis = X | Y | Z

  function RAbs(v: real): (r: real)
    ensures r >= 0.0 && (r == v || r == -v)
  {
    if v < 0.0 then -v else v
  }

  /** Scene coordinate of cell index c on one axis. */
  function Coord(c: int): real { c as real * GRID }

  /** Scene position of a cell's centre. */
  function Centre(c: Cell): Vec3 { Vec3(Coord(c.x), Coord(c.y), Coord(c.z)) }

  /** Math.round(v / GRID): JavaScript rounds halves toward +infinity. */
  function Snap(v: real): int { (v / GRID + 0.5).Floor }

  /** Snapping picks, on each axis, a nearest multiple of the grid pitch. */
  lemma SnapNearest(v: real, m: int)
    ensures RAbs(v - Coord(Snap(v))) <= GRID / 2.0
    ensures RAbs(v - Coord(Snap(v))) <= RAbs(v - Coord(m))
  {
    var q := v / GRID;
    var n := Snap(v);
    assert n as real <= q + 0.5 < n as real + 1.0;
    assert v == q * GRID;
    assert v - Coord(n) == (q - n as real) * GRID;
    assert v - Coord(m) == (q - m as real) * GRID;
    if m < n {
      assert m as real <= n as real - 1.0;
    } else if m > n {
      assert m as real >= n as real + 1.0;
    }
  }

  function SnapPoint(v: Vec3): Cell { Cell(Snap(v.x), Snap(v.y), Snap(v.z)) }

  function Component(c: Cell, a: Axis): int
  {
    match a
    case X => c.x
    case Y => c.y
    case Z => c.z
  }

  /** |a - b| in cells. */
  function CellGap(a: int, b: int): nat { if a >= b then a - b else b - a }

  /**
   * Math.abs(gx - start.x) for two snapped coordinates: the displacement in
   * scene units that the dead-zone test compares.
   */
  function Gap(a: int, b: int): real { RAbs(Coord(a) - Coord(b)) }

  /**
   * The dead-zone thresholds the two variants use, read in whole cells: a
   * displacement beyond 0.4 units is any move at all, one beyond 2.0 units
   * is a move of at least two cells.
   */
  lemma DeadZoneInCells(a: int, b: int)
    ensures Gap(a, b) == CellGap(a, b) as real * GRID
    ensures Gap(a, b) > 0.4 <==> CellGap(a, b) >= 1
    ensures Gap(a, b) > 2.0 <==> CellGap(a, b) >= 2
  {
    var k := CellGap(a, b);
    assert Coord(a) - Coord(b) == (a - b) as real * GRID;
    if k >= 2 {
      assert k as real * GRID >= 2.4;
    } else if k == 1 {
      assert k as real * GRID == 1.2;
    }
  }

  /** The displacements on the three axes between a cell and the anchor. */
  function Gaps(g: Cell, anchor: Cell): Vec3
  {
    Vec3(Gap(g.x, anchor.x), Gap(g.y, anchor.y), Gap(g.z, anchor.z))
  }

  /**
   * The axis-locking choice of a drag stroke: no axis while every
   * displacement is within the dead zone; otherwise the axis of largest
   * displacement, ties going to x before y before z.
   */
  function ChooseAxis(d: Vec3, deadZone: real): (r: Option<Axis>)
    ensures r.Some? <==> (d.x > deadZone || d.y > deadZone || d.z > deadZone)
    ensures r == Some(X) ==> d.x >= d.y && d.x >= d.z
    ensures r == Some(Y) ==> d.y > d.x && d.y >= d.z
    ensures r == Some(Z) ==> d.z > d.x && d.z > d.y
  {
    if !(d.x > deadZone || d.y > deadZone || d.z > deadZone) then None
    else if d.x >= d.y && d.x >= d.z then Some(X)
    else if d.y >= d.x && d.y >= d.z then Some(Y)
    else Some(Z)
  }

  /** The cell on the line through `anchor` along `axis` nearest to `g`. */
  function ProjectOnto(anchor: Cell, g: Cell, axis: Axis): (r: Cell)
    ensures Component(r, axis) == Component(g, axis)
    ensures forall b: Axis :: b != axis ==> Component(r, b) == Component(anchor, b)
  {
    match axis
    case X => Cell(g.x, anchor.y, anchor.z)
    case Y => Cell(anchor.x, g.y, anchor.z)
    case Z => Cell(anchor.x, anchor.y, g.z)
  }

  /**
   * `c` lies on the stroke through `anchor`: on its locked line once an
   * axis is locked, and at the anchor itself while none is.
   */
  predicate OnLine(anchor: Cell, c: Cell, axis: Option<Axis>)
  {
    forall b: Axis :: axis != Some(b) ==> Component(c, b) == Component(anchor, b)
  }
}
