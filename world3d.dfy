/**
 * The scene's per-frame logic in the store-based variant: it turns the
 * published hand state into group rotation and drag, maps the right index
 * tip to a grid cell, locks a drag stroke to one axis, and adds sketch
 * voxels or erases committed ones in the store.
 *
 * A frame reads the store as the scene last rendered it (`snap`: hand
 * state, voxels, sketch, mode, group transform) and applies its actions to
 * the live store (`st`). `Frame` is one frame as a function; class
 * `SceneContent` does it in place and is proved to agree with it.
 */
module World3D {
  import opened Wrappers
  import opened Grid
  import opened Hand
  import opened Store

  /** Dead zone of the axis lock, in scene units. */
  const DEAD_ZONE: real := 2.0

  /** Rotation per unit of inter-hand offset, radians per frame. */
  const ROTATE_GAIN: real := 0.02

  /** The scene point under the index tip, before snapping. */
  function TipPoint(tip: Point): Vec3
  {
    Vec3((0.5 - tip.x) * 20.0, (0.5 - tip.y) * 15.0, -tip.z * 20.0)
  }

  /** The grid cell under the right index tip. */
  function Cursor(tip: Point): Cell
  {
    SnapPoint(TipPoint(tip))
  }

  /** The stroke anchor and the locked axis. */
  datatype Logic = Logic(startPinch: Option<Cell>, activeAxis: Option<Axis>)

  const NO_STROKE: Logic := Logic(None, None)

  /** The logic and the live store. */
  datatype Scene = Scene(logic: Logic, store: State)

  /** The cell a frame aims at, with the logic after the axis-locking step. */
  datatype Aim = Aim(logic: Logic, target: Cell)

  /** Two-hand rotation, while the manager reports the rotate hold reached. */
  function Rotation(snap: State, st: State): State
    requires HandStateOk(snap.handState)
  {
    var hs := snap.handState;
    if hs.left.Some? && hs.right.Some? && hs.isRotating then
      var l, r := hs.left.value, hs.right.value;
      var dy := (r[MIDDLE_MCP].x - l[MIDDLE_MCP].x) * ROTATE_GAIN;
      var dx := (r[MIDDLE_MCP].y - l[MIDDLE_MCP].y) * ROTATE_GAIN;
      var rot := snap.groupRotation;
      SetGroupRotation(st, Vec3(rot.x + dx, rot.y + dy, rot.z))
    else st
  }

  /** Grab: the group follows the left hand in x and y; its depth stays. */
  function Drag(snap: State, st: State): State
    requires HandStateOk(snap.handState)
  {
    var hs := snap.handState;
    if hs.left.Some? && hs.isGrabbing then
      var l := hs.left.value;
      SetGroupPosition(st, Vec3((0.5 - l[MIDDLE_MCP].x) * 25.0, (0.5 - l[MIDDLE_MCP].y) * 18.0, snap.groupPosition.z))
    else st
  }

  /**
   * Axis locking: the first building frame anchors the stroke at the raw
   * cell; later ones lock an axis once the cursor leaves the dead zone and
   * then keep only the locked axis of the raw cell; outside a stroke the
   * logic is cleared and the raw cell is the target.
   */
  function Lock(g: Logic, isBuilding: bool, raw: Cell): Aim
  {
    if !isBuilding then Aim(NO_STROKE, raw)
    else if g.startPinch.None? then Aim(Logic(Some(raw), None), raw)
    else
      var start := g.startPinch.value;
      var axis := if g.activeAxis.None? then ChooseAxis(Gaps(raw, start), DEAD_ZONE) else g.activeAxis;
      Aim(Logic(g.startPinch, axis), if axis.None? then raw else ProjectOnto(start, raw, axis.value))
  }

  /** The actions at the target: a guarded sketch insert, then an erase. */
  function Act(snap: State, st: State, key: Cell): State
  {
    var st1 := if snap.handState.isBuilding && key !in snap.voxels && key !in snap.sketchVoxels
      then AddSketchVoxel(st, key, Centre(key)) else st;
    if EraserActiveMode(snap.mode) && key in snap.voxels then RemoveVoxel(st1, key) else st1
  }

  /** `useFrame`: one rendered frame. */
  function Frame(x: Scene, snap: State): Scene
    requires HandStateOk(snap.handState)
  {
    var st := Drag(snap, Rotation(snap, x.store));
    if snap.handState.right.None? then Scene(x.logic, st)
    else
      var a := Lock(x.logic, snap.handState.isBuilding, Cursor(snap.handState.right.value[INDEX_TIP]));
      Scene(a.logic, Act(snap, st, a.target))
  }

  // ---------------------------------------------------------------------
  // Properties of one frame

  /** The cursor picks, on every axis, a nearest grid line to the tip. */
  lemma CursorNearest(tip: Point, other: Cell)
    ensures var p, c := TipPoint(tip), Cursor(tip);
      && RAbs(p.x - Coord(c.x)) <= GRID / 2.0 && RAbs(p.x - Coord(c.x)) <= RAbs(p.x - Coord(other.x))
      && RAbs(p.y - Coord(c.y)) <= GRID / 2.0 && RAbs(p.y - Coord(c.y)) <= RAbs(p.y - Coord(other.y))
      && RAbs(p.z - Coord(c.z)) <= GRID / 2.0 && RAbs(p.z - Coord(c.z)) <= RAbs(p.z - Coord(other.z))
  {
    var p := TipPoint(tip);
    SnapNearest(p.x, other.x);
    SnapNearest(p.y, other.y);
    SnapNearest(p.z, other.z);
  }

  /**
   * The anchor is set on the first building frame and kept for the rest of
   * the stroke; an axis, once locked, is kept; leaving the stroke clears both.
   */
  lemma AnchorFrame(g: Logic, isBuilding: bool, raw: Cell)
    ensures var a := Lock(g, isBuilding, raw);
      && (!isBuilding ==> a.logic == NO_STROKE)
      && (isBuilding && g.startPinch.None? ==> a.logic == Logic(Some(raw), None) && a.target == raw)
      && (isBuilding && g.startPinch.Some? ==> a.logic.startPinch == g.startPinch)
      && (isBuilding && g.startPinch.Some? && g.activeAxis.Some? ==> a.logic.activeAxis == g.activeAxis)
  {
  }

  /**
   * Inside a stroke with no axis yet, an axis is locked exactly when the
   * raw cell is two or more cells from the anchor on some axis, and it is
   * an axis of largest displacement.
   */
  lemma AxisLockFrame(g: Logic, raw: Cell)
    requires g.startPinch.Some? && g.activeAxis.None?
    ensures var a := Lock(g, true, raw);
      var s := g.startPinch.value;
      && (a.logic.activeAxis.Some? <==>
            CellGap(raw.x, s.x) >= 2 || CellGap(raw.y, s.y) >= 2 || CellGap(raw.z, s.z) >= 2)
      && (a.logic.activeAxis == Some(X) ==> CellGap(raw.x, s.x) >= CellGap(raw.y, s.y) && CellGap(raw.x, s.x) >= CellGap(raw.z, s.z))
      && (a.logic.activeAxis == Some(Y) ==> CellGap(raw.y, s.y) > CellGap(raw.x, s.x) && CellGap(raw.y, s.y) >= CellGap(raw.z, s.z))
      && (a.logic.activeAxis == Some(Z) ==> CellGap(raw.z, s.z) > CellGap(raw.x, s.x) && CellGap(raw.z, s.z) > CellGap(raw.y, s.y))
  {
    var s := g.startPinch.value;
    DeadZoneInCells(raw.x, s.x);
    DeadZoneInCells(raw.y, s.y);
    DeadZoneInCells(raw.z, s.z);
  }

  /**
   * Where a stroke frame aims: on the locked line through the anchor, at
   * the raw cell's coordinate along the axis; before any lock, at the raw
   * cell itself, which then lies within one cell of the anchor on every axis.
   */
  lemma TargetOnStroke(g: Logic, raw: Cell)
    requires g.startPinch.Some?
    ensures var a := Lock(g, true, raw);
      var s := g.startPinch.value;
      && (a.logic.activeAxis.Some? ==>
            OnLine(s, a.target, a.logic.activeAxis)
            && Component(a.target, a.logic.activeAxis.value) == Component(raw, a.logic.activeAxis.value))
      && (a.logic.activeAxis.None? ==>
            a.target == raw && CellGap(raw.x, s.x) <= 1 && CellGap(raw.y, s.y) <= 1 && CellGap(raw.z, s.z) <= 1)
  {
    var s := g.startPinch.value;
    if g.activeAxis.None? {
      AxisLockFrame(g, raw);
    }
  }

  /** The logic after a run of building frames at the given raw cells. */
  function Stroke(g: Logic, raws: seq<Cell>): Logic
    decreases |raws|
  {
    if raws == [] then g else Stroke(Lock(g, true, raws[0]).logic, raws[1..])
  }

  /** Through a stroke under way the anchor never moves and a locked axis stays locked. */
  lemma {:induction false} StrokeKeepsAnchor(g: Logic, raws: seq<Cell>)
    requires g.startPinch.Some?
    ensures Stroke(g, raws).startPinch == g.startPinch
    ensures g.activeAxis.Some? ==> Stroke(g, raws).activeAxis == g.activeAxis
    decreases |raws|
  {
    if raws != [] {
      var h := Lock(g, true, raws[0]).logic;
      AnchorFrame(g, true, raws[0]);
      StrokeKeepsAnchor(h, raws[1..]);
    }
  }

  /** A stroke begun from no stroke is anchored at its first cell, whatever follows. */
  lemma StrokeAnchor(g: Logic, raws: seq<Cell>)
    requires g.startPinch.None? && |raws| > 0
    ensures Stroke(g, raws).startPinch == Some(raws[0])
  {
    StrokeKeepsAnchor(Lock(g, true, raws[0]).logic, raws[1..]);
  }

  /** The frame's effect on the voxels and the sketch, for a frame that targets `key`. */
  lemma ActFrame(snap: State, st: State, key: Cell)
    ensures var r := Act(snap, st, key);
      && r.(voxels := st.voxels, sketchVoxels := st.sketchVoxels) == st
      && (snap.handState.isBuilding && key !in snap.voxels && key !in snap.sketchVoxels ==>
            r.sketchVoxels == st.sketchVoxels[key := Voxel(Centre(key), Sketch)])
      && (!(snap.handState.isBuilding && key !in snap.voxels && key !in snap.sketchVoxels) ==>
            r.sketchVoxels == st.sketchVoxels)
      && (EraserActiveMode(snap.mode) && key in snap.voxels ==> r.voxels == st.voxels - {key})
      && (!(EraserActiveMode(snap.mode) && key in snap.voxels) ==> r.voxels == st.voxels)
  {
  }

  /**
   * Reading and writing the same store, a frame never overwrites a sketch
   * voxel, never turns a committed cell into a sketch cell, erases at most
   * the targeted committed voxel and keeps the two sets disjoint.
   */
  lemma FrameGuards(x: Scene)
    requires HandStateOk(x.store.handState)
    ensures var y := Frame(x, x.store);
      && (forall k :: k in x.store.sketchVoxels ==> k in y.store.sketchVoxels && y.store.sketchVoxels[k] == x.store.sketchVoxels[k])
      && (forall k :: k in y.store.sketchVoxels && k !in x.store.sketchVoxels ==> k !in x.store.voxels)
      && y.store.voxels.Keys <= x.store.voxels.Keys
      && |x.store.voxels.Keys - y.store.voxels.Keys| <= 1
      && (forall k :: k in y.store.voxels ==> y.store.voxels[k] == x.store.voxels[k])
      && (Disjoint(x.store) ==> Disjoint(y.store))
  {
    var st := Drag(x.store, Rotation(x.store, x.store));
    assert st.voxels == x.store.voxels && st.sketchVoxels == x.store.sketchVoxels;
    if x.store.handState.right.Some? {
      var a := Lock(x.logic, x.store.handState.isBuilding, Cursor(x.store.handState.right.value[INDEX_TIP]));
      ActFrame(x.store, st, a.target);
      assert x.store.voxels.Keys - Frame(x, x.store).store.voxels.Keys <= {a.target};
    }
  }

  /**
   * Outside the two-hand gestures nothing moves the group: rotation changes
   * x and y by the inter-hand offsets and keeps z; the grab keeps the depth.
   */
  lemma TransformFrame(x: Scene, snap: State)
    requires HandStateOk(snap.handState)
    ensures var y := Frame(x, snap);
      var hs := snap.handState;
      && (hs.left.Some? && hs.right.Some? && hs.isRotating ==>
            y.store.groupRotation == Vec3(
              snap.groupRotation.x + (hs.right.value[MIDDLE_MCP].y - hs.left.value[MIDDLE_MCP].y) * ROTATE_GAIN,
              snap.groupRotation.y + (hs.right.value[MIDDLE_MCP].x - hs.left.value[MIDDLE_MCP].x) * ROTATE_GAIN,
              snap.groupRotation.z))
      && (!(hs.left.Some? && hs.right.Some? && hs.isRotating) ==> y.store.groupRotation == x.store.groupRotation)
      && (hs.left.Some? && hs.isGrabbing ==>
            y.store.groupPosition.z == snap.groupPosition.z
            && y.store.groupPosition.x == (0.5 - hs.left.value[MIDDLE_MCP].x) * 25.0
            && y.store.groupPosition.y == (0.5 - hs.left.value[MIDDLE_MCP].y) * 18.0)
      && (!(hs.left.Some? && hs.isGrabbing) ==> y.store.groupPosition == x.store.groupPosition)
      && y.store.(groupRotation := x.store.groupRotation, groupPosition := x.store.groupPosition,
                  voxels := x.store.voxels, sketchVoxels := x.store.sketchVoxels) == x.store
  {
    var st := Drag(snap, Rotation(snap, x.store));
    if snap.handState.right.Some? {
      var a := Lock(x.logic, snap.handState.isBuilding, Cursor(snap.handState.right.value[INDEX_TIP]));
      ActFrame(snap, st, a.target);
    }
  }

  /** Without a right hand the logic, the voxels and the sketch are left alone. */
  lemma NoRightHand(x: Scene, snap: State)
    requires HandStateOk(snap.handState) && snap.handState.right.None?
    ensures Frame(x, snap).logic == x.logic
    ensures Frame(x, snap).store.voxels == x.store.voxels
    ensures Frame(x, snap).store.sketchVoxels == x.store.sketchVoxels
  {
  }

  // ---------------------------------------------------------------------
  // The scene's logic state, updated in place

  class SceneContent {
    var startPinch: Option<Cell>
    var activeAxis: Option<Axis>

    function LogicState(): Logic
      reads this
    {
      Logic(startPinch, activeAxis)
    }

    constructor ()
      ensures LogicState() == NO_STROKE
    {
      startPinch, activeAxis := None, None;
    }

    /** Steps 1 and the grab: the group transform. */
    method MoveGroup(snap: State, st: State) returns (st': State)
      requires HandStateOk(snap.handState)
      ensures st' == Drag(snap, Rotation(snap, st))
    {
      st' := st;
      var hs := snap.handState;
      if hs.left.Some? && hs.right.Some? && hs.isRotating {
        var rHand, lHand := hs.right.value, hs.left.value;
        var dy := (rHand[MIDDLE_MCP].x - lHand[MIDDLE_MCP].x) * ROTATE_GAIN;
        var dx := (rHand[MIDDLE_MCP].y - lHand[MIDDLE_MCP].y) * ROTATE_GAIN;
        st' := SetGroupRotation(st', Vec3(snap.groupRotation.x + dx, snap.groupRotation.y + dy, snap.groupRotation.z));
      }
      if hs.left.Some? && hs.isGrabbing {
        var lHand := hs.left.value;
        var target := Vec3((0.5 - lHand[MIDDLE_MCP].x) * 25.0, (0.5 - lHand[MIDDLE_MCP].y) * 18.0, 0.0);
        st' := SetGroupPosition(st', Vec3(target.x, target.y, snap.groupPosition.z));
      }
    }

    /** Axis locking on the logic fields; returns the target cell. */
    method LockAxis(isBuilding: bool, raw: Cell) returns (target: Cell)
      modifies this
      ensures Aim(LogicState(), target) == Lock(old(LogicState()), isBuilding, raw)
    {
      target := raw;
      if isBuilding {
        if startPinch.None? {
          startPinch, activeAxis := Some(raw), None;
        } else {
          var start := startPinch.value;
          var d := Gaps(raw, start);
          if activeAxis.None? && (d.x > DEAD_ZONE || d.y > DEAD_ZONE || d.z > DEAD_ZONE) {
            activeAxis := ChooseAxis(d, DEAD_ZONE);
          }
          if activeAxis == Some(X) { target := target.(y := start.y, z := start.z); }
          else if activeAxis == Some(Y) { target := target.(x := start.x, z := start.z); }
          else if activeAxis == Some(Z) { target := target.(x := start.x, y := start.y); }
        }
      } else {
        startPinch, activeAxis := None, None;
      }
    }

    method UseFrame(snap: State, st: State) returns (st': State)
      requires HandStateOk(snap.handState)
      modifies this
      ensures Scene(LogicState(), st') == Frame(Scene(old(LogicState()), st), snap)
    {
      st' := MoveGroup(snap, st);
      if snap.handState.right.None? {
        return;
      }
      var indexTip := snap.handState.right.value[INDEX_TIP];
      var raw := SnapPoint(Vec3((0.5 - indexTip.x) * 20.0, (0.5 - indexTip.y) * 15.0, -indexTip.z * 20.0));
      var key := LockAxis(snap.handState.isBuilding, raw);
      if snap.handState.isBuilding {
        if key !in snap.voxels && key !in snap.sketchVoxels {
          st' := AddSketchVoxel(st', key, Centre(key));
        }
      }
      if EraserActiveMode(snap.mode) {
        if key in snap.voxels {
          st' := RemoveVoxel(st', key);
        }
      }
    }
  }
}
