/**
 * The standalone variant: one component that keeps all gesture state in a
 * mutable record, edits a sketch group and a map of placed cubes directly,
 * and moves a scene group. `Step` is what one tracker callback does to that
 * state; class `App` does it in place and is proved to agree with `Step`.
 */
module VoxelApp {
  import opened Wrappers
  import opened Grid
  import opened Hand
  import opened Hold

  const GRAB_HOLD: int := 500
  const INTENT_HOLD: int := 500
  const RESET_HOLD: int := 1000
  const ROTATE_HOLD: int := 1000
  const CYCLE_HOLD: int := 500
  /** PINCH_THRESHOLD = 0.05, squared so that no square root is needed. */
  const PINCH_THRESHOLD_SQ: real := 0.0025
  /** Number of entries of VOXEL_PALETTE. */
  const PALETTE_SIZE: int := 7
  /** Displacement (scene units) beyond which a drag stroke locks an axis. */
  const DEAD_ZONE: real := 0.4

  /** The text the mode label shows. */
  datatype ModeText =
    | Initializing | CyclingColor | Resetting | ResetComplete | EnablingRotate | RotatingModel
    | Grabbed | Scanning | LockingEraser | Erasing | SyncingBuild | Building | Ready

  /** The scene group's position and Euler rotation. */
  datatype Transform = Transform(position: Vec3, rotation: Vec3)

  const IDENTITY: Transform := Transform(ORIGIN, ORIGIN)

  /** The scene group's `worldToLocal`, supplied by the renderer. */
  type ToLocal = (Transform, Vec3) -> Vec3

  /**
   * Squared `getDist`: depth counts only when both z values are non-zero
   * (the source tests `p1.z && p2.z`).
   */
  function DistSq(p: Point, q: Point): real
  {
    (p.x - q.x) * (p.x - q.x) + (p.y - q.y) * (p.y - q.y)
    + (if p.z != 0.0 && q.z != 0.0 then (p.z - q.z) * (p.z - q.z) else 0.0)
  }

  predicate Pinching(h: seq<Point>)
    requires IsHand(h)
  {
    DistSq(h[THUMB_TIP], h[INDEX_TIP]) < PINCH_THRESHOLD_SQ
  }

  /** The left-hand block's own palm test, which does not look at the pinky. */
  predicate IndexMiddleUp(h: seq<Point>)
    requires IsHand(h)
  {
    Up(h, INDEX_TIP, INDEX_PIP) && Up(h, MIDDLE_TIP, MIDDLE_PIP)
  }

  /** `isPeace(h)`: false for an absent hand. */
  predicate PeaceShown(h: Option<seq<Point>>)
    requires HandOk(h)
  {
    h.Some? && IsPeace(h.value)
  }

  predicate LeftPinching(l: Option<seq<Point>>)
    requires HandOk(l)
  {
    l.Some? && Pinching(l.value)
  }

  /** Scene position of the left hand used for grabbing (landmark 9). */
  function HandWorldPos(h: seq<Point>): Vec3
    requires IsHand(h)
  {
    Vec3((0.5 - h[MIDDLE_MCP].x) * 25.0, (0.5 - h[MIDDLE_MCP].y) * 18.0, 0.0)
  }

  /** Scene position of the right index tip. */
  function TipWorldPos(tip: Point): Vec3
  {
    Vec3((0.5 - tip.x) * 25.0, (0.5 - tip.y) * 18.0, -tip.z * 25.0)
  }

  /** One frame of two-palm rotation: yaw and pitch move, roll stays. */
  function Rotated(rot: Vec3, l: seq<Point>, r: seq<Point>): Vec3
    requires IsHand(l) && IsHand(r)
  {
    Vec3(rot.x + (r[MIDDLE_MCP].y - l[MIDDLE_MCP].y) * 0.05,
         rot.y + (r[MIDDLE_MCP].x - l[MIDDLE_MCP].x - 0.5) * 0.05,
         rot.z)
  }

  /** Everything one callback reads and writes. */
  datatype AppState = AppState(
    isGrabbing: bool, grabTimer: int, grabOffset: Vec3,
    isBuilding: bool, buildTimer: int,
    isErasing: bool, eraseTimer: int,
    resetTimer: int, rotateTimer: int, cycleTimer: int,
    colorIdx: int,
    startPinchPos: Option<Cell>, activeAxis: Option<Axis>,
    sketchKeys: set<Cell>,
    /** The cells of the sketch group's meshes, in the order they were added. */
    sketch: seq<Cell>,
    /** Placed cubes by key, each with the palette index it was created with. */
    placed: map<Cell, int>,
    group: Transform,
    mode: ModeText,
    hands: Pair)

  const INITIAL: AppState := AppState(
    false, 0, ORIGIN, false, 0, false, 0, 0, 0, 0, 0, None, None, {}, [], map[], IDENTITY,
    Initializing, Pair([], []))

  /**
   * The state every callback keeps: each timer a whole number of 16 ms ticks
   * at most 15 past its hold constant, a valid palette index, an anchor
   * whenever a stroke is active, and stored landmarks of the right size.
   */
  predicate Inv(s: AppState)
  {
    && TimerOk(s.grabTimer, Cap(GRAB_HOLD))
    && TimerOk(s.buildTimer, Cap(INTENT_HOLD))
    && TimerOk(s.eraseTimer, Cap(INTENT_HOLD))
    && TimerOk(s.resetTimer, Cap(RESET_HOLD))
    && TimerOk(s.rotateTimer, Cap(ROTATE_HOLD))
    && TimerOk(s.cycleTimer, Cap(CYCLE_HOLD))
    && 0 <= s.colorIdx < PALETTE_SIZE
    && (s.isBuilding ==> s.startPinchPos.Some?)
    && StoredOk(s.hands.left) && StoredOk(s.hands.right)
  }

  lemma InitialInv()
    ensures Inv(INITIAL)
  {
  }

  // ---------------------------------------------------------------------
  // Sketch and placed cubes

  /** `addSketchVoxel`: a key already sketched or placed is left alone. */
  function AddSketch(s: AppState, c: Cell): AppState
  {
    if c in s.sketchKeys || c in s.placed then s
    else s.(sketchKeys := s.sketchKeys + {c}, sketch := s.sketch + [c])
  }

  lemma AddSketchProperties(s: AppState, c: Cell)
    ensures c in s.sketchKeys || c in s.placed ==> AddSketch(s, c) == s
    ensures c !in s.sketchKeys && c !in s.placed ==>
      AddSketch(s, c) == s.(sketchKeys := s.sketchKeys + {c}, sketch := s.sketch + [c])
    ensures AddSketch(AddSketch(s, c), c) == AddSketch(s, c)
  {
  }

  /** Moves the sketch meshes one by one, front first, into `placed`. */
  function Drain(placed: map<Cell, int>, children: seq<Cell>, color: int): map<Cell, int>
    decreases |children|
  {
    if children == [] then placed else Drain(placed[children[0] := color], children[1..], color)
  }

  /**
   * Draining adds every sketch cell under its own key with the current
   * colour and keeps every other placed cube.
   */
  lemma {:induction false} DrainContents(placed: map<Cell, int>, children: seq<Cell>, color: int)
    ensures Drain(placed, children, color).Keys == placed.Keys + set c | c in children
    ensures forall c :: c in children ==> Drain(placed, children, color)[c] == color
    ensures forall c :: c in placed && c !in children ==> Drain(placed, children, color)[c] == placed[c]
    decreases |children|
  {
    if children != [] {
      DrainContents(placed[children[0] := color], children[1..], color);
      assert forall c :: c in children <==> c == children[0] || c in children[1..];
    }
  }

  /** `commitVoxels`: every sketch mesh becomes a placed cube, sketch emptied. */
  function Commit(s: AppState): AppState
  {
    s.(placed := Drain(s.placed, s.sketch, s.colorIdx), sketch := [])
  }

  // ---------------------------------------------------------------------
  // One callback

  /** The callback carried no hand list at all. */
  function NoHands(s: AppState): AppState
  {
    s.(isGrabbing := false, isBuilding := false, isErasing := false,
       grabTimer := 0, buildTimer := 0, eraseTimer := 0, resetTimer := 0, rotateTimer := 0)
  }

  function CycleColor(s: AppState): AppState
  {
    if s.cycleTimer < CYCLE_HOLD then s.(cycleTimer := s.cycleTimer + TICK, mode := CyclingColor)
    else s.(colorIdx := (s.colorIdx + 1) % PALETTE_SIZE, cycleTimer := 0)
  }

  function HardReset(s: AppState): AppState
  {
    var s1 := s.(rotateTimer := 0);
    if s1.resetTimer < RESET_HOLD then s1.(resetTimer := s1.resetTimer + TICK, mode := Resetting)
    else s1.(group := IDENTITY, mode := ResetComplete)
  }

  function Rotate(s: AppState, l: seq<Point>, r: seq<Point>): AppState
    requires IsHand(l) && IsHand(r)
  {
    if s.rotateTimer < ROTATE_HOLD then s.(rotateTimer := s.rotateTimer + TICK, mode := EnablingRotate)
    else s.(mode := RotatingModel, group := s.group.(rotation := Rotated(s.group.rotation, l, r)))
  }

  /** The left-hand block: it touches only the grab state, the group and the mode. */
  function LeftHand(s: AppState, l: Option<seq<Point>>): (t: AppState)
    requires HandOk(l)
    ensures t.(isGrabbing := s.isGrabbing, grabTimer := s.grabTimer, grabOffset := s.grabOffset,
               group := s.group, mode := s.mode) == s
  {
    if l.None? then s
    else
      var h := l.value;
      var handWorldPos := HandWorldPos(h);
      if IsFist(h) then
        if s.grabTimer < GRAB_HOLD then s.(grabTimer := s.grabTimer + TICK)
        else
          var s1 := if !s.isGrabbing then s.(grabOffset := Sub(s.group.position, handWorldPos), isGrabbing := true) else s;
          s1.(group := s1.group.(position := Add(handWorldPos, s1.grabOffset)), mode := Grabbed)
      else
        var s1 := s.(isGrabbing := false, grabTimer := 0);
        if IndexMiddleUp(h) then s1.(mode := Scanning) else s1
  }

  /** The cell under the right index tip, in the group's local grid. */
  function Cursor(s: AppState, h: seq<Point>, toLocal: ToLocal): Cell
    requires IsHand(h)
  {
    SnapPoint(toLocal(s.group, TipWorldPos(h[INDEX_TIP])))
  }

  /** The cell a stroke inserts: the anchor, moved along the locked axis only. */
  function StrokeTarget(anchor: Cell, g: Cell, axis: Option<Axis>): Cell
  {
    if axis.None? then anchor else ProjectOnto(anchor, g, axis.value)
  }

  /** One frame of an active drag stroke. */
  function Extend(s: AppState, g: Cell): AppState
    requires s.startPinchPos.Some?
  {
    var anchor := s.startPinchPos.value;
    var axis := if s.activeAxis.None? then ChooseAxis(Gaps(g, anchor), DEAD_ZONE) else s.activeAxis;
    AddSketch(s.(activeAxis := axis), StrokeTarget(anchor, g, axis))
  }

  /**
   * The right-hand block: it touches only the build and erase intents and
   * timers, the stroke, the sketch, the placed cubes and the mode.
   */
  function RightHand(s: AppState, lPinching: bool, r: Option<seq<Point>>, toLocal: ToLocal): (t: AppState)
    requires HandOk(r) && (s.isBuilding ==> s.startPinchPos.Some?)
    ensures t.(isBuilding := s.isBuilding, buildTimer := s.buildTimer, isErasing := s.isErasing,
               eraseTimer := s.eraseTimer, startPinchPos := s.startPinchPos, activeAxis := s.activeAxis,
               sketchKeys := s.sketchKeys, sketch := s.sketch, placed := s.placed, mode := s.mode) == s
    ensures t.isBuilding ==> t.startPinchPos.Some?
  {
    if r.None? then s
    else
      var h := r.value;
      var palmOpen := IsPalm(h);
      var g := Cursor(s, h, toLocal);
      if lPinching && IsPointing(h) && !palmOpen then
        var s1 := s.(buildTimer := 0);
        if s1.eraseTimer < INTENT_HOLD then s1.(eraseTimer := s1.eraseTimer + TICK, mode := LockingEraser)
        else s1.(isErasing := true, placed := if g in s1.placed then s1.placed - {g} else s1.placed, mode := Erasing)
      else if Pinching(h) && !s.isGrabbing && !palmOpen then
        var s1 := s.(eraseTimer := 0);
        if s1.buildTimer < INTENT_HOLD then s1.(buildTimer := s1.buildTimer + TICK, mode := SyncingBuild)
        else
          var s2 := if !s1.isBuilding
            then s1.(startPinchPos := Some(g), sketchKeys := {}, isBuilding := true, activeAxis := None)
            else Extend(s1, g);
          s2.(mode := Building)
      else if palmOpen then
        var s1 := if s.isBuilding then Commit(s) else s;
        s1.(isBuilding := false, isErasing := false, buildTimer := 0, eraseTimer := 0, mode := Ready)
      else s
  }

  /** Peace sign first, then the two-hand gestures, then the single hands. */
  function Cascade(s: AppState, l: Option<seq<Point>>, r: Option<seq<Point>>, toLocal: ToLocal): AppState
    requires HandOk(l) && HandOk(r) && (s.isBuilding ==> s.startPinchPos.Some?)
  {
    if PeaceShown(l) || PeaceShown(r) then CycleColor(s)
    else NoPeace(s.(cycleTimer := 0), l, r, toLocal)
  }

  /** The cascade after the peace check: two-hand gestures, then the single hands. */
  function NoPeace(s: AppState, l: Option<seq<Point>>, r: Option<seq<Point>>, toLocal: ToLocal): AppState
    requires HandOk(l) && HandOk(r) && (s.isBuilding ==> s.startPinchPos.Some?)
  {
    if BothFists(l, r) then HardReset(s)
    else if BothPalms(l, r) then Rotate(s.(resetTimer := 0), l.value, r.value)
    else OneHanded(s.(resetTimer := 0, rotateTimer := 0), l, r, toLocal)
  }

  /** The left-hand block, then the right-hand block seeing the left pinch. */
  function OneHanded(s: AppState, l: Option<seq<Point>>, r: Option<seq<Point>>, toLocal: ToLocal): AppState
    requires HandOk(l) && HandOk(r) && (s.isBuilding ==> s.startPinchPos.Some?)
  {
    RightHand(LeftHand(s, l), LeftPinching(l), r, toLocal)
  }

  /** `onResults`: one tracker callback. */
  function Step(s: AppState, results: Option<seq<HandFrame>>, toLocal: ToLocal): AppState
    requires Inv(s) && ResultsOk(results)
  {
    match results
    case None => NoHands(s)
    case Some(hands) =>
      var p := SmoothAll(s.hands, hands);
      SmoothAllLabels(s.hands, hands);
      Cascade(s.(hands := p), Reported(p, hands, Left), Reported(p, hands, Right), toLocal)
  }

  // ---------------------------------------------------------------------
  // Properties of one callback

  /** A callback with a hand list runs the cascade on the smoothed hands. */
  lemma StepUnfold(s: AppState, hands: seq<HandFrame>, toLocal: ToLocal)
    requires Inv(s) && FrameOk(hands)
    ensures var p := SmoothAll(s.hands, hands);
      && HandOk(Reported(p, hands, Left)) && HandOk(Reported(p, hands, Right))
      && Inv(s.(hands := p))
      && Step(s, Some(hands), toLocal)
         == Cascade(s.(hands := p), Reported(p, hands, Left), Reported(p, hands, Right), toLocal)
  {
    SmoothAllLabels(s.hands, hands);
  }

  lemma LeftHandKeepsInv(s: AppState, l: Option<seq<Point>>)
    requires Inv(s) && HandOk(l)
    ensures Inv(LeftHand(s, l))
  {
  }

  lemma RightHandKeepsInv(s: AppState, lPinching: bool, r: Option<seq<Point>>, toLocal: ToLocal)
    requires Inv(s) && HandOk(r)
    ensures Inv(RightHand(s, lPinching, r, toLocal))
  {
    if r.Some? {
      var h := r.value;
      var t := RightHand(s, lPinching, r, toLocal);
      if lPinching && IsPointing(h) && !IsPalm(h) {
        assert TimerOk(t.eraseTimer, Cap(INTENT_HOLD)) && t.buildTimer == 0;
      } else if Pinching(h) && !s.isGrabbing && !IsPalm(h) {
        if s.isBuilding && s.buildTimer >= INTENT_HOLD {
          var g := Cursor(s, h, toLocal);
          assert Inv(Extend(s.(eraseTimer := 0), g));
        }
        assert TimerOk(t.buildTimer, Cap(INTENT_HOLD)) && t.eraseTimer == 0;
      }
    }
  }

  lemma OneHandedKeepsInv(s: AppState, l: Option<seq<Point>>, r: Option<seq<Point>>, toLocal: ToLocal)
    requires Inv(s) && HandOk(l) && HandOk(r)
    ensures Inv(OneHanded(s, l, r, toLocal))
  {
    LeftHandKeepsInv(s, l);
    RightHandKeepsInv(LeftHand(s, l), LeftPinching(l), r, toLocal);
  }

  lemma NoPeaceKeepsInv(s: AppState, l: Option<seq<Point>>, r: Option<seq<Point>>, toLocal: ToLocal)
    requires Inv(s) && HandOk(l) && HandOk(r)
    ensures Inv(NoPeace(s, l, r, toLocal))
  {
    if !BothFists(l, r) && !BothPalms(l, r) {
      OneHandedKeepsInv(s.(resetTimer := 0, rotateTimer := 0), l, r, toLocal);
    }
  }

  lemma CascadeKeepsInv(s: AppState, l: Option<seq<Point>>, r: Option<seq<Point>>, toLocal: ToLocal)
    requires Inv(s) && HandOk(l) && HandOk(r)
    ensures Inv(Cascade(s, l, r, toLocal))
  {
    if !(PeaceShown(l) || PeaceShown(r)) {
      NoPeaceKeepsInv(s.(cycleTimer := 0), l, r, toLocal);
    }
  }

  /** Every callback keeps the state invariant, timer bounds included. */
  lemma StepKeepsInv(s: AppState, results: Option<seq<HandFrame>>, toLocal: ToLocal)
    requires Inv(s) && ResultsOk(results)
    ensures Inv(Step(s, results, toLocal))
  {
    if results.Some? {
      var hands := results.value;
      StepUnfold(s, hands, toLocal);
      var p := SmoothAll(s.hands, hands);
      CascadeKeepsInv(s.(hands := p), Reported(p, hands, Left), Reported(p, hands, Right), toLocal);
    }
  }

  /** A frame with no hand list clears the intents and five timers, not the cycle timer. */
  lemma NoHandsFrame(s: AppState, toLocal: ToLocal)
    requires Inv(s)
    ensures var t := Step(s, None, toLocal);
      && !t.isGrabbing && !t.isBuilding && !t.isErasing
      && t.grabTimer == 0 && t.buildTimer == 0 && t.eraseTimer == 0
      && t.resetTimer == 0 && t.rotateTimer == 0
      && t.cycleTimer == s.cycleTimer
      && t.placed == s.placed && t.sketch == s.sketch && t.sketchKeys == s.sketchKeys
  {
  }

  /**
   * A peace sign on either hand only touches the cycle timer and the colour:
   * below the hold it adds one tick, at confirmation it advances the palette
   * index modulo the palette size and re-arms the timer.
   */
  lemma PeaceFrame(s: AppState, l: Option<seq<Point>>, r: Option<seq<Point>>, toLocal: ToLocal)
    requires HandOk(l) && HandOk(r) && (s.isBuilding ==> s.startPinchPos.Some?)
    requires PeaceShown(l) || PeaceShown(r)
    ensures var t := Cascade(s, l, r, toLocal);
      && t.(cycleTimer := s.cycleTimer, colorIdx := s.colorIdx, mode := s.mode) == s
      && (s.cycleTimer < CYCLE_HOLD ==> t.cycleTimer == s.cycleTimer + TICK && t.colorIdx == s.colorIdx)
      && (s.cycleTimer >= CYCLE_HOLD ==> t.cycleTimer == 0 && t.colorIdx == (s.colorIdx + 1) % PALETTE_SIZE)
  {
  }

  /** Any frame without a peace sign re-arms the cycle timer and keeps the colour. */
  lemma NoPeaceFrame(s: AppState, l: Option<seq<Point>>, r: Option<seq<Point>>, toLocal: ToLocal)
    requires HandOk(l) && HandOk(r) && (s.isBuilding ==> s.startPinchPos.Some?)
    requires !PeaceShown(l) && !PeaceShown(r)
    ensures Cascade(s, l, r, toLocal).cycleTimer == 0
    ensures Cascade(s, l, r, toLocal).colorIdx == s.colorIdx
  {
  }

  /**
   * Both fists (and no peace sign): the rotate timer is zeroed and nothing
   * else runs; the reset timer keeps counting and is not zeroed at
   * confirmation, where only the group transform returns to the identity
   * and the placed cubes stay.
   */
  lemma BothFistsFrame(s: AppState, l: Option<seq<Point>>, r: Option<seq<Point>>, toLocal: ToLocal)
    requires HandOk(l) && HandOk(r) && (s.isBuilding ==> s.startPinchPos.Some?)
    requires !PeaceShown(l) && !PeaceShown(r) && BothFists(l, r)
    ensures var t := Cascade(s, l, r, toLocal);
      && t.cycleTimer == 0 && t.rotateTimer == 0
      && t.resetTimer == Tick(s.resetTimer, RESET_HOLD)
      && t.placed == s.placed && t.sketch == s.sketch && t.sketchKeys == s.sketchKeys
      && t.isBuilding == s.isBuilding && t.isErasing == s.isErasing && t.isGrabbing == s.isGrabbing
      && t.(cycleTimer := s.cycleTimer, rotateTimer := s.rotateTimer, resetTimer := s.resetTimer,
            group := s.group, mode := s.mode) == s
      && (s.resetTimer >= RESET_HOLD ==> t.group == IDENTITY)
      && (s.resetTimer < RESET_HOLD ==> t.group == s.group)
  {
  }

  /**
   * Both palms (and no peace sign): the reset timer is zeroed and nothing
   * else runs; below the hold the rotate timer ticks, and past it the group
   * turns by the inter-hand offsets about x and y while its position and its
   * z rotation stay.
   */
  lemma BothPalmsFrame(s: AppState, l: Option<seq<Point>>, r: Option<seq<Point>>, toLocal: ToLocal)
    requires HandOk(l) && HandOk(r) && (s.isBuilding ==> s.startPinchPos.Some?)
    requires !PeaceShown(l) && !PeaceShown(r) && BothPalms(l, r)
    ensures var t := Cascade(s, l, r, toLocal);
      && t.(cycleTimer := s.cycleTimer, rotateTimer := s.rotateTimer, resetTimer := s.resetTimer,
            group := s.group, mode := s.mode) == s
      && t.cycleTimer == 0 && t.resetTimer == 0
      && t.rotateTimer == Tick(s.rotateTimer, ROTATE_HOLD)
      && t.group.position == s.group.position && t.group.rotation.z == s.group.rotation.z
      && (s.rotateTimer < ROTATE_HOLD ==> t.group == s.group)
      && (s.rotateTimer >= ROTATE_HOLD ==> t.group.rotation == Rotated(s.group.rotation, l.value, r.value))
  {
    TwoHandGesturesExclusive(l, r);
  }

  /**
   * Grab: while the fist is held below the hold only the timer moves; the
   * confirming frame latches the offset so that the group does not jump;
   * releasing the fist drops the grab and re-arms its timer.
   */
  lemma GrabFrame(s: AppState, h: seq<Point>)
    requires IsHand(h)
    ensures var t := LeftHand(s, Some(h));
      && (IsFist(h) && s.grabTimer < GRAB_HOLD ==> t == s.(grabTimer := s.grabTimer + TICK))
      && (IsFist(h) && s.grabTimer >= GRAB_HOLD && !s.isGrabbing ==>
            t.isGrabbing && t.group.position == s.group.position)
      && (IsFist(h) && s.grabTimer >= GRAB_HOLD && s.isGrabbing ==>
            t.group.position == Add(HandWorldPos(h), s.grabOffset))
      && (!IsFist(h) ==> !t.isGrabbing && t.grabTimer == 0)
  {
  }

  /**
   * Erase wins over build: with the left hand pinching and the right hand
   * pointing but not open, the build timer is zeroed and, once confirmed,
   * the placed cube under the cursor is deleted if there is one; nothing
   * else is ever removed.
   */
  lemma EraseFrame(s: AppState, r: seq<Point>, toLocal: ToLocal)
    requires IsHand(r) && (s.isBuilding ==> s.startPinchPos.Some?)
    requires IsPointing(r) && !IsPalm(r)
    ensures var t := RightHand(s, true, Some(r), toLocal);
      var g := Cursor(s, r, toLocal);
      && t.buildTimer == 0
      && t.isBuilding == s.isBuilding && t.sketch == s.sketch && t.sketchKeys == s.sketchKeys
      && (s.eraseTimer < INTENT_HOLD ==> t.placed == s.placed && t.eraseTimer == s.eraseTimer + TICK)
      && (s.eraseTimer >= INTENT_HOLD ==> t.isErasing && t.placed == s.placed - {g})
      && (g !in s.placed ==> t.placed == s.placed)
  {
  }

  /**
   * Build, when the erase condition does not hold: the erase timer is
   * zeroed; the first confirmed frame starts a stroke (anchor at the cursor,
   * no axis, sketch keys cleared) and later frames extend it.
   */
  lemma BuildFrame(s: AppState, lPinching: bool, r: seq<Point>, toLocal: ToLocal)
    requires IsHand(r) && (s.isBuilding ==> s.startPinchPos.Some?)
    requires !(lPinching && IsPointing(r) && !IsPalm(r))
    requires Pinching(r) && !s.isGrabbing && !IsPalm(r)
    ensures var t := RightHand(s, lPinching, Some(r), toLocal);
      var g := Cursor(s, r, toLocal);
      && t.eraseTimer == 0 && t.placed == s.placed
      && (s.buildTimer < INTENT_HOLD ==> t.sketch == s.sketch && t.buildTimer == s.buildTimer + TICK)
      && (s.buildTimer >= INTENT_HOLD && !s.isBuilding ==>
            t.isBuilding && t.startPinchPos == Some(g) && t.activeAxis == None
            && t.sketchKeys == {} && t.sketch == s.sketch)
      && (s.buildTimer >= INTENT_HOLD && s.isBuilding ==>
            t.isBuilding && t.startPinchPos == s.startPinchPos)
  {
  }

  /**
   * One frame of an active stroke keeps the anchor, keeps a locked axis,
   * locks one by the dead-zone rule if none is locked, and adds only cells
   * on the stroke.
   */
  lemma ExtendOnLine(s: AppState, g: Cell)
    requires s.startPinchPos.Some?
    ensures var t := Extend(s, g);
      && t.startPinchPos == s.startPinchPos
      && (s.activeAxis.Some? ==> t.activeAxis == s.activeAxis)
      && (s.activeAxis.None? ==> t.activeAxis == ChooseAxis(Gaps(g, s.startPinchPos.value), DEAD_ZONE))
      && (forall c :: c in t.sketchKeys && c !in s.sketchKeys ==> OnLine(s.startPinchPos.value, c, t.activeAxis))
      && (forall c :: c in t.sketch && c !in s.sketch ==> OnLine(s.startPinchPos.value, c, t.activeAxis))
  {
    var anchor := s.startPinchPos.value;
    var axis := if s.activeAxis.None? then ChooseAxis(Gaps(g, anchor), DEAD_ZONE) else s.activeAxis;
    var c := StrokeTarget(anchor, g, axis);
    assert OnLine(anchor, c, axis);
  }

  /** What a stroke may do in one frame, in terms of the state before it. */
  ghost predicate StrokeRules(s: AppState, t: AppState, palmOpen: bool)
  {
    && (t.startPinchPos != s.startPinchPos ==> !s.isBuilding && t.isBuilding)
    && (t.activeAxis != s.activeAxis ==>
          (!s.isBuilding && t.isBuilding && t.activeAxis.None?)
          || (s.isBuilding && t.isBuilding && s.activeAxis.None? && t.activeAxis.Some?))
    && (forall c :: c in t.sketchKeys && c !in s.sketchKeys ==>
          t.isBuilding && t.startPinchPos.Some? && OnLine(t.startPinchPos.value, c, t.activeAxis))
    && (s.isBuilding && !t.isBuilding ==>
          && palmOpen
          && t.placed == Drain(s.placed, s.sketch, s.colorIdx) && t.sketch == []
          && !t.isErasing && t.buildTimer == 0 && t.eraseTimer == 0)
    && (s.isErasing && !t.isErasing ==> palmOpen && t.buildTimer == 0 && t.eraseTimer == 0)
  }

  lemma RightHandStroke(s: AppState, lPinching: bool, r: Option<seq<Point>>, toLocal: ToLocal)
    requires HandOk(r) && (s.isBuilding ==> s.startPinchPos.Some?)
    ensures StrokeRules(s, RightHand(s, lPinching, r, toLocal), r.Some? && IsPalm(r.value))
  {
    if r.Some? && s.isBuilding {
      ExtendOnLine(s.(eraseTimer := 0), Cursor(s, r.value, toLocal));
    }
  }

  /**
   * The converse of the release rules: an open right palm always ends a
   * running stroke with a commit and ends an erase, clearing both timers.
   */
  lemma PalmReleases(s: AppState, lPinching: bool, r: Option<seq<Point>>, toLocal: ToLocal)
    requires HandOk(r) && (s.isBuilding ==> s.startPinchPos.Some?)
    requires r.Some? && IsPalm(r.value)
    ensures var t := RightHand(s, lPinching, r, toLocal);
      && !t.isBuilding && !t.isErasing && t.buildTimer == 0 && t.eraseTimer == 0
      && (s.isBuilding ==> t.placed == Drain(s.placed, s.sketch, s.colorIdx) && t.sketch == [])
      && (!s.isBuilding ==> t.placed == s.placed && t.sketch == s.sketch)
      && t.startPinchPos == s.startPinchPos && t.activeAxis == s.activeAxis && t.sketchKeys == s.sketchKeys
  {
  }

  lemma OneHandedStroke(s: AppState, l: Option<seq<Point>>, r: Option<seq<Point>>, toLocal: ToLocal)
    requires HandOk(l) && HandOk(r) && (s.isBuilding ==> s.startPinchPos.Some?)
    ensures StrokeRules(s, OneHanded(s, l, r, toLocal), r.Some? && IsPalm(r.value))
  {
    RightHandStroke(LeftHand(s, l), LeftPinching(l), r, toLocal);
  }

  lemma CascadeStroke(s: AppState, l: Option<seq<Point>>, r: Option<seq<Point>>, toLocal: ToLocal)
    requires HandOk(l) && HandOk(r) && (s.isBuilding ==> s.startPinchPos.Some?)
    ensures StrokeRules(s, Cascade(s, l, r, toLocal), r.Some? && IsPalm(r.value))
  {
    if !(PeaceShown(l) || PeaceShown(r)) {
      NoPeaceStroke(s.(cycleTimer := 0), l, r, toLocal);
    }
  }

  lemma NoPeaceStroke(s: AppState, l: Option<seq<Point>>, r: Option<seq<Point>>, toLocal: ToLocal)
    requires HandOk(l) && HandOk(r) && (s.isBuilding ==> s.startPinchPos.Some?)
    ensures StrokeRules(s, NoPeace(s, l, r, toLocal), r.Some? && IsPalm(r.value))
  {
    if !BothFists(l, r) && !BothPalms(l, r) {
      OneHandedStroke(s.(resetTimer := 0, rotateTimer := 0), l, r, toLocal);
    }
  }

  /**
   * Over a whole callback: the anchor changes only when a stroke starts; the
   * axis changes only at stroke start (back to none) or once, from none to a
   * locked axis, during a stroke; every cell added to the sketch keys lies
   * on the stroke (at the anchor while no axis is locked, on the locked line
   * after).
   */
  lemma StrokeStep(s: AppState, results: Option<seq<HandFrame>>, toLocal: ToLocal)
    requires Inv(s) && ResultsOk(results)
    ensures var t := Step(s, results, toLocal);
      && (t.startPinchPos != s.startPinchPos ==> !s.isBuilding && t.isBuilding)
      && (t.activeAxis != s.activeAxis ==>
            (!s.isBuilding && t.isBuilding && t.activeAxis.None?)
            || (s.isBuilding && t.isBuilding && s.activeAxis.None? && t.activeAxis.Some?))
      && (forall c :: c in t.sketchKeys && c !in s.sketchKeys ==>
            t.isBuilding && t.startPinchPos.Some? && OnLine(t.startPinchPos.value, c, t.activeAxis))
  {
    if results.Some? {
      var hands := results.value;
      StepUnfold(s, hands, toLocal);
      var p := SmoothAll(s.hands, hands);
      CascadeStroke(s.(hands := p), Reported(p, hands, Left), Reported(p, hands, Right), toLocal);
    }
  }

  /**
   * A stroke ends in a callback with hands only by opening the right palm;
   * then every sketch mesh has moved into the placed cubes under its own key
   * with the current colour, the sketch group is empty, and both intents
   * and their timers are cleared.
   */
  lemma ReleaseCommits(s: AppState, hands: seq<HandFrame>, toLocal: ToLocal)
    requires Inv(s) && FrameOk(hands)
    requires s.isBuilding && !Step(s, Some(hands), toLocal).isBuilding
    ensures var t := Step(s, Some(hands), toLocal);
      && Seen(hands, Right) && IsHand(t.hands.right) && IsPalm(t.hands.right)
      && t.sketch == []
      && t.placed.Keys == s.placed.Keys + set c | c in s.sketch
      && (forall c :: c in s.sketch ==> c in t.placed && t.placed[c] == s.colorIdx)
      && (forall c :: c in s.placed && c !in s.sketch ==> c in t.placed && t.placed[c] == s.placed[c])
      && !t.isErasing && t.buildTimer == 0 && t.eraseTimer == 0
  {
    StepUnfold(s, hands, toLocal);
    var p := SmoothAll(s.hands, hands);
    var r := Reported(p, hands, Right);
    CascadeRelease(s.(hands := p), Reported(p, hands, Left), r, toLocal);
  }

  /** The cascade's part of `ReleaseCommits`, on a state whose hands are already smoothed. */
  lemma CascadeRelease(s: AppState, l: Option<seq<Point>>, r: Option<seq<Point>>, toLocal: ToLocal)
    requires HandOk(l) && HandOk(r) && s.isBuilding && s.startPinchPos.Some?
    requires !Cascade(s, l, r, toLocal).isBuilding
    ensures var t := Cascade(s, l, r, toLocal);
      && r.Some? && IsPalm(r.value) && t.hands == s.hands
      && t.sketch == []
      && t.placed.Keys == s.placed.Keys + set c | c in s.sketch
      && (forall c :: c in s.sketch ==> c in t.placed && t.placed[c] == s.colorIdx)
      && (forall c :: c in s.placed && c !in s.sketch ==> c in t.placed && t.placed[c] == s.placed[c])
      && !t.isErasing && t.buildTimer == 0 && t.eraseTimer == 0
  {
    CascadeStroke(s, l, r, toLocal);
    DrainContents(s.placed, s.sketch, s.colorIdx);
  }

  // ---------------------------------------------------------------------
  // The component's state, updated in place

  class App {
    var isGrabbing: bool
    var grabTimer: int
    var grabOffset: Vec3
    var isBuilding: bool
    var buildTimer: int
    var isErasing: bool
    var eraseTimer: int
    var resetTimer: int
    var rotateTimer: int
    var cycleTimer: int
    var colorIdx: int
    var startPinchPos: Option<Cell>
    var activeAxis: Option<Axis>
    var sketchKeys: set<Cell>
    /** Cells of the sketch group's meshes, in insertion order. */
    var sketch: seq<Cell>
    /** placedVoxels: key to the palette index of its cube. */
    var placed: map<Cell, int>
    var group: Transform
    var mode: ModeText
    const smoother: Smoother

    function State(): AppState
      reads this, smoother
    {
      AppState(isGrabbing, grabTimer, grabOffset, isBuilding, buildTimer, isErasing, eraseTimer,
               resetTimer, rotateTimer, cycleTimer, colorIdx, startPinchPos, activeAxis,
               sketchKeys, sketch, placed, group, mode, smoother.Contents())
    }

    ghost predicate Valid()
      reads this, smoother
    {
      smoother.Valid() && Inv(State())
    }

    constructor ()
      ensures Valid() && State() == INITIAL && fresh(smoother)
    {
      isGrabbing, grabTimer, grabOffset := false, 0, ORIGIN;
      isBuilding, buildTimer, isErasing, eraseTimer := false, 0, false, 0;
      resetTimer, rotateTimer, cycleTimer, colorIdx := 0, 0, 0, 0;
      startPinchPos, activeAxis := None, None;
      sketchKeys, sketch, placed := {}, [], map[];
      group, mode := IDENTITY, Initializing;
      smoother := new Smoother();
    }

    /** `setColorIdx` from the palette buttons. */
    method SetColorIdx(idx: int)
      requires Valid() && 0 <= idx < PALETTE_SIZE
      modifies this
      ensures Valid() && State() == old(State()).(colorIdx := idx)
    {
      colorIdx := idx;
    }

    method AddSketchVoxel(c: Cell)
      modifies this
      ensures State() == AddSketch(old(State()), c)
    {
      if c in sketchKeys || c in placed {
        return;
      }
      sketch := sketch + [c];
      sketchKeys := sketchKeys + {c};
    }

    method CommitVoxels()
      modifies this
      ensures State() == Commit(old(State()))
    {
      while |sketch| > 0
        invariant Drain(placed, sketch, colorIdx) == Drain(old(placed), old(sketch), colorIdx)
        invariant State().(placed := old(placed), sketch := old(sketch)) == old(State())
      {
        var c := sketch[0];
        placed := placed[c := colorIdx];
        sketch := sketch[1..];
      }
    }

    /** The branch for a frame without a hand list. */
    method DropIntents()
      modifies this
      ensures State() == NoHands(old(State()))
    {
      ClearFlags();
      ClearTimers();
    }

    method ClearFlags()
      modifies this
      ensures State() == old(State()).(isGrabbing := false, isBuilding := false, isErasing := false)
    {
      isGrabbing, isBuilding, isErasing := false, false, false;
    }

    method ClearTimers()
      modifies this
      ensures State() == old(State()).(grabTimer := 0, buildTimer := 0, eraseTimer := 0,
                                       resetTimer := 0, rotateTimer := 0)
    {
      grabTimer, buildTimer, eraseTimer, resetTimer, rotateTimer := 0, 0, 0, 0, 0;
    }

    /** The peace-sign branch. */
    method CycleStep()
      modifies this
      ensures State() == CycleColor(old(State()))
    {
      if cycleTimer < CYCLE_HOLD {
        cycleTimer := cycleTimer + TICK;
        mode := CyclingColor;
      } else {
        colorIdx := (colorIdx + 1) % PALETTE_SIZE;
        cycleTimer := 0;
      }
    }

    /** The both-fists branch. */
    method ResetStep()
      modifies this
      ensures State() == HardReset(old(State()))
    {
      rotateTimer := 0;
      if resetTimer < RESET_HOLD {
        resetTimer := resetTimer + TICK;
        mode := Resetting;
      } else {
        group := IDENTITY;
        mode := ResetComplete;
      }
    }

    /** The both-palms branch. */
    method RotateStep(lh: seq<Point>, rh: seq<Point>)
      requires IsHand(lh) && IsHand(rh)
      modifies this
      ensures State() == Rotate(old(State()), lh, rh)
    {
      if rotateTimer < ROTATE_HOLD {
        rotateTimer := rotateTimer + TICK;
        mode := EnablingRotate;
      } else {
        mode := RotatingModel;
        group := group.(rotation := Rotated(group.rotation, lh, rh));
      }
    }

    /** The left-hand block; it also reports whether the left hand pinches. */
    method LeftStep(lHand: Option<seq<Point>>) returns (lPinching: bool)
      requires HandOk(lHand)
      modifies this
      ensures State() == LeftHand(old(State()), lHand)
      ensures lPinching == LeftPinching(lHand)
    {
      lPinching := false;
      if lHand.Some? {
        var h := lHand.value;
        lPinching := Pinching(h);
        if IsFist(h) {
          GrabStep(h);
        } else {
          isGrabbing, grabTimer := false, 0;
          if IndexMiddleUp(h) { mode := Scanning; }
        }
      }
    }

    /** A left fist: count up to the grab hold, then drag the group with the hand. */
    method GrabStep(h: seq<Point>)
      requires IsHand(h)
      modifies this
      ensures var s := old(State());
        var handWorldPos := HandWorldPos(h);
        && (s.grabTimer < GRAB_HOLD ==> State() == s.(grabTimer := s.grabTimer + TICK))
        && (s.grabTimer >= GRAB_HOLD ==>
              var s1 := if !s.isGrabbing then s.(grabOffset := Sub(s.group.position, handWorldPos), isGrabbing := true) else s;
              State() == s1.(group := s1.group.(position := Add(handWorldPos, s1.grabOffset)), mode := Grabbed))
    {
      var handWorldPos := HandWorldPos(h);
      if grabTimer < GRAB_HOLD {
        grabTimer := grabTimer + TICK;
      } else {
        LatchGrab(handWorldPos);
        group, mode := group.(position := Add(handWorldPos, grabOffset)), Grabbed;
      }
    }

    /** The confirming grab frame records the offset that keeps the group in place. */
    method LatchGrab(handWorldPos: Vec3)
      modifies this
      ensures State() == if !old(isGrabbing)
        then old(State()).(grabOffset := Sub(old(group).position, handWorldPos), isGrabbing := true)
        else old(State())
    {
      if !isGrabbing {
        grabOffset, isGrabbing := Sub(group.position, handWorldPos), true;
      }
    }

    /** One frame of an active stroke: lock an axis if none is locked, then add the target. */
    method ExtendStroke(g: Cell)
      requires startPinchPos.Some?
      modifies this
      ensures State() == Extend(old(State()), g)
    {
      var start := startPinchPos.value;
      var d := Gaps(g, start);
      if activeAxis.None? && (d.x > DEAD_ZONE || d.y > DEAD_ZONE || d.z > DEAD_ZONE) {
        activeAxis := ChooseAxis(d, DEAD_ZONE);
      }
      var t := start;
      if activeAxis == Some(X) { t := t.(x := g.x); }
      else if activeAxis == Some(Y) { t := t.(y := g.y); }
      else if activeAxis == Some(Z) { t := t.(z := g.z); }
      AddSketchVoxel(t);
    }

    /** The erase branch of the right-hand block. */
    method EraseStep(g: Cell)
      modifies this
      ensures old(eraseTimer) < INTENT_HOLD ==>
        State() == old(State()).(buildTimer := 0, eraseTimer := old(eraseTimer) + TICK, mode := LockingEraser)
      ensures old(eraseTimer) >= INTENT_HOLD ==>
        State() == old(State()).(buildTimer := 0, isErasing := true,
                                 placed := if g in old(placed) then old(placed) - {g} else old(placed),
                                 mode := Erasing)
    {
      buildTimer := 0;
      if eraseTimer < INTENT_HOLD {
        eraseTimer := eraseTimer + TICK;
        mode := LockingEraser;
      } else {
        isErasing := true;
        if g in placed { placed := placed - {g}; }
        mode := Erasing;
      }
    }

    /** The build branch of the right-hand block. */
    method BuildStep(g: Cell)
      requires isBuilding ==> startPinchPos.Some?
      modifies this
      ensures var s1 := old(State()).(eraseTimer := 0);
        && (s1.buildTimer < INTENT_HOLD ==>
              State() == s1.(buildTimer := s1.buildTimer + TICK, mode := SyncingBuild))
        && (s1.buildTimer >= INTENT_HOLD && !s1.isBuilding ==>
              State() == s1.(startPinchPos := Some(g), sketchKeys := {}, isBuilding := true,
                             activeAxis := None, mode := Building))
        && (s1.buildTimer >= INTENT_HOLD && s1.isBuilding ==>
              State() == Extend(s1, g).(mode := Building))
    {
      eraseTimer := 0;
      if buildTimer < INTENT_HOLD {
        buildTimer, mode := buildTimer + TICK, SyncingBuild;
      } else {
        if !isBuilding {
          StartStroke(g);
        } else {
          ExtendStroke(g);
        }
        mode := Building;
      }
    }

    /** The first confirmed build frame: anchor the stroke at the cursor. */
    method StartStroke(g: Cell)
      modifies this
      ensures State() == old(State()).(startPinchPos := Some(g), sketchKeys := {}, isBuilding := true, activeAxis := None)
    {
      startPinchPos, sketchKeys, isBuilding, activeAxis := Some(g), {}, true, None;
    }

    /** The open-palm branch of the right-hand block. */
    method ReleaseStep()
      modifies this
      ensures var s1 := if old(isBuilding) then Commit(old(State())) else old(State());
        State() == s1.(isBuilding := false, isErasing := false, buildTimer := 0, eraseTimer := 0, mode := Ready)
    {
      if isBuilding { CommitVoxels(); }
      isBuilding, isErasing := false, false;
      buildTimer, eraseTimer := 0, 0;
      mode := Ready;
    }

    /** The right-hand block. */
    method RightStep(lPinching: bool, rHand: Option<seq<Point>>, toLocal: ToLocal)
      requires HandOk(rHand) && (isBuilding ==> startPinchPos.Some?)
      modifies this
      ensures State() == RightHand(old(State()), lPinching, rHand, toLocal)
    {
      if rHand.Some? {
        var h := rHand.value;
        var pinchingNow, pointingNow, palmOpen := Pinching(h), IsPointing(h), IsPalm(h);
        var g := SnapPoint(toLocal(group, TipWorldPos(h[INDEX_TIP])));
        if lPinching && pointingNow && !palmOpen {
          EraseStep(g);
        } else if pinchingNow && !isGrabbing && !palmOpen {
          BuildStep(g);
        } else if palmOpen {
          ReleaseStep();
        }
      }
    }

    /** The single-hand blocks. */
    method OneHandedStep(lHand: Option<seq<Point>>, rHand: Option<seq<Point>>, toLocal: ToLocal)
      requires HandOk(lHand) && HandOk(rHand) && (isBuilding ==> startPinchPos.Some?)
      modifies this
      ensures State() == OneHanded(old(State()), lHand, rHand, toLocal)
    {
      var lPinching := LeftStep(lHand);
      RightStep(lPinching, rHand, toLocal);
    }

    /** The two-hand gestures, falling through to the single hands. */
    method NoPeaceStep(lHand: Option<seq<Point>>, rHand: Option<seq<Point>>, toLocal: ToLocal)
      requires HandOk(lHand) && HandOk(rHand) && (isBuilding ==> startPinchPos.Some?)
      modifies this
      ensures State() == NoPeace(old(State()), lHand, rHand, toLocal)
    {
      if lHand.Some? && rHand.Some? && IsFist(lHand.value) && IsFist(rHand.value) {
        ResetStep();
        return;
      }
      resetTimer := 0;
      if lHand.Some? && rHand.Some? && IsPalm(lHand.value) && IsPalm(rHand.value) {
        RotateStep(lHand.value, rHand.value);
        return;
      }
      rotateTimer := 0;
      OneHandedStep(lHand, rHand, toLocal);
    }

    /** The gesture cascade on the smoothed hands. */
    method Gestures(lHand: Option<seq<Point>>, rHand: Option<seq<Point>>, toLocal: ToLocal)
      requires HandOk(lHand) && HandOk(rHand) && (isBuilding ==> startPinchPos.Some?)
      modifies this
      ensures State() == Cascade(old(State()), lHand, rHand, toLocal)
    {
      if PeaceShown(lHand) || PeaceShown(rHand) {
        CycleStep();
        return;
      }
      cycleTimer := 0;
      NoPeaceStep(lHand, rHand, toLocal);
    }

    method OnResults(results: Option<seq<HandFrame>>, toLocal: ToLocal)
      requires Valid() && ResultsOk(results)
      modifies this, smoother
      ensures Valid() && State() == Step(old(State()), results, toLocal)
    {
      ghost var s0 := State();
      StepKeepsInv(s0, results, toLocal);
      if results.None? {
        DropIntents();
        return;
      }
      var hands := results.value;
      StepUnfold(s0, hands, toLocal);
      var hasLeft, hasRight := smoother.SmoothHands(hands);
      var lHand := if hasLeft then Some(smoother.left) else None;
      var rHand := if hasRight then Some(smoother.right) else None;
      ghost var p := SmoothAll(s0.hands, hands);
      assert State() == s0.(hands := p);
      assert lHand == Reported(p, hands, Left) && rHand == Reported(p, hands, Right);
      Gestures(lHand, rHand, toLocal);
    }
  }
}
