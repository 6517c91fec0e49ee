/**
 * The gesture manager of the store-based variant. Each tracker callback
 * smooths the hands, arbitrates reset, rotate, grab, erase and build with
 * 16 ms hold timers, and drives the shared store: the mode, the committed
 * and sketch voxels, and the hand state it publishes for the scene.
 *
 * `Callback` is the callback as a function of the manager's own state and
 * the store; class `Manager` does the same in place and is proved to agree
 * with it.
 */
module HandManager {
  import opened Wrappers
  import opened Hand
  import opened Hold
  import opened Store

  const GRAB_HOLD: int := 500
  const INTENT_HOLD: int := 500
  const RESET_HOLD: int := 1000
  const ROTATE_HOLD: int := 1000

  /** The pinch test compares the distance with 0.05; this is its square. */
  const PINCH_SQ: real := 0.0025

  /** Squared `getDist`: this variant measures in the image plane only. */
  function DistSq(p: Point, q: Point): real
  {
    (p.x - q.x) * (p.x - q.x) + (p.y - q.y) * (p.y - q.y)
  }

  predicate Pinching(h: seq<Point>)
    requires IsHand(h)
  {
    DistSq(h[THUMB_TIP], h[INDEX_TIP]) < PINCH_SQ
  }

  /** `hand && getDist(hand[4], hand[8]) < 0.05`: falsy (`undefined`) for an absent hand, modelled as false. */
  predicate PinchingHand(h: Option<seq<Point>>)
    requires HandOk(h)
  {
    h.Some? && Pinching(h.value)
  }

  datatype Timers = Timers(grab: int, build: int, erase: int, rotate: int, reset: int)

  const ZERO: Timers := Timers(0, 0, 0, 0, 0)

  /** The manager's own state: hold timers, three latched intents, smoothed hands. */
  datatype Local = Local(timers: Timers, isGrabbing: bool, isBuilding: bool, isErasing: bool, hands: Pair)

  const START: Local := Local(ZERO, false, false, false, Pair([], []))

  /**
   * Every timer is a whole number of ticks; grab, build, erase and rotate
   * stop one tick past their hold, and the reset timer never stays above
   * its hold because passing it re-arms it.
   */
  predicate Inv(loc: Local)
  {
    && TimerOk(loc.timers.grab, Cap(GRAB_HOLD))
    && TimerOk(loc.timers.build, Cap(INTENT_HOLD))
    && TimerOk(loc.timers.erase, Cap(INTENT_HOLD))
    && TimerOk(loc.timers.rotate, Cap(ROTATE_HOLD))
    && TimerOk(loc.timers.reset, RESET_HOLD)
    && StoredOk(loc.hands.left) && StoredOk(loc.hands.right)
  }

  lemma StartInv()
    ensures Inv(START)
  {
  }

  /** The manager together with the store it drives. */
  datatype Sys = Sys(local: Local, store: State)

  /** The manager and store part-way through the arbitration, with the mode chosen so far. */
  datatype Pass = Pass(local: Local, store: State, newMode: Mode)

  // ---------------------------------------------------------------------
  // processGestures, phase by phase

  /**
   * Both fists: one tick on the reset timer; once past the hold the
   * committed voxels are emptied and the timer re-armed. Nothing further
   * runs and no hand state is published.
   */
  function HardReset(x: Sys): Sys
  {
    var t := x.local.timers.reset + TICK;
    if t > RESET_HOLD then
      Sys(x.local.(timers := x.local.timers.(reset := 0)), SetMode(ResetVoxels(x.store), HardResetComplete))
    else
      Sys(x.local.(timers := x.local.timers.(reset := t)), SetMode(x.store, HoldToReset))
  }

  /** Both palms: the rotate hold, with a provisional mode; otherwise its timer is zeroed. */
  function RotateHold(x: Sys, l: Option<seq<Point>>, r: Option<seq<Point>>): Sys
    requires HandOk(l) && HandOk(r)
  {
    var tm := x.local.timers;
    if BothPalms(l, r) then
      if tm.rotate < ROTATE_HOLD then
        Sys(x.local.(timers := tm.(rotate := tm.rotate + TICK)), SetMode(x.store, HoldToEnableRotation))
      else Sys(x.local, SetMode(x.store, GlobalRotateActive))
    else Sys(x.local.(timers := tm.(rotate := 0)), x.store)
  }

  /** The left-hand block: a held fist latches the grab. */
  function LeftGrab(p: Pass, l: Option<seq<Point>>): (q: Pass)
    requires HandOk(l)
    ensures q.store == p.store
    ensures q.local.(isGrabbing := p.local.isGrabbing, timers := q.local.timers.(grab := p.local.timers.grab)) == p.local
  {
    var loc := p.local;
    if l.None? then p
    else if IsFist(l.value) then
      if loc.timers.grab < GRAB_HOLD then p.(local := loc.(timers := loc.timers.(grab := loc.timers.grab + TICK)))
      else p.(local := loc.(isGrabbing := true), newMode := Grabbed)
    else p.(local := loc.(isGrabbing := false, timers := loc.timers.(grab := 0)))
  }

  /** Erase: left pinch with the right hand pointing and not open. */
  predicate EraseGesture(l: Option<seq<Point>>, h: seq<Point>)
    requires HandOk(l) && IsHand(h)
  {
    PinchingHand(l) && IsPointing(h) && !IsPalm(h)
  }

  /** Build: right pinch, not grabbing, not open (when erase does not hold). */
  predicate BuildGesture(loc: Local, h: seq<Point>)
    requires IsHand(h)
  {
    Pinching(h) && !loc.isGrabbing && !IsPalm(h)
  }

  function Erase(p: Pass): Pass
  {
    var tm := p.local.timers.(build := 0);
    if tm.erase < INTENT_HOLD then p.(local := p.local.(timers := tm.(erase := tm.erase + TICK)), newMode := EraserLocking)
    else p.(local := p.local.(timers := tm, isErasing := true), newMode := EraserActive)
  }

  /** The confirming frame of a stroke empties the sketch; later frames only hold the mode. */
  function Build(p: Pass): Pass
  {
    var tm := p.local.timers.(erase := 0);
    if tm.build < INTENT_HOLD then p.(local := p.local.(timers := tm.(build := tm.build + TICK)), newMode := BuildSyncing)
    else if !p.local.isBuilding then Pass(p.local.(timers := tm, isBuilding := true), ClearSketchVoxels(p.store), Building)
    else p.(local := p.local.(timers := tm), newMode := Building)
  }

  /** Neither gesture: an open palm commits a running stroke and ends a running erase. */
  function Release(p: Pass, palmOpen: bool): Pass
  {
    var p1 := if p.local.isBuilding && palmOpen
      then Pass(p.local.(isBuilding := false, timers := p.local.timers.(build := 0)), CommitSketchVoxels(p.store), p.newMode)
      else p;
    if p1.local.isErasing && palmOpen then p1.(local := p1.local.(isErasing := false, timers := p1.local.timers.(erase := 0)))
    else p1
  }

  /** The right-hand block: erase over build over release. */
  function RightIntent(p: Pass, l: Option<seq<Point>>, r: Option<seq<Point>>): (q: Pass)
    requires HandOk(l) && HandOk(r)
    ensures q.local.timers.(build := p.local.timers.build, erase := p.local.timers.erase) == p.local.timers
    ensures q.local.isGrabbing == p.local.isGrabbing && q.local.hands == p.local.hands
    ensures q.store.(voxels := p.store.voxels, sketchVoxels := p.store.sketchVoxels) == p.store
  {
    if r.None? then p
    else if EraseGesture(l, r.value) then Erase(p)
    else if BuildGesture(p.local, r.value) then Build(p)
    else Release(p, IsPalm(r.value))
  }

  /** The rotate override, the mode write and the published hand state. */
  function Publish(p: Pass, l: Option<seq<Point>>, r: Option<seq<Point>>): Sys
    requires HandOk(l) && HandOk(r)
  {
    var tm := p.local.timers;
    var m := if tm.rotate >= ROTATE_HOLD && BothPalms(l, r) then GlobalRotateActive else p.newMode;
    var st := if tm.reset == 0 then SetMode(p.store, m) else p.store;
    var hs := HandState(l, r, PinchingHand(r), PinchingHand(l), p.local.isGrabbing, p.local.isBuilding,
                        tm.build, tm.rotate >= ROTATE_HOLD);
    Sys(p.local, SetHandState(st, hs))
  }

  /** Everything after the reset check; the reset timer is already zero. */
  function Arbitrate(x: Sys, l: Option<seq<Point>>, r: Option<seq<Point>>): Sys
    requires HandOk(l) && HandOk(r)
  {
    var y := RotateHold(x, l, r);
    Publish(RightIntent(LeftGrab(Pass(y.local, y.store, Idle), l), l, r), l, r)
  }

  /** `processGestures` */
  function Process(x: Sys, l: Option<seq<Point>>, r: Option<seq<Point>>): Sys
    requires HandOk(l) && HandOk(r)
  {
    if BothFists(l, r) then HardReset(x)
    else Arbitrate(Sys(x.local.(timers := x.local.timers.(reset := 0)), x.store), l, r)
  }

  // ---------------------------------------------------------------------
  // onResults

  /** The hand count goes to the stats and every reported hand is smoothed. */
  function Receive(x: Sys, results: Option<seq<HandFrame>>): Sys
    requires Inv(x.local) && ResultsOk(results)
  {
    match results
    case None => x
    case Some(hands) =>
      Sys(x.local.(hands := SmoothAll(x.local.hands, hands)),
          SetStats(x.store, StatsPatch(None, Some(|hands|))))
  }

  /** The smoothed hand of a side as `processGestures` receives it. */
  function HandOf(p: Pair, results: Option<seq<HandFrame>>, side: Label): Option<seq<Point>>
  {
    if results.None? then None else Reported(p, results.value, side)
  }

  /** No hand at all: intents and timers cleared, mode Idle. */
  function NoHands(x: Sys): Sys
  {
    Sys(x.local.(timers := ZERO, isGrabbing := false, isBuilding := false, isErasing := false),
        SetMode(x.store, Idle))
  }

  /** `onResults`: one tracker callback. */
  function Callback(x: Sys, results: Option<seq<HandFrame>>): Sys
    requires Inv(x.local) && ResultsOk(results)
  {
    var x1 := Receive(x, results);
    ReceiveHands(x, results);
    var l := HandOf(x1.local.hands, results, Left);
    var r := HandOf(x1.local.hands, results, Right);
    var x2 := if l.None? && r.None? then NoHands(x1) else x1;
    Process(x2, l, r)
  }

  /** Receiving keeps the invariant and hands on whole hands. */
  lemma ReceiveHands(x: Sys, results: Option<seq<HandFrame>>)
    requires Inv(x.local) && ResultsOk(results)
    ensures var x1 := Receive(x, results);
      && Inv(x1.local)
      && HandOk(HandOf(x1.local.hands, results, Left))
      && HandOk(HandOf(x1.local.hands, results, Right))
      && x1.store.(stats := x.store.stats) == x.store
      && x1.local.(hands := x.local.hands) == x.local
  {
    if results.Some? {
      SmoothAllLabels(x.local.hands, results.value);
    }
  }

  // ---------------------------------------------------------------------
  // Properties of the phases

  lemma HardResetKeepsInv(x: Sys)
    requires Inv(x.local)
    ensures Inv(HardReset(x).local)
  {
    var t := x.local.timers.reset;
    assert t <= 992 by {
      assert t % TICK == 0 && t <= RESET_HOLD;
    }
  }

  /** The manager's invariant, stated for a state part-way through the arbitration. */
  predicate PassOk(p: Pass) { Inv(p.local) }

  lemma LeftGrabKeepsInv(p: Pass, l: Option<seq<Point>>)
    requires PassOk(p) && HandOk(l)
    ensures PassOk(LeftGrab(p, l))
  {
  }

  lemma RightIntentKeepsInv(p: Pass, l: Option<seq<Point>>, r: Option<seq<Point>>)
    requires PassOk(p) && HandOk(l) && HandOk(r)
    ensures PassOk(RightIntent(p, l, r))
  {
    if r.Some? && !EraseGesture(l, r.value) && !BuildGesture(p.local, r.value) {
      assert PassOk(Release(p, IsPalm(r.value)));
    }
  }

  lemma ArbitrateKeepsInv(x: Sys, l: Option<seq<Point>>, r: Option<seq<Point>>)
    requires Inv(x.local) && HandOk(l) && HandOk(r)
    ensures Inv(Arbitrate(x, l, r).local)
  {
    var y := RotateHold(x, l, r);
    var p0 := Pass(y.local, y.store, Idle);
    assert PassOk(p0);
    LeftGrabKeepsInv(p0, l);
    RightIntentKeepsInv(LeftGrab(p0, l), l, r);
  }

  lemma ProcessKeepsInv(x: Sys, l: Option<seq<Point>>, r: Option<seq<Point>>)
    requires Inv(x.local) && HandOk(l) && HandOk(r)
    ensures Inv(Process(x, l, r).local)
  {
    if BothFists(l, r) {
      HardResetKeepsInv(x);
    } else {
      ArbitrateKeepsInv(Sys(x.local.(timers := x.local.timers.(reset := 0)), x.store), l, r);
    }
  }

  /** Every callback keeps the timer bounds and the smoothed hands whole. */
  lemma CallbackKeepsInv(x: Sys, results: Option<seq<HandFrame>>)
    requires Inv(x.local) && ResultsOk(results)
    ensures Inv(Callback(x, results).local)
  {
    ReceiveHands(x, results);
    var x1 := Receive(x, results);
    var l := HandOf(x1.local.hands, results, Left);
    var r := HandOf(x1.local.hands, results, Right);
    var x2 := if l.None? && r.None? then NoHands(x1) else x1;
    ProcessKeepsInv(x2, l, r);
  }

  /**
   * Both fists: the reset timer ticks; past the hold the committed voxels
   * are emptied, the mode reads complete and the timer is re-armed, else
   * the mode reads hold-to-reset. The sketch, the intents, the other timers
   * and the published hand state are untouched.
   */
  lemma HardResetFrame(x: Sys, l: Option<seq<Point>>, r: Option<seq<Point>>)
    requires HandOk(l) && HandOk(r) && BothFists(l, r)
    ensures var y := Process(x, l, r);
      var t := x.local.timers.reset + TICK;
      && (t > RESET_HOLD ==> y.store.voxels == map[] && y.store.mode == HardResetComplete && y.local.timers.reset == 0)
      && (t <= RESET_HOLD ==> y.store.voxels == x.store.voxels && y.store.mode == HoldToReset && y.local.timers.reset == t)
      && y.local.(timers := x.local.timers) == x.local
      && y.local.timers.(reset := x.local.timers.reset) == x.local.timers
      && y.store.sketchVoxels == x.store.sketchVoxels
      && y.store.handState == x.store.handState
      && y.store.groupPosition == x.store.groupPosition && y.store.groupRotation == x.store.groupRotation
  {
  }

  /**
   * Without both fists the reset timer reads zero, and the mode the call
   * leaves is written; without both palms the rotate timer reads zero too.
   */
  lemma LosersZeroed(x: Sys, l: Option<seq<Point>>, r: Option<seq<Point>>)
    requires HandOk(l) && HandOk(r) && !BothFists(l, r)
    ensures Process(x, l, r).local.timers.reset == 0
    ensures !BothPalms(l, r) ==> Process(x, l, r).local.timers.rotate == 0
    ensures BothPalms(l, r) ==> Process(x, l, r).local.timers.rotate == Tick(x.local.timers.rotate, ROTATE_HOLD)
  {
  }

  /** The modes the right-hand block and the left-hand block can choose. */
  predicate HandMode(m: Mode)
  {
    m in {Idle, Grabbed, EraserLocking, EraserActive, BuildSyncing, Building}
  }

  lemma LeftGrabMode(p: Pass, l: Option<seq<Point>>)
    requires HandOk(l) && HandMode(p.newMode)
    ensures HandMode(LeftGrab(p, l).newMode)
  {
  }

  lemma RightIntentMode(p: Pass, l: Option<seq<Point>>, r: Option<seq<Point>>)
    requires HandOk(l) && HandOk(r) && HandMode(p.newMode)
    ensures HandMode(RightIntent(p, l, r).newMode)
  {
  }

  /**
   * Rotation: the published flag says whether the rotate hold is reached;
   * the call leaves the rotate mode exactly when both palms are open past
   * the hold, and otherwise a mode of the single hands.
   */
  lemma RotateFrame(x: Sys, l: Option<seq<Point>>, r: Option<seq<Point>>)
    requires HandOk(l) && HandOk(r) && !BothFists(l, r)
    ensures var y := Process(x, l, r);
      && y.store.handState.isRotating == (y.local.timers.rotate >= ROTATE_HOLD)
      && (y.store.mode == GlobalRotateActive <==> BothPalms(l, r) && y.local.timers.rotate >= ROTATE_HOLD)
      && (y.store.mode != GlobalRotateActive ==> HandMode(y.store.mode))
  {
    var x1 := Sys(x.local.(timers := x.local.timers.(reset := 0)), x.store);
    var y := RotateHold(x1, l, r);
    var p0 := Pass(y.local, y.store, Idle);
    LeftGrabMode(p0, l);
    RightIntentMode(LeftGrab(p0, l), l, r);
  }

  /**
   * The rotate branch does not return early: with both palms open the grab
   * and intent blocks still run, so a palm drops the grab, and the open
   * right palm ends both intents, committing a running stroke.
   */
  lemma RotateFallsThrough(x: Sys, l: Option<seq<Point>>, r: Option<seq<Point>>)
    requires HandOk(l) && HandOk(r) && BothPalms(l, r)
    ensures var y := Process(x, l, r);
      && !y.local.isGrabbing && y.local.timers.grab == 0
      && !y.local.isBuilding && !y.local.isErasing
      && (x.local.isBuilding ==> y.store.voxels == CommitSketchVoxels(x.store).voxels)
  {
    ClassifiersExclusive(l.value);
    ClassifiersExclusive(r.value);
  }

  /**
   * The hold-to-rotate mode is written and then always overwritten in the
   * same call, so no callback leaves it in the store.
   */
  lemma RotationHoldNeverShown(x: Sys, l: Option<seq<Point>>, r: Option<seq<Point>>)
    requires HandOk(l) && HandOk(r)
    ensures Process(x, l, r).store.mode != HoldToEnableRotation
  {
    if !BothFists(l, r) {
      RotateFrame(x, l, r);
    }
  }

  /**
   * Grab: a held left fist ticks the grab timer and, once past the hold,
   * latches the grab; any other left shape drops it and re-arms the timer;
   * an absent left hand leaves both as they were.
   */
  lemma GrabFrame(p: Pass, l: Option<seq<Point>>)
    requires HandOk(l)
    ensures var q := LeftGrab(p, l);
      && (l.None? ==> q == p)
      && (l.Some? && IsFist(l.value) && p.local.timers.grab < GRAB_HOLD ==>
            q.local.timers.grab == p.local.timers.grab + TICK && q.local.isGrabbing == p.local.isGrabbing)
      && (l.Some? && IsFist(l.value) && p.local.timers.grab >= GRAB_HOLD ==>
            q.local.isGrabbing && q.newMode == Grabbed)
      && (l.Some? && !IsFist(l.value) ==> !q.local.isGrabbing && q.local.timers.grab == 0)
  {
  }

  /**
   * Erase wins over build: it zeroes the build timer and touches neither
   * the stroke flag nor the store; build zeroes the erase timer, and only
   * the frame that starts a stroke empties the sketch.
   */
  lemma IntentFrame(p: Pass, l: Option<seq<Point>>, h: seq<Point>)
    requires HandOk(l) && IsHand(h)
    ensures var q := RightIntent(p, l, Some(h));
      && (EraseGesture(l, h) ==>
            q.local.timers.build == 0 && q.local.isBuilding == p.local.isBuilding && q.store == p.store
            && (p.local.timers.erase >= INTENT_HOLD ==> q.local.isErasing && q.newMode == EraserActive))
      && (!EraseGesture(l, h) && BuildGesture(p.local, h) ==>
            q.local.timers.erase == 0 && q.store.voxels == p.store.voxels
            && (q.store.sketchVoxels != p.store.sketchVoxels ==> !p.local.isBuilding && q.local.isBuilding)
            && (p.local.timers.build >= INTENT_HOLD ==> q.local.isBuilding && q.newMode == Building)
            && (p.local.timers.build >= INTENT_HOLD && !p.local.isBuilding ==> q.store.sketchVoxels == map[]))
  {
  }

  /**
   * Release: the sketch is committed, and the stroke ended, only when a
   * stroke is running and the right palm is open; an erase ends only on an
   * open palm too. Conversely an open right palm always ends both intents,
   * committing a running stroke. With no right hand nothing changes.
   */
  lemma ReleaseFrame(p: Pass, l: Option<seq<Point>>, r: Option<seq<Point>>)
    requires HandOk(l) && HandOk(r)
    ensures var q := RightIntent(p, l, r);
      && (r.None? ==> q == p)
      && (q.store.voxels != p.store.voxels ==>
            r.Some? && IsPalm(r.value) && p.local.isBuilding && q.store == CommitSketchVoxels(p.store))
      && (p.local.isBuilding && !q.local.isBuilding ==>
            r.Some? && IsPalm(r.value) && q.store == CommitSketchVoxels(p.store) && q.local.timers.build == 0)
      && (p.local.isErasing && !q.local.isErasing ==> r.Some? && IsPalm(r.value) && q.local.timers.erase == 0)
      && (r.Some? && IsPalm(r.value) ==>
            && !q.local.isBuilding && !q.local.isErasing
            && (p.local.isBuilding ==> q.store == CommitSketchVoxels(p.store) && q.local.timers.build == 0)
            && (!p.local.isBuilding ==> q.store == p.store)
            && (p.local.isErasing ==> q.local.timers.erase == 0))
  {
  }

  /**
   * Every callback with a hand published a hand state that reports the
   * manager's latched intents and the build timer as they now are.
   */
  lemma PublishedState(x: Sys, l: Option<seq<Point>>, r: Option<seq<Point>>)
    requires HandOk(l) && HandOk(r) && !BothFists(l, r)
    ensures var y := Process(x, l, r);
      y.store.handState == HandState(l, r, PinchingHand(r), PinchingHand(l), y.local.isGrabbing,
                                     y.local.isBuilding, y.local.timers.build, y.local.timers.rotate >= ROTATE_HOLD)
  {
  }

  /**
   * A callback with no hand (no hand list, or none of either side) ends
   * Idle with every intent and timer cleared and a hand state with no hands;
   * no voxel and no sketch voxel changes.
   */
  lemma NoHandsFrame(x: Sys, results: Option<seq<HandFrame>>)
    requires Inv(x.local) && ResultsOk(results)
    requires results.Some? ==> !Seen(results.value, Left) && !Seen(results.value, Right)
    ensures var y := Callback(x, results);
      && y.store.mode == Idle
      && y.local.timers == ZERO && !y.local.isGrabbing && !y.local.isBuilding && !y.local.isErasing
      && y.store.handState == HandState(None, None, false, false, false, false, 0, false)
      && y.store.voxels == x.store.voxels && y.store.sketchVoxels == x.store.sketchVoxels
  {
    ReceiveHands(x, results);
  }

  lemma RightIntentKeepsDisjoint(p: Pass, l: Option<seq<Point>>, r: Option<seq<Point>>)
    requires HandOk(l) && HandOk(r) && Disjoint(p.store)
    ensures Disjoint(RightIntent(p, l, r).store)
  {
    if r.Some? && !EraseGesture(l, r.value) && !BuildGesture(p.local, r.value) {
      assert Disjoint(Release(p, IsPalm(r.value)).store);
    }
  }

  lemma ArbitrateKeepsDisjoint(x: Sys, l: Option<seq<Point>>, r: Option<seq<Point>>)
    requires HandOk(l) && HandOk(r) && Disjoint(x.store)
    ensures Disjoint(Arbitrate(x, l, r).store)
  {
    var y := RotateHold(x, l, r);
    var p1 := LeftGrab(Pass(y.local, y.store, Idle), l);
    assert Disjoint(p1.store);
    var q := RightIntent(p1, l, r);
    RightIntentKeepsDisjoint(p1, l, r);
    assert Arbitrate(x, l, r).store.voxels == q.store.voxels;
    assert Arbitrate(x, l, r).store.sketchVoxels == q.store.sketchVoxels;
  }

  lemma ProcessKeepsDisjoint(x: Sys, l: Option<seq<Point>>, r: Option<seq<Point>>)
    requires HandOk(l) && HandOk(r) && Disjoint(x.store)
    ensures Disjoint(Process(x, l, r).store)
  {
    if !BothFists(l, r) {
      ArbitrateKeepsDisjoint(Sys(x.local.(timers := x.local.timers.(reset := 0)), x.store), l, r);
    }
  }

  /** No committed cell is in the sketch after any callback that started so. */
  lemma CallbackKeepsDisjoint(x: Sys, results: Option<seq<HandFrame>>)
    requires Inv(x.local) && ResultsOk(results) && Disjoint(x.store)
    ensures Disjoint(Callback(x, results).store)
  {
    ReceiveHands(x, results);
    var x1 := Receive(x, results);
    var l := HandOf(x1.local.hands, results, Left);
    var r := HandOf(x1.local.hands, results, Right);
    var x2 := if l.None? && r.None? then NoHands(x1) else x1;
    ProcessKeepsDisjoint(x2, l, r);
  }

  // ---------------------------------------------------------------------
  // The manager's state, updated in place

  class Manager {
    var timers: Timers
    var isGrabbing: bool
    var isBuilding: bool
    var isErasing: bool
    const smoother: Smoother

    function LocalState(): Local
      reads this, smoother
    {
      Local(timers, isGrabbing, isBuilding, isErasing, smoother.Contents())
    }

    ghost predicate Valid()
      reads this, smoother
    {
      smoother.Valid() && Inv(LocalState())
    }

    constructor ()
      ensures Valid() && LocalState() == START && fresh(smoother)
    {
      timers := ZERO;
      isGrabbing, isBuilding, isErasing := false, false, false;
      smoother := new Smoother();
    }

    method ResetStep(st: State) returns (st': State)
      modifies this
      ensures Sys(LocalState(), st') == HardReset(Sys(old(LocalState()), st))
    {
      timers := timers.(reset := timers.reset + TICK);
      if timers.reset > RESET_HOLD {
        st' := SetMode(ResetVoxels(st), HardResetComplete);
        timers := timers.(reset := 0);
      } else {
        st' := SetMode(st, HoldToReset);
      }
    }

    method RotateStep(l: Option<seq<Point>>, r: Option<seq<Point>>, st: State) returns (st': State)
      requires HandOk(l) && HandOk(r)
      modifies this
      ensures Sys(LocalState(), st') == RotateHold(Sys(old(LocalState()), st), l, r)
    {
      st' := st;
      if l.Some? && r.Some? && IsPalm(l.value) && IsPalm(r.value) {
        if timers.rotate < ROTATE_HOLD {
          timers := timers.(rotate := timers.rotate + TICK);
          st' := SetMode(st, HoldToEnableRotation);
        } else {
          st' := SetMode(st, GlobalRotateActive);
        }
      } else {
        timers := timers.(rotate := 0);
      }
    }

    method GrabStep(l: Option<seq<Point>>, newMode: Mode, st: State) returns (newMode': Mode)
      requires HandOk(l)
      modifies this
      ensures var q := LeftGrab(Pass(old(LocalState()), st, newMode), l);
        LocalState() == q.local && newMode' == q.newMode
    {
      newMode' := newMode;
      if l.Some? {
        if IsFist(l.value) {
          if timers.grab < GRAB_HOLD {
            timers := timers.(grab := timers.grab + TICK);
          } else {
            if !isGrabbing { isGrabbing := true; }
            newMode' := Grabbed;
          }
        } else {
          isGrabbing := false;
          timers := timers.(grab := 0);
        }
      }
    }

    method EraseStep(newMode: Mode, st: State) returns (newMode': Mode)
      modifies this
      ensures var q := Erase(Pass(old(LocalState()), st, newMode));
        LocalState() == q.local && newMode' == q.newMode
    {
      timers := timers.(build := 0);
      if timers.erase < INTENT_HOLD {
        timers := timers.(erase := timers.erase + TICK);
        newMode' := EraserLocking;
      } else {
        if !isErasing { isErasing := true; }
        newMode' := EraserActive;
      }
    }

    method BuildStep(newMode: Mode, st: State) returns (st': State, newMode': Mode)
      modifies this
      ensures Pass(LocalState(), st', newMode') == Build(Pass(old(LocalState()), st, newMode))
    {
      st' := st;
      timers := timers.(erase := 0);
      if timers.build < INTENT_HOLD {
        timers := timers.(build := timers.build + TICK);
        newMode' := BuildSyncing;
      } else {
        if !isBuilding {
          isBuilding := true;
          st' := ClearSketchVoxels(st);
        }
        newMode' := Building;
      }
    }

    method ReleaseStep(palmOpen: bool, newMode: Mode, st: State) returns (st': State)
      modifies this
      ensures Pass(LocalState(), st', newMode) == Release(Pass(old(LocalState()), st, newMode), palmOpen)
    {
      st' := st;
      if isBuilding && palmOpen {
        st' := CommitSketchVoxels(st);
        isBuilding := false;
        timers := timers.(build := 0);
      }
      if isErasing && palmOpen {
        isErasing := false;
        timers := timers.(erase := 0);
      }
    }

    method IntentStep(l: Option<seq<Point>>, r: Option<seq<Point>>, newMode: Mode, st: State)
      returns (st': State, newMode': Mode)
      requires HandOk(l) && HandOk(r)
      modifies this
      ensures Pass(LocalState(), st', newMode') == RightIntent(Pass(old(LocalState()), st, newMode), l, r)
    {
      st', newMode' := st, newMode;
      if r.Some? {
        var h := r.value;
        var isPinching := DistSq(h[THUMB_TIP], h[INDEX_TIP]) < PINCH_SQ;
        var isPointing := h[INDEX_TIP].y < h[INDEX_PIP].y && h[MIDDLE_TIP].y > h[MIDDLE_PIP].y;
        var palmOpen := IsPalm(h);
        var leftPinch := l.Some? && DistSq(l.value[THUMB_TIP], l.value[INDEX_TIP]) < PINCH_SQ;
        if leftPinch && isPointing && !palmOpen {
          newMode' := EraseStep(newMode, st);
        } else if isPinching && !isGrabbing && !palmOpen {
          st', newMode' := BuildStep(newMode, st);
        } else {
          st' := ReleaseStep(palmOpen, newMode, st);
        }
      }
    }

    method PublishStep(l: Option<seq<Point>>, r: Option<seq<Point>>, newMode: Mode, st: State)
      returns (st': State)
      requires HandOk(l) && HandOk(r)
      ensures Sys(LocalState(), st') == Publish(Pass(LocalState(), st, newMode), l, r)
    {
      var m := newMode;
      if timers.rotate >= ROTATE_HOLD && l.Some? && r.Some? && IsPalm(l.value) && IsPalm(r.value) {
        m := GlobalRotateActive;
      }
      st' := st;
      if timers.reset == 0 {
        st' := SetMode(st', m);
      }
      st' := SetHandState(st', HandState(l, r, r.Some? && Pinching(r.value), l.Some? && Pinching(l.value),
                                          isGrabbing, isBuilding, timers.build, timers.rotate >= ROTATE_HOLD));
    }

    /** Everything `processGestures` does once the reset check has passed. */
    method ArbitrateStep(l: Option<seq<Point>>, r: Option<seq<Point>>, st: State) returns (st': State)
      requires HandOk(l) && HandOk(r)
      modifies this
      ensures Sys(LocalState(), st') == Arbitrate(Sys(old(LocalState()), st), l, r)
    {
      st' := RotateStep(l, r, st);
      var newMode := Idle;
      newMode := GrabStep(l, newMode, st');
      st', newMode := IntentStep(l, r, newMode, st');
      st' := PublishStep(l, r, newMode, st');
    }

    method ProcessGestures(l: Option<seq<Point>>, r: Option<seq<Point>>, st: State) returns (st': State)
      requires HandOk(l) && HandOk(r)
      modifies this
      ensures Sys(LocalState(), st') == Process(Sys(old(LocalState()), st), l, r)
    {
      if l.Some? && r.Some? && IsFist(l.value) && IsFist(r.value) {
        st' := ResetStep(st);
        return;
      }
      timers := timers.(reset := 0);
      st' := ArbitrateStep(l, r, st);
    }

    method ClearAll(st: State) returns (st': State)
      modifies this
      ensures Sys(LocalState(), st') == NoHands(Sys(old(LocalState()), st))
    {
      isGrabbing, isBuilding, isErasing := false, false, false;
      timers := ZERO;
      st' := SetMode(st, Idle);
    }

    method OnResults(results: Option<seq<HandFrame>>, st: State) returns (st': State)
      requires Valid() && ResultsOk(results)
      modifies this, smoother
      ensures Valid() && Sys(LocalState(), st') == Callback(Sys(old(LocalState()), st), results)
    {
      ghost var x := Sys(LocalState(), st);
      CallbackKeepsInv(x, results);
      ReceiveHands(x, results);
      st' := st;
      var l, r := None, None;
      if results.Some? {
        st' := SetStats(st', StatsPatch(None, Some(|results.value|)));
        var hasLeft, hasRight := smoother.SmoothHands(results.value);
        if hasLeft { l := Some(smoother.left); }
        if hasRight { r := Some(smoother.right); }
      }
      assert Sys(LocalState(), st') == Receive(x, results);
      if l.None? && r.None? {
        st' := ClearAll(st');
      }
      st' := ProcessGestures(l, r, st');
    }
  }
}
