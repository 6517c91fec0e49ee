/**
 * The shared store of the store-based variant. Every action builds a new
 * state from the old one, so each is a function from state to state.
 */
module Store {
  import opened Wrappers
  import opened Grid
  import opened Hand

  datatype Kind = Default | Sketch

  /** A stored voxel: its scene position and its type ('default' / 'sketch'). */
  datatype Voxel = Voxel(position: Vec3, kind: Kind)

  /** The mode string the gesture manager publishes. */
  datatype Mode =
    | Initializing          // 'INITIALIZING'
    | Idle                  // 'IDLE'
    | HoldToReset           // 'SYSTEM: HOLD TO RESET...'
    | HardResetComplete     // 'SYSTEM: HARD_RESET COMPLETE'
    | HoldToEnableRotation  // 'SYSTEM: HOLD TO ENABLE ROTATION...'
    | GlobalRotateActive    // 'SYSTEM: GLOBAL_ROTATE ACTIVE'
    | Grabbed               // 'BIO_LINK: GRABBED'
    | EraserLocking         // 'INTENT: ERASER_LOCKING...'
    | EraserActive          // 'INTENT: ERASER_ACTIVE'
    | BuildSyncing          // 'INTENT: BUILD_SYNCING...'
    | Building              // 'INTENT: BUILDING'

  /** `mode.includes('ERASER_ACTIVE')`: only one of the strings contains it. */
  predicate EraserActiveMode(m: Mode) { m == EraserActive }

  /**
   * What the gesture manager publishes for the scene each callback. The
   * hands are the smoothed landmark arrays, or none.
   */
  datatype HandState = HandState(
    left: Option<seq<Point>>, right: Option<seq<Point>>,
    isPinchingRight: bool, isPinchingLeft: bool,
    isGrabbing: bool, isBuilding: bool, buildTimer: int, isRotating: bool)

  /** Published hands are whole 21-landmark hands. */
  predicate HandStateOk(hs: HandState)
  {
    (hs.left.Some? ==> IsHand(hs.left.value)) && (hs.right.Some? ==> IsHand(hs.right.value))
  }

  datatype Stats = Stats(fps: int, handCount: int)

  /** The fields a `setStats` call names; the others are absent. */
  datatype StatsPatch = StatsPatch(fps: Option<int>, handCount: Option<int>)

  datatype State = State(
    mode: Mode,
    voxels: map<Cell, Voxel>,
    sketchVoxels: map<Cell, Voxel>,
    groupPosition: Vec3,
    groupRotation: Vec3,
    handState: HandState,
    stats: Stats,
    tipsOpen: bool)

  const NO_HANDS: HandState := HandState(None, None, false, false, false, false, 0, false)

  const INITIAL: State := State(Initializing, map[], map[], ORIGIN, ORIGIN, NO_HANDS, Stats(0, 0), true)

  /** No cell is both committed and in the sketch. */
  predicate Disjoint(st: State) { st.voxels.Keys !! st.sketchVoxels.Keys }

  function SetMode(st: State, m: Mode): State { st.(mode := m) }

  function SetHandState(st: State, hs: HandState): State { st.(handState := hs) }

  /** Sets key k to a default voxel at p; every other key and field is kept. */
  function AddVoxel(st: State, k: Cell, p: Vec3): (r: State)
    ensures r.voxels.Keys == st.voxels.Keys + {k}
    ensures r.voxels[k] == Voxel(p, Default)
    ensures forall j :: j in st.voxels && j != k ==> r.voxels[j] == st.voxels[j]
    ensures r.(voxels := st.voxels) == st
  {
    st.(voxels := st.voxels[k := Voxel(p, Default)])
  }

  /** Drops key k and nothing else; an absent key leaves the state as it was. */
  function RemoveVoxel(st: State, k: Cell): (r: State)
    ensures r.voxels.Keys == st.voxels.Keys - {k}
    ensures forall j :: j in r.voxels ==> r.voxels[j] == st.voxels[j]
    ensures r.(voxels := st.voxels) == st
    ensures k !in st.voxels ==> r == st
  {
    st.(voxels := st.voxels - {k})
  }

  /** Empties the committed voxels only: sketch and group transform stay. */
  function ResetVoxels(st: State): (r: State)
    ensures r.voxels == map[]
    ensures r.sketchVoxels == st.sketchVoxels
    ensures r.groupPosition == st.groupPosition && r.groupRotation == st.groupRotation
    ensures r.(voxels := st.voxels) == st
  {
    st.(voxels := map[])
  }

  /** Inserts or overwrites one sketch key. */
  function AddSketchVoxel(st: State, k: Cell, p: Vec3): (r: State)
    ensures r.sketchVoxels.Keys == st.sketchVoxels.Keys + {k}
    ensures r.sketchVoxels[k] == Voxel(p, Sketch)
    ensures forall j :: j in st.sketchVoxels && j != k ==> r.sketchVoxels[j] == st.sketchVoxels[j]
    ensures r.(sketchVoxels := st.sketchVoxels) == st
  {
    st.(sketchVoxels := st.sketchVoxels[k := Voxel(p, Sketch)])
  }

  function ClearSketchVoxels(st: State): (r: State)
    ensures r.sketchVoxels == map[]
    ensures r.(sketchVoxels := st.sketchVoxels) == st
  {
    st.(sketchVoxels := map[])
  }

  /**
   * Merges the sketch into the committed voxels: every sketch key maps to its
   * voxel retyped 'default' (the sketch wins on overlap), every other committed
   * key is kept, and the sketch ends up empty.
   */
  function CommitSketchVoxels(st: State): (r: State)
    ensures r.sketchVoxels == map[]
    ensures r.voxels.Keys == st.voxels.Keys + st.sketchVoxels.Keys
    ensures forall k :: k in st.sketchVoxels ==> r.voxels[k] == st.sketchVoxels[k].(kind := Default)
    ensures forall k :: k in st.voxels && k !in st.sketchVoxels ==> r.voxels[k] == st.voxels[k]
    ensures r.(voxels := st.voxels, sketchVoxels := st.sketchVoxels) == st
  {
    var merged := map k | k in st.sketchVoxels :: st.sketchVoxels[k].(kind := Default);
    st.(voxels := st.voxels + merged, sketchVoxels := map[])
  }

  /** Committing an empty sketch changes nothing, so a second commit is a no-op. */
  lemma CommitIdempotent(st: State)
    ensures st.sketchVoxels == map[] ==> CommitSketchVoxels(st) == st
    ensures CommitSketchVoxels(CommitSketchVoxels(st)) == CommitSketchVoxels(st)
  {
    var r := CommitSketchVoxels(st);
    assert CommitSketchVoxels(r).voxels == r.voxels;
    if st.sketchVoxels == map[] {
      assert r.voxels == st.voxels;
    }
  }

  /** Every committed voxel has type 'default' after a commit if it had before. */
  lemma CommitKeepsDefault(st: State)
    requires forall k :: k in st.voxels ==> st.voxels[k].kind == Default
    ensures forall k :: k in CommitSketchVoxels(st).voxels ==> CommitSketchVoxels(st).voxels[k].kind == Default
  {
  }

  function SetGroupPosition(st: State, pos: Vec3): (r: State)
    ensures r.groupPosition == pos && r.(groupPosition := st.groupPosition) == st
  {
    st.(groupPosition := pos)
  }

  function SetGroupRotation(st: State, rot: Vec3): (r: State)
    ensures r.groupRotation == rot && r.(groupRotation := st.groupRotation) == st
  {
    st.(groupRotation := rot)
  }

  /** Overwrites exactly the fields the patch names. */
  function SetStats(st: State, patch: StatsPatch): (r: State)
    ensures patch.fps.Some? ==> r.stats.fps == patch.fps.value
    ensures patch.fps.None? ==> r.stats.fps == st.stats.fps
    ensures patch.handCount.Some? ==> r.stats.handCount == patch.handCount.value
    ensures patch.handCount.None? ==> r.stats.handCount == st.stats.handCount
    ensures r.(stats := st.stats) == st
  {
    var fps := if patch.fps.Some? then patch.fps.value else st.stats.fps;
    var count := if patch.handCount.Some? then patch.handCount.value else st.stats.handCount;
    st.(stats := Stats(fps, count))
  }

  function ToggleTips(st: State): (r: State)
    ensures r.tipsOpen != st.tipsOpen && r.(tipsOpen := st.tipsOpen) == st
  {
    st.(tipsOpen := !st.tipsOpen)
  }

  lemma ToggleTipsTwice(st: State)
    ensures ToggleTips(ToggleTips(st)) == st
  {
  }
}
