# Voxel gesture core in Dafny

Voxel is a hand-driven voxel sculptor. A hand tracker reports up to two
hands of 21 landmarks each, once per camera frame. A gesture state machine
turns each report into debounced intents: grab the model, build a stroke of
voxels, erase a voxel, rotate, hard reset, and cycle the colour. The build
and erase intents edit a sparse voxel map and a transient sketch.

The repository has this state machine twice, and the two copies differ in
thresholds, priorities and reset rules. This project models each one as
written.

* **Standalone component** (`src/components/VoxelApp.jsx`, module
  `VoxelApp`). `onResults` runs a strict cascade: peace sign (colour cycle),
  then both fists (reset the group transform), then both palms (rotate),
  then the left-hand grab, then right-hand erase, build or release. Timers
  live in a mutable state record. The sketch is a set of keys plus a group
  of meshes. `commitVoxels` drains the meshes into the placed-cube map.
* **Store-based variant**, spread over three files:
  * `src/components/HandManager.jsx` (module `HandManager`): the timers,
    intents, priorities and the published mode and hand state.
  * `src/components/World3D.jsx` (module `World3D`): the per-frame scene
    logic. It snaps the cursor to the grid, finds the stroke anchor, locks
    the axis, adds sketch voxels guarded against duplicates, erases voxels,
    and moves or rotates the group.
  * `src/store/useStore.js` (module `Store`): copy-on-write actions on the
    shared store.

Shared pieces:

* `Grid`: 1.2-unit grid snapping (`Math.round`), cells as integer triples,
  the axis choice with its tie rules, and projection onto a locked line.
* `Hold`: timers that step 16 ms toward a hold constant.
* `Hand`: landmarks, finger-curl classifiers, and exponential smoothing of
  landmarks per hand label.
* `Wrappers`: an `Option` type.

Each piece of state the source updates in place is modelled as a Dafny
class:

* `VoxelApp.App` for `stateRef` and its refs;
* `HandManager.Manager` for the manager's `stateRef`;
* `World3D.SceneContent` for `logicRef`;
* `Hand.Smoother` for the smoothed landmarks.

Each class method is proved equal to a specification function on a snapshot
value, such as `VoxelApp.Step`, `HandManager.Callback` or `World3D.Frame`.
The properties the components promise are then lemmas about those
functions. The store is pure: each action is a function from the old state
to the new one.

Modelling conventions:

* Landmarks carry real coordinates. Floats are modelled as exact reals.
* The pinch test `sqrt(d) < 0.05` is written as `d < 0.0025` on the squared
  distance. The two are equivalent for non-negative `d`.
* A grid key `"x.x,y.y,z.z"` is the integer cell `round(v / 1.2)` on each
  axis. Its position is the cell times 1.2.
* `VoxelApp`'s `voxelGroup.worldToLocal` is a function parameter `toLocal`,
  so the model fixes nothing about the matrix arithmetic.
* The store and the scene's own snapshot of it are passed into the methods
  explicitly, as values.

### Behaviour of the code that the model keeps

* `VoxelApp`'s hard reset never empties the placed cubes. It only returns
  the group transform to the identity. Its timer is not zeroed on
  confirmation, so it stops at 1008 while the fists are held.
* `HandManager`'s hard reset (`resetVoxels`) empties the committed voxels
  only. The sketch and the group transform stay.
* A smoothed hand is seeded from the raw landmarks only the first time its
  label is seen. After a hand disappears, the old values keep being blended.
* `VoxelApp`'s no-hands frame ends a stroke without committing its sketch.
* `VoxelApp`'s `commitVoxels` does not clear `sketchKeys`. The keys are
  cleared only when the next stroke starts.
* `VoxelApp`'s rotate branch returns early. `HandManager`'s does not: grab,
  build and erase still run.
* `HandManager` writes the mode "hold to enable rotation", but the same call
  always overwrites it.
* `World3D` uses the raw snapped cell before an axis is locked, not the
  anchor, and its dead zone is 2.0. `VoxelApp` inserts the anchor itself
  until a lock, with a dead zone of 0.4. On exact cell multiples both give
  ties to x, then y; in doubles two equal cell gaps can round apart (see
  "## Left out").

## Model

| member | source | states |
|---|---|---|
| Grid.Snap | src/components/VoxelApp.jsx:461-463 | `Math.round(v / 1.2)`: the cell index whose line is nearest to v |
| Grid.SnapNearest | src/components/World3D.jsx:95-98 | the snapped coordinate is within half a grid step of v, and no cell line is nearer |
| Grid.DeadZoneInCells | src/components/World3D.jsx:109-114 | a scene-unit gap between cells is 1.2 × the cell gap; gap > 0.4 iff at least one cell, gap > 2.0 iff at least two cells |
| Grid.ChooseAxis | src/components/VoxelApp.jsx:499-504 | an axis is chosen iff some displacement exceeds the dead zone; x wins when largest or tied, y when strictly above x and at least z, otherwise z |
| Grid.ProjectOnto | src/components/World3D.jsx:120-122 | the projected cell keeps the locked-axis coordinate of the cursor and the anchor's coordinates on the other two axes |
| Hold.TickKeepsTimerOk | src/components/VoxelApp.jsx:366-367 | a held frame keeps a timer a non-negative multiple of 16 and at most hold + 15 |
| Hold.HeldValue | src/components/HandManager.jsx:184-185 | after n held frames from zero, a timer reads 16 · min(n, ⌈hold/16⌉) |
| Hold.ConfirmedAfter | src/components/VoxelApp.jsx:436-438 | the timer reaches the hold exactly after ⌈hold/16⌉ consecutive held frames; in the check-then-tick branches the confirming branch runs from the following frame |
| Hold.HoldFrames | src/components/VoxelApp.jsx:63-67 | a table of the two hold constants, as instances of `ConfirmedAfter`: a 500 ms timer reaches its hold after 32 held frames and a 1000 ms timer after 63 |
| Hand.ClassifiersExclusive | src/components/HandManager.jsx:141-142 | on one hand, fist, palm, pointing and peace exclude each other pairwise; fist and palm disagree on landmarks 8 and 6 |
| Hand.TwoHandGesturesExclusive | src/components/VoxelApp.jsx:384-392 | both-fists and both-palms never hold in the same frame |
| Hand.BlendBetween | src/components/VoxelApp.jsx:257-261 | each smoothed coordinate lies between the stored and the raw value and stays put when they coincide |
| Hand.Smoothed | src/components/VoxelApp.jsx:254-262 | a label seen for the first time is copied from the raw landmarks; afterwards every one of the 21 points lies, coordinate by coordinate, between its stored and its raw position, and a point whose raw position equals the stored one stays put (its pointwise `Blend` clause is the definition, kept for the lemmas that use it) |
| Hand.BlendAllBetween | src/components/VoxelApp.jsx:257-261 | blending all 21 points keeps each coordinate between the stored and the raw value, and a coinciding point unchanged |
| Hand.SmoothOne | src/components/HandManager.jsx:68-76 | smoothing one reported hand keeps both stored labels empty or whole |
| Hand.SmoothAll | src/components/VoxelApp.jsx:356-361 | smoothing every hand of a report keeps both stored labels empty or whole |
| Hand.SmoothAllLabels | src/components/VoxelApp.jsx:356-361 | a side that was reported ends with 21 smoothed points; a side that was not reported keeps its stored points untouched |
| Hand.Smoother.Smooth | src/components/HandManager.jsx:67-76 | in-place smoothing of one hand equals `SmoothOne` on the old contents |
| Hand.Smoother.SmoothHands | src/components/HandManager.jsx:116-123 | smoothing a whole report in place equals `SmoothAll`, and reports which sides were seen |
| Store.AddVoxel | src/store/useStore.js:8 | k maps to a default voxel at p; every other key and every other field is unchanged |
| Store.RemoveVoxel | src/store/useStore.js:9-13 | only k is removed; removing an absent key leaves the state equal |
| Store.ResetVoxels | src/store/useStore.js:14 | the committed voxels are emptied; the sketch and group transform are untouched |
| Store.AddSketchVoxel | src/store/useStore.js:17 | inserts or overwrites exactly one sketch key, with type sketch |
| Store.ClearSketchVoxels | src/store/useStore.js:18 | the sketch becomes empty and nothing else changes |
| Store.CommitSketchVoxels | src/store/useStore.js:19-26 | new voxels are the union of the keys; sketch entries win, retyped default; other voxels kept; sketch emptied |
| Store.CommitIdempotent | src/store/useStore.js:19-26 | committing an empty sketch is the identity, so committing twice equals committing once |
| Store.CommitKeepsDefault | src/store/useStore.js:22-24 | if every committed voxel is default before a commit, every one is default after |
| Store.SetGroupPosition | src/store/useStore.js:31 | only the group position changes |
| Store.SetGroupRotation | src/store/useStore.js:32 | only the group rotation changes |
| Store.SetStats | src/store/useStore.js:37 | exactly the fields the patch names are overwritten |
| Store.ToggleTips | src/store/useStore.js:40 | the tips flag flips and nothing else changes |
| Store.ToggleTipsTwice | src/store/useStore.js:40 | toggling twice restores the state |
| VoxelApp.InitialInv | src/components/VoxelApp.jsx:46-59 | the initial state satisfies the timer, palette and stroke invariant |
| VoxelApp.AddSketchProperties | src/components/VoxelApp.jsx:284-296 | a key already sketched or placed is a no-op; otherwise exactly that key is added (and one mesh); adding twice equals adding once |
| VoxelApp.DrainContents | src/components/VoxelApp.jsx:303-310 | draining the sketch meshes puts every sketch cell under its key with the current colour and keeps every other placed cube |
| VoxelApp.LeftHand | src/components/VoxelApp.jsx:429-449 | the left-hand block changes only the grab state, the group and the mode |
| VoxelApp.RightHand | src/components/VoxelApp.jsx:452-520 | the right-hand block changes only intents, timers, the stroke, sketch, placed cubes and mode, and leaves an anchor whenever a stroke runs |
| VoxelApp.LeftHandKeepsInv | src/components/VoxelApp.jsx:436-448 | the left-hand block keeps every timer a multiple of 16 within hold + 15 |
| VoxelApp.RightHandKeepsInv | src/components/VoxelApp.jsx:466-520 | the right-hand block keeps the timer bounds and an anchor for a running stroke |
| VoxelApp.OneHandedKeepsInv | src/components/VoxelApp.jsx:428-520 | both single-hand blocks together keep the invariant |
| VoxelApp.NoPeaceKeepsInv | src/components/VoxelApp.jsx:382-520 | the cascade after the peace check keeps the invariant |
| VoxelApp.CascadeKeepsInv | src/components/VoxelApp.jsx:363-520 | the whole cascade keeps the invariant |
| VoxelApp.StepKeepsInv | src/components/VoxelApp.jsx:363-520 | every callback keeps each hold timer a multiple of 16 and at most hold + 15 (≤ 512 or ≤ 1008), the colour index in the palette, and an anchor for a running stroke |
| VoxelApp.NoHandsFrame | src/components/VoxelApp.jsx:347-351 | no hand list: intents false and five timers zero; the cycle timer, sketch and placed cubes are untouched |
| VoxelApp.PeaceFrame | src/components/VoxelApp.jsx:364-377 | a peace sign changes only the cycle timer, the colour and the mode: one tick below the hold, then the colour advances mod 7 and the timer re-arms |
| VoxelApp.NoPeaceFrame | src/components/VoxelApp.jsx:378-380 | a frame without a peace sign zeroes the cycle timer and keeps the colour |
| VoxelApp.BothFistsFrame | src/components/VoxelApp.jsx:392-403 | both fists (no peace sign, so the cycle timer is zero) zero the rotate timer and tick the reset timer (never zeroed); confirmation resets only the group transform; nothing else of the state changes (grab, build and erase state, colour, stroke, placed cubes and sketch) |
| VoxelApp.BothPalmsFrame | src/components/VoxelApp.jsx:409-419 | both palms zero the reset timer and return early: only the rotate timer, the group rotation and the mode change; below the hold the timer ticks, past it the rotation turns about x and y by the inter-hand offsets, with z and the position kept |
| VoxelApp.GrabFrame | src/components/VoxelApp.jsx:436-448 | a held fist ticks the grab timer; the confirming frame latches the offset so the group does not jump; later frames follow the hand; any other shape drops the grab |
| VoxelApp.EraseFrame | src/components/VoxelApp.jsx:466-482 | erase zeroes the build timer; a confirmed erase deletes exactly the placed cube under the cursor, if any; the sketch is untouched |
| VoxelApp.BuildFrame | src/components/VoxelApp.jsx:484-511 | build zeroes the erase timer; the first confirmed frame anchors the stroke at the cursor with no axis and clears the sketch keys; later frames keep the anchor |
| VoxelApp.ExtendOnLine | src/components/VoxelApp.jsx:498-507 | a stroke frame keeps the anchor and a locked axis, otherwise locks by the 0.4 dead-zone rule, and adds only cells on the stroke |
| VoxelApp.PalmReleases | src/components/VoxelApp.jsx:466-519 | the converse of the release rules: an open right palm always ends both intents and zeroes both timers, committing the sketch if a stroke ran and leaving cubes and sketch alone otherwise; the anchor, axis and sketch keys stay |
| VoxelApp.RightHandStroke | src/components/VoxelApp.jsx:452-520 | the right-hand block obeys the stroke rules: the anchor moves only at start, the axis changes at most once, added cells lie on the stroke, a stroke ends only on an open palm with a commit, and an erase ends only on an open palm with both timers zero |
| VoxelApp.OneHandedStroke | src/components/VoxelApp.jsx:428-520 | the single-hand blocks obey the stroke rules |
| VoxelApp.NoPeaceStroke | src/components/VoxelApp.jsx:383-520 | the two-hand gestures and the single-hand blocks obey the stroke rules |
| VoxelApp.CascadeStroke | src/components/VoxelApp.jsx:363-520 | the whole cascade obeys the stroke rules |
| VoxelApp.StrokeStep | src/components/VoxelApp.jsx:493-507 | over a callback the anchor changes only when a stroke starts; the axis resets only at stroke start and locks at most once; every new sketch key lies on the anchor's line, at the anchor while unlocked |
| VoxelApp.ReleaseCommits | src/components/VoxelApp.jsx:298-519 | a stroke ends in a callback with hands only on an open right palm; every sketch mesh has then moved into the placed cubes under its key with the current colour, the sketch group is empty, and the intents and timers are cleared |
| VoxelApp.CascadeRelease | src/components/VoxelApp.jsx:512-519 | on smoothed hands, a cascade that ends a stroke saw an open right palm, committed every sketch cell in the current colour, kept the other cubes and emptied the sketch |
| VoxelApp.App.SetColorIdx | src/components/VoxelApp.jsx:374 | only the colour index changes |
| VoxelApp.App.AddSketchVoxel | src/components/VoxelApp.jsx:284-296 | the in-place add equals `AddSketch` |
| VoxelApp.App.CommitVoxels | src/components/VoxelApp.jsx:298-312 | the draining loop equals `Commit`: `Drain` of the sketch into the placed map, sketch empty |
| VoxelApp.App.ClearFlags | src/components/VoxelApp.jsx:348 | the grab, build and erase flags become false and nothing else changes |
| VoxelApp.App.ClearTimers | src/components/VoxelApp.jsx:349-350 | the grab, build, erase, reset and rotate timers become zero; the cycle timer and everything else stay |
| VoxelApp.App.DropIntents | src/components/VoxelApp.jsx:347-351 | the in-place no-hands branch equals `NoHands` |
| VoxelApp.App.CycleStep | src/components/VoxelApp.jsx:365-377 | the in-place peace branch equals `CycleColor` |
| VoxelApp.App.ResetStep | src/components/VoxelApp.jsx:392-403 | the in-place both-fists branch equals `HardReset` |
| VoxelApp.App.RotateStep | src/components/VoxelApp.jsx:409-419 | the in-place both-palms branch equals `Rotate` |
| VoxelApp.App.LeftStep | src/components/VoxelApp.jsx:429-449 | the in-place left-hand block equals `LeftHand` and returns the left pinch |
| VoxelApp.App.GrabStep | src/components/VoxelApp.jsx:436-444 | the in-place fist branch: one tick below the hold, else latch the offset and follow the hand |
| VoxelApp.App.LatchGrab | src/components/VoxelApp.jsx:441 | on the first confirmed grab frame the offset from the hand to the group is latched and the grab flag raised; an ongoing grab keeps its offset; nothing else changes |
| VoxelApp.App.ExtendStroke | src/components/VoxelApp.jsx:498-507 | the in-place stroke frame equals `Extend` |
| VoxelApp.App.EraseStep | src/components/VoxelApp.jsx:466-482 | the in-place erase branch: one tick below the hold, else delete the cube under the cursor |
| VoxelApp.App.StartStroke | src/components/VoxelApp.jsx:493-497 | a confirmed build with no running stroke anchors at the cursor cell, empties the sketch keys, raises the build flag and unlocks the axis; nothing else changes |
| VoxelApp.App.BuildStep | src/components/VoxelApp.jsx:484-511 | the in-place build branch: one tick below the hold, else start or extend the stroke |
| VoxelApp.App.ReleaseStep | src/components/VoxelApp.jsx:513-519 | the in-place release: commit a running stroke, then clear both intents and their timers |
| VoxelApp.App.RightStep | src/components/VoxelApp.jsx:452-520 | the in-place right-hand block equals `RightHand` |
| VoxelApp.App.OneHandedStep | src/components/VoxelApp.jsx:428-520 | the in-place single-hand blocks equal `OneHanded` |
| VoxelApp.App.NoPeaceStep | src/components/VoxelApp.jsx:382-520 | the in-place cascade after the peace check equals `NoPeace` |
| VoxelApp.App.Gestures | src/components/VoxelApp.jsx:363-520 | the in-place cascade equals `Cascade` |
| VoxelApp.App.OnResults | src/components/VoxelApp.jsx:333-529 | one in-place callback equals `Step`, so every property proved of `Step` holds of it |
| HandManager.StartInv | src/components/HandManager.jsx:11-23 | the initial manager state satisfies the timer invariant |
| HandManager.LeftGrab | src/components/HandManager.jsx:181-194 | the left-hand block changes only the grab flag, the grab timer and the mode, and never the store |
| HandManager.RightIntent | src/components/HandManager.jsx:197-247 | the right-hand block changes only the build and erase state and the mode, and in the store only voxels and sketch |
| HandManager.HardResetKeepsInv | src/components/HandManager.jsx:146-156 | the reset branch keeps the reset timer a multiple of 16 and at most 1000 |
| HandManager.LeftGrabKeepsInv | src/components/HandManager.jsx:181-194 | the left-hand block keeps the invariant |
| HandManager.RightIntentKeepsInv | src/components/HandManager.jsx:209-246 | the right-hand block keeps the invariant |
| HandManager.ArbitrateKeepsInv | src/components/HandManager.jsx:161-269 | everything after the reset check keeps the invariant |
| HandManager.ProcessKeepsInv | src/components/HandManager.jsx:137-270 | `processGestures` keeps the invariant |
| HandManager.ReceiveHands | src/components/HandManager.jsx:113-123 | receiving a report keeps the invariant and hands on whole hands for both sides; in the store only `stats` changes, and locally only the smoothed hands |
| HandManager.CallbackKeepsInv | src/components/HandManager.jsx:100-135 | every callback keeps the timer bounds and whole smoothed hands |
| HandManager.HardResetFrame | src/components/HandManager.jsx:146-156 | both fists tick the reset timer and return early; strictly past 1000 the voxels are emptied, the mode reads complete and the timer re-arms; otherwise hold-to-reset; everything else is untouched |
| HandManager.LosersZeroed | src/components/HandManager.jsx:157-174 | a frame without both fists zeroes the reset timer; a frame without both palms zeroes the rotate timer; both palms tick it |
| HandManager.LeftGrabMode | src/components/HandManager.jsx:178-194 | the left-hand block chooses only single-hand modes |
| HandManager.RightIntentMode | src/components/HandManager.jsx:209-234 | the right-hand block chooses only single-hand modes |
| HandManager.RotateFallsThrough | src/components/HandManager.jsx:161-246 | the rotate branch does not return early: with both palms open the grab is dropped with its timer zeroed, both intents end, and a running stroke is committed to the voxels |
| HandManager.RotateFrame | src/components/HandManager.jsx:162-267 | `isRotating` is published iff the rotate timer is ≥ 1000; the mode is global-rotate iff both palms are open past the hold, and otherwise a single-hand mode |
| HandManager.RotationHoldNeverShown | src/components/HandManager.jsx:166-255 | no call leaves the hold-to-enable-rotation mode in the store |
| HandManager.GrabFrame | src/components/HandManager.jsx:181-194 | a left fist ticks the grab timer and, past 500, latches the grab; another shape drops the grab and zeroes the timer; no left hand changes nothing |
| HandManager.IntentFrame | src/components/HandManager.jsx:209-234 | erase wins over build and zeroes the build timer without touching the store; build zeroes the erase timer; only the frame that starts a stroke empties the sketch |
| HandManager.ReleaseFrame | src/components/HandManager.jsx:209-246 | voxels change, and a stroke ends, only with a running stroke and an open palm, by one commit; an erase ends only on an open palm; conversely an open palm always ends both intents, committing a running stroke and zeroing its build timer, zeroing the erase timer of a running erase, and leaving the store alone when no stroke ran; no right hand changes nothing |
| HandManager.PublishedState | src/components/HandManager.jsx:258-269 | the published hand state reports both hands, both pinches, the latched intents, the build timer and whether the rotate hold is reached |
| HandManager.NoHandsFrame | src/components/HandManager.jsx:126-132 | with no hand the mode is Idle, every flag false, all five timers zero, and no hand published; voxels and sketch are unchanged |
| HandManager.RightIntentKeepsDisjoint | src/components/HandManager.jsx:209-246 | the right-hand block never puts a cell in both the committed voxels and the sketch |
| HandManager.ArbitrateKeepsDisjoint | src/components/HandManager.jsx:161-269 | the rotate hold, grab, intents and publish together keep the committed voxels and the sketch disjoint |
| HandManager.ProcessKeepsDisjoint | src/components/HandManager.jsx:137-270 | `processGestures` keeps the committed voxels and the sketch disjoint |
| HandManager.CallbackKeepsDisjoint | src/components/HandManager.jsx:100-135 | every callback keeps the committed voxels and the sketch disjoint |
| HandManager.Manager.constructor | src/components/HandManager.jsx:11-23 | a new manager starts with zero timers, no intents and no smoothed hands |
| HandManager.Manager.ResetStep | src/components/HandManager.jsx:146-156 | the in-place reset branch equals `HardReset` |
| HandManager.Manager.RotateStep | src/components/HandManager.jsx:162-174 | the in-place rotate hold equals `RotateHold` |
| HandManager.Manager.GrabStep | src/components/HandManager.jsx:181-194 | the in-place left-hand block equals `LeftGrab` |
| HandManager.Manager.EraseStep | src/components/HandManager.jsx:209-219 | the in-place erase branch equals `Erase` |
| HandManager.Manager.BuildStep | src/components/HandManager.jsx:220-234 | the in-place build branch equals `Build` |
| HandManager.Manager.ReleaseStep | src/components/HandManager.jsx:235-246 | the in-place release branch equals `Release` |
| HandManager.Manager.IntentStep | src/components/HandManager.jsx:197-247 | the in-place right-hand block equals `RightIntent` |
| HandManager.Manager.PublishStep | src/components/HandManager.jsx:249-269 | the override, the mode write and the published hand state equal `Publish` |
| HandManager.Manager.ArbitrateStep | src/components/HandManager.jsx:161-269 | everything after the reset check, in place, equals `Arbitrate` |
| HandManager.Manager.ProcessGestures | src/components/HandManager.jsx:137-270 | in-place `processGestures` equals `Process` |
| HandManager.Manager.ClearAll | src/components/HandManager.jsx:126-132 | the in-place no-hands reset equals `NoHands` |
| HandManager.Manager.OnResults | src/components/HandManager.jsx:100-135 | one in-place callback equals `Callback`, so every property proved of `Callback` holds of it |
| World3D.CursorNearest | src/components/World3D.jsx:90-98 | on every axis the cursor cell is within half a grid step of the scaled index tip, and no other cell is nearer |
| World3D.AnchorFrame | src/components/World3D.jsx:102-127 | the first building frame anchors at the raw cell with no axis; later building frames keep the anchor and a locked axis; a frame without a build clears both |
| World3D.AxisLockFrame | src/components/World3D.jsx:109-118 | with an anchor and no axis, an axis locks iff the cursor is two or more cells from the anchor on some axis; it is an axis of largest displacement, ties going x, then y, then z |
| World3D.TargetOnStroke | src/components/World3D.jsx:102-122 | after a lock the target lies on the locked line through the anchor at the cursor's coordinate; before it the target is the raw cell, within one cell of the anchor on every axis |
| World3D.StrokeKeepsAnchor | src/components/World3D.jsx:108-122 | over any run of building frames the anchor never moves and a locked axis stays locked |
| World3D.StrokeAnchor | src/components/World3D.jsx:104-107 | a stroke begun from no stroke is anchored at its first cell, whatever frames follow |
| World3D.ActFrame | src/components/World3D.jsx:136-146 | only voxels and sketch change; the sketch gains the target exactly when building and the key is absent from both; the target is removed exactly when erasing is active and it is committed |
| World3D.FrameGuards | src/components/World3D.jsx:136-146 | reading and writing the same store, a frame never overwrites a sketch voxel, never sketches a committed cell, removes at most one committed voxel, and keeps the two disjoint |
| World3D.TransformFrame | src/components/World3D.jsx:56-84 | rotation changes x and y by the inter-hand offsets × 0.02 and keeps z; grab sets x to (0.5 − x) × 25 and y to (0.5 − y) × 18 from the left hand and keeps the depth; otherwise the transform is unchanged |
| World3D.NoRightHand | src/components/World3D.jsx:87 | without a right hand, the logic, the voxels and the sketch are untouched |
| World3D.SceneContent.constructor | src/components/World3D.jsx:47-52 | the logic starts with no anchor and no axis |
| World3D.SceneContent.MoveGroup | src/components/World3D.jsx:55-84 | the group-transform updates equal `Drag` after `Rotation` |
| World3D.SceneContent.LockAxis | src/components/World3D.jsx:100-127 | the in-place axis locking equals `Lock` and returns its target |
| World3D.SceneContent.UseFrame | src/components/World3D.jsx:54-147 | one in-place frame equals `Frame`, so every property proved of `Frame` holds of it |

## Left out

- Hand tracker and camera: the `Hands` and `Camera` setup and `hands.send` are foreign asynchronous I/O. A callback's report is a parameter (`None` when the tracker gave no hand list). Every reported hand is assumed to carry 21 landmarks (`Hand.FrameOk`), which the tracker guarantees and the source never checks.
- Rendering: THREE scene, meshes, materials, crosshair, ghost cursor, `OrbitControls`, JSX, resize handling. Mesh creation is represented only by the sketch cell list and a placed cube's palette index. So the model cannot show a sketch mesh orphaned by a no-hands frame: if a later stroke sketches the same key, `commitVoxels` overwrites the map entry and the first cube stays in the group where no erase reaches it.
- `voxelGroup.worldToLocal` and `localToWorld` matrix arithmetic: `worldToLocal` is the parameter `toLocal`; `localToWorld` only places the crosshair.
- Canvas HUD drawing (`drawHUDVoxel`, `drawHUDRing`, `drawHUDCircle`, the drawing half of `drawCyberHand`) and the `countRef` text. `modeRef` text writes are modelled as an enum field.
- The early return on a missing canvas, crosshair or group (`VoxelApp`, the first lines of `onResults`) and `HandManager`'s smoothing only when a 2D context exists: the model assumes the canvas is present.
- Floating point: reals stand for doubles; the dead-zone and largest-gap comparisons of the axis lock are made on exact multiples of 1.2, whereas in doubles equal cell gaps can differ (3 × 1.2 and 6.0 − 2.4 do), so the source may lock y where `Grid.ChooseAxis` locks x; so rounding in the blend, rotation and grab-position arithmetic is not modelled; `toFixed(1)` keys are integer cells, so two positions that print alike but differ in value are not distinguished.
- `Math.sqrt` in the pinch test is replaced by comparing the squared distance with 0.0025. `VoxelApp`'s `getDist` adds depth only when both z values are nonzero; this is modelled as written.
- UI components (`Overlay`, `Icons`, `LoadingScreen`), the onboarding timer and the palette's colours: presentation only; the palette is its size, 7.
- React and zustand plumbing (`useRef`, `useState`, `set`, `getState`, subscriptions): state is explicit records and store snapshots passed as values; `World3D` reads a snapshot and writes the live store, and the two are separate parameters.
- Store.SetMode and Store.SetHandState carry no contract: they only overwrite one field.
