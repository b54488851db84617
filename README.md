# Isometric tactics client: coordinate engine, world state and camera input

A Dafny model of the core of a small isometric tactics client written in
TypeScript on the Excalibur engine. One unit stands on a grid. Buttons move it
one step at a time. Pointer drags and the mouse wheel move and zoom the camera.
The model covers these parts:

- **Projection** (`projection.dfy`). `diagonalToGrid` and
  `toIsometricPosition` are pure functions. Pixel values are exact reals.
  Absent arguments default through `??`, modelled by `Wrappers.OrElse`.
- **IsometricConstants** (`isometric_constants.dfy`). This is the `ISOMETRIC`
  constant record and the constant-based `getInitialPosition`. It is a second
  placement path, kept apart from the projection, and a lemma shows that the
  two disagree.
- **RootStateReducer** (`root_state.dfy`). The world-state reducer is a
  datatype plus a function over four actions. `INITIAL_STATE` is a constant.
- **MainSceneUi** (`main_scene_ui.dfy`). Each button handler of the main-scene
  component returns the ordered list of effects it performs: scene calls and
  reducer dispatches.
- **CameraInput** (`camera_input.dfy`). The source has three copies of the
  pointer machine (`Idle`/`Dragging` with the last pointer position, a pan
  scaled by `0.5 / zoom`, and a wheel zoom in steps of 0.05 within
  `[1, maxZoom]`). Here they are one class, `PointerControls`, parametrised by
  `maxZoom`. Its handlers update the closure state and a `Camera` object in
  place. Each handler is proved against the pure `Step` function, and the
  properties are lemmas about `Step` and `Run`. Framing from the map size is
  here too.
- **MainSceneController** (`main_scene.dfy`), **MainTsScene**
  (`main_ts_scene.dfy`) and **GameComponents** (`game_components.dfy`). These
  are the instances of the camera machine: the `main-scene.ts` scene without a
  wheel handler, `main.ts` with zoom bound 4, the input controller with zoom
  bound 3 and its missing-camera guards, and the camera controller's fixed
  framing. The `main-scene.ts` scene's null-guarded forwarding to the actor is
  also here.
- **UnitActors** (`unit_actor.dfy`). The actor records the commands it appends
  to the engine's action queue. `wait` dims the actor and adds one pending
  restoration, and each restoration that fires sets full opacity again.
- **GameSlice** and **UiSlice** (`game_slice.dfy`, `ui_slice.dfy`). The Redux
  slices are classes whose methods assign fields in place. Each method is
  proved against a pure `Apply` over the slice's state record.

In these places the code does something a reader might not expect, and the model follows the code:

- The actor's constructor takes no arguments. The unit therefore always spawns
  at (48, 190), not at the projection of the configured grid position, which is
  (113.75, 202) for the initial state (`SpawnIsNotProjectedPosition`).
- `updateUnitPosition` without an actor returns silently. Only
  `attackWithUnit` and `makeUnitWait` would warn.
- The scene queues its moves with the number 300 through the actor's action
  queue directly. `moveToPosition`, which passes 200, is not called by the
  scene.
- Overlapping `wait` calls are not superseded. Every restoration stays
  scheduled and fires (`EarlyRestorationWhileAnotherPending`).

## Model

| member | source | states |
|---|---|---|
| `Wrappers.OrElse` | src/lib/to-isometric-position.ts:34-35 | `??`: a supplied value is used, whatever it is. The default applies only when the value is absent. |
| `Projection.DiagonalToGrid` | src/lib/to-isometric-position.ts:41-45 | The outputs sum to `2Y-1` and differ by `2X-1`. |
| `Projection.GridToDiagonal` | src/lib/to-isometric-position.ts:41-45 | On odd-parity grid positions, it is an inverse: `DiagonalToGrid(GridToDiagonal(g)) == g`. |
| `Projection.DiagonalToGridIsOdd` | src/lib/to-isometric-position.ts:41-45 | For integer input, `gridX + gridY` is always odd. |
| `Projection.DiagonalRoundTrip` | src/lib/to-isometric-position.ts:41-45 | Decoding an encoded pair gives back `(X, Y)`. |
| `Projection.DiagonalToGridInjective` | src/lib/to-isometric-position.ts:41-45 | Equal outputs hold exactly when the inputs are equal. |
| `Projection.ToIsometricPosition` | src/lib/to-isometric-position.ts:22-39 | Closed form: `x = 16.25·(X+Y-1)` and `y = origin + 8.25·(Y-X) + offset`. Origin and offset default via `??`, and nothing is rounded. |
| `Projection.DefaultsAreOriginAndOffset` | src/lib/to-isometric-position.ts:34-35 | Omitting both arguments is the same as passing 168 and 32. |
| `Projection.ZeroOriginAndOffsetAreKept` | src/lib/to-isometric-position.ts:34-36 | A supplied 0 is used, not replaced: y is 200 less than with the defaults. |
| `Projection.StepAlongAxes` | src/lib/to-isometric-position.ts:28-36 | X+1 shifts the point by (+16.25, −8.25). Y+1 shifts it by (+16.25, +8.25). |
| `Projection.ProjectionInjective` | src/lib/to-isometric-position.ts:28-38 | At a fixed origin and offset, distinct positions never share a pixel. |
| `Projection.InitialUnitProjection` | src/lib/to-isometric-position.ts:28-38 | `diagonalToGrid(4,4) = (7,0)` and `toIsometricPosition(4,4,168,34) = (113.75, 202)`. |
| `IsometricConstants.ConstantsAgree` | src/constants/isometric.ts:2-16 | The grid moves are half a tile (16, 8). The offsets are −32 and −50. |
| `IsometricConstants.GetInitialPosition` | src/constants/isometric.ts:19-25 | x is `MAP_GRID_Y − MAP_GRID_X + OFFSET_X` and y is `MAP_GRID_X + MAP_GRID_Y + OFFSET_Y`. The result is exactly (48, 190). |
| `IsometricConstants.ProjectionsDisagree` | src/constants/isometric.ts:7-9 | One projection step is not (`GRID_MOVE_X`, `GRID_MOVE_Y`): the two mappings are not reconciled. |
| `RootStateReducer.Reduce` | src/reducers/root-state/root-state-reducer.ts:4-43 | The map is always kept. The level changes only for the two level actions, and the position only for the two position actions, by set or by delta. |
| `RootStateReducer.SetUnitPositionIdempotent` | src/reducers/root-state/root-state-reducer.ts:22-30 | The result does not depend on the prior position. Setting twice is setting once. |
| `RootStateReducer.MoveUnitInverse` | src/reducers/root-state/root-state-reducer.ts:32-40 | `MOVE_UNIT(dx,dy)` then `MOVE_UNIT(−dx,−dy)` restores the whole state. |
| `RootStateReducer.MoveUnitCompose` | src/reducers/root-state/root-state-reducer.ts:32-40 | Two moves equal one move by the summed deltas. |
| `RootStateReducer.MapNeverChanges` | src/reducers/root-state/root-state-reducer.ts:8-42 | No sequence of actions changes the map configuration. |
| `RootStateReducer.PositionIsUnbounded` | src/reducers/root-state/root-state-reducer.ts:22-40 | Any position is reachable by either position action. There is no bounds check against columns or rows. |
| `RootStateReducer.MovesAccumulate` | src/reducers/root-state/root-state-reducer.ts:32-40 | Without a set in between, the final position is the start plus the sum of all move deltas. |
| `RootStateReducer.SetUnitPositionExample` | src/reducers/root-state/root-state-reducer.ts:22-30 | `SET_UNIT_POSITION(2,3)` gives (2,3) and keeps level and map. |
| `MainSceneUi.OnMoveUp` | src/scenes/main-scene/main-scene-component.tsx:20-41 | Dispatches a `SET_UNIT_POSITION` equal in effect to `MOVE_UNIT(1,0)`. Before that, it sends the projection of the resulting position to the scene. |
| `MainSceneUi.OnMoveDown` | src/scenes/main-scene/main-scene-component.tsx:43-64 | The same, with step (−1, 0). |
| `MainSceneUi.OnMoveLeft` | src/scenes/main-scene/main-scene-component.tsx:66-87 | The same, with step (0, −1). |
| `MainSceneUi.OnMoveRight` | src/scenes/main-scene/main-scene-component.tsx:89-110 | The same, with step (0, +1). |
| `MainSceneUi.ResetCentre` | src/scenes/main-scene/main-scene-component.tsx:116-123 | The half rounded up (`2c−1 ≤ n ≤ 2c`). It lies in `[1, n]` for `n ≥ 1`. |
| `MainSceneUi.OnCancel` | src/scenes/main-scene/main-scene-component.tsx:116-141 | The stored position becomes the map centre and nothing else changes. The scene is first sent the centre's projection. |
| `MainSceneUi.OnLevelButton` | src/scenes/main-scene/main-scene-component.tsx:157 | Only `INCREMENT_LEVEL` is dispatched, and the scene is not called. |
| `MainSceneUi.OnAttack` | src/scenes/main-scene/main-scene-component.tsx:16-18 | Only the scene's attack is called, and nothing is dispatched. |
| `MainSceneUi.OnWait` | src/scenes/main-scene/main-scene-component.tsx:112-114 | Only the scene's wait is called, and nothing is dispatched. |
| `MainSceneUi.OnSettings` | src/scenes/main-scene/main-scene-component.tsx:143-145 | Only the switch to the settings scene is requested. |
| `MainSceneUi.DispatchedGoTo` | src/scenes/main-scene/main-scene-component.tsx:26-40 | A move-shaped handler stores exactly its `SET_UNIT_POSITION` and makes one scene call. |
| `MainSceneUi.UpThenDownReturns` | src/scenes/main-scene/main-scene-component.tsx:20-64 | Up, then Down on the resulting state, restores the whole state. |
| `MainSceneUi.LeftThenRightReturns` | src/scenes/main-scene/main-scene-component.tsx:66-110 | Left, then Right, restores the whole state. |
| `MainSceneUi.MovesKeepViewInSync` | src/scenes/main-scene/main-scene-component.tsx:20-110 | Each move stores what `MOVE_UNIT` by its step would. The scene receives the projection of the stored position. |
| `MainSceneUi.ResetOnInitialMap` | src/scenes/main-scene/main-scene-component.tsx:116-141 | On the initial 5×5 map, reset gives (3,3). |
| `CameraInput.WheelZoom` | src/scenes/main.ts:10-23 | `deltaY < 0` zooms in one step, capped at maxZoom. Otherwise, 0 included, it zooms out one step, floored at 1. A zoom within `[1, maxZoom]` stays within it. |
| `CameraInput.Pan` | src/scenes/main.ts:40-49 | A pan keeps the zoom. The displacement is given by `PanOpposesDrag`. |
| `CameraInput.PanOpposesDrag` | src/scenes/main.ts:44-49 | Displacement × zoom = −0.5 × pointer delta. The camera moves against the drag. |
| `CameraInput.Step` | src/scenes/main.ts:10-60 | One event keeps the zoom positive, and a camera neither appears nor disappears. |
| `CameraInput.Run` | src/scenes/main.ts:10-60 | A sequence of events keeps the zoom positive. |
| `CameraInput.ZoomStaysInRange` | src/scenes/main.ts:10-23 | A zoom in `[1, maxZoom]` stays there after any sequence of events. |
| `CameraInput.MoveWhileIdleIgnored` | src/scenes/main-scene/main-scene.ts:50 | While not dragging, a move changes neither the camera nor the recorded pointer. |
| `CameraInput.MoveWithoutCameraIgnored` | src/components/game/input-controller.tsx:18-71 | Without a camera, a move returns before updating `lastPointerPos`, and a wheel event does nothing. |
| `CameraInput.DownStartsDrag` | src/scenes/main-scene/main-scene.ts:41-47 | `down` sets dragging, records the pointer and leaves the camera alone. |
| `CameraInput.WheelOnlyZooms` | src/scenes/main.ts:10-23 | A wheel event keeps the camera position and the drag state. |
| `CameraInput.UpOnlyEndsDrag` | src/scenes/main.ts:58-60 | `up` clears the drag flag and keeps the camera and the recorded pointer. |
| `CameraInput.MovesAfterUpIgnored` | src/scenes/main-scene/main-scene.ts:70-72 | After `up`, every following move is a no-op. |
| `CameraInput.DragTelescopes` | src/scenes/main-scene/main-scene.ts:49-68 | Over a drag at fixed zoom, the camera ends at `start − (last − origin)·0.5/zoom`, with the last pointer recorded. |
| `CameraInput.PointerControls.constructor` | src/scenes/main.ts:25-27 | The handlers start not dragging with the pointer at (0,0). |
| `CameraInput.PointerControls.OnWheel` | src/components/game/input-controller.tsx:18-35 | The new camera state is `Step(old, Wheel(deltaY))`. There is no change without a camera or a wheel handler. |
| `CameraInput.PointerControls.OnDown` | src/scenes/main.ts:29-35 | The new state is `Step(old, Down(x,y))`. |
| `CameraInput.PointerControls.OnMove` | src/components/game/input-controller.tsx:51-72 | The new state is `Step(old, Move(x,y))`, including both early returns. |
| `CameraInput.PointerControls.OnUp` | src/scenes/main.ts:58-60 | The new state is `Step(old, Up)`. |
| `CameraInput.MapPixelWidth` | src/components/game/camera-controller.tsx:23-24 | Width is `(cols+rows)·tileWidth/2`. |
| `CameraInput.MapPixelHeight` | src/components/game/camera-controller.tsx:25-26 | Height is `(rows+cols)·tileHeight/2`. |
| `CameraInput.Framing` | src/components/game/camera-controller.tsx:23-37 | The camera is at half the width and twice the height, with the given zoom. |
| `CameraInput.DefaultMapFraming` | src/components/game/camera-controller.tsx:17-37 | A 5×5 map of 32×16 tiles is 160×80 pixels, framed at (80,160). |
| `CameraInput.FrameCamera` | src/scenes/main-scene/main-scene.ts:80-89 | The camera's position and zoom become the framing of the given map. |
| `MainTsScene.CharacterStart` | src/scenes/main.ts:79-84 | This file's own placement formula equals `getInitialPosition()`. |
| `MainTsScene.OnInitialize` | src/scenes/main.ts:8-111 | It registers handlers with zoom bound 4, frames the camera at (80,160) with zoom 1.5, and places the character at (48,190) with z 1000 and scale 0.1875. |
| `MainTsScene.ZoomWithinOneToFour` | src/scenes/main.ts:10-23 | With bound 4, the zoom stays in `[1, 4]` across any events. |
| `GameComponents.SetUpInputControls` | src/components/game/input-controller.tsx:12-82 | Handlers are registered exactly when the engine exists, with zoom bound 3 and an idle drag. |
| `GameComponents.ZoomWithinOneToThree` | src/components/game/input-controller.tsx:18-35 | With bound 3, the zoom stays in `[1, 3]` across any events. |
| `GameComponents.CameraControllerEffect` | src/components/game/camera-controller.tsx:12-48 | Without an engine, nothing happens. Otherwise the camera is at (80,160) with zoom 1.5. |
| `MainSceneController.FalsyOr` | src/scenes/main-scene/main-scene.ts:75-78 | `||`: the default replaces a missing value and also a 0. |
| `MainSceneController.SceneFraming` | src/scenes/main-scene/main-scene.ts:74-89 | The framing uses the configured map with `||` fallbacks to 5, 5, 32 and 16, at zoom 3. Without a state it is (80,160). |
| `MainSceneController.RequestedUnitPosition` | src/scenes/main-scene/main-scene.ts:93 | The configured position, or (1,1) without a state. |
| `MainSceneController.SpawnIsNotProjectedPosition` | src/scenes/main-scene/main-scene.ts:91-104 | The actor's spawn (48,190) is not the projection of the configured (4,4). |
| `MainSceneController.MainScene.constructor` | src/scenes/main-scene/main-scene.ts:8-14 | The scene starts with no unit and the given initial state. |
| `MainSceneController.MainScene.SetInitialState` | src/scenes/main-scene/main-scene.ts:16-18 | It replaces the stored initial state. |
| `MainSceneController.MainScene.OnInitialize` | src/scenes/main-scene/main-scene.ts:20-112 | It registers drag handlers with no wheel handler and frames the camera from the configuration at zoom 3. It creates a fresh actor at (48,190) whatever position was configured, 32×32 at z 1000 and scale 0.1875, opaque, with nothing queued and no restoration pending. |
| `MainSceneController.MainScene.UpdateUnitPosition` | src/scenes/main-scene/main-scene.ts:114-117 | With an actor, exactly one move with rate 300 is queued, and the actor's position, size, depth, scale and fade are kept. Without one, nothing happens. |
| `MainSceneController.MainScene.AttackWithUnit` | src/scenes/main-scene/main-scene.ts:119-125 | With an actor, the attack's two scale steps are queued, and the actor's position, size, depth, scale and fade are kept. Without one, nothing happens. |
| `MainSceneController.MainScene.MakeUnitWait` | src/scenes/main-scene/main-scene.ts:127-133 | With an actor, the actor waits: its fade takes the wait step, and its queue, position, size, depth and scale are kept. Without one, nothing happens. |
| `UnitActors.AfterWait` | src/actors/unit-actor.ts:42-46 | Opacity becomes 0.5, and one more restoration is pending. |
| `UnitActors.AfterRestoration` | src/actors/unit-actor.ts:44-46 | Opacity becomes 1, and one fewer restoration is pending. |
| `UnitActors.WaitConverges` | src/actors/unit-actor.ts:42-47 | Under any interleaving of waits and firings, opacity is 1 whenever no restoration is pending. |
| `UnitActors.PendingCountsCalls` | src/actors/unit-actor.ts:43-46 | Nothing is cancelled: pending + fired = initial pending + calls. |
| `UnitActors.EarlyRestorationWhileAnotherPending` | src/actors/unit-actor.ts:43-46 | After two waits, the first restoration gives opacity 1 while one restoration is still pending. |
| `UnitActors.UnitActor.constructor` | src/actors/unit-actor.ts:6-28 | The actor takes no parameters. It is at `getInitialPosition()` = (48,190), 32×32, z 1000, scale 0.1875, fully opaque, with nothing queued. |
| `UnitActors.UnitActor.QueueMoveTo` | src/actors/unit-actor.ts:31-32 | Exactly one move is appended to the action queue. |
| `UnitActors.UnitActor.MoveToPosition` | src/actors/unit-actor.ts:30-34 | One move to (x,y) with 200 is appended. |
| `UnitActors.UnitActor.Attack` | src/actors/unit-actor.ts:36-40 | Exactly `scaleBy(1.5, 0.2)` then `scaleBy(0.67, 0.2)` are appended. |
| `UnitActors.UnitActor.Wait` | src/actors/unit-actor.ts:42-47 | The fade state becomes `AfterWait(old)`, and the fade invariant is kept. |
| `UnitActors.UnitActor.FireRestoration` | src/actors/unit-actor.ts:44-46 | The fade state becomes `AfterRestoration(old)`, and the fade invariant is kept. |
| `GameSlice.AfterPause` | src/store/game-slice.ts:39-43 | Only "playing" becomes "paused". Any other status is unchanged. |
| `GameSlice.AfterResume` | src/store/game-slice.ts:44-48 | Only "paused" becomes "playing". Any other status is unchanged. |
| `GameSlice.ClampHealth` | src/store/game-slice.ts:58-63 | The result lies in `[0, max]`, equals the value when the value is in range, and is max above the range and 0 below it. |
| `GameSlice.Apply` | src/store/game-slice.ts:29-70 | Every reducer keeps `0 ≤ playerHealth ≤ playerMaxHealth`, and none changes `playerMaxHealth`. |
| `GameSlice.ApplyAll` | src/store/game-slice.ts:29-70 | Any sequence of reducers keeps the health in range. |
| `GameSlice.HealthStaysInRange` | src/store/game-slice.ts:58-63 | After any reducers, the maximum is unchanged and the health lies in `[0, max]`. |
| `GameSlice.PauseThenResume` | src/store/game-slice.ts:39-48 | Pause then resume restores the state unless it was already paused, in which case the status becomes "playing". |
| `GameSlice.PauseResumeGuards` | src/store/game-slice.ts:39-48 | Pause outside "playing", and resume outside "paused", are no-ops. |
| `GameSlice.EndGameFromAnyStatus` | src/store/game-slice.ts:49-51 | endGame gives "gameOver" from every status and keeps every other field. |
| `GameSlice.SetGameStatusTouchesOwnField` | src/store/game-slice.ts:30-32 | setGameStatus sets any status, with no guard, and keeps every other field. |
| `GameSlice.SelectUnitTouchesOwnField` | src/store/game-slice.ts:67-69 | selectUnit sets the selection and keeps every other field. |
| `GameSlice.StartGameKeeps` | src/store/game-slice.ts:33-38 | The status becomes "playing", with score 0, health at max and turn 1. Level, selection and max are kept. |
| `GameSlice.CountersAdd` | src/store/game-slice.ts:52-66 | `nextLevel` and `incrementTurn` add 1 and `updateScore(p)` adds p, each touching only its own field. Scoring p then −p restores the state. |
| `GameSlice.GameStore.constructor` | src/store/game-slice.ts:16-24 | The store starts idle, at level 1, score 0, health 100/100, turn 1, with no unit selected. |
| `GameSlice.GameStore.SetGameStatus` | src/store/game-slice.ts:30-32 | The new state is `Apply(old, setGameStatus)`. |
| `GameSlice.GameStore.StartGame` | src/store/game-slice.ts:33-38 | The new state is `Apply(old, startGame)`. |
| `GameSlice.GameStore.PauseGame` | src/store/game-slice.ts:39-43 | The new state is `Apply(old, pauseGame)`. |
| `GameSlice.GameStore.ResumeGame` | src/store/game-slice.ts:44-48 | The new state is `Apply(old, resumeGame)`. |
| `GameSlice.GameStore.EndGame` | src/store/game-slice.ts:49-51 | The status is "gameOver" from any status, and nothing else changes. |
| `GameSlice.GameStore.NextLevel` | src/store/game-slice.ts:52-54 | The new state is `Apply(old, nextLevel)`. |
| `GameSlice.GameStore.UpdateScore` | src/store/game-slice.ts:55-57 | The new state is `Apply(old, updateScore(p))`. |
| `GameSlice.GameStore.SetPlayerHealth` | src/store/game-slice.ts:58-63 | The new state is `Apply(old, setPlayerHealth(v))`, so the health is clamped. |
| `GameSlice.GameStore.IncrementTurn` | src/store/game-slice.ts:64-66 | The new state is `Apply(old, incrementTurn)`. |
| `GameSlice.GameStore.SelectUnit` | src/store/game-slice.ts:67-69 | The new state is `Apply(old, selectUnit(u))`. |
| `UiSlice.Toggled` | src/store/uiSlice.ts:24-26 | Toggling always changes the theme. |
| `UiSlice.Apply` | src/store/uiSlice.ts:20-36 | Each reducer writes only its own field. |
| `UiSlice.TogglesAreInvolutions` | src/store/uiSlice.ts:24-32 | `toggleTheme` and `toggleSidebar` applied twice restore the state, and each changes its field. |
| `UiSlice.SettersSetOwnField` | src/store/uiSlice.ts:21-35 | Each setter sets exactly its own field and is idempotent. |
| `UiSlice.UiStore.constructor` | src/store/uiSlice.ts:11-15 | The store starts with the light theme, the sidebar open and the modal closed. |
| `UiSlice.UiStore.SetTheme` | src/store/uiSlice.ts:21-23 | The new state is `Apply(old, setTheme(t))`. |
| `UiSlice.UiStore.ToggleTheme` | src/store/uiSlice.ts:24-26 | The new state is `Apply(old, toggleTheme)`. |
| `UiSlice.UiStore.SetSidebarOpen` | src/store/uiSlice.ts:27-29 | The new state is `Apply(old, setSidebarOpen(b))`. |
| `UiSlice.UiStore.ToggleSidebar` | src/store/uiSlice.ts:30-32 | The new state is `Apply(old, toggleSidebar)`. |
| `UiSlice.UiStore.SetModalOpen` | src/store/uiSlice.ts:33-35 | The new state is `Apply(old, setModalOpen(b))`. |

## Left out

- Engine bootstrapping, asset and Tiled-map loading, and the sprite-sheet walk animation are left out. They are library calls and I/O with no logic of their own. The character position in `src/components/game/game-engine.tsx` repeats `getInitialPosition`.
- The engine's playback of queued actions is left out: move and scale interpolation, how Excalibur reads the number passed with `moveTo` and `scaleBy`, and the promise returned by `moveToPosition`. Commands are only recorded, so the actor's position does not follow its queued moves.
- Timers are not modelled as time. The 500 ms `setTimeout` of `wait` is a pending-restoration count, and which firing comes first is left open.
- Rendering, JSX, routing, providers and the settings scene are left out. `onGoToScene` is only recorded as an effect.
- Logging (`console.log`, `console.warn`) is left out.
- Floating point is not modelled: pixel, zoom and opacity values are exact reals, so the rounding that repeated 0.05 zoom steps cause in doubles is absent.
- The store's numbers (level, score, health, turn, grid coordinates) are integers. Non-integer payloads and NaN are not modelled.
- Each handler's React state snapshot is an explicit argument. Re-rendering and the timing of dispatch are not modelled.
- The two screen mappings (`GRID_MOVE_X/Y` and `toIsometricPosition`) are kept apart and not unified.
- In `main.ts` and in `src/scenes/main-scene/main-scene.ts` the camera is always passed as existing. Neither file's move handler guards against a missing camera, so there a missing camera would throw, and that error path is not modelled. The shared `PointerControls.OnMove` and `OnWheel` take a camera that may be null and then do nothing; that no-op is the behaviour of `input-controller.tsx` only.
- An engine that is not ready is modelled as a false flag for the input controller and a null camera for the camera controller.
- `src/services/api.ts` and `src/store/index.ts` are not part of this model: the first is a network client with no endpoints, the second only re-exports.
- CameraInput.Step: it requires a positive zoom, because the pan divides by it. Every camera writer in the source keeps the zoom positive (framing sets 3 or 1.5, and the wheel keeps it positive), but a camera with zoom 0 is not modelled.
