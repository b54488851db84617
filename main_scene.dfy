/** The scene controller of src/scenes/main-scene/main-scene.ts: on
    initialisation it registers the drag handlers (its wheel handler is
    commented out), frames the camera from the map configuration with `||`
    fallbacks, and creates the unit actor; afterwards it forwards the UI's
    commands to the actor when there is one. */
module MainSceneController {
  import opened Wrappers
  import opened Projection
  import opened IsometricConstants
  import opened RootStateReducer
  import opened CameraInput
  import opened UnitActors

  const DefaultColumns: int := 5
  const DefaultRows: int := 5
  const DefaultTileWidth: int := 32
  const DefaultTileHeight: int := 16
  const SceneZoom: real := 3.0
  /** The number passed with every move the scene queues. */
  const SceneMoveRate: real := 300.0

  /** `value || default` on a number that may be missing: the default
      replaces a missing value and also a 0. */
  function FalsyOr(value: Option<int>, default: int): (r: int)
    ensures value.Some? && value.value != 0 ==> r == value.value
    ensures value.None? || value.value == 0 ==> r == default
  {
    if value.None? || value.value == 0 then default else value.value
  }

  /** The map size and tile size the scene frames the camera with. */
  function SceneMapColumns(state: Option<RootState>): int {
    FalsyOr(if state.None? then None else Some(state.value.mapSample.columns), DefaultColumns)
  }
  function SceneMapRows(state: Option<RootState>): int {
    FalsyOr(if state.None? then None else Some(state.value.mapSample.rows), DefaultRows)
  }
  function SceneTileWidth(state: Option<RootState>): int {
    FalsyOr(if state.None? then None else Some(state.value.mapSample.tileWidth), DefaultTileWidth)
  }
  function SceneTileHeight(state: Option<RootState>): int {
    FalsyOr(if state.None? then None else Some(state.value.mapSample.tileHeight), DefaultTileHeight)
  }

  /** The scene's initial framing: from the configured map, every missing
      or zero field falling back to a 5 by 5 map of 32 by 16 tiles, at zoom 3. */
  function SceneFraming(state: Option<RootState>): (v: View)
    ensures state.None? ==> v == View(80.0, 160.0, SceneZoom)
    ensures v.zoom == SceneZoom
    ensures v == Framing(SceneMapColumns(state), SceneMapRows(state), SceneTileWidth(state), SceneTileHeight(state), SceneZoom)
  {
    DefaultMapFraming(SceneZoom);
    Framing(SceneMapColumns(state), SceneMapRows(state), SceneTileWidth(state), SceneTileHeight(state), SceneZoom)
  }

  /** The grid position the scene hands to the actor: the configured one, or
      (1, 1) without a configuration. The actor's constructor takes no
      arguments, so the value is not used for placement. */
  function RequestedUnitPosition(state: Option<RootState>): (p: UnitPosition)
    ensures state.Some? ==> p == state.value.unitPosition
    ensures state.None? ==> p == UnitPosition(1, 1)
  {
    if state.None? then UnitPosition(1, 1) else state.value.unitPosition
  }

  /** The actor is created at the constant initial position, not at the
      projection of the configured grid position: for the initial state the
      two are (48, 190) and (113.75, 202). */
  lemma SpawnIsNotProjectedPosition()
    ensures RequestedUnitPosition(Some(InitialState)) == UnitPosition(4, 4)
    ensures GetInitialPosition() != ToIsometricPosition(4, 4, Some(168.0), Some(34.0))
  {
    InitialUnitProjection();
  }

  class MainScene {
    var unit: UnitActor?
    var initialState: Option<RootState>

    ghost predicate Valid()
      reads this, unit
    {
      unit != null ==> unit.Valid()
    }

    constructor (initialState: Option<RootState>)
      ensures Valid() && unit == null && this.initialState == initialState
    {
      unit := null;
      this.initialState := initialState;
    }

    method SetInitialState(state: RootState)
      modifies this`initialState
      ensures initialState == Some(state)
    {
      initialState := Some(state);
    }

    /** onInitialize: drag handlers without a wheel handler, the camera
        framed from the configuration, and a fresh actor at the constant
        initial position, whatever grid position was configured. */
    method OnInitialize(camera: Camera) returns (controls: PointerControls)
      modifies this`unit, camera
      ensures Valid()
      ensures fresh(controls) && controls.Valid() && controls.maxZoom == None
      ensures !controls.isDragging && controls.lastX == 0.0 && controls.lastY == 0.0
      ensures View(camera.x, camera.y, camera.zoom) == SceneFraming(initialState)
      ensures unit != null && fresh(unit) && unit.actions == [] && unit.opacity == UnitActors.FullOpacity
      ensures ScreenPosition(unit.x, unit.y) == GetInitialPosition()
      ensures unit.pendingRestorations == 0
      ensures unit.width == 32 && unit.height == 32 && unit.z == 1000 && unit.scale == 0.1875
    {
      controls := new PointerControls(None);
      FrameCamera(camera, SceneMapColumns(initialState), SceneMapRows(initialState),
        SceneTileWidth(initialState), SceneTileHeight(initialState), SceneZoom);
      // The configured position is looked up as the scene does, then dropped:
      // the actor's constructor takes no arguments.
      var requested := RequestedUnitPosition(initialState);
      unit := new UnitActor();
    }

    /** updateUnitPosition: queue a move on the actor if there is one, else do nothing. */
    method UpdateUnitPosition(x: real, y: real)
      requires Valid()
      modifies unit
      ensures Valid()
      ensures unit != null ==> unit.actions == old(unit.actions) + [MoveTo(x, y, SceneMoveRate)]
      ensures unit != null ==> unit.Pose() == old(unit.Pose())
      ensures unit != null ==> unit.FadeState() == old(unit.FadeState())
    {
      if unit == null {
        return;
      }
      unit.QueueMoveTo(x, y, SceneMoveRate);
    }

    /** attackWithUnit: forward to the actor if there is one, else do nothing. */
    method AttackWithUnit()
      requires Valid()
      modifies unit
      ensures Valid()
      ensures unit != null ==> unit.actions == old(unit.actions) + [ScaleBy(AttackGrow, AttackRate), ScaleBy(AttackShrink, AttackRate)]
      ensures unit != null ==> unit.Pose() == old(unit.Pose())
      ensures unit != null ==> unit.FadeState() == old(unit.FadeState())
    {
      if unit == null {
        return;
      }
      unit.Attack();
    }

    /** makeUnitWait: forward to the actor if there is one, else do nothing. */
    method MakeUnitWait()
      requires Valid()
      modifies unit
      ensures Valid()
      ensures unit != null ==> unit.FadeState() == AfterWait(old(unit.FadeState())) && unit.actions == old(unit.actions)
      ensures unit != null ==> unit.Pose() == old(unit.Pose())
    {
      if unit == null {
        return;
      }
      unit.Wait();
    }
  }
}
