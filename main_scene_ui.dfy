/** The button handlers of src/scenes/main-scene/main-scene-component.tsx.
    Each handler is modelled as the ordered list of effects it performs:
    calls on the scene and dispatches to the world-state reducer. A move
    computes the new grid position from the current state, sends its
    projection to the scene first, then dispatches the grid position. */
module MainSceneUi {
  import opened Wrappers
  import opened Projection
  import opened RootStateReducer

  datatype Effect =
    | SceneUpdateUnitPosition(target: ScreenPosition)
    | SceneAttackWithUnit
    | SceneMakeUnitWait
    | Dispatch(action: Action)
    | GoToScene(name: string)

  /** The screen position of a grid position under the state's map configuration. */
  function ProjectFor(state: RootState, x: int, y: int): ScreenPosition {
    ToIsometricPosition(x, y, Some(state.mapSample.screenOriginY), Some(state.mapSample.screenOffsetY))
  }

  /** Where the unit is drawn for a state. */
  function ProjectedUnit(state: RootState): ScreenPosition {
    ProjectFor(state, state.unitPosition.x, state.unitPosition.y)
  }

  /** The state after the dispatches among a handler's effects. */
  function Dispatched(state: RootState, effects: seq<Effect>): RootState
    decreases |effects|
  {
    if effects == [] then state
    else Dispatched(if effects[0].Dispatch? then Reduce(state, effects[0].action) else state, effects[1..])
  }

  /** The scene calls among a handler's effects, in order. */
  function SceneCalls(effects: seq<Effect>): seq<Effect>
    decreases |effects|
  {
    if effects == [] then []
    else (if effects[0].Dispatch? then [] else [effects[0]]) + SceneCalls(effects[1..])
  }

  /** The shape shared by the four moves and the reset: send the projection
      of the target to the scene, then store the target grid position. */
  function GoTo(state: RootState, x: int, y: int): seq<Effect> {
    [SceneUpdateUnitPosition(ProjectFor(state, x, y)), Dispatch(SetUnitPosition(x, y))]
  }

  /** A handler that moves the unit by one grid step: the stored result is
      the current state moved by that step, and the scene is sent the screen
      position of exactly that stored result, before the dispatch. */
  predicate StepsBy(state: RootState, effects: seq<Effect>, dx: int, dy: int) {
    |effects| == 2 && effects[0].SceneUpdateUnitPosition? && effects[1].Dispatch?
    && effects[1].action.SetUnitPosition?
    && Reduce(state, effects[1].action) == Reduce(state, MoveUnit(dx, dy))
    && effects[0].target == ProjectedUnit(Reduce(state, effects[1].action))
  }

  /** onMoveUp: one step along +x. */
  function OnMoveUp(state: RootState): (effects: seq<Effect>)
    ensures StepsBy(state, effects, 1, 0)
  {
    GoTo(state, state.unitPosition.x + 1, state.unitPosition.y)
  }

  /** onMoveDown: one step along -x. */
  function OnMoveDown(state: RootState): (effects: seq<Effect>)
    ensures StepsBy(state, effects, -1, 0)
  {
    GoTo(state, state.unitPosition.x - 1, state.unitPosition.y)
  }

  /** onMoveLeft: one step along -y. */
  function OnMoveLeft(state: RootState): (effects: seq<Effect>)
    ensures StepsBy(state, effects, 0, -1)
  {
    GoTo(state, state.unitPosition.x, state.unitPosition.y - 1)
  }

  /** onMoveRight: one step along +y. */
  function OnMoveRight(state: RootState): (effects: seq<Effect>)
    ensures StepsBy(state, effects, 0, 1)
  {
    GoTo(state, state.unitPosition.x, state.unitPosition.y + 1)
  }

  /** The reset coordinate for a map dimension: half of it when even, the
      floor of the half plus one when odd; that is, the half rounded up. */
  function ResetCentre(n: int): (c: int)
    ensures 2 * c - 1 <= n <= 2 * c
    ensures n >= 1 ==> 1 <= c <= n
  {
    if n % 2 == 0 then n / 2 else n / 2 + 1
  }

  /** onCancel: the unit goes back to the map centre, stored as a grid
      position, and the scene is sent its projection. */
  function OnCancel(state: RootState): (effects: seq<Effect>)
    ensures |effects| == 2 && effects[1].Dispatch?
    ensures Dispatched(state, effects)
            == state.(unitPosition := UnitPosition(ResetCentre(state.mapSample.columns), ResetCentre(state.mapSample.rows)))
    ensures effects[0] == SceneUpdateUnitPosition(ProjectedUnit(Dispatched(state, effects)))
  {
    var resetGridX := ResetCentre(state.mapSample.columns);
    var resetGridY := ResetCentre(state.mapSample.rows);
    DispatchedGoTo(state, resetGridX, resetGridY);
    GoTo(state, resetGridX, resetGridY)
  }

  /** The level button only dispatches INCREMENT_LEVEL. */
  function OnLevelButton(): (effects: seq<Effect>)
    ensures SceneCalls(effects) == []
    ensures forall state :: Dispatched(state, effects) == Reduce(state, IncrementLevel)
  {
    var effects := [Dispatch(IncrementLevel)];
    assert effects[1..] == [];
    effects
  }

  /** onAttack: calls the scene and dispatches nothing. */
  function OnAttack(): (effects: seq<Effect>)
    ensures SceneCalls(effects) == [SceneAttackWithUnit]
    ensures forall state :: Dispatched(state, effects) == state
  {
    var effects := [SceneAttackWithUnit];
    assert effects[1..] == [];
    effects
  }

  /** onWait: calls the scene and dispatches nothing. */
  function OnWait(): (effects: seq<Effect>)
    ensures SceneCalls(effects) == [SceneMakeUnitWait]
    ensures forall state :: Dispatched(state, effects) == state
  {
    var effects := [SceneMakeUnitWait];
    assert effects[1..] == [];
    effects
  }

  /** onSettings: asks to switch to the settings scene. */
  function OnSettings(): (effects: seq<Effect>)
    ensures SceneCalls(effects) == [GoToScene("settings")]
    ensures forall state :: Dispatched(state, effects) == state
  {
    var effects := [GoToScene("settings")];
    assert effects[1..] == [];
    effects
  }

  lemma DispatchedGoTo(state: RootState, x: int, y: int)
    ensures Dispatched(state, GoTo(state, x, y)) == Reduce(state, SetUnitPosition(x, y))
    ensures SceneCalls(GoTo(state, x, y)) == [GoTo(state, x, y)[0]]
  {
    var effects := GoTo(state, x, y);
    assert effects[1..] == [Dispatch(SetUnitPosition(x, y))];
    assert effects[1..][1..] == [];
    assert Dispatched(state, effects) == Dispatched(state, effects[1..]);
    assert Dispatched(state, effects[1..]) == Dispatched(Reduce(state, SetUnitPosition(x, y)), []);
    assert SceneCalls(effects[1..]) == [] + SceneCalls([]);
  }

  /** Up then Down, each handled on the state the previous one produced,
      returns the whole state to where it started. */
  lemma UpThenDownReturns(state: RootState)
    ensures Dispatched(Dispatched(state, OnMoveUp(state)), OnMoveDown(Dispatched(state, OnMoveUp(state)))) == state
  {
    DispatchedGoTo(state, state.unitPosition.x + 1, state.unitPosition.y);
    var s1 := Dispatched(state, OnMoveUp(state));
    DispatchedGoTo(s1, s1.unitPosition.x - 1, s1.unitPosition.y);
  }

  /** Left then Right returns the whole state to where it started. */
  lemma LeftThenRightReturns(state: RootState)
    ensures Dispatched(Dispatched(state, OnMoveLeft(state)), OnMoveRight(Dispatched(state, OnMoveLeft(state)))) == state
  {
    DispatchedGoTo(state, state.unitPosition.x, state.unitPosition.y - 1);
    var s1 := Dispatched(state, OnMoveLeft(state));
    DispatchedGoTo(s1, s1.unitPosition.x, s1.unitPosition.y + 1);
  }

  /** Each move stores exactly what a MOVE_UNIT by its step would, and the
      screen position sent to the scene is the projection of the stored
      position: the view is in step with the world state after every move. */
  lemma MovesKeepViewInSync(state: RootState)
    ensures Dispatched(state, OnMoveUp(state)) == Reduce(state, MoveUnit(1, 0))
    ensures Dispatched(state, OnMoveDown(state)) == Reduce(state, MoveUnit(-1, 0))
    ensures Dispatched(state, OnMoveLeft(state)) == Reduce(state, MoveUnit(0, -1))
    ensures Dispatched(state, OnMoveRight(state)) == Reduce(state, MoveUnit(0, 1))
    ensures SceneCalls(OnMoveUp(state)) == [SceneUpdateUnitPosition(ProjectedUnit(Dispatched(state, OnMoveUp(state))))]
  {
    DispatchedGoTo(state, state.unitPosition.x + 1, state.unitPosition.y);
    DispatchedGoTo(state, state.unitPosition.x - 1, state.unitPosition.y);
    DispatchedGoTo(state, state.unitPosition.x, state.unitPosition.y - 1);
    DispatchedGoTo(state, state.unitPosition.x, state.unitPosition.y + 1);
  }

  /** On the initial 5 by 5 map, reset puts the unit at (3, 3). */
  lemma ResetOnInitialMap()
    ensures Dispatched(InitialState, OnCancel(InitialState)).unitPosition == UnitPosition(3, 3)
  {
  }
}
