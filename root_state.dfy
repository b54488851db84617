/** The world-state reducer of src/reducers/root-state: an immutable record
    of level, unit grid position and map configuration, advanced by one of
    four actions. Each action returns a fresh record; none touches the map
    configuration and none checks the position against the map bounds. */
module RootStateReducer {

  datatype UnitPosition = UnitPosition(x: int, y: int)

  /** `map.mapSample` of the source record. */
  datatype MapConfig = MapConfig(
    columns: int, rows: int, tileWidth: int, tileHeight: int,
    screenOriginY: real, screenOffsetY: real)

  /** The source nests the map configuration as `map.mapSample`; since `map`
      is a keyword here, the one-key wrapper is flattened into `mapSample`. */
  datatype RootState = RootState(level: int, unitPosition: UnitPosition, mapSample: MapConfig)

  /** The closed union of action kinds; an action of any other type cannot be
      built, so the source's fall-through `return state` has no counterpart. */
  datatype Action =
    | IncrementLevel
    | SetLevel(value: int)
    | SetUnitPosition(x: int, y: int)
    | MoveUnit(dx: int, dy: int)

  /** INITIAL_STATE: level 2, the unit at (4, 4), a 5 by 5 map of 32 by 16
      tiles drawn from origin 168 with offset 34. */
  const InitialState: RootState := RootState(
    2, UnitPosition(4, 4), MapConfig(5, 5, 32, 16, 168.0, 34.0))

  /** rootStateReducer. The map configuration is always kept; the level
      changes only for the two level actions and the position only for the
      two position actions. */
  function Reduce(state: RootState, action: Action): (r: RootState)
    ensures r.mapSample == state.mapSample
    ensures action.IncrementLevel? ==> r.level == state.level + 1 && r.unitPosition == state.unitPosition
    ensures action.SetLevel? ==> r.level == action.value && r.unitPosition == state.unitPosition
    ensures action.SetUnitPosition? ==> r.level == state.level && r.unitPosition == UnitPosition(action.x, action.y)
    ensures action.MoveUnit? ==>
              (r.level == state.level
               && r.unitPosition.x - state.unitPosition.x == action.dx
               && r.unitPosition.y - state.unitPosition.y == action.dy)
  {
    match action
    case IncrementLevel => state.(level := state.level + 1)
    case SetLevel(v) => state.(level := v)
    case SetUnitPosition(x, y) => state.(unitPosition := UnitPosition(x, y))
    case MoveUnit(dx, dy) =>
      state.(unitPosition := UnitPosition(state.unitPosition.x + dx, state.unitPosition.y + dy))
  }

  /** The state after dispatching a sequence of actions in order. */
  function ReduceAll(state: RootState, actions: seq<Action>): RootState
    decreases |actions|
  {
    if actions == [] then state else ReduceAll(Reduce(state, actions[0]), actions[1..])
  }

  /** Setting the position forgets the prior one, so setting twice is
      setting once. */
  lemma SetUnitPositionIdempotent(state: RootState, x: int, y: int)
    ensures Reduce(Reduce(state, SetUnitPosition(x, y)), SetUnitPosition(x, y)) == Reduce(state, SetUnitPosition(x, y))
    ensures forall other: UnitPosition :: Reduce(state.(unitPosition := other), SetUnitPosition(x, y)) == Reduce(state, SetUnitPosition(x, y))
  {
  }

  /** A move followed by the opposite move restores the whole state. */
  lemma MoveUnitInverse(state: RootState, dx: int, dy: int)
    ensures Reduce(Reduce(state, MoveUnit(dx, dy)), MoveUnit(-dx, -dy)) == state
  {
  }

  /** Two moves compose into one move by the sum of the deltas. */
  lemma MoveUnitCompose(state: RootState, a: int, b: int, c: int, d: int)
    ensures Reduce(Reduce(state, MoveUnit(a, b)), MoveUnit(c, d)) == Reduce(state, MoveUnit(a + c, b + d))
  {
  }

  /** No sequence of actions changes the map configuration. */
  lemma {:induction false} MapNeverChanges(state: RootState, actions: seq<Action>)
    ensures ReduceAll(state, actions).mapSample == state.mapSample
    decreases |actions|
  {
    if actions != [] {
      MapNeverChanges(Reduce(state, actions[0]), actions[1..]);
    }
  }

  /** Positions are never checked against the map size: any position, inside
      or outside the columns and rows, can be reached from any state. */
  lemma PositionIsUnbounded(state: RootState, x: int, y: int)
    ensures Reduce(state, SetUnitPosition(x, y)).unitPosition == UnitPosition(x, y)
    ensures Reduce(state, MoveUnit(x - state.unitPosition.x, y - state.unitPosition.y)).unitPosition == UnitPosition(x, y)
  {
  }

  function SumDx(actions: seq<Action>): int
    decreases |actions|
  {
    if actions == [] then 0 else (if actions[0].MoveUnit? then actions[0].dx else 0) + SumDx(actions[1..])
  }

  function SumDy(actions: seq<Action>): int
    decreases |actions|
  {
    if actions == [] then 0 else (if actions[0].MoveUnit? then actions[0].dy else 0) + SumDy(actions[1..])
  }

  predicate NoSetPosition(actions: seq<Action>) {
    forall i :: 0 <= i < |actions| ==> !actions[i].SetUnitPosition?
  }

  /** Without a SET_UNIT_POSITION in between, the moves of a sequence add
      up: the final position is the start plus the sum of all deltas. */
  lemma {:induction false} MovesAccumulate(state: RootState, actions: seq<Action>)
    requires NoSetPosition(actions)
    ensures ReduceAll(state, actions).unitPosition
            == UnitPosition(state.unitPosition.x + SumDx(actions), state.unitPosition.y + SumDy(actions))
    decreases |actions|
  {
    if actions != [] {
      assert NoSetPosition(actions[1..]) by {
        forall i | 0 <= i < |actions[1..]| ensures !actions[1..][i].SetUnitPosition? {
          assert actions[1..][i] == actions[i + 1];
        }
      }
      MovesAccumulate(Reduce(state, actions[0]), actions[1..]);
    }
  }

  /** SET_UNIT_POSITION(2, 3) on any state places the unit at (2, 3) and
      leaves level and map as they were. */
  lemma SetUnitPositionExample(state: RootState)
    ensures Reduce(state, SetUnitPosition(2, 3)) == RootState(state.level, UnitPosition(2, 3), state.mapSample)
  {
  }
}
