/** The game slice of src/store/game-slice.ts: a status machine, a health
    value clamped to [0, playerMaxHealth], and counters. The reducers assign
    fields of the draft in place; `Apply` is the value-level reading of one
    reducer call, and the store's methods are proved against it. */
module GameSlice {
  import opened Wrappers

  datatype GameStatus = Idle | Loading | Playing | Paused | GameOver

  datatype GameState = GameState(
    status: GameStatus,
    currentLevel: int,
    score: int,
    playerHealth: int,
    playerMaxHealth: int,
    turn: int,
    selectedUnit: Option<string>)

  /** initialState: idle at level 1, score 0, health 100 of 100, turn 1, no unit selected. */
  const InitialGameState: GameState := GameState(Idle, 1, 0, 100, 100, 1, None)

  /** The ten reducers, as actions. */
  datatype GameAction =
    | SetGameStatus(status: GameStatus)
    | StartGame
    | PauseGame
    | ResumeGame
    | EndGame
    | NextLevel
    | UpdateScore(points: int)
    | SetPlayerHealth(health: int)
    | IncrementTurn
    | SelectUnit(unit: Option<string>)

  /** pauseGame's status rule: only a running game pauses. */
  function AfterPause(s: GameStatus): (r: GameStatus)
    ensures s == Playing ==> r == Paused
    ensures s != Playing ==> r == s
  {
    if s == Playing then Paused else s
  }

  /** resumeGame's status rule: only a paused game resumes. */
  function AfterResume(s: GameStatus): (r: GameStatus)
    ensures s == Paused ==> r == Playing
    ensures s != Paused ==> r == s
  {
    if s == Paused then Playing else s
  }

  /** setPlayerHealth's clamp: the requested value cut to [0, max]. */
  function ClampHealth(value: int, max: int): (h: int)
    requires max >= 0
    ensures 0 <= h <= max
    ensures 0 <= value <= max ==> h == value
    ensures value > max ==> h == max
    ensures value < 0 ==> h == 0
  {
    var capped := if value <= max then value else max;
    if capped >= 0 then capped else 0
  }

  predicate HealthInRange(s: GameState) {
    0 <= s.playerHealth <= s.playerMaxHealth
  }

  /** One reducer call. Each reducer writes only its own fields; none writes
      playerMaxHealth, so every reducer keeps the health within range. */
  function Apply(s: GameState, a: GameAction): (r: GameState)
    requires HealthInRange(s)
    ensures HealthInRange(r)
    ensures r.playerMaxHealth == s.playerMaxHealth
  {
    match a
    case SetGameStatus(st) => s.(status := st)
    case StartGame => s.(status := Playing, score := 0, playerHealth := s.playerMaxHealth, turn := 1)
    case PauseGame => s.(status := AfterPause(s.status))
    case ResumeGame => s.(status := AfterResume(s.status))
    case EndGame => s.(status := GameOver)
    case NextLevel => s.(currentLevel := s.currentLevel + 1)
    case UpdateScore(p) => s.(score := s.score + p)
    case SetPlayerHealth(v) => s.(playerHealth := ClampHealth(v, s.playerMaxHealth))
    case IncrementTurn => s.(turn := s.turn + 1)
    case SelectUnit(u) => s.(selectedUnit := u)
  }

  function ApplyAll(s: GameState, actions: seq<GameAction>): (r: GameState)
    requires HealthInRange(s)
    ensures HealthInRange(r)
    decreases |actions|
  {
    if actions == [] then s else ApplyAll(Apply(s, actions[0]), actions[1..])
  }

  /** From the initial state, after any sequence of reducer calls, the
      maximum is still 100 and the health lies in [0, 100]. */
  lemma {:induction false} HealthStaysInRange(s: GameState, actions: seq<GameAction>)
    requires HealthInRange(s)
    ensures ApplyAll(s, actions).playerMaxHealth == s.playerMaxHealth
    ensures 0 <= ApplyAll(s, actions).playerHealth <= s.playerMaxHealth
    decreases |actions|
  {
    if actions != [] {
      HealthStaysInRange(Apply(s, actions[0]), actions[1..]);
    }
  }

  /** Pausing then resuming gets back to the status one started from, unless
      the game was already paused (then it ends up playing). */
  lemma PauseThenResume(s: GameState)
    requires HealthInRange(s)
    ensures s.status != Paused ==> Apply(Apply(s, PauseGame), ResumeGame) == s
    ensures s.status == Paused ==> Apply(Apply(s, PauseGame), ResumeGame).status == Playing
  {
  }

  /** pauseGame and resumeGame are no-ops outside their source status. */
  lemma PauseResumeGuards(s: GameState)
    requires HealthInRange(s)
    ensures s.status != Playing ==> Apply(s, PauseGame) == s
    ensures s.status != Paused ==> Apply(s, ResumeGame) == s
  {
  }

  /** startGame resets the run but keeps level, selection and maximum. */
  lemma StartGameKeeps(s: GameState)
    requires HealthInRange(s)
    ensures var r := Apply(s, StartGame);
      r.status == Playing && r.score == 0 && r.playerHealth == s.playerMaxHealth && r.turn == 1
      && r.currentLevel == s.currentLevel && r.selectedUnit == s.selectedUnit
      && r.playerMaxHealth == s.playerMaxHealth
  {
  }

  /** endGame ends the game from every status, including an idle or paused
      one, and changes nothing else. */
  lemma EndGameFromAnyStatus(s: GameState)
    requires HealthInRange(s)
    ensures var r := Apply(s, EndGame);
      r.status == GameOver && r.currentLevel == s.currentLevel && r.score == s.score
      && r.playerHealth == s.playerHealth && r.playerMaxHealth == s.playerMaxHealth
      && r.turn == s.turn && r.selectedUnit == s.selectedUnit
  {
  }

  /** setGameStatus writes its payload to the status and leaves every other
      field as it was; it skips the pause and resume guards. */
  lemma SetGameStatusTouchesOwnField(s: GameState, st: GameStatus)
    requires HealthInRange(s)
    ensures var r := Apply(s, SetGameStatus(st));
      r.status == st && r.currentLevel == s.currentLevel && r.score == s.score
      && r.playerHealth == s.playerHealth && r.playerMaxHealth == s.playerMaxHealth
      && r.turn == s.turn && r.selectedUnit == s.selectedUnit
  {
  }

  /** selectUnit writes its payload to the selection and leaves every other
      field as it was. */
  lemma SelectUnitTouchesOwnField(s: GameState, u: Option<string>)
    requires HealthInRange(s)
    ensures var r := Apply(s, SelectUnit(u));
      r.selectedUnit == u && r.status == s.status && r.currentLevel == s.currentLevel
      && r.score == s.score && r.playerHealth == s.playerHealth
      && r.playerMaxHealth == s.playerMaxHealth && r.turn == s.turn
  {
  }

  /** The counters only add: nextLevel and incrementTurn by one, updateScore
      by its payload, each leaving every other field as it was. */
  lemma CountersAdd(s: GameState, p: int)
    requires HealthInRange(s)
    ensures Apply(s, NextLevel) == s.(currentLevel := s.currentLevel + 1)
    ensures Apply(s, IncrementTurn) == s.(turn := s.turn + 1)
    ensures Apply(s, UpdateScore(p)) == s.(score := s.score + p)
    ensures Apply(Apply(s, UpdateScore(p)), UpdateScore(-p)) == s
  {
  }

  /** The store holding the slice's state, updated in place by the reducers. */
  class GameStore {
    var status: GameStatus
    var currentLevel: int
    var score: int
    var playerHealth: int
    var playerMaxHealth: int
    var turn: int
    var selectedUnit: Option<string>

    function State(): GameState
      reads this
    {
      GameState(status, currentLevel, score, playerHealth, playerMaxHealth, turn, selectedUnit)
    }

    ghost predicate Valid()
      reads this
    {
      HealthInRange(State())
    }

    constructor ()
      ensures Valid() && State() == InitialGameState
    {
      status := Idle;
      currentLevel := 1;
      score := 0;
      playerHealth := 100;
      playerMaxHealth := 100;
      turn := 1;
      selectedUnit := None;
    }

    method SetGameStatus(st: GameStatus)
      requires Valid()
      modifies this
      ensures Valid() && State() == Apply(old(State()), GameAction.SetGameStatus(st))
    {
      status := st;
    }

    method StartGame()
      requires Valid()
      modifies this
      ensures Valid() && State() == Apply(old(State()), GameAction.StartGame)
    {
      status := Playing;
      score := 0;
      playerHealth := playerMaxHealth;
      turn := 1;
    }

    method PauseGame()
      requires Valid()
      modifies this
      ensures Valid() && State() == Apply(old(State()), GameAction.PauseGame)
    {
      if status == Playing {
        status := Paused;
      }
    }

    method ResumeGame()
      requires Valid()
      modifies this
      ensures Valid() && State() == Apply(old(State()), GameAction.ResumeGame)
    {
      if status == Paused {
        status := Playing;
      }
    }

    method EndGame()
      requires Valid()
      modifies this
      ensures Valid() && State() == Apply(old(State()), GameAction.EndGame)
    {
      status := GameOver;
    }

    method NextLevel()
      requires Valid()
      modifies this
      ensures Valid() && State() == Apply(old(State()), GameAction.NextLevel)
    {
      currentLevel := currentLevel + 1;
    }

    method UpdateScore(points: int)
      requires Valid()
      modifies this
      ensures Valid() && State() == Apply(old(State()), GameAction.UpdateScore(points))
    {
      score := score + points;
    }

    method SetPlayerHealth(health: int)
      requires Valid()
      modifies this
      ensures Valid() && State() == Apply(old(State()), GameAction.SetPlayerHealth(health))
    {
      var capped := if health <= playerMaxHealth then health else playerMaxHealth;
      playerHealth := if capped >= 0 then capped else 0;
    }

    method IncrementTurn()
      requires Valid()
      modifies this
      ensures Valid() && State() == Apply(old(State()), GameAction.IncrementTurn)
    {
      turn := turn + 1;
    }

    method SelectUnit(unit: Option<string>)
      requires Valid()
      modifies this
      ensures Valid() && State() == Apply(old(State()), GameAction.SelectUnit(unit))
    {
      selectedUnit := unit;
    }
  }
}
