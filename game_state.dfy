/** The game session as a value: the script's module-level variables and the
    contents of the nine grid cells, with one function per operation that
    changes them and the invariant every operation keeps. */
module GameState {
  import opened Difficulty

  const Cells: int := 9
  const PointsPerCan: int := 1
  /** The spawn period the script starts with, before any game has run. */
  const InitialSpawnMs: int := 900

  /** What a grid cell holds. Each item carries its own "already resolved" flag. */
  datatype Item = Empty | Can(collected: bool) | Oil(hit: bool)

  type Cell = i: int | 0 <= i < 9

  const EmptyGrid: seq<Item> := [Empty, Empty, Empty, Empty, Empty, Empty, Empty, Empty, Empty]

  type Grid = g: seq<Item> | |g| == 9 witness [Empty, Empty, Empty, Empty, Empty, Empty, Empty, Empty, Empty]

  /** `spawnArmed` and `countdownArmed` say whether the spawn and countdown
      interval handles are set (non-null). */
  datatype State = State(
    cans: int,
    score: int,
    active: bool,
    timeLeft: int,
    spawnMs: int,
    goal: int,
    spawnArmed: bool,
    countdownArmed: bool,
    grid: Grid)

  /** What an operation reports to the presentation: a session started, the
      session ended (won or lost), the board was reset, or nothing of the kind. */
  datatype Signal = Quiet | Started | Won | Lost | Cleared

  function Max(a: int, b: int): int { if a < b then b else a }

  /** At most one cell holds an item. */
  ghost predicate AtMostOneItem(g: Grid) {
    forall i, j :: 0 <= i < j < Cells && g[i] != Empty ==> g[j] == Empty
  }

  /** The session invariant. */
  ghost predicate Inv(s: State) {
    && 0 <= s.score <= s.cans * PointsPerCan
    && (s.active <==> s.spawnArmed)
    && (s.active <==> s.countdownArmed)
    && (s.active ==> s.cans < s.goal && s.timeLeft > 0)
    && (!s.active ==> s.grid == EmptyGrid)
    && AtMostOneItem(s.grid)
  }

  /** The state once the script has loaded and the page has initialised:
      nothing collected, no timers, an empty grid, and the round length and goal
      of the selected difficulty. */
  function Initial(value: string): (s: State)
    ensures Inv(s)
    ensures !s.active && !s.spawnArmed && !s.countdownArmed
    ensures s.cans == 0 && s.score == 0 && s.spawnMs == InitialSpawnMs
    ensures s.timeLeft == SettingsFor(value).time && s.goal == SettingsFor(value).goalPoints
    ensures forall i :: 0 <= i < Cells ==> s.grid[i] == Empty
  {
    var st := SettingsFor(value);
    State(0, 0, false, st.time, InitialSpawnMs, st.goalPoints, false, false, EmptyGrid)
  }

  /** The item a spawn places. */
  function Fresh(isOil: bool): Item {
    if isOil then Oil(false) else Can(false)
  }

  /** The placement half of a spawn: while a game runs, clear every cell and then
      put one unresolved item at `cell`; otherwise do nothing. */
  function Spawn(s: State, isOil: bool, cell: Cell): (r: State)
    ensures !s.active ==> r == s
    ensures s.active ==> r.grid[cell] == Fresh(isOil) && AtMostOneItem(r.grid)
    ensures s.active ==> forall i :: 0 <= i < Cells && i != cell ==> r.grid[i] == Empty
    ensures r.(grid := s.grid) == s
  {
    if !s.active then s else s.(grid := EmptyGrid[cell := Fresh(isOil)])
  }

  /** Both timers cancelled, the game inactive, every item removed; the counters
      are kept for the final message. */
  function End(s: State): (r: State)
    ensures !r.active && !r.spawnArmed && !r.countdownArmed
    ensures r.grid == EmptyGrid
    ensures r.cans == s.cans && r.score == s.score && r.timeLeft == s.timeLeft
    ensures r.goal == s.goal && r.spawnMs == s.spawnMs
  {
    s.(active := false, spawnArmed := false, countdownArmed := false, grid := EmptyGrid)
  }

  /** A can responds to a click only while a game runs and it is not yet collected. */
  predicate Collectable(s: State, cell: Cell) {
    s.active && s.grid[cell] == Can(false)
  }

  /** Collecting the can at `cell`: one more can, `PointsPerCan` more points, the
      can marked collected, and the game won once the can count reaches the goal. */
  function Collect(s: State, cell: Cell): (r: (State, Signal))
    ensures !Collectable(s, cell) ==> r == (s, Quiet)
    ensures Collectable(s, cell) ==> r.0.cans == s.cans + 1 && r.0.score == s.score + PointsPerCan
    ensures r.1 == Won <==> Collectable(s, cell) && s.cans + 1 >= s.goal
    ensures r.1 == Won || r.1 == Quiet
    ensures r.1 == Won ==>
      r.0 == End(s.(cans := s.cans + 1, score := s.score + PointsPerCan, grid := s.grid[cell := Can(true)]))
    ensures Collectable(s, cell) && r.1 == Quiet ==>
      r.0 == s.(cans := s.cans + 1, score := s.score + PointsPerCan, grid := s.grid[cell := Can(true)])
  {
    if !Collectable(s, cell) then (s, Quiet)
    else
      var t := s.(grid := s.grid[cell := Can(true)], cans := s.cans + 1, score := s.score + PointsPerCan);
      if t.cans >= t.goal then (End(t), Won) else (t, Quiet)
  }

  /** An oil tank responds to a click only while a game runs and it is not yet hit. */
  predicate Hittable(s: State, cell: Cell) {
    s.active && s.grid[cell] == Oil(false)
  }

  /** Hitting the oil tank at `cell` with `value` selected at that moment: the tank
      is marked hit, and the score drops by the penalty but not below zero. For a
      name that is not a preset the penalty lookup fails after the tank is marked,
      so the score stays as it was. */
  function HitOil(s: State, cell: Cell, value: string): (r: State)
    ensures !Hittable(s, cell) ==> r == s
    ensures Hittable(s, cell) ==> r.grid == s.grid[cell := Oil(true)]
    ensures r.(score := s.score, grid := s.grid) == s
    ensures 0 <= s.score ==> 0 <= r.score <= s.score
    ensures Hittable(s, cell) && PenaltyFor(value).Some? ==>
      r.score == Max(0, s.score - PenaltyFor(value).value)
    ensures PenaltyFor(value).None? ==> r.score == s.score
  {
    if !Hittable(s, cell) then s
    else
      var t := s.(grid := s.grid[cell := Oil(true)]);
      match PenaltyFor(value)
      case None => t
      case Some(p) => t.(score := Max(0, t.score - p))
  }

  /** One firing of the countdown timer: one second less, and the game lost when
      no time is left. The callback itself does not look at whether a game runs;
      it can only fire while its timer is set. */
  function Tick(s: State): (r: (State, Signal))
    requires s.countdownArmed
    ensures r.0.timeLeft == s.timeLeft - 1
    ensures r.1 == Lost <==> s.timeLeft - 1 <= 0
    ensures r.1 == Lost || r.1 == Quiet
    ensures r.1 == Lost ==> r.0 == End(s.(timeLeft := s.timeLeft - 1))
    ensures r.1 == Quiet ==> r.0 == s.(timeLeft := s.timeLeft - 1)
  {
    var t := s.(timeLeft := s.timeLeft - 1);
    if t.timeLeft <= 0 then (End(t), Lost) else (t, Quiet)
  }

  /** Starting a game with `value` selected; `isOil` and `cell` are the random
      choices of the first spawn. Nothing happens while a game runs. */
  function Start(s: State, value: string, isOil: bool, cell: Cell): (r: State)
    ensures s.active ==> r == s
    ensures !s.active ==> r.active && r.spawnArmed && r.countdownArmed
    ensures !s.active ==> r.cans == 0 && r.score == 0
    ensures !s.active ==> r.timeLeft == SettingsFor(value).time && r.goal == SettingsFor(value).goalPoints
    ensures !s.active ==> r.spawnMs == SettingsFor(value).spawnMs
    ensures !s.active ==> r.grid == EmptyGrid[cell := Fresh(isOil)]
  {
    if s.active then s
    else
      var st := SettingsFor(value);
      var t := s.(active := true, grid := EmptyGrid, spawnMs := st.spawnMs, timeLeft := st.time,
                  goal := st.goalPoints, cans := 0, score := 0, spawnArmed := true);
      Spawn(t, isOil, cell).(countdownArmed := true)
  }

  /** Resetting with `value` selected: the game stops, both timers are cancelled,
      the counters are zeroed, the round length and goal are reloaded, and the grid
      is cleared. The spawn period is left as it was. */
  function Reset(s: State, value: string): (r: State)
    ensures !r.active && !r.spawnArmed && !r.countdownArmed
    ensures r.cans == 0 && r.score == 0 && r.grid == EmptyGrid
    ensures r.timeLeft == SettingsFor(value).time && r.goal == SettingsFor(value).goalPoints
    ensures r.spawnMs == s.spawnMs
  {
    var st := SettingsFor(value);
    State(0, 0, false, st.time, s.spawnMs, st.goalPoints, false, false, EmptyGrid)
  }

  // Every operation keeps the invariant.

  lemma SpawnKeepsInv(s: State, isOil: bool, cell: Cell)
    requires Inv(s)
    ensures Inv(Spawn(s, isOil, cell))
  {
  }

  lemma CollectKeepsInv(s: State, cell: Cell)
    requires Inv(s)
    ensures Inv(Collect(s, cell).0)
  {
  }

  lemma HitOilKeepsInv(s: State, cell: Cell, value: string)
    requires Inv(s)
    ensures Inv(HitOil(s, cell, value))
  {
  }

  lemma TickKeepsInv(s: State)
    requires Inv(s) && s.countdownArmed
    ensures Inv(Tick(s).0)
  {
  }

  lemma StartKeepsInv(s: State, value: string, isOil: bool, cell: Cell)
    requires Inv(s)
    ensures Inv(Start(s, value, isOil, cell))
  {
  }

  lemma ResetKeepsInv(s: State, value: string)
    requires Inv(s)
    ensures Inv(Reset(s, value))
  {
  }

  // Properties of single operations.

  /** A can resolves at most once: collecting it a second time changes nothing. */
  lemma CollectTwiceIsCollectOnce(s: State, cell: Cell)
    ensures Collect(Collect(s, cell).0, cell) == (Collect(s, cell).0, Quiet)
  {
  }

  /** An oil tank applies its penalty at most once. */
  lemma HitTwiceIsHitOnce(s: State, cell: Cell, value: string, value': string)
    ensures HitOil(HitOil(s, cell, value), cell, value') == HitOil(s, cell, value)
  {
  }

  /** Winning depends on the can count and the goal, never on the score. */
  lemma WinIgnoresScore(s: State, cell: Cell, otherScore: int)
    ensures Collect(s, cell).1 == Collect(s.(score := otherScore), cell).1
  {
  }
}
