/** The script's session: its module-level variables as the fields of one object,
    and the nine grid cells as an array updated in place. Every operation is
    proved to change the object exactly as the matching function of GameState
    changes the state value. */
module Game {
  import opened Difficulty
  import opened GameState
  import G = GameState

  class Session {
    var cans: int            // currentCans
    var score: int
    var active: bool         // gameActive
    var timeLeft: int
    var spawnMs: int         // activeSpawnMs
    var goal: int            // winThreshold
    var spawnArmed: bool     // spawnInterval != null
    var countdownArmed: bool // countdownInterval != null
    const grid: array<Item>  // the nine grid cells

    /** The session as a value. */
    function Snapshot(): State
      reads this, grid
      requires grid.Length == Cells
    {
      State(cans, score, active, timeLeft, spawnMs, goal, spawnArmed, countdownArmed, grid[..])
    }

    ghost predicate Valid()
      reads this, grid
    {
      grid.Length == Cells && Inv(Snapshot())
    }

    /** Loading the script and initialising the page with `value` selected. */
    constructor (value: string)
      ensures Valid() && fresh(grid)
      ensures Snapshot() == Initial(value)
    {
      var st := SettingsFor(value);
      cans, score, active := 0, 0, false;
      spawnArmed, countdownArmed := false, false;
      spawnMs := InitialSpawnMs;
      timeLeft, goal := st.time, st.goalPoints;
      grid := new Item[Cells](_ => Empty);
      new;
      assert grid[..] == EmptyGrid;
    }

    /** Empties every cell: what building the grid, clearing the cells and removing
        every item at the end of a game each do to the cells. */
    method ClearCells()
      requires grid.Length == Cells
      modifies grid
      ensures grid[..] == EmptyGrid
    {
      for i := 0 to grid.Length
        invariant forall k :: 0 <= k < i ==> grid[k] == Empty
      {
        grid[i] := Empty;
      }
      assert grid[..] == EmptyGrid;
    }

    /** The placement half of a spawn tick. */
    method SpawnWaterCan(isOil: bool, cell: Cell)
      requires grid.Length == Cells
      modifies grid
      ensures Snapshot() == G.Spawn(old(Snapshot()), isOil, cell)
    {
      if !active {
        return;
      }
      ClearCells();
      grid[cell] := Fresh(isOil);
    }

    /** Stops the game: returns the outcome it reports to the player. */
    method EndGame(won: bool) returns (outcome: Signal)
      requires grid.Length == Cells
      modifies this, grid
      ensures Snapshot() == End(old(Snapshot()))
      ensures outcome == if won then Won else Lost
    {
      active := false;
      spawnArmed := false;
      countdownArmed := false;
      ClearCells();
      outcome := if won then Won else Lost;
    }

    /** The start button. `isOil` and `cell` are the random choices of the
        spawn that a start runs at once. */
    method StartGame(value: string, isOil: bool, cell: Cell)
      requires Valid()
      modifies this, grid
      ensures Valid()
      ensures Snapshot() == G.Start(old(Snapshot()), value, isOil, cell)
    {
      ghost var s := Snapshot();
      StartKeepsInv(s, value, isOil, cell);
      if active {
        return;
      }
      active := true;
      ClearCells();
      var st := SettingsFor(value);
      spawnMs := st.spawnMs;
      timeLeft := st.time;
      goal := st.goalPoints;
      cans := 0;
      score := 0;
      spawnArmed := true;
      SpawnWaterCan(isOil, cell);
      countdownArmed := true;
    }

    /** A click on the can at `cell`. */
    method Collect(cell: Cell) returns (signal: Signal)
      requires Valid()
      modifies this, grid
      ensures Valid()
      ensures (Snapshot(), signal) == G.Collect(old(Snapshot()), cell)
    {
      ghost var s := Snapshot();
      CollectKeepsInv(s, cell);
      if !active || grid[cell] != Can(false) {
        return Quiet;
      }
      grid[cell] := Can(true);
      cans := cans + 1;
      score := score + PointsPerCan;
      if cans >= goal {
        signal := EndGame(true);
      } else {
        signal := Quiet;
      }
    }

    /** A click on the oil tank at `cell`, with `value` selected at that moment. */
    method HitOil(cell: Cell, value: string)
      requires Valid()
      modifies this, grid
      ensures Valid()
      ensures Snapshot() == G.HitOil(old(Snapshot()), cell, value)
    {
      ghost var s := Snapshot();
      HitOilKeepsInv(s, cell, value);
      if !active || grid[cell] != Oil(false) {
        return;
      }
      grid[cell] := Oil(true);
      var penalty := PenaltyFor(value);
      if penalty.Some? {
        score := Max(0, score - penalty.value);
      }
    }

    /** One firing of the countdown timer, which can happen only while it is set. */
    method CountdownTick() returns (signal: Signal)
      requires Valid() && countdownArmed
      modifies this, grid
      ensures Valid()
      ensures (Snapshot(), signal) == Tick(old(Snapshot()))
    {
      ghost var s := Snapshot();
      TickKeepsInv(s);
      timeLeft := timeLeft - 1;
      if timeLeft <= 0 {
        signal := EndGame(false);
      } else {
        signal := Quiet;
      }
    }

    /** The reset button, with `value` selected. */
    method ResetGame(value: string)
      requires Valid()
      modifies this, grid
      ensures Valid()
      ensures Snapshot() == Reset(old(Snapshot()), value)
    {
      ghost var s := Snapshot();
      ResetKeepsInv(s, value);
      active := false;
      spawnArmed := false;
      countdownArmed := false;
      cans := 0;
      score := 0;
      var st := SettingsFor(value);
      timeLeft := st.time;
      goal := st.goalPoints;
      ClearCells();
    }
  }
}
