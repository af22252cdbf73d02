# Water Quest game session, modelled in Dafny

Water Quest is a browser arcade game played on a 3x3 grid. A spawn timer keeps
placing either a water can (worth one point and one can toward the goal) or an
oil tank (a penalty) in a random cell. A countdown timer ends the round. The game is
won when the number of cans collected reaches the difficulty's goal. It is lost when
the countdown reaches zero. This project models the game's session state
machine in `script.js`:

- the difficulty presets;
- start, spawn placement, collecting a can, hitting an oil tank, the countdown
  tick, end of game and reset;

and proves what these operations keep true.

The model has four modules:

- `Difficulty` (`difficulty.dfy`): the preset table (Easy, Normal, Hard) and its
  two lookups. A start or a reset falls back to Normal for a name that is not a
  preset. The lookup done when an oil tank is hit has no fallback.
- `GameState` (`game_state.dfy`): the session as a value. It holds the script's
  module-level variables and the nine cells, where each cell is `Empty`,
  `Can(collected)` or `Oil(hit)`. Each timer handle is a flag saying whether it is
  set. There is one function per operation and the invariant `Inv`, with a lemma per
  operation showing that the operation keeps it. `Inv` says:
  - the score is between zero and the number of cans times the points per can;
  - a game runs exactly when both timers are set;
  - while a game runs, fewer cans than the goal have been collected and time is left;
  - when no game runs, the grid is empty;
  - at most one cell holds an item.
- `Runs` (`runs.dfy`): sequences of events (clicks, timer firings) and what
  holds of all of them:
  - the invariant holds after any sequence;
  - sessions are well bracketed, so a game ends at most once per start;
  - after a game ends, nothing but the start and reset buttons changes anything;
  - a running game that receives only timer firings (spawns and countdown ticks,
    in any order) keeps running while it has time left, and is lost on exactly the
    tick that uses up its time;
  - a running game that receives one round per can it still needs, each a can
    spawning (wherever it appears) and being collected, with no countdown tick and
    no other event in between, is won on the last round's can.
- `Game` (`game.dfy`): the class `Session`. Its fields are the script's
  variables and its grid is an array of nine cells updated in place.
  - `ClearCells` empties all nine cells with a loop.
  - `SpawnWaterCan` and `EndGame` are proved to change the object exactly as
    `GameState.Spawn` and `GameState.End` change the state value. They do not
    require the invariant, because `StartGame` spawns before the countdown is set
    and `Collect` ends the game once the can count has reached the goal.
  - `StartGame`, `Collect`, `HitOil`, `CountdownTick` and `ResetGame` are proved
    to change the object exactly as the matching `GameState` function does, and to
    keep the invariant.

Inputs the script takes from the page or from `Math.random()` become
parameters:

- `value` is the difficulty selector's value, where "" stands for an empty value or
  a missing selector (the script reads both as Normal);
- `isOil` and `cell` are the spawn's two random choices.

The countdown callback does not check whether a game is running. It relies on its
interval being cleared, so the model lets a tick happen only while the countdown is
set: `CountdownTick` requires it, and `Runs.Step` ignores a tick otherwise.

Four details of `script.js` that the model keeps:

- the countdown ends the game when the time left is at most zero;
- reset zeroes the counters and clears the grid whether or not a game is running,
  and it does not report an outcome;
- reset does not touch the spawn period, so it keeps the one loaded by the last
  start (or the initial 900 ms);
- the penalty is read from the selector at the moment the oil tank is hit, not at
  the start. For a name that is not a preset, that lookup fails after the tank is
  marked as hit, so the tank is used up and the score is unchanged.

## Model

| member | source | states |
|---|---|---|
| `Difficulty.Lookup` | script.js:3-7 | exactly the three names Easy, Normal and Hard are presets, each with its own settings |
| `Difficulty.SelectedName` | script.js:186-187 | an empty or missing selector value reads as "Normal"; any other value is used as given |
| `Difficulty.SettingsFor` | script.js:186-188 | a start or reset loads the selected preset, or Normal when the name is not a preset; the loaded round length, goal, penalty and spawn period are positive |
| `Difficulty.PenaltyFor` | script.js:103-105 | the penalty read on a hit is the selected preset's oil penalty, and there is none (the lookup fails) exactly when the name is not a preset, with no fallback |
| `GameState.Initial` | script.js:264-268 | after loading (the variables as declared at script.js:9-17, then time and goal from the selected preset), no game runs, no timer is set, the counters are zero, the grid is empty and the invariant holds |
| `GameState.Spawn` | script.js:46-57 | while a game runs, every cell is cleared and exactly one unresolved item (a can, or oil if chosen) is placed at the chosen cell; while none runs nothing changes; nothing but the grid ever changes |
| `GameState.End` | script.js:163-170 | the game stops, both timers are cancelled, every item is removed, and the counters, time and goal are kept |
| `GameState.Collect` | script.js:70-80 | an unresolved can in a running game adds one can and `PointsPerCan` points and becomes collected; anything else changes nothing; the game is won exactly when the new can count reaches the goal, and a collect never loses the game; a winning collect ends the game with every other field (time left, goal, spawn period) as it was |
| `GameState.HitOil` | script.js:99-106 | an unhit oil tank in a running game becomes hit and the score becomes max(0, score - penalty); cans, timers and time never change; a non-negative score stays non-negative and never rises; anything else changes nothing |
| `GameState.Tick` | script.js:204-208 | a tick takes exactly one second off, and ends the game as lost exactly when no time is left; a losing tick ends the game with every other field (counters, goal, spawn period) as it was |
| `GameState.Start` | script.js:181-208 | a start while a game runs changes nothing; otherwise it sets the game running with both timers, zero counters, the selected preset's time, goal and spawn period, and exactly one item on the grid |
| `GameState.Reset` | script.js:211-227 | reset stops the game, cancels both timers, zeroes cans and score, reloads time and goal from the selected preset, and empties the grid |
| `GameState.SpawnKeepsInv` | script.js:46-57 | a spawn keeps the session invariant |
| `GameState.CollectKeepsInv` | script.js:70-80 | collecting keeps the invariant; in particular the score stays within the can count, and a running game always has fewer cans than the goal |
| `GameState.HitOilKeepsInv` | script.js:99-106 | hitting oil keeps the invariant; in particular the score stays non-negative |
| `GameState.TickKeepsInv` | script.js:204-207 | a tick keeps the invariant; a running game always has time left |
| `GameState.StartKeepsInv` | script.js:181-208 | a start keeps the invariant |
| `GameState.ResetKeepsInv` | script.js:211-227 | a reset keeps the invariant |
| `GameState.CollectTwiceIsCollectOnce` | script.js:70-73 | collecting the same can again changes nothing |
| `GameState.HitTwiceIsHitOnce` | script.js:99-102 | hitting the same oil tank again changes nothing, whatever difficulty is then selected |
| `GameState.WinIgnoresScore` | script.js:80 | whether a collect wins does not depend on the score |
| `Runs.Step` | script.js:198-214 | a spawn or countdown firing whose timer is not set changes nothing; an event signals a start exactly when it is a start click while no game runs, and a reset exactly when it is a reset click; only a collect can win and only a countdown tick can lose |
| `Runs.StepKeepsInv` | script.js:163-227 | every event keeps the invariant; a start signal means no game ran before and one runs after; a win or loss means a game ran before and none after; a reset leaves none running; a quiet event leaves the running state unchanged |
| `Runs.RunKeepsInv` | script.js:163-227 | the invariant holds after any sequence of events |
| `Runs.ScoreBoundedFromLoad` | script.js:193-194 | from page load, after any sequence of events, 0 <= score <= cans * `PointsPerCan` |
| `Runs.RunIsBracketed` | script.js:163-167 | the signals of any run are well bracketed: starts only when no game runs, a win or loss only while one runs, so each game ends at most once |
| `Runs.BracketedEndsAtMostStarts` | script.js:182 | in a well-bracketed trace the games ended never outnumber the games started |
| `Runs.EndsAtMostStartsFromLoad` | script.js:163-167 | from page load, no sequence of events ends more games than it starts |
| `Runs.InactiveSessionIsInert` | script.js:165-167 | once no game runs, any sequence of timer firings and item clicks leaves the state unchanged and reports nothing |
| `Runs.CountdownRunsOut` | script.js:204-207 | a running game with t seconds left, after t countdown ticks, has t - 1 quiet ticks and then is lost, with time 0 and counters unchanged |
| `Runs.LeftAloneKeepsRunning` | script.js:198-207 | a running game that receives only spawn and countdown firings, with fewer ticks than its time left, still runs, reports nothing, and has lost exactly one second per tick, with only the grid otherwise changed |
| `Runs.LeftAloneIsLost` | script.js:198-207 | a running game that receives only spawn and countdown firings, with at least as many ticks as its time left, is lost on exactly the tick that uses up its time, reports nothing else, and ends with the counters unchanged and no time left |
| `Runs.CollectingEveryCanWins` | script.js:74-80 | a running game that receives exactly one round per can it still needs, each a can spawning at any cell and being collected, with no countdown tick or other event in between, is won exactly once, on the last round's can, with cans equal to the goal |
| `Runs.StartThenCollectEveryCan` | script.js:181-199 | from page load, a start with any selection followed by goal-many rounds, each a can spawning and being collected, with no countdown tick or other event in between, is won exactly once, on the last round's can, with cans and score equal to the selected goal; the item the start spawns is replaced unused |
| `Runs.NormalGameWonWithTwentyCans` | script.js:5 | on Normal, a start followed by twenty rounds, each a can spawning at any cell and being collected, with no countdown tick or other event in between, is won on the twentieth, with 20 cans and 20 points |
| `Runs.PenaltyClampsAtZero` | script.js:106 | an oil hit on Normal with a score of 3 leaves the score at 0 |
| `Game.Session.constructor` | script.js:9-17 | a new session is in the post-load state, with a fresh nine-cell grid |
| `Game.Session.ClearCells` | script.js:33-44 | after clearing, every one of the nine cells is empty |
| `Game.Session.SpawnWaterCan` | script.js:46-57 | the object changes as `GameState.Spawn` says; only the grid is modified |
| `Game.Session.EndGame` | script.js:163-179 | the object changes as `GameState.End` says, and the reported outcome is the `won` argument |
| `Game.Session.StartGame` | script.js:181-208 | the object changes as `GameState.Start` says, and the invariant is kept |
| `Game.Session.Collect` | script.js:70-80 | the object and the signal are those of `GameState.Collect`, and the invariant is kept |
| `Game.Session.HitOil` | script.js:99-106 | the object changes as `GameState.HitOil` says, and the invariant is kept |
| `Game.Session.CountdownTick` | script.js:204-207 | allowed only while the countdown is set; the object and the signal are those of `GameState.Tick`, and the invariant is kept |
| `Game.Session.ResetGame` | script.js:211-227 | the object changes as `GameState.Reset` says, and the invariant is kept |

## Left out

- Rendering is not modelled, because it is presentation only: building the grid markup, `updateStats`, the score popup and its coordinates, the win and loss messages and their random choice, and `fireConfetti`.
- `Math.random()` is replaced by the `isOil` and `cell` parameters of a spawn and of a start. The 0.18 oil probability and the uniform choice of cell are not modelled.
- Timer scheduling is not modelled: each timer is a flag saying whether it is set, and each firing is an explicit call. The spawn period is recorded but not used.
- Animation delays are not modelled: a cleared cell is empty at once. On the real page a fading item stays clickable for about 280 ms. A can or oil tank from the previous spawn can then still be resolved while a game runs, so for that moment two live items can exist.
- Event wiring and page start-up are not modelled: click and key listeners, `initUI`'s listeners and the `DOMContentLoaded` handling. Only `initUI`'s loading of time and goal is modelled, in `GameState.Initial` and the constructor.
- A page without the grid is not modelled; the model assumes the grid is present. On such a page `createGrid` and a spawn return early.
- `Difficulty.Lookup`: a selector value naming a property of JavaScript's `Object.prototype` (such as "toString") would be found in the preset table by the script. The model treats every non-preset name alike.
- JavaScript numbers are IEEE doubles; the model uses unbounded integers, which agree for every value a game can reach.
