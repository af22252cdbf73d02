/** Sequences of the events that drive a session (button clicks, timer firings,
    clicks on items) and what holds of every such sequence. */
module Runs {
  import opened Difficulty
  import opened GameState

  /** An event that reaches the session. The random choices of a spawn and the
      difficulty selected at the time of an event are carried by the event. */
  datatype Event =
    | StartClicked(value: string, isOil: bool, cell: Cell)
    | SpawnFired(isOil: bool, cell: Cell)
    | ItemCollected(cell: Cell)
    | OilHit(cell: Cell, value: string)
    | CountdownFired
    | ResetClicked(value: string)

  /** The effect of one event. A timer fires only while its handle is set. */
  function Step(s: State, e: Event): (r: (State, Signal))
    ensures (e.SpawnFired? && !s.spawnArmed) || (e.CountdownFired? && !s.countdownArmed) ==> r == (s, Quiet)
    ensures r.1 == Started <==> e.StartClicked? && !s.active
    ensures r.1 == Cleared <==> e.ResetClicked?
    ensures r.1 == Won ==> e.ItemCollected?
    ensures r.1 == Lost ==> e.CountdownFired?
  {
    match e
    case StartClicked(v, isOil, c) => (Start(s, v, isOil, c), if s.active then Quiet else Started)
    case SpawnFired(isOil, c) => (if s.spawnArmed then Spawn(s, isOil, c) else s, Quiet)
    case ItemCollected(c) => Collect(s, c)
    case OilHit(c, v) => (HitOil(s, c, v), Quiet)
    case CountdownFired => if s.countdownArmed then Tick(s) else (s, Quiet)
    case ResetClicked(v) => (Reset(s, v), Cleared)
  }

  /** The final state after a sequence of events, and the signal of each event. */
  function Run(s: State, es: seq<Event>): (r: (State, seq<Signal>))
    ensures |r.1| == |es|
    decreases |es|
  {
    if es == [] then (s, [])
    else
      var (t, sig) := Step(s, es[0]);
      var (u, sigs) := Run(t, es[1..]);
      (u, [sig] + sigs)
  }

  lemma RunOne(s: State, e: Event)
    ensures Run(s, [e]) == (Step(s, e).0, [Step(s, e).1])
  {
    var (t, sig) := Step(s, e);
    assert [e][0] == e && [e][1..] == [];
    assert Run(t, []) == (t, []);
    assert [sig] + [] == [sig];
  }

  /** Running two sequences one after the other is running their concatenation. */
  lemma {:induction false} RunAppend(s: State, a: seq<Event>, b: seq<Event>)
    ensures Run(s, a + b).0 == Run(Run(s, a).0, b).0
    ensures Run(s, a + b).1 == Run(s, a).1 + Run(Run(s, a).0, b).1
    decreases |a|
  {
    if a == [] {
      assert a + b == b;
    } else {
      assert (a + b)[0] == a[0];
      assert (a + b)[1..] == a[1..] + b;
      RunAppend(Step(s, a[0]).0, a[1..], b);
    }
  }

  /** How an event's signal relates to whether a game runs before and after it. */
  lemma StepKeepsInv(s: State, e: Event)
    requires Inv(s)
    ensures Inv(Step(s, e).0)
    ensures Step(s, e).1 == Quiet ==> Step(s, e).0.active == s.active
    ensures Step(s, e).1 == Started ==> !s.active && Step(s, e).0.active
    ensures Step(s, e).1 in {Won, Lost} ==> s.active && !Step(s, e).0.active
    ensures Step(s, e).1 == Cleared ==> !Step(s, e).0.active
  {
    match e
    case StartClicked(v, isOil, c) => StartKeepsInv(s, v, isOil, c);
    case SpawnFired(isOil, c) => SpawnKeepsInv(s, isOil, c);
    case ItemCollected(c) => CollectKeepsInv(s, c);
    case OilHit(c, v) => HitOilKeepsInv(s, c, v);
    case CountdownFired => if s.countdownArmed { TickKeepsInv(s); }
    case ResetClicked(v) => ResetKeepsInv(s, v);
  }

  /** The invariant holds after every sequence of events. */
  lemma {:induction false} RunKeepsInv(s: State, es: seq<Event>)
    requires Inv(s)
    ensures Inv(Run(s, es).0)
    decreases |es|
  {
    if es != [] {
      StepKeepsInv(s, es[0]);
      RunKeepsInv(Step(s, es[0]).0, es[1..]);
    }
  }

  /** From page load on, the score is never negative and never exceeds the number
      of cans collected times the points per can. */
  lemma ScoreBoundedFromLoad(value: string, es: seq<Event>)
    ensures 0 <= Run(Initial(value), es).0.score <= Run(Initial(value), es).0.cans * PointsPerCan
  {
    RunKeepsInv(Initial(value), es);
  }

  /** Signals are well bracketed: a session starts only when none runs, a game
      ends (won or lost) only while one runs, and a reset leaves none running.
      So each session ends at most once, and a win fires at most once per session. */
  ghost predicate Bracketed(sigs: seq<Signal>, active: bool)
    decreases |sigs|
  {
    sigs == [] ||
    match sigs[0]
    case Quiet => Bracketed(sigs[1..], active)
    case Started => !active && Bracketed(sigs[1..], true)
    case Won => active && Bracketed(sigs[1..], false)
    case Lost => active && Bracketed(sigs[1..], false)
    case Cleared => Bracketed(sigs[1..], false)
  }

  lemma {:induction false} RunIsBracketed(s: State, es: seq<Event>)
    requires Inv(s)
    ensures Bracketed(Run(s, es).1, s.active)
    decreases |es|
  {
    if es != [] {
      var (t, sig) := Step(s, es[0]);
      StepKeepsInv(s, es[0]);
      RunIsBracketed(t, es[1..]);
      assert Run(s, es).1[0] == sig;
      assert Run(s, es).1[1..] == Run(t, es[1..]).1;
    }
  }

  function Ends(sigs: seq<Signal>): (n: nat)
    ensures n <= |sigs|
  {
    if sigs == [] then 0 else (if sigs[0] in {Won, Lost} then 1 else 0) + Ends(sigs[1..])
  }

  function Starts(sigs: seq<Signal>): (n: nat)
    ensures n <= |sigs|
  {
    if sigs == [] then 0 else (if sigs[0] == Started then 1 else 0) + Starts(sigs[1..])
  }

  /** In a bracketed trace the games ended never outnumber the games started,
      counting a game already running at the beginning. */
  lemma {:induction false} BracketedEndsAtMostStarts(sigs: seq<Signal>, active: bool)
    requires Bracketed(sigs, active)
    ensures Ends(sigs) <= Starts(sigs) + (if active then 1 else 0)
    decreases |sigs|
  {
    if sigs != [] {
      match sigs[0]
      case Quiet => BracketedEndsAtMostStarts(sigs[1..], active);
      case Started => BracketedEndsAtMostStarts(sigs[1..], true);
      case Won => BracketedEndsAtMostStarts(sigs[1..], false);
      case Lost => BracketedEndsAtMostStarts(sigs[1..], false);
      case Cleared => BracketedEndsAtMostStarts(sigs[1..], false);
    }
  }

  /** From page load, no event sequence ends more games than it starts. */
  lemma EndsAtMostStartsFromLoad(value: string, es: seq<Event>)
    ensures Ends(Run(Initial(value), es).1) <= Starts(Run(Initial(value), es).1)
  {
    RunIsBracketed(Initial(value), es);
    BracketedEndsAtMostStarts(Run(Initial(value), es).1, false);
  }

  /** Events that do not come from the start or reset buttons. */
  predicate Inert(e: Event) {
    !e.StartClicked? && !e.ResetClicked?
  }

  function Quiets(n: nat): (r: seq<Signal>)
    ensures |r| == n && forall i :: 0 <= i < n ==> r[i] == Quiet
  {
    seq(n, _ => Quiet)
  }

  /** Once a game has ended or been reset, no timer firing and no click on an item
      changes anything: both timers are cancelled and every handler checks that a
      game runs. */
  lemma {:induction false} InactiveSessionIsInert(s: State, es: seq<Event>)
    requires Inv(s) && !s.active
    requires forall i :: 0 <= i < |es| ==> Inert(es[i])
    ensures Run(s, es) == (s, Quiets(|es|))
    decreases |es|
  {
    if es != [] {
      assert Step(s, es[0]) == (s, Quiet);
      InactiveSessionIsInert(s, es[1..]);
      assert [Quiet] + Quiets(|es| - 1) == Quiets(|es|);
    }
  }

  function Ticks(n: nat): (r: seq<Event>)
    ensures |r| == n && forall i :: 0 <= i < n ==> r[i] == CountdownFired
  {
    seq(n, _ => CountdownFired)
  }

  /** A running game that receives only countdown ticks is lost when its time runs
      out: `timeLeft` ticks give that many quiet seconds but the last,
      which ends the game as lost with the counters unchanged. */
  lemma {:induction false} CountdownRunsOut(s: State)
    requires Inv(s) && s.active
    ensures Run(s, Ticks(s.timeLeft)).0 == End(s.(timeLeft := 0))
    ensures Run(s, Ticks(s.timeLeft)).1 == Quiets(s.timeLeft - 1) + [Lost]
    decreases s.timeLeft
  {
    var (t, sig) := Step(s, CountdownFired);
    assert Ticks(s.timeLeft)[1..] == Ticks(s.timeLeft - 1);
    if s.timeLeft == 1 {
      assert sig == Lost;
    } else {
      assert sig == Quiet && t == s.(timeLeft := s.timeLeft - 1);
      CountdownRunsOut(t);
      assert t.(timeLeft := 0) == s.(timeLeft := 0);
      assert [Quiet] + Quiets(t.timeLeft - 1) == Quiets(s.timeLeft - 1);
    }
  }

  /** Events that reach a running game the player leaves alone: timer firings. */
  predicate TimerOnly(e: Event) {
    e.SpawnFired? || e.CountdownFired?
  }

  /** The number of countdown firings in a sequence of events. */
  function TickCount(es: seq<Event>): (n: nat)
    ensures n <= |es|
  {
    if es == [] then 0 else (if es[0].CountdownFired? then 1 else 0) + TickCount(es[1..])
  }

  lemma TickCountOfPrefix(es: seq<Event>, k: nat)
    requires k + 1 < |es|
    ensures TickCount(es[..k + 2]) == (if es[0].CountdownFired? then 1 else 0) + TickCount(es[1..][..k + 1])
  {
    assert es[..k + 2][1..] == es[1..][..k + 1];
  }

  lemma QuietBeforeLoss(k: nat, m: nat)
    ensures [Quiet] + (Quiets(k) + [Lost] + Quiets(m)) == Quiets(k + 1) + [Lost] + Quiets(m)
  {
    assert [Quiet] + Quiets(k) == Quiets(k + 1);
  }

  /** The tail of a sequence of timer firings is one too. */
  lemma TimerOnlyTail(es: seq<Event>)
    requires es != [] && forall i :: 0 <= i < |es| ==> TimerOnly(es[i])
    ensures forall i :: 0 <= i < |es[1..]| ==> TimerOnly(es[1..][i]) && Inert(es[1..][i])
  {
    forall i | 0 <= i < |es[1..]| ensures TimerOnly(es[1..][i]) {
      assert es[1..][i] == es[i + 1];
    }
  }

  /** A running game that receives nothing but timer firings, spawns and countdown
      ticks in any order, still runs while fewer ticks than its time left have
      fired: every signal is quiet, and only the time and the grid have changed. */
  lemma {:induction false} LeftAloneKeepsRunning(s: State, es: seq<Event>)
    requires Inv(s) && s.active
    requires forall i :: 0 <= i < |es| ==> TimerOnly(es[i])
    requires TickCount(es) < s.timeLeft
    ensures Run(s, es).1 == Quiets(|es|)
    ensures Run(s, es).0.active
    ensures Run(s, es).0.(grid := s.grid) == s.(timeLeft := s.timeLeft - TickCount(es))
    decreases |es|
  {
    if es != [] {
      var rest := es[1..];
      var (t, sig) := Step(s, es[0]);
      assert Run(s, es) == (Run(t, rest).0, [sig] + Run(t, rest).1);
      TimerOnlyTail(es);
      if es[0].SpawnFired? {
        SpawnKeepsInv(s, es[0].isOil, es[0].cell);
        assert sig == Quiet && t.(grid := s.grid) == s;
      } else {
        TickKeepsInv(s);
        assert sig == Quiet && t == s.(timeLeft := s.timeLeft - 1);
      }
      LeftAloneKeepsRunning(t, rest);
      assert [Quiet] + Quiets(|rest|) == Quiets(|es|);
    }
  }

  /** A running game that receives nothing but timer firings is lost once as many
      ticks as its time left have fired: on exactly the tick that used up its time,
      which gives the only signal that is not quiet, and the game ends with the
      counters unchanged and no time left. */
  lemma {:induction false} LeftAloneIsLost(s: State, es: seq<Event>)
    requires Inv(s) && s.active
    requires forall i :: 0 <= i < |es| ==> TimerOnly(es[i])
    requires TickCount(es) >= s.timeLeft
    ensures Run(s, es).0 == End(s.(timeLeft := 0))
    ensures exists k ::
      && 0 <= k < |es| && es[k] == CountdownFired && TickCount(es[..k + 1]) == s.timeLeft
      && Run(s, es).1 == Quiets(k) + [Lost] + Quiets(|es| - k - 1)
    decreases |es|
  {
    var rest := es[1..];
    var (t, sig) := Step(s, es[0]);
    assert Run(s, es) == (Run(t, rest).0, [sig] + Run(t, rest).1);
    TimerOnlyTail(es);
    if es[0].CountdownFired? && s.timeLeft == 1 {
      TickKeepsInv(s);
      assert sig == Lost && t == End(s.(timeLeft := 0));
      InactiveSessionIsInert(t, rest);
      assert TickCount(es[..1]) == 1 by {
        assert es[..1][1..] == [];
      }
      assert [Lost] + Quiets(|rest|) == Quiets(0) + [Lost] + Quiets(|es| - 0 - 1);
    } else {
      if es[0].SpawnFired? {
        SpawnKeepsInv(s, es[0].isOil, es[0].cell);
        assert sig == Quiet && t.(grid := s.grid) == s;
      } else {
        TickKeepsInv(s);
        assert sig == Quiet && t == s.(timeLeft := s.timeLeft - 1);
      }
      LeftAloneIsLost(t, rest);
      assert End(t.(timeLeft := 0)) == End(s.(timeLeft := 0));
      var k :| 0 <= k < |rest| && rest[k] == CountdownFired && TickCount(rest[..k + 1]) == t.timeLeft
               && Run(t, rest).1 == Quiets(k) + [Lost] + Quiets(|rest| - k - 1);
      TickCountOfPrefix(es, k);
      QuietBeforeLoss(k, |rest| - k - 1);
      var j := k + 1;
      assert 0 <= j < |es| && es[j] == CountdownFired && TickCount(es[..j + 1]) == s.timeLeft
             && Run(s, es).1 == Quiets(j) + [Lost] + Quiets(|es| - j - 1);
    }
  }

  /** One round per entry of `cells`: a can appears at that cell and the player
      collects it. */
  function Rounds(cells: seq<Cell>): (r: seq<Event>)
    ensures |r| == 2 * |cells|
    decreases |cells|
  {
    if cells == [] then []
    else [SpawnFired(false, cells[0]), ItemCollected(cells[0])] + Rounds(cells[1..])
  }

  /** A running game that receives exactly the rounds of `cells`, one per can it
      still needs, each a can spawning at its cell and being collected, with no
      countdown tick and no other event in between, is won on the last round's can
      and on no earlier one: the trace is quiet but for one `Won` at the end. */
  lemma {:induction false} CollectingEveryCanWins(s: State, cells: seq<Cell>)
    requires Inv(s) && s.active
    requires |cells| == s.goal - s.cans
    ensures Run(s, Rounds(cells)).1 == Quiets(2 * |cells| - 1) + [Won]
    ensures Run(s, Rounds(cells)).0 ==
      End(s.(cans := s.goal, score := s.score + |cells| * PointsPerCan, grid := EmptyGrid))
    decreases |cells|
  {
    var n := |cells|;
    var cell := cells[0];
    var round := [SpawnFired(false, cell), ItemCollected(cell)];
    var s1 := Spawn(s, false, cell);
    var (s2, sig) := Collect(s1, cell);
    assert Rounds(cells) == round + Rounds(cells[1..]);
    assert round == [SpawnFired(false, cell)] + [ItemCollected(cell)];
    RunOne(s, SpawnFired(false, cell));
    RunOne(s1, ItemCollected(cell));
    RunAppend(s, [SpawnFired(false, cell)], [ItemCollected(cell)]);
    assert Step(s, SpawnFired(false, cell)) == (s1, Quiet);
    assert [Quiet] + [sig] == [Quiet, sig];
    assert Run(s, round) == (s2, [Quiet, sig]);
    RunAppend(s, round, Rounds(cells[1..]));
    if n == 1 {
      assert sig == Won;
      assert Rounds(cells[1..]) == [];
    } else {
      assert sig == Quiet;
      CollectKeepsInv(s1, cell);
      CollectingEveryCanWins(s2, cells[1..]);
      assert [Quiet, Quiet] + Quiets(2 * (n - 1) - 1) == Quiets(2 * n - 1);
    }
  }

  /** From page load, a start with `value` selected followed by as many rounds as
      the selected goal, each a can spawning and being collected, with no countdown
      tick and no other event in between, is won exactly once, on the last round's
      can. The item the start itself spawns is replaced by the first round unused;
      the goal is then both the can count and the score. */
  lemma StartThenCollectEveryCan(value: string, isOil: bool, first: Cell, cells: seq<Cell>)
    requires |cells| == SettingsFor(value).goalPoints
    ensures var r := Run(Initial(value), [StartClicked(value, isOil, first)] + Rounds(cells));
      && r.1 == [Started] + Quiets(2 * |cells| - 1) + [Won]
      && r.0.cans == |cells| && r.0.score == |cells| * PointsPerCan && !r.0.active
  {
    var s0 := Initial(value);
    var start := StartClicked(value, isOil, first);
    var s1 := Start(s0, value, isOil, first);
    StartKeepsInv(s0, value, isOil, first);
    RunOne(s0, start);
    RunAppend(s0, [start], Rounds(cells));
    CollectingEveryCanWins(s1, cells);
    var final := Run(s1, Rounds(cells));
    assert Run(s0, [start] + Rounds(cells)) == (final.0, [Started] + final.1);
  }

  /** On Normal, a start followed by twenty rounds, each a can spawning and being
      collected, with no countdown tick and no other event in between, is won on the
      twentieth round, with twenty cans and twenty points, wherever the start's item
      and the twenty cans appear. */
  lemma NormalGameWonWithTwentyCans(isOil: bool, first: Cell, cells: seq<Cell>)
    requires |cells| == 20
    ensures var r := Run(Initial("Normal"), [StartClicked("Normal", isOil, first)] + Rounds(cells));
      && r.1 == [Started] + Quiets(39) + [Won]
      && r.0.cans == 20 && r.0.score == 20 && !r.0.active
  {
    assert SettingsFor("Normal") == NormalSettings;
    StartThenCollectEveryCan("Normal", isOil, first, cells);
  }

  /** A penalty of 5 on a score of 3 leaves 0, not a negative score. */
  lemma PenaltyClampsAtZero(s: State, cell: Cell)
    requires Inv(s) && s.active && s.score == 3 && s.grid[cell] == Oil(false)
    ensures Step(s, OilHit(cell, "Normal")).0.score == 0
  {
  }
}
