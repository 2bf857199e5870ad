/** When the supervisor finds a breach, in the engine's own terms, and that every breach leaves the account flat. */
module BreachVerdict {
  import opened Prelude
  import opened Market
  import opened Events
  import opened EngineSpec
  import opened EngineRun
  import opened EngineInvariants
  import opened Supervisor
  import opened SessionPnl
  import opened LiveLoop
  import opened LiveTheorems
  import opened BreachSafety

  /** Sessions come in order. */
  predicate Ordered(ticks: seq<LiveTick>) {
    forall i, j :: 0 <= i < j < |ticks| ==> ticks[i].tick.session.date <= ticks[j].tick.session.date
  }

  /**
   * The first of three objections: the switch is set; more is held than allowed; the session has lost as much
   * as the stop allows, by the engine's own session P&L.
   */
  function Objection(guard: SupervisorConfig, switch: bool, held: Option<Position>, pnl: real): Option<Reason> {
    if switch then Some(KillSwitch)
    else if guard.maxPositionContracts.Some? && held.Some?
      && held.value.quantity > guard.maxPositionContracts.value then
      Some(MaxPosition)
    else if guard.dailyLossStop.Some? && pnl <= -guard.dailyLossStop.value then Some(SupervisorDailyLoss)
    else None
  }

  predicate LatchedFor(latch: Latch, date: int) {
    latch.reason.Some? && latch.session == Some(date)
  }

  /** A latch that is not of this session gives way to the verdict on the bar; one that is stays. */
  lemma {:induction false} VerdictSetsTheLatch<S>(guard: SupervisorConfig, marked: LiveState<S>, t: LiveTick)
    requires Paired(marked.latch)
    ensures
      var date := t.tick.session.date;
      var verdict := Evaluate(guard, date, t.tick.bar, ReportedPosition(marked.engine), marked.engine.trades,
                              t.killSwitch);
      if LatchedFor(marked.latch, date) then LatchAfter(guard, marked, t) == marked.latch
      else LatchAfter(guard, marked, t).reason == verdict
  {
    hide Evaluate;
  }

  /** What the supervisor recomputes from the broker's reports is the engine's own figure. */
  lemma {:induction false} VerdictIsTheObjection(cfg: Config, guard: SupervisorConfig, script: seq<ScriptBar>,
                                                 t: LiveTick)
    requires OrderedSessions(script) && guard.pointValue == cfg.pointValue
    requires script != [] ==> script[|script| - 1].tick.session.date <= t.tick.session.date
    ensures
      var st, bar := Run(cfg, script), t.tick.bar;
      var marked := AfterPreStrategy(cfg, st, t.tick);
      var pnl := PreStrategyPnl(cfg, Log(st, BarRecord(bar.timestamp, bar)), t.tick);
      Evaluate(guard, t.tick.session.date, bar, ReportedPosition(marked), marked.trades, t.killSwitch)
        == Objection(guard, t.killSwitch, marked.position, pnl)
  {
    hide Run, AfterPreStrategy, PreStrategyPnl, RealizedOn, MarkToMarket;
    IncrementalPnlIsRecomputedPnl(cfg, script, t.tick);
  }

  lemma {:induction false} ScriptFollows<S>(cfg: Config, guard: SupervisorConfig, strategy: Strategy<S>, s0: S,
                                            ticks: seq<LiveTick>)
    ensures
      var script := LiveScript(cfg, guard, strategy, s0, ticks);
      |script| == |ticks| && forall i :: 0 <= i < |ticks| ==> script[i].tick == ticks[i].tick
    decreases |ticks|
  {
    hide LiveBars, LiveScriptBar;
    if |ticks| == 0 {
    } else {
      var before, last := ticks[..|ticks| - 1], ticks[|ticks| - 1];
      ScriptFollows(cfg, guard, strategy, s0, before);
      ScriptBarHasItsTick(cfg, guard, strategy, LiveBars(cfg, guard, strategy, s0, before).state, last);
    }
  }

  lemma {:induction false} ScriptBarHasItsTick<S>(cfg: Config, guard: SupervisorConfig, strategy: Strategy<S>,
                                                  st: LiveState<S>, t: LiveTick)
    ensures LiveScriptBar(cfg, guard, strategy, st, t).tick == t.tick
  {
    hide LiveMark, LiveSupervise, NewBreach, Answer, LivePnl;
  }

  /** The engine, its latch and its session figure as the last of `ticks` finds them. */
  function Found<S>(cfg: Config, guard: SupervisorConfig, strategy: Strategy<S>, s0: S,
                    ticks: seq<LiveTick>): LiveState<S>
    requires ticks != []
  {
    LiveBars(cfg, guard, strategy, s0, ticks[..|ticks| - 1]).state
  }

  /**
   * Exactly when a breach is found: on every live run with sessions in order, a bar whose session was not yet
   * latched ends latched if and only if there is an objection to it, and for that objection.
   */
  lemma {:induction false} BreachIffObjection<S>(cfg: Config, guard: SupervisorConfig, strategy: Strategy<S>, s0: S,
                                                 ticks: seq<LiveTick>)
    requires ticks != [] && Ordered(ticks) && guard.pointValue == cfg.pointValue
    ensures
      var t, before := ticks[|ticks| - 1], Found(cfg, guard, strategy, s0, ticks);
      var after, date := LiveBars(cfg, guard, strategy, s0, ticks).state, t.tick.session.date;
      var held := AfterPreStrategy(cfg, before.engine, t.tick).position;
      var logged := Log(before.engine, BarRecord(t.tick.bar.timestamp, t.tick.bar));
      if LatchedFor(before.latch, date) then after.latch == before.latch
      else after.latch.reason == Objection(guard, t.killSwitch, held, PreStrategyPnl(cfg, logged, t.tick))
  {
    hide LiveBars, LiveBar, LiveMark, LatchAfter, Settled, Run, LiveScript, AfterPreStrategy, PreStrategyPnl, Evaluate;
    hide Objection, Paired;
    var n := |ticks| - 1;
    var before, t := ticks[..n], ticks[n];
    var script := LiveScript(cfg, guard, strategy, s0, before);
    LiveBarsNeverHalt(cfg, guard, strategy, s0, before);
    LatchHistory(cfg, guard, strategy, s0, before, t.tick.session.date);
    ScriptFollows(cfg, guard, strategy, s0, before);
    BarPhases(cfg, guard, strategy, LiveBars(cfg, guard, strategy, s0, before).state, t);
    var marked := LiveMark(cfg, strategy, LiveBars(cfg, guard, strategy, s0, before).state, t.tick).state;
    VerdictSetsTheLatch(guard, marked, t);
    VerdictIsTheObjection(cfg, guard, script, t);
    assert ticks[..n + 1] == ticks;
    OneMore(cfg, guard, strategy, s0, ticks, n);
  }

  /** A session that has ended a bar latched stays fenced to its last bar. */
  lemma {:induction false} BreachedStaysFenced<S>(cfg: Config, guard: SupervisorConfig, strategy: Strategy<S>, s0: S,
                                                  ticks: seq<LiveTick>)
    requires ticks != [] && Ordered(ticks)
    requires SomeBarLatched(cfg, guard, strategy, s0, ticks, ticks[|ticks| - 1].tick.session.date)
    ensures Fenced(LiveBars(cfg, guard, strategy, s0, ticks).state, ticks[|ticks| - 1].tick.session.date)
    decreases |ticks|
  {
    hide LiveBars, Fenced;
    var n := |ticks| - 1;
    var before, date := ticks[..n], ticks[n].tick.session.date;
    if SomeBarLatched(cfg, guard, strategy, s0, before, date) {
      var k: nat :| k < n && LatchedAfter(cfg, guard, strategy, s0, before, date, k);
      assert ticks[k].tick.session.date <= ticks[n - 1].tick.session.date <= date by {
        assert k == n - 1 || ticks[k].tick.session.date <= ticks[n - 1].tick.session.date;
      }
      BreachedStaysFenced(cfg, guard, strategy, s0, before);
      FenceHoldsNext(cfg, guard, strategy, s0, before, ticks[n]);
      assert before + [ticks[n]] == ticks;
    } else {
      LatchedOnlyLast(cfg, guard, strategy, s0, ticks, date);
      FirstBreachFences(cfg, guard, strategy, s0, ticks);
    }
  }

  lemma {:induction false} LatchedEarlier<S>(cfg: Config, guard: SupervisorConfig, strategy: Strategy<S>, s0: S,
                                             ticks: seq<LiveTick>, date: int, n: nat, k: nat)
    requires k < n <= |ticks| && LatchedAfter(cfg, guard, strategy, s0, ticks, date, k)
    ensures SomeBarLatched(cfg, guard, strategy, s0, ticks[..n], date)
  {
    hide LiveBars;
    assert ticks[..n][..k + 1] == ticks[..k + 1];
    assert LatchedAfter(cfg, guard, strategy, s0, ticks[..n], date, k);
  }

  lemma {:induction false} LatchedOnlyLast<S>(cfg: Config, guard: SupervisorConfig, strategy: Strategy<S>, s0: S,
                                              ticks: seq<LiveTick>, date: int)
    requires ticks != [] && ticks[|ticks| - 1].tick.session.date == date
    requires SomeBarLatched(cfg, guard, strategy, s0, ticks, date)
    requires !SomeBarLatched(cfg, guard, strategy, s0, ticks[..|ticks| - 1], date)
    ensures FirstBreach(cfg, guard, strategy, s0, ticks)
  {
    hide LiveBars;
    var n := |ticks| - 1;
    var k: nat :| k < |ticks| && LatchedAfter(cfg, guard, strategy, s0, ticks, date, k);
    if k < n {
      LatchedEarlier(cfg, guard, strategy, s0, ticks, date, n, k);
    }
  }

  /** A bar that ends latched ends with nothing open and nothing waiting. */
  lemma {:induction false} LatchedBarsEndIdle<S>(cfg: Config, guard: SupervisorConfig, strategy: Strategy<S>, s0: S,
                                                 ticks: seq<LiveTick>)
    requires ticks != [] && Ordered(ticks)
    requires LiveBars(cfg, guard, strategy, s0, ticks).state.latch.reason.Some?
    ensures Idle(LiveBars(cfg, guard, strategy, s0, ticks).state.engine)
  {
    hide LiveBars, LiveScript, Settled;
    LiveBarsNeverHalt(cfg, guard, strategy, s0, ticks);
    LatchedLast(cfg, guard, strategy, s0, ticks, ticks[|ticks| - 1].tick.session.date);
    BreachedStaysFenced(cfg, guard, strategy, s0, ticks);
  }

  /**
   * So after every bar of every such run: where there is an objection, or was one before in the session, the
   * account is flat with nothing waiting.
   */
  lemma {:induction false} ObjectionsEndFlat<S>(cfg: Config, guard: SupervisorConfig, strategy: Strategy<S>, s0: S,
                                                ticks: seq<LiveTick>)
    requires ticks != [] && Ordered(ticks) && guard.pointValue == cfg.pointValue
    ensures
      var t, before := ticks[|ticks| - 1], Found(cfg, guard, strategy, s0, ticks);
      var held := AfterPreStrategy(cfg, before.engine, t.tick).position;
      var logged := Log(before.engine, BarRecord(t.tick.bar.timestamp, t.tick.bar));
      LatchedFor(before.latch, t.tick.session.date)
      || Objection(guard, t.killSwitch, held, PreStrategyPnl(cfg, logged, t.tick)).Some?
      ==> Idle(LiveBars(cfg, guard, strategy, s0, ticks).state.engine)
  {
    hide LiveBars, AfterPreStrategy, PreStrategyPnl, Objection, Idle;
    BreachIffObjection(cfg, guard, strategy, s0, ticks);
    if LiveBars(cfg, guard, strategy, s0, ticks).state.latch.reason.Some? {
      LatchedBarsEndIdle(cfg, guard, strategy, s0, ticks);
    }
  }
}
