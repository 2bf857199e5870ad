/** The live loop never halts on its own checks, and matches the backtest while the supervisor is quiet. */
module LiveTheorems {
  import opened Prelude
  import opened Market
  import opened Events
  import opened EngineSpec
  import opened EngineRun
  import opened EngineInvariants
  import opened Supervisor
  import opened OrderStateMachine
  import opened PaperBroker
  import opened MicroSteps
  import opened RunGrammar
  import opened Shadow
  import opened LiveLoop
  import opened Simulation

  /** The loop between two bars: a safe engine, fully drained, with an agreeing shadow. */
  predicate Settled<S>(cfg: Config, st: LiveState<S>) {
    && Inv(cfg, st.engine)
    && st.engine.feedback == []
    && Drained(st, st.engine.ledger)
    && Agrees(ViewOf(st.engine))
  }

  /** Desk, cursor and machine are those of the drained part of the ledger. */
  predicate Drained<S>(st: LiveState<S>, ledger: seq<EventRecord>) {
    && st.cursor == |ledger|
    && st.desk == DeskAfter(ledger)
    && st.machine == MachineAfter(ledger).0
    && MachineAfter(ledger).1.None?
  }

  lemma {:induction false} ReportedViewIsReported(st: EngineState)
    ensures Reported(ExposureOf(st.position)) == SessionPnl.ReportedPosition(st)
  {
  }

  lemma {:induction false} LedgerGrows(v: View, ms: seq<Micro>)
    ensures v.ledger <= TakeAll(v, ms).ledger
    decreases |ms|
  {
    if |ms| == 0 {
    } else {
      LedgerGrows(v, ms[..|ms| - 1]);
    }
  }

  /** Draining what legal engine steps appended raises nothing and passes the cross-check. */
  lemma {:induction false} SynchronizeSucceeds<S>(strategy: Strategy<S>, st: LiveState<S>, drained: seq<EventRecord>,
                                                  v: View, ms: seq<Micro>)
    requires Drained(st, drained) && v.ledger == drained && Agrees(v)
    requires Leads(v, ms, ViewOf(st.engine))
    ensures
      var ledger := st.engine.ledger;
      Synchronize(strategy, st) ==
        Running(st.(desk := DeskAfter(ledger), cursor := |ledger|, machine := MachineAfter(ledger).0,
                    strat := Dispatch(strategy, st.strat, st.engine.feedback), engine := ClearFeedback(st.engine)))
    ensures Drained(Synchronize(strategy, st).state, st.engine.ledger)
    ensures Agrees(ViewOf(st.engine))
  {
    var ledger := st.engine.ledger;
    LedgerGrows(v, ms);
    StepsAgree(v, ms);
    var tail := ledger[|drained|..];
    assert ledger == drained + tail;
    SynthesizeConcat(NEW_DESK, drained, tail);
    OnEventsConcat(FLAT, SynthesizeAll(NEW_DESK, drained).1, SynthesizeAll(st.desk, tail).1);
    ReportedViewIsReported(st.engine);
  }

  lemma {:induction false} MarkRuns<S>(cfg: Config, strategy: Strategy<S>, st: LiveState<S>, tick: Tick)
    requires Settled(cfg, st)
    ensures LiveMark(cfg, strategy, st, tick).Running?
    ensures
      var next := LiveMark(cfg, strategy, st, tick).state;
      var marked := PreStrategy(cfg, Log(st.engine, BarRecord(tick.bar.timestamp, tick.bar)), tick);
      && Settled(cfg, next)
      && next.engine == AfterPreStrategy(cfg, st.engine, tick)
      && next.strat == Dispatch(strategy, st.strat, marked.feedback)
      && next.latch == st.latch && next.flattened == st.flattened
  {
    hide PreStrategy, Inv, Leads, Agrees, Synchronize;
    var marked := PreStrategy(cfg, Log(st.engine, BarRecord(tick.bar.timestamp, tick.bar)), tick);
    var ms := MarkMicros(cfg, st.engine, tick);
    assert ViewOf(AfterPreStrategy(cfg, st.engine, tick)) == ViewOf(marked);
    SynchronizeSucceeds(strategy, st.(engine := marked), st.engine.ledger, ViewOf(st.engine), ms);
    MarkKeeps(cfg, st.engine, tick);
  }

  /** The breach this bar acts on, if it is the session's first. */
  function NewBreach<S>(guard: SupervisorConfig, st: LiveState<S>, t: LiveTick): Option<Reason> {
    var latch := LatchAfter(guard, st, t);
    if latch.reason.Some? && t.tick.session.date !in st.flattened then latch.reason else None
  }

  /** What the supervisor's flatten leaves for the strategy to hear. */
  function FlatteningNews<S>(cfg: Config, guard: SupervisorConfig, st: LiveState<S>, t: LiveTick): seq<Feedback> {
    match NewBreach(guard, st, t)
    case None => []
    case Some(reason) =>
      var halted := Log(st.engine, TransitionRecord(t.tick.bar.timestamp, ExecutionHalt(Breach(reason))));
      FlattenNow(cfg, halted, t.tick.bar, reason).feedback
  }

  lemma {:induction false} SuperviseRuns<S>(cfg: Config, guard: SupervisorConfig, strategy: Strategy<S>,
                                            st: LiveState<S>, t: LiveTick)
    requires Settled(cfg, st)
    ensures LiveSupervise(cfg, guard, strategy, st, t).Running?
    ensures
      var next := LiveSupervise(cfg, guard, strategy, st, t).state;
      && Settled(cfg, next)
      && next.engine == AfterSupervisor(cfg, st.engine, t.tick.bar, NewBreach(guard, st, t))
      && next.latch == LatchAfter(guard, st, t)
      && next.strat == Dispatch(strategy, st.strat, FlatteningNews(cfg, guard, st, t))
      && (NewBreach(guard, st, t).None? ==> next == st.(latch := next.latch))
  {
    hide FlattenNow, Inv, Leads, Agrees, Synchronize, Marked;
    var breach := NewBreach(guard, st, t);
    if breach.Some? {
      var halted := Log(st.engine, TransitionRecord(t.tick.bar.timestamp, ExecutionHalt(Breach(breach.value))));
      var flat := FlattenNow(cfg, halted, t.tick.bar, breach.value);
      var ms := SupervisorMicros(cfg, st.engine, t.tick.bar, breach);
      assert ViewOf(AfterSupervisor(cfg, st.engine, t.tick.bar, breach)) == ViewOf(flat);
      var acted := st.(latch := LatchAfter(guard, st, t), flattened := st.flattened + {t.tick.session.date},
                       engine := flat);
      SynchronizeSucceeds(strategy, acted, st.engine.ledger, ViewOf(st.engine), ms);
      SupervisorKeeps(cfg, st.engine, t.tick.bar, breach);
    }
  }

  /** What the strategy answers on this bar, after the supervisor has had its say. */
  function Answer<S>(strategy: Strategy<S>, st: LiveState<S>, tick: Tick, pnl: real): (S, StrategyResult) {
    var (answered, result) := strategy.onBar(strategy.onContext(st.strat, pnl, st.engine.dailyLimitHit), tick);
    (answered, Stripped(st.latch, result))
  }

  lemma {:induction false} AnswerRuns<S>(cfg: Config, strategy: Strategy<S>, st: LiveState<S>, tick: Tick, pnl: real)
    requires Settled(cfg, st)
    requires st.latch.reason.None? ==> LossChecked(cfg, st.engine)
    ensures LiveAnswer(cfg, strategy, st, tick, pnl).Running?
    ensures
      var next := LiveAnswer(cfg, strategy, st, tick, pnl).state;
      var (answered, result) := Answer(strategy, st, tick, pnl);
      && Settled(cfg, next)
      && next.engine == AfterStrategy(cfg, st.engine, tick, result)
      && next.strat == Dispatch(strategy, answered, ApplyResult(cfg, st.engine, tick, result).feedback)
      && next.latch == st.latch && next.flattened == st.flattened
  {
    hide ApplyResult, Inv, Leads, Agrees, Synchronize, LossChecked;
    var (answered, result) := Answer(strategy, st, tick, pnl);
    var applied := ApplyResult(cfg, st.engine, tick, result);
    var ms := AnswerMicros(cfg, st.engine, tick, result);
    assert ViewOf(AfterStrategy(cfg, st.engine, tick, result)) == ViewOf(applied);
    SynchronizeSucceeds(strategy, st.(strat := answered, engine := applied), st.engine.ledger, ViewOf(st.engine), ms);
    ApplyKeeps(cfg, st.engine, tick, result);
    NotingKeeps(cfg, applied, tick);
  }

  lemma {:induction false} NotingKeeps(cfg: Config, st: EngineState, tick: Tick)
    requires Inv(cfg, st)
    ensures Inv(cfg, NoteProcessed(ClearFeedback(st), tick))
    ensures ViewOf(NoteProcessed(ClearFeedback(st), tick)) == ViewOf(st)
  {
  }

  /** The script bar a live bar plays to the engine. */
  function LiveScriptBar<S>(cfg: Config, guard: SupervisorConfig, strategy: Strategy<S>, st: LiveState<S>,
                            t: LiveTick): ScriptBar {
    var marked := LiveMark(cfg, strategy, st, t.tick).state;
    var supervised := LiveSupervise(cfg, guard, strategy, marked, t).state;
    ScriptBar(t.tick, NewBreach(guard, marked, t), Answer(strategy, supervised, t.tick, LivePnl(cfg, st, t.tick)).1)
  }

  lemma {:induction false} BarRuns<S>(cfg: Config, guard: SupervisorConfig, strategy: Strategy<S>, st: LiveState<S>,
                                      t: LiveTick)
    requires Settled(cfg, st)
    ensures LiveBar(cfg, guard, strategy, st, t).Running?
    ensures
      var b := LiveScriptBar(cfg, guard, strategy, st, t);
      && Settled(cfg, LiveBar(cfg, guard, strategy, st, t).state)
      && LiveBar(cfg, guard, strategy, st, t).state.engine == EngineBar(cfg, st.engine, b)
      && Admissible(b)
  {
    hide LiveMark, LiveSupervise, LiveAnswer, AfterPreStrategy, FlattenNow, AfterStrategy, Inv, Marked, LivePnl,
         Agrees, Drained;
    MarkRuns(cfg, strategy, st, t.tick);
    var marked := LiveMark(cfg, strategy, st, t.tick).state;
    MarkKeeps(cfg, st.engine, t.tick);
    SuperviseRuns(cfg, guard, strategy, marked, t);
    var supervised := LiveSupervise(cfg, guard, strategy, marked, t).state;
    AnswerRuns(cfg, strategy, supervised, t.tick, LivePnl(cfg, st, t.tick));
  }

  /** The script the whole live run plays. */
  function LiveScript<S>(cfg: Config, guard: SupervisorConfig, strategy: Strategy<S>, s0: S,
                         ticks: seq<LiveTick>): seq<ScriptBar>
    decreases |ticks|
  {
    if |ticks| == 0 then []
    else
      var before := ticks[..|ticks| - 1];
      LiveScript(cfg, guard, strategy, s0, before)
      + [LiveScriptBar(cfg, guard, strategy, LiveBars(cfg, guard, strategy, s0, before).state, ticks[|ticks| - 1])]
  }

  /**
   * Whatever the strategy, the supervisor and the market do, the loop's own checks never fail:
   * after every bar the shadow is drained and agrees, and the engine has played a legal script.
   */
  lemma {:induction false} LiveBarsNeverHalt<S>(cfg: Config, guard: SupervisorConfig, strategy: Strategy<S>, s0: S,
                                                ticks: seq<LiveTick>)
    ensures LiveBars(cfg, guard, strategy, s0, ticks).Running?
    ensures Settled(cfg, LiveBars(cfg, guard, strategy, s0, ticks).state)
    ensures
      var script := LiveScript(cfg, guard, strategy, s0, ticks);
      && AdmissibleScript(script)
      && LiveBars(cfg, guard, strategy, s0, ticks).state.engine == Run(cfg, script)
    decreases |ticks|
  {
    hide EngineBar, LiveBar, Settled, LiveScriptBar, Admissible;
    if |ticks| > 0 {
      var before := ticks[..|ticks| - 1];
      LiveBarsNeverHalt(cfg, guard, strategy, s0, before);
      var st := LiveBars(cfg, guard, strategy, s0, before).state;
      BarRuns(cfg, guard, strategy, st, ticks[|ticks| - 1]);
      var script := LiveScript(cfg, guard, strategy, s0, ticks);
      assert script[..|script| - 1] == LiveScript(cfg, guard, strategy, s0, before);
    } else {
      StartIsSettled(cfg, s0);
    }
  }

  lemma {:induction false} StartIsSettled<S>(cfg: Config, s0: S)
    ensures Settled(cfg, Start(s0))
  {
    assert SynthesizeAll(NEW_DESK, []) == (NEW_DESK, []);
  }

  /** The shadow holds exactly the engine's position, entry price included, and no id filled twice. */
  lemma {:induction false} ShadowAgreement<S>(cfg: Config, guard: SupervisorConfig, strategy: Strategy<S>, s0: S,
                                              ticks: seq<LiveTick>)
    ensures
      var st := LiveBars(cfg, guard, strategy, s0, ticks).state;
      var ids := FilledIds(SynthesizeAll(NEW_DESK, st.engine.ledger).1);
      && st.machine.position == SessionPnl.ReportedPosition(st.engine)
      && (forall i, j :: 0 <= i < j < |ids| ==> ids[i] != ids[j])
      && st.machine.used == set id | id in ids
  {
    hide LiveBars;
    LiveBarsNeverHalt(cfg, guard, strategy, s0, ticks);
    var st := LiveBars(cfg, guard, strategy, s0, ticks).state;
    ReportedViewIsReported(st.engine);
    NoOrderFillsTwice(SynthesizeAll(NEW_DESK, st.engine.ledger).1);
  }

  /** A completed live run ends unhalted and flat, as the complete run of its script. */
  lemma {:induction false} LiveRunCompletes<S>(cfg: Config, guard: SupervisorConfig, strategy: Strategy<S>, s0: S,
                                               ticks: seq<LiveTick>)
    ensures LiveRun(cfg, guard, strategy, s0, ticks, false).halted == None
    ensures LiveRun(cfg, guard, strategy, s0, ticks, false).engine
            == CompleteRun(cfg, LiveScript(cfg, guard, strategy, s0, ticks))
    ensures
      var last := LiveBars(cfg, guard, strategy, s0, ticks).state;
      LiveRun(cfg, guard, strategy, s0, ticks, false).strat
        == Dispatch(strategy, last.strat, CloseEndOfData(cfg, last.engine).feedback)
  {
    hide LiveBars, CloseEndOfData, Leads, Synchronize, Inv, Agrees, Run;
    LiveBarsNeverHalt(cfg, guard, strategy, s0, ticks);
    var last := LiveBars(cfg, guard, strategy, s0, ticks).state;
    var ms := EndMicros(cfg, last.engine);
    SynchronizeSucceeds(strategy, last.(engine := CloseEndOfData(cfg, last.engine)), last.engine.ledger,
                        ViewOf(last.engine), ms);
  }

  /**
   * A data outage halts the loop with nothing left open: the halt is on record, and what the broker still held is
   * closed at the last bar seen, as the outage's.
   */
  lemma {:induction false} OutageLeavesNothingOpen<S>(cfg: Config, guard: SupervisorConfig, strategy: Strategy<S>,
                                                      s0: S, ticks: seq<LiveTick>)
    ensures LiveRun(cfg, guard, strategy, s0, ticks, true).halted == Some(OutageHalt)
    ensures
      var st := LiveBars(cfg, guard, strategy, s0, ticks).state.engine;
      OutageOf(cfg, st, LiveRun(cfg, guard, strategy, s0, ticks, true).engine, ticks)
  {
    hide LiveBars, Settled, LiveEnd, Outage, OutageOf;
    LiveBarsNeverHalt(cfg, guard, strategy, s0, ticks);
    if ticks == [] {
      EmptyRun(cfg, guard, strategy, s0);
    }
    OutageFlattens(cfg, LiveBars(cfg, guard, strategy, s0, ticks).state.engine, ticks);
  }

  /** The halt first, then at most one trade, at the last close less the exit slippage. */
  predicate OutageOf(cfg: Config, st: EngineState, after: EngineState, ticks: seq<LiveTick>) {
    && after.position.None?
    && |after.ledger| > |st.ledger| && after.ledger[..|st.ledger|] == st.ledger
    && after.ledger[|st.ledger|] == TransitionRecord(LastStamp(ticks), ExecutionHalt(DataOutageHalt))
    && (st.position.None? ==> after.trades == st.trades)
    && (st.position.Some? ==>
          && ticks != [] && |after.trades| == |st.trades| + 1 && after.trades[..|st.trades|] == st.trades
          && var t, last := after.trades[|st.trades|], ticks[|ticks| - 1].tick.bar;
             && t.exitReason == DataOutage && t.exitTimestamp == last.timestamp
             && t.exitPrice == (if st.position.value.side.Long? then last.close - cfg.exitSlippage
                                else last.close + cfg.exitSlippage))
  }

  lemma {:induction false} OutageFlattens(cfg: Config, st: EngineState, ticks: seq<LiveTick>)
    requires ticks == [] ==> st.position.None?
    ensures OutageOf(cfg, st, Outage(cfg, st, ticks), ticks)
  {
  }

  // ---- Every backtest is a run ----

  lemma {:induction false} SimIsSafe<S>(cfg: Config, strategy: Strategy<S>, s0: S, ticks: seq<Tick>)
    ensures Inv(cfg, SimBars(cfg, strategy, s0, ticks).engine)
    decreases |ticks|
  {
    hide SimBar, EngineBar;
    if |ticks| == 0 {
    } else {
      SimIsSafe(cfg, strategy, s0, ticks[..|ticks| - 1]);
      SimBarIsEngineBar(cfg, strategy, SimBars(cfg, strategy, s0, ticks[..|ticks| - 1]), ticks[|ticks| - 1]);
      var b := SimScriptBar(cfg, strategy, SimBars(cfg, strategy, s0, ticks[..|ticks| - 1]), ticks[|ticks| - 1]);
      BarKeeps(cfg, SimBars(cfg, strategy, s0, ticks[..|ticks| - 1]).engine, b);
    }
  }

  /** The script bar a backtest bar plays. */
  function SimScriptBar<S>(cfg: Config, strategy: Strategy<S>, s: SimState<S>, tick: Tick): (b: ScriptBar)
    ensures b.tick == tick && Admissible(b)
  {
    var logged := Log(s.engine, BarRecord(tick.bar.timestamp, tick.bar));
    var marked := PreStrategy(cfg, logged, tick);
    var told := Dispatch(strategy, s.strat, marked.feedback);
    var informed := strategy.onContext(told, PreStrategyPnl(cfg, logged, tick), marked.dailyLimitHit);
    ScriptBar(tick, None, strategy.onBar(informed, tick).1)
  }

  lemma {:induction false} SimBarIsEngineBar<S>(cfg: Config, strategy: Strategy<S>, s: SimState<S>, tick: Tick)
    ensures SimBar(cfg, strategy, s, tick).engine == EngineBar(cfg, s.engine, SimScriptBar(cfg, strategy, s, tick))
  {
    hide PreStrategy, ApplyResult, PreStrategyPnl;
  }

  function SimScript<S>(cfg: Config, strategy: Strategy<S>, s0: S, ticks: seq<Tick>): seq<ScriptBar>
    decreases |ticks|
  {
    if |ticks| == 0 then []
    else
      var before := ticks[..|ticks| - 1];
      SimScript(cfg, strategy, s0, before)
      + [SimScriptBar(cfg, strategy, SimBars(cfg, strategy, s0, before), ticks[|ticks| - 1])]
  }

  lemma {:induction false} BacktestBarsAreARun<S>(cfg: Config, strategy: Strategy<S>, s0: S, ticks: seq<Tick>)
    ensures AdmissibleScript(SimScript(cfg, strategy, s0, ticks))
    ensures SimBars(cfg, strategy, s0, ticks).engine == Run(cfg, SimScript(cfg, strategy, s0, ticks))
    decreases |ticks|
  {
    hide SimBar, EngineBar;
    if |ticks| == 0 {
    } else {
      var before := ticks[..|ticks| - 1];
      BacktestBarsAreARun(cfg, strategy, s0, before);
      SimBarIsEngineBar(cfg, strategy, SimBars(cfg, strategy, s0, before), ticks[|ticks| - 1]);
      var script := SimScript(cfg, strategy, s0, ticks);
      assert script[..|script| - 1] == SimScript(cfg, strategy, s0, before);
    }
  }

  lemma {:induction false} ScriptFollowsTicks<S>(cfg: Config, strategy: Strategy<S>, s0: S, ticks: seq<Tick>)
    ensures |SimScript(cfg, strategy, s0, ticks)| == |ticks|
    ensures forall i :: 0 <= i < |ticks| ==> SimScript(cfg, strategy, s0, ticks)[i].tick == ticks[i]
    decreases |ticks|
  {
    hide SimBars, SimScriptBar;
    if |ticks| == 0 {
    } else {
      ScriptFollowsTicks(cfg, strategy, s0, ticks[..|ticks| - 1]);
    }
  }

  /** Every backtest is the run of its script, so what holds of all runs holds of all backtests. */
  lemma {:induction false} BacktestIsARun<S>(cfg: Config, strategy: Strategy<S>, s0: S, ticks: seq<Tick>)
    ensures
      var script := SimScript(cfg, strategy, s0, ticks);
      && AdmissibleScript(script)
      && |script| == |ticks|
      && (forall i :: 0 <= i < |ticks| ==> script[i].tick == ticks[i])
      && SimRun(cfg, strategy, s0, ticks).engine == CompleteRun(cfg, script)
  {
    hide SimScript, SimBars, Run, CloseEndOfData;
    BacktestBarsAreARun(cfg, strategy, s0, ticks);
    ScriptFollowsTicks(cfg, strategy, s0, ticks);
  }

  // ---- Backtest and live are one ----

  function Plain(ticks: seq<LiveTick>): seq<Tick>
    ensures |Plain(ticks)| == |ticks|
  {
    seq(|ticks|, i requires 0 <= i < |ticks| => ticks[i].tick)
  }

  /** What the supervisor would say about the backtest's own engine on bar i. */
  function VerdictAt<S>(cfg: Config, guard: SupervisorConfig, strategy: Strategy<S>, s0: S, ticks: seq<LiveTick>,
                        i: nat): Option<Reason>
    requires i < |ticks|
  {
    var t := ticks[i];
    var marked := AfterPreStrategy(cfg, SimBars(cfg, strategy, s0, Plain(ticks[..i])).engine, t.tick);
    Evaluate(guard, t.tick.session.date, t.tick.bar, SessionPnl.ReportedPosition(marked), marked.trades, t.killSwitch)
  }

  predicate NeverBreaches<S>(cfg: Config, guard: SupervisorConfig, strategy: Strategy<S>, s0: S, ticks: seq<LiveTick>) {
    forall i :: 0 <= i < |ticks| ==> VerdictAt(cfg, guard, strategy, s0, ticks, i).None?
  }

  lemma {:induction false} BarIsSimBar<S>(cfg: Config, guard: SupervisorConfig, strategy: Strategy<S>,
                                          st: LiveState<S>, t: LiveTick, sim: SimState<S>)
    requires Settled(cfg, st) && st.latch == OPEN
    requires st.engine == sim.engine && st.strat == sim.strat
    requires
      var marked := AfterPreStrategy(cfg, sim.engine, t.tick);
      Evaluate(guard, t.tick.session.date, t.tick.bar, SessionPnl.ReportedPosition(marked), marked.trades,
               t.killSwitch).None?
    ensures LiveBar(cfg, guard, strategy, st, t).Running?
    ensures
      var next := LiveBar(cfg, guard, strategy, st, t).state;
      var simNext := SimBar(cfg, strategy, sim, t.tick);
      Settled(cfg, next) && next.latch == OPEN && next.engine == simNext.engine && next.strat == simNext.strat
  {
    hide LiveMark, LiveSupervise, LiveAnswer, PreStrategy, PreStrategyPnl, ApplyResult, Inv, Evaluate, Agrees, Drained;
    MarkRuns(cfg, strategy, st, t.tick);
    var marked := LiveMark(cfg, strategy, st, t.tick).state;
    MarkKeeps(cfg, st.engine, t.tick);
    SuperviseRuns(cfg, guard, strategy, marked, t);
    var supervised := LiveSupervise(cfg, guard, strategy, marked, t).state;
    assert supervised == marked;
    AnswerRuns(cfg, strategy, supervised, t.tick, LivePnl(cfg, st, t.tick));
  }

  lemma {:induction false} LiveBarsAreSimBars<S>(cfg: Config, guard: SupervisorConfig, strategy: Strategy<S>, s0: S,
                                                 ticks: seq<LiveTick>)
    requires NeverBreaches(cfg, guard, strategy, s0, ticks)
    ensures LiveBars(cfg, guard, strategy, s0, ticks).Running?
    ensures
      var live := LiveBars(cfg, guard, strategy, s0, ticks).state;
      var sim := SimBars(cfg, strategy, s0, Plain(ticks));
      Settled(cfg, live) && live.latch == OPEN && live.engine == sim.engine && live.strat == sim.strat
    decreases |ticks|
  {
    hide Settled, LiveBar, SimBar;
    if |ticks| > 0 {
      var before := ticks[..|ticks| - 1];
      assert Plain(ticks)[..|ticks| - 1] == Plain(before);
      forall i | 0 <= i < |before|
        ensures VerdictAt(cfg, guard, strategy, s0, before, i).None?
      {
        assert before[..i] == ticks[..i];
        assert VerdictAt(cfg, guard, strategy, s0, ticks, i).None?;
      }
      LiveBarsAreSimBars(cfg, guard, strategy, s0, before);
      assert VerdictAt(cfg, guard, strategy, s0, ticks, |ticks| - 1).None?;
      BarIsSimBar(cfg, guard, strategy, LiveBars(cfg, guard, strategy, s0, before).state, ticks[|ticks| - 1],
                  SimBars(cfg, strategy, s0, Plain(before)));
    } else {
      StartIsSettled(cfg, s0);
    }
  }

  /**
   * Backtest/live identity: while the supervisor has nothing to say and the source does not fail, the
   * live loop leaves the backtest's ledger, trades and strategy state, and does not halt.
   */
  lemma {:induction false} LiveRunIsTheBacktest<S>(cfg: Config, guard: SupervisorConfig, strategy: Strategy<S>, s0: S,
                                                   ticks: seq<LiveTick>)
    requires NeverBreaches(cfg, guard, strategy, s0, ticks)
    ensures
      var live := LiveRun(cfg, guard, strategy, s0, ticks, false);
      var backtest := SimRun(cfg, strategy, s0, Plain(ticks));
      && live.engine == backtest.engine
      && live.strat == backtest.strat
      && live.halted == None
  {
    hide LiveBars, SimBars, CloseEndOfData, LiveRun, Settled, Run;
    LiveBarsAreSimBars(cfg, guard, strategy, s0, ticks);
    LiveRunCompletes(cfg, guard, strategy, s0, ticks);
    LiveBarsNeverHalt(cfg, guard, strategy, s0, ticks);
  }

  /** A guard with no loss stop, no switch and room for every position never breaches. */
  lemma {:induction false} SlackGuardNeverBreaches<S>(cfg: Config, guard: SupervisorConfig, strategy: Strategy<S>,
                                                      s0: S, ticks: seq<LiveTick>)
    requires guard.dailyLossStop.None?
    requires guard.maxPositionContracts.Some? ==> guard.maxPositionContracts.value >= cfg.maxContracts
    requires forall i :: 0 <= i < |ticks| ==> !ticks[i].killSwitch
    ensures NeverBreaches(cfg, guard, strategy, s0, ticks)
  {
    forall i | 0 <= i < |ticks|
      ensures VerdictAt(cfg, guard, strategy, s0, ticks, i).None?
    {
      hide SimBar, AfterPreStrategy;
      SimIsSafe(cfg, strategy, s0, Plain(ticks[..i]));
      MarkKeeps(cfg, SimBars(cfg, strategy, s0, Plain(ticks[..i])).engine, ticks[i].tick);
    }
  }
}
