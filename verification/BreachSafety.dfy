/** After the supervisor's breach the session is over: flat, nothing waiting, and no further entry fill. */
module BreachSafety {
  import opened Prelude
  import opened Market
  import opened Events
  import opened EngineSpec
  import opened EngineRun
  import opened EngineInvariants
  import opened Supervisor
  import opened MicroSteps
  import opened RunGrammar
  import opened HaltSafety
  import opened LiveLoop
  import opened LiveTheorems

  // ---- The engine's side ----

  lemma {:induction false} FlattenedIsIdle(cfg: Config, st: EngineState, bar: Bar, reason: Reason)
    ensures
      var after := AfterSupervisor(cfg, st, bar, Some(reason));
      Idle(after) && after.filledIntents == st.filledIntents && after.previous == st.previous
  {
  }

  lemma {:induction false} IdleOpenStaysIdle(cfg: Config, st: EngineState, tick: Tick)
    requires Idle(st) && st.previous.Some? && st.previous.value.session.date == tick.session.date
    ensures AtOpen(cfg, st, tick) == st
  {
  }

  lemma {:induction false} IdleRestStaysIdle(cfg: Config, st: EngineState, tick: Tick)
    requires Idle(st)
    ensures
      var after := CheckDailyLoss(cfg, DuringBar(cfg, st, tick), tick.bar);
      Idle(after) && after.filledIntents == st.filledIntents && after.previous == st.previous
  {
  }

  lemma {:induction false} IdleMarkStaysIdle(cfg: Config, st: EngineState, tick: Tick)
    requires Idle(st) && st.previous.Some? && st.previous.value.session.date == tick.session.date
    ensures
      var after := AfterPreStrategy(cfg, st, tick);
      Idle(after) && after.filledIntents == st.filledIntents && after.previous == st.previous
  {
    hide AtOpen, DuringBar, CheckDailyLoss;
    var logged := Log(st, BarRecord(tick.bar.timestamp, tick.bar));
    IdleOpenStaysIdle(cfg, logged, tick);
    IdleRestStaysIdle(cfg, logged, tick);
  }

  /** An answer stripped of its entries finds nothing to do. */
  lemma {:induction false} StrippedAnswerStaysIdle(cfg: Config, st: EngineState, tick: Tick, result: StrategyResult)
    requires Idle(st) && result.orderIntents == []
    ensures
      var after := AfterStrategy(cfg, st, tick, result);
      Idle(after) && after.filledIntents == st.filledIntents && after.previous == Some(tick)
  {
    hide LogResult, ApplyExits;
    LogResultOnlyLogs(st, result);
    FlatExitsDoNothing(cfg, LogResult(st, result), tick.bar, result.exits);
  }

  // ---- The loop's side ----

  /** Idle in session `date`, with the breach latched and acted on. */
  predicate Fenced<S>(st: LiveState<S>, date: int) {
    && Idle(st.engine)
    && st.latch.reason.Some? && st.latch.session == Some(date)
    && date in st.flattened
    && st.engine.previous.Some? && st.engine.previous.value.session.date == date
  }

  /** A latched reason always names its session. */
  predicate Paired(latch: Latch) {
    latch.reason.Some? ==> latch.session.Some?
  }

  lemma {:induction false} LatchedOn<S>(guard: SupervisorConfig, st: LiveState<S>, t: LiveTick)
    requires Paired(st.latch)
    ensures
      var latch := LatchAfter(guard, st, t);
      && Paired(latch)
      && (latch.reason.Some? ==> latch.session == Some(t.tick.session.date))
      && (st.latch.reason.Some? && st.latch.session == Some(t.tick.session.date) ==> latch == st.latch)
  {
    hide Evaluate;
  }

  /** What one live bar does to latch and engine, phase by phase. */
  lemma {:induction false} BarPhases<S>(cfg: Config, guard: SupervisorConfig, strategy: Strategy<S>, st: LiveState<S>,
                                        t: LiveTick)
    requires Settled(cfg, st)
    ensures LiveMark(cfg, strategy, st, t.tick).Running? && LiveBar(cfg, guard, strategy, st, t).Running?
    ensures
      var marked := LiveMark(cfg, strategy, st, t.tick).state;
      var next := LiveBar(cfg, guard, strategy, st, t).state;
      && marked.engine == AfterPreStrategy(cfg, st.engine, t.tick)
      && marked.latch == st.latch && marked.flattened == st.flattened
      && next.latch == LatchAfter(guard, marked, t)
      && next.flattened == (if NewBreach(guard, marked, t).Some? then st.flattened + {t.tick.session.date}
                            else st.flattened)
      && exists result: StrategyResult ::
           && (next.latch.reason.Some? ==> result.orderIntents == [])
           && next.engine == AfterStrategy(cfg, AfterSupervisor(cfg, marked.engine, t.tick.bar,
                                                                NewBreach(guard, marked, t)), t.tick, result)
  {
    hide LiveMark, LiveAnswer, AfterPreStrategy, AfterSupervisor, AfterStrategy, Inv, Drained, Marked, LivePnl;
    hide FlattenNow;
    MarkRuns(cfg, strategy, st, t.tick);
    MarkKeeps(cfg, st.engine, t.tick);
    var marked := LiveMark(cfg, strategy, st, t.tick).state;
    SuperviseRuns(cfg, guard, strategy, marked, t);
    var supervised := LiveSupervise(cfg, guard, strategy, marked, t).state;
    AnswerRuns(cfg, strategy, supervised, t.tick, LivePnl(cfg, st, t.tick));
    var result := Answer(strategy, supervised, t.tick, LivePnl(cfg, st, t.tick)).1;
    assert supervised.latch.reason.Some? ==> result.orderIntents == [];
  }

  /** The bar on which the loop acts on a breach. */
  lemma {:induction false} BreachFences<S>(cfg: Config, guard: SupervisorConfig, strategy: Strategy<S>,
                                           st: LiveState<S>, t: LiveTick)
    requires Settled(cfg, st) && Paired(st.latch)
    requires LiveMark(cfg, strategy, st, t.tick).Running?
    requires NewBreach(guard, LiveMark(cfg, strategy, st, t.tick).state, t).Some?
    ensures LiveBar(cfg, guard, strategy, st, t).Running?
    ensures
      var next := LiveBar(cfg, guard, strategy, st, t).state;
      && Fenced(next, t.tick.session.date)
      && next.engine.filledIntents == AfterPreStrategy(cfg, st.engine, t.tick).filledIntents
  {
    hide LiveMark, LiveBar, LatchAfter, AfterPreStrategy, AfterSupervisor, AfterStrategy, Settled;
    BarPhases(cfg, guard, strategy, st, t);
    var marked := LiveMark(cfg, strategy, st, t.tick).state;
    var next := LiveBar(cfg, guard, strategy, st, t).state;
    LatchedOn(guard, marked, t);
    var breach := NewBreach(guard, marked, t);
    var result: StrategyResult :| (next.latch.reason.Some? ==> result.orderIntents == [])
      && next.engine == AfterStrategy(cfg, AfterSupervisor(cfg, marked.engine, t.tick.bar, breach), t.tick, result);
    FlattenedIsIdle(cfg, marked.engine, t.tick.bar, breach.value);
    StrippedAnswerStaysIdle(cfg, AfterSupervisor(cfg, marked.engine, t.tick.bar, breach), t.tick, result);
  }

  /** Every later bar of the session. */
  lemma {:induction false} FenceHolds<S>(cfg: Config, guard: SupervisorConfig, strategy: Strategy<S>,
                                         st: LiveState<S>, t: LiveTick)
    requires Settled(cfg, st) && Fenced(st, t.tick.session.date)
    ensures LiveBar(cfg, guard, strategy, st, t).Running?
    ensures
      var next := LiveBar(cfg, guard, strategy, st, t).state;
      Fenced(next, t.tick.session.date) && next.engine.filledIntents == st.engine.filledIntents
  {
    hide LiveMark, LiveBar, LatchAfter, AfterPreStrategy, AfterStrategy, FlattenNow, Settled;
    BarPhases(cfg, guard, strategy, st, t);
    var marked := LiveMark(cfg, strategy, st, t.tick).state;
    var next := LiveBar(cfg, guard, strategy, st, t).state;
    LatchedOn(guard, marked, t);
    IdleMarkStaysIdle(cfg, st.engine, t.tick);
    var result: StrategyResult :| (next.latch.reason.Some? ==> result.orderIntents == [])
      && next.engine == AfterStrategy(cfg, AfterSupervisor(cfg, marked.engine, t.tick.bar,
                                                           NewBreach(guard, marked, t)), t.tick, result);
    StrippedAnswerStaysIdle(cfg, marked.engine, t.tick, result);
  }

  // ---- Runs ----

  /** Bar k belongs to session `date` and left the breach latched. */
  predicate LatchedAfter<S>(cfg: Config, guard: SupervisorConfig, strategy: Strategy<S>, s0: S, ticks: seq<LiveTick>,
                            date: int, k: nat)
    requires k < |ticks|
  {
    && ticks[k].tick.session.date == date
    && LiveBars(cfg, guard, strategy, s0, ticks[..k + 1]).state.latch.reason.Some?
  }

  predicate SomeBarLatched<S>(cfg: Config, guard: SupervisorConfig, strategy: Strategy<S>, s0: S,
                              ticks: seq<LiveTick>, date: int) {
    exists k: nat :: k < |ticks| && LatchedAfter(cfg, guard, strategy, s0, ticks, date, k)
  }

  /** A bar flattens only its own session, and then leaves the breach latched. */
  lemma {:induction false} FlattensOwnSession<S>(cfg: Config, guard: SupervisorConfig, strategy: Strategy<S>,
                                                 st: LiveState<S>, t: LiveTick, date: int)
    requires Settled(cfg, st) && Paired(st.latch)
    ensures LiveBar(cfg, guard, strategy, st, t).Running?
    ensures
      var next := LiveBar(cfg, guard, strategy, st, t).state;
      && Paired(next.latch)
      && (date in next.flattened ==>
            date in st.flattened || (t.tick.session.date == date && next.latch.reason.Some?))
  {
    hide LiveBar, LiveMark, LatchAfter, Settled, AfterStrategy;
    BarPhases(cfg, guard, strategy, st, t);
    LatchedOn(guard, LiveMark(cfg, strategy, st, t.tick).state, t);
  }

  lemma {:induction false} LatchedBefore<S>(cfg: Config, guard: SupervisorConfig, strategy: Strategy<S>, s0: S,
                                            before: seq<LiveTick>, last: LiveTick, date: int)
    requires SomeBarLatched(cfg, guard, strategy, s0, before, date)
    ensures SomeBarLatched(cfg, guard, strategy, s0, before + [last], date)
  {
    hide LiveBars;
    var k: nat :| k < |before| && LatchedAfter(cfg, guard, strategy, s0, before, date, k);
    assert before[..k + 1] == (before + [last])[..k + 1];
    assert LatchedAfter(cfg, guard, strategy, s0, before + [last], date, k);
  }

  lemma {:induction false} LatchedLast<S>(cfg: Config, guard: SupervisorConfig, strategy: Strategy<S>, s0: S,
                                          ticks: seq<LiveTick>, date: int)
    requires ticks != [] && ticks[|ticks| - 1].tick.session.date == date
    requires LiveBars(cfg, guard, strategy, s0, ticks).Running?
    requires LiveBars(cfg, guard, strategy, s0, ticks).state.latch.reason.Some?
    ensures SomeBarLatched(cfg, guard, strategy, s0, ticks, date)
  {
    hide LiveBars;
    assert ticks[..|ticks|] == ticks;
    assert LatchedAfter(cfg, guard, strategy, s0, ticks, date, |ticks| - 1);
  }

  /** The loop's latch is paired, and it has flattened only in sessions that ended some bar latched. */
  lemma {:induction false} LatchHistory<S>(cfg: Config, guard: SupervisorConfig, strategy: Strategy<S>, s0: S,
                                           ticks: seq<LiveTick>, date: int)
    ensures LiveBars(cfg, guard, strategy, s0, ticks).Running?
    ensures
      var st := LiveBars(cfg, guard, strategy, s0, ticks).state;
      Paired(st.latch) && (date in st.flattened ==> SomeBarLatched(cfg, guard, strategy, s0, ticks, date))
    decreases |ticks|
  {
    hide LiveBars, LiveBar, LatchAfter, Settled, SomeBarLatched, Paired, LiveScript;
    LiveBarsNeverHalt(cfg, guard, strategy, s0, ticks);
    if |ticks| == 0 {
      EmptyRun(cfg, guard, strategy, s0);
      NothingLatched(s0);
    } else {
      var before, last := ticks[..|ticks| - 1], ticks[|ticks| - 1];
      LatchHistory(cfg, guard, strategy, s0, before, date);
      LiveBarsNeverHalt(cfg, guard, strategy, s0, before);
      var st := LiveBars(cfg, guard, strategy, s0, before).state;
      FlattensOwnSession(cfg, guard, strategy, st, last, date);
      assert ticks == before + [last] && ticks[..|before| + 1] == ticks;
      OneMore(cfg, guard, strategy, s0, ticks, |before|);
      if date in st.flattened {
        LatchedBefore(cfg, guard, strategy, s0, before, last, date);
      } else if date in LiveBar(cfg, guard, strategy, st, last).state.flattened {
        LatchedLast(cfg, guard, strategy, s0, ticks, date);
      }
    }
  }

  lemma {:induction false} NothingLatched<S>(s0: S)
    ensures Paired(Start(s0).latch)
  {
  }

  /** The last of `ticks` is the first bar of its session to leave the breach latched. */
  predicate FirstBreach<S>(cfg: Config, guard: SupervisorConfig, strategy: Strategy<S>, s0: S, ticks: seq<LiveTick>)
    requires ticks != []
  {
    var n := |ticks| - 1;
    var date := ticks[n].tick.session.date;
    LatchedAfter(cfg, guard, strategy, s0, ticks, date, n)
      && !SomeBarLatched(cfg, guard, strategy, s0, ticks[..n], date)
  }

  /** The engine when the supervisor looked at the last of `ticks`. */
  function MarkOf<S>(cfg: Config, guard: SupervisorConfig, strategy: Strategy<S>, s0: S,
                     ticks: seq<LiveTick>): EngineState
    requires ticks != []
  {
    var n := |ticks| - 1;
    AfterPreStrategy(cfg, LiveBars(cfg, guard, strategy, s0, ticks[..n]).state.engine, ticks[n].tick)
  }

  lemma {:induction false} FirstBreachFences<S>(cfg: Config, guard: SupervisorConfig, strategy: Strategy<S>, s0: S,
                                                ticks: seq<LiveTick>)
    requires ticks != [] && FirstBreach(cfg, guard, strategy, s0, ticks)
    ensures
      var st := LiveBars(cfg, guard, strategy, s0, ticks).state;
      && Fenced(st, ticks[|ticks| - 1].tick.session.date)
      && st.engine.filledIntents == MarkOf(cfg, guard, strategy, s0, ticks).filledIntents
  {
    hide LiveBar, LiveMark, LatchAfter, Settled, AfterPreStrategy, Fenced;
    var before, last := ticks[..|ticks| - 1], ticks[|ticks| - 1];
    LatchHistory(cfg, guard, strategy, s0, before, last.tick.session.date);
    LiveBarsNeverHalt(cfg, guard, strategy, s0, before);
    var st := LiveBars(cfg, guard, strategy, s0, before).state;
    BarPhases(cfg, guard, strategy, st, last);
    assert ticks[..|ticks|] == ticks;
    BreachFences(cfg, guard, strategy, st, last);
  }

  lemma {:induction false} FenceHoldsNext<S>(cfg: Config, guard: SupervisorConfig, strategy: Strategy<S>, s0: S,
                                             before: seq<LiveTick>, t: LiveTick)
    requires Fenced(LiveBars(cfg, guard, strategy, s0, before).state, t.tick.session.date)
    ensures
      var st := LiveBars(cfg, guard, strategy, s0, before).state;
      var next := LiveBars(cfg, guard, strategy, s0, before + [t]).state;
      Fenced(next, t.tick.session.date) && next.engine.filledIntents == st.engine.filledIntents
  {
    hide LiveBars, LiveBar, Settled, Fenced, LiveScript;
    var all := before + [t];
    assert all[..|before|] == before && all[..|before| + 1] == all;
    LiveBarsNeverHalt(cfg, guard, strategy, s0, before);
    OneMore(cfg, guard, strategy, s0, all, |before|);
    FenceHolds(cfg, guard, strategy, LiveBars(cfg, guard, strategy, s0, before).state, t);
  }

  lemma {:induction false} FencedRun<S>(cfg: Config, guard: SupervisorConfig, strategy: Strategy<S>, s0: S,
                                        ticks: seq<LiveTick>, rest: seq<LiveTick>)
    requires ticks != [] && FirstBreach(cfg, guard, strategy, s0, ticks)
    requires forall i :: 0 <= i < |rest| ==> rest[i].tick.session.date == ticks[|ticks| - 1].tick.session.date
    ensures
      var st := LiveBars(cfg, guard, strategy, s0, ticks + rest).state;
      && Fenced(st, ticks[|ticks| - 1].tick.session.date)
      && st.engine.filledIntents == MarkOf(cfg, guard, strategy, s0, ticks).filledIntents
    decreases |rest|
  {
    hide LiveBars, LiveBar, FirstBreach, MarkOf, Settled, Fenced, LiveScript;
    if |rest| == 0 {
      assert ticks + rest == ticks;
      FirstBreachFences(cfg, guard, strategy, s0, ticks);
    } else {
      var shorter := rest[..|rest| - 1];
      FencedRun(cfg, guard, strategy, s0, ticks, shorter);
      assert ticks + rest == ticks + shorter + [rest[|rest| - 1]];
      FenceHoldsNext(cfg, guard, strategy, s0, ticks + shorter, rest[|rest| - 1]);
    }
  }

  /** A ledger's replayed entries are the intents filled so far, between a bar's mark and its answer too. */
  lemma {:induction false} MarkReplays(cfg: Config, script: seq<ScriptBar>, tick: Tick)
    requires AdmissibleScript(script)
    ensures
      var marked := AfterPreStrategy(cfg, Run(cfg, script), tick);
      ReplayFills(marked.ledger).entries == |marked.filledIntents|
  {
    hide Run, AfterPreStrategy, ReplayFills;
    var ms := EveryRunIsGrammatical(cfg, script);
    StartReplays();
    StepsReplayed(EMPTY_VIEW, ms);
    EveryReachableStateIsSafe(cfg, script);
    var more := MarkMicros(cfg, Run(cfg, script), tick);
    StepsReplayed(ViewOf(Run(cfg, script)), more);
  }

  lemma {:induction false} StartReplays()
    ensures Replayed(EMPTY_VIEW)
  {
  }

  /**
   * Once the supervisor has found a breach, the account is flat with nothing waiting at the end of that
   * bar and of every later bar of its session, whatever the strategy asks for, and the ledger shows no
   * entry fill after the mark that found it.
   */
  lemma {:induction false} BreachedSessionStaysOut<S>(cfg: Config, guard: SupervisorConfig, strategy: Strategy<S>,
                                                      s0: S, ticks: seq<LiveTick>, rest: seq<LiveTick>)
    requires ticks != [] && FirstBreach(cfg, guard, strategy, s0, ticks)
    requires forall i :: 0 <= i < |rest| ==> rest[i].tick.session.date == ticks[|ticks| - 1].tick.session.date
    ensures
      var after := LiveBars(cfg, guard, strategy, s0, ticks + rest).state;
      && after.latch.reason.Some?
      && Idle(after.engine)
      && ReplayFills(after.engine.ledger).entries
         == ReplayFills(MarkOf(cfg, guard, strategy, s0, ticks).ledger).entries
  {
    hide LiveBars, FirstBreach, Settled, ReplayFills, Run, LiveScript, AfterPreStrategy;
    var before := ticks[..|ticks| - 1];
    FencedRun(cfg, guard, strategy, s0, ticks, rest);
    LiveBarsNeverHalt(cfg, guard, strategy, s0, before);
    MarkReplays(cfg, LiveScript(cfg, guard, strategy, s0, before), ticks[|ticks| - 1].tick);
    LiveBarsNeverHalt(cfg, guard, strategy, s0, ticks + rest);
    EntriesAreFilledIntents(cfg, LiveScript(cfg, guard, strategy, s0, ticks + rest));
  }
}
