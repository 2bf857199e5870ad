/** What has to be closed is closed: stops, targets, session ends and the flatten window, on every bar of every run. */
module ExitDuties {
  import opened Market
  import opened Events
  import opened EngineSpec
  import opened EngineRun
  import opened EngineInvariants
  import opened HaltSafety
  import opened Deeds
  import RiskManager

  // ---- The flatten window ----

  /** In the window nothing is open or waiting once the bar's own steps are done. */
  lemma {:induction false} WindowMarkIsIdle(cfg: Config, st: EngineState, tick: Tick)
    requires InFlattenWindow(cfg, tick.session)
    ensures Idle(AfterPreStrategy(cfg, st, tick))
  {
    hide AtOpen, IntrabarStopAndTarget, UpdateExcursions, FlattenNow;
    var bar, opened' := tick.bar, AtOpen(cfg, Log(st, BarRecord(tick.bar.timestamp, tick.bar)), tick);
    var tracked := UpdateExcursions(IntrabarStopAndTarget(cfg, opened', bar), bar);
    FlattenNowIsIdle(cfg, tracked, bar, SessionFlatten);
    IdleStaysIdle(cfg, FlattenNow(cfg, tracked, bar, SessionFlatten), bar);
  }

  lemma {:induction false} FlattenNowIsIdle(cfg: Config, st: EngineState, bar: Bar, reason: Reason)
    ensures Idle(FlattenNow(cfg, st, bar, reason))
  {
  }

  lemma {:induction false} IdleStaysIdle(cfg: Config, st: EngineState, bar: Bar)
    requires Idle(st)
    ensures Idle(CheckDailyLoss(cfg, st, bar)) && Idle(ClearFeedback(CheckDailyLoss(cfg, st, bar)))
  {
  }

  /** And the gate lets nothing in. */
  lemma {:induction false} WindowIntentsAreVetoed(cfg: Config, st: EngineState, tick: Tick, intents: seq<OrderIntent>)
    requires InFlattenWindow(cfg, tick.session) && Idle(st)
    ensures Idle(ApplyIntents(cfg, st, tick, intents))
    decreases |intents|
  {
    if |intents| == 0 {
    } else {
      var before, intent := ApplyIntents(cfg, st, tick, intents[..|intents| - 1]), intents[|intents| - 1];
      WindowIntentsAreVetoed(cfg, st, tick, intents[..|intents| - 1]);
      assert VetoOf(cfg, before, tick.session, intent).Some? by { hide RiskManager.StopOnWrongSide; }
    }
  }

  /** So no bar in the window ends with anything open or waiting, whatever the strategy answers. */
  lemma {:induction false} WindowBarsEndIdle(cfg: Config, script: seq<ScriptBar>)
    requires script != [] && InFlattenWindow(cfg, script[|script| - 1].tick.session)
    ensures Idle(Run(cfg, script))
  {
    hide AfterPreStrategy, LogResult, ApplyExits, ApplyIntents, InFlattenWindow, FlattenNow;
    var st, b := Run(cfg, script[..|script| - 1]), script[|script| - 1];
    var bar, marked := b.tick.bar, AfterPreStrategy(cfg, st, b.tick);
    WindowMarkIsIdle(cfg, st, b.tick);
    if b.breach.Some? {
      var halted := Log(marked, TransitionRecord(bar.timestamp, ExecutionHalt(Breach(b.breach.value))));
      FlattenNowIsIdle(cfg, halted, bar, b.breach.value);
    }
    var asked := AfterSupervisor(cfg, marked, bar, b.breach);
    var logged := LogResult(asked, b.result);
    LogResultOnlyLogs(asked, b.result);
    FlatExitsDoNothing(cfg, logged, bar, b.result.exits);
    WindowIntentsAreVetoed(cfg, logged, b.tick, b.result.orderIntents);
  }

  // ---- What a position meets on a bar ----

  /** The bar trades at the stop or beyond, or reaches the target. */
  predicate Touched(p: Position, bar: Bar) {
    || (if p.side.Long? then bar.low <= p.stopPrice else bar.high >= p.stopPrice)
    || (p.targetPrice.Some?
        && if p.side.Long? then bar.high >= p.targetPrice.value else bar.low <= p.targetPrice.value)
  }

  /** A position carried into the bar has to go at once: the session is over, or an exit is queued,
    or the stop is passed. */
  predicate DueAtOpen(st: EngineState, tick: Tick)
    requires st.position.Some?
  {
    var p := st.position.value;
    || (st.previous.Some? && st.previous.value.session.date != tick.session.date)
    || st.pendingExit.Some?
    || (if p.side.Long? then tick.bar.open <= p.stopPrice else tick.bar.open >= p.stopPrice)
  }

  lemma {:induction false} DueIsClosed(cfg: Config, st: EngineState, tick: Tick)
    requires Inv(cfg, st) && st.position.Some? && DueAtOpen(st, tick)
    ensures AtOpen(cfg, st, tick).position.None?
  {
    hide ExitFill, ClosedTrade;
  }

  /** Not due, it comes through the open as it was, and nothing else happens there. */
  lemma {:induction false} NotDueIsCarried(cfg: Config, st: EngineState, tick: Tick)
    requires Inv(cfg, st) && st.position.Some? && !DueAtOpen(st, tick)
    ensures AtOpen(cfg, st, tick) == st
  {
  }

  lemma {:induction false} TouchedIsClosed(cfg: Config, st: EngineState, tick: Tick)
    requires st.position.Some? && !st.position.value.stopCancelled
    ensures Touched(st.position.value, tick.bar) ==> IntrabarStopAndTarget(cfg, st, tick.bar).position.None?
    ensures !Touched(st.position.value, tick.bar) ==> IntrabarStopAndTarget(cfg, st, tick.bar) == st
  {
    hide ExitFill, ClosedTrade, Favourable;
  }

  /** Who is still open after the mark has met nothing that should have closed it. */
  lemma {:induction false} SurvivorsMetNoExit(cfg: Config, script: seq<ScriptBar>, tick: Tick)
    requires AdmissibleScript(script)
    ensures
      var st, marked := Run(cfg, script), AfterPreStrategy(cfg, Run(cfg, script), tick);
      marked.position.Some? ==>
        && !Touched(marked.position.value, tick.bar) && !InFlattenWindow(cfg, tick.session)
        && (st.position.Some? ==> !DueAtOpen(st, tick))
  {
    hide Run, AtOpen, IntrabarStopAndTarget, BackstopFlatten, Inv, InFlattenWindow, DueAtOpen, Touched;
    var st, record := Run(cfg, script), BarRecord(tick.bar.timestamp, tick.bar);
    var logged := Log(st, record);
    EveryReachableStateIsSafe(cfg, script);
    LogKeeps(cfg, st, record);
    AtOpenKeeps(cfg, logged, tick);
    if InFlattenWindow(cfg, tick.session) {
      WindowMarkIsIdle(cfg, st, tick);
    }
    var opened' := AtOpen(cfg, logged, tick);
    if st.position.Some? {
      assert DueAtOpen(logged, tick) == DueAtOpen(st, tick) by { DueAlike(st, logged, tick); }
      if DueAtOpen(st, tick) {
        DueIsClosed(cfg, logged, tick);
        FlatStaysFlat(cfg, opened', tick);
      }
    }
    if opened'.position.Some? {
      TouchedIsClosed(cfg, opened', tick);
      var stopped := IntrabarStopAndTarget(cfg, opened', tick.bar);
      RestOnlyTracks(cfg, stopped, tick);
      if Touched(opened'.position.value, tick.bar) {
        FlatStaysFlat(cfg, opened', tick) by { assert stopped.position.None?; }
      }
    } else {
      FlatStaysFlat(cfg, opened', tick);
    }
  }

  lemma {:induction false} DueAlike(st: EngineState, logged: EngineState, tick: Tick)
    requires st.position.Some? && logged == st.(ledger := logged.ledger)
    ensures DueAtOpen(logged, tick) == DueAtOpen(st, tick)
  {
  }

  /** Flat at the open, or closed inside the bar, is flat after the mark. */
  lemma {:induction false} FlatStaysFlat(cfg: Config, st: EngineState, tick: Tick)
    requires st.position.None? || IntrabarStopAndTarget(cfg, st, tick.bar).position.None?
    ensures CheckDailyLoss(cfg, DuringBar(cfg, st, tick), tick.bar).position.None?
  {
    hide SessionPnl, LossBreached, EffectiveFlatten, ExitFill, ClosedTrade;
  }

  /** The rest of the bar leaves a position its terms, if it leaves it open. */
  lemma {:induction false} RestOnlyTracks(cfg: Config, st: EngineState, tick: Tick)
    ensures
      var after := CheckDailyLoss(cfg, BackstopFlatten(cfg, UpdateExcursions(st, tick.bar), tick), tick.bar);
      after.position.Some? ==>
        && st.position.Some?
        && forall bar: Bar :: Touched(after.position.value, bar) == Touched(st.position.value, bar)
  {
    hide SessionPnl, LossBreached, EffectiveFlatten, ExitFill, ClosedTrade, Favourable, Adverse;
  }

  /**
   * A position that meets nothing else on a bar of the window is closed at that bar's close, as the session's
   * flatten.
   */
  lemma {:induction false} UntouchedIsFlattened(cfg: Config, script: seq<ScriptBar>, tick: Tick)
    requires AdmissibleScript(script) && Run(cfg, script).position.Some?
    requires InFlattenWindow(cfg, tick.session)
    requires !DueAtOpen(Run(cfg, script), tick) && !Touched(Run(cfg, script).position.value, tick.bar)
    ensures
      var st, marked := Run(cfg, script), AfterPreStrategy(cfg, Run(cfg, script), tick);
      var long := st.position.value.side.Long?;
      && |marked.trades| == |st.trades| + 1 && marked.trades[..|st.trades|] == st.trades
      && var trade := marked.trades[|st.trades|];
         && trade.exitReason == SessionFlatten && trade.exitTimestamp == tick.bar.timestamp
         && trade.exitPrice == (if long then tick.bar.close - cfg.exitSlippage else tick.bar.close + cfg.exitSlippage)
  {
    hide Run, AtOpen, IntrabarStopAndTarget, Inv, DueAtOpen, Touched, InFlattenWindow;
    var st, record := Run(cfg, script), BarRecord(tick.bar.timestamp, tick.bar);
    var logged := Log(st, record);
    EveryReachableStateIsSafe(cfg, script);
    LogKeeps(cfg, st, record);
    AtOpenKeeps(cfg, logged, tick);
    DueAlike(st, logged, tick);
    NotDueIsCarried(cfg, logged, tick);
    TouchedIsClosed(cfg, logged, tick);
    FlattensAtTheClose(cfg, logged, tick);
  }

  lemma {:induction false} FlattensAtTheClose(cfg: Config, st: EngineState, tick: Tick)
    requires st.position.Some? && InFlattenWindow(cfg, tick.session)
    ensures
      var after := CheckDailyLoss(cfg, BackstopFlatten(cfg, UpdateExcursions(st, tick.bar), tick), tick.bar);
      && |after.trades| == |st.trades| + 1 && after.trades[..|st.trades|] == st.trades
      && var trade := after.trades[|st.trades|];
         && trade.exitReason == SessionFlatten && trade.exitTimestamp == tick.bar.timestamp
         && trade.exitPrice
            == (if st.position.value.side.Long? then tick.bar.close - cfg.exitSlippage
                else tick.bar.close + cfg.exitSlippage)
  {
    hide SessionPnl, LossBreached, Favourable, Adverse;
  }
}
