/** The engine's running session P&L is the sum the supervisor recomputes from the trade list. */
module SessionPnl {
  import opened Prelude
  import opened Market
  import opened Events
  import opened EngineSpec
  import opened EngineRun
  import opened Supervisor
  import EngineInvariants

  /** The books balance for session `date`: nothing belongs to a later one. */
  predicate Booked(st: EngineState, date: int) {
    && st.cumulativeNetPnl == TotalNet(st.trades)
    && st.cumulativeNetPnl - st.sessionStartPnl == RealizedOn(st.trades, date)
    && (forall i :: 0 <= i < |st.trades| ==> st.trades[i].sessionDate <= date)
    && (st.position.Some? ==> st.position.value.sessionDate == date)
  }

  lemma {:induction false} NothingRealizedYet(trades: seq<Trade>, date: int)
    requires forall i :: 0 <= i < |trades| ==> trades[i].sessionDate < date
    ensures RealizedOn(trades, date) == 0.0
    decreases |trades|
  {
    if |trades| == 0 {
    } else {
      NothingRealizedYet(trades[..|trades| - 1], date);
    }
  }

  lemma {:induction false} CloseBooks(cfg: Config, st: EngineState, raw: real, timestamp: Timestamp, reason: Reason,
                                      ambiguous: bool, date: int)
    requires Booked(st, date)
    ensures Booked(ClosePosition(cfg, st, raw, timestamp, reason, ambiguous), date)
  {
    if st.position.Some? {
      var closed := ClosePosition(cfg, st, raw, timestamp, reason, ambiguous);
      assert closed.trades[..|closed.trades| - 1] == st.trades;
    }
  }

  lemma {:induction false} SessionChangeBooks(cfg: Config, st: EngineState, session: Session)
    requires Openable(st, session.date)
    ensures Booked(FlattenIfSessionChanged(cfg, st, session), session.date)
  {
    if st.previous.Some? && st.previous.value.session.date != session.date {
      var date := st.previous.value.session.date;
      var last := st.previous.value.bar;
      var cancelled := CancelPendings(st, last.timestamp, SessionEnd);
      CloseBooks(cfg, cancelled, last.close, last.timestamp, SessionEnd, false, date);
      NothingRealizedYet(FlattenIfSessionChanged(cfg, st, session).trades, session.date);
    }
  }

  lemma {:induction false} FlattenBooks(cfg: Config, st: EngineState, bar: Bar, reason: Reason, date: int)
    requires Booked(st, date)
    ensures Booked(FlattenNow(cfg, st, bar, reason), date)
  {
    hide ClosePosition;
    CloseBooks(cfg, CancelPendings(st, bar.timestamp, reason), bar.close, bar.timestamp, reason, false, date);
  }

  lemma {:induction false} IntrabarBooks(cfg: Config, st: EngineState, bar: Bar, date: int)
    requires Booked(st, date)
    ensures Booked(IntrabarStopAndTarget(cfg, st, bar), date)
  {
    hide ClosePosition;
    if st.position.Some? && !st.position.value.stopCancelled {
      var p := st.position.value;
      var stopped := st.(position := Some(p.(maePoints := Max(p.maePoints, Abs(p.entryPrice - p.stopPrice)))));
      var ambiguous := TouchesTarget(p, bar) || Favourable(p.side, p.entryPrice, bar) > p.mfePoints;
      CloseBooks(cfg, stopped, p.stopPrice, bar.timestamp, Stop, ambiguous, date);
      if TouchesTarget(p, bar) {
        var price := p.targetPrice.value;
        var won := st.(position := Some(p.(mfePoints := Max(p.mfePoints, Abs(price - p.entryPrice)))));
        CloseBooks(cfg, won, price, bar.timestamp, Target, false, date);
      }
    }
  }

  /** The books as a bar of session `date` finds them. */
  predicate Openable(st: EngineState, date: int) {
    if st.previous.Some?
    then st.previous.value.session.date <= date && Booked(st, st.previous.value.session.date)
    else Booked(st, date)
  }

  lemma {:induction false} PendingEntryBooks(cfg: Config, st: EngineState, tick: Tick)
    requires Booked(st, tick.session.date)
    ensures Booked(ProcessPendingEntry(cfg, st, tick), tick.session.date)
  {
    hide RealizedOn, TotalNet;
  }

  lemma {:induction false} AtOpenBooks(cfg: Config, st: EngineState, tick: Tick)
    requires Openable(st, tick.session.date)
    ensures Booked(AtOpen(cfg, st, tick), tick.session.date)
  {
    hide FlattenIfSessionChanged, ProcessPendingEntry, ClosePosition, RealizedOn, TotalNet;
    var date, bar := tick.session.date, tick.bar;
    var rolled := FlattenIfSessionChanged(cfg, st, tick.session);
    SessionChangeBooks(cfg, st, tick.session);
    CloseBooks(cfg, rolled.(pendingExit := None), bar.open, bar.timestamp, StopGap, false, date);
    var gapped := OpenGapStop(cfg, rolled, bar);
    PendingEntryBooks(cfg, gapped, tick);
    var entered := ProcessPendingEntry(cfg, gapped, tick);
    if entered.pendingExit.Some? {
      var reason := entered.pendingExit.value.reason;
      CloseBooks(cfg, entered.(pendingExit := None), bar.open, bar.timestamp, reason, false, date);
    }
  }

  lemma {:induction false} DuringBarBooks(cfg: Config, st: EngineState, tick: Tick)
    requires Booked(st, tick.session.date)
    ensures Booked(DuringBar(cfg, st, tick), tick.session.date)
  {
    IntrabarBooks(cfg, st, tick.bar, tick.session.date);
    var tracked := UpdateExcursions(IntrabarStopAndTarget(cfg, st, tick.bar), tick.bar);
    FlattenBooks(cfg, tracked, tick.bar, SessionFlatten, tick.session.date);
  }

  lemma {:induction false} LossCheckBooks(cfg: Config, st: EngineState, bar: Bar, date: int)
    requires Booked(st, date)
    ensures Booked(CheckDailyLoss(cfg, st, bar), date)
    ensures SessionPnl(cfg, CheckDailyLoss(cfg, st, bar), bar) == SessionPnl(cfg, st, bar)
  {
  }

  lemma {:induction false} PreStrategyBooks(cfg: Config, st: EngineState, tick: Tick)
    requires Openable(st, tick.session.date)
    ensures Booked(PreStrategy(cfg, st, tick), tick.session.date)
    ensures SessionPnl(cfg, PreStrategy(cfg, st, tick), tick.bar) == PreStrategyPnl(cfg, st, tick)
  {
    AtOpenBooks(cfg, st, tick);
    DuringBarBooks(cfg, AtOpen(cfg, st, tick), tick);
    LossCheckBooks(cfg, BeforeLossCheck(cfg, st, tick), tick.bar, tick.session.date);
  }

  lemma {:induction false} ExitsBook(cfg: Config, st: EngineState, bar: Bar, exits: seq<ExitDecision>, date: int)
    requires Booked(st, date)
    ensures Booked(ApplyExits(cfg, st, bar, exits), date)
    decreases |exits|
  {
    if |exits| == 0 {
    } else {
      var before := ApplyExits(cfg, st, bar, exits[..|exits| - 1]);
      ExitsBook(cfg, st, bar, exits[..|exits| - 1], date);
      var exit := exits[|exits| - 1];
      CloseBooks(cfg, Log(before, ExitRecord(exit.timestamp, exit)), bar.close, bar.timestamp, exit.reason, false,
                 date);
    }
  }

  lemma {:induction false} IntentBooks(cfg: Config, st: EngineState, tick: Tick, intent: OrderIntent)
    requires Booked(st, tick.session.date)
    ensures Booked(ApplyIntent(cfg, st, tick, intent), tick.session.date)
  {
    hide RealizedOn, TotalNet;
  }

  lemma {:induction false} IntentsBook(cfg: Config, st: EngineState, tick: Tick, intents: seq<OrderIntent>)
    requires Booked(st, tick.session.date)
    ensures Booked(ApplyIntents(cfg, st, tick, intents), tick.session.date)
    decreases |intents|
  {
    if |intents| == 0 {
    } else {
      hide ApplyIntent;
      var before := intents[..|intents| - 1];
      IntentsBook(cfg, st, tick, before);
      IntentBooks(cfg, ApplyIntents(cfg, st, tick, before), tick, intents[|intents| - 1]);
    }
  }

  lemma {:induction false} LogResultBooks(st: EngineState, result: StrategyResult, date: int)
    requires Booked(st, date)
    ensures Booked(LogResult(st, result), date)
  {
    EngineInvariants.LogResultOnlyLogs(st, result);
  }

  lemma {:induction false} SupervisorBooks(cfg: Config, st: EngineState, bar: Bar, breach: Option<Reason>, date: int)
    requires Booked(st, date)
    ensures Booked(AfterSupervisor(cfg, st, bar, breach), date)
  {
    hide FlattenNow;
    if breach.Some? {
      FlattenBooks(cfg, Log(st, TransitionRecord(bar.timestamp, ExecutionHalt(Breach(breach.value)))), bar,
                   breach.value, date);
    }
  }

  lemma {:induction false} ApplyBooks(cfg: Config, st: EngineState, tick: Tick, result: StrategyResult)
    requires Booked(st, tick.session.date)
    ensures Booked(ApplyResult(cfg, st, tick, result), tick.session.date)
  {
    hide LogResult, ApplyExits, ApplyIntents;
    var date := tick.session.date;
    LogResultBooks(st, result, date);
    ExitsBook(cfg, LogResult(st, result), tick.bar, result.exits, date);
    IntentsBook(cfg, ApplyExits(cfg, LogResult(st, result), tick.bar, result.exits), tick, result.orderIntents);
  }

  lemma {:induction false} BarBooks(cfg: Config, st: EngineState, b: ScriptBar)
    requires Openable(st, b.tick.session.date)
    ensures Booked(EngineBar(cfg, st, b), b.tick.session.date)
    ensures EngineBar(cfg, st, b).previous == Some(b.tick)
  {
    hide PreStrategy, ApplyResult, AfterSupervisor, RealizedOn, TotalNet;
    PreStrategyBooks(cfg, Log(st, BarRecord(b.tick.bar.timestamp, b.tick.bar)), b.tick);
    var marked := AfterPreStrategy(cfg, st, b.tick);
    SupervisorBooks(cfg, marked, b.tick.bar, b.breach, b.tick.session.date);
    ApplyBooks(cfg, AfterSupervisor(cfg, marked, b.tick.bar, b.breach), b.tick, b.result);
  }

  predicate OrderedSessions(script: seq<ScriptBar>) {
    forall i, j :: 0 <= i < j < |script| ==> script[i].tick.session.date <= script[j].tick.session.date
  }

  lemma {:induction false} RunBooks(cfg: Config, script: seq<ScriptBar>)
    requires OrderedSessions(script)
    ensures script != [] ==>
      && Run(cfg, script).previous == Some(script[|script| - 1].tick)
      && Booked(Run(cfg, script), script[|script| - 1].tick.session.date)
    ensures script == [] ==> Run(cfg, script) == Initial([])
    decreases |script|
  {
    if |script| == 0 {
    } else {
      hide EngineBar, RealizedOn, TotalNet;
      RunBooks(cfg, script[..|script| - 1]);
      BarBooks(cfg, Run(cfg, script[..|script| - 1]), script[|script| - 1]);
    }
  }

  function ReportedPosition(st: EngineState): Option<BrokerPosition> {
    if st.position.None? then None
    else Some(BrokerPosition(st.position.value.side, st.position.value.quantity, st.position.value.entryPrice))
  }

  /** The books of a run, as the next bar finds them. */
  lemma {:induction false} RunOpenable(cfg: Config, script: seq<ScriptBar>, date: int)
    requires OrderedSessions(script)
    requires script != [] ==> script[|script| - 1].tick.session.date <= date
    ensures Openable(Run(cfg, script), date)
  {
    RunBooks(cfg, script);
  }

  /**
   * The incremental session P&L the engine returns on any bar of any run is what the supervisor
   * recomputes from the trades and the open position, and the books total every trade.
   */
  lemma {:induction false} IncrementalPnlIsRecomputedPnl(cfg: Config, script: seq<ScriptBar>, tick: Tick)
    requires OrderedSessions(script)
    requires script != [] ==> script[|script| - 1].tick.session.date <= tick.session.date
    ensures
      var before := Log(Run(cfg, script), BarRecord(tick.bar.timestamp, tick.bar));
      var marked := AfterPreStrategy(cfg, Run(cfg, script), tick);
      && PreStrategyPnl(cfg, before, tick)
         == RealizedOn(marked.trades, tick.session.date)
            + MarkToMarket(cfg.pointValue, ReportedPosition(marked), tick.bar.close)
      && marked.cumulativeNetPnl == TotalNet(marked.trades)
  {
    hide PreStrategy, PreStrategyPnl, RealizedOn, TotalNet;
    RunOpenable(cfg, script, tick.session.date);
    PreStrategyBooks(cfg, Log(Run(cfg, script), BarRecord(tick.bar.timestamp, tick.bar)), tick);
  }

  /** A supervisor cap no tighter than the engine's limit never fires before the engine's own halt. */
  lemma {:induction false} SupervisorNeverFiresFirst(cfg: Config, guard: SupervisorConfig, script: seq<ScriptBar>,
                                                     tick: Tick, killSwitch: bool)
    requires OrderedSessions(script)
    requires script != [] ==> script[|script| - 1].tick.session.date <= tick.session.date
    requires guard.pointValue == cfg.pointValue
    requires guard.dailyLossStop.Some? && cfg.dailyLossLimit.Some?
    requires guard.dailyLossStop.value >= cfg.dailyLossLimit.value
    ensures
      var marked := AfterPreStrategy(cfg, Run(cfg, script), tick);
      var verdict := Evaluate(guard, tick.session.date, tick.bar, ReportedPosition(marked), marked.trades, killSwitch);
      verdict == Some(SupervisorDailyLoss) ==> marked.dailyLimitHit
  {
    IncrementalPnlIsRecomputedPnl(cfg, script, tick);
  }

  /** What the mark promises a flatten delivers: the same session P&L, less slippage and commission on the way out. */
  lemma {:induction false} FlatteningRealizesTheMark(cfg: Config, st: EngineState, bar: Bar, reason: Reason)
    requires st.position.Some?
    ensures
      var contracts := st.position.value.quantity as real;
      SessionPnl(cfg, FlattenNow(cfg, st, bar, reason), bar)
      == SessionPnl(cfg, st, bar) - (cfg.exitSlippage * cfg.pointValue + cfg.commission) * contracts
  {
    hide Unrealized, ClosedTrade;
    var p := st.position.value;
    var trade := ClosedTrade(cfg, p, ExitFill(cfg, p, bar.close, bar.timestamp, reason, false));
    TradeIsTheMarkLessCosts(cfg, p, bar.close, bar.timestamp, reason);
    assert Unrealized(cfg.pointValue, None, bar.close) == 0.0 by { NothingUnrealized(cfg.pointValue, bar.close); }
    assert FlattenNow(cfg, st, bar, reason).cumulativeNetPnl == st.cumulativeNetPnl + trade.netPnl;
  }

  lemma {:induction false} NothingUnrealized(pointValue: real, mark: real)
    ensures Unrealized(pointValue, None, mark) == 0.0
  {
  }

  lemma {:induction false} TradeIsTheMarkLessCosts(cfg: Config, p: Position, mark: real, timestamp: Timestamp,
                                                   reason: Reason)
    ensures ClosedTrade(cfg, p, ExitFill(cfg, p, mark, timestamp, reason, false)).netPnl
            == Unrealized(cfg.pointValue, Some(p), mark)
               - (cfg.exitSlippage * cfg.pointValue + cfg.commission) * p.quantity as real
  {
    var n, points := p.quantity as real, (mark - p.entryPrice) * Direction(p.side);
    var fill := ExitFill(cfg, p, mark, timestamp, reason, false);
    assert (fill.price - p.entryPrice) * Direction(p.side) == points - cfg.exitSlippage;
    CostsComeOff(points, cfg.exitSlippage, cfg.pointValue, cfg.commission, n);
  }

  lemma {:induction false} CostsComeOff(points: real, slippage: real, pointValue: real, commission: real, n: real)
    ensures (points - slippage) * pointValue * n - commission * n
            == points * pointValue * n - (slippage * pointValue + commission) * n
  {
    assert (points - slippage) * pointValue * n == points * pointValue * n - slippage * pointValue * n;
  }
}
