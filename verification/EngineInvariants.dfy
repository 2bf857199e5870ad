/** What holds of the engine in every reachable state. */
module EngineInvariants {
  import opened Prelude
  import opened Market
  import opened Events
  import opened EngineSpec
  import opened EngineRun

  /** At most one of: a waiting entry; an open position, perhaps with a queued exit. */
  predicate Slots(st: EngineState) {
    && (st.pendingEntry.Some? ==> st.position.None? && st.pendingExit.None?)
    && (st.pendingExit.Some? ==> st.position.Some?)
  }

  /** An open position has a live protective stop, or its flatten is already queued. */
  predicate Protected(st: EngineState) {
    st.position.Some? ==>
      && StopProtects(st.position.value.side, st.position.value.stopPrice, st.position.value.entryPrice)
      && (st.position.value.stopCancelled ==> st.pendingExit.Some?)
  }

  /** A waiting entry is an admitted intent, with the stop and target it was admitted with. */
  predicate Admitted(st: EngineState) {
    st.pendingEntry.Some? ==>
      var pending := st.pendingEntry.value;
      && !pending.intent.side.Unknown?
      && pending.intent.metadata.stopPrice == Some(pending.stopPrice)
      && pending.intent.metadata.targetPrice == pending.targetPrice
  }

  /** Nothing larger than the contract limit is ever waiting or open. */
  predicate Sized(cfg: Config, st: EngineState) {
    && (st.pendingEntry.Some? ==> 1 <= st.pendingEntry.value.intent.quantity <= cfg.maxContracts)
    && (st.position.Some? ==> 1 <= st.position.value.quantity <= cfg.maxContracts)
  }

  function Realized(st: EngineState): real {
    st.cumulativeNetPnl - st.sessionStartPnl
  }

  /** Once halted, nothing waits to enter and whatever is still open is on its way out. */
  predicate Halted(cfg: Config, st: EngineState) {
    && (st.pendingEntry.Some? ==>
          !st.dailyLimitHit && !LossBreached(Realized(st), cfg.dailyLossLimit) && cfg.fillTiming.NextBarOpen?)
    && (st.dailyLimitHit && st.position.Some? ==> st.position.value.stopCancelled)
  }

  predicate Inv(cfg: Config, st: EngineState) {
    Slots(st) && Protected(st) && Admitted(st) && Sized(cfg, st) && Halted(cfg, st)
  }

  /** Nothing open and nothing waiting. */
  predicate Idle(st: EngineState) {
    st.position.None? && st.pendingEntry.None? && st.pendingExit.None?
  }

  /** What the loss check leaves behind and accepting an entry relies on. */
  predicate LossChecked(cfg: Config, st: EngineState) {
    st.position.None? && !st.dailyLimitHit ==> !LossBreached(Realized(st), cfg.dailyLossLimit)
  }

  // ---- Each phase of a bar ----

  lemma {:induction false} LogKeeps(cfg: Config, st: EngineState, record: EventRecord)
    requires Inv(cfg, st)
    ensures Inv(cfg, Log(st, record))
  {
  }

  lemma {:induction false} SessionChangeKeeps(cfg: Config, st: EngineState, session: Session)
    requires Inv(cfg, st)
    ensures Inv(cfg, FlattenIfSessionChanged(cfg, st, session))
  {
  }

  lemma {:induction false} GapStopKeeps(cfg: Config, st: EngineState, bar: Bar)
    requires Inv(cfg, st)
    ensures Inv(cfg, OpenGapStop(cfg, st, bar))
  {
  }

  lemma {:induction false} PendingEntryKeeps(cfg: Config, st: EngineState, tick: Tick)
    requires Inv(cfg, st)
    ensures Inv(cfg, ProcessPendingEntry(cfg, st, tick))
  {
  }

  /** After the queued exit has filled, whatever is open has a live stop and no halt is set. */
  predicate Live(st: EngineState) {
    st.pendingExit.None? && (st.position.Some? ==> !st.position.value.stopCancelled && !st.dailyLimitHit)
  }

  lemma {:induction false} PendingExitKeeps(cfg: Config, st: EngineState, bar: Bar)
    requires Inv(cfg, st)
    ensures Inv(cfg, ProcessPendingExit(cfg, st, bar)) && Live(ProcessPendingExit(cfg, st, bar))
  {
  }

  lemma {:induction false} IntrabarKeeps(cfg: Config, st: EngineState, bar: Bar)
    requires Inv(cfg, st) && Live(st)
    ensures Inv(cfg, IntrabarStopAndTarget(cfg, st, bar)) && Live(IntrabarStopAndTarget(cfg, st, bar))
  {
  }

  lemma {:induction false} BackstopKeeps(cfg: Config, st: EngineState, tick: Tick)
    requires Inv(cfg, st) && Live(st)
    ensures Inv(cfg, BackstopFlatten(cfg, st, tick)) && Live(BackstopFlatten(cfg, st, tick))
  {
  }

  lemma {:induction false} AtOpenKeeps(cfg: Config, st: EngineState, tick: Tick)
    requires Inv(cfg, st)
    ensures Inv(cfg, AtOpen(cfg, st, tick)) && Live(AtOpen(cfg, st, tick))
  {
    var rolled := FlattenIfSessionChanged(cfg, st, tick.session);
    SessionChangeKeeps(cfg, st, tick.session);
    var gapped := OpenGapStop(cfg, rolled, tick.bar);
    GapStopKeeps(cfg, rolled, tick.bar);
    PendingEntryKeeps(cfg, gapped, tick);
    PendingExitKeeps(cfg, ProcessPendingEntry(cfg, gapped, tick), tick.bar);
  }

  lemma {:induction false} DuringBarKeeps(cfg: Config, st: EngineState, tick: Tick)
    requires Inv(cfg, st) && Live(st)
    ensures Inv(cfg, DuringBar(cfg, st, tick)) && Live(DuringBar(cfg, st, tick))
  {
    IntrabarKeeps(cfg, st, tick.bar);
    BackstopKeeps(cfg, UpdateExcursions(IntrabarStopAndTarget(cfg, st, tick.bar), tick.bar), tick);
  }

  lemma {:induction false} LossCheckKeeps(cfg: Config, st: EngineState, bar: Bar)
    requires Inv(cfg, st) && Live(st)
    ensures Inv(cfg, CheckDailyLoss(cfg, st, bar)) && LossChecked(cfg, CheckDailyLoss(cfg, st, bar))
  {
    if st.pendingEntry.Some? {
      assert SessionPnl(cfg, st, bar) == Realized(st);
    }
  }

  lemma {:induction false} PreStrategyKeeps(cfg: Config, st: EngineState, tick: Tick)
    requires Inv(cfg, st)
    ensures Inv(cfg, PreStrategy(cfg, st, tick)) && LossChecked(cfg, PreStrategy(cfg, st, tick))
  {
    AtOpenKeeps(cfg, st, tick);
    DuringBarKeeps(cfg, AtOpen(cfg, st, tick), tick);
    LossCheckKeeps(cfg, BeforeLossCheck(cfg, st, tick), tick.bar);
  }

  /** Logging touches nothing but the ledger. */
  predicate OnlyLogged(st: EngineState, st': EngineState) {
    st' == st.(ledger := st'.ledger)
  }

  lemma {:induction false} LogResultOnlyLogs(st: EngineState, result: StrategyResult)
    ensures OnlyLogged(st, LogResult(st, result))
  {
    var s1 := LogSignal(st, result.signal);
    VetoesOnlyLog(s1, result.riskVetoes);
    StopUpdatesOnlyLog(LogVetoes(s1, result.riskVetoes), result.stopUpdates);
  }

  lemma {:induction false} VetoesOnlyLog(st: EngineState, vetoes: seq<RiskVeto>)
    ensures OnlyLogged(st, LogVetoes(st, vetoes))
    decreases |vetoes|
  {
    if |vetoes| == 0 {
    } else {
      VetoesOnlyLog(st, vetoes[..|vetoes| - 1]);
    }
  }

  lemma {:induction false} StopUpdatesOnlyLog(st: EngineState, updates: seq<StopUpdate>)
    ensures OnlyLogged(st, LogStopUpdates(st, updates))
    decreases |updates|
  {
    if |updates| == 0 {
    } else {
      StopUpdatesOnlyLog(st, updates[..|updates| - 1]);
    }
  }

  /** With next-bar fills an exit only queues, so the loss check stays valid for the entries. */
  lemma {:induction false} ExitsKeep(cfg: Config, st: EngineState, bar: Bar, exits: seq<ExitDecision>)
    requires Inv(cfg, st) && LossChecked(cfg, st)
    ensures Inv(cfg, ApplyExits(cfg, st, bar, exits))
    ensures cfg.fillTiming.NextBarOpen? ==> LossChecked(cfg, ApplyExits(cfg, st, bar, exits))
    decreases |exits|
  {
    if |exits| == 0 {
    } else {
      ExitsKeep(cfg, st, bar, exits[..|exits| - 1]);
    }
  }

  lemma {:induction false} IntentsKeep(cfg: Config, st: EngineState, tick: Tick, intents: seq<OrderIntent>)
    requires Inv(cfg, st)
    requires cfg.fillTiming.NextBarOpen? && |intents| > 0 ==> LossChecked(cfg, st)
    ensures Inv(cfg, ApplyIntents(cfg, st, tick, intents))
    ensures cfg.fillTiming.NextBarOpen? && |intents| > 0 ==> LossChecked(cfg, ApplyIntents(cfg, st, tick, intents))
    decreases |intents|
  {
    if |intents| == 0 {
    } else {
      IntentsKeep(cfg, st, tick, intents[..|intents| - 1]);
    }
  }

  lemma {:induction false} ApplyKeeps(cfg: Config, st: EngineState, tick: Tick, result: StrategyResult)
    requires Inv(cfg, st)
    requires result.orderIntents != [] ==> LossChecked(cfg, st)
    ensures Inv(cfg, ApplyResult(cfg, st, tick, result))
  {
    var logged := LogResult(st, result);
    LogResultOnlyLogs(st, result);
    if result.orderIntents == [] {
      ExitsKeepSlots(cfg, logged, tick.bar, result.exits);
    } else {
      ExitsKeep(cfg, logged, tick.bar, result.exits);
    }
    IntentsKeep(cfg, ApplyExits(cfg, logged, tick.bar, result.exits), tick, result.orderIntents);
  }

  lemma {:induction false} ExitsKeepSlots(cfg: Config, st: EngineState, bar: Bar, exits: seq<ExitDecision>)
    requires Inv(cfg, st)
    ensures Inv(cfg, ApplyExits(cfg, st, bar, exits))
    decreases |exits|
  {
    if |exits| == 0 {
    } else {
      ExitsKeepSlots(cfg, st, bar, exits[..|exits| - 1]);
    }
  }

  lemma {:induction false} SupervisorKeeps(cfg: Config, st: EngineState, bar: Bar, breach: Option<Reason>)
    requires Inv(cfg, st)
    ensures Inv(cfg, AfterSupervisor(cfg, st, bar, breach))
  {
  }

  lemma {:induction false} MarkKeeps(cfg: Config, st: EngineState, tick: Tick)
    requires Inv(cfg, st)
    ensures Inv(cfg, AfterPreStrategy(cfg, st, tick)) && LossChecked(cfg, AfterPreStrategy(cfg, st, tick))
  {
    hide PreStrategy;
    PreStrategyKeeps(cfg, Log(st, BarRecord(tick.bar.timestamp, tick.bar)), tick);
  }

  lemma {:induction false} BarKeeps(cfg: Config, st: EngineState, b: ScriptBar)
    requires Inv(cfg, st) && Admissible(b)
    ensures Inv(cfg, EngineBar(cfg, st, b))
  {
    hide PreStrategy, ApplyResult, FlattenNow;
    MarkKeeps(cfg, st, b.tick);
    var marked := AfterPreStrategy(cfg, st, b.tick);
    SupervisorKeeps(cfg, marked, b.tick.bar, b.breach);
    ApplyKeeps(cfg, AfterSupervisor(cfg, marked, b.tick.bar, b.breach), b.tick, b.result);
  }

  predicate AdmissibleScript(script: seq<ScriptBar>) {
    forall i :: 0 <= i < |script| ==> Admissible(script[i])
  }

  /** Slots, protection and halt discipline hold after every bar of every run. */
  lemma {:induction false} EveryReachableStateIsSafe(cfg: Config, script: seq<ScriptBar>)
    requires AdmissibleScript(script)
    ensures Inv(cfg, Run(cfg, script))
    decreases |script|
  {
    if |script| == 0 {
    } else {
      EveryReachableStateIsSafe(cfg, script[..|script| - 1]);
      BarKeeps(cfg, Run(cfg, script[..|script| - 1]), script[|script| - 1]);
    }
  }
}
