/** Backtests of the retest strategy: what its feedback looks like, its reflection, and its attribution. */
module RetestBacktest {
  import opened Prelude
  import opened Market
  import opened Events
  import opened EngineSpec
  import opened EngineRun
  import opened EngineInvariants
  import opened Mirror
  import opened Simulation
  import opened RetestModel
  import Invariants = RetestInvariants
  import Reflection = RetestReflection
  import opened RetestMirror
  import Engine = EngineReflection
  import LiveTheorems
  import opened Attribution
  import LedgerRoundTrip

  // ---- The engine tells of proper fills only ----

  predicate Told(st: EngineState) {
    forall i :: 0 <= i < |st.feedback| ==> SidedFeedback(st.feedback[i])
  }

  lemma {:induction false} CloseTells(cfg: Config, st: EngineState, raw: real, timestamp: Timestamp, reason: Reason,
                                      ambiguous: bool)
    requires Told(st)
    ensures Told(ClosePosition(cfg, st, raw, timestamp, reason, ambiguous))
  {
  }

  lemma {:induction false} OpenTells(cfg: Config, st: EngineState, intent: OrderIntent, stop: real,
                                     target: Option<real>,
                                     raw: real, timestamp: Timestamp, session: Session)
    requires Told(st) && !intent.side.Unknown?
    ensures Told(OpenPosition(cfg, st, intent, stop, target, raw, timestamp, session))
  {
  }

  lemma {:induction false} FlattenTells(cfg: Config, st: EngineState, bar: Bar, reason: Reason)
    requires Told(st)
    ensures Told(FlattenNow(cfg, st, bar, reason))
  {
    hide ClosePosition;
    CloseTells(cfg, CancelPendings(st, bar.timestamp, reason), bar.close, bar.timestamp, reason, false);
  }

  lemma {:induction false} SessionChangeTells(cfg: Config, st: EngineState, session: Session)
    requires Told(st)
    ensures Told(FlattenIfSessionChanged(cfg, st, session))
  {
    hide ClosePosition;
    if st.previous.Some? {
      var last := st.previous.value.bar;
      CloseTells(cfg, CancelPendings(st, last.timestamp, SessionEnd), last.close, last.timestamp, SessionEnd, false);
    }
  }

  lemma {:induction false} GapTells(cfg: Config, st: EngineState, bar: Bar)
    requires Told(st)
    ensures Told(OpenGapStop(cfg, st, bar))
  {
    hide ClosePosition;
    CloseTells(cfg, st.(pendingExit := None), bar.open, bar.timestamp, StopGap, false);
  }

  lemma {:induction false} PendingEntryTells(cfg: Config, st: EngineState, tick: Tick)
    requires Told(st) && Admitted(st)
    ensures Told(ProcessPendingEntry(cfg, st, tick))
  {
    hide OpenPosition, EntrySelected;
    if st.pendingEntry.Some? {
      var pending := st.pendingEntry.value;
      OpenTells(cfg, st.(pendingEntry := None), pending.intent, pending.stopPrice, pending.targetPrice,
                tick.bar.open, tick.bar.timestamp, tick.session);
    }
  }

  lemma {:induction false} PendingExitTells(cfg: Config, st: EngineState, bar: Bar)
    requires Told(st)
    ensures Told(ProcessPendingExit(cfg, st, bar))
  {
    hide ClosePosition;
    if st.pendingExit.Some? {
      CloseTells(cfg, st.(pendingExit := None), bar.open, bar.timestamp, st.pendingExit.value.reason, false);
    }
  }

  lemma {:induction false} AtOpenTells(cfg: Config, st: EngineState, tick: Tick)
    requires Inv(cfg, st) && Told(st)
    ensures Told(AtOpen(cfg, st, tick))
  {
    hide FlattenIfSessionChanged, OpenGapStop, ProcessPendingEntry, ProcessPendingExit, Told, Admitted, Slots,
         Protected, Sized, Halted;
    var rolled := FlattenIfSessionChanged(cfg, st, tick.session);
    var gapped := OpenGapStop(cfg, rolled, tick.bar);
    SessionChangeTells(cfg, st, tick.session);
    SessionChangeKeeps(cfg, st, tick.session);
    GapTells(cfg, rolled, tick.bar);
    GapStopKeeps(cfg, rolled, tick.bar);
    PendingEntryTells(cfg, gapped, tick);
    PendingExitTells(cfg, ProcessPendingEntry(cfg, gapped, tick), tick.bar);
  }

  lemma {:induction false} IntrabarTells(cfg: Config, st: EngineState, bar: Bar)
    requires Told(st)
    ensures Told(IntrabarStopAndTarget(cfg, st, bar))
  {
  }

  lemma {:induction false} PreStrategyTells(cfg: Config, st: EngineState, tick: Tick)
    requires Inv(cfg, st) && Told(st)
    ensures Told(PreStrategy(cfg, st, tick))
  {
    hide AtOpen, IntrabarStopAndTarget, FlattenNow, Inv, SessionPnl;
    AtOpenTells(cfg, st, tick);
    IntrabarTells(cfg, AtOpen(cfg, st, tick), tick.bar);
    var marked := UpdateExcursions(IntrabarStopAndTarget(cfg, AtOpen(cfg, st, tick), tick.bar), tick.bar);
    assert Told(marked);
    FlattenTells(cfg, marked, tick.bar, SessionFlatten);
  }

  lemma {:induction false} LogTells(st: EngineState, result: StrategyResult)
    requires Told(st)
    ensures Told(LogResult(st, result))
  {
    hide Told;
    LogLeavesFeedback(LogVetoes(LogSignal(st, result.signal), result.riskVetoes), [], result.stopUpdates);
    LogLeavesFeedback(LogSignal(st, result.signal), result.riskVetoes, []);
    SameFeedbackTold(st, LogResult(st, result));
  }

  lemma {:induction false} LogLeavesFeedback(st: EngineState, vetoes: seq<RiskVeto>, updates: seq<StopUpdate>)
    ensures LogVetoes(st, vetoes).feedback == st.feedback
    ensures LogStopUpdates(st, updates).feedback == st.feedback
    decreases |vetoes| + |updates|
  {
    if |vetoes| == 0 {
    } else {
      LogLeavesFeedback(st, vetoes[..|vetoes| - 1], []);
    }
    if |updates| == 0 {
    } else {
      LogLeavesFeedback(st, [], updates[..|updates| - 1]);
    }
  }

  lemma {:induction false} SameFeedbackTold(a: EngineState, b: EngineState)
    requires Told(a) && a.feedback == b.feedback
    ensures Told(b)
  {
  }

  lemma {:induction false} ExitsTell(cfg: Config, st: EngineState, bar: Bar, exits: seq<ExitDecision>)
    requires Told(st)
    ensures Told(ApplyExits(cfg, st, bar, exits))
    decreases |exits|
  {
    hide ClosePosition;
    if |exits| == 0 {
    } else {
      var before := ApplyExits(cfg, st, bar, exits[..|exits| - 1]);
      var exit := exits[|exits| - 1];
      ExitsTell(cfg, st, bar, exits[..|exits| - 1]);
      CloseTells(cfg, Log(before, ExitRecord(exit.timestamp, exit)), bar.close, bar.timestamp, exit.reason, false);
    }
  }

  lemma {:induction false} IntentTells(cfg: Config, st: EngineState, tick: Tick, intent: OrderIntent)
    requires Told(st)
    ensures Told(ApplyIntent(cfg, st, tick, intent))
  {
    hide OpenPosition, VetoOf;
    if VetoOf(cfg, st, tick.session, intent).None? {
      OpenTells(cfg, Log(st, IntentRecord(intent.timestamp, intent)), intent, intent.metadata.stopPrice.value,
                intent.metadata.targetPrice, tick.bar.close, tick.bar.timestamp, tick.session);
    }
  }

  lemma {:induction false} IntentsTell(cfg: Config, st: EngineState, tick: Tick, intents: seq<OrderIntent>)
    requires Told(st)
    ensures Told(ApplyIntents(cfg, st, tick, intents))
    decreases |intents|
  {
    hide ApplyIntent, Told;
    if |intents| == 0 {
    } else {
      IntentsTell(cfg, st, tick, intents[..|intents| - 1]);
      IntentTells(cfg, ApplyIntents(cfg, st, tick, intents[..|intents| - 1]), tick, intents[|intents| - 1]);
    }
  }

  lemma {:induction false} ApplyTells(cfg: Config, st: EngineState, tick: Tick, result: StrategyResult)
    requires Told(st)
    ensures Told(ApplyResult(cfg, st, tick, result))
  {
    hide LogResult, ApplyExits, ApplyIntents, Told;
    LogTells(st, result);
    ExitsTell(cfg, LogResult(st, result), tick.bar, result.exits);
    IntentsTell(cfg, ApplyExits(cfg, LogResult(st, result), tick.bar, result.exits), tick, result.orderIntents);
  }

  lemma {:induction false} EndTells(cfg: Config, st: EngineState)
    requires Told(st)
    ensures Told(CloseEndOfData(cfg, st))
  {
  }

  // ---- Feedback reaches the strategy mirrored ----

  lemma {:induction false} DispatchIsHearing(rc: RetestConfig, m: Memory, item: Feedback)
    requires rc.tickSize > 0.0
    ensures DispatchOne(RetestStrategy(rc), m, item) == Invariants.Hear(m, item)
  {
    hide OnFill, OnTradeClosed, OnBar;
  }

  lemma {:induction false} DispatchKeeps(rc: RetestConfig, m: Memory, feedback: seq<Feedback>)
    requires rc.tickSize > 0.0 && Invariants.Ready(m)
    ensures Invariants.Ready(Dispatch(RetestStrategy(rc), m, feedback))
    decreases |feedback|
  {
    hide Invariants.Ready, Invariants.Hear, RetestStrategy, DispatchOne;
    if |feedback| == 0 {
    } else {
      var before := Dispatch(RetestStrategy(rc), m, feedback[..|feedback| - 1]);
      DispatchKeeps(rc, m, feedback[..|feedback| - 1]);
      DispatchIsHearing(rc, before, feedback[|feedback| - 1]);
      Invariants.HearKeeps(before, feedback[|feedback| - 1]);
    }
  }

  lemma {:induction false} DispatchMirrors(rc: RetestConfig, m: Memory, feedback: seq<Feedback>)
    requires rc.tickSize > 0.0
    requires forall i :: 0 <= i < |feedback| ==> SidedFeedback(feedback[i])
    ensures Dispatch(RetestStrategy(rc), MirrorMemory(m), Map(MirrorFeedback, feedback))
            == MirrorMemory(Dispatch(RetestStrategy(rc), m, feedback))
    decreases |feedback|
  {
    hide Invariants.Hear, RetestStrategy, DispatchOne, MirrorMemory, MirrorFeedback, SidedFeedback;
    if |feedback| == 0 {
    } else {
      var last := feedback[|feedback| - 1];
      var before := Dispatch(RetestStrategy(rc), m, feedback[..|feedback| - 1]);
      MapInit(MirrorFeedback, feedback);
      DispatchMirrors(rc, m, feedback[..|feedback| - 1]);
      DispatchIsHearing(rc, before, last);
      DispatchIsHearing(rc, MirrorMemory(before), MirrorFeedback(last));
      Reflection.HearMirrors(before, last);
    }
  }

  // ---- One bar of the backtest ----

  function MirrorSim(s: SimState<Memory>): SimState<Memory> {
    SimState(MirrorState(s.engine), MirrorMemory(s.strat), s.dates)
  }

  /** Between bars: a safe engine with nothing left to tell, and a ready strategy. */
  predicate Poised(cfg: Config, s: SimState<Memory>) {
    Inv(cfg, s.engine) && s.engine.feedback == [] && Invariants.Ready(s.strat)
  }

  /** The strategy's turn: what it hears, then what it answers. */
  function Turn(rc: RetestConfig, m: Memory, feedback: seq<Feedback>, tick: Tick): (Memory, StrategyResult)
    requires rc.tickSize > 0.0
  {
    OnBar(rc, Dispatch(RetestStrategy(rc), m, feedback), tick)
  }

  lemma {:induction false} TurnKeeps(rc: RetestConfig, m: Memory, feedback: seq<Feedback>, tick: Tick)
    requires ValidRetestConfig(rc) && Invariants.Ready(m)
    ensures Invariants.Ready(Turn(rc, m, feedback, tick).0)
  {
    hide Invariants.Ready, OnBar, RetestStrategy;
    DispatchKeeps(rc, m, feedback);
    Invariants.BarKeeps(rc, Dispatch(RetestStrategy(rc), m, feedback), tick);
  }

  lemma {:induction false} TurnMirrors(rc: RetestConfig, m: Memory, feedback: seq<Feedback>, tick: Tick)
    requires ValidRetestConfig(rc) && Invariants.Ready(m)
    requires forall i :: 0 <= i < |feedback| ==> SidedFeedback(feedback[i])
    ensures Turn(rc, MirrorMemory(m), Map(MirrorFeedback, feedback), MirrorTick(tick)).0
            == MirrorMemory(Turn(rc, m, feedback, tick).0)
    ensures Turn(rc, MirrorMemory(m), Map(MirrorFeedback, feedback), MirrorTick(tick)).1
            == MirrorResult(Turn(rc, m, feedback, tick).1)
  {
    hide Invariants.Ready, OnBar, RetestStrategy, MirrorMemory, MirrorResult, SidedFeedback;
    DispatchMirrors(rc, m, feedback);
    DispatchKeeps(rc, m, feedback);
    Reflection.BarMirrors(rc, Dispatch(RetestStrategy(rc), m, feedback), tick);
  }

  /** A backtest bar in terms of the strategy's turn. */
  lemma {:induction false} SimBarTakesATurn(cfg: Config, rc: RetestConfig, s: SimState<Memory>, tick: Tick)
    requires rc.tickSize > 0.0
    ensures
      var marked := PreStrategy(cfg, Log(s.engine, BarRecord(tick.bar.timestamp, tick.bar)), tick);
      var (answered, result) := Turn(rc, s.strat, marked.feedback, tick);
      var applied := ApplyResult(cfg, ClearFeedback(marked), tick, result);
      SimBar(cfg, RetestStrategy(rc), s, tick)
        == SimState(NoteProcessed(ClearFeedback(applied), tick),
                    Dispatch(RetestStrategy(rc), answered, applied.feedback),
                    NoteDate(s.dates, tick.session.date))
  {
    hide PreStrategy, PreStrategyPnl, ApplyResult, OnBar, OnFill, OnTradeClosed, NoteDate, Log, ClearFeedback,
         NoteProcessed, Dispatch;
  }

  lemma {:induction false} FeedbackMirrors(st: EngineState)
    ensures MirrorState(st).feedback == Map(MirrorFeedback, st.feedback)
    ensures MirrorState(st).position.Some? == st.position.Some?
    ensures MirrorState(st).dailyLimitHit == st.dailyLimitHit
  {
  }

  lemma {:induction false} ClearTells(st: EngineState)
    ensures Told(ClearFeedback(st))
  {
  }

  /** The engine side of a bar keeps its invariant and tells of proper fills, before and after the answer. */
  lemma {:induction false} MarkedIsSafe(cfg: Config, st: EngineState, tick: Tick)
    requires Inv(cfg, st) && st.feedback == []
    ensures Told(PreStrategy(cfg, Log(st, BarRecord(tick.bar.timestamp, tick.bar)), tick))
  {
    hide PreStrategy, Inv;
    LogKeeps(cfg, st, BarRecord(tick.bar.timestamp, tick.bar));
    PreStrategyTells(cfg, Log(st, BarRecord(tick.bar.timestamp, tick.bar)), tick);
  }

  lemma {:induction false} SimBarKeeps(cfg: Config, rc: RetestConfig, s: SimState<Memory>, tick: Tick)
    requires ValidRetestConfig(rc) && Poised(cfg, s)
    ensures Poised(cfg, SimBar(cfg, RetestStrategy(rc), s, tick))
  {
    hide PreStrategy, ApplyResult, Inv, Invariants.Ready, RetestStrategy, Turn, EngineBar, Log, Dispatch, NoteDate,
         SimBar;
    SimBarTakesATurn(cfg, rc, s, tick);
    var marked := PreStrategy(cfg, Log(s.engine, BarRecord(tick.bar.timestamp, tick.bar)), tick);
    TurnKeeps(rc, s.strat, marked.feedback, tick);
    var (answered, result) := Turn(rc, s.strat, marked.feedback, tick);
    DispatchKeeps(rc, answered, ApplyResult(cfg, ClearFeedback(marked), tick, result).feedback);
    LiveTheorems.SimBarIsEngineBar(cfg, RetestStrategy(rc), s, tick);
    BarKeeps(cfg, s.engine, LiveTheorems.SimScriptBar(cfg, RetestStrategy(rc), s, tick));
  }

  /** Both halves of a bar commute with reflection, so the bar does. */
  lemma {:induction false} SimBarMirrors(cfg: Config, rc: RetestConfig, s: SimState<Memory>, tick: Tick)
    requires Engine.SideBlind(cfg) && ValidRetestConfig(rc) && Poised(cfg, s)
    ensures SimBar(cfg, RetestStrategy(rc), MirrorSim(s), MirrorTick(tick))
            == MirrorSim(SimBar(cfg, RetestStrategy(rc), s, tick))
  {
    hide PreStrategy, ApplyResult, Inv, Invariants.Ready, RetestStrategy, Turn, Log, Dispatch, NoteDate, SimBar,
         MirrorState, MirrorMemory, MirrorResult, ClearFeedback, NoteProcessed, Told, Engine.SideBlind;
    var record := BarRecord(tick.bar.timestamp, tick.bar);
    var logged := Log(s.engine, record);
    var marked := PreStrategy(cfg, logged, tick);
    SimBarTakesATurn(cfg, rc, s, tick);
    SimBarTakesATurn(cfg, rc, MirrorSim(s), MirrorTick(tick));
    Engine.LogMirrors(s.engine, record);
    LogKeeps(cfg, s.engine, record);
    Engine.PreStrategyMirrors(cfg, logged, tick);
    MarkedIsSafe(cfg, s.engine, tick);
    FeedbackMirrors(marked);
    ToldMeans(marked);
    TurnMirrors(rc, s.strat, marked.feedback, tick);
    var (answered, result) := Turn(rc, s.strat, marked.feedback, tick);
    Engine.ClearMirrors(marked);
    Engine.ApplyMirrors(cfg, ClearFeedback(marked), tick, result);
    var applied := ApplyResult(cfg, ClearFeedback(marked), tick, result);
    ClearTells(marked);
    ApplyTells(cfg, ClearFeedback(marked), tick, result);
    FeedbackMirrors(applied);
    ToldMeans(applied);
    DispatchMirrors(rc, answered, applied.feedback);
    Engine.ClearMirrors(applied);
    Engine.NoteMirrors(ClearFeedback(applied), tick);
  }

  lemma {:induction false} ToldMeans(st: EngineState)
    requires Told(st)
    ensures forall i :: 0 <= i < |st.feedback| ==> SidedFeedback(st.feedback[i])
  {
  }

  // ---- Whole backtests ----

  lemma {:induction false} SimBarsMirror(cfg: Config, rc: RetestConfig, ticks: seq<Tick>)
    requires Engine.SideBlind(cfg) && ValidRetestConfig(rc)
    ensures Poised(cfg, SimBars(cfg, RetestStrategy(rc), NEW_MEMORY, ticks))
    ensures SimBars(cfg, RetestStrategy(rc), NEW_MEMORY, Map(MirrorTick, ticks))
            == MirrorSim(SimBars(cfg, RetestStrategy(rc), NEW_MEMORY, ticks))
    decreases |ticks|
  {
    hide Poised, SimBar, RetestStrategy, MirrorState, MirrorMemory, NEW_MEMORY, Engine.SideBlind;
    if |ticks| == 0 {
      Engine.StartMirrors();
      Reflection.NewMirrors();
      StartsPoised(cfg);
    } else {
      var before := ticks[..|ticks| - 1];
      MapInit(MirrorTick, ticks);
      SimBarsMirror(cfg, rc, before);
      var s := SimBars(cfg, RetestStrategy(rc), NEW_MEMORY, before);
      SimBarKeeps(cfg, rc, s, ticks[|ticks| - 1]);
      SimBarMirrors(cfg, rc, s, ticks[|ticks| - 1]);
    }
  }

  lemma {:induction false} StartsPoised(cfg: Config)
    ensures Poised(cfg, SimState(Initial([]), NEW_MEMORY, []))
  {
    Invariants.FreshIsReady();
  }

  /**
   * The strategy and the engine together have no directional bias: the backtest of the reflected market is
   * the reflected backtest, trade by trade with the same money, and the strategy's own memory reflected.
   */
  lemma {:induction false} BacktestsMirror(cfg: Config, rc: RetestConfig, ticks: seq<Tick>)
    requires Engine.SideBlind(cfg) && ValidRetestConfig(rc)
    ensures
      var end := SimRun(cfg, RetestStrategy(rc), NEW_MEMORY, ticks);
      var mirrored := SimRun(cfg, RetestStrategy(rc), NEW_MEMORY, Map(MirrorTick, ticks));
      && mirrored == MirrorSim(end)
      && |mirrored.engine.trades| == |end.engine.trades|
      && (forall i :: 0 <= i < |end.engine.trades| ==>
            && mirrored.engine.trades[i].netPnl == end.engine.trades[i].netPnl
            && mirrored.engine.trades[i].side != end.engine.trades[i].side)
  {
    hide Poised, SimBars, RetestStrategy, MirrorMemory, NEW_MEMORY, CloseEndOfData, Engine.SideBlind, Dispatch;
    SimBarsMirror(cfg, rc, ticks);
    var s := SimBars(cfg, RetestStrategy(rc), NEW_MEMORY, ticks);
    var closed := CloseEndOfData(cfg, s.engine);
    PoisedTells(cfg, s);
    Engine.EndMirrors(cfg, s.engine);
    Engine.ClearMirrors(closed);
    EndTells(cfg, s.engine);
    ToldMeans(closed);
    FeedbackMirrors(closed);
    DispatchMirrors(rc, s.strat, closed.feedback);
  }

  lemma {:induction false} PoisedTells(cfg: Config, s: SimState<Memory>)
    requires Poised(cfg, s)
    ensures Told(s.engine)
  {
  }

  // ---- Its ledgers attribute ----

  lemma {:induction false} ExitsAreNamed(rc: RetestConfig, m: Memory, tick: Tick)
    requires rc.tickSize > 0.0
    ensures
      var exits := OnBar(rc, m, tick).1.exits;
      forall i :: 0 <= i < |exits| ==> !EntryReason(exits[i].reason)
  {
    hide SeekEntry, ObserveRth, ExpirePending, StartSession, TrackOvernight;
  }

  lemma {:induction false} AnswersAreRetestResults(rc: RetestConfig, m: Memory, tick: Tick)
    requires ValidRetestConfig(rc) && Invariants.Ready(m)
    ensures RetestResult(OnBar(rc, m, tick).1)
  {
    hide OnBar, Invariants.Ready;
    Invariants.BarKeeps(rc, m, tick);
    ExitsAreNamed(rc, m, tick);
  }

  lemma {:induction false} ScriptBarIsRetest(cfg: Config, rc: RetestConfig, s: SimState<Memory>, tick: Tick)
    requires ValidRetestConfig(rc) && Poised(cfg, s)
    ensures LedgerRoundTrip.RetestBar(LiveTheorems.SimScriptBar(cfg, RetestStrategy(rc), s, tick))
  {
    hide PreStrategy, PreStrategyPnl, OnBar, OnFill, OnTradeClosed, Inv, Invariants.Ready, RetestResult, Log, Dispatch;
    var marked := PreStrategy(cfg, Log(s.engine, BarRecord(tick.bar.timestamp, tick.bar)), tick);
    DispatchKeeps(rc, s.strat, marked.feedback);
    AnswersAreRetestResults(rc, Dispatch(RetestStrategy(rc), s.strat, marked.feedback), tick);
  }

  lemma {:induction false} ScriptIsRetest(cfg: Config, rc: RetestConfig, ticks: seq<Tick>)
    requires ValidRetestConfig(rc)
    ensures Poised(cfg, SimBars(cfg, RetestStrategy(rc), NEW_MEMORY, ticks))
    ensures LedgerRoundTrip.RetestScript(LiveTheorems.SimScript(cfg, RetestStrategy(rc), NEW_MEMORY, ticks))
    decreases |ticks|
  {
    hide Poised, SimBar, RetestStrategy, NEW_MEMORY, LiveTheorems.SimScriptBar, LedgerRoundTrip.RetestBar;
    if |ticks| == 0 {
      StartsPoised(cfg);
    } else {
      ScriptIsRetest(cfg, rc, ticks[..|ticks| - 1]);
      var s := SimBars(cfg, RetestStrategy(rc), NEW_MEMORY, ticks[..|ticks| - 1]);
      SimBarKeeps(cfg, rc, s, ticks[|ticks| - 1]);
      ScriptBarIsRetest(cfg, rc, s, ticks[|ticks| - 1]);
    }
  }

  /** Every backtest of the strategy writes a ledger that parses back into its own trades. */
  lemma {:induction false} BacktestsAttribute(cfg: Config, rc: RetestConfig, ticks: seq<Tick>)
    requires ValidRetestConfig(rc)
    requires forall i, j :: 0 <= i < j < |ticks| ==> ticks[i].bar.timestamp != ticks[j].bar.timestamp
    ensures
      var end := SimRun(cfg, RetestStrategy(rc), NEW_MEMORY, ticks).engine;
      var parsed := ParseLedger(end.ledger);
      && parsed.Ok?
      && PairsOff(end.trades, parsed.value.entries)
      && |end.filledIntents| == |end.trades|
      && (forall i :: 0 <= i < |end.trades| ==>
            LedgerRoundTrip.TracedTo(Paired(end.trades, parsed.value.entries)[i], end.trades[i], end.filledIntents[i]))
  {
    hide SimRun, SimBars, RetestStrategy, NEW_MEMORY, LiveTheorems.SimScript, CompleteRun, ParseLedger,
         LedgerRoundTrip.RetestScript;
    var script := LiveTheorems.SimScript(cfg, RetestStrategy(rc), NEW_MEMORY, ticks);
    LiveTheorems.BacktestIsARun(cfg, RetestStrategy(rc), NEW_MEMORY, ticks);
    ScriptIsRetest(cfg, rc, ticks);
    LedgerRoundTrip.CompleteRunsAttribute(cfg, script);
  }
}
