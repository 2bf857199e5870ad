/** Every complete run of a retest strategy can be attributed from its own ledger. */
module LedgerRoundTrip {
  import opened Prelude
  import opened Market
  import opened Events
  import opened EngineSpec
  import opened EngineRun
  import opened EngineInvariants
  import opened MicroSteps
  import opened RunGrammar
  import opened Attribution

  predicate CleanRecord(record: EventRecord) {
    record.IntentRecord? ==> EntryReason(record.intent.reason) && FullMetadata(record.intent.metadata)
  }

  /** No exit, done or queued, borrows an entry's reason; every recorded intent is a retest intent. */
  predicate Clean(st: EngineState) {
    && (forall i :: 0 <= i < |st.trades| ==> !EntryReason(st.trades[i].exitReason))
    && (st.pendingExit.Some? ==> !EntryReason(st.pendingExit.value.reason))
    && (forall i :: 0 <= i < |st.ledger| ==> CleanRecord(st.ledger[i]))
  }

  /** Entry times are distinct and all come from `stamps`. */
  predicate Stamped(st: EngineState, stamps: set<Timestamp>) {
    && DistinctEntries(st.trades)
    && (forall i :: 0 <= i < |st.trades| ==> st.trades[i].entryTimestamp in stamps)
    && (st.position.Some? ==>
          && st.position.value.entryTimestamp in stamps
          && forall i :: 0 <= i < |st.trades| ==> st.trades[i].entryTimestamp != st.position.value.entryTimestamp)
  }

  predicate Traceable(st: EngineState, stamps: set<Timestamp>) {
    Clean(st) && Stamped(st, stamps)
  }

  lemma {:induction false} LogTraces(st: EngineState, record: EventRecord, stamps: set<Timestamp>)
    requires Traceable(st, stamps) && CleanRecord(record)
    ensures Traceable(Log(st, record), stamps)
  {
  }

  lemma {:induction false} CloseTraces(cfg: Config, st: EngineState, raw: real, timestamp: Timestamp, reason: Reason,
                                       ambiguous: bool, stamps: set<Timestamp>)
    requires Traceable(st, stamps) && !EntryReason(reason)
    ensures Traceable(ClosePosition(cfg, st, raw, timestamp, reason, ambiguous), stamps)
  {
  }

  lemma {:induction false} CancelTraces(st: EngineState, timestamp: Timestamp, reason: Reason, stamps: set<Timestamp>)
    requires Traceable(st, stamps)
    ensures Traceable(CancelPendings(st, timestamp, reason), stamps)
  {
  }

  lemma {:induction false} FlattenTraces(cfg: Config, st: EngineState, bar: Bar, reason: Reason, stamps: set<Timestamp>)
    requires Traceable(st, stamps) && !EntryReason(reason)
    ensures Traceable(FlattenNow(cfg, st, bar, reason), stamps)
  {
    hide ClosePosition, CancelPendings;
    CancelTraces(st, bar.timestamp, reason, stamps);
    CloseTraces(cfg, CancelPendings(st, bar.timestamp, reason), bar.close, bar.timestamp, reason, false, stamps);
  }

  lemma {:induction false} SessionChangeTraces(cfg: Config, st: EngineState, session: Session, stamps: set<Timestamp>)
    requires Traceable(st, stamps)
    ensures Traceable(FlattenIfSessionChanged(cfg, st, session), stamps)
  {
    if st.previous.Some? && session.date != st.previous.value.session.date {
      hide ClosePosition, CancelPendings;
      FlattenTraces(cfg, st, st.previous.value.bar, SessionEnd, stamps);
      var flat := FlattenNow(cfg, st, st.previous.value.bar, SessionEnd);
      assert FlattenIfSessionChanged(cfg, st, session)
        == flat.(sessionStartPnl := flat.cumulativeNetPnl, dailyLimitHit := false);
    }
  }

  lemma {:induction false} GapTraces(cfg: Config, st: EngineState, bar: Bar, stamps: set<Timestamp>)
    requires Traceable(st, stamps)
    ensures Traceable(OpenGapStop(cfg, st, bar), stamps)
  {
    hide ClosePosition;
    CloseTraces(cfg, st.(pendingExit := None), bar.open, bar.timestamp, StopGap, false, stamps);
  }

  lemma {:induction false} PendingExitTraces(cfg: Config, st: EngineState, bar: Bar, stamps: set<Timestamp>)
    requires Traceable(st, stamps)
    ensures Traceable(ProcessPendingExit(cfg, st, bar), stamps)
  {
    hide ClosePosition;
    if st.pendingExit.Some? {
      CloseTraces(cfg, st.(pendingExit := None), bar.open, bar.timestamp, st.pendingExit.value.reason, false, stamps);
    }
  }

  /** Opening at a fresh time keeps entry times distinct. */
  lemma {:induction false} OpenTraces(cfg: Config, st: EngineState, intent: OrderIntent, stop: real,
                                      target: Option<real>,
                                      raw: real, timestamp: Timestamp, session: Session, stamps: set<Timestamp>)
    requires Traceable(st, stamps) && timestamp !in stamps && st.position.None?
    ensures Traceable(OpenPosition(cfg, st, intent, stop, target, raw, timestamp, session), stamps + {timestamp})
    ensures OpenPosition(cfg, st, intent, stop, target, raw, timestamp, session).position.None?
      ==> Traceable(OpenPosition(cfg, st, intent, stop, target, raw, timestamp, session), stamps)
  {
  }

  lemma {:induction false} PendingEntryTraces(cfg: Config, st: EngineState, tick: Tick, stamps: set<Timestamp>)
    requires Inv(cfg, st) && Traceable(st, stamps) && tick.bar.timestamp !in stamps
    ensures Traceable(ProcessPendingEntry(cfg, st, tick), stamps + {tick.bar.timestamp})
    ensures cfg.fillTiming.SignalBarClose? ==> ProcessPendingEntry(cfg, st, tick) == st
  {
    hide OpenPosition;
    if st.pendingEntry.Some? {
      var pending := st.pendingEntry.value;
      OpenTraces(cfg, st.(pendingEntry := None), pending.intent, pending.stopPrice, pending.targetPrice,
                 tick.bar.open, tick.bar.timestamp, tick.session, stamps);
    }
  }

  lemma {:induction false} AtOpenTraces(cfg: Config, st: EngineState, tick: Tick, stamps: set<Timestamp>)
    requires Inv(cfg, st) && Traceable(st, stamps) && tick.bar.timestamp !in stamps
    ensures Traceable(AtOpen(cfg, st, tick), stamps + {tick.bar.timestamp})
    ensures cfg.fillTiming.SignalBarClose? ==> Traceable(AtOpen(cfg, st, tick), stamps)
  {
    hide FlattenIfSessionChanged, OpenGapStop, ProcessPendingEntry, ProcessPendingExit, Inv, Traceable;
    var rolled := FlattenIfSessionChanged(cfg, st, tick.session);
    SessionChangeTraces(cfg, st, tick.session, stamps);
    SessionChangeKeeps(cfg, st, tick.session);
    var gapped := OpenGapStop(cfg, rolled, tick.bar);
    GapTraces(cfg, rolled, tick.bar, stamps);
    GapStopKeeps(cfg, rolled, tick.bar);
    PendingEntryTraces(cfg, gapped, tick, stamps);
    var entered := ProcessPendingEntry(cfg, gapped, tick);
    PendingExitTraces(cfg, entered, tick.bar, stamps + {tick.bar.timestamp});
    if cfg.fillTiming.SignalBarClose? {
      PendingExitTraces(cfg, entered, tick.bar, stamps);
    }
  }

  lemma {:induction false} IntrabarTraces(cfg: Config, st: EngineState, bar: Bar, stamps: set<Timestamp>)
    requires Traceable(st, stamps)
    ensures Traceable(IntrabarStopAndTarget(cfg, st, bar), stamps)
  {
    hide ClosePosition;
    if st.position.Some? && !st.position.value.stopCancelled {
      var p := st.position.value;
      var stopped := st.(position := Some(p.(maePoints := Max(p.maePoints, Abs(p.entryPrice - p.stopPrice)))));
      var ambiguous := TouchesTarget(p, bar) || Favourable(p.side, p.entryPrice, bar) > p.mfePoints;
      CloseTraces(cfg, stopped, p.stopPrice, bar.timestamp, Stop, ambiguous, stamps);
      if TouchesTarget(p, bar) {
        var price := p.targetPrice.value;
        var won := st.(position := Some(p.(mfePoints := Max(p.mfePoints, Abs(price - p.entryPrice)))));
        CloseTraces(cfg, won, price, bar.timestamp, Target, false, stamps);
      }
    }
  }

  lemma {:induction false} DuringBarTraces(cfg: Config, st: EngineState, tick: Tick, stamps: set<Timestamp>)
    requires Traceable(st, stamps)
    ensures Traceable(DuringBar(cfg, st, tick), stamps)
  {
    hide IntrabarStopAndTarget, FlattenNow;
    IntrabarTraces(cfg, st, tick.bar, stamps);
    var tracked := UpdateExcursions(IntrabarStopAndTarget(cfg, st, tick.bar), tick.bar);
    FlattenTraces(cfg, tracked, tick.bar, SessionFlatten, stamps);
  }

  lemma {:induction false} LossCheckTraces(cfg: Config, st: EngineState, bar: Bar, stamps: set<Timestamp>)
    requires Traceable(st, stamps)
    ensures Traceable(CheckDailyLoss(cfg, st, bar), stamps)
  {
  }

  lemma {:induction false} MarkTraces(cfg: Config, st: EngineState, tick: Tick, stamps: set<Timestamp>)
    requires Inv(cfg, st) && Traceable(st, stamps) && tick.bar.timestamp !in stamps
    ensures Traceable(AfterPreStrategy(cfg, st, tick), stamps + {tick.bar.timestamp})
    ensures cfg.fillTiming.SignalBarClose? ==> Traceable(AfterPreStrategy(cfg, st, tick), stamps)
  {
    hide AtOpen, DuringBar, CheckDailyLoss, Inv;
    var record := BarRecord(tick.bar.timestamp, tick.bar);
    var logged := Log(st, record);
    LogTraces(st, record, stamps);
    assert Inv(cfg, logged) by { LogKeeps(cfg, st, record); }
    AtOpenTraces(cfg, logged, tick, stamps);
    var opened' := AtOpen(cfg, logged, tick);
    DuringBarTraces(cfg, opened', tick, stamps + {tick.bar.timestamp});
    LossCheckTraces(cfg, DuringBar(cfg, opened', tick), tick.bar, stamps + {tick.bar.timestamp});
    if cfg.fillTiming.SignalBarClose? {
      DuringBarTraces(cfg, opened', tick, stamps);
      LossCheckTraces(cfg, DuringBar(cfg, opened', tick), tick.bar, stamps);
    }
  }

  lemma {:induction false} VetoesTrace(st: EngineState, vetoes: seq<RiskVeto>, stamps: set<Timestamp>)
    requires Traceable(st, stamps)
    ensures Traceable(LogVetoes(st, vetoes), stamps)
    decreases |vetoes|
  {
    if |vetoes| == 0 {
    } else {
      VetoesTrace(st, vetoes[..|vetoes| - 1], stamps);
      var v := vetoes[|vetoes| - 1];
      LogTraces(LogVetoes(st, vetoes[..|vetoes| - 1]), VetoRecord(v.timestamp, v), stamps);
    }
  }

  lemma {:induction false} StopUpdatesTrace(st: EngineState, updates: seq<StopUpdate>, stamps: set<Timestamp>)
    requires Traceable(st, stamps)
    ensures Traceable(LogStopUpdates(st, updates), stamps)
    decreases |updates|
  {
    if |updates| == 0 {
    } else {
      StopUpdatesTrace(st, updates[..|updates| - 1], stamps);
      var u := updates[|updates| - 1];
      LogTraces(LogStopUpdates(st, updates[..|updates| - 1]),
                StopRecord(u.timestamp, u.symbol, u.stopPrice, u.reason, false), stamps);
    }
  }

  lemma {:induction false} LogResultTraces(st: EngineState, result: StrategyResult, stamps: set<Timestamp>)
    requires Traceable(st, stamps)
    ensures Traceable(LogResult(st, result), stamps)
  {
    var signalled := LogSignal(st, result.signal);
    VetoesTrace(signalled, result.riskVetoes, stamps);
    StopUpdatesTrace(LogVetoes(signalled, result.riskVetoes), result.stopUpdates, stamps);
  }

  lemma {:induction false} ExitTraces(cfg: Config, st: EngineState, bar: Bar, exit: ExitDecision,
                                      stamps: set<Timestamp>)
    requires Traceable(st, stamps) && !EntryReason(exit.reason)
    ensures Traceable(ApplyExit(cfg, st, bar, exit), stamps)
  {
    hide ClosePosition;
    LogTraces(st, ExitRecord(exit.timestamp, exit), stamps);
    CloseTraces(cfg, Log(st, ExitRecord(exit.timestamp, exit)), bar.close, bar.timestamp, exit.reason, false, stamps);
  }

  lemma {:induction false} ExitsTrace(cfg: Config, st: EngineState, bar: Bar, exits: seq<ExitDecision>,
                                      stamps: set<Timestamp>)
    requires Traceable(st, stamps)
    requires forall i :: 0 <= i < |exits| ==> !EntryReason(exits[i].reason)
    ensures Traceable(ApplyExits(cfg, st, bar, exits), stamps)
    decreases |exits|
  {
    hide ApplyExit, Traceable;
    if |exits| == 0 {
    } else {
      ExitsTrace(cfg, st, bar, exits[..|exits| - 1], stamps);
      ExitTraces(cfg, ApplyExits(cfg, st, bar, exits[..|exits| - 1]), bar, exits[|exits| - 1], stamps);
    }
  }

  /** Until an intent opens a position at this bar's close, the bar's time is still unused. */
  predicate Answering(cfg: Config, st: EngineState, timestamp: Timestamp, stamps: set<Timestamp>) {
    && Traceable(st, stamps + {timestamp})
    && (cfg.fillTiming.SignalBarClose? && st.position.None? ==> Traceable(st, stamps))
  }

  lemma {:induction false} IntentTraces(cfg: Config, st: EngineState, tick: Tick, intent: OrderIntent,
                                        stamps: set<Timestamp>)
    requires Answering(cfg, st, tick.bar.timestamp, stamps) && tick.bar.timestamp !in stamps
    requires EntryReason(intent.reason) && FullMetadata(intent.metadata)
    ensures Answering(cfg, ApplyIntent(cfg, st, tick, intent), tick.bar.timestamp, stamps)
  {
    hide OpenPosition, Traceable;
    var all := stamps + {tick.bar.timestamp};
    var veto := VetoOf(cfg, st, tick.session, intent);
    if veto.Some? {
      var record := IntentVetoRecord(intent.timestamp, intent, veto.value);
      LogTraces(st, record, all);
      if cfg.fillTiming.SignalBarClose? && st.position.None? {
        LogTraces(st, record, stamps);
      }
    } else {
      var record := IntentRecord(intent.timestamp, intent);
      LogTraces(st, record, all);
      if cfg.fillTiming.SignalBarClose? {
        LogTraces(st, record, stamps);
        OpenTraces(cfg, Log(st, record), intent, intent.metadata.stopPrice.value, intent.metadata.targetPrice,
                   tick.bar.close, tick.bar.timestamp, tick.session, stamps);
      } else {
        QueueTraces(Log(st, record), ApplyIntent(cfg, st, tick, intent), all);
      }
    }
  }

  lemma {:induction false} QueueTraces(st: EngineState, queued: EngineState, stamps: set<Timestamp>)
    requires Traceable(st, stamps) && queued == st.(pendingEntry := queued.pendingEntry)
    ensures Traceable(queued, stamps)
  {
  }

  lemma {:induction false} IntentsTrace(cfg: Config, st: EngineState, tick: Tick, intents: seq<OrderIntent>,
                                        stamps: set<Timestamp>)
    requires Answering(cfg, st, tick.bar.timestamp, stamps) && tick.bar.timestamp !in stamps
    requires forall i :: 0 <= i < |intents| ==> EntryReason(intents[i].reason) && FullMetadata(intents[i].metadata)
    ensures Answering(cfg, ApplyIntents(cfg, st, tick, intents), tick.bar.timestamp, stamps)
    decreases |intents|
  {
    hide ApplyIntent, Answering;
    if |intents| == 0 {
    } else {
      IntentsTrace(cfg, st, tick, intents[..|intents| - 1], stamps);
      IntentTraces(cfg, ApplyIntents(cfg, st, tick, intents[..|intents| - 1]), tick, intents[|intents| - 1], stamps);
    }
  }

  lemma {:induction false} AnswerTraces(cfg: Config, st: EngineState, tick: Tick, result: StrategyResult,
                                        stamps: set<Timestamp>)
    requires tick.bar.timestamp !in stamps && RetestResult(result)
    requires Traceable(st, stamps + {tick.bar.timestamp})
    requires cfg.fillTiming.SignalBarClose? ==> Traceable(st, stamps)
    ensures Traceable(AfterStrategy(cfg, st, tick, result), stamps + {tick.bar.timestamp})
  {
    hide LogResult, ApplyExits, ApplyIntents, Traceable;
    var all := stamps + {tick.bar.timestamp};
    var logged := LogResult(st, result);
    LogResultTraces(st, result, all);
    ExitsTrace(cfg, logged, tick.bar, result.exits, all);
    if cfg.fillTiming.SignalBarClose? {
      LogResultTraces(st, result, stamps);
      ExitsTrace(cfg, logged, tick.bar, result.exits, stamps);
    }
    var exited := ApplyExits(cfg, logged, tick.bar, result.exits);
    IntentsTrace(cfg, exited, tick, result.orderIntents, stamps);
    NotingTraces(ApplyIntents(cfg, exited, tick, result.orderIntents), tick, all);
  }

  lemma {:induction false} NotingTraces(st: EngineState, tick: Tick, stamps: set<Timestamp>)
    requires Traceable(st, stamps)
    ensures Traceable(NoteProcessed(ClearFeedback(st), tick), stamps)
  {
  }

  lemma {:induction false} SupervisorTraces(cfg: Config, st: EngineState, bar: Bar, breach: Option<Reason>,
                                            stamps: set<Timestamp>)
    requires Traceable(st, stamps)
    requires breach.Some? ==> !EntryReason(breach.value)
    ensures Traceable(AfterSupervisor(cfg, st, bar, breach), stamps)
  {
    hide FlattenNow;
    if breach.Some? {
      var record := TransitionRecord(bar.timestamp, ExecutionHalt(Breach(breach.value)));
      LogTraces(st, record, stamps);
      FlattenTraces(cfg, Log(st, record), bar, breach.value, stamps);
    }
  }

  /** A bar of a retest strategy, under a supervisor that keeps to its own reasons. */
  predicate RetestBar(b: ScriptBar) {
    Admissible(b) && RetestResult(b.result) && (b.breach.Some? ==> !EntryReason(b.breach.value))
  }

  predicate RetestScript(script: seq<ScriptBar>) {
    forall i :: 0 <= i < |script| ==> RetestBar(script[i])
  }

  /** No two bars share a timestamp; strictly increasing timestamps are a special case. */
  predicate DistinctStamps(script: seq<ScriptBar>) {
    forall i, j :: 0 <= i < j < |script| ==> script[i].tick.bar.timestamp != script[j].tick.bar.timestamp
  }

  function Stamps(script: seq<ScriptBar>): set<Timestamp> {
    set i | 0 <= i < |script| :: script[i].tick.bar.timestamp
  }

  lemma {:induction false} BarTraces(cfg: Config, st: EngineState, b: ScriptBar, stamps: set<Timestamp>)
    requires Inv(cfg, st) && Traceable(st, stamps) && b.tick.bar.timestamp !in stamps && RetestBar(b)
    ensures Traceable(EngineBar(cfg, st, b), stamps + {b.tick.bar.timestamp})
  {
    hide AfterPreStrategy, AfterSupervisor, AfterStrategy, Inv, Traceable, RetestResult;
    var all := stamps + {b.tick.bar.timestamp};
    var marked := AfterPreStrategy(cfg, st, b.tick);
    MarkTraces(cfg, st, b.tick, stamps);
    SupervisorTraces(cfg, marked, b.tick.bar, b.breach, all);
    if cfg.fillTiming.SignalBarClose? {
      SupervisorTraces(cfg, marked, b.tick.bar, b.breach, stamps);
    }
    AnswerTraces(cfg, AfterSupervisor(cfg, marked, b.tick.bar, b.breach), b.tick, b.result, stamps);
  }

  lemma {:induction false} RunTraces(cfg: Config, script: seq<ScriptBar>)
    requires RetestScript(script) && DistinctStamps(script)
    ensures Traceable(Run(cfg, script), Stamps(script))
    decreases |script|
  {
    hide EngineBar, Inv, RetestBar;
    if |script| == 0 {
    } else {
      var before := script[..|script| - 1];
      RunTraces(cfg, before);
      RetestIsAdmissible(before);
      EveryReachableStateIsSafe(cfg, before);
      StampsGrow(script);
      BarTraces(cfg, Run(cfg, before), script[|script| - 1], Stamps(before));
    }
  }

  lemma {:induction false} RetestIsAdmissible(script: seq<ScriptBar>)
    requires RetestScript(script)
    ensures AdmissibleScript(script)
  {
    forall i | 0 <= i < |script|
      ensures Admissible(script[i])
    {
      assert RetestBar(script[i]);
    }
  }

  lemma {:induction false} StampsGrow(script: seq<ScriptBar>)
    requires script != [] && DistinctStamps(script)
    ensures
      var before := script[..|script| - 1];
      && Stamps(script) == Stamps(before) + {script[|script| - 1].tick.bar.timestamp}
      && script[|script| - 1].tick.bar.timestamp !in Stamps(before)
  {
    var before := script[..|script| - 1];
    assert forall i :: 0 <= i < |before| ==> before[i] == script[i];
    forall t | t in Stamps(script)
      ensures t in Stamps(before) + {script[|script| - 1].tick.bar.timestamp}
    {
      var i :| 0 <= i < |script| && script[i].tick.bar.timestamp == t;
      if i < |before| {
        assert before[i].tick.bar.timestamp == t;
      }
    }
    forall t | t in Stamps(before)
      ensures t in Stamps(script) && t != script[|script| - 1].tick.bar.timestamp
    {
      var i :| 0 <= i < |before| && before[i].tick.bar.timestamp == t;
      assert script[i].tick.bar.timestamp == t;
    }
  }

  /** What the final ledger and trades say, every step along the way obeyed. */
  lemma {:induction false} CleanEndMeansCleanSteps(v: View, ms: seq<Micro>)
    requires forall i :: 0 <= i < |TakeAll(v, ms).trades| ==> !EntryReason(TakeAll(v, ms).trades[i].exitReason)
    requires forall i :: 0 <= i < |TakeAll(v, ms).ledger| ==> CleanRecord(TakeAll(v, ms).ledger[i])
    requires AllEnabled(v, ms)
    ensures forall i :: 0 <= i < |ms| ==> RetestStep(ms[i])
    decreases |ms|
  {
    if |ms| == 0 {
    } else {
      var before := TakeAll(v, ms[..|ms| - 1]);
      var after := TakeAll(v, ms);
      assert before.ledger == after.ledger[..|before.ledger|];
      assert before.trades == after.trades[..|before.trades|];
      CleanEndMeansCleanSteps(v, ms[..|ms| - 1]);
      var m := ms[|ms| - 1];
      if m.Accept? {
        assert CleanRecord(after.ledger[|after.ledger| - 1]);
      } else if m.CloseAt? {
        assert !EntryReason(after.trades[|after.trades| - 1].exitReason);
      }
    }
  }

  lemma {:induction false} EndTraces(cfg: Config, st: EngineState, stamps: set<Timestamp>)
    requires Inv(cfg, st) && Traceable(st, stamps)
    ensures Traceable(ClearFeedback(CloseEndOfData(cfg, st)), stamps)
  {
    hide ClosePosition;
    if st.previous.Some? {
      var last := st.previous.value.bar;
      var record := TransitionRecord(last.timestamp, PendingOrdersCancelled(EndOfData));
      LogTraces(st, record, stamps);
      var cancelled := if st.pendingEntry.None? then st else Log(st, record).(pendingEntry := None);
      CloseTraces(cfg, cancelled, last.close, last.timestamp, EndOfData, false, stamps);
    }
  }

  /** Where each trade came from, by the engine's own history of filled intents. */
  predicate TracedTo(a: AttributedTrade, trade: Trade, intent: OrderIntent) {
    a.trade == trade && Opens(intent, a.entry) && Matches(trade, a.entry)
  }

  /**
   * The round trip: for distinct bar timestamps, retest intents and exits with their own reasons, the
   * ledger of every complete run parses, its entries pair off with the trades in order, and each trade
   * is attributed to the very intent whose fill opened it.
   */
  lemma {:induction false} CompleteRunsAttribute(cfg: Config, script: seq<ScriptBar>)
    requires RetestScript(script) && DistinctStamps(script)
    ensures
      var end := CompleteRun(cfg, script);
      var parsed := ParseLedger(end.ledger);
      && parsed.Ok?
      && DistinctEntries(end.trades)
      && PairsOff(end.trades, parsed.value.entries)
      && |end.filledIntents| == |end.trades|
      && (forall i :: 0 <= i < |end.trades| ==>
            TracedTo(Paired(end.trades, parsed.value.entries)[i], end.trades[i], end.filledIntents[i]))
  {
    hide Run, CloseEndOfData, Inv, ParseLedger, RetestBar, AllEnabled, TakeAll;
    RetestIsAdmissible(script);
    RunTraces(cfg, script);
    EveryReachableStateIsSafe(cfg, script);
    EndTraces(cfg, Run(cfg, script), Stamps(script));
    var ms := EveryCompleteRunIsGrammatical(cfg, script);
    var end := CompleteRun(cfg, script);
    assert Clean(end) && Stamped(end, Stamps(script));
    CleanEndMeansCleanSteps(EMPTY_VIEW, ms);
    NothingMirrors();
    StepsMirror(EMPTY_VIEW, ms);
    EndIsFlat(cfg, Run(cfg, script), script);
  }

  lemma {:induction false} NothingMirrors()
    ensures Mirrors(EMPTY_VIEW)
  {
  }

  lemma {:induction false} EndIsFlat(cfg: Config, st: EngineState, script: seq<ScriptBar>)
    requires st == Run(cfg, script)
    ensures CloseEndOfData(cfg, st).position.None?
  {
    hide AfterPreStrategy, AfterSupervisor, ApplyResult;
    if script == [] {
      assert st == Initial([]);
    }
  }

  /** The whole program round trip: run, then attribute what was written. */
  method AttributeRun(cfg: Config, script: seq<ScriptBar>) returns (attributed: seq<AttributedTrade>)
    requires RetestScript(script) && DistinctStamps(script)
    ensures |attributed| == |CompleteRun(cfg, script).trades| == |CompleteRun(cfg, script).filledIntents|
    ensures forall i :: 0 <= i < |attributed| ==>
      TracedTo(attributed[i], CompleteRun(cfg, script).trades[i], CompleteRun(cfg, script).filledIntents[i])
  {
    hide CompleteRun, ParseLedger, TracedTo;
    var end := CompleteRun(cfg, script);
    CompleteRunsAttribute(cfg, script);
    PairsOffInOrder(end.trades, ParseLedger(end.ledger).value.entries);
    var result := AttributeRetestTrades(end.trades, end.ledger);
    attributed := result.value;
  }
}
