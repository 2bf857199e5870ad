/** The ledger keeps everything a strategy says: each decision once, in order, on the bar it was made. */
module Decisions {
  import opened Prelude
  import opened Market
  import opened Events
  import opened EngineSpec
  import opened EngineRun

  datatype Saying =
    | SaidSignal(signal: SignalDecision)
    | SaidRejection(signal: SignalDecision)
    | SaidVeto(veto: RiskVeto)
    | SaidStop(update: StopUpdate)
    | SaidIntent(intent: OrderIntent)

  /** What a record holds of the strategy's own words; an intent is kept whether accepted or vetoed. */
  function Quoted(record: EventRecord): seq<Saying> {
    match record
    case SignalRecord(_, signal) => [SaidSignal(signal)]
    case RejectionRecord(_, signal) => [SaidRejection(signal)]
    case VetoRecord(_, veto) => [SaidVeto(veto)]
    case StopRecord(timestamp, symbol, stopPrice, reason, applied) =>
      if applied then [] else [SaidStop(StopUpdate(timestamp, symbol, stopPrice, reason))]
    case IntentRecord(_, intent) => [SaidIntent(intent)]
    case IntentVetoRecord(_, intent, _) => [SaidIntent(intent)]
    case _ => []
  }

  function AllQuoted(ledger: seq<EventRecord>): seq<Saying>
    decreases |ledger|
  {
    if |ledger| == 0 then [] else AllQuoted(ledger[..|ledger| - 1]) + Quoted(ledger[|ledger| - 1])
  }

  /** An answer, in the order it is taken in. */
  function Spoken(result: StrategyResult): seq<Saying> {
    (match result.signal
     case None => []
     case Some(signal) =>
       [SaidSignal(signal)] + if signal.decision.Rejected? then [SaidRejection(signal)] else [])
    + seq(|result.riskVetoes|, i requires 0 <= i < |result.riskVetoes| => SaidVeto(result.riskVetoes[i]))
    + seq(|result.stopUpdates|, i requires 0 <= i < |result.stopUpdates| => SaidStop(result.stopUpdates[i]))
    + seq(|result.orderIntents|, i requires 0 <= i < |result.orderIntents| => SaidIntent(result.orderIntents[i]))
  }

  function AllSpoken(script: seq<ScriptBar>): seq<Saying>
    decreases |script|
  {
    if |script| == 0 then [] else AllSpoken(script[..|script| - 1]) + Spoken(script[|script| - 1].result)
  }

  lemma {:induction false} QuotedNext(ledger: seq<EventRecord>, record: EventRecord)
    ensures AllQuoted(ledger + [record]) == AllQuoted(ledger) + Quoted(record)
  {
    hide Quoted;
    assert (ledger + [record])[..|ledger|] == ledger;
  }

  /** The step quotes nothing. */
  predicate Silent(st: EngineState, next: EngineState) {
    AllQuoted(next.ledger) == AllQuoted(st.ledger)
  }

  lemma {:induction false} RecordIsSilent(st: EngineState, record: EventRecord)
    requires Quoted(record) == []
    ensures Silent(st, Log(st, record))
  {
    hide AllQuoted;
    QuotedNext(st.ledger, record);
    assert AllQuoted(st.ledger) + [] == AllQuoted(st.ledger);
  }

  lemma {:induction false} CloseIsSilent(cfg: Config, st: EngineState, raw: real, timestamp: Timestamp, reason: Reason,
                                         ambiguous: bool)
    ensures Silent(st, ClosePosition(cfg, st, raw, timestamp, reason, ambiguous))
  {
    hide AllQuoted, ExitFill, ClosedTrade;
    if st.position.Some? {
      var fill := ExitFill(cfg, st.position.value, raw, timestamp, reason, ambiguous);
      var filled := Log(st, FillRecord(timestamp, fill));
      RecordIsSilent(st, FillRecord(timestamp, fill));
      RecordIsSilent(filled, TradeRecord(timestamp, ClosedTrade(cfg, st.position.value, fill)));
    }
  }

  lemma {:induction false} CancelIsSilent(st: EngineState, timestamp: Timestamp, reason: Reason)
    ensures Silent(st, CancelPendings(st, timestamp, reason))
  {
    hide AllQuoted;
    RecordIsSilent(st, TransitionRecord(timestamp, PendingOrdersCancelled(reason)));
  }

  lemma {:induction false} OpenIsSilent(cfg: Config, st: EngineState, intent: OrderIntent, stop: real,
                                        target: Option<real>, raw: real, timestamp: Timestamp, session: Session)
    ensures Silent(st, OpenPosition(cfg, st, intent, stop, target, raw, timestamp, session))
  {
    hide AllQuoted, EntryPrice, EntrySlippage;
    var side, fill := SideOfEntry(intent.side), EntryFill(cfg, intent, raw, timestamp, session);
    RecordIsSilent(st, FillRecord(timestamp, fill));
    RecordIsSilent(Log(st, FillRecord(timestamp, fill)),
                   StopRecord(timestamp, intent.symbol, stop, "initial_stop", true));
    RecordIsSilent(st, TransitionRecord(timestamp, EntryInvalidated(
      intent.symbol, side, intent.timestamp, raw, fill.price, stop)));
  }

  lemma {:induction false} FlattenIsSilent(cfg: Config, st: EngineState, bar: Bar, reason: Reason)
    ensures Silent(st, FlattenNow(cfg, st, bar, reason))
  {
    hide AllQuoted, ClosePosition, CancelPendings;
    CancelIsSilent(st, bar.timestamp, reason);
    CloseIsSilent(cfg, CancelPendings(st, bar.timestamp, reason), bar.close, bar.timestamp, reason, false);
  }

  lemma {:induction false} OpeningIsSilent(cfg: Config, st: EngineState, tick: Tick)
    ensures Silent(st, AtOpen(cfg, st, tick))
  {
    hide AllQuoted, ClosePosition, CancelPendings, OpenPosition, EntrySelected, OpensThroughStop;
    var rolled := FlattenIfSessionChanged(cfg, st, tick.session);
    if st.previous.Some? {
      var last := st.previous.value.bar;
      CancelIsSilent(st, last.timestamp, SessionEnd);
      CloseIsSilent(cfg, CancelPendings(st, last.timestamp, SessionEnd), last.close, last.timestamp, SessionEnd, false);
    }
    var gapped := OpenGapStop(cfg, rolled, tick.bar);
    CloseIsSilent(cfg, rolled.(pendingExit := None), tick.bar.open, tick.bar.timestamp, StopGap, false);
    EntryIsSilent(cfg, gapped, tick);
    var entered := ProcessPendingEntry(cfg, gapped, tick);
    if entered.pendingExit.Some? {
      CloseIsSilent(cfg, entered.(pendingExit := None), tick.bar.open, tick.bar.timestamp,
                    entered.pendingExit.value.reason, false);
    }
  }

  lemma {:induction false} EntryIsSilent(cfg: Config, st: EngineState, tick: Tick)
    ensures Silent(st, ProcessPendingEntry(cfg, st, tick))
  {
    hide AllQuoted, OpenPosition, EntrySelected;
    if st.pendingEntry.Some? {
      var pending, taken := st.pendingEntry.value, st.(pendingEntry := None);
      RecordIsSilent(taken, TransitionRecord(tick.bar.timestamp, EntryMissed(
        pending.intent.symbol, pending.intent.side, pending.intent.timestamp, cfg.entryFillRate, cfg.entryFillSeed)));
      OpenIsSilent(cfg, taken, pending.intent, pending.stopPrice, pending.targetPrice, tick.bar.open,
                   tick.bar.timestamp, tick.session);
    }
  }

  lemma {:induction false} IntrabarIsSilent(cfg: Config, st: EngineState, bar: Bar)
    ensures Silent(st, IntrabarStopAndTarget(cfg, st, bar))
  {
    hide AllQuoted, ClosePosition, TouchesStop, TouchesTarget, Favourable;
    if st.position.Some? {
      var p := st.position.value;
      var stopped := p.(maePoints := Max(p.maePoints, Abs(p.entryPrice - p.stopPrice)));
      CloseIsSilent(cfg, st.(position := Some(stopped)), p.stopPrice, bar.timestamp, Stop,
                    TouchesTarget(p, bar) || Favourable(p.side, p.entryPrice, bar) > p.mfePoints);
      if p.targetPrice.Some? {
        var target := p.targetPrice.value;
        var reached := p.(mfePoints := Max(p.mfePoints, Abs(target - p.entryPrice)));
        CloseIsSilent(cfg, st.(position := Some(reached)), target, bar.timestamp, Target, false);
      } else {
        NoTarget(p, bar);
      }
    }
  }

  lemma {:induction false} NoTarget(p: Position, bar: Bar)
    requires p.targetPrice.None?
    ensures !TouchesTarget(p, bar)
  {
  }

  lemma {:induction false} MarkIsSilent(cfg: Config, st: EngineState, tick: Tick)
    ensures Silent(st, AfterPreStrategy(cfg, st, tick))
  {
    hide AllQuoted, AtOpen, IntrabarStopAndTarget, FlattenNow, SessionPnl, Quoted, EffectiveFlatten;
    var record := BarRecord(tick.bar.timestamp, tick.bar);
    assert Quoted(record) == [] by { BarsQuoteNothing(record); }
    RecordIsSilent(st, record);
    var opened' := AtOpen(cfg, Log(st, record), tick);
    OpeningIsSilent(cfg, Log(st, record), tick);
    IntrabarIsSilent(cfg, opened', tick.bar);
    var tracked := UpdateExcursions(IntrabarStopAndTarget(cfg, opened', tick.bar), tick.bar);
    FlattenIsSilent(cfg, tracked, tick.bar, SessionFlatten);
    LossCheckIsSilent(cfg, DuringBar(cfg, opened', tick), tick.bar);
  }

  lemma {:induction false} BarsQuoteNothing(record: EventRecord)
    requires record.BarRecord?
    ensures Quoted(record) == []
  {
  }

  lemma {:induction false} LossCheckIsSilent(cfg: Config, st: EngineState, bar: Bar)
    ensures Silent(st, CheckDailyLoss(cfg, st, bar))
  {
    hide AllQuoted, SessionPnl;
    if cfg.dailyLossLimit.Some? {
      RecordIsSilent(st, TransitionRecord(bar.timestamp,
                                          DailyLimitHit(SessionPnl(cfg, st, bar), cfg.dailyLossLimit.value)));
    }
  }

  lemma {:induction false} SupervisorIsSilent(cfg: Config, st: EngineState, bar: Bar, breach: Option<Reason>)
    ensures Silent(st, AfterSupervisor(cfg, st, bar, breach))
  {
    hide AllQuoted, FlattenNow;
    if breach.Some? {
      var record := TransitionRecord(bar.timestamp, ExecutionHalt(Breach(breach.value)));
      RecordIsSilent(st, record);
      FlattenIsSilent(cfg, Log(st, record), bar, breach.value);
    }
  }

  // ---- The answer ----

  lemma {:induction false} VetoesAreQuoted(st: EngineState, vetoes: seq<RiskVeto>)
    ensures AllQuoted(LogVetoes(st, vetoes).ledger)
            == AllQuoted(st.ledger) + seq(|vetoes|, i requires 0 <= i < |vetoes| => SaidVeto(vetoes[i]))
    decreases |vetoes|
  {
    hide AllQuoted;
    if |vetoes| == 0 {
    } else {
      var n := |vetoes| - 1;
      VetoesAreQuoted(st, vetoes[..n]);
      QuotedNext(LogVetoes(st, vetoes[..n]).ledger, VetoRecord(vetoes[n].timestamp, vetoes[n]));
    }
  }

  lemma {:induction false} UpdatesAreQuoted(st: EngineState, updates: seq<StopUpdate>)
    ensures AllQuoted(LogStopUpdates(st, updates).ledger)
            == AllQuoted(st.ledger) + seq(|updates|, i requires 0 <= i < |updates| => SaidStop(updates[i]))
    decreases |updates|
  {
    hide AllQuoted;
    if |updates| == 0 {
    } else {
      var n := |updates| - 1;
      var u := updates[n];
      UpdatesAreQuoted(st, updates[..n]);
      QuotedNext(LogStopUpdates(st, updates[..n]).ledger,
                 StopRecord(u.timestamp, u.symbol, u.stopPrice, u.reason, false));
    }
  }

  lemma {:induction false} SignalIsQuoted(st: EngineState, signal: Option<SignalDecision>)
    ensures AllQuoted(LogSignal(st, signal).ledger)
            == AllQuoted(st.ledger)
               + (match signal
                  case None => []
                  case Some(s) => [SaidSignal(s)] + if s.decision.Rejected? then [SaidRejection(s)] else [])
  {
    hide AllQuoted;
    if signal.Some? {
      var record := SignalRecord(signal.value.timestamp, signal.value);
      QuotedNext(st.ledger, record);
      QuotedNext(st.ledger + [record], RejectionRecord(signal.value.timestamp, signal.value));
    }
  }

  lemma {:induction false} ExitsAreSilent(cfg: Config, st: EngineState, bar: Bar, exits: seq<ExitDecision>)
    ensures Silent(st, ApplyExits(cfg, st, bar, exits))
    decreases |exits|
  {
    hide AllQuoted, ClosePosition;
    if |exits| == 0 {
    } else {
      var before, exit := ApplyExits(cfg, st, bar, exits[..|exits| - 1]), exits[|exits| - 1];
      ExitsAreSilent(cfg, st, bar, exits[..|exits| - 1]);
      RecordIsSilent(before, ExitRecord(exit.timestamp, exit));
      CloseIsSilent(cfg, Log(before, ExitRecord(exit.timestamp, exit)), bar.close, bar.timestamp, exit.reason, false);
    }
  }

  lemma {:induction false} IntentIsQuoted(cfg: Config, st: EngineState, tick: Tick, intent: OrderIntent)
    ensures AllQuoted(ApplyIntent(cfg, st, tick, intent).ledger) == AllQuoted(st.ledger) + [SaidIntent(intent)]
  {
    hide AllQuoted, VetoOf, OpenPosition;
    var veto := VetoOf(cfg, st, tick.session, intent);
    if veto.Some? {
      QuotedNext(st.ledger, IntentVetoRecord(intent.timestamp, intent, veto.value));
    } else {
      var record := IntentRecord(intent.timestamp, intent);
      QuotedNext(st.ledger, record);
      OpenIsSilent(cfg, Log(st, record), intent, intent.metadata.stopPrice.value, intent.metadata.targetPrice,
                   tick.bar.close, tick.bar.timestamp, tick.session);
    }
  }

  lemma {:induction false} IntentsAreQuoted(cfg: Config, st: EngineState, tick: Tick, intents: seq<OrderIntent>)
    ensures AllQuoted(ApplyIntents(cfg, st, tick, intents).ledger)
            == AllQuoted(st.ledger) + seq(|intents|, i requires 0 <= i < |intents| => SaidIntent(intents[i]))
    decreases |intents|
  {
    hide AllQuoted, ApplyIntent;
    if |intents| == 0 {
    } else {
      var n := |intents| - 1;
      IntentsAreQuoted(cfg, st, tick, intents[..n]);
      IntentIsQuoted(cfg, ApplyIntents(cfg, st, tick, intents[..n]), tick, intents[n]);
    }
  }

  lemma {:induction false} AnswerIsQuoted(cfg: Config, st: EngineState, tick: Tick, result: StrategyResult)
    ensures AllQuoted(ApplyResult(cfg, st, tick, result).ledger) == AllQuoted(st.ledger) + Spoken(result)
  {
    hide AllQuoted, LogSignal, LogVetoes, LogStopUpdates, ApplyExits, ApplyIntents;
    var signalled := LogSignal(st, result.signal);
    SignalIsQuoted(st, result.signal);
    VetoesAreQuoted(signalled, result.riskVetoes);
    UpdatesAreQuoted(LogVetoes(signalled, result.riskVetoes), result.stopUpdates);
    var logged := LogResult(st, result);
    ExitsAreSilent(cfg, logged, tick.bar, result.exits);
    IntentsAreQuoted(cfg, ApplyExits(cfg, logged, tick.bar, result.exits), tick, result.orderIntents);
  }

  /**
   * Over every run the ledger quotes the strategy in full: every signal, rejection, veto, stop update and
   * intent of every answer, once, in order, and nothing it did not say.
   */
  lemma {:induction false} NothingSaidIsLost(cfg: Config, script: seq<ScriptBar>)
    ensures AllQuoted(Run(cfg, script).ledger) == AllSpoken(script)
    ensures AllQuoted(CompleteRun(cfg, script).ledger) == AllSpoken(script)
    decreases |script|
  {
    hide AllQuoted, AfterPreStrategy, AfterSupervisor, ApplyResult, CloseEndOfData, Spoken;
    if |script| == 0 {
      NothingIsQuoted(cfg);
    } else {
      var before, b := script[..|script| - 1], script[|script| - 1];
      NothingSaidIsLost(cfg, before);
      var st := Run(cfg, before);
      var marked := AfterPreStrategy(cfg, st, b.tick);
      MarkIsSilent(cfg, st, b.tick);
      SupervisorIsSilent(cfg, marked, b.tick.bar, b.breach);
      AnswerIsQuoted(cfg, AfterSupervisor(cfg, marked, b.tick.bar, b.breach), b.tick, b.result);
    }
    EndIsSilent(cfg, Run(cfg, script));
  }

  lemma {:induction false} NothingIsQuoted(cfg: Config)
    ensures AllQuoted(Run(cfg, []).ledger) == []
  {
  }

  lemma {:induction false} EndIsSilent(cfg: Config, st: EngineState)
    ensures Silent(st, CloseEndOfData(cfg, st))
  {
    hide AllQuoted, ClosePosition;
    if st.previous.Some? {
      var last := st.previous.value.bar;
      var record := TransitionRecord(last.timestamp, PendingOrdersCancelled(EndOfData));
      RecordIsSilent(st, record);
      CloseIsSilent(cfg, st, last.close, last.timestamp, EndOfData, false);
      CloseIsSilent(cfg, Log(st, record).(pendingEntry := None), last.close, last.timestamp, EndOfData, false);
    }
  }
}
