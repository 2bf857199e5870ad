/** The position engine in the form the program has: an object that updates its fields in place. */
module PositionEngine {
  import opened Prelude
  import opened Market
  import opened Events
  import opened EngineSpec

  class PositionEngine {
    const config: Config
    const ledger: EventLedger
    var position: Option<Position>
    var pendingEntry: Option<PendingEntry>
    var pendingExit: Option<PendingExit>
    var previous: Option<Tick>
    var trades: seq<Trade>
    var cumulativeNetPnl: real
    var sessionStartPnl: real
    var dailyLimitHit: bool
    var feedback: seq<Feedback>
    ghost var filledIntents: seq<OrderIntent>

    ghost function State(): EngineState
      reads this, ledger
    {
      EngineState(position, pendingEntry, pendingExit, previous, trades, cumulativeNetPnl,
                  sessionStartPnl, dailyLimitHit, feedback, ledger.records, filledIntents)
    }

    constructor (config: Config, ledger: EventLedger)
      ensures this.config == config && this.ledger == ledger
      ensures State() == Initial(ledger.records)
    {
      this.config := config;
      this.ledger := ledger;
      position, pendingEntry, pendingExit, previous := None, None, None, None;
      trades, feedback, filledIntents := [], [], [];
      cumulativeNetPnl, sessionStartPnl, dailyLimitHit := 0.0, 0.0, false;
    }

    method PollStrategyFeedback() returns (polled: seq<Feedback>)
      modifies this
      ensures polled == old(State()).feedback
      ensures State() == ClearFeedback(old(State()))
    {
      polled := feedback;
      feedback := [];
    }

    // ---- Per-bar driver hooks ----

    method ProcessPreStrategy(tick: Tick) returns (sessionPnl: real)
      modifies this, ledger
      ensures State() == PreStrategy(config, old(State()), tick)
      ensures sessionPnl == PreStrategyPnl(config, old(State()), tick)
    {
      FlattenOnSessionChange(tick.session);
      CheckOpenGapStop(tick.bar);
      TakePendingEntry(tick);
      TakePendingExit(tick.bar);
      CheckIntrabar(tick.bar);
      TrackExcursions(tick.bar);
      Backstop(tick);
      sessionPnl := CheckLossLimit(tick.bar);
    }

    method NoteBarProcessed(tick: Tick)
      modifies this
      ensures State() == NoteProcessed(old(State()), tick)
    {
      previous := Some(tick);
    }

    method CloseAtEndOfData()
      modifies this, ledger
      ensures State() == CloseEndOfData(config, old(State()))
    {
      if pendingEntry.Some? && previous.Some? {
        var stamp := previous.value.bar.timestamp;
        ledger.Append(TransitionRecord(stamp, PendingOrdersCancelled(EndOfData)));
        pendingEntry := None;
      }
      if position.Some? && previous.Some? {
        Close(previous.value.bar.close, previous.value.bar.timestamp, EndOfData, false);
      }
    }

    method Flatten(bar: Bar, reason: Reason)
      modifies this, ledger
      ensures State() == FlattenNow(config, old(State()), bar, reason)
    {
      Cancel(bar.timestamp, reason);
      Close(bar.close, bar.timestamp, reason, false);
    }

    method Cancel(timestamp: Timestamp, reason: Reason)
      modifies this, ledger
      ensures State() == CancelPendings(old(State()), timestamp, reason)
    {
      if pendingEntry.Some? || pendingExit.Some? {
        ledger.Append(TransitionRecord(timestamp, PendingOrdersCancelled(reason)));
        pendingEntry := None;
        pendingExit := None;
      }
    }

    // ---- Per-bar steps ----

    method FlattenOnSessionChange(session: Session)
      modifies this, ledger
      ensures State() == FlattenIfSessionChanged(config, old(State()), session)
    {
      if previous.None? || session.date == previous.value.session.date {
        return;
      }
      var last := previous.value.bar;
      Cancel(last.timestamp, SessionEnd);
      Close(last.close, last.timestamp, SessionEnd, false);
      sessionStartPnl := cumulativeNetPnl;
      dailyLimitHit := false;
    }

    method CheckOpenGapStop(bar: Bar)
      modifies this, ledger
      ensures State() == OpenGapStop(config, old(State()), bar)
    {
      if position.None? || position.value.stopCancelled {
        return;
      }
      if OpensThroughStop(position.value, bar) {
        pendingExit := None;
        Close(bar.open, bar.timestamp, StopGap, false);
      }
    }

    method TakePendingEntry(tick: Tick)
      modifies this, ledger
      ensures State() == ProcessPendingEntry(config, old(State()), tick)
    {
      if pendingEntry.None? {
        return;
      }
      var pending := pendingEntry.value;
      if pending.remainingDelayBars > 0 {
        pendingEntry := Some(pending.(remainingDelayBars := pending.remainingDelayBars - 1));
        return;
      }
      pendingEntry := None;
      if !EntrySelected(config, pending.intent) {
        ledger.Append(TransitionRecord(tick.bar.timestamp,
          EntryMissed(pending.intent.symbol, pending.intent.side, pending.intent.timestamp,
                      config.entryFillRate, config.entryFillSeed)));
        return;
      }
      Open(pending.intent, pending.stopPrice, pending.targetPrice, tick.bar.open, tick.bar.timestamp, tick.session);
    }

    method TakePendingExit(bar: Bar)
      modifies this, ledger
      ensures State() == ProcessPendingExit(config, old(State()), bar)
    {
      var pending := pendingExit;
      pendingExit := None;
      if pending.Some? && position.Some? {
        Close(bar.open, bar.timestamp, pending.value.reason, false);
      }
    }

    method CheckIntrabar(bar: Bar)
      modifies this, ledger
      ensures State() == IntrabarStopAndTarget(config, old(State()), bar)
    {
      if position.None? || position.value.stopCancelled {
        return;
      }
      var p := position.value;
      if TouchesStop(p, bar) {
        var pathAmbiguous := Favourable(p.side, p.entryPrice, bar) > p.mfePoints;
        position := Some(p.(maePoints := Max(p.maePoints, Abs(p.entryPrice - p.stopPrice))));
        Close(p.stopPrice, bar.timestamp, Stop, TouchesTarget(p, bar) || pathAmbiguous);
      } else if TouchesTarget(p, bar) {
        position := Some(p.(mfePoints := Max(p.mfePoints, Abs(p.targetPrice.value - p.entryPrice))));
        Close(p.targetPrice.value, bar.timestamp, Target, false);
      }
    }

    method TrackExcursions(bar: Bar)
      modifies this
      ensures State() == UpdateExcursions(old(State()), bar)
    {
      if position.Some? {
        var p := position.value;
        position := Some(p.(mfePoints := Max(p.mfePoints, Favourable(p.side, p.entryPrice, bar)),
                            maePoints := Max(p.maePoints, Adverse(p.side, p.entryPrice, bar))));
      }
    }

    method Backstop(tick: Tick)
      modifies this, ledger
      ensures State() == BackstopFlatten(config, old(State()), tick)
    {
      if tick.session.minute < EffectiveFlatten(config, tick.session) || tick.session.minute >= 18 * 60 {
        return;
      }
      Flatten(tick.bar, SessionFlatten);
    }

    method CheckLossLimit(bar: Bar) returns (sessionPnl: real)
      modifies this, ledger
      ensures State() == CheckDailyLoss(config, old(State()), bar)
      ensures sessionPnl == SessionPnl(config, old(State()), bar)
    {
      sessionPnl := cumulativeNetPnl - sessionStartPnl + Unrealized(config.pointValue, position, bar.close);
      if dailyLimitHit || !LossBreached(sessionPnl, config.dailyLossLimit) {
        return;
      }
      dailyLimitHit := true;
      ledger.Append(TransitionRecord(bar.timestamp, DailyLimitHit(sessionPnl, config.dailyLossLimit.value)));
      if position.Some? {
        position := Some(position.value.(stopCancelled := true));
        if pendingExit.None? {
          pendingExit := Some(PendingExit(DailyLimit, bar.timestamp));
        } else {
          pendingExit := Some(pendingExit.value.(reason := DailyLimit));
        }
      }
    }

    // ---- The strategy's result ----

    method ApplyStrategyResult(tick: Tick, result: StrategyResult)
      modifies this, ledger
      ensures State() == ApplyResult(config, old(State()), tick, result)
    {
      RecordDecisions(result);
      ApplyAllExits(tick.bar, result.exits);
      ApplyAllIntents(tick, result.orderIntents);
    }

    method RecordDecisions(result: StrategyResult)
      modifies ledger
      ensures State() == LogResult(old(State()), result)
    {
      if result.signal.Some? {
        var signal := result.signal.value;
        ledger.Append(SignalRecord(signal.timestamp, signal));
        if signal.decision.Rejected? {
          ledger.Append(RejectionRecord(signal.timestamp, signal));
        }
      }
      ghost var afterSignal := State();
      var vetoes := result.riskVetoes;
      for i := 0 to |vetoes|
        invariant State() == LogVetoes(afterSignal, vetoes[..i])
      {
        assert vetoes[..i + 1][..i] == vetoes[..i];
        ledger.Append(VetoRecord(vetoes[i].timestamp, vetoes[i]));
      }
      assert vetoes[..|vetoes|] == vetoes;
      ghost var afterVetoes := State();
      var updates := result.stopUpdates;
      for i := 0 to |updates|
        invariant State() == LogStopUpdates(afterVetoes, updates[..i])
      {
        assert updates[..i + 1][..i] == updates[..i];
        var u := updates[i];
        ledger.Append(StopRecord(u.timestamp, u.symbol, u.stopPrice, u.reason, false));
      }
      assert updates[..|updates|] == updates;
    }

    method ApplyAllExits(bar: Bar, exits: seq<ExitDecision>)
      modifies this, ledger
      ensures State() == ApplyExits(config, old(State()), bar, exits)
    {
      for i := 0 to |exits|
        invariant State() == ApplyExits(config, old(State()), bar, exits[..i])
      {
        assert exits[..i + 1][..i] == exits[..i];
        if position.Some? {
          var exit := exits[i];
          ledger.Append(ExitRecord(exit.timestamp, exit));
          if config.fillTiming.SignalBarClose? {
            Close(bar.close, bar.timestamp, exit.reason, false);
          } else if pendingExit.None? {
            pendingExit := Some(PendingExit(exit.reason, exit.timestamp));
          }
        }
      }
      assert exits[..|exits|] == exits;
    }

    method ApplyAllIntents(tick: Tick, intents: seq<OrderIntent>)
      modifies this, ledger
      ensures State() == ApplyIntents(config, old(State()), tick, intents)
    {
      for i := 0 to |intents|
        invariant State() == ApplyIntents(config, old(State()), tick, intents[..i])
      {
        assert intents[..i + 1][..i] == intents[..i];
        PlaceIntent(tick, intents[i]);
      }
      assert intents[..|intents|] == intents;
    }

    method PlaceIntent(tick: Tick, intent: OrderIntent)
      modifies this, ledger
      ensures State() == ApplyIntent(config, old(State()), tick, intent)
    {
      var reference := if intent.metadata.signalPrice.Some? then intent.metadata.signalPrice
                       else if previous.Some? then Some(previous.value.bar.close)
                       else None;
      var veto := RiskManager.VetoFor(Limits(config), position.Some? || pendingEntry.Some? || pendingExit.Some?,
                                      dailyLimitHit, tick.session, intent, reference);
      if veto.Some? {
        ledger.Append(IntentVetoRecord(intent.timestamp, intent, veto.value));
        return;
      }
      ledger.Append(IntentRecord(intent.timestamp, intent));
      var stop := intent.metadata.stopPrice.value;
      var target := intent.metadata.targetPrice;
      if config.fillTiming.NextBarOpen? {
        pendingEntry := Some(PendingEntry(intent, stop, target, config.entryDelayBars));
      } else {
        Open(intent, stop, target, tick.bar.close, tick.bar.timestamp, tick.session);
      }
    }

    // ---- Position lifecycle ----

    method Open(intent: OrderIntent, stop: real, target: Option<real>, raw: real,
                timestamp: Timestamp, session: Session)
      modifies this, ledger
      ensures State() == OpenPosition(config, old(State()), intent, stop, target, raw, timestamp, session)
    {
      var side := if intent.side.Buy? then Long else Short;
      var fill := EntryFill(config, intent, raw, timestamp, session);
      if !StopProtects(side, stop, fill.price) {
        ledger.Append(TransitionRecord(timestamp,
          EntryInvalidated(intent.symbol, side, intent.timestamp, raw, fill.price, stop)));
        return;
      }
      ledger.Append(FillRecord(timestamp, fill));
      ledger.Append(StopRecord(timestamp, intent.symbol, stop, "initial_stop", true));
      position := Some(FreshPosition(fill, side, stop, target, session.date));
      feedback := feedback + [FillFeedback(fill)];
      filledIntents := filledIntents + [intent];
    }

    method Close(raw: real, timestamp: Timestamp, reason: Reason, ambiguous: bool)
      modifies this, ledger
      ensures State() == ClosePosition(config, old(State()), raw, timestamp, reason, ambiguous)
    {
      if position.None? {
        return;
      }
      var p := position.value;
      var fill := ExitFill(config, p, raw, timestamp, reason, ambiguous);
      ledger.Append(FillRecord(timestamp, fill));
      var trade := ClosedTrade(config, p, fill);
      ledger.Append(TradeRecord(timestamp, trade));
      trades := trades + [trade];
      cumulativeNetPnl := cumulativeNetPnl + trade.netPnl;
      position := None;
      pendingExit := None;
      feedback := feedback + [TradeFeedback(trade)];
    }
  }
}
