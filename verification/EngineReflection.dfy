/** The engine has no directional bias: a reflected market gives the mirrored run and the same money. */
module EngineReflection {
  import opened Prelude
  import opened Market
  import opened Events
  import opened EngineSpec
  import opened EngineRun
  import opened EngineInvariants
  import opened Mirror

  /**
   * The missed-entry draw sees an order's side. The market may be reflected as far as it does not matter:
   * every order the engine could admit is selected exactly when its mirrored order is.
   */
  ghost predicate SideBlind(cfg: Config) {
    forall i: OrderIntent :: !i.side.Unknown? && 1 <= i.quantity <= cfg.maxContracts ==>
      (EntrySelected(cfg, MirrorIntent(i)) <==> EntrySelected(cfg, i))
  }

  /** A waiting entry has a proper side; reachable states always do. */
  predicate Sided(st: EngineState) {
    st.pendingEntry.Some? ==> !st.pendingEntry.value.intent.side.Unknown?
  }

  lemma {:induction false} LogMirrors(st: EngineState, record: EventRecord)
    ensures Log(MirrorState(st), MirrorRecord(record)) == MirrorState(Log(st, record))
  {
    MapAppend(MirrorRecord, st.ledger, record);
  }

  lemma {:induction false} CloseMirrors(cfg: Config, st: EngineState, raw: real, timestamp: Timestamp, reason: Reason,
                                        ambiguous: bool)
    ensures ClosePosition(cfg, MirrorState(st), -raw, timestamp, reason, ambiguous)
            == MirrorState(ClosePosition(cfg, st, raw, timestamp, reason, ambiguous))
  {
    if st.position.Some? {
      var p := st.position.value;
      var fill := ExitFill(cfg, p, raw, timestamp, reason, ambiguous);
      ExitFillMirrors(cfg, p, raw, timestamp, reason, ambiguous);
      var trade := ClosedTrade(cfg, p, fill);
      TradeMirrors(cfg, p, fill);
      hide ExitFill, ClosedTrade;
      LogMirrors(st, FillRecord(timestamp, fill));
      LogMirrors(Log(st, FillRecord(timestamp, fill)), TradeRecord(timestamp, trade));
      MapAppend(MirrorTrade, st.trades, trade);
      MapAppend(MirrorFeedback, st.feedback, TradeFeedback(trade));
    }
  }

  lemma {:induction false} ExitFillMirrors(cfg: Config, p: Position, raw: real, timestamp: Timestamp, reason: Reason,
                                           ambiguous: bool)
    ensures ExitFill(cfg, MirrorPosition(p), -raw, timestamp, reason, ambiguous)
            == MirrorFill(ExitFill(cfg, p, raw, timestamp, reason, ambiguous))
  {
  }

  lemma {:induction false} TradeMirrors(cfg: Config, p: Position, fill: Fill)
    ensures ClosedTrade(cfg, MirrorPosition(p), MirrorFill(fill)) == MirrorTrade(ClosedTrade(cfg, p, fill))
  {
    hide Direction;
    PointsMirror(p.side, fill.price, p.entryPrice, MirrorFill(fill).price, MirrorPosition(p).entryPrice);
  }

  lemma {:induction false} PointsMirror(side: PositionSide, exit: real, entry: real, mirroredExit: real,
                                        mirroredEntry: real)
    requires mirroredExit == -exit && mirroredEntry == -entry
    ensures (mirroredExit - mirroredEntry) * Direction(MirrorSide(side)) == (exit - entry) * Direction(side)
  {
  }

  lemma {:induction false} EntryFillMirrors(cfg: Config, intent: OrderIntent, raw: real, timestamp: Timestamp,
                                            session: Session)
    requires !intent.side.Unknown?
    ensures EntryFill(cfg, MirrorIntent(intent), -raw, timestamp, session)
            == MirrorFill(EntryFill(cfg, intent, raw, timestamp, session))
  {
  }

  /** The state once a fill has opened a position. */
  function Opened(st: EngineState, intent: OrderIntent, fill: Fill, stop: real, target: Option<real>,
                  date: int): EngineState {
    var logged := Log(Log(st, FillRecord(fill.timestamp, fill)),
                      StopRecord(fill.timestamp, intent.symbol, stop, "initial_stop", true));
    logged.(position := Some(FreshPosition(fill, SideOfEntry(intent.side), stop, target, date)),
            feedback := st.feedback + [FillFeedback(fill)],
            filledIntents := st.filledIntents + [intent])
  }

  lemma {:induction false} OpenedMirrors(st: EngineState, intent: OrderIntent, fill: Fill, stop: real,
                                         target: Option<real>, date: int)
    requires !intent.side.Unknown?
    ensures Opened(MirrorState(st), MirrorIntent(intent), MirrorFill(fill), -stop, Neg(target), date)
            == MirrorState(Opened(st, intent, fill, stop, target, date))
  {
    hide MirrorMetadata;
    var entered := FillRecord(fill.timestamp, fill);
    LogMirrors(st, entered);
    LogMirrors(Log(st, entered), StopRecord(fill.timestamp, intent.symbol, stop, "initial_stop", true));
    MapAppend(MirrorFeedback, st.feedback, FillFeedback(fill));
    MapAppend(MirrorIntent, st.filledIntents, intent);
  }

  lemma {:induction false} OpenMirrors(cfg: Config, st: EngineState, intent: OrderIntent, stop: real,
                                       target: Option<real>,
                                       raw: real, timestamp: Timestamp, session: Session)
    requires !intent.side.Unknown?
    ensures OpenPosition(cfg, MirrorState(st), MirrorIntent(intent), -stop, Neg(target), -raw, timestamp, session)
            == MirrorState(OpenPosition(cfg, st, intent, stop, target, raw, timestamp, session))
  {
    hide MirrorState, MirrorMetadata;
    var side := SideOfEntry(intent.side);
    var fill := EntryFill(cfg, intent, raw, timestamp, session);
    EntryFillMirrors(cfg, intent, raw, timestamp, session);
    if StopProtects(side, stop, fill.price) {
      OpenedMirrors(st, intent, fill, stop, target, session.date);
      assert OpenPosition(cfg, st, intent, stop, target, raw, timestamp, session)
             == Opened(st, intent, fill, stop, target, session.date);
    } else {
      LogMirrors(st, TransitionRecord(timestamp,
                                      EntryInvalidated(intent.symbol, side, intent.timestamp, raw, fill.price, stop)));
    }
  }

  lemma {:induction false} CancelMirrors(st: EngineState, timestamp: Timestamp, reason: Reason)
    ensures CancelPendings(MirrorState(st), timestamp, reason) == MirrorState(CancelPendings(st, timestamp, reason))
  {
    LogMirrors(st, TransitionRecord(timestamp, PendingOrdersCancelled(reason)));
  }

  lemma {:induction false} FlattenMirrors(cfg: Config, st: EngineState, bar: Bar, reason: Reason)
    ensures FlattenNow(cfg, MirrorState(st), MirrorBar(bar), reason) == MirrorState(FlattenNow(cfg, st, bar, reason))
  {
    hide ClosePosition, CancelPendings, MirrorState;
    CancelMirrors(st, bar.timestamp, reason);
    CloseMirrors(cfg, CancelPendings(st, bar.timestamp, reason), bar.close, bar.timestamp, reason, false);
  }

  lemma {:induction false} SessionChangeMirrors(cfg: Config, st: EngineState, session: Session)
    ensures FlattenIfSessionChanged(cfg, MirrorState(st), session)
            == MirrorState(FlattenIfSessionChanged(cfg, st, session))
  {
    if st.previous.Some? && session.date != st.previous.value.session.date {
      hide ClosePosition, CancelPendings;
      FlattenMirrors(cfg, st, st.previous.value.bar, SessionEnd);
    }
  }

  lemma {:induction false} GapMirrors(cfg: Config, st: EngineState, bar: Bar)
    ensures OpenGapStop(cfg, MirrorState(st), MirrorBar(bar)) == MirrorState(OpenGapStop(cfg, st, bar))
  {
    hide ClosePosition;
    var bare := st.(pendingExit := None);
    assert MirrorState(bare) == MirrorState(st).(pendingExit := None);
    CloseMirrors(cfg, bare, bar.open, bar.timestamp, StopGap, false);
  }

  /** What a due entry comes to once the draw has been made. */
  function Settled(cfg: Config, taken: EngineState, pending: PendingEntry, tick: Tick, selected: bool): EngineState {
    if !selected then
      Log(taken, TransitionRecord(tick.bar.timestamp,
            EntryMissed(pending.intent.symbol, pending.intent.side, pending.intent.timestamp,
                        cfg.entryFillRate, cfg.entryFillSeed)))
    else
      OpenPosition(cfg, taken, pending.intent, pending.stopPrice, pending.targetPrice,
                   tick.bar.open, tick.bar.timestamp, tick.session)
  }

  lemma {:induction false} SettledMirrors(cfg: Config, taken: EngineState, pending: PendingEntry, tick: Tick,
                                          selected: bool)
    requires !pending.intent.side.Unknown?
    ensures Settled(cfg, MirrorState(taken), MirrorPending(pending), MirrorTick(tick), selected)
            == MirrorState(Settled(cfg, taken, pending, tick, selected))
  {
    hide OpenPosition;
    if selected {
      OpenMirrors(cfg, taken, pending.intent, pending.stopPrice, pending.targetPrice,
                  tick.bar.open, tick.bar.timestamp, tick.session);
    } else {
      LogMirrors(taken, TransitionRecord(tick.bar.timestamp,
        EntryMissed(pending.intent.symbol, pending.intent.side, pending.intent.timestamp,
                    cfg.entryFillRate, cfg.entryFillSeed)));
    }
  }

  /** A missed entry and a taken one leave different ledgers. */
  lemma {:induction false} TheDrawShows(cfg: Config, taken: EngineState, pending: PendingEntry, tick: Tick)
    ensures MirrorState(Settled(cfg, taken, pending, tick, true))
            != MirrorState(Settled(cfg, taken, pending, tick, false))
  {
    hide EntryFill, StopProtects, FreshPosition;
    var n := |taken.ledger|;
    var hit, miss := Settled(cfg, taken, pending, tick, true), Settled(cfg, taken, pending, tick, false);
    assert MirrorState(miss).ledger[n] == MirrorRecord(miss.ledger[n]) && |MirrorState(miss).ledger| == n + 1;
    assert MirrorState(hit).ledger[n] == MirrorRecord(hit.ledger[n]) && |MirrorState(hit).ledger| >= n + 1;
  }

  predicate Due(st: EngineState) {
    st.pendingEntry.Some? && st.pendingEntry.value.remainingDelayBars == 0
  }

  lemma {:induction false} DueEntryIsSettled(cfg: Config, st: EngineState, tick: Tick)
    requires Due(st)
    ensures
      var pending := st.pendingEntry.value;
      var taken := st.(pendingEntry := None);
      && ProcessPendingEntry(cfg, st, tick) == Settled(cfg, taken, pending, tick, EntrySelected(cfg, pending.intent))
      && Due(MirrorState(st))
      && MirrorState(st).pendingEntry.value == MirrorPending(pending)
      && MirrorState(st).(pendingEntry := None) == MirrorState(taken)
  {
    hide OpenPosition, EntrySelected;
  }

  /** A due entry mirrors if and only if the draw selects its order and the mirrored order alike. */
  lemma {:induction false} DueEntryMirrorsIff(cfg: Config, st: EngineState, tick: Tick)
    requires Due(st) && Sided(st)
    ensures
      var intent := st.pendingEntry.value.intent;
      ProcessPendingEntry(cfg, MirrorState(st), MirrorTick(tick)) == MirrorState(ProcessPendingEntry(cfg, st, tick))
      <==> (EntrySelected(cfg, MirrorIntent(intent)) <==> EntrySelected(cfg, intent))
  {
    hide MirrorState, MirrorIntent, ProcessPendingEntry, EntrySelected, Settled;
    var pending := st.pendingEntry.value;
    var taken := st.(pendingEntry := None);
    DueEntryIsSettled(cfg, st, tick);
    DueEntryIsSettled(cfg, MirrorState(st), MirrorTick(tick));
    SettledMirrors(cfg, taken, pending, tick, EntrySelected(cfg, MirrorIntent(pending.intent)));
    TheDrawShows(cfg, taken, pending, tick);
  }

  lemma {:induction false} PendingEntryMirrors(cfg: Config, st: EngineState, tick: Tick)
    requires SideBlind(cfg) && Sided(st) && Sized(cfg, st)
    ensures ProcessPendingEntry(cfg, MirrorState(st), MirrorTick(tick))
            == MirrorState(ProcessPendingEntry(cfg, st, tick))
  {
    hide OpenPosition, EntrySelected;
    if Due(st) {
      DueEntryMirrorsIff(cfg, st, tick);
    }
  }

  lemma {:induction false} PendingExitMirrors(cfg: Config, st: EngineState, bar: Bar)
    ensures ProcessPendingExit(cfg, MirrorState(st), MirrorBar(bar)) == MirrorState(ProcessPendingExit(cfg, st, bar))
  {
    hide ClosePosition;
    var bare := st.(pendingExit := None);
    assert MirrorState(bare) == MirrorState(st).(pendingExit := None);
    if st.pendingExit.Some? {
      CloseMirrors(cfg, bare, bar.open, bar.timestamp, st.pendingExit.value.reason, false);
    }
  }

  lemma {:induction false} AtOpenMirrors(cfg: Config, st: EngineState, tick: Tick)
    requires SideBlind(cfg) && Inv(cfg, st)
    ensures AtOpen(cfg, MirrorState(st), MirrorTick(tick)) == MirrorState(AtOpen(cfg, st, tick))
  {
    hide FlattenIfSessionChanged, OpenGapStop, ProcessPendingEntry, ProcessPendingExit, MirrorState;
    var rolled := FlattenIfSessionChanged(cfg, st, tick.session);
    SessionChangeMirrors(cfg, st, tick.session);
    SessionChangeKeeps(cfg, st, tick.session);
    var gapped := OpenGapStop(cfg, rolled, tick.bar);
    GapMirrors(cfg, rolled, tick.bar);
    GapStopKeeps(cfg, rolled, tick.bar);
    var entered := ProcessPendingEntry(cfg, gapped, tick);
    PendingEntryMirrors(cfg, gapped, tick);
    PendingExitMirrors(cfg, entered, tick.bar);
  }

  /** The bar means the same to the mirrored position. */
  lemma {:induction false} TouchesMirror(p: Position, bar: Bar)
    ensures TouchesStop(MirrorPosition(p), MirrorBar(bar)) == TouchesStop(p, bar)
    ensures TouchesTarget(MirrorPosition(p), MirrorBar(bar)) == TouchesTarget(p, bar)
    ensures Favourable(MirrorSide(p.side), -p.entryPrice, MirrorBar(bar)) == Favourable(p.side, p.entryPrice, bar)
    ensures Adverse(MirrorSide(p.side), -p.entryPrice, MirrorBar(bar)) == Adverse(p.side, p.entryPrice, bar)
    ensures Abs(-p.entryPrice - -p.stopPrice) == Abs(p.entryPrice - p.stopPrice)
    ensures p.targetPrice.Some? ==> Abs(-p.targetPrice.value - -p.entryPrice) == Abs(p.targetPrice.value - p.entryPrice)
  {
  }

  lemma {:induction false} RepositionMirrors(st: EngineState, p: Position)
    ensures MirrorState(st.(position := Some(p))) == MirrorState(st).(position := Some(MirrorPosition(p)))
  {
  }

  lemma {:induction false} StoppedMirrors(cfg: Config, st: EngineState, bar: Bar)
    requires st.position.Some? && !st.position.value.stopCancelled && TouchesStop(st.position.value, bar)
    ensures IntrabarStopAndTarget(cfg, MirrorState(st), MirrorBar(bar))
            == MirrorState(IntrabarStopAndTarget(cfg, st, bar))
  {
    hide ClosePosition, TouchesStop, TouchesTarget, Favourable, Abs;
    var p := st.position.value;
    TouchesMirror(p, bar);
    var marked := p.(maePoints := Max(p.maePoints, Abs(p.entryPrice - p.stopPrice)));
    RepositionMirrors(st, marked);
    CloseMirrors(cfg, st.(position := Some(marked)), p.stopPrice, bar.timestamp, Stop,
                 TouchesTarget(p, bar) || Favourable(p.side, p.entryPrice, bar) > p.mfePoints);
  }

  lemma {:induction false} TargetMirrors(cfg: Config, st: EngineState, bar: Bar)
    requires st.position.Some? && !st.position.value.stopCancelled && !TouchesStop(st.position.value, bar)
    ensures IntrabarStopAndTarget(cfg, MirrorState(st), MirrorBar(bar))
            == MirrorState(IntrabarStopAndTarget(cfg, st, bar))
  {
    hide ClosePosition, TouchesStop, Favourable, Abs;
    var p := st.position.value;
    TouchesMirror(p, bar);
    if TouchesTarget(p, bar) {
      var marked := p.(mfePoints := Max(p.mfePoints, Abs(p.targetPrice.value - p.entryPrice)));
      RepositionMirrors(st, marked);
      CloseMirrors(cfg, st.(position := Some(marked)), p.targetPrice.value, bar.timestamp, Target, false);
    }
  }

  lemma {:induction false} IntrabarMirrors(cfg: Config, st: EngineState, bar: Bar)
    ensures IntrabarStopAndTarget(cfg, MirrorState(st), MirrorBar(bar))
            == MirrorState(IntrabarStopAndTarget(cfg, st, bar))
  {
    hide ClosePosition, TouchesStop, TouchesTarget;
    if st.position.Some? && !st.position.value.stopCancelled {
      if TouchesStop(st.position.value, bar) {
        StoppedMirrors(cfg, st, bar);
      } else {
        TargetMirrors(cfg, st, bar);
      }
    }
  }

  lemma {:induction false} ExcursionsMirror(st: EngineState, bar: Bar)
    ensures UpdateExcursions(MirrorState(st), MirrorBar(bar)) == MirrorState(UpdateExcursions(st, bar))
  {
  }

  lemma {:induction false} DuringBarMirrors(cfg: Config, st: EngineState, tick: Tick)
    ensures DuringBar(cfg, MirrorState(st), MirrorTick(tick)) == MirrorState(DuringBar(cfg, st, tick))
  {
    hide IntrabarStopAndTarget, UpdateExcursions, FlattenNow, MirrorState;
    IntrabarMirrors(cfg, st, tick.bar);
    var stopped := IntrabarStopAndTarget(cfg, st, tick.bar);
    ExcursionsMirror(stopped, tick.bar);
    FlattenMirrors(cfg, UpdateExcursions(stopped, tick.bar), tick.bar, SessionFlatten);
  }

  lemma {:induction false} PnlMirrors(cfg: Config, st: EngineState, bar: Bar)
    ensures SessionPnl(cfg, MirrorState(st), MirrorBar(bar)) == SessionPnl(cfg, st, bar)
  {
    if st.position.Some? {
      var p := st.position.value;
      assert (-bar.close - -p.entryPrice) * Direction(MirrorSide(p.side))
        == (bar.close - p.entryPrice) * Direction(p.side);
    }
  }

  lemma {:induction false} LossCheckMirrors(cfg: Config, st: EngineState, bar: Bar)
    ensures CheckDailyLoss(cfg, MirrorState(st), MirrorBar(bar)) == MirrorState(CheckDailyLoss(cfg, st, bar))
  {
    PnlMirrors(cfg, st, bar);
    hide SessionPnl;
    var pnl := SessionPnl(cfg, st, bar);
    if !st.dailyLimitHit && LossBreached(pnl, cfg.dailyLossLimit) {
      var hit := st.(dailyLimitHit := true);
      assert MirrorState(hit) == MirrorState(st).(dailyLimitHit := true);
      LogMirrors(hit, TransitionRecord(bar.timestamp, DailyLimitHit(pnl, cfg.dailyLossLimit.value)));
    }
  }

  /** The bar up to the strategy's turn: mirrored state, and the very same session P&L. */
  lemma {:induction false} PreStrategyMirrors(cfg: Config, st: EngineState, tick: Tick)
    requires SideBlind(cfg) && Inv(cfg, st)
    ensures PreStrategy(cfg, MirrorState(st), MirrorTick(tick)) == MirrorState(PreStrategy(cfg, st, tick))
    ensures PreStrategyPnl(cfg, MirrorState(st), MirrorTick(tick)) == PreStrategyPnl(cfg, st, tick)
  {
    hide AtOpen, DuringBar, CheckDailyLoss, SessionPnl, MirrorState;
    AtOpenMirrors(cfg, st, tick);
    DuringBarMirrors(cfg, AtOpen(cfg, st, tick), tick);
    LossCheckMirrors(cfg, BeforeLossCheck(cfg, st, tick), tick.bar);
    PnlMirrors(cfg, BeforeLossCheck(cfg, st, tick), tick.bar);
  }

  // ---- The strategy's result ----

  lemma {:induction false} VetoesMirror(st: EngineState, vetoes: seq<RiskVeto>)
    ensures LogVetoes(MirrorState(st), vetoes) == MirrorState(LogVetoes(st, vetoes))
    decreases |vetoes|
  {
    hide MirrorState, Log;
    if |vetoes| == 0 {
    } else {
      var before := vetoes[..|vetoes| - 1];
      var v := vetoes[|vetoes| - 1];
      VetoesMirror(st, before);
      LogMirrors(LogVetoes(st, before), VetoRecord(v.timestamp, v));
    }
  }

  lemma {:induction false} StopUpdatesMirror(st: EngineState, updates: seq<StopUpdate>)
    ensures LogStopUpdates(MirrorState(st), Map(MirrorUpdate, updates)) == MirrorState(LogStopUpdates(st, updates))
    decreases |updates|
  {
    hide MirrorState, Log;
    if |updates| == 0 {
    } else {
      var before := updates[..|updates| - 1];
      var u := updates[|updates| - 1];
      StopUpdatesMirror(st, before);
      MapInit(MirrorUpdate, updates);
      LogMirrors(LogStopUpdates(st, before), StopRecord(u.timestamp, u.symbol, u.stopPrice, u.reason, false));
    }
  }

  lemma {:induction false} SignalMirrors(st: EngineState, signal: Option<SignalDecision>)
    ensures LogSignal(MirrorState(st), if signal.None? then None else Some(MirrorSignal(signal.value)))
            == MirrorState(LogSignal(st, signal))
  {
    hide MirrorState, Log;
    if signal.Some? {
      var s := signal.value;
      LogMirrors(st, SignalRecord(s.timestamp, s));
      LogMirrors(Log(st, SignalRecord(s.timestamp, s)), RejectionRecord(s.timestamp, s));
    }
  }

  lemma {:induction false} LogResultMirrors(st: EngineState, result: StrategyResult)
    ensures LogResult(MirrorState(st), MirrorResult(result)) == MirrorState(LogResult(st, result))
  {
    hide MirrorState, LogSignal, LogVetoes, LogStopUpdates;
    SignalMirrors(st, result.signal);
    var signalled := LogSignal(st, result.signal);
    VetoesMirror(signalled, result.riskVetoes);
    StopUpdatesMirror(LogVetoes(signalled, result.riskVetoes), result.stopUpdates);
  }

  lemma {:induction false} ExitMirrors(cfg: Config, st: EngineState, bar: Bar, exit: ExitDecision)
    ensures ApplyExit(cfg, MirrorState(st), MirrorBar(bar), exit) == MirrorState(ApplyExit(cfg, st, bar, exit))
  {
    hide ClosePosition;
    if st.position.Some? {
      LogMirrors(st, ExitRecord(exit.timestamp, exit));
      CloseMirrors(cfg, Log(st, ExitRecord(exit.timestamp, exit)), bar.close, bar.timestamp, exit.reason, false);
    }
  }

  lemma {:induction false} ExitsMirror(cfg: Config, st: EngineState, bar: Bar, exits: seq<ExitDecision>)
    ensures ApplyExits(cfg, MirrorState(st), MirrorBar(bar), exits) == MirrorState(ApplyExits(cfg, st, bar, exits))
    decreases |exits|
  {
    hide MirrorState, ApplyExit;
    if |exits| == 0 {
    } else {
      ExitsMirror(cfg, st, bar, exits[..|exits| - 1]);
      ExitMirrors(cfg, ApplyExits(cfg, st, bar, exits[..|exits| - 1]), bar, exits[|exits| - 1]);
    }
  }

  /** The risk gate gives the same verdict on the mirrored intent. */
  lemma {:induction false} VetoMirrors(cfg: Config, st: EngineState, session: Session, intent: OrderIntent)
    ensures VetoOf(cfg, MirrorState(st), session, MirrorIntent(intent)) == VetoOf(cfg, st, session, intent)
  {
  }

  lemma {:induction false} IntentMirrors(cfg: Config, st: EngineState, tick: Tick, intent: OrderIntent)
    ensures ApplyIntent(cfg, MirrorState(st), MirrorTick(tick), MirrorIntent(intent))
            == MirrorState(ApplyIntent(cfg, st, tick, intent))
  {
    hide OpenPosition;
    VetoMirrors(cfg, st, tick.session, intent);
    var veto := VetoOf(cfg, st, tick.session, intent);
    if veto.Some? {
      LogMirrors(st, IntentVetoRecord(intent.timestamp, intent, veto.value));
    } else {
      var logged := Log(st, IntentRecord(intent.timestamp, intent));
      LogMirrors(st, IntentRecord(intent.timestamp, intent));
      OpenMirrors(cfg, logged, intent, intent.metadata.stopPrice.value, intent.metadata.targetPrice,
                  tick.bar.close, tick.bar.timestamp, tick.session);
    }
  }

  lemma {:induction false} IntentsMirror(cfg: Config, st: EngineState, tick: Tick, intents: seq<OrderIntent>)
    ensures ApplyIntents(cfg, MirrorState(st), MirrorTick(tick), Map(MirrorIntent, intents))
            == MirrorState(ApplyIntents(cfg, st, tick, intents))
    decreases |intents|
  {
    hide MirrorState, ApplyIntent;
    if |intents| == 0 {
    } else {
      IntentsMirror(cfg, st, tick, intents[..|intents| - 1]);
      MapInit(MirrorIntent, intents);
      IntentMirrors(cfg, ApplyIntents(cfg, st, tick, intents[..|intents| - 1]), tick, intents[|intents| - 1]);
    }
  }

  lemma {:induction false} ApplyMirrors(cfg: Config, st: EngineState, tick: Tick, result: StrategyResult)
    ensures ApplyResult(cfg, MirrorState(st), MirrorTick(tick), MirrorResult(result))
            == MirrorState(ApplyResult(cfg, st, tick, result))
  {
    hide MirrorState, LogResult, ApplyExits, ApplyIntents;
    LogResultMirrors(st, result);
    var logged := LogResult(st, result);
    ExitsMirror(cfg, logged, tick.bar, result.exits);
    IntentsMirror(cfg, ApplyExits(cfg, logged, tick.bar, result.exits), tick, result.orderIntents);
  }

  // ---- Bars and runs ----

  lemma {:induction false} ClearMirrors(st: EngineState)
    ensures ClearFeedback(MirrorState(st)) == MirrorState(ClearFeedback(st))
  {
  }

  lemma {:induction false} NoteMirrors(st: EngineState, tick: Tick)
    ensures NoteProcessed(MirrorState(st), MirrorTick(tick)) == MirrorState(NoteProcessed(st, tick))
  {
  }

  lemma {:induction false} BarMirrors(cfg: Config, st: EngineState, b: ScriptBar)
    requires SideBlind(cfg) && Inv(cfg, st)
    ensures EngineBar(cfg, MirrorState(st), MirrorScriptBar(b)) == MirrorState(EngineBar(cfg, st, b))
  {
    hide MirrorState, PreStrategy, FlattenNow, ApplyResult, Log, ClearFeedback, NoteProcessed, Inv, PreStrategyPnl,
         MirrorResult;
    var tick := b.tick;
    var record := BarRecord(tick.bar.timestamp, tick.bar);
    LogMirrors(st, record);
    LogKeeps(cfg, st, record);
    PreStrategyMirrors(cfg, Log(st, record), tick);
    var pre := PreStrategy(cfg, Log(st, record), tick);
    ClearMirrors(pre);
    var marked := ClearFeedback(pre);
    assert AfterPreStrategy(cfg, MirrorState(st), MirrorTick(tick)) == MirrorState(marked);
    if b.breach.Some? {
      var halt := TransitionRecord(tick.bar.timestamp, ExecutionHalt(Breach(b.breach.value)));
      LogMirrors(marked, halt);
      FlattenMirrors(cfg, Log(marked, halt), tick.bar, b.breach.value);
      ClearMirrors(FlattenNow(cfg, Log(marked, halt), tick.bar, b.breach.value));
    }
    var supervised := AfterSupervisor(cfg, marked, tick.bar, b.breach);
    ApplyMirrors(cfg, supervised, tick, b.result);
    ClearMirrors(ApplyResult(cfg, supervised, tick, b.result));
    NoteMirrors(ClearFeedback(ApplyResult(cfg, supervised, tick, b.result)), tick);
  }

  lemma {:induction false} StartMirrors()
    ensures MirrorState(Initial([])) == Initial([])
  {
  }

  /**
   * Over whole runs: the reflected script gives the mirrored ledger, trades and state, with the same
   * P&L, excursions and halt flags.
   */
  lemma {:induction false} RunsMirror(cfg: Config, script: seq<ScriptBar>)
    requires SideBlind(cfg) && AdmissibleScript(script)
    ensures Run(cfg, Map(MirrorScriptBar, script)) == MirrorState(Run(cfg, script))
    decreases |script|
  {
    hide MirrorState, EngineBar, Inv;
    if |script| == 0 {
      StartMirrors();
    } else {
      var before := script[..|script| - 1];
      RunsMirror(cfg, before);
      EveryReachableStateIsSafe(cfg, before);
      MapInit(MirrorScriptBar, script);
      BarMirrors(cfg, Run(cfg, before), script[|script| - 1]);
    }
  }

  lemma {:induction false} EndMirrors(cfg: Config, st: EngineState)
    ensures CloseEndOfData(cfg, MirrorState(st)) == MirrorState(CloseEndOfData(cfg, st))
  {
    hide ClosePosition;
    if st.previous.Some? {
      var last := st.previous.value.bar;
      var record := TransitionRecord(last.timestamp, PendingOrdersCancelled(EndOfData));
      LogMirrors(st, record);
      var cancelled := if st.pendingEntry.None? then st else Log(st, record).(pendingEntry := None);
      CloseMirrors(cfg, cancelled, last.close, last.timestamp, EndOfData, false);
    }
  }

  /** The complete reflected run: mirrored trades, each with the same money and excursions. */
  lemma {:induction false} CompleteRunsMirror(cfg: Config, script: seq<ScriptBar>)
    requires SideBlind(cfg) && AdmissibleScript(script)
    ensures
      var end, mirrored := CompleteRun(cfg, script), CompleteRun(cfg, Map(MirrorScriptBar, script));
      && mirrored == MirrorState(end)
      && |mirrored.trades| == |end.trades|
      && (forall i :: 0 <= i < |end.trades| ==>
            && mirrored.trades[i].netPnl == end.trades[i].netPnl
            && mirrored.trades[i].mfePoints == end.trades[i].mfePoints
            && mirrored.trades[i].maePoints == end.trades[i].maePoints
            && mirrored.trades[i].exitReason == end.trades[i].exitReason
            && mirrored.trades[i].side != end.trades[i].side)
  {
    hide CloseEndOfData, Run;
    RunsMirror(cfg, script);
    EndMirrors(cfg, Run(cfg, script));
    ClearMirrors(CloseEndOfData(cfg, Run(cfg, script)));
  }
}
