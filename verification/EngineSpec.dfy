/** What each step of the position engine does, as functions on its whole state. */
module EngineSpec {
  import opened Prelude
  import opened Market
  import opened Events
  import RiskManager

  datatype FillTiming = NextBarOpen | SignalBarClose

  /** Execution assumptions. `draw` is the seeded SHA-256 draw that selects missed entries. */
  datatype Config = Config(
    pointValue: real,
    commission: real,
    entrySlippage: real,
    exitSlippage: real,
    rthOpenExtraSlippage: real,
    entryDelayBars: nat,
    entryFillRate: real,
    entryFillSeed: int,
    draw: (int, Timestamp, Symbol, OrderSide, int) -> real,
    fillTiming: FillTiming,
    rthEntriesOnly: bool,
    flattenMinutes: int,
    maxContracts: int,
    dailyLossLimit: Option<real>)

  /** The checks the configuration makes on construction. */
  predicate ValidConfig(cfg: Config) {
    && cfg.pointValue > 0.0
    && cfg.commission >= 0.0 && cfg.entrySlippage >= 0.0
    && cfg.exitSlippage >= 0.0 && cfg.rthOpenExtraSlippage >= 0.0
    && 0.0 <= cfg.entryFillRate <= 1.0
    && (cfg.fillTiming.SignalBarClose? ==> cfg.entryDelayBars == 0 && cfg.entryFillRate == 1.0)
    && cfg.maxContracts >= 1
    && (cfg.dailyLossLimit.Some? ==> cfg.dailyLossLimit.value > 0.0)
  }

  datatype Position = Position(
    symbol: Symbol,
    side: PositionSide,
    quantity: int,
    entryTimestamp: Timestamp,
    entryPrice: real,
    stopPrice: real,
    targetPrice: Option<real>,
    sessionDate: int,
    mfePoints: real,
    maePoints: real,
    stopCancelled: bool)

  datatype PendingEntry = PendingEntry(
    intent: OrderIntent, stopPrice: real, targetPrice: Option<real>, remainingDelayBars: nat)

  datatype PendingExit = PendingExit(reason: Reason, timestamp: Timestamp)

  /** Everything the engine owns. `filledIntents` is a history variable: the intents filled so far. */
  datatype EngineState = EngineState(
    position: Option<Position>,
    pendingEntry: Option<PendingEntry>,
    pendingExit: Option<PendingExit>,
    previous: Option<Tick>,
    trades: seq<Trade>,
    cumulativeNetPnl: real,
    sessionStartPnl: real,
    dailyLimitHit: bool,
    feedback: seq<Feedback>,
    ledger: seq<EventRecord>,
    filledIntents: seq<OrderIntent>)

  function Initial(ledger: seq<EventRecord>): EngineState {
    EngineState(None, None, None, None, [], 0.0, 0.0, false, [], ledger, [])
  }

  function Log(st: EngineState, record: EventRecord): EngineState {
    st.(ledger := st.ledger + [record])
  }

  // ---- Position lifecycle ----

  function EntrySlippage(cfg: Config, session: Session): real {
    if session.isRthOpenWindow then cfg.entrySlippage + cfg.rthOpenExtraSlippage else cfg.entrySlippage
  }

  function EntryPrice(cfg: Config, side: PositionSide, raw: real, session: Session): real {
    raw + Direction(side) * EntrySlippage(cfg, session)
  }

  predicate StopProtects(side: PositionSide, stop: real, price: real) {
    if side.Long? then stop < price else stop > price
  }

  function EntryFill(cfg: Config, intent: OrderIntent, raw: real, timestamp: Timestamp, session: Session): Fill {
    Fill(timestamp, intent.symbol, intent.side, intent.quantity,
         EntryPrice(cfg, SideOfEntry(intent.side), raw, session), intent.reason, false,
         raw, EntrySlippage(cfg, session))
  }

  function FreshPosition(fill: Fill, side: PositionSide, stop: real, target: Option<real>, date: int): Position {
    Position(fill.symbol, side, fill.quantity, fill.timestamp, fill.price, stop, target, date, 0.0, 0.0, false)
  }

  function OpenPosition(cfg: Config, st: EngineState, intent: OrderIntent, stop: real, target: Option<real>,
                        raw: real, timestamp: Timestamp, session: Session): EngineState
  {
    var side := SideOfEntry(intent.side);
    var fill := EntryFill(cfg, intent, raw, timestamp, session);
    if !StopProtects(side, stop, fill.price) then
      Log(st, TransitionRecord(timestamp,
            EntryInvalidated(intent.symbol, side, intent.timestamp, raw, fill.price, stop)))
    else
      var logged := Log(Log(st, FillRecord(timestamp, fill)),
                        StopRecord(timestamp, intent.symbol, stop, "initial_stop", true));
      logged.(position := Some(FreshPosition(fill, side, stop, target, session.date)),
              feedback := st.feedback + [FillFeedback(fill)],
              filledIntents := st.filledIntents + [intent])
  }

  function ExitFill(cfg: Config, p: Position, raw: real, timestamp: Timestamp, reason: Reason, ambiguous: bool): Fill {
    Fill(timestamp, p.symbol, ClosingSide(p.side), p.quantity,
         raw - Direction(p.side) * cfg.exitSlippage, reason, ambiguous, raw, cfg.exitSlippage)
  }

  function ClosedTrade(cfg: Config, p: Position, fill: Fill): Trade {
    var points := (fill.price - p.entryPrice) * Direction(p.side);
    var gross := points * cfg.pointValue * p.quantity as real;
    var commission := cfg.commission * p.quantity as real;
    Trade(p.symbol, p.side, p.quantity, p.entryTimestamp, p.entryPrice, fill.timestamp, fill.price,
          fill.reason, p.stopPrice, points, gross, commission, gross - commission,
          p.mfePoints, p.maePoints, p.sessionDate, fill.ambiguous)
  }

  function ClosePosition(cfg: Config, st: EngineState, raw: real, timestamp: Timestamp,
                         reason: Reason, ambiguous: bool): EngineState
  {
    if st.position.None? then st
    else
      var fill := ExitFill(cfg, st.position.value, raw, timestamp, reason, ambiguous);
      var trade := ClosedTrade(cfg, st.position.value, fill);
      var logged := Log(Log(st, FillRecord(timestamp, fill)), TradeRecord(timestamp, trade));
      logged.(position := None,
              pendingExit := None,
              trades := st.trades + [trade],
              cumulativeNetPnl := st.cumulativeNetPnl + trade.netPnl,
              feedback := st.feedback + [TradeFeedback(trade)])
  }

  // ---- Per-bar steps, in the order the engine takes them ----

  function CancelPendings(st: EngineState, timestamp: Timestamp, reason: Reason): EngineState {
    if st.pendingEntry.Some? || st.pendingExit.Some? then
      Log(st, TransitionRecord(timestamp, PendingOrdersCancelled(reason))).(pendingEntry := None, pendingExit := None)
    else st
  }

  function FlattenIfSessionChanged(cfg: Config, st: EngineState, session: Session): EngineState {
    if st.previous.None? || session.date == st.previous.value.session.date then st
    else
      var last := st.previous.value.bar;
      var cancelled := CancelPendings(st, last.timestamp, SessionEnd);
      var closed := ClosePosition(cfg, cancelled, last.close, last.timestamp, SessionEnd, false);
      closed.(sessionStartPnl := closed.cumulativeNetPnl, dailyLimitHit := false)
  }

  predicate OpensThroughStop(p: Position, bar: Bar) {
    if p.side.Long? then bar.open <= p.stopPrice else bar.open >= p.stopPrice
  }

  function OpenGapStop(cfg: Config, st: EngineState, bar: Bar): EngineState {
    if st.position.Some? && !st.position.value.stopCancelled && OpensThroughStop(st.position.value, bar) then
      ClosePosition(cfg, st.(pendingExit := None), bar.open, bar.timestamp, StopGap, false)
    else st
  }

  predicate EntrySelected(cfg: Config, intent: OrderIntent) {
    if cfg.entryFillRate >= 1.0 then true
    else if cfg.entryFillRate <= 0.0 then false
    else cfg.draw(cfg.entryFillSeed, intent.timestamp, intent.symbol, intent.side, intent.quantity) < cfg.entryFillRate
  }

  function ProcessPendingEntry(cfg: Config, st: EngineState, tick: Tick): EngineState {
    if st.pendingEntry.None? then st
    else
      var pending := st.pendingEntry.value;
      if pending.remainingDelayBars > 0 then
        st.(pendingEntry := Some(pending.(remainingDelayBars := pending.remainingDelayBars - 1)))
      else
        var taken := st.(pendingEntry := None);
        if !EntrySelected(cfg, pending.intent) then
          Log(taken, TransitionRecord(tick.bar.timestamp,
                EntryMissed(pending.intent.symbol, pending.intent.side, pending.intent.timestamp,
                            cfg.entryFillRate, cfg.entryFillSeed)))
        else
          OpenPosition(cfg, taken, pending.intent, pending.stopPrice, pending.targetPrice,
                       tick.bar.open, tick.bar.timestamp, tick.session)
  }

  function ProcessPendingExit(cfg: Config, st: EngineState, bar: Bar): EngineState {
    if st.pendingExit.None? || st.position.None? then st.(pendingExit := None)
    else
      ClosePosition(cfg, st.(pendingExit := None), bar.open, bar.timestamp, st.pendingExit.value.reason, false)
  }

  /** How far the bar went in the position's favour, and against it. */
  function Favourable(side: PositionSide, entry: real, bar: Bar): real {
    if side.Long? then bar.high - entry else entry - bar.low
  }

  function Adverse(side: PositionSide, entry: real, bar: Bar): real {
    if side.Long? then entry - bar.low else bar.high - entry
  }

  predicate TouchesStop(p: Position, bar: Bar) {
    if p.side.Long? then bar.low <= p.stopPrice else bar.high >= p.stopPrice
  }

  predicate TouchesTarget(p: Position, bar: Bar) {
    p.targetPrice.Some? &&
    if p.side.Long? then bar.high >= p.targetPrice.value else bar.low <= p.targetPrice.value
  }

  function IntrabarStopAndTarget(cfg: Config, st: EngineState, bar: Bar): EngineState {
    if st.position.None? || st.position.value.stopCancelled then st
    else
      var p := st.position.value;
      if TouchesStop(p, bar) then
        var pathAmbiguous := Favourable(p.side, p.entryPrice, bar) > p.mfePoints;
        var marked := p.(maePoints := Max(p.maePoints, Abs(p.entryPrice - p.stopPrice)));
        ClosePosition(cfg, st.(position := Some(marked)), p.stopPrice, bar.timestamp, Stop,
                      TouchesTarget(p, bar) || pathAmbiguous)
      else if TouchesTarget(p, bar) then
        var marked := p.(mfePoints := Max(p.mfePoints, Abs(p.targetPrice.value - p.entryPrice)));
        ClosePosition(cfg, st.(position := Some(marked)), p.targetPrice.value, bar.timestamp, Target, false)
      else st
  }

  function UpdateExcursions(st: EngineState, bar: Bar): EngineState {
    if st.position.None? then st
    else
      var p := st.position.value;
      st.(position := Some(p.(mfePoints := Max(p.mfePoints, Favourable(p.side, p.entryPrice, bar)),
                              maePoints := Max(p.maePoints, Adverse(p.side, p.entryPrice, bar)))))
  }

  function EffectiveFlatten(cfg: Config, session: Session): int {
    if session.rthClose.None? then 0 else MinInt(cfg.flattenMinutes, session.rthClose.value - 1)
  }

  function BackstopFlatten(cfg: Config, st: EngineState, tick: Tick): EngineState {
    if tick.session.minute < EffectiveFlatten(cfg, tick.session) || tick.session.minute >= 18 * 60 then st
    else FlattenNow(cfg, st, tick.bar, SessionFlatten)
  }

  /** Cancel what is pending and close at the bar's close; also the supervisor's flatten. */
  function FlattenNow(cfg: Config, st: EngineState, bar: Bar, reason: Reason): EngineState {
    ClosePosition(cfg, CancelPendings(st, bar.timestamp, reason), bar.close, bar.timestamp, reason, false)
  }

  function Unrealized(pointValue: real, p: Option<Position>, mark: real): real {
    if p.None? then 0.0
    else (mark - p.value.entryPrice) * Direction(p.value.side) * pointValue * p.value.quantity as real
  }

  function SessionPnl(cfg: Config, st: EngineState, bar: Bar): real {
    st.cumulativeNetPnl - st.sessionStartPnl + Unrealized(cfg.pointValue, st.position, bar.close)
  }

  predicate LossBreached(pnl: real, limit: Option<real>) {
    limit.Some? && pnl <= -limit.value
  }

  function CheckDailyLoss(cfg: Config, st: EngineState, bar: Bar): EngineState {
    var pnl := SessionPnl(cfg, st, bar);
    if st.dailyLimitHit || !LossBreached(pnl, cfg.dailyLossLimit) then st
    else
      var hit := Log(st.(dailyLimitHit := true),
                     TransitionRecord(bar.timestamp, DailyLimitHit(pnl, cfg.dailyLossLimit.value)));
      if st.position.None? then hit
      else
        hit.(position := Some(st.position.value.(stopCancelled := true)),
             pendingExit := if st.pendingExit.None? then Some(PendingExit(DailyLimit, bar.timestamp))
                            else Some(st.pendingExit.value.(reason := DailyLimit)))
  }

  /** What the bar's open settles. */
  function AtOpen(cfg: Config, st: EngineState, tick: Tick): EngineState {
    var rolled := FlattenIfSessionChanged(cfg, st, tick.session);
    var gapped := OpenGapStop(cfg, rolled, tick.bar);
    var entered := ProcessPendingEntry(cfg, gapped, tick);
    ProcessPendingExit(cfg, entered, tick.bar)
  }

  /** What the rest of the bar settles, up to the session backstop. */
  function DuringBar(cfg: Config, st: EngineState, tick: Tick): EngineState {
    var stopped := IntrabarStopAndTarget(cfg, st, tick.bar);
    BackstopFlatten(cfg, UpdateExcursions(stopped, tick.bar), tick)
  }

  /** The engine just before the daily-loss check, whose session P&L is the step's result. */
  function BeforeLossCheck(cfg: Config, st: EngineState, tick: Tick): EngineState {
    DuringBar(cfg, AtOpen(cfg, st, tick), tick)
  }

  function PreStrategy(cfg: Config, st: EngineState, tick: Tick): EngineState {
    CheckDailyLoss(cfg, BeforeLossCheck(cfg, st, tick), tick.bar)
  }

  function PreStrategyPnl(cfg: Config, st: EngineState, tick: Tick): real {
    SessionPnl(cfg, BeforeLossCheck(cfg, st, tick), tick.bar)
  }

  // ---- The strategy's result ----

  function LogVetoes(st: EngineState, vetoes: seq<RiskVeto>): EngineState
    decreases |vetoes|
  {
    if |vetoes| == 0 then st
    else
      var v := vetoes[|vetoes| - 1];
      Log(LogVetoes(st, vetoes[..|vetoes| - 1]), VetoRecord(v.timestamp, v))
  }

  /** Stop updates are logged for audit and never applied. */
  function LogStopUpdates(st: EngineState, updates: seq<StopUpdate>): EngineState
    decreases |updates|
  {
    if |updates| == 0 then st
    else
      var u := updates[|updates| - 1];
      Log(LogStopUpdates(st, updates[..|updates| - 1]),
          StopRecord(u.timestamp, u.symbol, u.stopPrice, u.reason, false))
  }

  function LogSignal(st: EngineState, signal: Option<SignalDecision>): EngineState {
    if signal.None? then st
    else
      var decided := Log(st, SignalRecord(signal.value.timestamp, signal.value));
      if signal.value.decision.Rejected? then
        Log(decided, RejectionRecord(signal.value.timestamp, signal.value))
      else decided
  }

  function ApplyExit(cfg: Config, st: EngineState, bar: Bar, exit: ExitDecision): EngineState {
    if st.position.None? then st
    else
      var logged := Log(st, ExitRecord(exit.timestamp, exit));
      if cfg.fillTiming.SignalBarClose? then
        ClosePosition(cfg, logged, bar.close, bar.timestamp, exit.reason, false)
      else if st.pendingExit.None? then
        logged.(pendingExit := Some(PendingExit(exit.reason, exit.timestamp)))
      else logged
  }

  function ApplyExits(cfg: Config, st: EngineState, bar: Bar, exits: seq<ExitDecision>): EngineState
    decreases |exits|
  {
    if |exits| == 0 then st
    else ApplyExit(cfg, ApplyExits(cfg, st, bar, exits[..|exits| - 1]), bar, exits[|exits| - 1])
  }

  function ReferencePrice(st: EngineState, intent: OrderIntent): Option<real> {
    if intent.metadata.signalPrice.Some? then intent.metadata.signalPrice
    else if st.previous.Some? then Some(st.previous.value.bar.close)
    else None
  }

  function Limits(cfg: Config): RiskManager.RiskLimits {
    RiskManager.RiskLimits(cfg.maxContracts, cfg.flattenMinutes, cfg.rthEntriesOnly)
  }

  predicate HasOpenOrder(st: EngineState) {
    st.position.Some? || st.pendingEntry.Some? || st.pendingExit.Some?
  }

  function VetoOf(cfg: Config, st: EngineState, session: Session, intent: OrderIntent): (veto: Option<VetoReason>)
    ensures veto.None? ==>
      !HasOpenOrder(st) && !st.dailyLimitHit && intent.metadata.stopPrice.Some? && !intent.side.Unknown?
  {
    RiskManager.VetoFor(Limits(cfg), HasOpenOrder(st), st.dailyLimitHit, session, intent, ReferencePrice(st, intent))
  }

  function ApplyIntent(cfg: Config, st: EngineState, tick: Tick, intent: OrderIntent): EngineState {
    var veto := VetoOf(cfg, st, tick.session, intent);
    if veto.Some? then
      Log(st, IntentVetoRecord(intent.timestamp, intent, veto.value))
    else
      var logged := Log(st, IntentRecord(intent.timestamp, intent));
      var stop := intent.metadata.stopPrice.value;
      var target := intent.metadata.targetPrice;
      if cfg.fillTiming.NextBarOpen? then
        logged.(pendingEntry := Some(PendingEntry(intent, stop, target, cfg.entryDelayBars)))
      else
        OpenPosition(cfg, logged, intent, stop, target, tick.bar.close, tick.bar.timestamp, tick.session)
  }

  function ApplyIntents(cfg: Config, st: EngineState, tick: Tick, intents: seq<OrderIntent>): EngineState
    decreases |intents|
  {
    if |intents| == 0 then st
    else ApplyIntent(cfg, ApplyIntents(cfg, st, tick, intents[..|intents| - 1]), tick, intents[|intents| - 1])
  }

  function LogResult(st: EngineState, result: StrategyResult): EngineState {
    LogStopUpdates(LogVetoes(LogSignal(st, result.signal), result.riskVetoes), result.stopUpdates)
  }

  function ApplyResult(cfg: Config, st: EngineState, tick: Tick, result: StrategyResult): EngineState {
    var logged := LogResult(st, result);
    var exited := ApplyExits(cfg, logged, tick.bar, result.exits);
    ApplyIntents(cfg, exited, tick, result.orderIntents)
  }

  function NoteProcessed(st: EngineState, tick: Tick): EngineState {
    st.(previous := Some(tick))
  }

  function ClearFeedback(st: EngineState): EngineState {
    st.(feedback := [])
  }

  function CloseEndOfData(cfg: Config, st: EngineState): EngineState {
    if st.previous.None? then st
    else
      var last := st.previous.value.bar;
      var cancelled :=
        if st.pendingEntry.None? then st
        else Log(st, TransitionRecord(last.timestamp, PendingOrdersCancelled(EndOfData))).(pendingEntry := None);
      ClosePosition(cfg, cancelled, last.close, last.timestamp, EndOfData, false)
  }
}
