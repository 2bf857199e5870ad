/** The values the trading core passes around: bars, sessions, intents, fills, trades. */
module Market {
  import opened Prelude

  /** A canonical UTC instant; Blank is the empty stamp a halt carries before the first bar. */
  datatype Timestamp = Blank | At(instant: int)

  type Symbol = string

  datatype Bar = Bar(
    timestamp: Timestamp,
    symbol: Symbol,
    open: real,
    high: real,
    low: real,
    close: real,
    volume: real)

  /** What the exchange calendar says about a bar's timestamp. */
  datatype Session = Session(
    date: int,
    minute: int,
    rthClose: Option<int>,
    isRth: bool,
    isRthOpenWindow: bool)

  /** A bar together with its session classification. */
  datatype Tick = Tick(bar: Bar, session: Session)

  /** The side text of an order; Unknown stands for any text but "buy" and "sell". */
  datatype OrderSide = Buy | Sell | Unknown(name: string)

  datatype PositionSide = Long | Short

  datatype RefSide = High | Low

  datatype RefType = Overnight(RefSide) | PriorRth(RefSide) | OvernightAndPriorRth(RefSide)

  /** What the retest strategy makes of an opening, and why. */
  datatype Regime = AcceptedBreak | RejectedBreak | NoTrade

  datatype ClassReason =
    | IncompleteOpeningObservation | ContinuousContractRoll | IncompleteOvernightCoverage
    | MissingReferenceHistory | IncompleteOpeningCloses | InvalidDailyRangeScale
    | External(level: RefSide, accepted: bool)
    | ConflictingEvidence | NoAcceptedOrRejectedLevel

  /** Reason texts. Other holds any text that is none of the named ones. */
  datatype Reason =
    | SessionEnd | StopGap | Stop | Target | SessionFlatten | DailyLimit | EndOfData | DataOutage
    | KillSwitch | MaxPosition | SupervisorDailyLoss
    | AcceptedBreakRetest | RejectedBreakRetest
    | AcceptedBreakTimeExit | RejectedBreakTimeExit | RetestTimeExit
    | RiskGeometry
    | Other(text: string)

  /** The magnitudes a strategy attaches to a decision; none of them has a direction. */
  datatype Geometry = Geometry(
    riskPoints: real,
    riskDtr: real,
    rewardPoints: Option<real>,
    rewardR: Option<real>,
    dtr20: Option<real>,
    confirmationBars: Option<int>)

  datatype Metadata = Metadata(
    signalPrice: Option<real>,
    stopPrice: Option<real>,
    targetPrice: Option<real>,
    referenceSide: Option<RefSide>,
    referenceType: Option<RefType>,
    referencePrice: Option<real>,
    geometry: Option<Geometry>,
    regime: Option<Regime>,
    why: Option<ClassReason>)

  const NO_METADATA: Metadata := Metadata(None, None, None, None, None, None, None, None, None)

  datatype OrderIntent = OrderIntent(
    timestamp: Timestamp,
    symbol: Symbol,
    side: OrderSide,
    quantity: int,
    reason: Reason,
    metadata: Metadata)

  /** The reasons of the retest strategy's entries. */
  predicate EntryReason(reason: Reason) {
    reason.AcceptedBreakRetest? || reason.RejectedBreakRetest?
  }

  datatype Decision = Accepted | Rejected

  datatype SignalDecision = SignalDecision(
    timestamp: Timestamp,
    symbol: Symbol,
    decision: Decision,
    side: Option<PositionSide>,
    reason: Reason,
    metadata: Metadata)

  datatype RiskVeto = RiskVeto(timestamp: Timestamp, symbol: Symbol, reason: string)

  datatype StopUpdate = StopUpdate(timestamp: Timestamp, symbol: Symbol, stopPrice: real, reason: string)

  datatype ExitDecision = ExitDecision(timestamp: Timestamp, symbol: Symbol, reason: Reason)

  datatype StrategyResult = StrategyResult(
    signal: Option<SignalDecision>,
    orderIntents: seq<OrderIntent>,
    riskVetoes: seq<RiskVeto>,
    stopUpdates: seq<StopUpdate>,
    exits: seq<ExitDecision>)

  const NO_RESULT: StrategyResult := StrategyResult(None, [], [], [], [])

  datatype Fill = Fill(
    timestamp: Timestamp,
    symbol: Symbol,
    side: OrderSide,
    quantity: int,
    price: real,
    reason: Reason,
    ambiguous: bool,
    rawPrice: real,
    slippagePoints: real)

  datatype Trade = Trade(
    symbol: Symbol,
    side: PositionSide,
    quantity: int,
    entryTimestamp: Timestamp,
    entryPrice: real,
    exitTimestamp: Timestamp,
    exitPrice: real,
    exitReason: Reason,
    stopPrice: real,
    grossPoints: real,
    grossPnl: real,
    commission: real,
    netPnl: real,
    mfePoints: real,
    maePoints: real,
    sessionDate: int,
    ambiguousExit: bool)

  /** What a list of trades made. */
  function TotalNet(trades: seq<Trade>): real
    decreases |trades|
  {
    if |trades| == 0 then 0.0 else TotalNet(trades[..|trades| - 1]) + trades[|trades| - 1].netPnl
  }

  /** What the engine reports back to the strategy. */
  datatype Feedback = FillFeedback(fill: Fill) | TradeFeedback(trade: Trade)

  function Direction(side: PositionSide): real {
    if side.Long? then 1.0 else -1.0
  }

  function SideOfEntry(side: OrderSide): PositionSide {
    if side.Buy? then Long else Short
  }

  function ClosingSide(side: PositionSide): OrderSide {
    if side.Long? then Sell else Buy
  }

  /** Any deterministic strategy over private state S; a missing hook is the identity. */
  datatype Strategy<!S> = Strategy(
    onFill: (S, Fill) -> S,
    onTradeClosed: (S, Trade) -> S,
    onContext: (S, real, bool) -> S,
    onBar: (S, Tick) -> (S, StrategyResult))

  function DispatchOne<S>(strategy: Strategy<S>, s: S, item: Feedback): S {
    match item
    case FillFeedback(fill) => strategy.onFill(s, fill)
    case TradeFeedback(trade) => strategy.onTradeClosed(s, trade)
  }

  function Dispatch<S>(strategy: Strategy<S>, s: S, feedback: seq<Feedback>): S
    decreases |feedback|
  {
    if |feedback| == 0 then s
    else DispatchOne(strategy, Dispatch(strategy, s, feedback[..|feedback| - 1]), feedback[|feedback| - 1])
  }
}
