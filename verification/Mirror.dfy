/** Reflecting the market: every price negated, highs and lows, longs and shorts exchanged. */
module Mirror {
  import opened Prelude
  import opened Market
  import opened Events
  import opened EngineSpec
  import opened EngineRun

  function Neg(p: Option<real>): Option<real> {
    if p.None? then None else Some(-p.value)
  }

  function MirrorBar(b: Bar): Bar {
    b.(open := -b.open, high := -b.low, low := -b.high, close := -b.close)
  }

  function MirrorTick(t: Tick): Tick {
    t.(bar := MirrorBar(t.bar))
  }

  function MirrorSide(s: PositionSide): PositionSide {
    if s.Long? then Short else Long
  }

  function MirrorOrder(s: OrderSide): OrderSide {
    match s
    case Buy => Sell
    case Sell => Buy
    case Unknown(_) => s
  }

  function MirrorRef(s: RefSide): RefSide {
    if s.High? then Low else High
  }

  function MirrorRefType(t: RefType): RefType {
    match t
    case Overnight(s) => Overnight(MirrorRef(s))
    case PriorRth(s) => PriorRth(MirrorRef(s))
    case OvernightAndPriorRth(s) => OvernightAndPriorRth(MirrorRef(s))
  }

  function MirrorWhy(why: ClassReason): ClassReason {
    match why
    case External(level, accepted) => External(MirrorRef(level), accepted)
    case _ => why
  }

  function MirrorMetadata(m: Metadata): Metadata {
    Metadata(Neg(m.signalPrice), Neg(m.stopPrice), Neg(m.targetPrice),
             if m.referenceSide.None? then None else Some(MirrorRef(m.referenceSide.value)),
             if m.referenceType.None? then None else Some(MirrorRefType(m.referenceType.value)),
             Neg(m.referencePrice), m.geometry, m.regime,
             if m.why.None? then None else Some(MirrorWhy(m.why.value)))
  }

  function MirrorIntent(i: OrderIntent): OrderIntent {
    i.(side := MirrorOrder(i.side), metadata := MirrorMetadata(i.metadata))
  }

  function MirrorSideOption(s: Option<PositionSide>): Option<PositionSide> {
    if s.None? then None else Some(MirrorSide(s.value))
  }

  function MirrorSignal(s: SignalDecision): SignalDecision {
    s.(side := MirrorSideOption(s.side), metadata := MirrorMetadata(s.metadata))
  }

  function MirrorUpdate(u: StopUpdate): StopUpdate {
    u.(stopPrice := -u.stopPrice)
  }

  function MirrorFill(f: Fill): Fill {
    f.(side := MirrorOrder(f.side), price := -f.price, rawPrice := -f.rawPrice)
  }

  function MirrorTrade(t: Trade): Trade {
    t.(side := MirrorSide(t.side), entryPrice := -t.entryPrice, exitPrice := -t.exitPrice, stopPrice := -t.stopPrice)
  }

  function MirrorFeedback(f: Feedback): Feedback {
    match f
    case FillFeedback(fill) => FillFeedback(MirrorFill(fill))
    case TradeFeedback(trade) => TradeFeedback(MirrorTrade(trade))
  }

  function MirrorTransition(t: Transition): Transition {
    match t
    case EntryMissed(symbol, side, stamp, rate, seed) => EntryMissed(symbol, MirrorOrder(side), stamp, rate, seed)
    case EntryInvalidated(symbol, side, stamp, raw, fill, stop) =>
      EntryInvalidated(symbol, MirrorSide(side), stamp, -raw, -fill, -stop)
    case _ => t
  }

  function MirrorRecord(r: EventRecord): EventRecord {
    match r
    case BarRecord(t, bar) => BarRecord(t, MirrorBar(bar))
    case SignalRecord(t, signal) => SignalRecord(t, MirrorSignal(signal))
    case RejectionRecord(t, signal) => RejectionRecord(t, MirrorSignal(signal))
    case IntentRecord(t, intent) => IntentRecord(t, MirrorIntent(intent))
    case StopRecord(t, symbol, stop, reason, applied) => StopRecord(t, symbol, -stop, reason, applied)
    case ExitRecord(_, _) => r
    case VetoRecord(_, _) => r
    case IntentVetoRecord(t, intent, why) => IntentVetoRecord(t, MirrorIntent(intent), why)
    case TransitionRecord(t, transition) => TransitionRecord(t, MirrorTransition(transition))
    case FillRecord(t, fill) => FillRecord(t, MirrorFill(fill))
    case TradeRecord(t, trade) => TradeRecord(t, MirrorTrade(trade))
  }

  function Map<A, B>(f: A -> B, s: seq<A>): (t: seq<B>)
    ensures |t| == |s| && forall i :: 0 <= i < |s| ==> t[i] == f(s[i])
  {
    seq(|s|, i requires 0 <= i < |s| => f(s[i]))
  }

  lemma {:induction false} MapAppend<A, B>(f: A -> B, s: seq<A>, x: A)
    ensures Map(f, s + [x]) == Map(f, s) + [f(x)]
  {
  }

  lemma {:induction false} MapInit<A, B>(f: A -> B, s: seq<A>)
    requires |s| > 0
    ensures Map(f, s)[..|s| - 1] == Map(f, s[..|s| - 1])
    ensures Map(f, s)[|s| - 1] == f(s[|s| - 1])
  {
  }

  function MirrorResult(r: StrategyResult): StrategyResult {
    StrategyResult(if r.signal.None? then None else Some(MirrorSignal(r.signal.value)),
                   Map(MirrorIntent, r.orderIntents), r.riskVetoes, Map(MirrorUpdate, r.stopUpdates), r.exits)
  }

  function MirrorPosition(p: Position): Position {
    p.(side := MirrorSide(p.side), entryPrice := -p.entryPrice, stopPrice := -p.stopPrice,
       targetPrice := Neg(p.targetPrice))
  }

  function MirrorPending(p: PendingEntry): PendingEntry {
    p.(intent := MirrorIntent(p.intent), stopPrice := -p.stopPrice, targetPrice := Neg(p.targetPrice))
  }

  function MirrorState(st: EngineState): EngineState {
    EngineState(
      if st.position.None? then None else Some(MirrorPosition(st.position.value)),
      if st.pendingEntry.None? then None else Some(MirrorPending(st.pendingEntry.value)),
      st.pendingExit,
      if st.previous.None? then None else Some(MirrorTick(st.previous.value)),
      Map(MirrorTrade, st.trades),
      st.cumulativeNetPnl,
      st.sessionStartPnl,
      st.dailyLimitHit,
      Map(MirrorFeedback, st.feedback),
      Map(MirrorRecord, st.ledger),
      Map(MirrorIntent, st.filledIntents))
  }

  function MirrorScriptBar(b: ScriptBar): ScriptBar {
    ScriptBar(MirrorTick(b.tick), b.breach, MirrorResult(b.result))
  }

  /** A fill of a proper order; the engine never reports another. */
  predicate SidedFill(fill: Fill) {
    !fill.side.Unknown?
  }

  predicate SidedFeedback(item: Feedback) {
    item.FillFeedback? ==> SidedFill(item.fill)
  }
}
