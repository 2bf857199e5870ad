/** The append-only event ledger shared by the engine and its drivers. */
module Events {
  import opened Market

  datatype VetoReason =
    | InvalidSide | InvalidQuantity | PositionAlreadyOpen | DailyLimitReached | MarketClosed
    | AfterFlatten | OutsideRth | MissingStop | InvalidStop

  datatype Transition =
    | PendingOrdersCancelled(reason: Reason)
    | EntryMissed(symbol: Symbol, side: OrderSide, intentTimestamp: Timestamp, rate: real, seed: int)
    | EntryInvalidated(symbol: Symbol, entrySide: PositionSide, intentTimestamp: Timestamp,
                       rawPrice: real, fillPrice: real, stopPrice: real)
    | DailyLimitHit(sessionPnl: real, limit: real)
    | ExecutionHalt(cause: HaltCause)

  datatype HaltCause = Breach(reason: Reason) | InvariantViolation | DataOutageHalt

  datatype EventRecord =
    | BarRecord(timestamp: Timestamp, bar: Bar)
    | SignalRecord(timestamp: Timestamp, signal: SignalDecision)
    | RejectionRecord(timestamp: Timestamp, signal: SignalDecision)
    | IntentRecord(timestamp: Timestamp, intent: OrderIntent)
    | StopRecord(timestamp: Timestamp, symbol: Symbol, stopPrice: real, reason: string, applied: bool)
    | ExitRecord(timestamp: Timestamp, exit: ExitDecision)
    | VetoRecord(timestamp: Timestamp, veto: RiskVeto)
    | IntentVetoRecord(timestamp: Timestamp, intent: OrderIntent, vetoReason: VetoReason)
    | TransitionRecord(timestamp: Timestamp, transition: Transition)
    | FillRecord(timestamp: Timestamp, fill: Fill)
    | TradeRecord(timestamp: Timestamp, trade: Trade)

  class EventLedger {
    var records: seq<EventRecord>

    constructor ()
      ensures records == []
    {
      records := [];
    }

    method Append(record: EventRecord)
      modifies this
      ensures records == old(records) + [record]
    {
      records := records + [record];
    }
  }
}
