/** The account-level guard: it recomputes the session's P&L from the broker's own reports. */
module Supervisor {
  import opened Prelude
  import opened Market

  datatype BrokerPosition = BrokerPosition(side: PositionSide, quantity: int, entryPrice: real)

  datatype SupervisorConfig = SupervisorConfig(
    pointValue: real,
    dailyLossStop: Option<real>,
    maxPositionContracts: Option<int>)

  /** The net P&L of the trades entered in one session. */
  function RealizedOn(trades: seq<Trade>, date: int): real
    decreases |trades|
  {
    if |trades| == 0 then 0.0
    else
      var last := trades[|trades| - 1];
      RealizedOn(trades[..|trades| - 1], date) + if last.sessionDate == date then last.netPnl else 0.0
  }

  function MarkToMarket(pointValue: real, position: Option<BrokerPosition>, mark: real): real {
    if position.None? then 0.0
    else
      var p := position.value;
      (mark - p.entryPrice) * Direction(p.side) * pointValue * p.quantity as real
  }

  /** The first limit the account violates. `killSwitch` says the switch file is set and exists. */
  function Evaluate(cfg: SupervisorConfig, date: int, bar: Bar, position: Option<BrokerPosition>,
                    trades: seq<Trade>, killSwitch: bool): Option<Reason>
  {
    if killSwitch then Some(KillSwitch)
    else if cfg.maxPositionContracts.Some? && position.Some?
            && position.value.quantity > cfg.maxPositionContracts.value then Some(MaxPosition)
    else if cfg.dailyLossStop.Some?
            && RealizedOn(trades, date) + MarkToMarket(cfg.pointValue, position, bar.close)
               <= -cfg.dailyLossStop.value then Some(SupervisorDailyLoss)
    else None
  }

  /** A breach and the session it happened in. */
  datatype Latch = Latch(reason: Option<Reason>, session: Option<int>)

  const OPEN: Latch := Latch(None, None)

  function Released(latch: Latch, date: int): Latch {
    if latch.session.Some? && latch.session.value != date then OPEN else latch
  }

  function Marked(cfg: SupervisorConfig, latch: Latch, date: int, bar: Bar, position: Option<BrokerPosition>,
                  trades: seq<Trade>, killSwitch: bool): Latch
  {
    var released := Released(latch, date);
    var breach := Evaluate(cfg, date, bar, position, trades, killSwitch);
    if released.reason.Some? || breach.None? then released else Latch(breach, Some(date))
  }

  class RiskSupervisor {
    const config: SupervisorConfig
    var breachedReason: Option<Reason>
    var breachedSession: Option<int>

    ghost function State(): Latch
      reads this
    {
      Latch(breachedReason, breachedSession)
    }

    constructor (config: SupervisorConfig)
      ensures this.config == config && State() == OPEN
    {
      this.config := config;
      breachedReason, breachedSession := None, None;
    }

    predicate EntriesAllowed()
      reads this
    {
      breachedReason.None?
    }

    method CheckMark(date: int, bar: Bar, position: Option<BrokerPosition>, trades: seq<Trade>, killSwitch: bool)
      returns (breach: Option<Reason>)
      modifies this
      ensures State() == Marked(config, old(State()), date, bar, position, trades, killSwitch)
      ensures breach == State().reason
    {
      if breachedSession.Some? && breachedSession.value != date {
        breachedReason := None;
        breachedSession := None;
      }
      if breachedReason.Some? {
        return breachedReason;
      }
      breach := Evaluate(config, date, bar, position, trades, killSwitch);
      if breach.Some? {
        breachedReason := breach;
        breachedSession := Some(date);
      }
    }
  }
}
