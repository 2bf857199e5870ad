/** The order-state shadow: it sees broker events only and raises on anything it cannot explain. */
module OrderStateMachine {
  import opened Prelude
  import opened Market
  import opened Supervisor

  /** Order ids "P1", "P2", ... for entries and "X1", "X2", ... for exits. */
  datatype OrderId = EntryId(n: nat) | ExitId(n: nat)

  datatype BrokerEvent =
    | Acked(orderId: OrderId)
    | Filled(orderId: OrderId, side: OrderSide, quantity: int, price: real, timestamp: Timestamp, reason: Reason)
    | PartialFilled(orderId: OrderId, side: OrderSide, quantity: int, price: real, timestamp: Timestamp, remaining: int)
    | RejectedOrder(orderId: OrderId, why: string)
    | Canceled(orderId: OrderId)

  datatype InvariantError =
    | PartialFill(orderId: OrderId)
    | DuplicateFill(orderId: OrderId)
    | EntryWhileOpen(orderId: OrderId)
    | QuantityMismatch(orderId: OrderId)
    | PositionMismatch

  datatype Machine = Machine(position: Option<BrokerPosition>, used: set<OrderId>)

  const FLAT: Machine := Machine(None, {})

  function OnFill(m: Machine, e: BrokerEvent): (Machine, Option<InvariantError>)
    requires e.Filled?
  {
    if e.orderId in m.used then (m, Some(DuplicateFill(e.orderId)))
    else
      var noted := m.(used := m.used + {e.orderId});
      if m.position.None? then
        (noted.(position := Some(BrokerPosition(SideOfEntry(e.side), e.quantity, e.price))), None)
      else if e.side != ClosingSide(m.position.value.side) then (noted, Some(EntryWhileOpen(e.orderId)))
      else if e.quantity != m.position.value.quantity then (noted, Some(QuantityMismatch(e.orderId)))
      else (noted.(position := None), None)
  }

  function OnEvent(m: Machine, e: BrokerEvent): (Machine, Option<InvariantError>) {
    match e
    case PartialFilled(id, _, _, _, _, _) => (m, Some(PartialFill(id)))
    case Filled(_, _, _, _, _, _) => OnFill(m, e)
    case _ => (m, None)
  }

  /** Events are taken in order until one raises. */
  function OnEvents(m: Machine, events: seq<BrokerEvent>): (Machine, Option<InvariantError>)
    decreases |events|
  {
    if |events| == 0 then (m, None)
    else
      var (before, error) := OnEvents(m, events[..|events| - 1]);
      if error.Some? then (before, error) else OnEvent(before, events[|events| - 1])
  }

  lemma {:induction false} OnEventsConcat(m: Machine, xs: seq<BrokerEvent>, ys: seq<BrokerEvent>)
    ensures OnEvents(m, xs + ys) ==
            if OnEvents(m, xs).1.Some? then OnEvents(m, xs) else OnEvents(OnEvents(m, xs).0, ys)
    decreases |ys|
  {
    if |ys| == 0 {
      assert xs + ys == xs;
    } else {
      assert (xs + ys)[..|xs + ys| - 1] == xs + ys[..|ys| - 1];
      OnEventsConcat(m, xs, ys[..|ys| - 1]);
    }
  }

  /** The ids filled, in order. */
  function FilledIds(events: seq<BrokerEvent>): seq<OrderId>
    decreases |events|
  {
    if |events| == 0 then []
    else
      var last := events[|events| - 1];
      FilledIds(events[..|events| - 1]) + if last.Filled? then [last.orderId] else []
  }

  /** A run of events that does not raise fills no order twice. */
  lemma {:induction false} NoOrderFillsTwice(events: seq<BrokerEvent>)
    requires OnEvents(FLAT, events).1.None?
    ensures forall i, j :: 0 <= i < j < |FilledIds(events)| ==> FilledIds(events)[i] != FilledIds(events)[j]
    ensures OnEvents(FLAT, events).0.used == set id | id in FilledIds(events)
    decreases |events|
  {
    if |events| == 0 {
    } else {
      NoOrderFillsTwice(events[..|events| - 1]);
      var before := FilledIds(events[..|events| - 1]);
      assert forall i :: 0 <= i < |before| ==> before[i] in before;
    }
  }

  class OrderStateMachine {
    var position: Option<BrokerPosition>
    var usedOrderIds: set<OrderId>

    ghost function State(): Machine
      reads this
    {
      Machine(position, usedOrderIds)
    }

    constructor ()
      ensures State() == FLAT
    {
      position, usedOrderIds := None, {};
    }

    method Handle(e: BrokerEvent) returns (error: Option<InvariantError>)
      modifies this
      ensures (State(), error) == OnEvent(old(State()), e)
    {
      match e
      case PartialFilled(id, _, _, _, _, _) => error := Some(PartialFill(id));
      case Filled(_, _, _, _, _, _) => error := HandleFill(e);
      case _ => error := None;
    }

    method HandleFill(e: BrokerEvent) returns (error: Option<InvariantError>)
      requires e.Filled?
      modifies this
      ensures (State(), error) == OnFill(old(State()), e)
    {
      if e.orderId in usedOrderIds {
        return Some(DuplicateFill(e.orderId));
      }
      usedOrderIds := usedOrderIds + {e.orderId};
      if position.None? {
        var side := if e.side.Buy? then Long else Short;
        position := Some(BrokerPosition(side, e.quantity, e.price));
        return None;
      }
      var closingSide := if position.value.side.Long? then Sell else Buy;
      if e.side != closingSide {
        return Some(EntryWhileOpen(e.orderId));
      }
      if e.quantity != position.value.quantity {
        return Some(QuantityMismatch(e.orderId));
      }
      position := None;
      return None;
    }
  }
}
