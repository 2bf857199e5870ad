/** The shared veto gate every proposed entry must pass. */
module RiskManager {
  import opened Prelude
  import opened Market
  import opened Events

  datatype RiskLimits = RiskLimits(maxContracts: int, flattenMinutes: int, rthEntriesOnly: bool)

  function CheckQuantity(quantity: int, maxContracts: int): Option<VetoReason> {
    if quantity < 1 || quantity > maxContracts then Some(InvalidQuantity) else None
  }

  function CheckAfterFlatten(session: Session, flattenMinutes: int): Option<VetoReason> {
    match session.rthClose
    case None => Some(MarketClosed)
    case Some(close) =>
      if session.minute >= MinInt(flattenMinutes, close - 1) then Some(AfterFlatten) else None
  }

  function CheckRthWindow(session: Session, rthEntriesOnly: bool): Option<VetoReason> {
    if rthEntriesOnly && !session.isRth then Some(OutsideRth) else None
  }

  /** The stop lies on the losing side of the reference; an absent reference compares false. */
  predicate StopOnWrongSide(intent: OrderIntent, reference: Option<real>)
    requires intent.metadata.stopPrice.Some?
  {
    && reference.Some?
    && (if intent.side.Buy? then intent.metadata.stopPrice.value >= reference.value
        else intent.side.Sell? && intent.metadata.stopPrice.value <= reference.value)
  }

  /** The first failing check, in the gate's fixed order. */
  function VetoFor(limits: RiskLimits, hasOpenOrder: bool, dailyLimitHit: bool,
                   session: Session, intent: OrderIntent, reference: Option<real>): (veto: Option<VetoReason>)
    ensures veto.None? <==>
      && !intent.side.Unknown?
      && 1 <= intent.quantity <= limits.maxContracts
      && !hasOpenOrder
      && !dailyLimitHit
      && session.rthClose.Some?
      && session.minute < limits.flattenMinutes
      && session.minute < session.rthClose.value - 1
      && (limits.rthEntriesOnly ==> session.isRth)
      && intent.metadata.stopPrice.Some?
      && !StopOnWrongSide(intent, reference)
  {
    if intent.side.Unknown? then Some(InvalidSide)
    else
      var quantity := CheckQuantity(intent.quantity, limits.maxContracts);
      if quantity.Some? then quantity
      else if hasOpenOrder then Some(PositionAlreadyOpen)
      else if dailyLimitHit then Some(DailyLimitReached)
      else
        var flatten := CheckAfterFlatten(session, limits.flattenMinutes);
        if flatten.Some? then flatten
        else
          var window := CheckRthWindow(session, limits.rthEntriesOnly);
          if window.Some? then window
          else if intent.metadata.stopPrice.None? then Some(MissingStop)
          else if StopOnWrongSide(intent, reference) then Some(InvalidStop)
          else None
  }

  /** The gate's checks in the order it makes them. */
  const GATE: seq<VetoReason> := [
    InvalidSide, InvalidQuantity, PositionAlreadyOpen, DailyLimitReached, MarketClosed, AfterFlatten, OutsideRth,
    MissingStop, InvalidStop]

  /** What each reason objects to, whatever the other checks say. */
  predicate Objects(reason: VetoReason, limits: RiskLimits, hasOpenOrder: bool, dailyLimitHit: bool,
                    session: Session, intent: OrderIntent, reference: Option<real>) {
    match reason
    case InvalidSide => intent.side.Unknown?
    case InvalidQuantity => !(1 <= intent.quantity <= limits.maxContracts)
    case PositionAlreadyOpen => hasOpenOrder
    case DailyLimitReached => dailyLimitHit
    case MarketClosed => session.rthClose.None?
    case AfterFlatten =>
      session.rthClose.Some?
      && (session.minute >= limits.flattenMinutes || session.minute >= session.rthClose.value - 1)
    case OutsideRth => limits.rthEntriesOnly && !session.isRth
    case MissingStop => intent.metadata.stopPrice.None?
    case InvalidStop => intent.metadata.stopPrice.Some? && StopOnWrongSide(intent, reference)
  }

  /** The reason given is that of the first check, in the gate's order, that objects. */
  lemma {:induction false} FirstObjectionIsGiven(k: nat, limits: RiskLimits, hasOpenOrder: bool, dailyLimitHit: bool,
                                                 session: Session, intent: OrderIntent, reference: Option<real>)
    requires k < |GATE|
    ensures
      VetoFor(limits, hasOpenOrder, dailyLimitHit, session, intent, reference) == Some(GATE[k]) <==>
        && Objects(GATE[k], limits, hasOpenOrder, dailyLimitHit, session, intent, reference)
        && forall j :: 0 <= j < k ==>
             !Objects(GATE[j], limits, hasOpenOrder, dailyLimitHit, session, intent, reference)
  {
    assert GATE[0] == InvalidSide && GATE[1] == InvalidQuantity && GATE[2] == PositionAlreadyOpen;
    assert GATE[3] == DailyLimitReached && GATE[4] == MarketClosed && GATE[5] == AfterFlatten;
    assert GATE[6] == OutsideRth && GATE[7] == MissingStop && GATE[8] == InvalidStop;
  }
}
