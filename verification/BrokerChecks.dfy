/** What the live loop's checks catch: exactly the reports that do not pair up, and the positions that differ. */
module BrokerChecks {
  import opened Prelude
  import opened Market
  import opened Events
  import opened EngineSpec
  import opened Supervisor
  import opened OrderStateMachine
  import opened PaperBroker
  import opened LiveLoop

  function FillsOf(events: seq<BrokerEvent>): (fills: seq<BrokerEvent>)
    ensures forall i :: 0 <= i < |fills| ==> fills[i].Filled?
    decreases |events|
  {
    if |events| == 0 then []
    else
      var last := events[|events| - 1];
      FillsOf(events[..|events| - 1]) + if last.Filled? then [last] else []
  }

  /** Every second fill closes the one before it: the other side, the whole quantity. */
  predicate PairUp(fills: seq<BrokerEvent>)
    requires forall i :: 0 <= i < |fills| ==> fills[i].Filled?
  {
    forall i :: 0 < i < |fills| && i % 2 == 1 ==> Answers(fills[i - 1], fills[i])
  }

  predicate Answers(entry: BrokerEvent, exit: BrokerEvent)
    requires entry.Filled? && exit.Filled?
  {
    exit.side == (if entry.side.Buy? then Sell else Buy) && exit.quantity == entry.quantity
  }

  predicate DistinctIds(fills: seq<BrokerEvent>)
    requires forall i :: 0 <= i < |fills| ==> fills[i].Filled?
  {
    forall i, j :: 0 <= i < j < |fills| ==> fills[i].orderId != fills[j].orderId
  }

  predicate NonePartial(events: seq<BrokerEvent>) {
    forall i :: 0 <= i < |events| ==> !events[i].PartialFilled?
  }

  /** A broker's reports in good order. */
  predicate Acceptable(events: seq<BrokerEvent>) {
    NonePartial(events) && DistinctIds(FillsOf(events)) && PairUp(FillsOf(events))
  }

  /** What such reports leave open: the last fill, when their number is odd. */
  function LeftOpen(fills: seq<BrokerEvent>): Option<BrokerPosition>
    requires forall i :: 0 <= i < |fills| ==> fills[i].Filled?
  {
    if |fills| % 2 == 0 then None
    else
      var last := fills[|fills| - 1];
      Some(BrokerPosition(if last.side.Buy? then Long else Short, last.quantity, last.price))
  }

  /** What the machine holds after reports it took. */
  predicate Tracks(m: Machine, fills: seq<BrokerEvent>)
    requires forall i :: 0 <= i < |fills| ==> fills[i].Filled?
  {
    && m.position == LeftOpen(fills)
    && (forall id :: id in m.used ==> exists i :: 0 <= i < |fills| && fills[i].orderId == id)
    && (forall i :: 0 <= i < |fills| ==> fills[i].orderId in m.used)
  }

  lemma {:induction false} DistinctNext(m: Machine, fills: seq<BrokerEvent>, e: BrokerEvent)
    requires e.Filled? && forall i :: 0 <= i < |fills| ==> fills[i].Filled?
    requires Tracks(m, fills) && DistinctIds(fills)
    ensures DistinctIds(fills + [e]) <==> e.orderId !in m.used
  {
    var more := fills + [e];
    assert more[|fills|] == e;
    if e.orderId in m.used {
      var i :| 0 <= i < |fills| && fills[i].orderId == e.orderId;
      assert more[i].orderId == more[|fills|].orderId;
    }
  }

  lemma {:induction false} PairNext(fills: seq<BrokerEvent>, e: BrokerEvent)
    requires e.Filled? && forall i :: 0 <= i < |fills| ==> fills[i].Filled?
    requires PairUp(fills)
    ensures PairUp(fills + [e]) <==> |fills| % 2 == 0 || Answers(fills[|fills| - 1], e)
  {
    var more := fills + [e];
    assert more[|fills|] == e;
    assert forall i :: 0 <= i < |fills| ==> more[i] == fills[i];
    if PairUp(more) && |fills| % 2 == 1 {
      assert Answers(more[|fills| - 1], more[|fills|]);
    }
  }

  lemma {:induction false} FillTaken(m: Machine, fills: seq<BrokerEvent>, e: BrokerEvent)
    requires e.Filled? && forall i :: 0 <= i < |fills| ==> fills[i].Filled?
    requires Tracks(m, fills) && DistinctIds(fills) && PairUp(fills)
    ensures
      var (next, error) := OnFill(m, e);
      && (error.None? <==> DistinctIds(fills + [e]) && PairUp(fills + [e]))
      && (error.None? ==> Tracks(next, fills + [e]))
  {
    hide DistinctIds, PairUp;
    DistinctNext(m, fills, e);
    PairNext(fills, e);
    if OnFill(m, e).1.None? {
      TakenIsTracked(m, fills, e);
    }
  }

  lemma {:induction false} TakenIsTracked(m: Machine, fills: seq<BrokerEvent>, e: BrokerEvent)
    requires e.Filled? && forall i :: 0 <= i < |fills| ==> fills[i].Filled?
    requires Tracks(m, fills) && OnFill(m, e).1.None?
    ensures Tracks(OnFill(m, e).0, fills + [e])
  {
    var more, next := fills + [e], OnFill(m, e).0;
    assert more[|fills|] == e;
    forall id | id in next.used
      ensures exists i :: 0 <= i < |more| && more[i].orderId == id
    {
      if id in m.used {
        var i :| 0 <= i < |fills| && fills[i].orderId == id;
        assert more[i].orderId == id;
      }
    }
  }

  /**
   * The shadow takes a sequence of reports if and only if they are in good order: no partial fill, no order filled
   * twice, and every second fill closing the one before it in full; and then it holds what they leave open.
   */
  lemma {:induction false} TakenIffAcceptable(events: seq<BrokerEvent>)
    ensures OnEvents(FLAT, events).1.None? <==> Acceptable(events)
    ensures OnEvents(FLAT, events).1.None? ==> Tracks(OnEvents(FLAT, events).0, FillsOf(events))
    decreases |events|
  {
    hide Tracks, DistinctIds, PairUp, OnFill;
    if |events| == 0 {
      NothingTaken();
    } else {
      var before, last := events[..|events| - 1], events[|events| - 1];
      TakenIffAcceptable(before);
      PartialsRemain(before, last);
      assert events == before + [last];
      if last.Filled? {
        FillsRemain(FillsOf(before), last);
        if Acceptable(before) {
          FillTaken(OnEvents(FLAT, before).0, FillsOf(before), last);
        }
      } else {
        assert FillsOf(before) + [] == FillsOf(before);
      }
    }
  }

  lemma {:induction false} NothingTaken()
    ensures Tracks(FLAT, []) && Acceptable([])
  {
  }

  lemma {:induction false} PartialsRemain(events: seq<BrokerEvent>, e: BrokerEvent)
    ensures NonePartial(events + [e]) <==> NonePartial(events) && !e.PartialFilled?
  {
    var more := events + [e];
    assert more[|events|] == e;
    if NonePartial(more) {
      assert forall i :: 0 <= i < |events| ==> events[i] == more[i];
    }
  }

  /** Reports once out of order stay so. */
  lemma {:induction false} FillsRemain(fills: seq<BrokerEvent>, e: BrokerEvent)
    requires e.Filled? && forall i :: 0 <= i < |fills| ==> fills[i].Filled?
    ensures DistinctIds(fills + [e]) ==> DistinctIds(fills)
    ensures PairUp(fills + [e]) ==> PairUp(fills)
  {
    var more := fills + [e];
    assert forall i :: 0 <= i < |fills| ==> more[i] == fills[i];
    if PairUp(more) {
      forall i | 0 < i < |fills| && i % 2 == 1
        ensures Answers(fills[i - 1], fills[i])
      {
        assert Answers(more[i - 1], more[i]);
      }
    }
  }

  /** Both flat, or both open on one side for one quantity. */
  predicate SamePosition(shadow: Option<BrokerPosition>, held: Option<Position>) {
    match shadow
    case None => held.None?
    case Some(s) => held.Some? && held.value.side == s.side && held.value.quantity == s.quantity
  }

  /**
   * What a synchronisation lets pass: whatever ledger and position an engine has, the loop that starts on it goes
   * on if and only if the broker's reports are in good order and leave open what the engine holds.
   */
  lemma {:induction false} WhatTheChecksCatch<S>(strategy: Strategy<S>, s0: S, engine: EngineState)
    ensures
      var events := SynthesizeAll(NEW_DESK, engine.ledger).1;
      Synchronize(strategy, Start(s0).(engine := engine)).Running?
      <==> Acceptable(events) && SamePosition(LeftOpen(FillsOf(events)), engine.position)
  {
    hide SynthesizeAll, OnEvents, Dispatch, Acceptable;
    assert Tail(engine.ledger, 0) == engine.ledger;
    TakenIffAcceptable(SynthesizeAll(NEW_DESK, engine.ledger).1);
  }

  // ---- What the broker reports ----

  /** The orders acknowledged, in order. */
  function AckedIds(events: seq<BrokerEvent>): seq<OrderId>
    decreases |events|
  {
    if |events| == 0 then []
    else
      var last := events[|events| - 1];
      AckedIds(events[..|events| - 1]) + if last.Acked? then [last.orderId] else []
  }

  function IntentsIn(ledger: seq<EventRecord>): nat
    decreases |ledger|
  {
    if |ledger| == 0 then 0
    else IntentsIn(ledger[..|ledger| - 1]) + if ledger[|ledger| - 1].IntentRecord? then 1 else 0
  }

  function FillRecordsIn(ledger: seq<EventRecord>): (fills: seq<EventRecord>)
    ensures forall i :: 0 <= i < |fills| ==> fills[i].FillRecord?
    decreases |ledger|
  {
    if |ledger| == 0 then []
    else
      var last := ledger[|ledger| - 1];
      FillRecordsIn(ledger[..|ledger| - 1]) + if last.FillRecord? then [last] else []
  }

  /** The report is of that fill. */
  predicate ReportOf(e: BrokerEvent, record: EventRecord)
    requires e.Filled? && record.FillRecord?
  {
    && e.side == record.fill.side && e.quantity == record.fill.quantity && e.price == record.fill.price
    && e.reason == record.fill.reason && e.timestamp == record.timestamp
  }

  /** Reports and ledger agree, and the desk has counted the intents. */
  predicate Matches(ledger: seq<EventRecord>, desk: Desk, events: seq<BrokerEvent>) {
    && desk.intents == IntentsIn(ledger) && |AckedIds(events)| == IntentsIn(ledger)
    && (forall i :: 0 <= i < |AckedIds(events)| ==> AckedIds(events)[i] == EntryId(i + 1))
    && |FillsOf(events)| == |FillRecordsIn(ledger)|
    && (forall i :: 0 <= i < |FillsOf(events)| ==> ReportOf(FillsOf(events)[i], FillRecordsIn(ledger)[i]))
  }

  lemma {:induction false} OneMoreReport(events: seq<BrokerEvent>, e: BrokerEvent)
    ensures AckedIds(events + [e]) == AckedIds(events) + if e.Acked? then [e.orderId] else []
    ensures FillsOf(events + [e]) == FillsOf(events) + if e.Filled? then [e] else []
  {
    assert (events + [e])[..|events|] == events;
  }

  lemma {:induction false} LedgerNext(ledger: seq<EventRecord>, record: EventRecord)
    ensures IntentsIn(ledger + [record]) == IntentsIn(ledger) + if record.IntentRecord? then 1 else 0
    ensures FillRecordsIn(ledger + [record]) == FillRecordsIn(ledger) + if record.FillRecord? then [record] else []
  {
    assert (ledger + [record])[..|ledger|] == ledger;
  }

  lemma {:induction false} IntentMatches(ledger: seq<EventRecord>, record: EventRecord, desk: Desk,
                                         events: seq<BrokerEvent>)
    requires Matches(ledger, desk, events) && record.IntentRecord?
    ensures
      var (after, more) := Synthesize(desk, record);
      Matches(ledger + [record], after, events + more)
  {
    hide ReportOf, AckedIds, FillsOf, IntentsIn, FillRecordsIn;
    LedgerNext(ledger, record);
    OneMoreReport(events, Acked(EntryId(desk.intents + 1)));
  }

  lemma {:induction false} FillMatches(ledger: seq<EventRecord>, record: EventRecord, desk: Desk,
                                       events: seq<BrokerEvent>)
    requires Matches(ledger, desk, events) && record.FillRecord?
    ensures
      var (after, more) := Synthesize(desk, record);
      Matches(ledger + [record], after, events + more)
  {
    hide ReportOf, AckedIds, FillsOf, IntentsIn, FillRecordsIn;
    LedgerNext(ledger, record);
    FillIsReported(desk, record);
    var (after, more) := Synthesize(desk, record);
    assert more == [more[0]];
    OneMoreReport(events, more[0]);
  }

  /**
   * What the broker reports of any ledger: every intent acknowledged once, numbered from one, and every fill once,
   * in order, as it was made.
   */
  lemma {:induction false} ReportsAreTheLedgers(ledger: seq<EventRecord>)
    ensures Matches(ledger, SynthesizeAll(NEW_DESK, ledger).0, SynthesizeAll(NEW_DESK, ledger).1)
    decreases |ledger|
  {
    hide Matches;
    if |ledger| == 0 {
      NothingReported();
    } else {
      var before, last := ledger[..|ledger| - 1], ledger[|ledger| - 1];
      ReportsAreTheLedgers(before);
      var (desk, events) := SynthesizeAll(NEW_DESK, before);
      assert ledger == before + [last];
      if last.IntentRecord? {
        IntentMatches(before, last, desk, events);
      } else if last.FillRecord? {
        FillMatches(before, last, desk, events);
      } else {
        assert events + [] == events;
        OtherMatches(before, last, desk, events);
      }
    }
  }

  lemma {:induction false} NothingReported()
    ensures Matches([], NEW_DESK, [])
  {
  }

  lemma {:induction false} OtherMatches(ledger: seq<EventRecord>, record: EventRecord, desk: Desk,
                                        events: seq<BrokerEvent>)
    requires Matches(ledger, desk, events) && !record.IntentRecord? && !record.FillRecord?
    ensures Matches(ledger + [record], desk, events)
  {
    hide ReportOf, AckedIds, FillsOf, IntentsIn, FillRecordsIn;
    LedgerNext(ledger, record);
    assert FillRecordsIn(ledger) + [] == FillRecordsIn(ledger);
  }

  lemma {:induction false} FillIsReported(desk: Desk, record: EventRecord)
    requires record.FillRecord?
    ensures Synthesize(desk, record).0.intents == desk.intents
    ensures |Synthesize(desk, record).1| == 1 && Synthesize(desk, record).1[0].Filled?
    ensures ReportOf(Synthesize(desk, record).1[0], record)
  {
  }
}
