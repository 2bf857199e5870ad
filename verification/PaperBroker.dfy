/** The paper broker: the shared engine plus broker events synthesised from the ledger's tail. */
module PaperBroker {
  import opened Prelude
  import opened Market
  import opened Events
  import opened EngineSpec
  import opened Supervisor
  import opened OrderStateMachine
  import Engine = PositionEngine

  /** The counters behind the order ids, and the entry id waiting for its fill. */
  datatype Desk = Desk(intents: nat, exits: nat, openEntry: Option<OrderId>)

  const NEW_DESK: Desk := Desk(0, 0, None)

  function Synthesize(desk: Desk, record: EventRecord): (Desk, seq<BrokerEvent>) {
    match record
    case IntentRecord(_, _) =>
      var id := EntryId(desk.intents + 1);
      (desk.(intents := desk.intents + 1, openEntry := Some(id)), [Acked(id)])
    case FillRecord(timestamp, fill) =>
      if desk.openEntry.Some? then
        (desk.(openEntry := None),
         [Filled(desk.openEntry.value, fill.side, fill.quantity, fill.price, timestamp, fill.reason)])
      else
        (desk.(exits := desk.exits + 1),
         [Filled(ExitId(desk.exits + 1), fill.side, fill.quantity, fill.price, timestamp, fill.reason)])
    case _ => (desk, [])
  }

  function SynthesizeAll(desk: Desk, records: seq<EventRecord>): (Desk, seq<BrokerEvent>)
    decreases |records|
  {
    if |records| == 0 then (desk, [])
    else
      var (before, events) := SynthesizeAll(desk, records[..|records| - 1]);
      var (after, more) := Synthesize(before, records[|records| - 1]);
      (after, events + more)
  }

  lemma {:induction false} SynthesizeConcat(desk: Desk, xs: seq<EventRecord>, ys: seq<EventRecord>)
    ensures SynthesizeAll(desk, xs + ys).0 == SynthesizeAll(SynthesizeAll(desk, xs).0, ys).0
    ensures SynthesizeAll(desk, xs + ys).1
            == SynthesizeAll(desk, xs).1 + SynthesizeAll(SynthesizeAll(desk, xs).0, ys).1
    decreases |ys|
  {
    if |ys| == 0 {
      assert xs + ys == xs;
    } else {
      assert (xs + ys)[..|xs + ys| - 1] == xs + ys[..|ys| - 1];
      SynthesizeConcat(desk, xs, ys[..|ys| - 1]);
    }
  }

  /** The records past the cursor; a cursor beyond the end leaves nothing. */
  function Tail(records: seq<EventRecord>, cursor: nat): seq<EventRecord> {
    if cursor <= |records| then records[cursor..] else []
  }

  class PaperBroker {
    const engine: Engine.PositionEngine
    const ledger: EventLedger
    var cursor: nat
    var intentCounter: nat
    var exitCounter: nat
    var openEntryOrderId: Option<OrderId>

    ghost predicate Valid() {
      engine.ledger == ledger
    }

    ghost function DeskState(): Desk
      reads this
    {
      Desk(intentCounter, exitCounter, openEntryOrderId)
    }

    constructor (config: Config, ledger: EventLedger)
      ensures Valid() && fresh(engine) && this.ledger == ledger && engine.config == config
      ensures DeskState() == NEW_DESK && cursor == |ledger.records|
      ensures engine.State() == Initial(ledger.records)
    {
      engine := new Engine.PositionEngine(config, ledger);
      this.ledger := ledger;
      cursor := |ledger.records|;
      intentCounter, exitCounter, openEntryOrderId := 0, 0, None;
    }

    function Position(): Option<BrokerPosition>
      reads engine
    {
      if engine.position.None? then None
      else Some(BrokerPosition(engine.position.value.side, engine.position.value.quantity,
                               engine.position.value.entryPrice))
    }

    method ProcessBarOpen(tick: Tick) returns (sessionPnl: real)
      requires Valid()
      modifies engine, ledger
      ensures engine.State() == PreStrategy(engine.config, old(engine.State()), tick)
      ensures sessionPnl == PreStrategyPnl(engine.config, old(engine.State()), tick)
    {
      sessionPnl := engine.ProcessPreStrategy(tick);
    }

    method ApplyStrategyResult(tick: Tick, result: StrategyResult)
      requires Valid()
      modifies engine, ledger
      ensures engine.State() == ApplyResult(engine.config, old(engine.State()), tick, result)
    {
      engine.ApplyStrategyResult(tick, result);
    }

    method Flatten(bar: Bar, reason: Reason)
      requires Valid()
      modifies engine, ledger
      ensures engine.State() == FlattenNow(engine.config, old(engine.State()), bar, reason)
    {
      engine.Flatten(bar, reason);
    }

    method CloseAtEndOfData()
      requires Valid()
      modifies engine, ledger
      ensures engine.State() == CloseEndOfData(engine.config, old(engine.State()))
    {
      engine.CloseAtEndOfData();
    }

    /** The ledger's tail since the last poll, as broker events. */
    method PollEvents() returns (events: seq<BrokerEvent>)
      requires Valid()
      modifies this
      ensures cursor == |ledger.records|
      ensures (DeskState(), events) == SynthesizeAll(old(DeskState()), Tail(ledger.records, old(cursor)))
    {
      events := [];
      var tail := Tail(ledger.records, cursor);
      for i := 0 to |tail|
        invariant cursor == old(cursor)
        invariant (DeskState(), events) == SynthesizeAll(old(DeskState()), tail[..i])
      {
        assert tail[..i + 1][..i] == tail[..i];
        assert events + [] == events;
        match tail[i]
        case IntentRecord(_, _) =>
          intentCounter := intentCounter + 1;
          openEntryOrderId := Some(EntryId(intentCounter));
          events := events + [Acked(EntryId(intentCounter))];
        case FillRecord(timestamp, fill) =>
          var id;
          if openEntryOrderId.Some? {
            id := openEntryOrderId.value;
            openEntryOrderId := None;
          } else {
            exitCounter := exitCounter + 1;
            id := ExitId(exitCounter);
          }
          events := events + [Filled(id, fill.side, fill.quantity, fill.price, timestamp, fill.reason)];
        case _ =>
      }
      assert tail[..|tail|] == tail;
      cursor := |ledger.records|;
    }
  }
}
