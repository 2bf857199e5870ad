/** The shadow machine agrees with the engine, whatever the ledger records. */
module Shadow {
  import opened Prelude
  import opened Market
  import opened Events
  import opened Supervisor
  import opened OrderStateMachine
  import opened PaperBroker
  import opened MicroSteps

  /** The desk and the machine after everything in the ledger has been drained. */
  function DeskAfter(ledger: seq<EventRecord>): Desk {
    SynthesizeAll(NEW_DESK, ledger).0
  }

  function MachineAfter(ledger: seq<EventRecord>): (Machine, Option<InvariantError>) {
    OnEvents(FLAT, SynthesizeAll(NEW_DESK, ledger).1)
  }

  function Reported(exposure: Option<Exposure>): Option<BrokerPosition> {
    if exposure.None? then None
    else Some(BrokerPosition(exposure.value.side, exposure.value.quantity, exposure.value.entryPrice))
  }

  /** Every id used so far was issued, and the entry id in waiting was not used. */
  predicate Issued(desk: Desk, used: set<OrderId>) {
    && (forall id :: id in used ==> match id
                                    case EntryId(n) => n <= desk.intents
                                    case ExitId(n) => n <= desk.exits)
    && (desk.openEntry.Some? ==> desk.openEntry.value == EntryId(desk.intents) && desk.openEntry.value !in used)
  }

  /**
   * No event raised; the shadow holds the engine's side, quantity and entry price; a waiting entry
   * owns the open id, while an open position has consumed it. A stale id may outlive a cancelled entry.
   */
  predicate Agrees(v: View) {
    var desk, (machine, error) := DeskAfter(v.ledger), MachineAfter(v.ledger);
    && error.None?
    && machine.position == Reported(v.exposure)
    && Issued(desk, machine.used)
    && (v.pending.Some? ==> desk.openEntry.Some? && v.exposure.None?)
    && (v.exposure.Some? ==> desk.openEntry.None?)
  }

  lemma {:induction false} DrainOne(ledger: seq<EventRecord>, record: EventRecord)
    ensures
      var (desk, events) := Synthesize(DeskAfter(ledger), record);
      && DeskAfter(ledger + [record]) == desk
      && MachineAfter(ledger + [record]) ==
         if MachineAfter(ledger).1.Some? then MachineAfter(ledger) else OnEvents(MachineAfter(ledger).0, events)
  {
    assert (ledger + [record])[..|ledger|] == ledger;
    OnEventsConcat(FLAT, SynthesizeAll(NEW_DESK, ledger).1, Synthesize(DeskAfter(ledger), record).1);
  }

  lemma {:induction false} OneEvent(m: Machine, e: BrokerEvent)
    ensures OnEvents(m, [e]) == OnEvent(m, e)
    ensures OnEvents(m, []) == (m, None)
  {
    assert [e][..0] == [];
    assert OnEvents(m, [e][..0]) == (m, None);
  }

  lemma {:induction false} DrainQuiet(ledger: seq<EventRecord>, record: EventRecord)
    requires !record.IntentRecord? && !record.FillRecord?
    ensures DeskAfter(ledger + [record]) == DeskAfter(ledger)
    ensures MachineAfter(ledger + [record]) == MachineAfter(ledger)
  {
    DrainOne(ledger, record);
    assert OnEvents(MachineAfter(ledger).0, []) == (MachineAfter(ledger).0, None);
  }

  lemma {:induction false} DrainIntent(ledger: seq<EventRecord>, timestamp: Timestamp, intent: OrderIntent)
    ensures
      var desk := DeskAfter(ledger);
      && DeskAfter(ledger + [IntentRecord(timestamp, intent)])
         == Desk(desk.intents + 1, desk.exits, Some(EntryId(desk.intents + 1)))
      && MachineAfter(ledger + [IntentRecord(timestamp, intent)]) == MachineAfter(ledger)
  {
    DrainOne(ledger, IntentRecord(timestamp, intent));
    OneEvent(MachineAfter(ledger).0, Acked(EntryId(DeskAfter(ledger).intents + 1)));
  }

  lemma {:induction false} DrainFill(ledger: seq<EventRecord>, timestamp: Timestamp, fill: Fill)
    requires MachineAfter(ledger).1.None?
    ensures
      var (desk, events) := Synthesize(DeskAfter(ledger), FillRecord(timestamp, fill));
      && |events| == 1
      && DeskAfter(ledger + [FillRecord(timestamp, fill)]) == desk
      && MachineAfter(ledger + [FillRecord(timestamp, fill)]) == OnEvent(MachineAfter(ledger).0, events[0])
  {
    DrainOne(ledger, FillRecord(timestamp, fill));
    OneEvent(MachineAfter(ledger).0, Synthesize(DeskAfter(ledger), FillRecord(timestamp, fill)).1[0]);
  }

  lemma {:induction false} OpenAgrees(v: View, m: Micro)
    requires Agrees(v) && Enabled(v, m) && m.OpenAt?
    ensures Agrees(Take(v, m))
  {
    hide DeskAfter, MachineAfter;
    DrainFill(v.ledger, m.entry.timestamp, m.entry);
    DrainQuiet(v.ledger + [FillRecord(m.entry.timestamp, m.entry)],
               StopRecord(m.entry.timestamp, m.entry.symbol, m.stop, "initial_stop", true));
  }

  lemma {:induction false} CloseAgrees(v: View, m: Micro)
    requires Agrees(v) && Enabled(v, m) && m.CloseAt?
    ensures Agrees(Take(v, m))
  {
    hide DeskAfter, MachineAfter;
    DrainFill(v.ledger, m.exit.timestamp, m.exit);
    DrainQuiet(v.ledger + [FillRecord(m.exit.timestamp, m.exit)], TradeRecord(m.exit.timestamp, m.trade));
  }

  lemma {:induction false} QuietAgrees(v: View, record: EventRecord, w: View)
    requires Agrees(v) && !record.IntentRecord? && !record.FillRecord?
    requires w.ledger == v.ledger + [record] && w.exposure == v.exposure
    requires w.pending == v.pending || w.pending.None?
    ensures Agrees(w)
  {
    hide DeskAfter, MachineAfter;
    DrainQuiet(v.ledger, record);
  }

  lemma {:induction false} AcceptAgrees(v: View, m: Micro)
    requires Agrees(v) && Enabled(v, m) && m.Accept?
    ensures Agrees(Take(v, m))
  {
    hide DeskAfter, MachineAfter;
    DrainIntent(v.ledger, m.intent.timestamp, m.intent);
  }

  lemma {:induction false} StepAgrees(v: View, m: Micro)
    requires Agrees(v) && Enabled(v, m)
    ensures Agrees(Take(v, m))
  {
    hide Agrees;
    match m
    case LogNeutral(record) => QuietAgrees(v, record, Take(v, m));
    case CancelOrders(timestamp, reason) =>
      QuietAgrees(v, TransitionRecord(timestamp, PendingOrdersCancelled(reason)), Take(v, m));
    case Accept(_) => AcceptAgrees(v, m);
    case Drop(timestamp, t) => QuietAgrees(v, TransitionRecord(timestamp, t), Take(v, m));
    case OpenAt(_, _, _) => OpenAgrees(v, m);
    case CloseAt(_, _) => CloseAgrees(v, m);
  }

  /** Agreement survives any legal sequence of engine steps. */
  lemma {:induction false} StepsAgree(v: View, ms: seq<Micro>)
    requires Agrees(v) && AllEnabled(v, ms)
    ensures Agrees(TakeAll(v, ms))
    decreases |ms|
  {
    if |ms| == 0 {
    } else {
      StepsAgree(v, ms[..|ms| - 1]);
      StepAgrees(TakeAll(v, ms[..|ms| - 1]), ms[|ms| - 1]);
    }
  }
}
