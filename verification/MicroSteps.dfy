/**
 * The grammar of a run: whatever the strategy and the supervisor do, every ledger an engine
 * writes is produced by six kinds of step, each taken only where its guard allows.
 */
module MicroSteps {
  import opened Prelude
  import opened Market
  import opened Events
  import opened EngineSpec
  import opened EngineInvariants

  /** An open position without its moving parts. */
  datatype Exposure = Exposure(
    symbol: Symbol, side: PositionSide, quantity: int, entryTimestamp: Timestamp,
    entryPrice: real, stopPrice: real, sessionDate: int)

  /** What a reader of the ledger can hope to reconstruct. */
  datatype View = View(
    ledger: seq<EventRecord>,
    trades: seq<Trade>,
    filled: seq<OrderIntent>,
    exposure: Option<Exposure>,
    pending: Option<OrderIntent>)

  const EMPTY_VIEW: View := View([], [], [], None, None)

  function ExposureOf(p: Option<Position>): Option<Exposure> {
    if p.None? then None
    else
      var q := p.value;
      Some(Exposure(q.symbol, q.side, q.quantity, q.entryTimestamp, q.entryPrice, q.stopPrice, q.sessionDate))
  }

  function ViewOf(st: EngineState): View {
    View(st.ledger, st.trades, st.filledIntents, ExposureOf(st.position),
         if st.pendingEntry.None? then None else Some(st.pendingEntry.value.intent))
  }

  datatype Micro =
    | LogNeutral(record: EventRecord)
    | CancelOrders(timestamp: Timestamp, reason: Reason)
    | Accept(intent: OrderIntent)
    | Drop(timestamp: Timestamp, transition: Transition)
    | OpenAt(entry: Fill, stop: real, date: int)
    | CloseAt(exit: Fill, trade: Trade)

  /** Records that say nothing about orders or positions. */
  predicate Neutral(record: EventRecord) {
    match record
    case IntentRecord(_, _) => false
    case FillRecord(_, _) => false
    case TradeRecord(_, _) => false
    case StopRecord(_, _, _, _, applied) => !applied
    case TransitionRecord(_, t) => t.DailyLimitHit? || t.ExecutionHalt?
    case _ => true
  }

  predicate Enabled(v: View, m: Micro) {
    match m
    case LogNeutral(record) => Neutral(record)
    case CancelOrders(_, _) => true
    case Accept(intent) =>
      v.pending.None? && v.exposure.None? && !intent.side.Unknown? && intent.metadata.stopPrice.Some?
    case Drop(_, t) =>
      && v.pending.Some?
      && (t.EntryMissed? || t.EntryInvalidated?)
      && t.intentTimestamp == v.pending.value.timestamp
    case OpenAt(entry, stop, _) =>
      && v.pending.Some? && v.exposure.None?
      && entry.symbol == v.pending.value.symbol
      && entry.side == v.pending.value.side && !entry.side.Unknown?
      && entry.quantity == v.pending.value.quantity
      && entry.reason == v.pending.value.reason
      && v.pending.value.metadata.stopPrice == Some(stop)
      && StopProtects(SideOfEntry(entry.side), stop, entry.price)
    case CloseAt(exit, trade) =>
      && v.exposure.Some?
      && exit.side == ClosingSide(v.exposure.value.side)
      && exit.quantity == v.exposure.value.quantity
      && trade.symbol == v.exposure.value.symbol
      && trade.side == v.exposure.value.side
      && trade.quantity == v.exposure.value.quantity
      && trade.entryTimestamp == v.exposure.value.entryTimestamp
      && trade.entryPrice == v.exposure.value.entryPrice
      && trade.stopPrice == v.exposure.value.stopPrice
      && trade.sessionDate == v.exposure.value.sessionDate
      && trade.exitReason == exit.reason
  }

  function Take(v: View, m: Micro): View {
    match m
    case LogNeutral(record) => v.(ledger := v.ledger + [record])
    case CancelOrders(timestamp, reason) =>
      v.(ledger := v.ledger + [TransitionRecord(timestamp, PendingOrdersCancelled(reason))], pending := None)
    case Accept(intent) =>
      v.(ledger := v.ledger + [IntentRecord(intent.timestamp, intent)], pending := Some(intent))
    case Drop(timestamp, t) => v.(ledger := v.ledger + [TransitionRecord(timestamp, t)], pending := None)
    case OpenAt(entry, stop, date) =>
      var exposure := Exposure(entry.symbol, SideOfEntry(entry.side), entry.quantity, entry.timestamp,
                               entry.price, stop, date);
      v.(ledger := v.ledger + [FillRecord(entry.timestamp, entry)]
                   + [StopRecord(entry.timestamp, entry.symbol, stop, "initial_stop", true)],
         filled := v.filled + (if v.pending.Some? then [v.pending.value] else []),
         exposure := Some(exposure),
         pending := None)
    case CloseAt(exit, trade) =>
      v.(ledger := v.ledger + [FillRecord(exit.timestamp, exit)] + [TradeRecord(exit.timestamp, trade)],
         trades := v.trades + [trade],
         exposure := None)
  }

  function TakeAll(v: View, ms: seq<Micro>): View
    decreases |ms|
  {
    if |ms| == 0 then v else Take(TakeAll(v, ms[..|ms| - 1]), ms[|ms| - 1])
  }

  predicate AllEnabled(v: View, ms: seq<Micro>)
    decreases |ms|
  {
    |ms| > 0 ==>
      AllEnabled(v, ms[..|ms| - 1]) && Enabled(TakeAll(v, ms[..|ms| - 1]), ms[|ms| - 1])
  }

  /** `ms` is a legal way from `v` to `w`. */
  predicate Leads(v: View, ms: seq<Micro>, w: View) {
    AllEnabled(v, ms) && TakeAll(v, ms) == w
  }

  lemma {:induction false} One(v: View, m: Micro)
    requires Enabled(v, m)
    ensures Leads(v, [m], Take(v, m))
  {
    assert [m][..0] == [];
    assert TakeAll(v, []) == v;
  }

  lemma {:induction false} Then(u: View, ms: seq<Micro>, v: View, ns: seq<Micro>, w: View)
    requires Leads(u, ms, v) && Leads(v, ns, w)
    ensures Leads(u, ms + ns, w)
    decreases |ns|
  {
    if |ns| == 0 {
      assert ms + ns == ms;
    } else {
      var shorter := ns[..|ns| - 1];
      Then(u, ms, v, shorter, TakeAll(v, shorter));
      assert (ms + ns)[..|ms + ns| - 1] == ms + shorter;
    }
  }

  // ---- Every engine operation is such a sequence ----

  lemma {:induction false} CloseMicros(cfg: Config, st: EngineState, raw: real, timestamp: Timestamp,
                                       reason: Reason, ambiguous: bool) returns (ms: seq<Micro>)
    requires Slots(st)
    ensures Leads(ViewOf(st), ms, ViewOf(ClosePosition(cfg, st, raw, timestamp, reason, ambiguous)))
  {
    if st.position.None? {
      return [];
    }
    var fill := ExitFill(cfg, st.position.value, raw, timestamp, reason, ambiguous);
    var m := CloseAt(fill, ClosedTrade(cfg, st.position.value, fill));
    One(ViewOf(st), m);
    return [m];
  }

  lemma {:induction false} CancelMicros(st: EngineState, timestamp: Timestamp, reason: Reason) returns (ms: seq<Micro>)
    ensures Leads(ViewOf(st), ms, ViewOf(CancelPendings(st, timestamp, reason)))
  {
    if st.pendingEntry.None? && st.pendingExit.None? {
      return [];
    }
    One(ViewOf(st), CancelOrders(timestamp, reason));
    return [CancelOrders(timestamp, reason)];
  }

  lemma {:induction false} LogMicros(st: EngineState, record: EventRecord) returns (ms: seq<Micro>)
    requires Neutral(record)
    ensures Leads(ViewOf(st), ms, ViewOf(Log(st, record)))
  {
    One(ViewOf(st), LogNeutral(record));
    return [LogNeutral(record)];
  }

  lemma {:induction false} FlattenMicros(cfg: Config, st: EngineState, bar: Bar,
                                         reason: Reason) returns (ms: seq<Micro>)
    requires Slots(st)
    ensures Leads(ViewOf(st), ms, ViewOf(FlattenNow(cfg, st, bar, reason)))
  {
    var cancelled := CancelPendings(st, bar.timestamp, reason);
    var first := CancelMicros(st, bar.timestamp, reason);
    var second := CloseMicros(cfg, cancelled, bar.close, bar.timestamp, reason, false);
    hide ClosePosition, CancelPendings;
    Then(ViewOf(st), first, ViewOf(cancelled), second, ViewOf(FlattenNow(cfg, st, bar, reason)));
    return first + second;
  }

  lemma {:induction false} SessionChangeMicros(cfg: Config, st: EngineState, session: Session) returns (ms: seq<Micro>)
    requires Slots(st)
    ensures Leads(ViewOf(st), ms, ViewOf(FlattenIfSessionChanged(cfg, st, session)))
  {
    if st.previous.None? || session.date == st.previous.value.session.date {
      return [];
    }
    var last := st.previous.value.bar;
    ms := FlattenMicros(cfg, st, last, SessionEnd);
    assert ViewOf(FlattenNow(cfg, st, last, SessionEnd)) == ViewOf(FlattenIfSessionChanged(cfg, st, session));
  }

  /** The entry in `st` is filled or invalidated at the given raw price. */
  lemma {:induction false} OpenMicros(cfg: Config, st: EngineState, intent: OrderIntent, stop: real,
                                      target: Option<real>,
                                      raw: real, timestamp: Timestamp, session: Session, v: View)
    returns (ms: seq<Micro>)
    requires st.position.None? && st.pendingEntry.None?
    requires !intent.side.Unknown? && intent.metadata.stopPrice == Some(stop)
    requires v == ViewOf(st).(pending := Some(intent))
    ensures Leads(v, ms, ViewOf(OpenPosition(cfg, st, intent, stop, target, raw, timestamp, session)))
  {
    var side := SideOfEntry(intent.side);
    var fill := EntryFill(cfg, intent, raw, timestamp, session);
    var m := if StopProtects(side, stop, fill.price) then OpenAt(fill, stop, session.date)
             else Drop(timestamp, EntryInvalidated(intent.symbol, side, intent.timestamp, raw, fill.price, stop));
    One(v, m);
    return [m];
  }

  lemma {:induction false} PendingEntryMicros(cfg: Config, st: EngineState, tick: Tick) returns (ms: seq<Micro>)
    requires Inv(cfg, st)
    ensures Leads(ViewOf(st), ms, ViewOf(ProcessPendingEntry(cfg, st, tick)))
  {
    if st.pendingEntry.None? || st.pendingEntry.value.remainingDelayBars > 0 {
      return [];
    }
    var pending := st.pendingEntry.value;
    var taken := st.(pendingEntry := None);
    if EntrySelected(cfg, pending.intent) {
      ms := OpenMicros(cfg, taken, pending.intent, pending.stopPrice, pending.targetPrice,
                       tick.bar.open, tick.bar.timestamp, tick.session, ViewOf(st));
    } else {
      var m := Drop(tick.bar.timestamp,
                    EntryMissed(pending.intent.symbol, pending.intent.side, pending.intent.timestamp,
                                cfg.entryFillRate, cfg.entryFillSeed));
      One(ViewOf(st), m);
      return [m];
    }
  }

  lemma {:induction false} OpenGapMicros(cfg: Config, st: EngineState, bar: Bar) returns (ms: seq<Micro>)
    requires Slots(st)
    ensures Leads(ViewOf(st), ms, ViewOf(OpenGapStop(cfg, st, bar)))
  {
    hide ClosePosition, AllEnabled, TakeAll;
    if st.position.Some? && !st.position.value.stopCancelled && OpensThroughStop(st.position.value, bar) {
      assert ViewOf(st.(pendingExit := None)) == ViewOf(st);
      ms := CloseMicros(cfg, st.(pendingExit := None), bar.open, bar.timestamp, StopGap, false);
    } else {
      ms := Nothing(ViewOf(st));
    }
  }

  lemma {:induction false} Nothing(v: View) returns (ms: seq<Micro>)
    ensures ms == [] && Leads(v, ms, v)
  {
    ms := [];
  }

  lemma {:induction false} PendingExitMicros(cfg: Config, st: EngineState, bar: Bar) returns (ms: seq<Micro>)
    requires Slots(st)
    ensures Leads(ViewOf(st), ms, ViewOf(ProcessPendingExit(cfg, st, bar)))
  {
    hide ClosePosition, AllEnabled, TakeAll;
    assert ViewOf(st.(pendingExit := None)) == ViewOf(st);
    if st.pendingExit.Some? && st.position.Some? {
      ms := CloseMicros(cfg, st.(pendingExit := None), bar.open, bar.timestamp, st.pendingExit.value.reason, false);
    } else {
      ms := Nothing(ViewOf(st));
    }
  }

  lemma {:induction false} AtOpenMicros(cfg: Config, st: EngineState, tick: Tick) returns (ms: seq<Micro>)
    requires Inv(cfg, st)
    ensures Leads(ViewOf(st), ms, ViewOf(AtOpen(cfg, st, tick)))
  {
    hide FlattenIfSessionChanged, OpenGapStop, ProcessPendingEntry, ProcessPendingExit, Leads, Inv;
    assert Slots(st) by { InvSlots(cfg, st); }
    var rolled := FlattenIfSessionChanged(cfg, st, tick.session);
    var a := SessionChangeMicros(cfg, st, tick.session);
    SessionChangeKeeps(cfg, st, tick.session);
    InvSlots(cfg, rolled);
    var gapped := OpenGapStop(cfg, rolled, tick.bar);
    var b := OpenGapMicros(cfg, rolled, tick.bar);
    GapStopKeeps(cfg, rolled, tick.bar);
    var entered := ProcessPendingEntry(cfg, gapped, tick);
    var c := PendingEntryMicros(cfg, gapped, tick);
    PendingEntryKeeps(cfg, gapped, tick);
    InvSlots(cfg, entered);
    var exited := ProcessPendingExit(cfg, entered, tick.bar);
    var d := PendingExitMicros(cfg, entered, tick.bar);
    Then(ViewOf(st), a, ViewOf(rolled), b, ViewOf(gapped));
    Then(ViewOf(st), a + b, ViewOf(gapped), c, ViewOf(entered));
    Then(ViewOf(st), a + b + c, ViewOf(entered), d, ViewOf(exited));
    return a + b + c + d;
  }

  lemma {:induction false} InvSlots(cfg: Config, st: EngineState)
    requires Inv(cfg, st)
    ensures Slots(st)
  {
  }

  lemma {:induction false} IntrabarMicros(cfg: Config, st: EngineState, bar: Bar) returns (ms: seq<Micro>)
    requires Slots(st)
    ensures Leads(ViewOf(st), ms, ViewOf(IntrabarStopAndTarget(cfg, st, bar)))
  {
    hide ClosePosition, Leads;
    ms := Nothing(ViewOf(st));
    if st.position.Some? && !st.position.value.stopCancelled {
      var p := st.position.value;
      if TouchesStop(p, bar) {
        var marked := st.(position := Some(p.(maePoints := Max(p.maePoints, Abs(p.entryPrice - p.stopPrice)))));
        var ambiguous := TouchesTarget(p, bar) || Favourable(p.side, p.entryPrice, bar) > p.mfePoints;
        assert ViewOf(marked) == ViewOf(st);
        ms := CloseMicros(cfg, marked, p.stopPrice, bar.timestamp, Stop, ambiguous);
      } else if TouchesTarget(p, bar) {
        var price := p.targetPrice.value;
        var marked := st.(position := Some(p.(mfePoints := Max(p.mfePoints, Abs(price - p.entryPrice)))));
        assert ViewOf(marked) == ViewOf(st);
        ms := CloseMicros(cfg, marked, price, bar.timestamp, Target, false);
      }
    }
  }

  lemma {:induction false} DuringBarMicros(cfg: Config, st: EngineState, tick: Tick) returns (ms: seq<Micro>)
    requires Inv(cfg, st) && Live(st)
    ensures Leads(ViewOf(st), ms, ViewOf(DuringBar(cfg, st, tick)))
  {
    hide IntrabarStopAndTarget, Leads, FlattenNow;
    InvSlots(cfg, st);
    var stopped := IntrabarStopAndTarget(cfg, st, tick.bar);
    var first := IntrabarMicros(cfg, st, tick.bar);
    IntrabarKeeps(cfg, st, tick.bar);
    var tracked := UpdateExcursions(stopped, tick.bar);
    assert ViewOf(tracked) == ViewOf(stopped);
    var second := Nothing(ViewOf(tracked));
    if !(tick.session.minute < EffectiveFlatten(cfg, tick.session) || tick.session.minute >= 18 * 60) {
      second := FlattenMicros(cfg, tracked, tick.bar, SessionFlatten);
    }
    Then(ViewOf(st), first, ViewOf(stopped), second, ViewOf(DuringBar(cfg, st, tick)));
    return first + second;
  }

  lemma {:induction false} LossCheckMicros(cfg: Config, st: EngineState, bar: Bar) returns (ms: seq<Micro>)
    ensures Leads(ViewOf(st), ms, ViewOf(CheckDailyLoss(cfg, st, bar)))
  {
    hide Leads;
    var pnl := SessionPnl(cfg, st, bar);
    if st.dailyLimitHit || !LossBreached(pnl, cfg.dailyLossLimit) {
      ms := Nothing(ViewOf(st));
    } else {
      ms := LogMicros(st, TransitionRecord(bar.timestamp, DailyLimitHit(pnl, cfg.dailyLossLimit.value)));
    }
  }

  lemma {:induction false} PreStrategyMicros(cfg: Config, st: EngineState, tick: Tick) returns (ms: seq<Micro>)
    requires Inv(cfg, st)
    ensures Leads(ViewOf(st), ms, ViewOf(PreStrategy(cfg, st, tick)))
  {
    hide AtOpen, DuringBar, CheckDailyLoss, Leads, Inv;
    var started := AtOpen(cfg, st, tick);
    var a := AtOpenMicros(cfg, st, tick);
    AtOpenKeeps(cfg, st, tick);
    var settled := DuringBar(cfg, started, tick);
    var b := DuringBarMicros(cfg, started, tick);
    var c := LossCheckMicros(cfg, settled, tick.bar);
    Then(ViewOf(st), a, ViewOf(started), b, ViewOf(settled));
    Then(ViewOf(st), a + b, ViewOf(settled), c, ViewOf(PreStrategy(cfg, st, tick)));
    return a + b + c;
  }
}
