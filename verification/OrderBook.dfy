/**
 * The ledger read as an order book: from the records alone, what waits, what is queued and what is held, and
 * that every record of every run is one this book allows.
 */
module OrderBook {
  import opened Prelude
  import opened Market
  import opened Events
  import opened EngineSpec
  import opened EngineInvariants

  /** An accepted intent and the number of the bar that accepted it. */
  datatype Waiting = Waiting(intent: OrderIntent, since: nat)

  datatype Queued = Queued(reason: Reason, since: nat)

  /** An open position: what was filled, the bars it has come through,
    and whether it was there for all of the latest. */
  datatype Held = Held(intent: OrderIntent, entry: Fill, lived: seq<Bar>, inside: bool)

  /** What the next record has to be. */
  datatype Owed =
    | Nothing
    | Refusal(signal: SignalDecision)
    | Protection(entry: Fill, stop: real)
    | Settlement(exit: Fill, before: Book)

  datatype Book = Book(
    bars: seq<Bar>, held: Option<Held>, waiting: Option<Waiting>,
    queued: Option<Queued>, asked: Option<Reason>, halted: Option<Reason>, owed: Owed)

  const BLANK_BOOK: Book := Book([], None, None, None, None, None, Nothing)

  function Latest(bars: seq<Bar>): Option<Bar> {
    if |bars| == 0 then None else Some(bars[|bars| - 1])
  }

  function Before(bars: seq<Bar>): Option<Bar> {
    if |bars| == 0 then None else Latest(bars[..|bars| - 1])
  }

  /** The bars lived through when the latest has ended. */
  function Lived(b: Book): seq<Bar>
    requires b.held.Some?
  {
    b.held.value.lived + if b.held.value.inside && |b.bars| > 0 then [b.bars[|b.bars| - 1]] else []
  }

  function ReadFill(cfg: Config, b: Book, fill: Fill): Book {
    var c := b.(asked := None, halted := None, owed := Nothing);
    if b.held.Some? then c.(held := None, queued := None, owed := Settlement(fill, b))
    else if b.waiting.Some? then
      var intent := b.waiting.value.intent;
      c.(held := Some(Held(intent, fill, [], cfg.fillTiming.NextBarOpen?)), waiting := None,
         owed := Protection(fill, if intent.metadata.stopPrice.Some? then intent.metadata.stopPrice.value else 0.0))
    else c
  }

  function ReadTransition(b: Book, t: Transition): Book {
    var c := b.(asked := None, halted := None, owed := Nothing);
    match t
    case PendingOrdersCancelled(_) => c.(waiting := None, queued := None, halted := b.halted)
    case EntryMissed(_, _, _, _, _) => c.(waiting := None)
    case EntryInvalidated(_, _, _, _, _, _) => c.(waiting := None)
    case DailyLimitHit(_, _) => if b.held.None? then c else c.(queued := Some(Queued(DailyLimit, |b.bars|)))
    case ExecutionHalt(cause) => if cause.Breach? then c.(halted := Some(cause.reason)) else c
  }

  function Read(cfg: Config, b: Book, record: EventRecord): Book {
    var c := b.(asked := None, halted := None, owed := Nothing);
    match record
    case BarRecord(_, bar) =>
      c.(bars := b.bars + [bar],
         held := if b.held.None? then None else Some(b.held.value.(lived := Lived(b), inside := true)))
    case SignalRecord(_, signal) => if signal.decision.Rejected? then c.(owed := Refusal(signal)) else c
    case IntentRecord(_, intent) => c.(waiting := Some(Waiting(intent, |b.bars|)))
    case FillRecord(_, fill) => ReadFill(cfg, b, fill)
    case ExitRecord(_, exit) =>
      c.(asked := Some(exit.reason),
         queued := if b.queued.None? then Some(Queued(exit.reason, |b.bars|)) else b.queued)
    case TransitionRecord(_, t) => ReadTransition(b, t)
    case _ => c
  }

  function Books(cfg: Config, ledger: seq<EventRecord>): Book
    decreases |ledger|
  {
    if |ledger| == 0 then BLANK_BOOK
    else Read(cfg, Books(cfg, ledger[..|ledger| - 1]), ledger[|ledger| - 1])
  }

  // ---- What the book allows ----

  /** The bar on which a waiting entry is settled: after the delay, or at once. */
  predicate Due(cfg: Config, b: Book) {
    b.waiting.Some? && |b.bars|
      == b.waiting.value.since + if cfg.fillTiming.NextBarOpen? then cfg.entryDelayBars + 1 else 0
  }

  /** Whether the seeded draw lets a waiting entry fill. */
  predicate Drawn(cfg: Config, intent: OrderIntent) {
    || cfg.entryFillRate >= 1.0
    || (cfg.entryFillRate > 0.0
        && cfg.draw(cfg.entryFillSeed, intent.timestamp, intent.symbol, intent.side, intent.quantity)
           < cfg.entryFillRate)
  }

  predicate Settled(cfg: Config, b: Book) {
    Due(cfg, b) && (cfg.fillTiming.NextBarOpen? ==> Drawn(cfg, b.waiting.value.intent))
  }

  predicate FillOf(fill: Fill, intent: OrderIntent) {
    && fill.symbol == intent.symbol && fill.side == intent.side && fill.quantity == intent.quantity
    && fill.reason == intent.reason
  }

  /** The price an intent's stop is held against: the signal's own, or else the close before this bar. */
  function Reference(b: Book, intent: OrderIntent): Option<real> {
    if intent.metadata.signalPrice.Some? then intent.metadata.signalPrice
    else if Before(b.bars).Some? then Some(Before(b.bars).value.close) else None
  }

  /** The stop is there and not on the winning side of that price. */
  predicate StopFits(b: Book, intent: OrderIntent) {
    && intent.metadata.stopPrice.Some?
    && (Reference(b, intent).Some? ==>
          && (intent.side.Buy? ==> intent.metadata.stopPrice.value < Reference(b, intent).value)
          && (intent.side.Sell? ==> intent.metadata.stopPrice.value > Reference(b, intent).value))
  }

  predicate TransitionAllowed(cfg: Config, b: Book, t: Transition) {
    match t
    case PendingOrdersCancelled(_) => b.waiting.Some? || b.queued.Some?
    case EntryMissed(symbol, side, intentTimestamp, rate, seed) =>
      && Due(cfg, b) && cfg.fillTiming.NextBarOpen? && !Drawn(cfg, b.waiting.value.intent)
      && var intent := b.waiting.value.intent;
         && symbol == intent.symbol && side == intent.side && intentTimestamp == intent.timestamp
         && rate == cfg.entryFillRate && seed == cfg.entryFillSeed
    case EntryInvalidated(symbol, side, intentTimestamp, rawPrice, fillPrice, stopPrice) =>
      && Settled(cfg, b) && |b.bars| > 0
      && var intent := b.waiting.value.intent;
         && symbol == intent.symbol && intentTimestamp == intent.timestamp
         && side == (if intent.side.Buy? then Long else Short)
         && intent.metadata.stopPrice == Some(stopPrice)
         && rawPrice == (if cfg.fillTiming.NextBarOpen? then b.bars[|b.bars| - 1].open else b.bars[|b.bars| - 1].close)
         && (if intent.side.Buy? then stopPrice >= fillPrice else stopPrice <= fillPrice)
    case DailyLimitHit(sessionPnl, limit) => cfg.dailyLossLimit == Some(limit) && sessionPnl <= -limit
    case ExecutionHalt(_) => true
  }

  /** The record pays what the one before it owes. */
  predicate Pays(cfg: Config, owed: Owed, record: EventRecord) {
    match owed
    case Nothing => !record.RejectionRecord? && !record.TradeRecord? && (record.StopRecord? ==> !record.applied)
    case Refusal(signal) => record == RejectionRecord(signal.timestamp, signal)
    case Protection(entry, stop) => record == StopRecord(entry.timestamp, entry.symbol, stop, "initial_stop", true)
    case Settlement(exit, before) =>
      && record.TradeRecord? && before.held.Some? && |before.bars| > 0
      && exists how :: ClosedHow(cfg, before, how, exit, record.trade)
  }

  predicate Allowed(cfg: Config, b: Book, record: EventRecord) {
    && Pays(cfg, b.owed, record)
    && match record
       case BarRecord(_, _) =>
         && (b.waiting.Some? ==>
               cfg.fillTiming.NextBarOpen? && |b.bars| <= b.waiting.value.since + cfg.entryDelayBars)
         && (b.queued.Some? ==> b.queued.value.since == |b.bars|)
       case IntentRecord(_, intent) => b.held.None? && b.waiting.None? && b.queued.None? && StopFits(b, intent)
       case IntentVetoRecord(_, intent, reason) =>
         reason.InvalidStop? ==> intent.metadata.stopPrice.Some? && !StopFits(b, intent)
       case ExitRecord(_, _) => b.held.Some?
       case FillRecord(_, fill) => b.held.None? ==> Settled(cfg, b) && FillOf(fill, b.waiting.value.intent)
       case TransitionRecord(_, t) => TransitionAllowed(cfg, b, t)
       case _ => true
  }

  // ---- How a position may be closed ----

  datatype How = OnOpen | OnStop | OnTarget | OnClose

  function Better(a: real, b: real): real {
    if a >= b then a else b
  }

  /** The farthest a list of bars went for the position, and against it, never less than nothing. */
  function Gained(entry: Fill, bars: seq<Bar>): real
    decreases |bars|
  {
    if |bars| == 0 then 0.0
    else
      var last := bars[|bars| - 1];
      Better(Gained(entry, bars[..|bars| - 1]),
             if entry.side.Buy? then last.high - entry.price else entry.price - last.low)
  }

  function Lost(entry: Fill, bars: seq<Bar>): real
    decreases |bars|
  {
    if |bars| == 0 then 0.0
    else
      var last := bars[|bars| - 1];
      Better(Lost(entry, bars[..|bars| - 1]),
             if entry.side.Buy? then entry.price - last.low else last.high - entry.price)
  }

  function Apart(a: real, b: real): real {
    if a >= b then a - b else b - a
  }

  predicate ReachesTarget(h: Held, bar: Bar) {
    && h.intent.metadata.targetPrice.Some?
    && if h.entry.side.Buy? then bar.high >= h.intent.metadata.targetPrice.value
       else bar.low <= h.intent.metadata.targetPrice.value
  }

  /** At the open: a queued exit on the bar after it was queued, a gap through the stop, or a session just over. */
  predicate OpenCause(b: Book, exit: Fill)
    requires b.held.Some? && |b.bars| > 0
  {
    var h, bar := b.held.value, b.bars[|b.bars| - 1];
    || (b.queued.Some? && b.queued.value.reason == exit.reason && b.queued.value.since + 1 == |b.bars|
        && exit.rawPrice == bar.open)
    || (exit.reason.StopGap? && exit.rawPrice == bar.open && h.intent.metadata.stopPrice.Some?
        && if h.entry.side.Buy? then bar.open <= h.intent.metadata.stopPrice.value
           else bar.open >= h.intent.metadata.stopPrice.value)
    || (exit.reason.SessionEnd? && Before(b.bars).Some? && exit.rawPrice == Before(b.bars).value.close)
  }

  /** At the close: the session's flatten, the end of the data, or what was just asked for. */
  predicate CloseCause(cfg: Config, b: Book, exit: Fill)
    requires |b.bars| > 0
  {
    && exit.rawPrice == b.bars[|b.bars| - 1].close
    && (|| exit.reason.SessionFlatten? || exit.reason.EndOfData? || b.halted == Some(exit.reason)
        || (cfg.fillTiming.SignalBarClose? && b.asked == Some(exit.reason)))
  }

  /** Price, cause, excursions and flag of one way to close what is held. */
  predicate ClosedHow(cfg: Config, b: Book, how: How, exit: Fill, trade: Trade)
    requires b.held.Some? && |b.bars| > 0
  {
    var h, bar := b.held.value, b.bars[|b.bars| - 1];
    match how
    case OnOpen =>
      && OpenCause(b, exit) && !exit.ambiguous
      && trade.mfePoints == Gained(h.entry, h.lived) && trade.maePoints == Lost(h.entry, h.lived)
    case OnStop =>
      && exit.reason.Stop? && h.intent.metadata.stopPrice == Some(exit.rawPrice)
      && (if h.entry.side.Buy? then bar.low <= exit.rawPrice else bar.high >= exit.rawPrice)
      && trade.mfePoints == Gained(h.entry, h.lived)
      && trade.maePoints == Better(Lost(h.entry, h.lived), Apart(h.entry.price, exit.rawPrice))
      && (exit.ambiguous <==> ReachesTarget(h, bar) || Gained(h.entry, h.lived + [bar]) > Gained(h.entry, h.lived))
    case OnTarget =>
      && exit.reason.Target? && h.intent.metadata.targetPrice == Some(exit.rawPrice) && ReachesTarget(h, bar)
      && !exit.ambiguous
      && trade.mfePoints == Better(Gained(h.entry, h.lived), Apart(h.entry.price, exit.rawPrice))
      && trade.maePoints == Lost(h.entry, h.lived)
    case OnClose =>
      && CloseCause(cfg, b, exit) && !exit.ambiguous
      && trade.mfePoints == Gained(h.entry, Lived(b)) && trade.maePoints == Lost(h.entry, Lived(b))
  }

  predicate AllAllowed(cfg: Config, ledger: seq<EventRecord>)
    decreases |ledger|
  {
    |ledger| > 0 ==>
      AllAllowed(cfg, ledger[..|ledger| - 1]) && Allowed(cfg, Books(cfg, ledger[..|ledger| - 1]), ledger[|ledger| - 1])
  }

  lemma {:induction false} ReadNext(cfg: Config, ledger: seq<EventRecord>, record: EventRecord)
    ensures Books(cfg, ledger + [record]) == Read(cfg, Books(cfg, ledger), record)
    ensures AllAllowed(cfg, ledger + [record])
            <==> AllAllowed(cfg, ledger) && Allowed(cfg, Books(cfg, ledger), record)
  {
    hide Read, Allowed;
    assert (ledger + [record])[..|ledger|] == ledger;
  }

  // ---- The book shows the engine's own slots ----

  predicate HeldBy(b: Book, position: Option<Position>, tracked: bool) {
    && (position.Some? <==> b.held.Some?)
    && (position.Some? && b.held.Some? ==>
          var p, h, bars := position.value, b.held.value, if tracked then Lived(b) else b.held.value.lived;
          && !h.entry.side.Unknown? && (p.side.Long? <==> h.entry.side.Buy?) && p.entryPrice == h.entry.price
          && h.intent.metadata.stopPrice == Some(p.stopPrice) && h.intent.metadata.targetPrice == p.targetPrice
          && p.mfePoints == Gained(h.entry, bars) && p.maePoints == Lost(h.entry, bars))
  }

  /** `lag` is one while the bar has begun and the entry has not been looked at. */
  predicate WaitsIn(cfg: Config, b: Book, pending: Option<PendingEntry>, lag: nat) {
    && (pending.Some? <==> b.waiting.Some?)
    && (pending.Some? && b.waiting.Some? ==>
          && cfg.fillTiming.NextBarOpen? && pending.value.intent == b.waiting.value.intent
          && |b.bars| + pending.value.remainingDelayBars == b.waiting.value.since + cfg.entryDelayBars + lag)
  }

  predicate QueuedIn(b: Book, pending: Option<PendingExit>, lag: nat) {
    && (pending.Some? <==> b.queued.Some?)
    && (pending.Some? && b.queued.Some? ==>
          pending.value.reason == b.queued.value.reason && |b.bars| == b.queued.value.since + lag)
  }

  function BarOf(tick: Option<Tick>): Option<Bar> {
    if tick.None? then None else Some(tick.value.bar)
  }

  /** Where a bar stands: begun, entry looked at, exit looked at, position tracked. */
  datatype Stage = Stage(entryLag: nat, exitLag: nat, tracked: bool)

  const BEGUN: Stage := Stage(1, 1, false)
  const ENTERED: Stage := Stage(0, 1, false)
  const OPENED: Stage := Stage(0, 0, false)
  const RESTING: Stage := Stage(0, 0, true)

  predicate Shown(cfg: Config, st: EngineState, stage: Stage) {
    var b := Books(cfg, st.ledger);
    && AllAllowed(cfg, st.ledger) && b.owed.Nothing?
    && HeldBy(b, st.position, stage.tracked)
    && (!stage.tracked && b.held.Some? ==> b.held.value.inside)
    && WaitsIn(cfg, b, st.pendingEntry, stage.entryLag)
    && QueuedIn(b, st.pendingExit, stage.exitLag)
  }

  /** The bar at hand and the one before it, while a bar is under way. */
  predicate During(cfg: Config, st: EngineState, earlier: seq<Bar>, bar: Bar) {
    Books(cfg, st.ledger).bars == earlier + [bar] && Latest(earlier) == BarOf(st.previous)
  }

  lemma {:induction false} GainGrows(entry: Fill, bars: seq<Bar>, bar: Bar)
    ensures Gained(entry, bars + [bar])
            == Better(Gained(entry, bars), if entry.side.Buy? then bar.high - entry.price else entry.price - bar.low)
    ensures Lost(entry, bars + [bar])
            == Better(Lost(entry, bars), if entry.side.Buy? then entry.price - bar.low else bar.high - entry.price)
  {
    assert (bars + [bar])[..|bars|] == bars;
  }

  // ---- Each phase of a bar ----

  /** Records that change no slot. */
  predicate Plain(record: EventRecord) {
    match record
    case VetoRecord(_, _) => true
    case StopRecord(_, _, _, _, applied) => !applied
    case SignalRecord(_, signal) => !signal.decision.Rejected?
    case TransitionRecord(_, t) => t.ExecutionHalt?
    case _ => false
  }

  lemma {:induction false} PlainShows(cfg: Config, st: EngineState, stage: Stage, record: EventRecord)
    requires Shown(cfg, st, stage) && Plain(record)
    ensures Shown(cfg, Log(st, record), stage)
    ensures
      var b, c := Books(cfg, st.ledger), Books(cfg, Log(st, record).ledger);
      && c.bars == b.bars
      && (record.TransitionRecord? && record.transition.cause.Breach? ==>
            c.halted == Some(record.transition.cause.reason))
  {
    hide AllAllowed, Books, Gained, Lost;
    ReadNext(cfg, st.ledger, record);
  }

  lemma {:induction false} BarShows(cfg: Config, st: EngineState, bar: Bar)
    requires Shown(cfg, st, RESTING) && Latest(Books(cfg, st.ledger).bars) == BarOf(st.previous)
    ensures
      var logged := Log(st, BarRecord(bar.timestamp, bar));
      Shown(cfg, logged, BEGUN) && During(cfg, logged, Books(cfg, st.ledger).bars, bar)
  {
    hide AllAllowed, Books, Gained, Lost;
    ReadNext(cfg, st.ledger, BarRecord(bar.timestamp, bar));
  }

  lemma {:induction false} CancelShows(cfg: Config, st: EngineState, earlier: seq<Bar>, stage: Stage, bar: Bar,
                                       timestamp: Timestamp,
                                       reason: Reason)
    requires Shown(cfg, st, stage) && During(cfg, st, earlier, bar)
    ensures
      var after := CancelPendings(st, timestamp, reason);
      && Shown(cfg, after, stage) && During(cfg, after, earlier, bar)
      && after.pendingEntry.None? && after.pendingExit.None?
      && Books(cfg, after.ledger).halted == Books(cfg, st.ledger).halted
  {
    hide AllAllowed, Books, Gained, Lost;
    ReadNext(cfg, st.ledger, TransitionRecord(timestamp, PendingOrdersCancelled(reason)));
  }

  /** The close has one of the four causes. */
  predicate Closable(cfg: Config, st: EngineState, raw: real, timestamp: Timestamp, reason: Reason, ambiguous: bool) {
    && st.position.Some? && Books(cfg, st.ledger).held.Some? && |Books(cfg, st.ledger).bars| > 0
    && var fill := ExitFill(cfg, st.position.value, raw, timestamp, reason, ambiguous);
       exists how :: ClosedHow(cfg, Books(cfg, st.ledger), how, fill, ClosedTrade(cfg, st.position.value, fill))
  }

  lemma {:induction false} CloseShows(cfg: Config, st: EngineState, earlier: seq<Bar>, stage: Stage, bar: Bar,
                                      raw: real,
                                      timestamp: Timestamp, reason: Reason, ambiguous: bool)
    requires AllAllowed(cfg, st.ledger) && Books(cfg, st.ledger).owed.Nothing?
    requires Books(cfg, st.ledger).waiting.None? && st.pendingEntry.None?
    requires Closable(cfg, st, raw, timestamp, reason, ambiguous)
    ensures
      var after := ClosePosition(cfg, st, raw, timestamp, reason, ambiguous);
      && Shown(cfg, after, stage) && Books(cfg, after.ledger).bars == Books(cfg, st.ledger).bars
      && (During(cfg, st, earlier, bar) ==> During(cfg, after, earlier, bar))
  {
    hide AllAllowed, Books, ClosedHow, ExitFill, ClosedTrade;
    var fill := ExitFill(cfg, st.position.value, raw, timestamp, reason, ambiguous);
    var trade := ClosedTrade(cfg, st.position.value, fill);
    var paid := st.ledger + [FillRecord(timestamp, fill)];
    ReadNext(cfg, st.ledger, FillRecord(timestamp, fill));
    ReadNext(cfg, paid, TradeRecord(timestamp, trade));
    assert ClosePosition(cfg, st, raw, timestamp, reason, ambiguous).ledger == paid + [TradeRecord(timestamp, trade)];
  }

  /** A close at the bar's open, at the previous close, or at the bar's close. */
  lemma {:induction false} PlainClose(cfg: Config, st: EngineState, how: How, raw: real, timestamp: Timestamp,
                                      reason: Reason)
    requires how.OnOpen? || how.OnClose?
    requires st.position.Some? && HeldBy(Books(cfg, st.ledger), st.position, how.OnClose?)
    requires |Books(cfg, st.ledger).bars| > 0
    requires
      var fill := ExitFill(cfg, st.position.value, raw, timestamp, reason, false);
      if how.OnOpen? then OpenCause(Books(cfg, st.ledger), fill) else CloseCause(cfg, Books(cfg, st.ledger), fill)
    ensures Closable(cfg, st, raw, timestamp, reason, false)
  {
    hide Books, Gained, Lost, OpenCause, CloseCause;
    var fill := ExitFill(cfg, st.position.value, raw, timestamp, reason, false);
    assert ClosedHow(cfg, Books(cfg, st.ledger), how, fill, ClosedTrade(cfg, st.position.value, fill));
  }

  lemma {:induction false} SessionChangeShows(cfg: Config, st: EngineState, earlier: seq<Bar>, tick: Tick)
    requires Shown(cfg, st, BEGUN) && During(cfg, st, earlier, tick.bar)
    ensures
      var after := FlattenIfSessionChanged(cfg, st, tick.session);
      Shown(cfg, after, BEGUN) && During(cfg, after, earlier, tick.bar)
  {
    hide AllAllowed, Books, Closable, HeldBy, WaitsIn, QueuedIn, ClosePosition, CancelPendings;
    if st.previous.Some? && tick.session.date != st.previous.value.session.date {
      var last := st.previous.value.bar;
      var cancelled := CancelPendings(st, last.timestamp, SessionEnd);
      CancelShows(cfg, st, earlier, BEGUN, tick.bar, last.timestamp, SessionEnd);
      CancelKeepsTheRest(st, last.timestamp, SessionEnd);
      FlatCloses(cfg, cancelled, last.close, last.timestamp, SessionEnd, false);
      if cancelled.position.Some? {
        NoneWaits(cfg, cancelled, BEGUN);
        PlainClose(cfg, cancelled, OnOpen, last.close, last.timestamp, SessionEnd);
        CloseShows(cfg, cancelled, earlier, BEGUN, tick.bar, last.close, last.timestamp, SessionEnd, false);
      }
      var closed := ClosePosition(cfg, cancelled, last.close, last.timestamp, SessionEnd, false);
      SlotsOnly(cfg, closed, earlier, FlattenIfSessionChanged(cfg, st, tick.session), BEGUN, tick.bar);
    }
  }

  lemma {:induction false} CancelKeepsTheRest(st: EngineState, timestamp: Timestamp, reason: Reason)
    ensures CancelPendings(st, timestamp, reason).position == st.position
    ensures CancelPendings(st, timestamp, reason).previous == st.previous
  {
  }

  lemma {:induction false} FlatCloses(cfg: Config, st: EngineState, raw: real, timestamp: Timestamp, reason: Reason,
                                      ambiguous: bool)
    ensures st.position.None? ==> ClosePosition(cfg, st, raw, timestamp, reason, ambiguous) == st
  {
  }

  lemma {:induction false} NoneWaits(cfg: Config, st: EngineState, stage: Stage)
    requires Shown(cfg, st, stage)
    ensures AllAllowed(cfg, st.ledger) && Books(cfg, st.ledger).owed.Nothing?
    ensures HeldBy(Books(cfg, st.ledger), st.position, stage.tracked)
    ensures st.pendingEntry.None? ==> Books(cfg, st.ledger).waiting.None?
  {
    hide AllAllowed, Books, HeldBy;
  }

  /** Only ledger, slots and the remembered bar are shown. */
  lemma {:induction false} SlotsOnly(cfg: Config, st: EngineState, earlier: seq<Bar>, next: EngineState, stage: Stage,
                                     bar: Bar)
    requires Shown(cfg, st, stage) && During(cfg, st, earlier, bar)
    requires next.ledger == st.ledger && next.position == st.position && next.pendingEntry == st.pendingEntry
    requires next.pendingExit == st.pendingExit && next.previous == st.previous
    ensures Shown(cfg, next, stage) && During(cfg, next, earlier, bar)
  {
    hide AllAllowed, Books, HeldBy, WaitsIn, QueuedIn;
  }

  lemma {:induction false} GapShows(cfg: Config, st: EngineState, earlier: seq<Bar>, bar: Bar)
    requires Slots(st) && Shown(cfg, st, BEGUN) && During(cfg, st, earlier, bar)
    ensures
      var after := OpenGapStop(cfg, st, bar);
      Shown(cfg, after, BEGUN) && During(cfg, after, earlier, bar)
  {
    hide AllAllowed, Books, Closable, WaitsIn, QueuedIn, ClosePosition, Gained, Lost;
    if st.position.Some? && !st.position.value.stopCancelled && OpensThroughStop(st.position.value, bar) {
      NoneWaits(cfg, st, BEGUN);
      var open := st.(pendingExit := None);
      PlainClose(cfg, open, OnOpen, bar.open, bar.timestamp, StopGap);
      CloseShows(cfg, open, earlier, BEGUN, bar, bar.open, bar.timestamp, StopGap, false);
    }
  }

  lemma {:induction false} PendingEntryShows(cfg: Config, st: EngineState, earlier: seq<Bar>, tick: Tick)
    requires Inv(cfg, st) && Shown(cfg, st, BEGUN) && During(cfg, st, earlier, tick.bar)
    ensures
      var after := ProcessPendingEntry(cfg, st, tick);
      Shown(cfg, after, ENTERED) && During(cfg, after, earlier, tick.bar)
  {
    hide AllAllowed, Books, HeldBy, OpenPosition, EntrySelected, QueuedIn, Drawn;
    if st.pendingEntry.Some? && st.pendingEntry.value.remainingDelayBars == 0 {
      var pending, taken := st.pendingEntry.value, st.(pendingEntry := None);
      SelectedIsDrawn(cfg, pending.intent);
      EntryAlone(cfg, st, BEGUN);
      if EntrySelected(cfg, pending.intent) {
        OpeningShows(cfg, taken, earlier, pending.intent, pending.stopPrice, pending.targetPrice, tick.bar.open, tick,
                     ENTERED);
      } else {
        MissShows(cfg, st, earlier, tick);
      }
    }
  }

  lemma {:induction false} EntryAlone(cfg: Config, st: EngineState, stage: Stage)
    requires Slots(st) && Shown(cfg, st, stage) && st.pendingEntry.Some?
    ensures Books(cfg, st.ledger).held.None? && Books(cfg, st.ledger).queued.None?
  {
    hide AllAllowed, Books, Gained, Lost;
  }

  lemma {:induction false} SelectedIsDrawn(cfg: Config, intent: OrderIntent)
    ensures EntrySelected(cfg, intent) <==> Drawn(cfg, intent)
  {
  }

  lemma {:induction false} MissShows(cfg: Config, st: EngineState, earlier: seq<Bar>, tick: Tick)
    requires Inv(cfg, st) && Shown(cfg, st, BEGUN) && During(cfg, st, earlier, tick.bar)
    requires st.pendingEntry.Some? && st.pendingEntry.value.remainingDelayBars == 0
    requires !EntrySelected(cfg, st.pendingEntry.value.intent) && !Drawn(cfg, st.pendingEntry.value.intent)
    ensures
      var after := ProcessPendingEntry(cfg, st, tick);
      Shown(cfg, after, ENTERED) && During(cfg, after, earlier, tick.bar)
  {
    hide AllAllowed, Books, Gained, Lost, EntrySelected, Drawn;
    var intent := st.pendingEntry.value.intent;
    ReadNext(cfg, st.ledger, TransitionRecord(tick.bar.timestamp, EntryMissed(
      intent.symbol, intent.side, intent.timestamp, cfg.entryFillRate, cfg.entryFillSeed)));
  }

  /** The book is about to settle an entry in `intent`, and nothing else is shown. */
  predicate Settling(cfg: Config, st: EngineState, earlier: seq<Bar>, bar: Bar, intent: OrderIntent) {
    var b := Books(cfg, st.ledger);
    && AllAllowed(cfg, st.ledger) && During(cfg, st, earlier, bar)
    && st.position.None? && st.pendingEntry.None? && st.pendingExit.None?
    && b.owed.Nothing? && b.held.None? && b.queued.None? && Settled(cfg, b) && b.waiting.value.intent == intent
    && !intent.side.Unknown?
  }

  lemma {:induction false} FillShows(cfg: Config, st: EngineState, earlier: seq<Bar>, bar: Bar, intent: OrderIntent,
                                     fill: Fill, p: Position, next: EngineState, stage: Stage)
    requires Settling(cfg, st, earlier, bar, intent) && FillOf(fill, intent)
    requires intent.metadata.stopPrice == Some(p.stopPrice)
    requires intent.metadata.targetPrice == p.targetPrice && p.entryPrice == fill.price
    requires p.side == SideOfEntry(fill.side) && p.mfePoints == 0.0 == p.maePoints
    requires stage.tracked <==> cfg.fillTiming.SignalBarClose?
    requires next.ledger == st.ledger + [FillRecord(fill.timestamp, fill)]
                            + [StopRecord(fill.timestamp, fill.symbol, p.stopPrice, "initial_stop", true)]
    requires next.position == Some(p) && next.pendingEntry.None? && next.pendingExit.None?
    requires next.previous == st.previous
    ensures Shown(cfg, next, stage) && During(cfg, next, earlier, bar)
  {
    hide AllAllowed, Books, Settled;
    var record := FillRecord(fill.timestamp, fill);
    assert Books(cfg, st.ledger).waiting.Some? by { SettledWaits(cfg, Books(cfg, st.ledger)); }
    ReadNext(cfg, st.ledger, record);
    ReadNext(cfg, st.ledger + [record], StopRecord(fill.timestamp, fill.symbol, p.stopPrice, "initial_stop", true));
    TracksNothing(fill);
  }

  lemma {:induction false} SettledWaits(cfg: Config, b: Book)
    requires Settled(cfg, b)
    ensures b.waiting.Some?
  {
  }

  lemma {:induction false} TracksNothing(entry: Fill)
    ensures Gained(entry, []) == 0.0 == Lost(entry, [])
  {
  }

  lemma {:induction false} InvalidationShows(cfg: Config, st: EngineState, earlier: seq<Bar>, bar: Bar,
                                             intent: OrderIntent, t: Transition, next: EngineState, stage: Stage)
    requires Settling(cfg, st, earlier, bar, intent) && t.EntryInvalidated?
    requires TransitionAllowed(cfg, Books(cfg, st.ledger), t)
    requires next == Log(st, TransitionRecord(bar.timestamp, t))
    ensures Shown(cfg, next, stage) && During(cfg, next, earlier, bar)
  {
    hide AllAllowed, Books, Settled, TransitionAllowed;
    ReadNext(cfg, st.ledger, TransitionRecord(bar.timestamp, t));
  }

  /** The entry in the book is filled, or invalidated, when it is due. */
  lemma {:induction false} OpeningShows(cfg: Config, st: EngineState, earlier: seq<Bar>, intent: OrderIntent,
                                        stop: real, target: Option<real>, raw: real, tick: Tick, stage: Stage)
    requires Settling(cfg, st, earlier, tick.bar, intent)
    requires intent.metadata.stopPrice == Some(stop) && intent.metadata.targetPrice == target
    requires raw == (if cfg.fillTiming.NextBarOpen? then tick.bar.open else tick.bar.close)
    requires stage.tracked <==> cfg.fillTiming.SignalBarClose?
    ensures
      var after := OpenPosition(cfg, st, intent, stop, target, raw, tick.bar.timestamp, tick.session);
      Shown(cfg, after, stage) && During(cfg, after, earlier, tick.bar)
  {
    hide Shown, AllAllowed, Books, Settled, EntryPrice, EntrySlippage;
    var side, fill := SideOfEntry(intent.side), EntryFill(cfg, intent, raw, tick.bar.timestamp, tick.session);
    var next := OpenPosition(cfg, st, intent, stop, target, raw, tick.bar.timestamp, tick.session);
    if StopProtects(side, stop, fill.price) {
      FillShows(cfg, st, earlier, tick.bar, intent, fill, FreshPosition(fill, side, stop, target, tick.session.date),
                next, stage);
    } else {
      InvalidationShows(cfg, st, earlier, tick.bar, intent, EntryInvalidated(
        intent.symbol, side, intent.timestamp, raw, fill.price, stop), next, stage);
    }
  }

  lemma {:induction false} PendingExitShows(cfg: Config, st: EngineState, earlier: seq<Bar>, bar: Bar)
    requires Slots(st) && Shown(cfg, st, ENTERED) && During(cfg, st, earlier, bar)
    ensures
      var after := ProcessPendingExit(cfg, st, bar);
      Shown(cfg, after, OPENED) && During(cfg, after, earlier, bar) && after.pendingExit.None?
  {
    hide AllAllowed, Books, Closable, WaitsIn, ClosePosition, Gained, Lost;
    if st.pendingExit.Some? {
      var reason, open := st.pendingExit.value.reason, st.(pendingExit := None);
      WaitingIsNone(cfg, st, ENTERED);
      PlainClose(cfg, open, OnOpen, bar.open, bar.timestamp, reason);
      CloseShows(cfg, open, earlier, OPENED, bar, bar.open, bar.timestamp, reason, false);
      CloseClearsExit(cfg, open, bar.open, bar.timestamp, reason);
    } else {
      assert st.(pendingExit := None) == st;
    }
  }

  lemma {:induction false} CloseClearsExit(cfg: Config, st: EngineState, raw: real, timestamp: Timestamp,
                                           reason: Reason)
    requires st.pendingExit.None?
    ensures ClosePosition(cfg, st, raw, timestamp, reason, false).pendingExit.None?
  {
    hide ExitFill, ClosedTrade;
  }

  lemma {:induction false} WaitingIsNone(cfg: Config, st: EngineState, stage: Stage)
    requires Slots(st) && Shown(cfg, st, stage) && st.position.Some?
    ensures Books(cfg, st.ledger).waiting.None? && st.pendingEntry.None?
  {
    hide AllAllowed, Books, HeldBy, QueuedIn;
  }

  lemma {:induction false} IntrabarShows(cfg: Config, st: EngineState, earlier: seq<Bar>, bar: Bar)
    requires Slots(st) && Shown(cfg, st, OPENED) && During(cfg, st, earlier, bar)
    ensures
      var after := IntrabarStopAndTarget(cfg, st, bar);
      Shown(cfg, after, OPENED) && During(cfg, after, earlier, bar)
  {
    hide AllAllowed, Books, Closable, WaitsIn, QueuedIn, ClosePosition, Favourable, Gained, Lost;
    if st.position.Some? && !st.position.value.stopCancelled {
      var p := st.position.value;
      WaitingIsNone(cfg, st, OPENED);
      if TouchesStop(p, bar) {
        var marked := p.(maePoints := Max(p.maePoints, Abs(p.entryPrice - p.stopPrice)));
        var flag := TouchesTarget(p, bar) || Favourable(p.side, p.entryPrice, bar) > p.mfePoints;
        StopIsClosable(cfg, st, earlier, bar);
        CloseShows(cfg, st.(position := Some(marked)), earlier, OPENED, bar, p.stopPrice, bar.timestamp, Stop, flag);
      } else if TouchesTarget(p, bar) {
        var marked := p.(mfePoints := Max(p.mfePoints, Abs(p.targetPrice.value - p.entryPrice)));
        TargetIsClosable(cfg, st, earlier, bar);
        CloseShows(cfg, st.(position := Some(marked)), earlier, OPENED, bar, p.targetPrice.value, bar.timestamp,
                   Target, false);
      }
    }
  }

  lemma {:induction false} StopIsClosable(cfg: Config, st: EngineState, earlier: seq<Bar>, bar: Bar)
    requires Shown(cfg, st, OPENED) && During(cfg, st, earlier, bar)
    requires st.position.Some? && TouchesStop(st.position.value, bar)
    ensures
      var p := st.position.value;
      var marked := p.(maePoints := Max(p.maePoints, Abs(p.entryPrice - p.stopPrice)));
      Closable(cfg, st.(position := Some(marked)), p.stopPrice, bar.timestamp, Stop,
               TouchesTarget(p, bar) || Favourable(p.side, p.entryPrice, bar) > p.mfePoints)
  {
    hide AllAllowed, Books, WaitsIn, QueuedIn, Gained, Lost;
    var p, b := st.position.value, Books(cfg, st.ledger);
    var h := b.held.value;
    var marked := p.(maePoints := Max(p.maePoints, Abs(p.entryPrice - p.stopPrice)));
    var flag := TouchesTarget(p, bar) || Favourable(p.side, p.entryPrice, bar) > p.mfePoints;
    GainGrows(h.entry, h.lived, bar);
    var fill := ExitFill(cfg, marked, p.stopPrice, bar.timestamp, Stop, flag);
    assert ClosedHow(cfg, b, OnStop, fill, ClosedTrade(cfg, marked, fill));
  }

  lemma {:induction false} TargetIsClosable(cfg: Config, st: EngineState, earlier: seq<Bar>, bar: Bar)
    requires Shown(cfg, st, OPENED) && During(cfg, st, earlier, bar)
    requires st.position.Some? && TouchesTarget(st.position.value, bar)
    ensures
      var p := st.position.value;
      var marked := p.(mfePoints := Max(p.mfePoints, Abs(p.targetPrice.value - p.entryPrice)));
      Closable(cfg, st.(position := Some(marked)), p.targetPrice.value, bar.timestamp, Target, false)
  {
    hide AllAllowed, Books, WaitsIn, QueuedIn, Gained, Lost;
    var p, b := st.position.value, Books(cfg, st.ledger);
    var marked := p.(mfePoints := Max(p.mfePoints, Abs(p.targetPrice.value - p.entryPrice)));
    var fill := ExitFill(cfg, marked, p.targetPrice.value, bar.timestamp, Target, false);
    assert ClosedHow(cfg, b, OnTarget, fill, ClosedTrade(cfg, marked, fill));
  }

  lemma {:induction false} TrackingShows(cfg: Config, st: EngineState, earlier: seq<Bar>, bar: Bar)
    requires Shown(cfg, st, OPENED) && During(cfg, st, earlier, bar)
    ensures
      var after := UpdateExcursions(st, bar);
      Shown(cfg, after, RESTING) && During(cfg, after, earlier, bar)
  {
    hide AllAllowed, Books, WaitsIn, QueuedIn, Gained, Lost;
    var b := Books(cfg, st.ledger);
    if b.held.Some? {
      GainGrows(b.held.value.entry, b.held.value.lived, bar);
      assert Lived(b) == b.held.value.lived + [bar];
    }
  }

  /** Whatever was asked for, a flatten closes at the bar's close. */
  lemma {:induction false} FlattenShows(cfg: Config, st: EngineState, earlier: seq<Bar>, bar: Bar, reason: Reason)
    requires Shown(cfg, st, RESTING) && During(cfg, st, earlier, bar)
    requires reason.SessionFlatten? || Books(cfg, st.ledger).halted == Some(reason)
    ensures
      var after := FlattenNow(cfg, st, bar, reason);
      Shown(cfg, after, RESTING) && During(cfg, after, earlier, bar)
  {
    hide AllAllowed, Books, Closable, HeldBy, WaitsIn, QueuedIn, ClosePosition, CancelPendings;
    var cancelled := CancelPendings(st, bar.timestamp, reason);
    CancelShows(cfg, st, earlier, RESTING, bar, bar.timestamp, reason);
    FlatCloses(cfg, cancelled, bar.close, bar.timestamp, reason, false);
    if cancelled.position.Some? {
      NoneWaits(cfg, cancelled, RESTING);
      PlainClose(cfg, cancelled, OnClose, bar.close, bar.timestamp, reason);
      CloseShows(cfg, cancelled, earlier, RESTING, bar, bar.close, bar.timestamp, reason, false);
    }
  }

  lemma {:induction false} LossCheckShows(cfg: Config, st: EngineState, earlier: seq<Bar>, bar: Bar)
    requires st.pendingExit.None? && Shown(cfg, st, RESTING) && During(cfg, st, earlier, bar)
    ensures
      var after := CheckDailyLoss(cfg, st, bar);
      Shown(cfg, after, RESTING) && During(cfg, after, earlier, bar)
  {
    hide AllAllowed, Books, Gained, Lost, SessionPnl;
    var pnl := SessionPnl(cfg, st, bar);
    if !st.dailyLimitHit && LossBreached(pnl, cfg.dailyLossLimit) {
      ReadNext(cfg, st.ledger, TransitionRecord(bar.timestamp, DailyLimitHit(pnl, cfg.dailyLossLimit.value)));
    }
  }
}
