/**
 * What an engine does, deed by deed, each with its price and its cause written out in terms of the bar it
 * happens on. Every phase of every bar is a sequence of such deeds.
 */
module Deeds {
  import opened Prelude
  import opened Market
  import opened Events
  import opened EngineSpec
  import opened EngineInvariants

  /** An open position as its entry left it. */
  datatype Holding = Holding(
    symbol: Symbol, side: PositionSide, quantity: int, since: Timestamp, price: real,
    stop: real, target: Option<real>, date: int)

  /** The books others read, and what is held. */
  datatype Page = Page(
    ledger: seq<EventRecord>, trades: seq<Trade>, feedback: seq<Feedback>, filled: seq<OrderIntent>,
    holding: Option<Holding>)

  function HoldingOf(p: Option<Position>): Option<Holding> {
    if p.None? then None
    else
      var q := p.value;
      Some(Holding(q.symbol, q.side, q.quantity, q.entryTimestamp, q.entryPrice, q.stopPrice, q.targetPrice,
                   q.sessionDate))
  }

  function PageOf(st: EngineState): Page {
    Page(st.ledger, st.trades, st.feedback, st.filledIntents, HoldingOf(st.position))
  }

  datatype Deed =
    | Write(record: EventRecord)
    | Enter(entry: Fill, intent: OrderIntent, stop: real, date: int)
    | Leave(exit: Fill, trade: Trade)

  function Do(p: Page, d: Deed): Page {
    match d
    case Write(record) => p.(ledger := p.ledger + [record])
    case Enter(entry, intent, stop, date) =>
      Page(p.ledger + [FillRecord(entry.timestamp, entry)]
           + [StopRecord(entry.timestamp, entry.symbol, stop, "initial_stop", true)],
           p.trades, p.feedback + [FillFeedback(entry)], p.filled + [intent],
           Some(Holding(entry.symbol, SideOfEntry(entry.side), entry.quantity, entry.timestamp, entry.price,
                        stop, intent.metadata.targetPrice, date)))
    case Leave(exit, trade) =>
      Page(p.ledger + [FillRecord(exit.timestamp, exit)] + [TradeRecord(exit.timestamp, trade)],
           p.trades + [trade], p.feedback + [TradeFeedback(trade)], p.filled, None)
  }

  // ---- Prices and causes ----

  /**
   * The bar at hand, the one before it, and whether the strategy and the supervisor keep to reasons of
   * their own.
   */
  datatype Scene = Scene(cfg: Config, tick: Tick, previous: Option<Tick>, ownReasons: bool)

  /** The reasons the engine itself gives for an exit. */
  predicate EngineReason(reason: Reason) {
    match reason
    case SessionEnd => true
    case StopGap => true
    case Stop => true
    case Target => true
    case SessionFlatten => true
    case DailyLimit => true
    case EndOfData => true
    case _ => false
  }

  /** From the flatten minute, or the minute before an earlier close, up to six in the evening. */
  predicate InFlattenWindow(cfg: Config, session: Session) {
    && session.minute < 18 * 60
    && match session.rthClose
       case None => session.minute >= 0
       case Some(close) => session.minute >= cfg.flattenMinutes || session.minute >= close - 1
  }

  /** An entry pays the slippage, and the extra of the opening window, against its own side. */
  predicate Charged(scene: Scene, entry: Fill) {
    var bar, cfg := scene.tick.bar, scene.cfg;
    var slippage := cfg.entrySlippage + if scene.tick.session.isRthOpenWindow then cfg.rthOpenExtraSlippage else 0.0;
    && entry.timestamp == bar.timestamp
    && entry.rawPrice == (if cfg.fillTiming.NextBarOpen? then bar.open else bar.close)
    && !entry.side.Unknown?
    && entry.price == (if entry.side.Buy? then entry.rawPrice + slippage else entry.rawPrice - slippage)
    && entry.slippagePoints == slippage
    && !entry.ambiguous
  }

  /** The fill is the intent's own order, under the stop the intent names. */
  predicate Ordered(entry: Fill, intent: OrderIntent, stop: real) {
    && entry.symbol == intent.symbol && entry.side == intent.side && entry.quantity == intent.quantity
    && entry.reason == intent.reason
    && intent.metadata.stopPrice == Some(stop)
    && if entry.side.Buy? then stop < entry.price else stop > entry.price
  }

  /** An exit pays the exit slippage against the position's side. */
  predicate Discharged(cfg: Config, h: Holding, exit: Fill) {
    && exit.symbol == h.symbol && exit.quantity == h.quantity
    && exit.side == (if h.side.Long? then Sell else Buy)
    && exit.price == (if h.side.Long? then exit.rawPrice - cfg.exitSlippage else exit.rawPrice + cfg.exitSlippage)
    && exit.slippagePoints == cfg.exitSlippage
  }

  /** The trade is the holding and its exit, and the money is their difference less the commission. */
  predicate Accounted(cfg: Config, h: Holding, exit: Fill, trade: Trade) {
    var gained := if h.side.Long? then exit.price - h.price else h.price - exit.price;
    && trade.symbol == h.symbol && trade.side == h.side && trade.quantity == h.quantity
    && trade.entryTimestamp == h.since && trade.entryPrice == h.price
    && trade.exitTimestamp == exit.timestamp && trade.exitPrice == exit.price && trade.exitReason == exit.reason
    && trade.stopPrice == h.stop && trade.sessionDate == h.date && trade.ambiguousExit == exit.ambiguous
    && trade.grossPoints == gained
    && trade.grossPnl == gained * cfg.pointValue * h.quantity as real
    && trade.commission == cfg.commission * h.quantity as real
    && trade.netPnl == trade.grossPnl - trade.commission
  }

  /** The market event behind each of the engine's own exits, and the price it gives. */
  predicate EngineCause(scene: Scene, h: Holding, raw: real, timestamp: Timestamp, reason: Reason) {
    var bar := scene.tick.bar;
    match reason
    case SessionEnd =>
      && scene.previous.Some? && scene.previous.value.session.date != scene.tick.session.date
      && raw == scene.previous.value.bar.close && timestamp == scene.previous.value.bar.timestamp
    case StopGap =>
      raw == bar.open && timestamp == bar.timestamp && if h.side.Long? then bar.open <= h.stop else bar.open >= h.stop
    case Stop =>
      raw == h.stop && timestamp == bar.timestamp && if h.side.Long? then bar.low <= h.stop else bar.high >= h.stop
    case Target =>
      && h.target == Some(raw) && timestamp == bar.timestamp
      && if h.side.Long? then bar.high >= raw && bar.low > h.stop else bar.low <= raw && bar.high < h.stop
    case SessionFlatten => raw == bar.close && timestamp
      == bar.timestamp && InFlattenWindow(scene.cfg, scene.tick.session)
    case DailyLimit => raw == bar.open && timestamp == bar.timestamp
    case EndOfData => raw == bar.close && timestamp == bar.timestamp
    case _ => false
  }

  /** An exit somebody asked for is filled at the open or at the close. */
  predicate Requested(scene: Scene, raw: real, timestamp: Timestamp, reason: Reason) {
    && (raw == scene.tick.bar.open || raw == scene.tick.bar.close) && timestamp == scene.tick.bar.timestamp
    && (scene.ownReasons ==> !EngineReason(reason))
  }

  predicate Caused(scene: Scene, h: Holding, raw: real, timestamp: Timestamp, reason: Reason) {
    EngineCause(scene, h, raw, timestamp, reason) || Requested(scene, raw, timestamp, reason)
  }

  predicate Allowed(scene: Scene, p: Page, d: Deed) {
    match d
    case Write(record) => !record.FillRecord? && !record.TradeRecord? && !record.BarRecord?
    case Enter(entry, intent, stop, date) =>
      p.holding.None? && Charged(scene, entry) && Ordered(entry, intent, stop) && date == scene.tick.session.date
    case Leave(exit, trade) =>
      && p.holding.Some?
      && Discharged(scene.cfg, p.holding.value, exit)
      && Accounted(scene.cfg, p.holding.value, exit, trade)
      && Caused(scene, p.holding.value, exit.rawPrice, exit.timestamp, exit.reason)
  }

  function DoAll(p: Page, ds: seq<Deed>): Page
    decreases |ds|
  {
    if |ds| == 0 then p else Do(DoAll(p, ds[..|ds| - 1]), ds[|ds| - 1])
  }

  predicate AllAllowed(scene: Scene, p: Page, ds: seq<Deed>)
    decreases |ds|
  {
    |ds| > 0 ==> AllAllowed(scene, p, ds[..|ds| - 1]) && Allowed(scene, DoAll(p, ds[..|ds| - 1]), ds[|ds| - 1])
  }

  /** `ds` is an allowed way from `p` to `q`. */
  predicate Makes(scene: Scene, p: Page, ds: seq<Deed>, q: Page) {
    AllAllowed(scene, p, ds) && DoAll(p, ds) == q
  }

  lemma {:induction false} Nothing(scene: Scene, p: Page) returns (ds: seq<Deed>)
    ensures ds == [] && Makes(scene, p, ds, p)
  {
    ds := [];
  }

  lemma {:induction false} One(scene: Scene, p: Page, d: Deed)
    requires Allowed(scene, p, d)
    ensures Makes(scene, p, [d], Do(p, d))
  {
    assert [d][..0] == [];
    assert DoAll(p, []) == p;
  }

  lemma {:induction false} Then(scene: Scene, p: Page, ds: seq<Deed>, q: Page, es: seq<Deed>, r: Page)
    requires Makes(scene, p, ds, q) && Makes(scene, q, es, r)
    ensures Makes(scene, p, ds + es, r)
    decreases |es|
  {
    if |es| == 0 {
      assert ds + es == ds;
    } else {
      var shorter := es[..|es| - 1];
      Then(scene, p, ds, q, shorter, DoAll(q, shorter));
      assert (ds + es)[..|ds + es| - 1] == ds + shorter;
    }
  }

  // ---- Every engine operation is such a sequence ----

  lemma {:induction false} LogDeeds(scene: Scene, st: EngineState, record: EventRecord) returns (ds: seq<Deed>)
    requires !record.FillRecord? && !record.TradeRecord? && !record.BarRecord?
    ensures Makes(scene, PageOf(st), ds, PageOf(Log(st, record)))
  {
    One(scene, PageOf(st), Write(record));
    ds := [Write(record)];
  }

  lemma {:induction false} CloseDeeds(scene: Scene, st: EngineState, raw: real, timestamp: Timestamp, reason: Reason,
                                      ambiguous: bool) returns (ds: seq<Deed>)
    requires st.position.Some? ==> Caused(scene, HoldingOf(st.position).value, raw, timestamp, reason)
    ensures Makes(scene, PageOf(st), ds, PageOf(ClosePosition(scene.cfg, st, raw, timestamp, reason, ambiguous)))
  {
    hide Caused;
    if st.position.None? {
      ds := Nothing(scene, PageOf(st));
    } else {
      var p := st.position.value;
      var fill := ExitFill(scene.cfg, p, raw, timestamp, reason, ambiguous);
      var trade := ClosedTrade(scene.cfg, p, fill);
      Settles(scene.cfg, p, raw, timestamp, reason, ambiguous);
      One(scene, PageOf(st), Leave(fill, trade));
      ds := [Leave(fill, trade)];
    }
  }

  lemma {:induction false} Settles(cfg: Config, p: Position, raw: real, timestamp: Timestamp, reason: Reason,
                                   ambiguous: bool)
    ensures
      var fill := ExitFill(cfg, p, raw, timestamp, reason, ambiguous);
      var h := HoldingOf(Some(p)).value;
      && Discharged(cfg, h, fill) && Accounted(cfg, h, fill, ClosedTrade(cfg, p, fill))
      && fill.rawPrice == raw && fill.timestamp == timestamp && fill.reason == reason
  {
  }

  lemma {:induction false} OpenDeeds(scene: Scene, st: EngineState, intent: OrderIntent, stop: real,
                                     target: Option<real>, raw: real) returns (ds: seq<Deed>)
    requires st.position.None? && !intent.side.Unknown?
    requires intent.metadata.stopPrice == Some(stop) && intent.metadata.targetPrice == target
    requires raw == (if scene.cfg.fillTiming.NextBarOpen? then scene.tick.bar.open else scene.tick.bar.close)
    ensures
      Makes(scene, PageOf(st), ds, PageOf(OpenPosition(scene.cfg, st, intent, stop, target, raw,
                                                       scene.tick.bar.timestamp, scene.tick.session)))
  {
    var fill := EntryFill(scene.cfg, intent, raw, scene.tick.bar.timestamp, scene.tick.session);
    var side := SideOfEntry(intent.side);
    if StopProtects(side, stop, fill.price) {
      var d := Enter(fill, intent, stop, scene.tick.session.date);
      One(scene, PageOf(st), d);
      ds := [d];
    } else {
      ds := LogDeeds(scene, st, TransitionRecord(scene.tick.bar.timestamp, EntryInvalidated(
        intent.symbol, side, intent.timestamp, raw, fill.price, stop)));
    }
  }

  lemma {:induction false} CancelDeeds(scene: Scene, st: EngineState, timestamp: Timestamp, reason: Reason)
    returns (ds: seq<Deed>)
    ensures Makes(scene, PageOf(st), ds, PageOf(CancelPendings(st, timestamp, reason)))
  {
    if st.pendingEntry.None? && st.pendingExit.None? {
      ds := Nothing(scene, PageOf(st));
    } else {
      ds := LogDeeds(scene, st, TransitionRecord(timestamp, PendingOrdersCancelled(reason)));
    }
  }

  lemma {:induction false} CloseAfterCancelDeeds(scene: Scene, st: EngineState, cancelAt: Timestamp, raw: real,
                                                 timestamp: Timestamp, reason: Reason) returns (ds: seq<Deed>)
    requires st.position.Some? ==> Caused(scene, HoldingOf(st.position).value, raw, timestamp, reason)
    ensures Makes(scene, PageOf(st), ds,
                  PageOf(ClosePosition(scene.cfg, CancelPendings(st, cancelAt, reason), raw, timestamp, reason, false)))
  {
    var cancelled := CancelPendings(st, cancelAt, reason);
    ds := CancelDeeds(scene, st, cancelAt, reason);
    hide Makes, Caused, ClosePosition;
    var es := CloseDeeds(scene, cancelled, raw, timestamp, reason, false);
    Then(scene, PageOf(st), ds, PageOf(cancelled), es,
         PageOf(ClosePosition(scene.cfg, cancelled, raw, timestamp, reason, false)));
    ds := ds + es;
  }

  lemma {:induction false} SessionChangeDeeds(scene: Scene, st: EngineState) returns (ds: seq<Deed>)
    requires scene.previous == st.previous
    ensures Makes(scene, PageOf(st), ds, PageOf(FlattenIfSessionChanged(scene.cfg, st, scene.tick.session)))
  {
    hide Makes, ClosePosition;
    if st.previous.None? || scene.tick.session.date == st.previous.value.session.date {
      ds := Nothing(scene, PageOf(st));
    } else {
      var last := st.previous.value.bar;
      ds := CloseAfterCancelDeeds(scene, st, last.timestamp, last.close, last.timestamp, SessionEnd);
    }
  }

  lemma {:induction false} GapDeeds(scene: Scene, st: EngineState) returns (ds: seq<Deed>)
    ensures Makes(scene, PageOf(st), ds, PageOf(OpenGapStop(scene.cfg, st, scene.tick.bar)))
  {
    hide Makes, ClosePosition;
    var bar := scene.tick.bar;
    if st.position.Some? && !st.position.value.stopCancelled && OpensThroughStop(st.position.value, bar) {
      ds := CloseDeeds(scene, st.(pendingExit := None), bar.open, bar.timestamp, StopGap, false);
    } else {
      ds := Nothing(scene, PageOf(st));
    }
  }

  lemma {:induction false} PendingEntryDeeds(scene: Scene, st: EngineState) returns (ds: seq<Deed>)
    requires Inv(scene.cfg, st)
    ensures Makes(scene, PageOf(st), ds, PageOf(ProcessPendingEntry(scene.cfg, st, scene.tick)))
  {
    hide Makes, OpenPosition, EntrySelected;
    if st.pendingEntry.None? || st.pendingEntry.value.remainingDelayBars > 0 {
      ds := Nothing(scene, PageOf(st));
    } else {
      var pending := st.pendingEntry.value;
      var taken := st.(pendingEntry := None);
      if EntrySelected(scene.cfg, pending.intent) {
        ds := OpenDeeds(scene, taken, pending.intent, pending.stopPrice, pending.targetPrice, scene.tick.bar.open);
      } else {
        ds := LogDeeds(scene, taken, TransitionRecord(scene.tick.bar.timestamp, EntryMissed(
          pending.intent.symbol, pending.intent.side, pending.intent.timestamp, scene.cfg.entryFillRate,
          scene.cfg.entryFillSeed)));
      }
    }
  }

  /** What a queued exit may say. */
  predicate OwnExit(ownReasons: bool, st: EngineState) {
    ownReasons && st.pendingExit.Some? ==>
      st.pendingExit.value.reason == DailyLimit || !EngineReason(st.pendingExit.value.reason)
  }

  lemma {:induction false} PendingExitDeeds(scene: Scene, st: EngineState) returns (ds: seq<Deed>)
    requires OwnExit(scene.ownReasons, st)
    ensures Makes(scene, PageOf(st), ds, PageOf(ProcessPendingExit(scene.cfg, st, scene.tick.bar)))
  {
    hide Makes, ClosePosition;
    if st.pendingExit.None? || st.position.None? {
      ds := Nothing(scene, PageOf(st));
    } else {
      var bar := scene.tick.bar;
      ds := CloseDeeds(scene, st.(pendingExit := None), bar.open, bar.timestamp, st.pendingExit.value.reason, false);
    }
  }

  lemma {:induction false} ClosingKeepsOwnExits(cfg: Config, st: EngineState, tick: Tick, ownReasons: bool)
    requires OwnExit(ownReasons, st)
    ensures OwnExit(ownReasons, FlattenIfSessionChanged(cfg, st, tick.session))
    ensures OwnExit(ownReasons, OpenGapStop(cfg, st, tick.bar))
  {
    hide ExitFill, ClosedTrade, OpensThroughStop;
  }

  lemma {:induction false} EnteringKeepsOwnExits(cfg: Config, st: EngineState, tick: Tick, ownReasons: bool)
    requires OwnExit(ownReasons, st)
    ensures OwnExit(ownReasons, ProcessPendingEntry(cfg, st, tick))
  {
    hide EntrySelected, StopProtects, EntryFill;
  }

  lemma {:induction false} ExitsAreTaken(cfg: Config, st: EngineState, bar: Bar)
    ensures ProcessPendingExit(cfg, st, bar).pendingExit.None?
  {
    hide ExitFill, ClosedTrade;
  }

  lemma {:induction false} AtOpenDeeds(scene: Scene, st: EngineState) returns (ds: seq<Deed>)
    requires Inv(scene.cfg, st) && scene.previous == st.previous && OwnExit(scene.ownReasons, st)
    ensures Makes(scene, PageOf(st), ds, PageOf(AtOpen(scene.cfg, st, scene.tick)))
    ensures AtOpen(scene.cfg, st, scene.tick).pendingExit.None?
  {
    hide Makes, FlattenIfSessionChanged, OpenGapStop, ProcessPendingEntry, ProcessPendingExit, Inv, OwnExit;
    var rolled := FlattenIfSessionChanged(scene.cfg, st, scene.tick.session);
    ds := SessionChangeDeeds(scene, st);
    SessionChangeKeeps(scene.cfg, st, scene.tick.session);
    ClosingKeepsOwnExits(scene.cfg, st, scene.tick, scene.ownReasons);
    var gapped := OpenGapStop(scene.cfg, rolled, scene.tick.bar);
    var es := GapDeeds(scene, rolled);
    GapStopKeeps(scene.cfg, rolled, scene.tick.bar);
    ClosingKeepsOwnExits(scene.cfg, rolled, scene.tick, scene.ownReasons);
    Then(scene, PageOf(st), ds, PageOf(rolled), es, PageOf(gapped));
    var entered := ProcessPendingEntry(scene.cfg, gapped, scene.tick);
    var fs := PendingEntryDeeds(scene, gapped);
    EnteringKeepsOwnExits(scene.cfg, gapped, scene.tick, scene.ownReasons);
    Then(scene, PageOf(st), ds + es, PageOf(gapped), fs, PageOf(entered));
    var gs := PendingExitDeeds(scene, entered);
    ExitsAreTaken(scene.cfg, entered, scene.tick.bar);
    Then(scene, PageOf(st), ds + es + fs, PageOf(entered), gs, PageOf(AtOpen(scene.cfg, st, scene.tick)));
    ds := ds + es + fs + gs;
  }

  lemma {:induction false} IntrabarDeeds(scene: Scene, st: EngineState) returns (ds: seq<Deed>)
    ensures Makes(scene, PageOf(st), ds, PageOf(IntrabarStopAndTarget(scene.cfg, st, scene.tick.bar)))
  {
    hide Makes, ClosePosition, Favourable;
    var bar := scene.tick.bar;
    ds := Nothing(scene, PageOf(st));
    if st.position.Some? && !st.position.value.stopCancelled {
      var p := st.position.value;
      if TouchesStop(p, bar) {
        var pathAmbiguous := Favourable(p.side, p.entryPrice, bar) > p.mfePoints;
        var marked := p.(maePoints := Max(p.maePoints, Abs(p.entryPrice - p.stopPrice)));
        ds := CloseDeeds(scene, st.(position := Some(marked)), p.stopPrice, bar.timestamp, Stop,
                         TouchesTarget(p, bar) || pathAmbiguous);
      } else if TouchesTarget(p, bar) {
        var marked := p.(mfePoints := Max(p.mfePoints, Abs(p.targetPrice.value - p.entryPrice)));
        ds := CloseDeeds(scene, st.(position := Some(marked)), p.targetPrice.value, bar.timestamp, Target, false);
      }
    }
  }

  lemma {:induction false} BackstopDeeds(scene: Scene, st: EngineState) returns (ds: seq<Deed>)
    ensures Makes(scene, PageOf(st), ds,
                  PageOf(BackstopFlatten(scene.cfg, UpdateExcursions(st, scene.tick.bar), scene.tick)))
  {
    hide Makes, ClosePosition;
    var bar, tracked := scene.tick.bar, UpdateExcursions(st, scene.tick.bar);
    assert PageOf(tracked) == PageOf(st);
    if InFlattenWindow(scene.cfg, scene.tick.session) {
      ds := CloseAfterCancelDeeds(scene, tracked, bar.timestamp, bar.close, bar.timestamp, SessionFlatten);
    } else {
      ds := Nothing(scene, PageOf(st));
    }
  }

  lemma {:induction false} LossCheckDeeds(scene: Scene, st: EngineState) returns (ds: seq<Deed>)
    ensures Makes(scene, PageOf(st), ds, PageOf(CheckDailyLoss(scene.cfg, st, scene.tick.bar)))
  {
    var pnl := SessionPnl(scene.cfg, st, scene.tick.bar);
    if st.dailyLimitHit || !LossBreached(pnl, scene.cfg.dailyLossLimit) {
      ds := Nothing(scene, PageOf(st));
    } else {
      ds := LogDeeds(scene, st, TransitionRecord(scene.tick.bar.timestamp,
                                                 DailyLimitHit(pnl, scene.cfg.dailyLossLimit.value)));
    }
  }

  /** The pre-strategy steps, after the bar itself has been recorded. */
  lemma {:induction false} PreStrategyDeeds(scene: Scene, st: EngineState) returns (ds: seq<Deed>)
    requires Inv(scene.cfg, st) && scene.previous == st.previous && OwnExit(scene.ownReasons, st)
    ensures Makes(scene, PageOf(st), ds, PageOf(PreStrategy(scene.cfg, st, scene.tick)))
    ensures OwnExit(scene.ownReasons, PreStrategy(scene.cfg, st, scene.tick))
  {
    hide Makes, AtOpen, IntrabarStopAndTarget, BackstopFlatten, UpdateExcursions, CheckDailyLoss, Inv, OwnExit;
    var opened' := AtOpen(scene.cfg, st, scene.tick);
    var stopped := IntrabarStopAndTarget(scene.cfg, opened', scene.tick.bar);
    var during := DuringBar(scene.cfg, opened', scene.tick);
    ds := AtOpenDeeds(scene, st);
    var es := IntrabarDeeds(scene, opened');
    Then(scene, PageOf(st), ds, PageOf(opened'), es, PageOf(stopped));
    var fs := BackstopDeeds(scene, stopped);
    Then(scene, PageOf(st), ds + es, PageOf(stopped), fs, PageOf(during));
    var gs := LossCheckDeeds(scene, during);
    Then(scene, PageOf(st), ds + es + fs, PageOf(during), gs, PageOf(PreStrategy(scene.cfg, st, scene.tick)));
    RestQueuesOwnExits(scene.cfg, opened', scene.tick, scene.ownReasons);
    ds := ds + es + fs + gs;
  }

  lemma {:induction false} DuringBarQueuesNothing(cfg: Config, st: EngineState, tick: Tick)
    requires st.pendingExit.None?
    ensures DuringBar(cfg, st, tick).pendingExit.None?
  {
    hide TouchesStop, TouchesTarget, ExitFill, ClosedTrade, EffectiveFlatten;
  }

  lemma {:induction false} RestQueuesOwnExits(cfg: Config, st: EngineState, tick: Tick, ownReasons: bool)
    requires st.pendingExit.None?
    ensures OwnExit(ownReasons, CheckDailyLoss(cfg, DuringBar(cfg, st, tick), tick.bar))
  {
    hide DuringBar, SessionPnl, LossBreached;
    DuringBarQueuesNothing(cfg, st, tick);
  }

  /** The engine after the supervisor's flatten, its feedback not polled yet. */
  function Flattened(cfg: Config, st: EngineState, bar: Bar, breach: Option<Reason>): EngineState {
    if breach.None? then st
    else
      var record := TransitionRecord(bar.timestamp, ExecutionHalt(Breach(breach.value)));
      FlattenNow(cfg, Log(st, record), bar, breach.value)
  }

  lemma {:induction false} SupervisorDeeds(scene: Scene, st: EngineState, breach: Option<Reason>)
    returns (ds: seq<Deed>)
    requires OwnExit(scene.ownReasons, st)
    requires scene.ownReasons && breach.Some? ==> !EngineReason(breach.value)
    ensures Makes(scene, PageOf(st), ds, PageOf(Flattened(scene.cfg, st, scene.tick.bar, breach)))
    ensures OwnExit(scene.ownReasons, Flattened(scene.cfg, st, scene.tick.bar, breach))
  {
    var bar := scene.tick.bar;
    if breach.None? {
      ds := Nothing(scene, PageOf(st));
    } else {
      var record := TransitionRecord(bar.timestamp, ExecutionHalt(Breach(breach.value)));
      var halted := Log(st, record);
      FlattenQueuesNothing(scene.cfg, halted, bar, breach.value);
      hide Makes, ClosePosition, FlattenNow, CancelPendings;
      ds := LogDeeds(scene, st, record);
      var es := FlattenDeeds(scene, halted, breach.value);
      Then(scene, PageOf(st), ds, PageOf(halted), es, PageOf(FlattenNow(scene.cfg, halted, bar, breach.value)));
      ds := ds + es;
    }
  }

  lemma {:induction false} FlattenQueuesNothing(cfg: Config, st: EngineState, bar: Bar, reason: Reason)
    ensures FlattenNow(cfg, st, bar, reason).pendingExit.None?
  {
  }

  lemma {:induction false} FlattenDeeds(scene: Scene, st: EngineState, reason: Reason) returns (ds: seq<Deed>)
    requires scene.ownReasons ==> !EngineReason(reason)
    ensures Makes(scene, PageOf(st), ds, PageOf(FlattenNow(scene.cfg, st, scene.tick.bar, reason)))
  {
    hide Makes, ClosePosition, CancelPendings;
    var bar := scene.tick.bar;
    ds := CloseAfterCancelDeeds(scene, st, bar.timestamp, bar.close, bar.timestamp, reason);
  }

  lemma {:induction false} VetoDeeds(scene: Scene, st: EngineState, vetoes: seq<RiskVeto>) returns (ds: seq<Deed>)
    ensures Makes(scene, PageOf(st), ds, PageOf(LogVetoes(st, vetoes)))
    decreases |vetoes|
  {
    hide Makes;
    if |vetoes| == 0 {
      ds := Nothing(scene, PageOf(st));
    } else {
      var before, v := LogVetoes(st, vetoes[..|vetoes| - 1]), vetoes[|vetoes| - 1];
      ds := VetoDeeds(scene, st, vetoes[..|vetoes| - 1]);
      var es := LogDeeds(scene, before, VetoRecord(v.timestamp, v));
      Then(scene, PageOf(st), ds, PageOf(before), es, PageOf(LogVetoes(st, vetoes)));
      ds := ds + es;
    }
  }

  lemma {:induction false} StopUpdateDeeds(scene: Scene, st: EngineState, updates: seq<StopUpdate>)
    returns (ds: seq<Deed>)
    ensures Makes(scene, PageOf(st), ds, PageOf(LogStopUpdates(st, updates)))
    decreases |updates|
  {
    hide Makes;
    if |updates| == 0 {
      ds := Nothing(scene, PageOf(st));
    } else {
      var before, u := LogStopUpdates(st, updates[..|updates| - 1]), updates[|updates| - 1];
      ds := StopUpdateDeeds(scene, st, updates[..|updates| - 1]);
      var es := LogDeeds(scene, before, StopRecord(u.timestamp, u.symbol, u.stopPrice, u.reason, false));
      Then(scene, PageOf(st), ds, PageOf(before), es, PageOf(LogStopUpdates(st, updates)));
      ds := ds + es;
    }
  }

  lemma {:induction false} SignalDeeds(scene: Scene, st: EngineState, signal: Option<SignalDecision>)
    returns (ds: seq<Deed>)
    ensures Makes(scene, PageOf(st), ds, PageOf(LogSignal(st, signal)))
  {
    hide Makes;
    if signal.None? {
      ds := Nothing(scene, PageOf(st));
    } else {
      var record := SignalRecord(signal.value.timestamp, signal.value);
      ds := LogDeeds(scene, st, record);
      if signal.value.decision.Rejected? {
        var es := LogDeeds(scene, Log(st, record), RejectionRecord(signal.value.timestamp, signal.value));
        Then(scene, PageOf(st), ds, PageOf(Log(st, record)), es, PageOf(LogSignal(st, signal)));
        ds := ds + es;
      }
    }
  }

  lemma {:induction false} LogResultDeeds(scene: Scene, st: EngineState, result: StrategyResult)
    returns (ds: seq<Deed>)
    ensures Makes(scene, PageOf(st), ds, PageOf(LogResult(st, result)))
  {
    hide Makes, LogSignal, LogVetoes, LogStopUpdates;
    var signalled := LogSignal(st, result.signal);
    var vetoed := LogVetoes(signalled, result.riskVetoes);
    ds := SignalDeeds(scene, st, result.signal);
    var es := VetoDeeds(scene, signalled, result.riskVetoes);
    Then(scene, PageOf(st), ds, PageOf(signalled), es, PageOf(vetoed));
    var fs := StopUpdateDeeds(scene, vetoed, result.stopUpdates);
    Then(scene, PageOf(st), ds + es, PageOf(vetoed), fs, PageOf(LogResult(st, result)));
    ds := ds + es + fs;
  }

  lemma {:induction false} ExitDeeds(scene: Scene, st: EngineState, exit: ExitDecision) returns (ds: seq<Deed>)
    requires scene.ownReasons ==> !EngineReason(exit.reason)
    requires OwnExit(scene.ownReasons, st)
    ensures Makes(scene, PageOf(st), ds, PageOf(ApplyExit(scene.cfg, st, scene.tick.bar, exit)))
    ensures OwnExit(scene.ownReasons, ApplyExit(scene.cfg, st, scene.tick.bar, exit))
  {
    hide Makes;
    if st.position.None? {
      ds := Nothing(scene, PageOf(st));
    } else {
      var bar, record := scene.tick.bar, ExitRecord(exit.timestamp, exit);
      ds := LogDeeds(scene, st, record);
      if scene.cfg.fillTiming.SignalBarClose? {
        var es := CloseDeeds(scene, Log(st, record), bar.close, bar.timestamp, exit.reason, false);
        Then(scene, PageOf(st), ds, PageOf(Log(st, record)), es, PageOf(ApplyExit(scene.cfg, st, bar, exit)));
        ds := ds + es;
      }
    }
  }

  lemma {:induction false} ExitsDeeds(scene: Scene, st: EngineState, exits: seq<ExitDecision>) returns (ds: seq<Deed>)
    requires scene.ownReasons ==> forall i :: 0 <= i < |exits| ==> !EngineReason(exits[i].reason)
    requires OwnExit(scene.ownReasons, st)
    ensures Makes(scene, PageOf(st), ds, PageOf(ApplyExits(scene.cfg, st, scene.tick.bar, exits)))
    ensures OwnExit(scene.ownReasons, ApplyExits(scene.cfg, st, scene.tick.bar, exits))
    decreases |exits|
  {
    hide Makes, ApplyExit, OwnExit;
    if |exits| == 0 {
      ds := Nothing(scene, PageOf(st));
    } else {
      var before := ApplyExits(scene.cfg, st, scene.tick.bar, exits[..|exits| - 1]);
      ds := ExitsDeeds(scene, st, exits[..|exits| - 1]);
      var es := ExitDeeds(scene, before, exits[|exits| - 1]);
      Then(scene, PageOf(st), ds, PageOf(before), es, PageOf(ApplyExits(scene.cfg, st, scene.tick.bar, exits)));
      ds := ds + es;
    }
  }

  lemma {:induction false} IntentDeeds(scene: Scene, st: EngineState, intent: OrderIntent) returns (ds: seq<Deed>)
    requires OwnExit(scene.ownReasons, st)
    ensures Makes(scene, PageOf(st), ds, PageOf(ApplyIntent(scene.cfg, st, scene.tick, intent)))
    ensures OwnExit(scene.ownReasons, ApplyIntent(scene.cfg, st, scene.tick, intent))
  {
    hide Makes, VetoOf;
    var veto := VetoOf(scene.cfg, st, scene.tick.session, intent);
    if veto.Some? {
      ds := LogDeeds(scene, st, IntentVetoRecord(intent.timestamp, intent, veto.value));
    } else {
      var record := IntentRecord(intent.timestamp, intent);
      ds := LogDeeds(scene, st, record);
      if scene.cfg.fillTiming.SignalBarClose? {
        var es := OpenDeeds(scene, Log(st, record), intent, intent.metadata.stopPrice.value,
                            intent.metadata.targetPrice, scene.tick.bar.close);
        Then(scene, PageOf(st), ds, PageOf(Log(st, record)), es,
             PageOf(ApplyIntent(scene.cfg, st, scene.tick, intent)));
        ds := ds + es;
      }
    }
  }

  lemma {:induction false} IntentsDeeds(scene: Scene, st: EngineState, intents: seq<OrderIntent>)
    returns (ds: seq<Deed>)
    requires OwnExit(scene.ownReasons, st)
    ensures Makes(scene, PageOf(st), ds, PageOf(ApplyIntents(scene.cfg, st, scene.tick, intents)))
    ensures OwnExit(scene.ownReasons, ApplyIntents(scene.cfg, st, scene.tick, intents))
    decreases |intents|
  {
    hide Makes, ApplyIntent, OwnExit;
    if |intents| == 0 {
      ds := Nothing(scene, PageOf(st));
    } else {
      var before := ApplyIntents(scene.cfg, st, scene.tick, intents[..|intents| - 1]);
      ds := IntentsDeeds(scene, st, intents[..|intents| - 1]);
      var es := IntentDeeds(scene, before, intents[|intents| - 1]);
      Then(scene, PageOf(st), ds, PageOf(before), es, PageOf(ApplyIntents(scene.cfg, st, scene.tick, intents)));
      ds := ds + es;
    }
  }

  /** Strategy and supervisor give no reason the engine gives. */
  predicate OwnResult(result: StrategyResult) {
    forall i :: 0 <= i < |result.exits| ==> !EngineReason(result.exits[i].reason)
  }

  lemma {:induction false} AnswerDeeds(scene: Scene, st: EngineState, result: StrategyResult) returns (ds: seq<Deed>)
    requires OwnExit(scene.ownReasons, st) && (scene.ownReasons ==> OwnResult(result))
    ensures Makes(scene, PageOf(st), ds, PageOf(ApplyResult(scene.cfg, st, scene.tick, result)))
    ensures OwnExit(scene.ownReasons, ApplyResult(scene.cfg, st, scene.tick, result))
  {
    hide Makes, LogResult, ApplyExits, ApplyIntents;
    var logged := LogResult(st, result);
    var exited := ApplyExits(scene.cfg, logged, scene.tick.bar, result.exits);
    LogResultOnlyLogs(st, result);
    ds := LogResultDeeds(scene, st, result);
    var es := ExitsDeeds(scene, logged, result.exits);
    Then(scene, PageOf(st), ds, PageOf(logged), es, PageOf(exited));
    var fs := IntentsDeeds(scene, exited, result.orderIntents);
    Then(scene, PageOf(st), ds + es, PageOf(exited), fs, PageOf(ApplyResult(scene.cfg, st, scene.tick, result)));
    ds := ds + es + fs;
  }

  lemma {:induction false} EndDeeds(scene: Scene, st: EngineState) returns (ds: seq<Deed>)
    requires st.previous == Some(scene.tick)
    ensures Makes(scene, PageOf(st), ds, PageOf(CloseEndOfData(scene.cfg, st)))
  {
    var last := scene.tick.bar;
    if st.pendingEntry.None? {
      ds := CloseDeeds(scene, st, last.close, last.timestamp, EndOfData, false);
    } else {
      var record := TransitionRecord(last.timestamp, PendingOrdersCancelled(EndOfData));
      var cancelled := Log(st, record).(pendingEntry := None);
      ds := LogDeeds(scene, st, record);
      hide Makes, ClosePosition;
      assert PageOf(cancelled) == PageOf(Log(st, record));
      var es := CloseDeeds(scene, cancelled, last.close, last.timestamp, EndOfData, false);
      Then(scene, PageOf(st), ds, PageOf(cancelled), es, PageOf(CloseEndOfData(scene.cfg, st)));
      ds := ds + es;
    }
  }
}
