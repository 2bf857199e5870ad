/** Reading prices, causes and money off the ledger of any run. */
module LedgerAccounts {
  import opened Prelude
  import opened Market
  import opened Events
  import opened EngineSpec
  import opened EngineRun
  import opened EngineInvariants
  import opened HaltSafety
  import opened Deeds

  function BarsIn(ledger: seq<EventRecord>): nat
    decreases |ledger|
  {
    if |ledger| == 0 then 0
    else BarsIn(ledger[..|ledger| - 1]) + if ledger[|ledger| - 1].BarRecord? then 1 else 0
  }

  function TradesIn(ledger: seq<EventRecord>): nat
    decreases |ledger|
  {
    if |ledger| == 0 then 0
    else TradesIn(ledger[..|ledger| - 1]) + if ledger[|ledger| - 1].TradeRecord? then 1 else 0
  }

  /** The latest fill made while flat. */
  function LastEntry(ledger: seq<EventRecord>): Option<Fill>
    decreases |ledger|
  {
    if |ledger| == 0 then None
    else
      var before, last := ledger[..|ledger| - 1], ledger[|ledger| - 1];
      if last.FillRecord? && !ReplayFills(before).open then Some(last.fill) else LastEntry(before)
  }

  /** The run being read: its configuration, its ticks, and whether all its exits say who wanted them. */
  datatype Reading = Reading(cfg: Config, ticks: seq<Tick>, ownReasons: bool)

  function TickBefore(ticks: seq<Tick>, k: nat): Option<Tick>
    requires k < |ticks|
  {
    if k == 0 then None else Some(ticks[k - 1])
  }

  function SceneOf(r: Reading, k: nat): Scene
    requires k < |r.ticks|
  {
    Scene(r.cfg, r.ticks[k], TickBefore(r.ticks, k), r.ownReasons)
  }

  /** Some bar was being processed when the ledger had come this far. */
  predicate UnderWay(r: Reading, ledger: seq<EventRecord>) {
    1 <= BarsIn(ledger) <= |r.ticks|
  }

  function SceneAt(r: Reading, ledger: seq<EventRecord>): Scene
    requires UnderWay(r, ledger)
  {
    SceneOf(r, BarsIn(ledger) - 1)
  }

  predicate FromEntry(h: Holding, entry: Fill) {
    && h.symbol == entry.symbol && h.quantity == entry.quantity
    && !entry.side.Unknown? && h.side == (if entry.side.Buy? then Long else Short)
    && h.since == entry.timestamp && h.price == entry.price
  }

  /** Stop and target are the filled intent's. */
  predicate OnTerms(h: Holding, intent: OrderIntent) {
    intent.metadata.stopPrice == Some(h.stop) && intent.metadata.targetPrice == h.target
  }

  /** The trade is what its two fills in the ledger make of it, and the exit had its cause. */
  ghost predicate ClosedOut(scene: Scene, intent: OrderIntent, entry: Fill, exit: Fill, trade: Trade) {
    exists h: Holding ::
      && FromEntry(h, entry) && OnTerms(h, intent)
      && Discharged(scene.cfg, h, exit) && Accounted(scene.cfg, h, exit, trade)
      && Caused(scene, h, exit.rawPrice, exit.timestamp, exit.reason)
  }

  /** The fill is the entry of that intent, charged on the bar at hand. */
  predicate Entry(scene: Scene, intent: OrderIntent, fill: Fill) {
    Charged(scene, fill) && intent.metadata.stopPrice.Some? && Ordered(fill, intent, intent.metadata.stopPrice.value)
  }

  /**
   * Record i is in order: a fill made while flat is the entry of the next filled intent; any other fill is an
   * exit, followed by the trade it makes with the latest entry; and there is no other trade record.
   */
  ghost predicate InOrder(r: Reading, filled: seq<OrderIntent>, ledger: seq<EventRecord>, i: nat)
    requires i < |ledger|
  {
    match ledger[i]
    case FillRecord(_, fill) =>
      && UnderWay(r, ledger[..i]) && TradesIn(ledger[..i]) < |filled|
      && var scene, intent := SceneAt(r, ledger[..i]), filled[TradesIn(ledger[..i])];
         if !ReplayFills(ledger[..i]).open then Entry(scene, intent, fill)
         else
           && i + 1 < |ledger| && ledger[i + 1].TradeRecord?
           && LastEntry(ledger[..i]).Some?
           && ClosedOut(scene, intent, LastEntry(ledger[..i]).value, fill, ledger[i + 1].trade)
    case TradeRecord(_, _) => i > 0 && ledger[i - 1].FillRecord? && ReplayFills(ledger[..i - 1]).open
    case _ => true
  }

  ghost predicate AllInOrder(r: Reading, filled: seq<OrderIntent>, ledger: seq<EventRecord>) {
    forall i: nat :: i < |ledger| ==> InOrder(r, filled, ledger, i)
  }

  lemma {:induction false} StaysInOrder(r: Reading, filled: seq<OrderIntent>, ledger: seq<EventRecord>,
                                        moreFilled: seq<OrderIntent>, more: seq<EventRecord>, i: nat)
    requires i < |ledger| && InOrder(r, filled, ledger, i)
    ensures InOrder(r, filled + moreFilled, ledger + more, i)
  {
    hide ClosedOut, Entry, BarsIn, TradesIn, ReplayFills, LastEntry;
    assert (ledger + more)[..i] == ledger[..i];
    if i > 0 {
      assert (ledger + more)[..i - 1] == ledger[..i - 1];
    }
  }

  /** What the ledger says is held is what is held, on the terms of the latest filled intent. */
  predicate Linked(p: Page) {
    && ReplayFills(p.ledger).open == p.holding.Some?
    && |p.filled| == TradesIn(p.ledger) + (if p.holding.Some? then 1 else 0)
    && (p.holding.Some? ==>
          && LastEntry(p.ledger).Some? && FromEntry(p.holding.value, LastEntry(p.ledger).value)
          && OnTerms(p.holding.value, p.filled[|p.filled| - 1]))
  }

  lemma {:induction false} ReadOne(ledger: seq<EventRecord>, record: EventRecord)
    ensures BarsIn(ledger + [record]) == BarsIn(ledger) + if record.BarRecord? then 1 else 0
    ensures TradesIn(ledger + [record]) == TradesIn(ledger) + if record.TradeRecord? then 1 else 0
    ensures LastEntry(ledger + [record])
            == if record.FillRecord? && !ReplayFills(ledger).open then Some(record.fill) else LastEntry(ledger)
  {
    hide ReplayFills;
    assert (ledger + [record])[..|ledger|] == ledger;
  }

  lemma {:induction false} WriteStaysInOrder(r: Reading, p: Page, record: EventRecord)
    requires AllInOrder(r, p.filled, p.ledger) && Linked(p)
    requires !record.FillRecord? && !record.TradeRecord?
    ensures
      var q := p.(ledger := p.ledger + [record]);
      AllInOrder(r, q.filled, q.ledger) && Linked(q)
  {
    hide InOrder, ReplayFills, FromEntry, OnTerms, BarsIn, TradesIn;
    ReadOne(p.ledger, record);
    ReplayOne(p.ledger, record);
    forall i: nat | i < |p.ledger + [record]|
      ensures InOrder(r, p.filled, p.ledger + [record], i)
    {
      if i < |p.ledger| {
        StaysInOrder(r, p.filled, p.ledger, [], [record], i);
        assert p.filled + [] == p.filled;
      } else {
        OtherIsInOrder(r, p.filled, p.ledger, record);
      }
    }
  }

  lemma {:induction false} OtherIsInOrder(r: Reading, filled: seq<OrderIntent>, ledger: seq<EventRecord>,
                                          record: EventRecord)
    requires !record.FillRecord? && !record.TradeRecord?
    ensures InOrder(r, filled, ledger + [record], |ledger|)
  {
  }

  lemma {:induction false} EnterStaysInOrder(r: Reading, scene: Scene, p: Page, d: Deed)
    requires AllInOrder(r, p.filled, p.ledger) && Linked(p)
    requires UnderWay(r, p.ledger) && scene == SceneAt(r, p.ledger)
    requires d.Enter? && Allowed(scene, p, d)
    ensures AllInOrder(r, Do(p, d).filled, Do(p, d).ledger) && Linked(Do(p, d))
    ensures BarsIn(Do(p, d).ledger) == BarsIn(p.ledger)
  {
    hide InOrder, ReplayFills, BarsIn, TradesIn;
    var record := FillRecord(d.entry.timestamp, d.entry);
    var filled := p.ledger + [record];
    ReadOne(p.ledger, record);
    ReplayOne(p.ledger, record);
    forall i: nat | i < |filled|
      ensures InOrder(r, p.filled + [d.intent], filled, i)
    {
      if i < |p.ledger| {
        StaysInOrder(r, p.filled, p.ledger, [d.intent], [record], i);
      } else {
        EntryIsInOrder(r, scene, p.filled, p.ledger, d.intent, d.entry);
      }
    }
    var stop := StopRecord(d.entry.timestamp, d.entry.symbol, d.stop, "initial_stop", true);
    var held := Do(p, d).(ledger := filled);
    ReadOne(filled, stop);
    assert AllInOrder(r, held.filled, held.ledger);
    assert Linked(held) by { HeldFromItsEntry(d); }
    WriteStaysInOrder(r, held, stop);
  }

  lemma {:induction false} HeldFromItsEntry(d: Deed)
    requires d.Enter? && Ordered(d.entry, d.intent, d.stop) && !d.entry.side.Unknown?
    ensures
      var h := Holding(d.entry.symbol, SideOfEntry(d.entry.side), d.entry.quantity, d.entry.timestamp, d.entry.price,
                       d.stop, d.intent.metadata.targetPrice, d.date);
      FromEntry(h, d.entry) && OnTerms(h, d.intent)
  {
  }

  lemma {:induction false} EntryIsInOrder(r: Reading, scene: Scene, filled: seq<OrderIntent>, ledger: seq<EventRecord>,
                                          intent: OrderIntent, entry: Fill)
    requires UnderWay(r, ledger) && scene == SceneAt(r, ledger)
    requires |filled| == TradesIn(ledger) && !ReplayFills(ledger).open && Entry(scene, intent, entry)
    ensures InOrder(r, filled + [intent], ledger + [FillRecord(entry.timestamp, entry)], |ledger|)
  {
    hide Entry, ReplayFills, BarsIn, TradesIn;
    assert (ledger + [FillRecord(entry.timestamp, entry)])[..|ledger|] == ledger;
  }

  lemma {:induction false} LeaveStaysInOrder(r: Reading, scene: Scene, p: Page, d: Deed)
    requires AllInOrder(r, p.filled, p.ledger) && Linked(p)
    requires UnderWay(r, p.ledger) && scene == SceneAt(r, p.ledger)
    requires d.Leave? && Allowed(scene, p, d)
    ensures AllInOrder(r, Do(p, d).filled, Do(p, d).ledger) && Linked(Do(p, d))
    ensures BarsIn(Do(p, d).ledger) == BarsIn(p.ledger)
  {
    hide InOrder, ReplayFills, BarsIn, TradesIn, Discharged, Accounted, Caused, FromEntry, OnTerms;
    var out, sold := FillRecord(d.exit.timestamp, d.exit), TradeRecord(d.exit.timestamp, d.trade);
    ReadOne(p.ledger, out);
    ReplayOne(p.ledger, out);
    ReadOne(p.ledger + [out], sold);
    ReplayOne(p.ledger + [out], sold);
    var intent := p.filled[|p.filled| - 1];
    assert ClosedOut(scene, intent, LastEntry(p.ledger).value, d.exit, d.trade);
    var after := Do(p, d).ledger;
    assert after == p.ledger + [out, sold];
    forall i: nat | i < |after|
      ensures InOrder(r, p.filled, after, i)
    {
      if i < |p.ledger| {
        StaysInOrder(r, p.filled, p.ledger, [], [out, sold], i);
        assert p.filled + [] == p.filled;
      } else {
        ExitIsInOrder(r, scene, p.filled, p.ledger, d.exit, d.trade, i);
      }
    }
  }

  lemma {:induction false} ExitIsInOrder(r: Reading, scene: Scene, filled: seq<OrderIntent>, ledger: seq<EventRecord>,
                                         exit: Fill, trade: Trade, i: nat)
    requires UnderWay(r, ledger) && scene == SceneAt(r, ledger)
    requires |filled| == TradesIn(ledger) + 1 && ReplayFills(ledger).open && LastEntry(ledger).Some?
    requires ClosedOut(scene, filled[|filled| - 1], LastEntry(ledger).value, exit, trade)
    requires |ledger| <= i < |ledger| + 2
    ensures
      InOrder(r, filled, ledger + [FillRecord(exit.timestamp, exit), TradeRecord(exit.timestamp, trade)], i)
  {
    hide ClosedOut, ReplayFills, LastEntry, BarsIn, TradesIn;
    assert (ledger + [FillRecord(exit.timestamp, exit), TradeRecord(exit.timestamp, trade)])[..|ledger|] == ledger;
  }

  lemma {:induction false} DeedsStayInOrder(r: Reading, scene: Scene, p: Page, ds: seq<Deed>)
    requires AllInOrder(r, p.filled, p.ledger) && Linked(p)
    requires UnderWay(r, p.ledger) && scene == SceneAt(r, p.ledger)
    requires AllAllowed(scene, p, ds)
    ensures AllInOrder(r, DoAll(p, ds).filled, DoAll(p, ds).ledger) && Linked(DoAll(p, ds))
    ensures BarsIn(DoAll(p, ds).ledger) == BarsIn(p.ledger)
    decreases |ds|
  {
    hide AllInOrder, Linked, BarsIn, Charged, Discharged, Accounted, Caused, Ordered;
    if |ds| == 0 {
    } else {
      DeedsStayInOrder(r, scene, p, ds[..|ds| - 1]);
      var before, d := DoAll(p, ds[..|ds| - 1]), ds[|ds| - 1];
      match d
      case Write(record) =>
        ReadOne(before.ledger, record);
        WriteStaysInOrder(r, before, record);
      case Enter(_, _, _, _) => EnterStaysInOrder(r, scene, before, d);
      case Leave(_, _) => LeaveStaysInOrder(r, scene, before, d);
    }
  }

  lemma {:induction false} PollStaysLinked(p: Page)
    requires Linked(p)
    ensures Linked(p.(feedback := []))
  {
  }

  // ---- Runs ----

  function TicksOf(script: seq<ScriptBar>): (ticks: seq<Tick>)
    ensures |ticks| == |script|
  {
    seq(|script|, i requires 0 <= i < |script| => script[i].tick)
  }

  /** No strategy exit and no breach of the script borrows one of the engine's reasons. */
  predicate OwnReasons(script: seq<ScriptBar>) {
    forall i :: 0 <= i < |script| ==>
      OwnResult(script[i].result) && (script[i].breach.Some? ==> !EngineReason(script[i].breach.value))
  }

  /** What a page of a run keeps: its ledger in order, linked to what is held, after that many bars. */
  ghost predicate Kept(r: Reading, bars: nat, st: EngineState) {
    && AllInOrder(r, st.filledIntents, st.ledger) && Linked(PageOf(st))
    && BarsIn(st.ledger) == bars
    && OwnExit(r.ownReasons, st)
  }

  lemma {:induction false} SegmentKeeps(r: Reading, bars: nat, st: EngineState, ds: seq<Deed>, next: EngineState)
    requires 1 <= bars <= |r.ticks| && Kept(r, bars, st)
    requires Makes(SceneOf(r, bars - 1), PageOf(st), ds, PageOf(next)) && OwnExit(r.ownReasons, next)
    ensures Kept(r, bars, next)
  {
    hide AllInOrder, Linked, BarsIn, OwnExit;
    DeedsStayInOrder(r, SceneOf(r, bars - 1), PageOf(st), ds);
  }

  /** Polling and remembering the bar change nothing a reader sees. */
  lemma {:induction false} QuietStepKeeps(r: Reading, bars: nat, st: EngineState, next: EngineState)
    requires Kept(r, bars, st)
    requires next == st.(feedback := next.feedback, previous := next.previous)
    ensures Kept(r, bars, next)
  {
    hide AllInOrder, BarsIn, ReplayFills, LastEntry, TradesIn;
  }

  lemma {:induction false} BarRecordKeeps(r: Reading, bars: nat, st: EngineState, bar: Bar)
    requires Kept(r, bars, st)
    ensures Kept(r, bars + 1, Log(st, BarRecord(bar.timestamp, bar)))
  {
    hide AllInOrder, Linked, BarsIn;
    var record := BarRecord(bar.timestamp, bar);
    ReadOne(st.ledger, record);
    WriteStaysInOrder(r, PageOf(st), record);
    assert PageOf(Log(st, record)) == PageOf(st).(ledger := st.ledger + [record]);
  }

  /** One bar. */
  lemma {:induction false} BarKeepsOrder(r: Reading, bars: nat, st: EngineState, b: ScriptBar)
    requires bars < |r.ticks| && r.ticks[bars] == b.tick && st.previous == TickBefore(r.ticks, bars)
    requires Kept(r, bars, st) && Inv(r.cfg, st)
    requires r.ownReasons ==> OwnResult(b.result) && (b.breach.Some? ==> !EngineReason(b.breach.value))
    ensures Kept(r, bars + 1, EngineBar(r.cfg, st, b))
  {
    hide Makes, PreStrategy, FlattenNow, ApplyResult, Inv, AllInOrder, Linked, BarsIn, OwnExit, OwnResult;
    var cfg, bar, scene := r.cfg, b.tick.bar, SceneOf(r, bars);
    var logged := Log(st, BarRecord(bar.timestamp, bar));
    LogKeeps(cfg, st, BarRecord(bar.timestamp, bar));
    BarRecordKeeps(r, bars, st, bar);
    var stepped, marked := PreStrategy(cfg, logged, b.tick), AfterPreStrategy(cfg, st, b.tick);
    var ds := PreStrategyDeeds(scene, logged);
    SegmentKeeps(r, bars + 1, logged, ds, stepped);
    QuietStepKeeps(r, bars + 1, stepped, marked);
    var flat, supervised := Flattened(cfg, marked, bar, b.breach), AfterSupervisor(cfg, marked, bar, b.breach);
    var es := SupervisorDeeds(scene, marked, b.breach);
    SegmentKeeps(r, bars + 1, marked, es, flat);
    QuietStepKeeps(r, bars + 1, flat, supervised);
    var applied := ApplyResult(cfg, supervised, b.tick, b.result);
    var fs := AnswerDeeds(scene, supervised, b.result);
    SegmentKeeps(r, bars + 1, supervised, fs, applied);
    QuietStepKeeps(r, bars + 1, applied, EngineBar(cfg, st, b));
  }

  lemma {:induction false} RunRemembers(cfg: Config, script: seq<ScriptBar>)
    ensures Run(cfg, script).previous == if script == [] then None else Some(script[|script| - 1].tick)
  {
    hide ApplyResult, AfterSupervisor, AfterPreStrategy;
  }

  function ReadingOf(cfg: Config, script: seq<ScriptBar>): Reading {
    Reading(cfg, TicksOf(script), OwnReasons(script))
  }

  /** Every ledger of every run is in order from its first record to its last. */
  lemma {:induction false} RunIsInOrder(cfg: Config, script: seq<ScriptBar>, n: nat)
    requires AdmissibleScript(script) && n <= |script|
    ensures Kept(ReadingOf(cfg, script), n, Run(cfg, script[..n]))
    decreases n
  {
    hide EngineBar, Kept, Inv, OwnReasons, OwnResult;
    var r := ReadingOf(cfg, script);
    if n == 0 {
      NothingIsInOrder(r);
      assert script[..0] == [];
    } else {
      var before, b := script[..n - 1], script[n - 1];
      RunIsInOrder(cfg, script, n - 1);
      assert script[..n][..n - 1] == before;
      assert AdmissibleScript(before);
      EveryReachableStateIsSafe(cfg, before);
      RunRemembers(cfg, before);
      OwnBar(script, n - 1);
      BarKeepsOrder(r, n - 1, Run(cfg, before), b);
    }
  }

  lemma {:induction false} OwnBar(script: seq<ScriptBar>, k: nat)
    requires k < |script|
    ensures OwnReasons(script) ==>
      OwnResult(script[k].result) && (script[k].breach.Some? ==> !EngineReason(script[k].breach.value))
  {
  }

  lemma {:induction false} NothingIsInOrder(r: Reading)
    ensures Kept(r, 0, Initial([]))
  {
  }

  /** The same for runs closed at the end of the data, whose every fill is accounted for. */
  lemma {:induction false} EveryLedgerIsInOrder(cfg: Config, script: seq<ScriptBar>)
    requires AdmissibleScript(script)
    ensures
      var end := CompleteRun(cfg, script);
      AllInOrder(ReadingOf(cfg, script), end.filledIntents, end.ledger) && Linked(PageOf(end))
  {
    hide AllInOrder, Linked, BarsIn, CloseEndOfData, OwnExit, Run, OwnReasons;
    var r := ReadingOf(cfg, script);
    assert script[..|script|] == script;
    RunIsInOrder(cfg, script, |script|);
    RunRemembers(cfg, script);
    if script == [] {
      EmptyEnd(cfg);
      NothingIsInOrder(r);
    } else {
      var scene := SceneOf(r, |script| - 1);
      var ds := EndDeeds(scene, Run(cfg, script));
      DeedsStayInOrder(r, scene, PageOf(Run(cfg, script)), ds);
      PollStaysLinked(PageOf(CloseEndOfData(cfg, Run(cfg, script))));
    }
  }

  lemma {:induction false} EmptyEnd(cfg: Config)
    ensures CompleteRun(cfg, []) == Run(cfg, []) == Initial([])
  {
  }

  // ---- What that says ----

  /** What an entry fill costs on a bar. */
  predicate PaysSlippage(cfg: Config, tick: Tick, fill: Fill) {
    var worse := cfg.entrySlippage + if tick.session.isRthOpenWindow then cfg.rthOpenExtraSlippage else 0.0;
    && fill.timestamp == tick.bar.timestamp
    && fill.rawPrice == (if cfg.fillTiming.NextBarOpen? then tick.bar.open else tick.bar.close)
    && (fill.side.Buy? ==> fill.price == fill.rawPrice + worse)
    && (!fill.side.Buy? ==> fill.side.Sell? && fill.price == fill.rawPrice - worse)
  }

  /** The order the fill carries out. */
  predicate CarriesOut(fill: Fill, intent: OrderIntent) {
    && fill.symbol == intent.symbol && fill.side == intent.side
    && fill.quantity == intent.quantity && fill.reason == intent.reason
  }

  /** What a closed trade makes of its two fills. */
  predicate MakesMoney(cfg: Config, entry: Fill, exit: Fill, trade: Trade) {
    && exit.symbol == entry.symbol && exit.quantity == entry.quantity && exit.side != entry.side
    && exit.price == (if entry.side.Buy? then exit.rawPrice - cfg.exitSlippage else exit.rawPrice + cfg.exitSlippage)
    && trade.entryPrice == entry.price && trade.exitPrice == exit.price && trade.exitReason == exit.reason
    && trade.entryTimestamp == entry.timestamp && trade.exitTimestamp == exit.timestamp
    && trade.netPnl
       == (if entry.side.Buy? then exit.price - entry.price else entry.price - exit.price)
          * cfg.pointValue * entry.quantity as real - cfg.commission * entry.quantity as real
  }

  lemma {:induction false} ClosedOutMakesMoney(scene: Scene, intent: OrderIntent, entry: Fill, exit: Fill, trade: Trade)
    requires ClosedOut(scene, intent, entry, exit, trade)
    ensures MakesMoney(scene.cfg, entry, exit, trade)
  {
    hide Caused;
    var h: Holding :| FromEntry(h, entry) && OnTerms(h, intent) && Discharged(scene.cfg, h, exit)
                      && Accounted(scene.cfg, h, exit, trade)
                      && Caused(scene, h, exit.rawPrice, exit.timestamp, exit.reason);
    var gained := if h.side.Long? then exit.price - h.price else h.price - exit.price;
    assert gained == if entry.side.Buy? then exit.price - entry.price else entry.price - exit.price;
  }

  lemma {:induction false} EntryIsPriced(r: Reading, filled: seq<OrderIntent>, ledger: seq<EventRecord>, i: nat)
    requires AllInOrder(r, filled, ledger) && i < |ledger|
    requires ledger[i].FillRecord? && !ReplayFills(ledger[..i]).open
    ensures UnderWay(r, ledger[..i]) && TradesIn(ledger[..i]) < |filled|
    ensures PaysSlippage(r.cfg, r.ticks[BarsIn(ledger[..i]) - 1], ledger[i].fill)
    ensures CarriesOut(ledger[i].fill, filled[TradesIn(ledger[..i])])
  {
    hide ReplayFills, BarsIn, TradesIn;
    assert InOrder(r, filled, ledger, i);
  }

  /**
   * Slippage: every fill made while flat, on every run, carries out the next of the engine's filled intents,
   * and is priced off the bar being processed, worse for its own side by exactly the entry slippage, and by
   * the extra of the opening window on a bar in that window.
   */
  lemma {:induction false} EntriesPaySlippage(cfg: Config, script: seq<ScriptBar>, i: nat)
    requires AdmissibleScript(script) && i < |CompleteRun(cfg, script).ledger|
    requires CompleteRun(cfg, script).ledger[i].FillRecord?
    requires !ReplayFills(CompleteRun(cfg, script).ledger[..i]).open
    ensures
      var end := CompleteRun(cfg, script);
      var fill, k, j := end.ledger[i].fill, BarsIn(end.ledger[..i]) - 1, TradesIn(end.ledger[..i]);
      && 0 <= k < |script| && PaysSlippage(cfg, script[k].tick, fill)
      && j < |end.filledIntents| && CarriesOut(fill, end.filledIntents[j])
  {
    hide CompleteRun, ReplayFills, BarsIn, TradesIn, AllInOrder, OwnReasons, Linked, PaysSlippage;
    var end := CompleteRun(cfg, script);
    EveryLedgerIsInOrder(cfg, script);
    EntryIsPriced(ReadingOf(cfg, script), end.filledIntents, end.ledger, i);
  }

  lemma {:induction false} ExitIsClosedOut(r: Reading, filled: seq<OrderIntent>, ledger: seq<EventRecord>, i: nat)
    requires AllInOrder(r, filled, ledger) && i < |ledger| && ledger[i].TradeRecord?
    ensures i > 0 && ledger[i - 1].FillRecord? && UnderWay(r, ledger[..i - 1]) && LastEntry(ledger[..i - 1]).Some?
    ensures TradesIn(ledger[..i - 1]) < |filled|
    ensures ClosedOut(SceneAt(r, ledger[..i - 1]), filled[TradesIn(ledger[..i - 1])], LastEntry(ledger[..i - 1]).value,
                      ledger[i - 1].fill, ledger[i].trade)
  {
    hide ReplayFills, BarsIn, TradesIn, LastEntry, ClosedOut, Entry;
    assert InOrder(r, filled, ledger, i);
    assert InOrder(r, filled, ledger, i - 1);
  }

  /**
   * Money: every trade record, on every run, follows the fill that closed it, and its net result is the signed
   * difference of that fill and the latest entry fill, times point value and quantity, less the commission.
   */
  lemma {:induction false} TradesAreTheirFills(cfg: Config, script: seq<ScriptBar>, i: nat)
    requires AdmissibleScript(script) && i < |CompleteRun(cfg, script).ledger|
    requires CompleteRun(cfg, script).ledger[i].TradeRecord?
    ensures
      var ledger := CompleteRun(cfg, script).ledger;
      && i > 0 && ledger[i - 1].FillRecord? && LastEntry(ledger[..i - 1]).Some?
      && MakesMoney(cfg, LastEntry(ledger[..i - 1]).value, ledger[i - 1].fill, ledger[i].trade)
  {
    hide CompleteRun, ReplayFills, BarsIn, TradesIn, LastEntry, AllInOrder, OwnReasons, ClosedOut, MakesMoney, Linked;
    var end, r := CompleteRun(cfg, script), ReadingOf(cfg, script);
    var ledger := end.ledger;
    EveryLedgerIsInOrder(cfg, script);
    ExitIsClosedOut(r, end.filledIntents, ledger, i);
    ClosedOutMakesMoney(SceneAt(r, ledger[..i - 1]), end.filledIntents[TradesIn(ledger[..i - 1])],
                        LastEntry(ledger[..i - 1]).value, ledger[i - 1].fill, ledger[i].trade);
  }

  /** The market event behind an exit: what the bars show, and the intent's own stop and target. */
  predicate MarketCause(cfg: Config, tick: Tick, previous: Option<Tick>, intent: OrderIntent, raw: real, trade: Trade) {
    var bar, long := tick.bar, trade.side.Long?;
    && intent.metadata.stopPrice == Some(trade.stopPrice)
    && match trade.exitReason
       case SessionEnd =>
         && previous.Some? && previous.value.session.date != tick.session.date
         && raw == previous.value.bar.close && trade.exitTimestamp == previous.value.bar.timestamp
       case StopGap =>
         && raw == bar.open && trade.exitTimestamp == bar.timestamp
         && if long then bar.open <= trade.stopPrice else bar.open >= trade.stopPrice
       case Stop =>
         && raw == trade.stopPrice && trade.exitTimestamp == bar.timestamp
         && if long then bar.low <= trade.stopPrice else bar.high >= trade.stopPrice
       case Target =>
         && intent.metadata.targetPrice == Some(raw) && trade.exitTimestamp == bar.timestamp
         && if long then bar.high >= raw && bar.low > trade.stopPrice else bar.low <= raw && bar.high < trade.stopPrice
       case SessionFlatten =>
         raw == bar.close && trade.exitTimestamp == bar.timestamp && InFlattenWindow(cfg, tick.session)
       case DailyLimit => raw == bar.open && trade.exitTimestamp == bar.timestamp
       case EndOfData => raw == bar.close && trade.exitTimestamp == bar.timestamp
       case _ => (raw == bar.open || raw == bar.close) && trade.exitTimestamp == bar.timestamp
  }

  lemma {:induction false} ClosedOutHasACause(scene: Scene, intent: OrderIntent, entry: Fill, exit: Fill, trade: Trade)
    requires ClosedOut(scene, intent, entry, exit, trade) && scene.ownReasons
    ensures MarketCause(scene.cfg, scene.tick, scene.previous, intent, exit.rawPrice, trade)
  {
    var h: Holding :| FromEntry(h, entry) && OnTerms(h, intent) && Discharged(scene.cfg, h, exit)
                      && Accounted(scene.cfg, h, exit, trade)
                      && Caused(scene, h, exit.rawPrice, exit.timestamp, exit.reason);
  }

  lemma {:induction false} ExitIsCaused(r: Reading, filled: seq<OrderIntent>, ledger: seq<EventRecord>, i: nat)
    requires r.ownReasons && AllInOrder(r, filled, ledger) && i < |ledger| && ledger[i].TradeRecord?
    ensures i > 0 && ledger[i - 1].FillRecord? && UnderWay(r, ledger[..i - 1]) && TradesIn(ledger[..i - 1]) < |filled|
    ensures
      var k := BarsIn(ledger[..i - 1]) - 1;
      MarketCause(r.cfg, r.ticks[k], TickBefore(r.ticks, k), filled[TradesIn(ledger[..i - 1])],
                  ledger[i - 1].fill.rawPrice, ledger[i].trade)
  {
    hide BarsIn, TradesIn, LastEntry, AllInOrder, ClosedOut, MarketCause, TickBefore;
    ExitIsClosedOut(r, filled, ledger, i);
    ClosedOutHasACause(SceneAt(r, ledger[..i - 1]), filled[TradesIn(ledger[..i - 1])], LastEntry(ledger[..i - 1]).value,
                       ledger[i - 1].fill, ledger[i].trade);
  }

  /**
   * Causes: while strategy and supervisor keep to reasons of their own, every exit for one of the engine's
   * reasons is made on a bar that shows that very event, at the price the event gives, and under the stop and
   * target of the intent that was filled.
   */
  lemma {:induction false} ExitsHaveTheirCause(cfg: Config, script: seq<ScriptBar>, i: nat)
    requires AdmissibleScript(script) && OwnReasons(script) && i < |CompleteRun(cfg, script).ledger|
    requires CompleteRun(cfg, script).ledger[i].TradeRecord?
    ensures
      var end := CompleteRun(cfg, script);
      && i > 0 && end.ledger[i - 1].FillRecord?
      && var k, j := BarsIn(end.ledger[..i - 1]) - 1, TradesIn(end.ledger[..i - 1]);
         && 0 <= k < |script| && j < |end.filledIntents|
         && MarketCause(cfg, script[k].tick, TickBefore(TicksOf(script), k), end.filledIntents[j],
                        end.ledger[i - 1].fill.rawPrice, end.ledger[i].trade)
  {
    hide CompleteRun, BarsIn, TradesIn, AllInOrder, OwnReasons, MarketCause, TickBefore, Linked;
    var end := CompleteRun(cfg, script);
    EveryLedgerIsInOrder(cfg, script);
    ExitIsCaused(ReadingOf(cfg, script), end.filledIntents, end.ledger, i);
  }
}
