/**
 * What a strategy hears: every entry fill and every closed trade of the ledger, once, in ledger order, and in
 * time for its next decision.
 */
module Hearing {
  import opened Prelude
  import opened Market
  import opened Events
  import opened EngineSpec
  import opened EngineRun
  import opened EngineInvariants
  import opened HaltSafety
  import opened MicroSteps
  import opened RunGrammar
  import opened Deeds
  import opened Simulation
  import opened Supervisor
  import opened LiveLoop
  import opened LiveTheorems
  import opened LedgerAccounts

  datatype Experience =
    | Filled(fill: Fill)
    | Closed(trade: Trade)
    | Context(sessionPnl: real, halted: bool)
    | Saw(tick: Tick)

  /** A strategy that writes down all it is told, and decides on all it has written down. */
  function Recorder(decide: seq<Experience> -> StrategyResult): Strategy<seq<Experience>> {
    Strategy((past, fill) => past + [Filled(fill)],
             (past, trade) => past + [Closed(trade)],
             (past: seq<Experience>, pnl: real, halted: bool) => past + [Context(pnl, halted)],
             (past, tick) => (past + [Saw(tick)], decide(past + [Saw(tick)])))
  }

  // ---- The ledger as news ----

  /** The entry fills and the closed trades among the records from `from` on. */
  function News(ledger: seq<EventRecord>, from: nat): seq<Experience>
    decreases |ledger|
  {
    if |ledger| <= from then []
    else
      var before, last := ledger[..|ledger| - 1], ledger[|ledger| - 1];
      News(before, from)
      + (if last.FillRecord? && !ReplayFills(before).open then [Filled(last.fill)]
         else if last.TradeRecord? then [Closed(last.trade)] else [])
  }

  /** When the strategy was asked: how long the ledger was, what it was told, and on which bar. */
  datatype Turn = Turn(at: nat, sessionPnl: real, halted: bool, tick: Tick)

  /** The turns come in order, none after the ledger's end. */
  predicate Placed(ledger: seq<EventRecord>, turns: seq<Turn>)
    decreases |turns|
  {
    |turns| > 0 ==>
      var last := turns[|turns| - 1];
      last.at <= |ledger| && Placed(ledger[..last.at], turns[..|turns| - 1])
  }

  /** The news of the ledger with the strategy's turns put where they fell. */
  function Story(ledger: seq<EventRecord>, turns: seq<Turn>): seq<Experience>
    requires Placed(ledger, turns)
    decreases |turns|
  {
    if |turns| == 0 then News(ledger, 0)
    else
      var last := turns[|turns| - 1];
      Story(ledger[..last.at], turns[..|turns| - 1])
      + [Context(last.sessionPnl, last.halted), Saw(last.tick)]
      + News(ledger, last.at)
  }

  lemma {:induction false} NewsOne(ledger: seq<EventRecord>, record: EventRecord, from: nat)
    requires from <= |ledger|
    ensures News(ledger + [record], from)
            == News(ledger, from) + (if record.FillRecord? && !ReplayFills(ledger).open then [Filled(record.fill)]
                                     else if record.TradeRecord? then [Closed(record.trade)] else [])
  {
    hide ReplayFills;
    assert (ledger + [record])[..|ledger|] == ledger;
  }

  /** News adds up over a split of the ledger. */
  lemma {:induction false} NewsAdds(ledger: seq<EventRecord>, from: nat, mid: nat)
    requires from <= mid <= |ledger|
    ensures News(ledger, from) == News(ledger[..mid], from) + News(ledger, mid)
    decreases |ledger|
  {
    if |ledger| == mid {
      assert ledger[..mid] == ledger;
    } else {
      var before := ledger[..|ledger| - 1];
      NewsAdds(before, from, mid);
      assert before[..mid] == ledger[..mid];
    }
  }

  function Reported(item: Feedback): Experience {
    match item
    case FillFeedback(fill) => Filled(fill)
    case TradeFeedback(trade) => Closed(trade)
  }

  function AllReported(feedback: seq<Feedback>): (past: seq<Experience>)
    ensures |past| == |feedback|
  {
    seq(|feedback|, i requires 0 <= i < |feedback| => Reported(feedback[i]))
  }

  lemma {:induction false} OneMoreReported(feedback: seq<Feedback>, item: Feedback)
    ensures AllReported(feedback + [item]) == AllReported(feedback) + [Reported(item)]
  {
  }

  /** The recorder writes down every item of the feedback, in order. */
  lemma {:induction false} RecorderHears(decide: seq<Experience> -> StrategyResult, past: seq<Experience>,
                                         feedback: seq<Feedback>)
    ensures Dispatch(Recorder(decide), past, feedback) == past + AllReported(feedback)
    decreases |feedback|
  {
    if |feedback| == 0 {
    } else {
      RecorderHears(decide, past, feedback[..|feedback| - 1]);
      assert feedback == feedback[..|feedback| - 1] + [feedback[|feedback| - 1]];
      OneMoreReported(feedback[..|feedback| - 1], feedback[|feedback| - 1]);
    }
  }

  /** Its turn: the context and the bar are written down, and the decision is on all of it. */
  lemma {:induction false} RecorderAnswers(decide: seq<Experience> -> StrategyResult, past: seq<Experience>,
                                           pnl: real, halted: bool, tick: Tick)
    ensures
      var r, all := Recorder(decide), past + [Context(pnl, halted), Saw(tick)];
      r.onBar(r.onContext(past, pnl, halted), tick) == (all, decide(all))
  {
    assert past + [Context(pnl, halted)] + [Saw(tick)] == past + [Context(pnl, halted), Saw(tick)];
  }

  // ---- The feedback is the news ----

  /** The pending feedback is the news since `from`. */
  predicate Tells(p: Page, pre: seq<EventRecord>) {
    && pre <= p.ledger
    && News(p.ledger, |pre|) == AllReported(p.feedback)
    && ReplayFills(p.ledger).open == p.holding.Some?
  }

  lemma {:induction false} DeedTells(scene: Scene, p: Page, d: Deed, pre: seq<EventRecord>)
    requires Tells(p, pre) && Allowed(scene, p, d)
    ensures Tells(Do(p, d), pre)
  {
    hide ReplayFills, News, Charged, Ordered, Discharged, Accounted, Caused;
    match d
    case Write(record) =>
      NewsOne(p.ledger, record, |pre|);
      ReplayOne(p.ledger, record);
    case Enter(entry, _, stop, _) =>
      var fill := FillRecord(entry.timestamp, entry);
      var set' := StopRecord(entry.timestamp, entry.symbol, stop, "initial_stop", true);
      NewsOne(p.ledger, fill, |pre|);
      ReplayOne(p.ledger, fill);
      NewsOne(p.ledger + [fill], set', |pre|);
      ReplayOne(p.ledger + [fill], set');
      OneMoreReported(p.feedback, FillFeedback(entry));
    case Leave(exit, trade) =>
      var fill, sold := FillRecord(exit.timestamp, exit), TradeRecord(exit.timestamp, trade);
      NewsOne(p.ledger, fill, |pre|);
      ReplayOne(p.ledger, fill);
      NewsOne(p.ledger + [fill], sold, |pre|);
      ReplayOne(p.ledger + [fill], sold);
      OneMoreReported(p.feedback, TradeFeedback(trade));
  }

  lemma {:induction false} DeedsTell(scene: Scene, p: Page, ds: seq<Deed>, pre: seq<EventRecord>)
    requires Tells(p, pre) && AllAllowed(scene, p, ds)
    ensures Tells(DoAll(p, ds), pre)
    decreases |ds|
  {
    hide Tells, Allowed;
    if |ds| == 0 {
    } else {
      DeedsTell(scene, p, ds[..|ds| - 1], pre);
      DeedTells(scene, DoAll(p, ds[..|ds| - 1]), ds[|ds| - 1], pre);
    }
  }

  /** A page whose feedback has just been polled. */
  predicate Fresh(st: EngineState) {
    st.feedback == [] && ReplayFills(st.ledger).open == st.position.Some?
  }

  lemma {:induction false} FreshTells(st: EngineState)
    requires Fresh(st)
    ensures Tells(PageOf(st), st.ledger)
  {
  }

  lemma {:induction false} PolledIsFresh(st: EngineState, pre: seq<EventRecord>)
    requires Tells(PageOf(st), pre)
    ensures Fresh(ClearFeedback(st)) && pre <= st.ledger
    ensures News(st.ledger, |pre|) == AllReported(st.feedback)
  {
  }

  lemma {:induction false} BarRecordTells(st: EngineState, bar: Bar)
    requires Fresh(st)
    ensures Tells(PageOf(Log(st, BarRecord(bar.timestamp, bar))), st.ledger)
  {
    hide ReplayFills;
    NewsOne(st.ledger, BarRecord(bar.timestamp, bar), |st.ledger|);
    ReplayOne(st.ledger, BarRecord(bar.timestamp, bar));
  }

  /** A scene that asks nothing of anybody's reasons. */
  function AnyScene(cfg: Config, st: EngineState, tick: Tick): Scene {
    Scene(cfg, tick, st.previous, false)
  }

  lemma {:induction false} MarkTells(cfg: Config, st: EngineState, tick: Tick)
    requires Inv(cfg, st) && Fresh(st)
    ensures
      var stepped := PreStrategy(cfg, Log(st, BarRecord(tick.bar.timestamp, tick.bar)), tick);
      && News(stepped.ledger, |st.ledger|) == AllReported(stepped.feedback)
      && st.ledger <= stepped.ledger && Fresh(AfterPreStrategy(cfg, st, tick))
  {
    hide PreStrategy, Inv, Fresh, Tells, Makes;
    var record := BarRecord(tick.bar.timestamp, tick.bar);
    var logged, scene := Log(st, record), AnyScene(cfg, st, tick);
    LogKeeps(cfg, st, record);
    BarRecordTells(st, tick.bar);
    var ds := PreStrategyDeeds(scene, logged);
    MadeByDeeds(scene, PageOf(logged), ds, PageOf(PreStrategy(cfg, logged, tick)), st.ledger);
    PolledIsFresh(PreStrategy(cfg, logged, tick), st.ledger);
  }

  lemma {:induction false} MadeByDeeds(scene: Scene, p: Page, ds: seq<Deed>, q: Page, pre: seq<EventRecord>)
    requires Tells(p, pre) && Makes(scene, p, ds, q)
    ensures Tells(q, pre)
  {
    DeedsTell(scene, p, ds, pre);
  }

  lemma {:induction false} FlattenTells(cfg: Config, st: EngineState, tick: Tick, breach: Option<Reason>)
    requires Fresh(st)
    ensures
      var flat := Flattened(cfg, st, tick.bar, breach);
      && News(flat.ledger, |st.ledger|) == AllReported(flat.feedback)
      && st.ledger <= flat.ledger && Fresh(AfterSupervisor(cfg, st, tick.bar, breach))
      && flat.ledger == AfterSupervisor(cfg, st, tick.bar, breach).ledger
  {
    hide FlattenNow, Fresh, Tells, Makes;
    FreshTells(st);
    var flat, scene := Flattened(cfg, st, tick.bar, breach), AnyScene(cfg, st, tick);
    var ds := SupervisorDeeds(scene, st, breach);
    MadeByDeeds(scene, PageOf(st), ds, PageOf(flat), st.ledger);
    PolledIsFresh(flat, st.ledger);
    if breach.None? {
      assert Fresh(st) && AfterSupervisor(cfg, st, tick.bar, breach) == st;
    }
  }

  lemma {:induction false} AnswerTells(cfg: Config, st: EngineState, tick: Tick, result: StrategyResult)
    requires Fresh(st)
    ensures
      var applied := ApplyResult(cfg, st, tick, result);
      && News(applied.ledger, |st.ledger|) == AllReported(applied.feedback)
      && st.ledger <= applied.ledger && Fresh(AfterStrategy(cfg, st, tick, result))
  {
    hide ApplyResult, Fresh, Tells, Makes;
    FreshTells(st);
    var applied, scene := ApplyResult(cfg, st, tick, result), AnyScene(cfg, st, tick);
    var ds := AnswerDeeds(scene, st, result);
    MadeByDeeds(scene, PageOf(st), ds, PageOf(applied), st.ledger);
    PolledIsFresh(applied, st.ledger);
    NotedIsFresh(ClearFeedback(applied), tick);
  }

  lemma {:induction false} NotedIsFresh(st: EngineState, tick: Tick)
    requires Fresh(st)
    ensures Fresh(NoteProcessed(st, tick))
  {
  }

  lemma {:induction false} EndTells(cfg: Config, st: EngineState)
    requires Fresh(st)
    ensures
      var end := CloseEndOfData(cfg, st);
      News(end.ledger, |st.ledger|) == AllReported(end.feedback) && st.ledger <= end.ledger
  {
    hide Fresh, Tells, Makes;
    FreshTells(st);
    if st.previous.Some? {
      hide CloseEndOfData;
      var scene := Scene(cfg, st.previous.value, None, false);
      var ds := EndDeeds(scene, st);
      MadeByDeeds(scene, PageOf(st), ds, PageOf(CloseEndOfData(cfg, st)), st.ledger);
      PolledIsFresh(CloseEndOfData(cfg, st), st.ledger);
    } else {
      PolledIsFresh(st, st.ledger);
    }
  }

  // ---- Runs ----

  /** The engine as the strategy finds it when it is asked about the bar. */
  function AskedOn(cfg: Config, st: EngineState, b: ScriptBar): EngineState {
    AfterSupervisor(cfg, AfterPreStrategy(cfg, st, b.tick), b.tick.bar, b.breach)
  }

  function TurnOn(cfg: Config, st: EngineState, b: ScriptBar): Turn {
    var asked := AskedOn(cfg, st, b);
    Turn(|asked.ledger|, PreStrategyPnl(cfg, Log(st, BarRecord(b.tick.bar.timestamp, b.tick.bar)), b.tick),
         asked.dailyLimitHit, b.tick)
  }

  /** The strategy's turns over a run, one a bar, each after the bar's own steps and before its answer. */
  function TurnsOf(cfg: Config, script: seq<ScriptBar>): (turns: seq<Turn>)
    ensures |turns| == |script|
    decreases |script|
  {
    if |script| == 0 then []
    else
      var before := script[..|script| - 1];
      TurnsOf(cfg, before) + [TurnOn(cfg, Run(cfg, before), script[|script| - 1])]
  }

  lemma {:induction false} RunIsFresh(cfg: Config, script: seq<ScriptBar>)
    requires AdmissibleScript(script)
    ensures Fresh(Run(cfg, script))
    decreases |script|
  {
    hide AfterPreStrategy, AfterSupervisor, AfterStrategy, Fresh, Inv;
    if |script| == 0 {
      StartIsFresh();
    } else {
      var before, b := script[..|script| - 1], script[|script| - 1];
      RunIsFresh(cfg, before);
      EveryReachableStateIsSafe(cfg, before);
      BarGrows(cfg, Run(cfg, before), b);
    }
  }

  lemma {:induction false} StartIsFresh()
    ensures Fresh(Initial([]))
  {
  }

  /** Over a bar the ledger grows from the run's to the strategy's turn, and from there to the next bar. */
  lemma {:induction false} BarGrows(cfg: Config, st: EngineState, b: ScriptBar)
    requires Inv(cfg, st) && Fresh(st)
    ensures st.ledger <= AskedOn(cfg, st, b).ledger <= EngineBar(cfg, st, b).ledger
    ensures Fresh(AskedOn(cfg, st, b)) && Fresh(EngineBar(cfg, st, b))
  {
    hide PreStrategy, AfterSupervisor, ApplyResult, Inv, Fresh;
    MarkTells(cfg, st, b.tick);
    var marked := AfterPreStrategy(cfg, st, b.tick);
    FlattenTells(cfg, marked, b.tick, b.breach);
    AnswerTells(cfg, AskedOn(cfg, st, b), b.tick, b.result);
  }

  lemma {:induction false} TurnsArePlaced(cfg: Config, script: seq<ScriptBar>, ledger: seq<EventRecord>)
    requires AdmissibleScript(script) && Run(cfg, script).ledger <= ledger
    ensures Placed(ledger, TurnsOf(cfg, script))
    decreases |script|
  {
    hide EngineBar, AskedOn, Fresh, Inv;
    if |script| == 0 {
    } else {
      var before, b := script[..|script| - 1], script[|script| - 1];
      var turns := TurnsOf(cfg, script);
      EveryReachableStateIsSafe(cfg, before);
      RunIsFresh(cfg, before);
      BarGrows(cfg, Run(cfg, before), b);
      var at := |AskedOn(cfg, Run(cfg, before), b).ledger|;
      assert ledger[..at] == AskedOn(cfg, Run(cfg, before), b).ledger;
      assert turns[..|turns| - 1] == TurnsOf(cfg, before);
      TurnsArePlaced(cfg, before, ledger[..at]);
    }
  }

  /** All that has been heard when the run's ledger has grown to `ledger`. */
  function HeardBy(cfg: Config, script: seq<ScriptBar>, ledger: seq<EventRecord>): seq<Experience>
    requires AdmissibleScript(script) && Run(cfg, script).ledger <= ledger
  {
    TurnsArePlaced(cfg, script, ledger);
    Story(ledger, TurnsOf(cfg, script))
  }

  /** All that has been heard when the strategy is asked about the next bar, the bar itself included. */
  function HeardWhenAsked(cfg: Config, script: seq<ScriptBar>, b: ScriptBar): seq<Experience>
    requires AdmissibleScript(script)
  {
    EveryReachableStateIsSafe(cfg, script);
    RunIsFresh(cfg, script);
    BarGrows(cfg, Run(cfg, script), b);
    var turn := TurnOn(cfg, Run(cfg, script), b);
    HeardBy(cfg, script, AskedOn(cfg, Run(cfg, script), b).ledger)
    + [Context(turn.sessionPnl, turn.halted), Saw(b.tick)]
  }

  lemma {:induction false} HearingGoesOn(cfg: Config, script: seq<ScriptBar>, ledger: seq<EventRecord>)
    requires AdmissibleScript(script) && Run(cfg, script).ledger <= ledger
    ensures HeardBy(cfg, script, ledger)
            == HeardBy(cfg, script, Run(cfg, script).ledger) + News(ledger, |Run(cfg, script).ledger|)
  {
    hide Run, TurnsOf;
    var now, turns := Run(cfg, script).ledger, TurnsOf(cfg, script);
    TurnsArePlaced(cfg, script, ledger);
    TurnsArePlaced(cfg, script, now);
    assert ledger[..|now|] == now;
    if |turns| == 0 {
      NewsAdds(ledger, 0, |now|);
    } else {
      var at := turns[|turns| - 1].at;
      assert ledger[..at] == now[..at];
      NewsAdds(ledger, at, |now|);
    }
  }

  lemma {:induction false} HearingTakesATurn(cfg: Config, script: seq<ScriptBar>, b: ScriptBar)
    requires AdmissibleScript(script) && Admissible(b)
    ensures AdmissibleScript(script + [b])
    ensures
      var asked, next := AskedOn(cfg, Run(cfg, script), b), EngineBar(cfg, Run(cfg, script), b);
      && Run(cfg, script + [b]) == next
      && HeardBy(cfg, script + [b], next.ledger)
         == HeardWhenAsked(cfg, script, b) + News(next.ledger, |asked.ledger|)
  {
    hide EngineBar, AskedOn, Fresh, Inv, Admissible, PreStrategyPnl;
    var longer := script + [b];
    assert longer[..|longer| - 1] == script;
    EveryReachableStateIsSafe(cfg, script);
    RunIsFresh(cfg, script);
    BarGrows(cfg, Run(cfg, script), b);
    var asked, next := AskedOn(cfg, Run(cfg, script), b), EngineBar(cfg, Run(cfg, script), b);
    var turns := TurnsOf(cfg, longer);
    TurnsArePlaced(cfg, longer, next.ledger);
    assert turns[..|turns| - 1] == TurnsOf(cfg, script);
    assert next.ledger[..|asked.ledger|] == asked.ledger;
  }

  // ---- The backtest ----

  lemma {:induction false} BacktestBarHears(cfg: Config, decide: seq<Experience> -> StrategyResult,
                                            s: SimState<seq<Experience>>, script: seq<ScriptBar>, tick: Tick)
    requires AdmissibleScript(script)
    requires s.engine == Run(cfg, script) && s.strat == HeardBy(cfg, script, s.engine.ledger)
    ensures
      var b, next := SimScriptBar(cfg, Recorder(decide), s, tick), SimBar(cfg, Recorder(decide), s, tick);
      && b.breach.None? && AdmissibleScript(script + [b])
      && b.result == decide(HeardWhenAsked(cfg, script, b))
      && next.engine == Run(cfg, script + [b]) && next.strat == HeardBy(cfg, script + [b], next.engine.ledger)
  {
    hide Run, HeardBy, PreStrategy, PreStrategyPnl, ApplyResult, Inv, Fresh, EngineBar, Dispatch;
    var b := SimScriptBar(cfg, Recorder(decide), s, tick);
    var logged := Log(s.engine, BarRecord(tick.bar.timestamp, tick.bar));
    var stepped := PreStrategy(cfg, logged, tick);
    MarkHears(cfg, decide, script, s.strat, tick);
    var asked := AskedOn(cfg, s.engine, b);
    assert asked == ClearFeedback(stepped);
    RecorderAnswers(decide, HeardBy(cfg, script, stepped.ledger), PreStrategyPnl(cfg, logged, tick),
                    stepped.dailyLimitHit, tick);
    FreshWhenAsked(cfg, script, b);
    AnswerTells(cfg, asked, tick, b.result);
    RecorderHears(decide, HeardWhenAsked(cfg, script, b), ApplyResult(cfg, asked, tick, b.result).feedback);
    HearingTakesATurn(cfg, script, b);
    SimBarIsEngineBar(cfg, Recorder(decide), s, tick);
    AnsweredLedger(cfg, s.engine, b);
  }

  lemma {:induction false} FreshWhenAsked(cfg: Config, script: seq<ScriptBar>, b: ScriptBar)
    requires AdmissibleScript(script)
    ensures Fresh(AskedOn(cfg, Run(cfg, script), b))
  {
    hide Fresh, Inv, Run, AskedOn, EngineBar;
    EveryReachableStateIsSafe(cfg, script);
    RunIsFresh(cfg, script);
    BarGrows(cfg, Run(cfg, script), b);
  }

  lemma {:induction false} AnsweredLedger(cfg: Config, st: EngineState, b: ScriptBar)
    ensures EngineBar(cfg, st, b).ledger == ApplyResult(cfg, AskedOn(cfg, st, b), b.tick, b.result).ledger
  {
    hide ApplyResult, AfterPreStrategy, AfterSupervisor;
  }

  /** Bar k carries the decision on all that had been heard by then. */
  predicate Decided(cfg: Config, decide: seq<Experience> -> StrategyResult, script: seq<ScriptBar>, k: nat)
    requires AdmissibleScript(script) && k < |script|
  {
    script[k].result == decide(HeardWhenAsked(cfg, script[..k], script[k]))
  }

  predicate AllDecided(cfg: Config, decide: seq<Experience> -> StrategyResult, script: seq<ScriptBar>)
    requires AdmissibleScript(script)
  {
    forall k: nat :: k < |script| ==> Decided(cfg, decide, script, k)
  }

  /** The script is the ticks, and no supervisor interferes. */
  predicate Plays(script: seq<ScriptBar>, ticks: seq<Tick>) {
    |script| == |ticks| && forall k :: 0 <= k < |script| ==> script[k].tick == ticks[k] && script[k].breach.None?
  }

  lemma {:induction false} DecidedNext(cfg: Config, decide: seq<Experience> -> StrategyResult, script: seq<ScriptBar>,
                                       b: ScriptBar)
    requires AdmissibleScript(script) && AllDecided(cfg, decide, script)
    requires AdmissibleScript(script + [b]) && b.result == decide(HeardWhenAsked(cfg, script, b))
    ensures AllDecided(cfg, decide, script + [b])
  {
    hide HeardWhenAsked;
    forall k: nat | k < |script + [b]|
      ensures Decided(cfg, decide, script + [b], k)
    {
      if k < |script| {
        assert Decided(cfg, decide, script, k);
        assert (script + [b])[..k] == script[..k];
      } else {
        assert (script + [b])[..k] == script;
      }
    }
  }

  lemma {:induction false} BacktestBarsHear(cfg: Config, decide: seq<Experience> -> StrategyResult, ticks: seq<Tick>)
    returns (script: seq<ScriptBar>)
    ensures AdmissibleScript(script) && Plays(script, ticks) && AllDecided(cfg, decide, script)
    ensures
      var end := SimBars(cfg, Recorder(decide), [], ticks);
      end.engine == Run(cfg, script) && end.strat == HeardBy(cfg, script, end.engine.ledger)
    decreases |ticks|
  {
    hide SimBar, SimBars, SimScriptBar, HeardBy, HeardWhenAsked, Admissible, Run, AllDecided;
    if |ticks| == 0 {
      script := [];
      NothingHeard(cfg, decide);
    } else {
      var before := BacktestBarsHear(cfg, decide, ticks[..|ticks| - 1]);
      var s, tick := SimBars(cfg, Recorder(decide), [], ticks[..|ticks| - 1]), ticks[|ticks| - 1];
      BacktestBarHears(cfg, decide, s, before, tick);
      var b := SimScriptBar(cfg, Recorder(decide), s, tick);
      SameTick(cfg, decide, s, tick);
      OneMoreTick(cfg, decide, ticks);
      DecidedNext(cfg, decide, before, b);
      script := before + [b];
    }
  }

  lemma {:induction false} NothingHeard(cfg: Config, decide: seq<Experience> -> StrategyResult)
    ensures AdmissibleScript([]) && AllDecided(cfg, decide, [])
    ensures
      var end := SimBars(cfg, Recorder(decide), [], []);
      end.engine == Run(cfg, []) && end.strat == HeardBy(cfg, [], end.engine.ledger)
  {
  }

  lemma {:induction false} SameTick(cfg: Config, decide: seq<Experience> -> StrategyResult,
                                    s: SimState<seq<Experience>>, tick: Tick)
    ensures SimScriptBar(cfg, Recorder(decide), s, tick).tick == tick
  {
  }

  lemma {:induction false} OneMoreTick(cfg: Config, decide: seq<Experience> -> StrategyResult, ticks: seq<Tick>)
    requires |ticks| > 0
    ensures
      var before := SimBars(cfg, Recorder(decide), [], ticks[..|ticks| - 1]);
      SimBars(cfg, Recorder(decide), [], ticks) == SimBar(cfg, Recorder(decide), before, ticks[|ticks| - 1])
  {
    hide SimBar;
  }

  /**
   * What a backtest tells its strategy. A strategy that writes down all it hears, and decides as it likes on
   * that, ends with exactly the story of its own ledger: every entry fill and closed trade once, in order,
   * those of a bar's own steps before the turn on that bar, those of the answer before the next one.
   */
  lemma {:induction false} BacktestsHear(cfg: Config, decide: seq<Experience> -> StrategyResult, ticks: seq<Tick>)
    returns (script: seq<ScriptBar>)
    ensures AdmissibleScript(script) && Plays(script, ticks) && AllDecided(cfg, decide, script)
    ensures
      var end, turns := SimRun(cfg, Recorder(decide), [], ticks), TurnsOf(cfg, script);
      && end.engine == CompleteRun(cfg, script)
      && Placed(end.engine.ledger, turns) && end.strat == Story(end.engine.ledger, turns)
  {
    hide SimBars, AllDecided, Plays, Run, CloseEndOfData, Story, Fresh, TurnsOf, Dispatch;
    script := BacktestBarsHear(cfg, decide, ticks);
    var last := SimBars(cfg, Recorder(decide), [], ticks);
    EndOfHearing(cfg, decide, script, last.strat);
  }

  /** The feedback of the close at the end of the data completes the story. */
  lemma {:induction false} EndOfHearing(cfg: Config, decide: seq<Experience> -> StrategyResult, script: seq<ScriptBar>,
                                        past: seq<Experience>)
    requires AdmissibleScript(script) && past == HeardBy(cfg, script, Run(cfg, script).ledger)
    ensures
      var end := CloseEndOfData(cfg, Run(cfg, script));
      && Placed(end.ledger, TurnsOf(cfg, script))
      && Dispatch(Recorder(decide), past, end.feedback) == Story(end.ledger, TurnsOf(cfg, script))
  {
    hide Run, CloseEndOfData, Story, Fresh, TurnsOf, Dispatch;
    RunIsFresh(cfg, script);
    var end := CloseEndOfData(cfg, Run(cfg, script));
    EndTells(cfg, Run(cfg, script));
    RecorderHears(decide, past, end.feedback);
    HearingGoesOn(cfg, script, end.ledger);
    TurnsArePlaced(cfg, script, end.ledger);
  }

  // ---- The live loop ----

  lemma {:induction false} LiveBarHears(cfg: Config, guard: SupervisorConfig, decide: seq<Experience> -> StrategyResult,
                                        st: LiveState<seq<Experience>>, script: seq<ScriptBar>, t: LiveTick)
    requires AdmissibleScript(script) && Settled(cfg, st)
    requires st.engine == Run(cfg, script) && st.strat == HeardBy(cfg, script, st.engine.ledger)
    ensures LiveBar(cfg, guard, Recorder(decide), st, t).Running?
    ensures
      var b := LiveScriptBar(cfg, guard, Recorder(decide), st, t);
      var next := LiveBar(cfg, guard, Recorder(decide), st, t).state;
      && b.tick == t.tick && AdmissibleScript(script + [b])
      && b.result == Stripped(next.latch, decide(HeardWhenAsked(cfg, script, b)))
      && next.engine == Run(cfg, script + [b]) && next.strat == HeardBy(cfg, script + [b], next.engine.ledger)
  {
    hide Run, HeardBy, LiveMark, LiveSupervise, LiveAnswer, LiveBar, AfterPreStrategy, AfterSupervisor, ApplyResult;
    hide Inv, Fresh, EngineBar, Dispatch, Settled, Marked, PreStrategyPnl, FlattenNow;
    var r := Recorder(decide);
    var b := LiveScriptBar(cfg, guard, r, st, t);
    BarRuns(cfg, guard, r, st, t);
    var asked := AskedOn(cfg, st.engine, b);
    LiveTurnHears(cfg, guard, decide, st, script, t);
    FreshWhenAsked(cfg, script, b);
    AnswerTells(cfg, asked, t.tick, b.result);
    RecorderHears(decide, HeardWhenAsked(cfg, script, b), ApplyResult(cfg, asked, t.tick, b.result).feedback);
    HearingTakesATurn(cfg, script, b);
    AnsweredLedger(cfg, st.engine, b);
  }

  /** Up to the strategy's answer. */
  lemma {:induction false} LiveTurnHears(cfg: Config, guard: SupervisorConfig,
                                         decide: seq<Experience> -> StrategyResult, st: LiveState<seq<Experience>>,
                                         script: seq<ScriptBar>, t: LiveTick)
    requires AdmissibleScript(script) && Settled(cfg, st)
    requires st.engine == Run(cfg, script) && st.strat == HeardBy(cfg, script, st.engine.ledger)
    requires LiveBar(cfg, guard, Recorder(decide), st, t).Running?
    ensures
      var b := LiveScriptBar(cfg, guard, Recorder(decide), st, t);
      var next := LiveBar(cfg, guard, Recorder(decide), st, t).state;
      && b.tick == t.tick
      && b.result == Stripped(next.latch, decide(HeardWhenAsked(cfg, script, b)))
      && next.strat == Dispatch(Recorder(decide), HeardWhenAsked(cfg, script, b),
                                ApplyResult(cfg, AskedOn(cfg, st.engine, b), t.tick, b.result).feedback)
  {
    hide Run, HeardBy, LiveMark, LiveSupervise, LiveAnswer, PreStrategy, AfterSupervisor, ApplyResult;
    hide Inv, Fresh, EngineBar, Dispatch, Settled, Marked, PreStrategyPnl, FlattenNow;
    var r := Recorder(decide);
    var b := LiveScriptBar(cfg, guard, r, st, t);
    MarkRuns(cfg, r, st, t.tick);
    MarkKeeps(cfg, st.engine, t.tick) by { SettledIsSafe(cfg, st); }
    var marked := LiveMark(cfg, r, st, t.tick).state;
    SuperviseRuns(cfg, guard, r, marked, t);
    var supervised := LiveSupervise(cfg, guard, r, marked, t).state;
    MarkHears(cfg, decide, script, st.strat, t.tick);
    FlatteningHears(cfg, guard, decide, script, marked, t);
    var asked := AskedOn(cfg, st.engine, b);
    assert supervised.engine == asked && supervised.strat == HeardBy(cfg, script, asked.ledger);
    RecorderAnswers(decide, supervised.strat, LivePnl(cfg, st, t.tick), asked.dailyLimitHit, t.tick);
    AnswerRuns(cfg, r, supervised, t.tick, LivePnl(cfg, st, t.tick));
  }

  lemma {:induction false} SettledIsSafe<S>(cfg: Config, st: LiveState<S>)
    requires Settled(cfg, st)
    ensures Inv(cfg, st.engine)
  {
  }

  lemma {:induction false} MarkHears(cfg: Config, decide: seq<Experience> -> StrategyResult, script: seq<ScriptBar>,
                                     past: seq<Experience>, tick: Tick)
    requires AdmissibleScript(script) && past == HeardBy(cfg, script, Run(cfg, script).ledger)
    ensures
      var st := Run(cfg, script);
      var stepped := PreStrategy(cfg, Log(st, BarRecord(tick.bar.timestamp, tick.bar)), tick);
      && st.ledger <= stepped.ledger && Fresh(AfterPreStrategy(cfg, st, tick))
      && Dispatch(Recorder(decide), past, stepped.feedback) == HeardBy(cfg, script, stepped.ledger)
  {
    hide Run, HeardBy, PreStrategy, Inv, Fresh, Dispatch;
    EveryReachableStateIsSafe(cfg, script);
    RunIsFresh(cfg, script);
    MarkTells(cfg, Run(cfg, script), tick);
    var stepped := PreStrategy(cfg, Log(Run(cfg, script), BarRecord(tick.bar.timestamp, tick.bar)), tick);
    RecorderHears(decide, past, stepped.feedback);
    HearingGoesOn(cfg, script, stepped.ledger);
  }

  lemma {:induction false} FlatteningHears(cfg: Config, guard: SupervisorConfig,
                                           decide: seq<Experience> -> StrategyResult, script: seq<ScriptBar>,
                                           marked: LiveState<seq<Experience>>, t: LiveTick)
    requires AdmissibleScript(script) && Run(cfg, script).ledger <= marked.engine.ledger && Fresh(marked.engine)
    requires marked.strat == HeardBy(cfg, script, marked.engine.ledger)
    ensures
      var asked := AfterSupervisor(cfg, marked.engine, t.tick.bar, NewBreach(guard, marked, t));
      && Run(cfg, script).ledger <= asked.ledger
      && Dispatch(Recorder(decide), marked.strat, FlatteningNews(cfg, guard, marked, t))
         == HeardBy(cfg, script, asked.ledger)
  {
    hide Run, HeardBy, Fresh, Dispatch, Marked, FlattenNow, Flattened, AfterSupervisor, FlatteningNews, NewBreach;
    var breach := NewBreach(guard, marked, t);
    FlattenTells(cfg, marked.engine, t.tick, breach);
    FlatteningNewsIsFeedback(cfg, guard, marked, t);
    RecorderHears(decide, marked.strat, FlatteningNews(cfg, guard, marked, t));
    HearingGoesFurther(cfg, script, marked.engine.ledger,
                       AfterSupervisor(cfg, marked.engine, t.tick.bar, breach).ledger);
  }

  lemma {:induction false} FlatteningNewsIsFeedback<S>(cfg: Config, guard: SupervisorConfig, st: LiveState<S>,
                                                       t: LiveTick)
    requires Fresh(st.engine)
    ensures FlatteningNews(cfg, guard, st, t)
            == Flattened(cfg, st.engine, t.tick.bar, NewBreach(guard, st, t)).feedback
  {
    hide FlattenNow, Marked;
  }

  lemma {:induction false} HearingGoesFurther(cfg: Config, script: seq<ScriptBar>, mid: seq<EventRecord>,
                                              ledger: seq<EventRecord>)
    requires AdmissibleScript(script) && Run(cfg, script).ledger <= mid <= ledger
    ensures HeardBy(cfg, script, ledger) == HeardBy(cfg, script, mid) + News(ledger, |mid|)
  {
    hide Run, HeardBy, News;
    HearingGoesOn(cfg, script, mid);
    HearingGoesOn(cfg, script, ledger);
    NewsAdds(ledger, |Run(cfg, script).ledger|, |mid|);
    assert ledger[..|mid|] == mid;
  }

  /** Bar k carries the decision on all that had been heard by then, its entries stripped under a breach. */
  predicate LiveDecided(cfg: Config, guard: SupervisorConfig, decide: seq<Experience> -> StrategyResult,
                        ticks: seq<LiveTick>, script: seq<ScriptBar>, k: nat)
    requires AdmissibleScript(script) && k < |script| == |ticks|
  {
    && script[k].tick == ticks[k].tick
    && script[k].result
       == Stripped(LiveBars(cfg, guard, Recorder(decide), [], ticks[..k + 1]).state.latch,
                   decide(HeardWhenAsked(cfg, script[..k], script[k])))
  }

  predicate AllLiveDecided(cfg: Config, guard: SupervisorConfig, decide: seq<Experience> -> StrategyResult,
                           ticks: seq<LiveTick>, script: seq<ScriptBar>)
    requires AdmissibleScript(script) && |script| == |ticks|
  {
    forall k: nat :: k < |script| ==> LiveDecided(cfg, guard, decide, ticks, script, k)
  }

  lemma {:induction false} LiveDecidedNext(cfg: Config, guard: SupervisorConfig,
                                           decide: seq<Experience> -> StrategyResult, ticks: seq<LiveTick>,
                                           script: seq<ScriptBar>, b: ScriptBar)
    requires |ticks| == |script| + 1 && b.tick == ticks[|script|].tick
    requires AdmissibleScript(script) && AllLiveDecided(cfg, guard, decide, ticks[..|script|], script)
    requires AdmissibleScript(script + [b])
    requires b.result == Stripped(LiveBars(cfg, guard, Recorder(decide), [], ticks).state.latch,
                                  decide(HeardWhenAsked(cfg, script, b)))
    ensures AllLiveDecided(cfg, guard, decide, ticks, script + [b])
  {
    hide HeardWhenAsked, LiveBars;
    forall k: nat | k < |script + [b]|
      ensures LiveDecided(cfg, guard, decide, ticks, script + [b], k)
    {
      if k < |script| {
        assert LiveDecided(cfg, guard, decide, ticks[..|script|], script, k);
        assert (script + [b])[..k] == script[..k] && ticks[..|script|][..k + 1] == ticks[..k + 1];
      } else {
        assert (script + [b])[..k] == script && ticks[..k + 1] == ticks;
      }
    }
  }

  lemma {:induction false} LiveBarsHear(cfg: Config, guard: SupervisorConfig,
                                        decide: seq<Experience> -> StrategyResult, ticks: seq<LiveTick>)
    ensures LiveBars(cfg, guard, Recorder(decide), [], ticks).Running?
    ensures
      var script := LiveScript(cfg, guard, Recorder(decide), [], ticks);
      var st := LiveBars(cfg, guard, Recorder(decide), [], ticks).state;
      && AdmissibleScript(script) && |script| == |ticks|
      && AllLiveDecided(cfg, guard, decide, ticks, script)
      && st.engine == Run(cfg, script) && st.strat == HeardBy(cfg, script, st.engine.ledger)
    decreases |ticks|
  {
    hide LiveBar, LiveBars, LiveScriptBar, HeardBy, HeardWhenAsked, Admissible, Run, AllLiveDecided, Settled, Stripped;
    var r := Recorder(decide);
    LiveBarsNeverHalt(cfg, guard, r, [], ticks);
    if |ticks| == 0 {
      NothingHeardLive(cfg, guard, decide);
    } else {
      var before, n := ticks[..|ticks| - 1], |ticks| - 1;
      LiveBarsHear(cfg, guard, decide, before);
      LiveBarsNeverHalt(cfg, guard, r, [], before);
      var st, script := LiveBars(cfg, guard, r, [], before).state, LiveScript(cfg, guard, r, [], before);
      LiveBarHears(cfg, guard, decide, st, script, ticks[n]);
      assert ticks[..n + 1] == ticks;
      OneMore(cfg, guard, r, [], ticks, n);
      LiveDecidedNext(cfg, guard, decide, ticks, script, LiveScriptBar(cfg, guard, r, st, ticks[n]));
    }
  }

  lemma {:induction false} NothingHeardLive(cfg: Config, guard: SupervisorConfig,
                                            decide: seq<Experience> -> StrategyResult)
    ensures
      var script := LiveScript(cfg, guard, Recorder(decide), [], []);
      var st := LiveBars(cfg, guard, Recorder(decide), [], []).state;
      && script == [] && AdmissibleScript(script) && AllLiveDecided(cfg, guard, decide, [], script)
      && st.engine == Run(cfg, script) && st.strat == HeardBy(cfg, script, st.engine.ledger)
  {
  }

  /**
   * What a live run tells its strategy: the story of its own ledger too, the supervisor's flattens included,
   * at the end of the data as at an outage, which the strategy no longer hears of.
   */
  lemma {:induction false} LiveRunsHear(cfg: Config, guard: SupervisorConfig,
                                        decide: seq<Experience> -> StrategyResult, ticks: seq<LiveTick>)
    ensures
      var script := LiveScript(cfg, guard, Recorder(decide), [], ticks);
      var end := LiveRun(cfg, guard, Recorder(decide), [], ticks, false);
      && AdmissibleScript(script) && |script| == |ticks| && AllLiveDecided(cfg, guard, decide, ticks, script)
      && end.engine == CompleteRun(cfg, script)
      && Placed(end.engine.ledger, TurnsOf(cfg, script)) && end.strat == Story(end.engine.ledger, TurnsOf(cfg, script))
    ensures
      var script := LiveScript(cfg, guard, Recorder(decide), [], ticks);
      && Placed(Run(cfg, script).ledger, TurnsOf(cfg, script))
      && LiveRun(cfg, guard, Recorder(decide), [], ticks, true).strat
         == Story(Run(cfg, script).ledger, TurnsOf(cfg, script))
  {
    hide LiveBars, LiveScript, AllLiveDecided, CloseEndOfData, Story, TurnsOf, Dispatch, Settled, Outage, LiveEnd, Run;
    var r, script := Recorder(decide), LiveScript(cfg, guard, Recorder(decide), [], ticks);
    LiveBarsHear(cfg, guard, decide, ticks);
    LiveRunCompletes(cfg, guard, r, [], ticks);
    EndOfHearing(cfg, decide, script, LiveBars(cfg, guard, r, [], ticks).state.strat);
    TurnsArePlaced(cfg, script, Run(cfg, script).ledger);
  }

  // ---- Nothing is missing from the news, and nothing is told twice ----

  function FillsIn(past: seq<Experience>): seq<Fill>
    decreases |past|
  {
    if |past| == 0 then []
    else
      var last := past[|past| - 1];
      FillsIn(past[..|past| - 1]) + if last.Filled? then [last.fill] else []
  }

  function TradesAmong(past: seq<Experience>): seq<Trade>
    decreases |past|
  {
    if |past| == 0 then []
    else
      var last := past[|past| - 1];
      TradesAmong(past[..|past| - 1]) + if last.Closed? then [last.trade] else []
  }

  lemma {:induction false} AmongAdds(past: seq<Experience>, more: seq<Experience>)
    ensures FillsIn(past + more) == FillsIn(past) + FillsIn(more)
    ensures TradesAmong(past + more) == TradesAmong(past) + TradesAmong(more)
    decreases |more|
  {
    if |more| == 0 {
      assert past + more == past;
    } else {
      AmongAdds(past, more[..|more| - 1]);
      assert (past + more)[..|past + more| - 1] == past + more[..|more| - 1];
    }
  }

  /** Taking the turns out of the story leaves the news. */
  lemma {:induction false} StoryIsNews(ledger: seq<EventRecord>, turns: seq<Turn>)
    requires Placed(ledger, turns)
    ensures FillsIn(Story(ledger, turns)) == FillsIn(News(ledger, 0))
    ensures TradesAmong(Story(ledger, turns)) == TradesAmong(News(ledger, 0))
    decreases |turns|
  {
    hide News, FillsIn, TradesAmong;
    if |turns| == 0 {
    } else {
      var last := turns[|turns| - 1];
      var before := Story(ledger[..last.at], turns[..|turns| - 1]);
      var turn, since := [Context(last.sessionPnl, last.halted), Saw(last.tick)], News(ledger, last.at);
      StoryIsNews(ledger[..last.at], turns[..|turns| - 1]);
      AmongAdds(before, turn);
      AmongAdds(before + turn, since);
      TurnsAreNoNews(last);
      NewsAdds(ledger, 0, last.at);
      AmongAdds(News(ledger[..last.at], 0), since);
    }
  }

  lemma {:induction false} TurnsAreNoNews(turn: Turn)
    ensures
      var past := [Context(turn.sessionPnl, turn.halted), Saw(turn.tick)];
      FillsIn(past) == [] && TradesAmong(past) == []
  {
    AmongOne([], Context(turn.sessionPnl, turn.halted));
    AmongOne([Context(turn.sessionPnl, turn.halted)], Saw(turn.tick));
    assert [] + [Context(turn.sessionPnl, turn.halted)] == [Context(turn.sessionPnl, turn.halted)];
    assert [Context(turn.sessionPnl, turn.halted), Saw(turn.tick)]
        == [Context(turn.sessionPnl, turn.halted)] + [Saw(turn.tick)];
  }

  /** The fills and trades of the news are the engine's own filled intents and trades. */
  predicate Complete(v: View) {
    var news := News(v.ledger, 0);
    && ReplayFills(v.ledger).open == v.exposure.Some?
    && TradesAmong(news) == v.trades
    && |FillsIn(news)| == |v.filled|
    && forall i :: 0 <= i < |v.filled| ==> CarriesOut(FillsIn(news)[i], v.filled[i])
  }

  lemma {:induction false} AmongOne(past: seq<Experience>, item: Experience)
    ensures FillsIn(past + [item]) == FillsIn(past) + if item.Filled? then [item.fill] else []
    ensures TradesAmong(past + [item]) == TradesAmong(past) + if item.Closed? then [item.trade] else []
  {
    assert (past + [item])[..|past|] == past;
  }

  lemma {:induction false} RecordCompletes(v: View, record: EventRecord, w: View)
    requires Complete(v) && !record.FillRecord? && !record.TradeRecord?
    requires w == v.(ledger := v.ledger + [record], pending := w.pending)
    ensures Complete(w)
  {
    hide ReplayFills, News;
    NewsOne(v.ledger, record, 0);
    ReplayOne(v.ledger, record);
    assert News(v.ledger, 0) + [] == News(v.ledger, 0);
  }

  lemma {:induction false} OpenCompletes(v: View, m: Micro)
    requires Complete(v) && Enabled(v, m) && m.OpenAt?
    ensures Complete(Take(v, m))
  {
    hide ReplayFills, News;
    var fill := FillRecord(m.entry.timestamp, m.entry);
    var stop := StopRecord(m.entry.timestamp, m.entry.symbol, m.stop, "initial_stop", true);
    NewsOne(v.ledger, fill, 0);
    ReplayOne(v.ledger, fill);
    NewsOne(v.ledger + [fill], stop, 0);
    ReplayOne(v.ledger + [fill], stop);
    var news := News(v.ledger, 0);
    AmongOne(news, Filled(m.entry));
    assert news + [Filled(m.entry)] + [] == news + [Filled(m.entry)];
  }

  lemma {:induction false} CloseCompletes(v: View, m: Micro)
    requires Complete(v) && Enabled(v, m) && m.CloseAt?
    ensures Complete(Take(v, m))
  {
    hide ReplayFills, News;
    var fill, sold := FillRecord(m.exit.timestamp, m.exit), TradeRecord(m.exit.timestamp, m.trade);
    NewsOne(v.ledger, fill, 0);
    ReplayOne(v.ledger, fill);
    NewsOne(v.ledger + [fill], sold, 0);
    ReplayOne(v.ledger + [fill], sold);
    var news := News(v.ledger, 0);
    AmongOne(news, Closed(m.trade));
    assert news + [] + [Closed(m.trade)] == news + [Closed(m.trade)];
  }

  lemma {:induction false} StepsComplete(v: View, ms: seq<Micro>)
    requires Complete(v) && AllEnabled(v, ms)
    ensures Complete(TakeAll(v, ms))
    decreases |ms|
  {
    hide Complete;
    if |ms| == 0 {
    } else {
      var before, m := TakeAll(v, ms[..|ms| - 1]), ms[|ms| - 1];
      StepsComplete(v, ms[..|ms| - 1]);
      match m
      case LogNeutral(record) => RecordCompletes(before, record, Take(before, m));
      case CancelOrders(timestamp, reason) =>
        RecordCompletes(before, TransitionRecord(timestamp, PendingOrdersCancelled(reason)), Take(before, m));
      case Accept(intent) => RecordCompletes(before, IntentRecord(intent.timestamp, intent), Take(before, m));
      case Drop(timestamp, t) => RecordCompletes(before, TransitionRecord(timestamp, t), Take(before, m));
      case OpenAt(_, _, _) => OpenCompletes(before, m);
      case CloseAt(_, _) => CloseCompletes(before, m);
    }
  }

  lemma {:induction false} NothingIsComplete()
    ensures Complete(EMPTY_VIEW)
  {
  }

  /**
   * Told once and in order: of every complete run, the trades in the story are the engine's trades, and its
   * fills carry out the engine's filled intents, one for one.
   */
  lemma {:induction false} EverythingIsHeardOnce(cfg: Config, script: seq<ScriptBar>)
    requires AdmissibleScript(script)
    ensures
      var end, turns := CompleteRun(cfg, script), TurnsOf(cfg, script);
      && Placed(end.ledger, turns)
      && var story := Story(end.ledger, turns);
         && TradesAmong(story) == end.trades
         && |FillsIn(story)| == |end.filledIntents|
         && forall i :: 0 <= i < |end.filledIntents| ==> CarriesOut(FillsIn(story)[i], end.filledIntents[i])
  {
    hide Run, CloseEndOfData, Story, TurnsOf, News, TradesAmong, FillsIn, CarriesOut, Fresh, AllEnabled, TakeAll;
    RunIsFresh(cfg, script);
    EndTells(cfg, Run(cfg, script));
    TurnsArePlaced(cfg, script, CompleteRun(cfg, script).ledger);
    StoryIsNews(CompleteRun(cfg, script).ledger, TurnsOf(cfg, script));
    var ms := EveryCompleteRunIsGrammatical(cfg, script);
    NothingIsComplete();
    StepsComplete(EMPTY_VIEW, ms);
  }
}
