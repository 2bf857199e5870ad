/** What the bounds report says of a run's own trades and bars. */
module StopReport {
  import opened Prelude
  import opened Market
  import opened Events
  import opened EngineSpec
  import opened EngineRun
  import opened EngineInvariants
  import opened StopHistory
  import opened IntrabarBounds

  // ---- Only a stop inside a bar flags its trade ----

  /** Whatever waits or is open is in symbol `sym`. */
  predicate Only(sym: Symbol, st: EngineState) {
    && (st.position.Some? ==> st.position.value.symbol == sym)
    && (st.pendingEntry.Some? ==> st.pendingEntry.value.intent.symbol == sym)
  }

  /** From `st` to `next` no flagged trade is added, and the symbol is kept. */
  predicate Quiet(sym: Symbol, st: EngineState, next: EngineState) {
    && (Only(sym, st) ==> Only(sym, next))
    && forall t :: t in next.trades && t.ambiguousExit ==> t in st.trades
  }

  lemma {:induction false} CloseIsQuiet(cfg: Config, sym: Symbol, st: EngineState, raw: real, timestamp: Timestamp,
                                        reason: Reason)
    ensures Quiet(sym, st, ClosePosition(cfg, st, raw, timestamp, reason, false))
  {
  }

  lemma {:induction false} FlattenIsQuiet(cfg: Config, sym: Symbol, st: EngineState, bar: Bar, reason: Reason)
    ensures Quiet(sym, st, FlattenNow(cfg, st, bar, reason))
  {
    hide ClosePosition;
    CloseIsQuiet(cfg, sym, CancelPendings(st, bar.timestamp, reason), bar.close, bar.timestamp, reason);
  }

  lemma {:induction false} SessionChangeIsQuiet(cfg: Config, sym: Symbol, st: EngineState, session: Session)
    ensures Quiet(sym, st, FlattenIfSessionChanged(cfg, st, session))
  {
    hide ClosePosition;
    if st.previous.Some? {
      var last := st.previous.value.bar;
      CloseIsQuiet(cfg, sym, CancelPendings(st, last.timestamp, SessionEnd), last.close, last.timestamp, SessionEnd);
    }
  }

  lemma {:induction false} GapStopIsQuiet(cfg: Config, sym: Symbol, st: EngineState, bar: Bar)
    ensures Quiet(sym, st, OpenGapStop(cfg, st, bar))
  {
    hide ClosePosition, OpensThroughStop;
    CloseIsQuiet(cfg, sym, st.(pendingExit := None), bar.open, bar.timestamp, StopGap);
  }

  lemma {:induction false} PendingEntryIsQuiet(cfg: Config, sym: Symbol, st: EngineState, tick: Tick)
    ensures Quiet(sym, st, ProcessPendingEntry(cfg, st, tick))
  {
    hide EntrySelected, StopProtects, EntryPrice, EntrySlippage;
  }

  lemma {:induction false} PendingExitIsQuiet(cfg: Config, sym: Symbol, st: EngineState, bar: Bar)
    ensures Quiet(sym, st, ProcessPendingExit(cfg, st, bar))
  {
    hide ClosePosition;
    if st.pendingExit.Some? {
      CloseIsQuiet(cfg, sym, st.(pendingExit := None), bar.open, bar.timestamp, st.pendingExit.value.reason);
    }
  }

  lemma {:induction false} AtOpenIsQuiet(cfg: Config, sym: Symbol, st: EngineState, tick: Tick)
    ensures Quiet(sym, st, AtOpen(cfg, st, tick))
  {
    hide FlattenIfSessionChanged, OpenGapStop, ProcessPendingEntry, ProcessPendingExit, Only;
    var rolled := FlattenIfSessionChanged(cfg, st, tick.session);
    var gapped := OpenGapStop(cfg, rolled, tick.bar);
    SessionChangeIsQuiet(cfg, sym, st, tick.session);
    GapStopIsQuiet(cfg, sym, rolled, tick.bar);
    PendingEntryIsQuiet(cfg, sym, gapped, tick);
    PendingExitIsQuiet(cfg, sym, ProcessPendingEntry(cfg, gapped, tick), tick.bar);
  }

  lemma {:induction false} StopCloses(cfg: Config, st: EngineState, bar: Bar)
    requires StopsOut(st, bar)
    ensures
      var next, t := IntrabarStopAndTarget(cfg, st, bar), StoppedTrade(cfg, st, bar);
      && next.position.None? && next.pendingEntry == st.pendingEntry
      && next.trades == st.trades + [t]
      && t.symbol == st.position.value.symbol && t.exitTimestamp == bar.timestamp
  {
    hide TouchesTarget, Favourable;
  }

  lemma {:induction false} NoStopIsQuiet(cfg: Config, sym: Symbol, st: EngineState, bar: Bar)
    requires !StopsOut(st, bar)
    ensures Quiet(sym, st, IntrabarStopAndTarget(cfg, st, bar))
  {
    hide ClosePosition, TouchesStop, TouchesTarget;
    if st.position.Some? && st.position.value.targetPrice.Some? {
      var p := st.position.value;
      var marked := p.(mfePoints := Max(p.mfePoints, Abs(p.targetPrice.value - p.entryPrice)));
      CloseIsQuiet(cfg, sym, st.(position := Some(marked)), p.targetPrice.value, bar.timestamp, Target);
    }
    NoTargetNoTouch(st, bar);
  }

  lemma {:induction false} NoTargetNoTouch(st: EngineState, bar: Bar)
    ensures st.position.Some? && st.position.value.targetPrice.None? ==> !TouchesTarget(st.position.value, bar)
  {
  }

  /** The one step that can flag a trade, and the trade it flags. */
  lemma {:induction false} StopMayFlag(cfg: Config, sym: Symbol, st: EngineState, bar: Bar)
    requires Only(sym, st)
    ensures
      var next := IntrabarStopAndTarget(cfg, st, bar);
      && Only(sym, next)
      && forall t :: t in next.trades && t.ambiguousExit && t !in st.trades ==>
           && StopsOut(st, bar) && t == StoppedTrade(cfg, st, bar)
           && t.symbol == sym && t.exitTimestamp == bar.timestamp
  {
    hide IntrabarStopAndTarget, StoppedTrade, TouchesStop;
    if StopsOut(st, bar) {
      StopCloses(cfg, st, bar);
    } else {
      NoStopIsQuiet(cfg, sym, st, bar);
    }
  }

  lemma {:induction false} RestIsQuiet(cfg: Config, sym: Symbol, st: EngineState, tick: Tick)
    ensures Quiet(sym, st, BackstopFlatten(cfg, UpdateExcursions(st, tick.bar), tick))
  {
    hide FlattenNow, EffectiveFlatten;
    FlattenIsQuiet(cfg, sym, UpdateExcursions(st, tick.bar), tick.bar, SessionFlatten);
  }

  lemma {:induction false} LossCheckIsQuiet(cfg: Config, sym: Symbol, st: EngineState, bar: Bar)
    ensures Quiet(sym, st, CheckDailyLoss(cfg, st, bar))
  {
    hide SessionPnl;
  }

  lemma {:induction false} SupervisorIsQuiet(cfg: Config, sym: Symbol, st: EngineState, bar: Bar,
                                             breach: Option<Reason>)
    ensures Quiet(sym, st, AfterSupervisor(cfg, st, bar, breach))
  {
    hide FlattenNow;
    if breach.Some? {
      var halted := Log(st, TransitionRecord(bar.timestamp, ExecutionHalt(Breach(breach.value))));
      FlattenIsQuiet(cfg, sym, halted, bar, breach.value);
    }
  }

  lemma {:induction false} ExitsAreQuiet(cfg: Config, sym: Symbol, st: EngineState, bar: Bar, exits: seq<ExitDecision>)
    ensures Quiet(sym, st, ApplyExits(cfg, st, bar, exits))
    decreases |exits|
  {
    hide ClosePosition;
    if |exits| == 0 {
    } else {
      var before, exit := ApplyExits(cfg, st, bar, exits[..|exits| - 1]), exits[|exits| - 1];
      ExitsAreQuiet(cfg, sym, st, bar, exits[..|exits| - 1]);
      CloseIsQuiet(cfg, sym, Log(before, ExitRecord(exit.timestamp, exit)), bar.close, bar.timestamp, exit.reason);
    }
  }

  lemma {:induction false} IntentIsQuiet(cfg: Config, sym: Symbol, st: EngineState, tick: Tick, intent: OrderIntent)
    requires intent.symbol == sym
    ensures Quiet(sym, st, ApplyIntent(cfg, st, tick, intent))
  {
    hide StopProtects, EntryPrice, EntrySlippage;
  }

  lemma {:induction false} IntentsAreQuiet(cfg: Config, sym: Symbol, st: EngineState, tick: Tick,
                                           intents: seq<OrderIntent>)
    requires forall i :: 0 <= i < |intents| ==> intents[i].symbol == sym
    ensures Quiet(sym, st, ApplyIntents(cfg, st, tick, intents))
    decreases |intents|
  {
    hide ApplyIntent, Only;
    if |intents| == 0 {
    } else {
      IntentsAreQuiet(cfg, sym, st, tick, intents[..|intents| - 1]);
      IntentIsQuiet(cfg, sym, ApplyIntents(cfg, st, tick, intents[..|intents| - 1]), tick, intents[|intents| - 1]);
    }
  }

  lemma {:induction false} AnswerIsQuiet(cfg: Config, sym: Symbol, st: EngineState, tick: Tick, result: StrategyResult)
    requires forall i :: 0 <= i < |result.orderIntents| ==> result.orderIntents[i].symbol == sym
    ensures Quiet(sym, st, AfterStrategy(cfg, st, tick, result))
  {
    hide LogResult, ApplyExits, ApplyIntents;
    LogResultOnlyLogs(st, result);
    var logged := LogResult(st, result);
    ExitsAreQuiet(cfg, sym, logged, tick.bar, result.exits);
    IntentsAreQuiet(cfg, sym, ApplyExits(cfg, logged, tick.bar, result.exits), tick, result.orderIntents);
  }

  lemma {:induction false} EndIsQuiet(cfg: Config, sym: Symbol, st: EngineState)
    ensures Quiet(sym, st, ClearFeedback(CloseEndOfData(cfg, st)))
  {
    hide ClosePosition;
    if st.previous.Some? {
      var last := st.previous.value.bar;
      var cancelled :=
        if st.pendingEntry.None? then st
        else Log(st, TransitionRecord(last.timestamp, PendingOrdersCancelled(EndOfData))).(pendingEntry := None);
      CloseIsQuiet(cfg, sym, cancelled, last.close, last.timestamp, EndOfData);
    }
  }

  // ---- Bars ----

  /** The engine at the open of a bar, before its range is looked at. */
  function Opening(cfg: Config, st: EngineState, tick: Tick): EngineState {
    AtOpen(cfg, Log(st, BarRecord(tick.bar.timestamp, tick.bar)), tick)
  }

  /** The bar and its answer are about one symbol. */
  predicate BarIn(sym: Symbol, b: ScriptBar) {
    && b.tick.bar.symbol == sym
    && forall i :: 0 <= i < |b.result.orderIntents| ==> b.result.orderIntents[i].symbol == sym
  }

  /** The trade is what this bar's stop made of the position open in it. */
  predicate StoppedBy(cfg: Config, st: EngineState, tick: Tick, t: Trade) {
    && StopsOut(Opening(cfg, st, tick), tick.bar)
    && t == StoppedTrade(cfg, Opening(cfg, st, tick), tick.bar)
    && ExitKey(t) == BarKey(tick.bar)
  }

  lemma {:induction false} MarkMayFlag(cfg: Config, sym: Symbol, st: EngineState, tick: Tick)
    requires Only(sym, st) && tick.bar.symbol == sym
    ensures
      var next := AfterPreStrategy(cfg, st, tick);
      && Only(sym, next)
      && forall t :: t in next.trades && t.ambiguousExit && t !in st.trades ==> StoppedBy(cfg, st, tick, t)
  {
    hide AtOpen, IntrabarStopAndTarget, BackstopFlatten, UpdateExcursions, CheckDailyLoss, StopsOut, StoppedTrade;
    hide Only;
    var logged := Log(st, BarRecord(tick.bar.timestamp, tick.bar));
    assert Only(sym, logged) by { LoggingKeepsSymbol(sym, st, BarRecord(tick.bar.timestamp, tick.bar)); }
    AtOpenIsQuiet(cfg, sym, logged, tick);
    var opened' := AtOpen(cfg, logged, tick);
    StopMayFlag(cfg, sym, opened', tick.bar);
    var stopped := IntrabarStopAndTarget(cfg, opened', tick.bar);
    RestIsQuiet(cfg, sym, stopped, tick);
    LossCheckIsQuiet(cfg, sym, BackstopFlatten(cfg, UpdateExcursions(stopped, tick.bar), tick), tick.bar);
    ClearingKeepsSymbol(sym, PreStrategy(cfg, logged, tick));
  }

  lemma {:induction false} LoggingKeepsSymbol(sym: Symbol, st: EngineState, record: EventRecord)
    requires Only(sym, st)
    ensures Only(sym, Log(st, record))
  {
  }

  lemma {:induction false} ClearingKeepsSymbol(sym: Symbol, st: EngineState)
    requires Only(sym, st)
    ensures Only(sym, ClearFeedback(st))
  {
  }

  lemma {:induction false} BarMayFlag(cfg: Config, sym: Symbol, st: EngineState, b: ScriptBar)
    requires Only(sym, st) && BarIn(sym, b)
    ensures
      var next := EngineBar(cfg, st, b);
      && Only(sym, next)
      && forall t :: t in next.trades && t.ambiguousExit && t !in st.trades ==> StoppedBy(cfg, st, b.tick, t)
  {
    hide AfterPreStrategy, AfterSupervisor, AfterStrategy, StoppedBy, Only;
    var marked := AfterPreStrategy(cfg, st, b.tick);
    MarkMayFlag(cfg, sym, st, b.tick);
    SupervisorIsQuiet(cfg, sym, marked, b.tick.bar, b.breach);
    AnswerIsQuiet(cfg, sym, AfterSupervisor(cfg, marked, b.tick.bar, b.breach), b.tick, b.result);
  }

  // ---- Runs ----

  predicate OneSymbol(script: seq<ScriptBar>, sym: Symbol) {
    forall i :: 0 <= i < |script| ==> BarIn(sym, script[i])
  }

  /** Bar k of the script stopped the trade out. */
  predicate StoppedAt(cfg: Config, script: seq<ScriptBar>, t: Trade, k: nat) {
    k < |script| && StoppedBy(cfg, Run(cfg, script[..k]), script[k].tick, t)
  }

  predicate SomeBarStopped(cfg: Config, script: seq<ScriptBar>, t: Trade) {
    exists k: nat :: k < |script| && StoppedAt(cfg, script, t, k)
  }

  /** Every flagged trade of a run was stopped out by the run's bar of that symbol and time. */
  lemma {:induction false} FlaggedTradesAreStops(cfg: Config, script: seq<ScriptBar>, sym: Symbol)
    requires OneSymbol(script, sym)
    ensures Only(sym, Run(cfg, script))
    ensures forall t :: t in Run(cfg, script).trades && t.ambiguousExit ==> SomeBarStopped(cfg, script, t)
    decreases |script|
  {
    hide EngineBar, Only, StoppedBy, BarIn;
    if |script| == 0 {
      NothingOpen(sym);
    } else {
      var before, last := script[..|script| - 1], script[|script| - 1];
      FlaggedTradesAreStops(cfg, before, sym);
      BarMayFlag(cfg, sym, Run(cfg, before), last);
      forall t | t in Run(cfg, script).trades && t.ambiguousExit
        ensures SomeBarStopped(cfg, script, t)
      {
        if t in Run(cfg, before).trades {
          var k: nat :| k < |before| && StoppedAt(cfg, before, t, k);
          assert before[..k] == script[..k];
          assert StoppedAt(cfg, script, t, k);
        } else {
          assert StoppedAt(cfg, script, t, |before|);
        }
      }
    }
  }

  lemma {:induction false} NothingOpen(sym: Symbol)
    ensures Only(sym, Initial([]))
  {
  }

  // ---- The report of a run ----

  function BarsOf(script: seq<ScriptBar>): (bars: seq<Bar>)
    ensures |bars| == |script|
  {
    seq(|script|, i requires 0 <= i < |script| => script[i].tick.bar)
  }

  predicate DistinctTimes(script: seq<ScriptBar>) {
    forall i, j :: 0 <= i < j < |script| ==> script[i].tick.bar.timestamp != script[j].tick.bar.timestamp
  }

  lemma {:induction false} CompleteRunsFlagStops(cfg: Config, script: seq<ScriptBar>, sym: Symbol)
    requires OneSymbol(script, sym)
    ensures forall t :: t in CompleteRun(cfg, script).trades && t.ambiguousExit ==> SomeBarStopped(cfg, script, t)
  {
    hide Run, CloseEndOfData, SomeBarStopped, OneSymbol, Only;
    FlaggedTradesAreStops(cfg, script, sym);
    EndIsQuiet(cfg, sym, Run(cfg, script));
  }

  /** A stopped trade's exit bar is the bar that stopped it: no other bar has its key. */
  lemma {:induction false} ExitBarIsTheStop(cfg: Config, script: seq<ScriptBar>, t: Trade, bar: Bar) returns (k: nat)
    requires DistinctTimes(script) && SomeBarStopped(cfg, script, t)
    requires bar in BarsOf(script) && BarKey(bar) == ExitKey(t)
    ensures StoppedAt(cfg, script, t, k) && bar == script[k].tick.bar
  {
    hide Run, StopsOut, StoppedTrade, Opening;
    k :| k < |script| && StoppedAt(cfg, script, t, k);
    var j :| 0 <= j < |script| && BarsOf(script)[j] == bar;
    assert script[j].tick.bar.timestamp == script[k].tick.bar.timestamp;
  }

  lemma {:induction false} RunsHaveTheirBars(cfg: Config, script: seq<ScriptBar>, sym: Symbol)
    requires OneSymbol(script, sym) && DistinctTimes(script)
    ensures
      var ambiguous := Filter(IsAmbiguous, CompleteRun(cfg, script).trades);
      Unambiguous(NeededKeys(ambiguous), BarsOf(script)) && NoneUnfiled(ambiguous, BarsOf(script))
  {
    hide CompleteRun, Filter, StoppedBy;
    var ambiguous := Filter(IsAmbiguous, CompleteRun(cfg, script).trades);
    CompleteRunsFlagStops(cfg, script, sym);
    forall i | 0 <= i < |ambiguous|
      ensures !Unfiled(ambiguous[i], BarsOf(script))
    {
      assert ambiguous[i] in ambiguous;
      var k: nat :| k < |script| && StoppedAt(cfg, script, ambiguous[i], k);
      StoppedKey(cfg, script, ambiguous[i], k);
      assert BarKey(BarsOf(script)[k]) == ExitKey(ambiguous[i]);
    }
  }

  lemma {:induction false} StoppedKey(cfg: Config, script: seq<ScriptBar>, t: Trade, k: nat)
    requires StoppedAt(cfg, script, t, k)
    ensures ExitKey(t) == BarKey(script[k].tick.bar)
  {
  }

  /** The interval holds the true excursion of the trade for every price path inside the bar that stopped it. */
  ghost predicate Sharp(cfg: Config, script: seq<ScriptBar>, t: Trade, interval: Interval) {
    exists k: nat ::
      && StoppedAt(cfg, script, t, k)
      && interval == IntervalOf(t, script[k].tick.bar)
      && forall path: seq<real> :: Within(path, script[k].tick.bar) ==>
           interval.lower <= TrueMfe(t.side, t.entryPrice, t.mfePoints, path) <= interval.upper
  }

  lemma {:induction false} IntervalIsSharp(cfg: Config, script: seq<ScriptBar>, t: Trade, interval: Interval)
    requires AdmissibleScript(script) && DistinctTimes(script)
    requires SomeBarStopped(cfg, script, t) && FromData(interval, t, BarsOf(script))
    ensures Sharp(cfg, script, t, interval)
  {
    hide Run, StopsOut, StoppedTrade, AtOpen, SomeBarStopped, TrueMfe, Within, BarsOf, BarKey, ExitKey;
    var bar :| bar in BarsOf(script) && BarKey(bar) == ExitKey(t) && interval == IntervalOf(t, bar);
    var k := ExitBarIsTheStop(cfg, script, t, bar);
    forall path: seq<real> | Within(path, bar)
      ensures interval.lower <= TrueMfe(t.side, t.entryPrice, t.mfePoints, path) <= interval.upper
    {
      assert AdmissibleScript(script[..k]);
      StoppedMfeIsBounded(cfg, script[..k], script[k].tick, path);
    }
  }

  /**
   * Run, then report: on bars with distinct times the report never fails, and it gives for each flagged
   * stop, in order, the interval from the very bar that stopped it, which holds the true excursion of
   * every price path inside that bar.
   */
  method ReportRun(cfg: Config, script: seq<ScriptBar>, sym: Symbol, thresholds: seq<real>) returns (report: Report)
    requires AdmissibleScript(script) && OneSymbol(script, sym) && DistinctTimes(script)
    ensures
      var trades := CompleteRun(cfg, script).trades;
      var ambiguous := Filter(IsAmbiguous, trades);
      && Counted(report, trades) && Consistent(report, thresholds)
      && |report.intervals| == |ambiguous|
      && forall i :: 0 <= i < |ambiguous| ==> Sharp(cfg, script, ambiguous[i], report.intervals[i])
  {
    hide CompleteRun, Filter, SomeBarStopped, FromData, Sharp, Counted, Consistent, OneSymbol, DistinctTimes,
         NoneUnfiled;
    hide Unambiguous, NeededKeys;
    var trades := CompleteRun(cfg, script).trades;
    var result := BuildReport(trades, BarsOf(script), thresholds);
    RunsHaveTheirBars(cfg, script, sym);
    report := result.value;
    ghost var ambiguous := Filter(IsAmbiguous, trades);
    CompleteRunsFlagStops(cfg, script, sym);
    forall i | 0 <= i < |ambiguous|
      ensures Sharp(cfg, script, ambiguous[i], report.intervals[i])
    {
      assert ambiguous[i] in ambiguous;
      IntervalIsSharp(cfg, script, ambiguous[i], report.intervals[i]);
    }
  }
}
