/** What the recorded excursions and stops mean in terms of the bars a position has survived. */
module StopHistory {
  import opened Prelude
  import opened Market
  import opened Events
  import opened EngineSpec
  import opened EngineRun
  import opened EngineInvariants

  /** The best and worst excursion over a list of bars, from zero. */
  function BestOf(side: PositionSide, entry: real, bars: seq<Bar>): real
    decreases |bars|
  {
    if |bars| == 0 then 0.0
    else Max(BestOf(side, entry, bars[..|bars| - 1]), Favourable(side, entry, bars[|bars| - 1]))
  }

  function WorstOf(side: PositionSide, entry: real, bars: seq<Bar>): real
    decreases |bars|
  {
    if |bars| == 0 then 0.0
    else Max(WorstOf(side, entry, bars[..|bars| - 1]), Adverse(side, entry, bars[|bars| - 1]))
  }

  /**
   * The open position's excursions are those of the bars it has survived, and none of those bars
   * touched its stop or its target.
   */
  predicate Faithful(st: EngineState, survived: seq<Bar>) {
    st.position.Some? ==>
      var p := st.position.value;
      && p.mfePoints == BestOf(p.side, p.entryPrice, survived)
      && p.maePoints == WorstOf(p.side, p.entryPrice, survived)
      && (forall i :: 0 <= i < |survived| ==> !TouchesStop(p, survived[i]) && !TouchesTarget(p, survived[i]))
  }

  /** The survived bars after the open: a position opened there starts afresh. */
  function SurvivedAtOpen(cfg: Config, st: EngineState, tick: Tick, survived: seq<Bar>): seq<Bar> {
    if st.position.Some? && AtOpen(cfg, st, tick).position.Some? then survived else []
  }

  lemma {:induction false} OpenIsFaithful(cfg: Config, st: EngineState, tick: Tick, survived: seq<Bar>)
    requires Inv(cfg, st) && Faithful(st, survived)
    ensures Faithful(AtOpen(cfg, st, tick), SurvivedAtOpen(cfg, st, tick, survived))
    ensures st.position.Some? && AtOpen(cfg, st, tick).position.Some? ==> AtOpen(cfg, st, tick).position == st.position
  {
  }

  /** A position still open after the bar has survived it. */
  lemma {:induction false} BarIsFaithful(cfg: Config, st: EngineState, tick: Tick, survived: seq<Bar>)
    requires Inv(cfg, st) && Live(st) && Faithful(st, survived)
    ensures Faithful(DuringBar(cfg, st, tick), survived + [tick.bar])
  {
    assert (survived + [tick.bar])[..|survived|] == survived;
  }

  lemma {:induction false} LossCheckIsFaithful(cfg: Config, st: EngineState, bar: Bar, survived: seq<Bar>)
    requires Faithful(st, survived)
    ensures Faithful(CheckDailyLoss(cfg, st, bar), survived)
  {
  }

  function SurvivedBar(cfg: Config, st: EngineState, tick: Tick, survived: seq<Bar>): seq<Bar> {
    SurvivedAtOpen(cfg, Log(st, BarRecord(tick.bar.timestamp, tick.bar)), tick, survived) + [tick.bar]
  }

  lemma {:induction false} MarkIsFaithful(cfg: Config, st: EngineState, tick: Tick, survived: seq<Bar>)
    requires Inv(cfg, st) && Faithful(st, survived)
    ensures Faithful(AfterPreStrategy(cfg, st, tick), SurvivedBar(cfg, st, tick, survived))
  {
    hide AtOpen, DuringBar, CheckDailyLoss, Inv;
    var logged := Log(st, BarRecord(tick.bar.timestamp, tick.bar));
    assert Inv(cfg, logged) by { LogKeeps(cfg, st, BarRecord(tick.bar.timestamp, tick.bar)); }
    OpenIsFaithful(cfg, logged, tick, survived);
    AtOpenKeeps(cfg, logged, tick);
    var kept := SurvivedAtOpen(cfg, logged, tick, survived);
    BarIsFaithful(cfg, AtOpen(cfg, logged, tick), tick, kept);
    LossCheckIsFaithful(cfg, DuringBar(cfg, AtOpen(cfg, logged, tick), tick), tick.bar, kept + [tick.bar]);
  }

  /** A position opened at the signal bar's own close has survived nothing yet. */
  function SurvivedAnswer(before: EngineState, after: EngineState, survived: seq<Bar>): seq<Bar> {
    if |after.filledIntents| == |before.filledIntents| then survived else []
  }

  lemma {:induction false} ExitsAreFaithful(cfg: Config, st: EngineState, bar: Bar, exits: seq<ExitDecision>,
                                            survived: seq<Bar>)
    requires Faithful(st, survived)
    ensures
      var after := ApplyExits(cfg, st, bar, exits);
      Faithful(after, survived) && after.filledIntents == st.filledIntents
    decreases |exits|
  {
    if |exits| == 0 {
    } else {
      ExitsAreFaithful(cfg, st, bar, exits[..|exits| - 1], survived);
    }
  }

  lemma {:induction false} IntentsAreFaithful(cfg: Config, st: EngineState, tick: Tick, intents: seq<OrderIntent>,
                                              survived: seq<Bar>)
    requires Faithful(st, survived)
    ensures
      var after := ApplyIntents(cfg, st, tick, intents);
      && |after.filledIntents| >= |st.filledIntents|
      && Faithful(after, SurvivedAnswer(st, after, survived))
    decreases |intents|
  {
    if |intents| == 0 {
    } else {
      IntentsAreFaithful(cfg, st, tick, intents[..|intents| - 1], survived);
      IntentIsFaithful(cfg, ApplyIntents(cfg, st, tick, intents[..|intents| - 1]), tick, intents[|intents| - 1],
                       SurvivedAnswer(st, ApplyIntents(cfg, st, tick, intents[..|intents| - 1]), survived));
      hide ApplyIntent, Faithful;
    }
  }

  lemma {:induction false} IntentIsFaithful(cfg: Config, st: EngineState, tick: Tick, intent: OrderIntent,
                                            survived: seq<Bar>)
    requires Faithful(st, survived)
    ensures
      var after := ApplyIntent(cfg, st, tick, intent);
      && |after.filledIntents| >= |st.filledIntents|
      && Faithful(after, SurvivedAnswer(st, after, survived))
  {
  }

  lemma {:induction false} AnswerIsFaithful(cfg: Config, st: EngineState, tick: Tick, result: StrategyResult,
                                            survived: seq<Bar>)
    requires Faithful(st, survived)
    ensures
      var after := AfterStrategy(cfg, st, tick, result);
      Faithful(after, SurvivedAnswer(st, after, survived))
  {
    hide LogResult, ApplyExits, ApplyIntents;
    LogResultOnlyLogs(st, result);
    var logged := LogResult(st, result);
    ExitsAreFaithful(cfg, logged, tick.bar, result.exits, survived);
    IntentsAreFaithful(cfg, ApplyExits(cfg, logged, tick.bar, result.exits), tick, result.orderIntents, survived);
  }

  /** The bars the open position has survived at the end of a run. */
  function Survived(cfg: Config, script: seq<ScriptBar>): seq<Bar>
    decreases |script|
  {
    if |script| == 0 then []
    else
      var b := script[|script| - 1];
      var st := Run(cfg, script[..|script| - 1]);
      var supervised := AfterSupervisor(cfg, AfterPreStrategy(cfg, st, b.tick), b.tick.bar, b.breach);
      SurvivedAnswer(supervised, EngineBar(cfg, st, b),
                     SurvivedBar(cfg, st, b.tick, Survived(cfg, script[..|script| - 1])))
  }

  lemma {:induction false} FlattenIsFaithful(cfg: Config, st: EngineState, bar: Bar, breach: Option<Reason>,
                                             survived: seq<Bar>)
    requires Faithful(st, survived)
    ensures Faithful(AfterSupervisor(cfg, st, bar, breach), survived)
  {
  }

  /** On every run the open position's excursions are the batch extremes of the bars it survived. */
  lemma {:induction false} ExcursionsAreBatchExtremes(cfg: Config, script: seq<ScriptBar>)
    requires AdmissibleScript(script)
    ensures Faithful(Run(cfg, script), Survived(cfg, script))
    decreases |script|
  {
    hide AfterPreStrategy, AfterSupervisor, AfterStrategy, Inv, Faithful, SurvivedBar, SurvivedAnswer;
    if |script| > 0 {
      var b := script[|script| - 1];
      var before := script[..|script| - 1];
      var st := Run(cfg, before);
      ExcursionsAreBatchExtremes(cfg, before);
      EveryReachableStateIsSafe(cfg, before);
      var survived := SurvivedBar(cfg, st, b.tick, Survived(cfg, before));
      MarkIsFaithful(cfg, st, b.tick, Survived(cfg, before));
      FlattenIsFaithful(cfg, AfterPreStrategy(cfg, st, b.tick), b.tick.bar, b.breach, survived);
      AnswerIsFaithful(cfg, AfterSupervisor(cfg, AfterPreStrategy(cfg, st, b.tick), b.tick.bar, b.breach), b.tick,
                       b.result, survived);
    } else {
      StartIsFaithful(cfg);
    }
  }

  lemma {:induction false} StartIsFaithful(cfg: Config)
    ensures Faithful(Initial([]), [])
  {
  }

  // ---- Intrabar paths ----

  /** Prices visited inside a bar, in whatever order. */
  predicate Within(path: seq<real>, bar: Bar) {
    forall i :: 0 <= i < |path| ==> bar.low <= path[i] <= bar.high
  }

  function Gain(side: PositionSide, entry: real, price: real): real {
    (price - entry) * Direction(side)
  }

  /** The true favourable excursion: the confirmed one, or a better price on the path. */
  function TrueMfe(side: PositionSide, entry: real, confirmed: real, path: seq<real>): real
    decreases |path|
  {
    if |path| == 0 then confirmed
    else Max(TrueMfe(side, entry, confirmed, path[..|path| - 1]), Gain(side, entry, path[|path| - 1]))
  }

  /** What the bounds report takes as confirmed; an excursion is never less than nothing. */
  function Lower(trade: Trade): real {
    Max(0.0, trade.mfePoints)
  }

  /** The upper end of the interval the report gives for a stopped trade and its exit bar. */
  function Upper(trade: Trade, bar: Bar): real {
    Max(Lower(trade), Favourable(trade.side, trade.entryPrice, bar))
  }

  lemma {:induction false} PathStaysBounded(side: PositionSide, entry: real, confirmed: real, path: seq<real>, bar: Bar)
    requires Within(path, bar)
    ensures confirmed <= TrueMfe(side, entry, confirmed, path) <= Max(confirmed, Favourable(side, entry, bar))
    decreases |path|
  {
    if |path| == 0 {
    } else {
      PathStaysBounded(side, entry, confirmed, path[..|path| - 1], bar);
    }
  }

  lemma {:induction false} BestIsNonNegative(side: PositionSide, entry: real, bars: seq<Bar>)
    ensures BestOf(side, entry, bars) >= 0.0
    decreases |bars|
  {
    if |bars| == 0 {
    } else {
      BestIsNonNegative(side, entry, bars[..|bars| - 1]);
    }
  }

  /** A bar that stops the live position out, at any point of any run. */
  predicate StopsOut(st: EngineState, bar: Bar) {
    st.position.Some? && !st.position.value.stopCancelled && TouchesStop(st.position.value, bar)
  }

  function StoppedTrade(cfg: Config, st: EngineState, bar: Bar): Trade
    requires StopsOut(st, bar)
  {
    var after := IntrabarStopAndTarget(cfg, st, bar);
    after.trades[|after.trades| - 1]
  }

  /**
   * When a bar of any run stops a position out: the recorded MFE is the batch maximum over the bars
   * it survived; for every price path inside the bar the true MFE lies in the reported interval; and
   * when the exit is not flagged ambiguous, the recorded MFE is exact for every such path.
   */
  lemma {:induction false} StoppedMfeIsBounded(cfg: Config, script: seq<ScriptBar>, tick: Tick, path: seq<real>)
    requires AdmissibleScript(script) && Within(path, tick.bar)
    requires StopsOut(AtOpen(cfg, Log(Run(cfg, script), BarRecord(tick.bar.timestamp, tick.bar)), tick), tick.bar)
    ensures
      var logged := Log(Run(cfg, script), BarRecord(tick.bar.timestamp, tick.bar));
      var opened' := AtOpen(cfg, logged, tick);
      var survived := SurvivedAtOpen(cfg, logged, tick, Survived(cfg, script));
      var trade := StoppedTrade(cfg, opened', tick.bar);
      var truth := TrueMfe(trade.side, trade.entryPrice, trade.mfePoints, path);
      && trade.mfePoints == BestOf(trade.side, trade.entryPrice, survived)
      && Lower(trade) <= truth <= Upper(trade, tick.bar)
      && (!trade.ambiguousExit ==> truth == trade.mfePoints)
  {
    hide AtOpen, Run, Inv, Survived;
    var st := Run(cfg, script);
    var logged := Log(st, BarRecord(tick.bar.timestamp, tick.bar));
    ExcursionsAreBatchExtremes(cfg, script);
    EveryReachableStateIsSafe(cfg, script);
    assert Inv(cfg, logged) by { LogKeeps(cfg, st, BarRecord(tick.bar.timestamp, tick.bar)); }
    OpenIsFaithful(cfg, logged, tick, Survived(cfg, script));
    var p := AtOpen(cfg, logged, tick).position.value;
    PathStaysBounded(p.side, p.entryPrice, p.mfePoints, path, tick.bar);
    BestIsNonNegative(p.side, p.entryPrice, SurvivedAtOpen(cfg, logged, tick, Survived(cfg, script)));
  }

  /** The interval is tight: every value in it is the true MFE of some path inside the bar. */
  lemma {:induction false} EveryBoundIsAttained(trade: Trade, bar: Bar, value: real) returns (path: seq<real>)
    requires StopProtects(trade.side, trade.stopPrice, trade.entryPrice)
    requires if trade.side.Long? then bar.low <= trade.stopPrice else bar.high >= trade.stopPrice
    requires Lower(trade) <= value <= Upper(trade, bar)
    ensures Within(path, bar)
    ensures TrueMfe(trade.side, trade.entryPrice, Lower(trade), path) == value
  {
    if value == Lower(trade) {
      path := [];
    } else {
      var price := trade.entryPrice + Direction(trade.side) * value;
      path := [price];
      assert Gain(trade.side, trade.entryPrice, price) == value;
      assert path[..0] == [];
      assert TrueMfe(trade.side, trade.entryPrice, Lower(trade), path[..0]) == Lower(trade);
    }
  }
}
