/** In a backtest the retest strategy knows what it holds, and asks to leave exactly when its time is up. */
module RetestPositions {
  import opened Prelude
  import opened Market
  import opened Events
  import opened EngineSpec
  import opened EngineInvariants
  import opened Deeds
  import opened Simulation
  import opened RetestModel
  import Invariants = RetestInvariants
  import ExitDuties
  import RetestBacktest
  import History = RetestHistory

  /** An open position as the strategy should know it: its side, and the reason of the entry that opened it. */
  datatype Stance = Stance(side: PositionSide, reason: Reason)

  function StanceOn(p: Page): Option<Stance> {
    if p.holding.None? || |p.filled| == 0 then None
    else Some(Stance(p.holding.value.side, p.filled[|p.filled| - 1].reason))
  }

  /** What a stance becomes by what is reported. */
  function After(stance: Option<Stance>, feedback: seq<Feedback>): Option<Stance>
    decreases |feedback|
  {
    if |feedback| == 0 then stance
    else
      match feedback[|feedback| - 1]
      case FillFeedback(fill) => Some(Stance(if fill.side.Buy? then Long else Short, fill.reason))
      case TradeFeedback(_) => None
  }

  /** Whether some trade is reported closed. */
  predicate Closes(feedback: seq<Feedback>) {
    exists i :: 0 <= i < |feedback| && feedback[i].TradeFeedback?
  }

  // ---- The engine's reports say what it holds ----

  /** The reports since `stance` and `trades` lead to the page, fills by filled intents. */
  predicate Reports(stance: Option<Stance>, trades: nat, p: Page) {
    && After(stance, p.feedback) == StanceOn(p)
    && (p.holding.Some? ==> |p.filled| > 0)
    && |p.trades| >= trades && (|p.trades| > trades ==> Closes(p.feedback))
    && (forall i :: 0 <= i < |p.feedback| && p.feedback[i].FillFeedback? ==>
          exists j :: 0 <= j < |p.filled| && p.filled[j].reason == p.feedback[i].fill.reason)
  }

  lemma {:induction false} DeedReports(stance: Option<Stance>, trades: nat, scene: Scene, p: Page, d: Deed)
    requires Reports(stance, trades, p) && Allowed(scene, p, d)
    ensures Reports(stance, trades, Do(p, d))
  {
    hide Accounted, Caused, Discharged, Charged;
    var q := Do(p, d);
    match d
    case Write(_) =>
    case Enter(entry, intent, _, _) =>
      assert !entry.side.Unknown? by { ChargedSide(scene, entry); }
      assert q.filled[|p.filled|].reason == entry.reason;
      forall i | 0 <= i < |q.feedback| && q.feedback[i].FillFeedback?
        ensures exists j :: 0 <= j < |q.filled| && q.filled[j].reason == q.feedback[i].fill.reason
      {
        if i < |p.feedback| {
          var j :| 0 <= j < |p.filled| && p.filled[j].reason == p.feedback[i].fill.reason;
          assert q.filled[j] == p.filled[j];
        }
      }
      if Closes(p.feedback) {
        var i :| 0 <= i < |p.feedback| && p.feedback[i].TradeFeedback?;
        assert q.feedback[i].TradeFeedback?;
      }
    case Leave(_, _) => assert q.feedback[|p.feedback|].TradeFeedback?;
  }

  lemma {:induction false} ChargedSide(scene: Scene, entry: Fill)
    requires Charged(scene, entry)
    ensures !entry.side.Unknown?
  {
  }

  lemma {:induction false} DeedsReport(stance: Option<Stance>, trades: nat, scene: Scene, p: Page, ds: seq<Deed>)
    requires Reports(stance, trades, p) && AllAllowed(scene, p, ds)
    ensures Reports(stance, trades, DoAll(p, ds))
    decreases |ds|
  {
    hide Reports, Allowed, Do;
    if |ds| == 0 {
    } else {
      DeedsReport(stance, trades, scene, p, ds[..|ds| - 1]);
      DeedReports(stance, trades, scene, DoAll(p, ds[..|ds| - 1]), ds[|ds| - 1]);
    }
  }

  /** Nothing left to report: the stance is the engine's own. */
  predicate Settled(st: EngineState) {
    st.feedback == [] && (st.position.Some? ==> |st.filledIntents| > 0)
  }

  function StanceOf(st: EngineState): Option<Stance> {
    StanceOn(PageOf(st))
  }

  lemma {:induction false} SettledReports(st: EngineState)
    requires Settled(st)
    ensures Reports(StanceOf(st), |st.trades|, PageOf(st))
  {
  }

  lemma {:induction false} MarkReports(cfg: Config, st: EngineState, tick: Tick)
    requires Inv(cfg, st) && Settled(st)
    ensures
      var marked := PreStrategy(cfg, Log(st, BarRecord(tick.bar.timestamp, tick.bar)), tick);
      Reports(StanceOf(st), |st.trades|, PageOf(marked))
  {
    hide PreStrategy, Inv, Reports, OwnExit, Makes;
    var record := BarRecord(tick.bar.timestamp, tick.bar);
    var logged := Log(st, record);
    LogKeeps(cfg, st, record);
    SettledReports(st);
    BarReports(StanceOf(st), |st.trades|, PageOf(st), record);
    var scene := Scene(cfg, tick, st.previous, false);
    assert OwnExit(false, logged) by { AnyExit(logged); }
    var ds := PreStrategyDeeds(scene, logged);
    MadeReports(StanceOf(st), |st.trades|, scene, PageOf(logged), ds, PageOf(PreStrategy(cfg, logged, tick)));
  }

  lemma {:induction false} AnyExit(st: EngineState)
    ensures OwnExit(false, st)
  {
  }

  lemma {:induction false} BarReports(stance: Option<Stance>, trades: nat, p: Page, record: EventRecord)
    requires Reports(stance, trades, p)
    ensures Reports(stance, trades, p.(ledger := p.ledger + [record]))
  {
  }

  lemma {:induction false} MadeReports(stance: Option<Stance>, trades: nat, scene: Scene, p: Page, ds: seq<Deed>,
                                       q: Page)
    requires Reports(stance, trades, p) && Makes(scene, p, ds, q)
    ensures Reports(stance, trades, q)
  {
    hide Reports;
    DeedsReport(stance, trades, scene, p, ds);
  }

  lemma {:induction false} AnswerReports(cfg: Config, st: EngineState, tick: Tick, result: StrategyResult)
    requires Settled(st)
    ensures Reports(StanceOf(st), |st.trades|, PageOf(ApplyResult(cfg, st, tick, result)))
  {
    hide ApplyResult, Reports, OwnExit, Makes;
    SettledReports(st);
    var scene := Scene(cfg, tick, st.previous, false);
    assert OwnExit(false, st) by { AnyExit(st); }
    var ds := AnswerDeeds(scene, st, result);
    MadeReports(StanceOf(st), |st.trades|, scene, PageOf(st), ds, PageOf(ApplyResult(cfg, st, tick, result)));
  }

  // ---- Every filled intent is one of the strategy's entries ----

  predicate AllNamed(intents: seq<OrderIntent>) {
    forall i :: 0 <= i < |intents| ==> EntryReason(intents[i].reason)
  }

  predicate Named(st: EngineState) {
    (st.pendingEntry.Some? ==> EntryReason(st.pendingEntry.value.intent.reason)) && AllNamed(st.filledIntents)
  }

  lemma {:induction false} OneMoreNamed(intents: seq<OrderIntent>, intent: OrderIntent)
    requires AllNamed(intents) && EntryReason(intent.reason)
    ensures AllNamed(intents + [intent])
  {
  }

  lemma {:induction false} EntryKeepsNames(cfg: Config, st: EngineState, tick: Tick)
    requires Named(st)
    ensures Named(ProcessPendingEntry(cfg, st, tick))
  {
    hide AllNamed, EntryReason, EntrySelected, StopProtects, EntryFill;
    if st.pendingEntry.Some? {
      OneMoreNamed(st.filledIntents, st.pendingEntry.value.intent);
    }
  }

  /** A step that fills nothing and lets no new entry wait. */
  predicate NoNewEntry(st: EngineState, next: EngineState) {
    next.filledIntents == st.filledIntents && (next.pendingEntry.None? || next.pendingEntry == st.pendingEntry)
  }

  lemma {:induction false} ClosingEntersNothing(cfg: Config, st: EngineState, tick: Tick)
    ensures NoNewEntry(st, FlattenIfSessionChanged(cfg, st, tick.session))
    ensures NoNewEntry(st, OpenGapStop(cfg, st, tick.bar))
    ensures NoNewEntry(st, ProcessPendingExit(cfg, st, tick.bar))
  {
    hide ExitFill, ClosedTrade, OpensThroughStop;
  }

  lemma {:induction false} RestEntersNothing(cfg: Config, st: EngineState, tick: Tick)
    ensures NoNewEntry(st, IntrabarStopAndTarget(cfg, st, tick.bar))
    ensures NoNewEntry(st, BackstopFlatten(cfg, UpdateExcursions(st, tick.bar), tick))
    ensures NoNewEntry(st, CheckDailyLoss(cfg, st, tick.bar))
  {
    hide TouchesStop, TouchesTarget, EffectiveFlatten, ExitFill, ClosedTrade, SessionPnl, Favourable, Adverse;
  }

  lemma {:induction false} NoNewName(st: EngineState, next: EngineState)
    requires Named(st) && NoNewEntry(st, next)
    ensures Named(next)
  {
    hide AllNamed, EntryReason;
  }

  lemma {:induction false} OpenKeepsNames(cfg: Config, st: EngineState, tick: Tick)
    requires Named(st)
    ensures Named(AtOpen(cfg, st, tick))
  {
    hide Named, NoNewEntry, FlattenIfSessionChanged, OpenGapStop, ProcessPendingEntry, ProcessPendingExit;
    var rolled := FlattenIfSessionChanged(cfg, st, tick.session);
    ClosingEntersNothing(cfg, st, tick);
    NoNewName(st, rolled);
    var gapped := OpenGapStop(cfg, rolled, tick.bar);
    ClosingEntersNothing(cfg, rolled, tick);
    NoNewName(rolled, gapped);
    var entered := ProcessPendingEntry(cfg, gapped, tick);
    EntryKeepsNames(cfg, gapped, tick);
    ClosingEntersNothing(cfg, entered, tick);
    NoNewName(entered, ProcessPendingExit(cfg, entered, tick.bar));
  }

  lemma {:induction false} RestKeepsNames(cfg: Config, st: EngineState, tick: Tick)
    requires Named(st)
    ensures Named(CheckDailyLoss(cfg, DuringBar(cfg, st, tick), tick.bar))
  {
    hide Named, NoNewEntry, IntrabarStopAndTarget, UpdateExcursions, BackstopFlatten, CheckDailyLoss;
    var stopped, during := IntrabarStopAndTarget(cfg, st, tick.bar), DuringBar(cfg, st, tick);
    RestEntersNothing(cfg, st, tick);
    NoNewName(st, stopped);
    RestEntersNothing(cfg, stopped, tick);
    NoNewName(stopped, during);
    RestEntersNothing(cfg, during, tick);
    NoNewName(during, CheckDailyLoss(cfg, during, tick.bar));
  }

  lemma {:induction false} MarkKeepsNames(cfg: Config, st: EngineState, tick: Tick)
    requires Named(st)
    ensures Named(PreStrategy(cfg, Log(st, BarRecord(tick.bar.timestamp, tick.bar)), tick))
  {
    hide AtOpen, DuringBar, CheckDailyLoss;
    var logged := Log(st, BarRecord(tick.bar.timestamp, tick.bar));
    OpenKeepsNames(cfg, logged, tick);
    RestKeepsNames(cfg, AtOpen(cfg, logged, tick), tick);
  }

  lemma {:induction false} ExitsKeepNames(cfg: Config, st: EngineState, bar: Bar, exits: seq<ExitDecision>)
    requires Named(st)
    ensures Named(ApplyExits(cfg, st, bar, exits))
    decreases |exits|
  {
    hide ExitFill, ClosedTrade;
    if |exits| == 0 {
    } else {
      ExitsKeepNames(cfg, st, bar, exits[..|exits| - 1]);
    }
  }

  lemma {:induction false} IntentsKeepNames(cfg: Config, st: EngineState, tick: Tick, intents: seq<OrderIntent>)
    requires Named(st) && forall i :: 0 <= i < |intents| ==> EntryReason(intents[i].reason)
    ensures Named(ApplyIntents(cfg, st, tick, intents))
    decreases |intents|
  {
    hide VetoOf, StopProtects, EntryFill;
    if |intents| == 0 {
    } else {
      IntentsKeepNames(cfg, st, tick, intents[..|intents| - 1]);
    }
  }

  lemma {:induction false} AnswerKeepsNames(cfg: Config, st: EngineState, tick: Tick, result: StrategyResult)
    requires Named(st) && forall i :: 0 <= i < |result.orderIntents| ==> EntryReason(result.orderIntents[i].reason)
    ensures Named(ApplyResult(cfg, st, tick, result))
  {
    hide LogResult, ApplyExits, ApplyIntents;
    LogResultOnlyLogs(st, result);
    var logged := LogResult(st, result);
    ExitsKeepNames(cfg, logged, tick.bar, result.exits);
    IntentsKeepNames(cfg, ApplyExits(cfg, logged, tick.bar, result.exits), tick, result.orderIntents);
  }

  // ---- What the strategy believes ----

  function BranchOf(reason: Reason): Regime {
    if reason.AcceptedBreakRetest? then AcceptedBreak else RejectedBreak
  }

  predicate Believes(m: Memory, stance: Option<Stance>) {
    if stance.None? then m.positionSide.None? && m.positionBranch.None?
    else m.positionSide == Some(stance.value.side) && m.positionBranch == Some(BranchOf(stance.value.reason))
  }

  predicate NamedFills(feedback: seq<Feedback>) {
    forall i :: 0 <= i < |feedback| && feedback[i].FillFeedback? ==> EntryReason(feedback[i].fill.reason)
  }

  lemma {:induction false} HearsOne(m: Memory, stance: Option<Stance>, item: Feedback)
    requires item.FillFeedback? ==> EntryReason(item.fill.reason)
    ensures Believes(Invariants.Hear(m, item), After(stance, [item]))
    ensures Invariants.Hear(m, item).exitPending == (m.exitPending && !item.TradeFeedback?)
  {
  }

  lemma {:induction false} HearingBelieves(rc: RetestConfig, m: Memory, stance: Option<Stance>, feedback: seq<Feedback>)
    requires rc.tickSize > 0.0 && Believes(m, stance) && NamedFills(feedback)
    ensures
      var told := Dispatch(RetestStrategy(rc), m, feedback);
      Believes(told, After(stance, feedback)) && told.exitPending == (m.exitPending && !Closes(feedback))
    decreases |feedback|
  {
    hide Believes, Invariants.Hear, RetestStrategy, DispatchOne;
    if |feedback| == 0 {
    } else {
      var before, last := feedback[..|feedback| - 1], feedback[|feedback| - 1];
      HearingBelieves(rc, m, stance, before);
      var told := Dispatch(RetestStrategy(rc), m, before);
      RetestBacktest.DispatchIsHearing(rc, told, last);
      HearsOne(told, After(stance, before), last);
      ClosesNext(before, last);
      assert feedback == before + [last];
    }
  }

  lemma {:induction false} ClosesNext(feedback: seq<Feedback>, item: Feedback)
    ensures Closes(feedback + [item]) <==> Closes(feedback) || item.TradeFeedback?
  {
    var all := feedback + [item];
    assert all[|feedback|] == item;
    if Closes(feedback) {
      var i :| 0 <= i < |feedback| && feedback[i].TradeFeedback?;
      assert all[i].TradeFeedback?;
    }
  }

  lemma {:induction false} ReportsAreNamed(stance: Option<Stance>, trades: nat, st: EngineState)
    requires Reports(stance, trades, PageOf(st)) && Named(st)
    ensures NamedFills(st.feedback)
  {
  }

  // ---- The strategy's turn ----

  /** The bar at which a position is told to go, up to six in the evening. */
  predicate TimeIsUp(rc: RetestConfig, tick: Tick) {
    rc.hardExitFill - 1 <= tick.session.minute < 18 * 60
  }

  function TimeReason(reason: Reason): Reason {
    if reason.AcceptedBreakRetest? then AcceptedBreakTimeExit else RejectedBreakTimeExit
  }

  /** The exits a bar should bring. */
  function ExitsDue(rc: RetestConfig, stance: Option<Stance>, tick: Tick): seq<ExitDecision> {
    if stance.None? || !TimeIsUp(rc, tick) then []
    else [ExitDecision(tick.bar.timestamp, tick.bar.symbol, TimeReason(stance.value.reason))]
  }

  lemma {:induction false} StartingKeepsStance(rc: RetestConfig, m: Memory, date: int)
    ensures StartSession(rc, m, date).positionSide == m.positionSide
    ensures StartSession(rc, m, date).positionBranch == m.positionBranch
    ensures !StartSession(rc, m, date).exitPending
  {
    hide FreezeClassification, CompleteOpening, Push, TrueRange;
    FreezingKeepsStance(rc, m, m.session.lastTimestamp);
  }

  lemma {:induction false} FreezingKeepsStance(rc: RetestConfig, m: Memory, timestamp: Timestamp)
    ensures
      var frozen := FreezeClassification(rc, m, timestamp);
      && frozen.positionSide == m.positionSide && frozen.positionBranch == m.positionBranch
      && frozen.exitPending == m.exitPending
  {
    hide BuildFeatures, Classify;
  }

  lemma {:induction false} PreambleExits(rc: RetestConfig, m: Memory, stance: Option<Stance>, tick: Tick)
    requires Believes(m, stance) && !m.exitPending && (stance.Some? ==> EntryReason(stance.value.reason))
    ensures
      var (awake, exits) := OpenBar(rc, m, tick);
      && exits == ExitsDue(rc, stance, tick)
      && Believes(awake, stance) && awake.exitPending == (exits != [])
  {
    hide StartSession;
    StartingKeepsStance(rc, m, tick.session.date);
  }

  /** The rest of the bar leaves side, branch and exit flag alone. */
  predicate SameStance(m: Memory, n: Memory) {
    n.positionSide == m.positionSide && n.positionBranch == m.positionBranch && n.exitPending == m.exitPending
  }

  lemma {:induction false} ObservingKeepsStance(rc: RetestConfig, m: Memory, tick: Tick)
    ensures SameStance(m, ObserveRth(rc, m, tick))
  {
    hide FreezeClassification, TrackRth;
    var tracked := m.(session := TrackRth(rc, m.session, tick.bar, tick.session.minute));
    FreezingKeepsStance(rc, tracked, tick.bar.timestamp);
  }

  lemma {:induction false} BarExits(rc: RetestConfig, m: Memory, stance: Option<Stance>, tick: Tick)
    requires rc.tickSize > 0.0
    requires Believes(m, stance) && !m.exitPending && (stance.Some? ==> EntryReason(stance.value.reason))
    ensures
      var (next, result) := OnBar(rc, m, tick);
      && result.exits == ExitsDue(rc, stance, tick)
      && Believes(next, stance) && next.exitPending == (result.exits != [])
  {
    hide OpenBar, ObserveRth, SeekEntry, TrackOvernight, ExitsDue;
    PreambleExits(rc, m, stance, tick);
    var awake := OpenBar(rc, m, tick).0;
    if tick.session.isRth {
      ObservingKeepsStance(rc, awake, tick);
      History.SeekingKeeps(rc, ObserveRth(rc, awake, tick), tick.bar, tick.session.minute);
    }
  }

  // ---- One bar of the backtest ----

  /** Between bars strategy and engine agree, and who has asked to leave has an exit queued. */
  predicate Agreed(cfg: Config, s: SimState<Memory>) {
    && Inv(cfg, s.engine) && Settled(s.engine) && Named(s.engine)
    && Invariants.Ready(s.strat)
    && Believes(s.strat, StanceOf(s.engine))
    && (s.strat.exitPending ==> s.engine.pendingExit.Some?)
  }

  lemma {:induction false} QueuedIsClosed(cfg: Config, st: EngineState, tick: Tick)
    requires Inv(cfg, st) && st.pendingExit.Some?
    ensures |PreStrategy(cfg, Log(st, BarRecord(tick.bar.timestamp, tick.bar)), tick).trades| > |st.trades|
  {
    hide Inv, AtOpen, DuringBar, CheckDailyLoss;
    var record := BarRecord(tick.bar.timestamp, tick.bar);
    var logged := Log(st, record);
    LogKeeps(cfg, st, record);
    QueuedGoesAtOpen(cfg, logged, tick);
    TradesOnlyGrow(cfg, AtOpen(cfg, logged, tick), tick);
  }

  lemma {:induction false} QueuedGoesAtOpen(cfg: Config, st: EngineState, tick: Tick)
    requires Inv(cfg, st) && st.pendingExit.Some?
    ensures |AtOpen(cfg, st, tick).trades| > |st.trades|
  {
    hide ExitFill, ClosedTrade, EntrySelected, EntryFill;
  }

  lemma {:induction false} TradesOnlyGrow(cfg: Config, st: EngineState, tick: Tick)
    ensures |CheckDailyLoss(cfg, DuringBar(cfg, st, tick), tick.bar).trades| >= |st.trades|
  {
    hide TouchesStop, TouchesTarget, EffectiveFlatten, ExitFill, ClosedTrade, SessionPnl;
  }

  /** What the strategy is told before it is asked. */
  lemma {:induction false} ToldBeforeAsked(cfg: Config, rc: RetestConfig, s: SimState<Memory>, tick: Tick)
    requires ValidRetestConfig(rc) && Agreed(cfg, s)
    ensures
      var marked := PreStrategy(cfg, Log(s.engine, BarRecord(tick.bar.timestamp, tick.bar)), tick);
      var told := Dispatch(RetestStrategy(rc), s.strat, marked.feedback);
      && Believes(told, StanceOf(marked)) && !told.exitPending && Invariants.Ready(told)
      && Named(marked) && Settled(ClearFeedback(marked)) && StanceOf(ClearFeedback(marked)) == StanceOf(marked)
      && (StanceOf(marked).Some? ==> EntryReason(StanceOf(marked).value.reason))
  {
    hide PreStrategy, Inv, Believes, RetestStrategy, Invariants.Ready;
    var marked := PreStrategy(cfg, Log(s.engine, BarRecord(tick.bar.timestamp, tick.bar)), tick);
    MarkReports(cfg, s.engine, tick);
    MarkKeepsNames(cfg, s.engine, tick);
    ReportsAreNamed(StanceOf(s.engine), |s.engine.trades|, marked);
    HearingBelieves(rc, s.strat, StanceOf(s.engine), marked.feedback);
    RetestBacktest.DispatchKeeps(rc, s.strat, marked.feedback);
    if s.strat.exitPending {
      QueuedIsClosed(cfg, s.engine, tick);
    }
  }

  lemma {:induction false} OrdersAreNamed(rc: RetestConfig, m: Memory, tick: Tick)
    requires ValidRetestConfig(rc) && Invariants.Ready(m)
    ensures
      var intents := OnBar(rc, m, tick).1.orderIntents;
      forall i :: 0 <= i < |intents| ==> EntryReason(intents[i].reason)
  {
    hide OnBar, Invariants.Ready;
    RetestBacktest.AnswersAreRetestResults(rc, m, tick);
  }

  /** An asked-for exit is queued, or carried out at once. */
  lemma {:induction false} AskedIsDone(cfg: Config, st: EngineState, tick: Tick, result: StrategyResult)
    requires |result.exits| == 1 && st.position.Some?
    ensures
      var after := ApplyResult(cfg, st, tick, result);
      |after.trades| > |st.trades| || after.pendingExit.Some?
  {
    hide LogResult, ApplyIntents;
    LogResultOnlyLogs(st, result);
    var logged := LogResult(st, result);
    assert result.exits[..|result.exits| - 1] == [];
    assert ApplyExits(cfg, logged, tick.bar, []) == logged;
    var exited := ApplyExits(cfg, logged, tick.bar, result.exits);
    assert exited == ApplyExit(cfg, logged, tick.bar, result.exits[0]);
    IntentsKeepExits(cfg, exited, tick, result.orderIntents);
  }

  lemma {:induction false} IntentsKeepExits(cfg: Config, st: EngineState, tick: Tick, intents: seq<OrderIntent>)
    ensures ApplyIntents(cfg, st, tick, intents).pendingExit == st.pendingExit
    ensures ApplyIntents(cfg, st, tick, intents).trades == st.trades
    decreases |intents|
  {
    hide VetoOf, StopProtects, EntryFill;
    if |intents| == 0 {
    } else {
      IntentsKeepExits(cfg, st, tick, intents[..|intents| - 1]);
    }
  }

  /** What the strategy is told after it has answered. */
  lemma {:induction false} ToldAfterAnswer(cfg: Config, rc: RetestConfig, st: EngineState, m: Memory, tick: Tick,
                                           result: StrategyResult)
    requires ValidRetestConfig(rc) && Settled(st) && Named(st) && Believes(m, StanceOf(st)) && Invariants.Ready(m)
    requires forall i :: 0 <= i < |result.orderIntents| ==> EntryReason(result.orderIntents[i].reason)
    requires m.exitPending ==> |result.exits| == 1 && st.position.Some?
    ensures
      var applied := ApplyResult(cfg, st, tick, result);
      var told := Dispatch(RetestStrategy(rc), m, applied.feedback);
      && Believes(told, StanceOf(applied)) && Invariants.Ready(told) && Named(applied)
      && (applied.position.Some? ==> |applied.filledIntents| > 0)
      && (told.exitPending ==> applied.pendingExit.Some?)
  {
    hide ApplyResult, Believes, RetestStrategy, Invariants.Ready;
    var applied := ApplyResult(cfg, st, tick, result);
    AnswerReports(cfg, st, tick, result);
    AnswerKeepsNames(cfg, st, tick, result);
    ReportsAreNamed(StanceOf(st), |st.trades|, applied);
    HearingBelieves(rc, m, StanceOf(st), applied.feedback);
    RetestBacktest.DispatchKeeps(rc, m, applied.feedback);
    if m.exitPending {
      AskedIsDone(cfg, st, tick, result);
    }
  }

  lemma {:induction false} BarKeepsAgreement(cfg: Config, rc: RetestConfig, s: SimState<Memory>, tick: Tick)
    requires ValidRetestConfig(rc) && Agreed(cfg, s)
    ensures Agreed(cfg, SimBar(cfg, RetestStrategy(rc), s, tick))
  {
    hide PreStrategy, ApplyResult, Inv, Invariants.Ready, RetestStrategy, Log, Dispatch, NoteDate, SimBar, OnBar;
    hide Believes, Named, ExitsDue;
    var marked := PreStrategy(cfg, Log(s.engine, BarRecord(tick.bar.timestamp, tick.bar)), tick);
    RetestBacktest.SimBarTakesATurn(cfg, rc, s, tick);
    ToldBeforeAsked(cfg, rc, s, tick);
    var told := Dispatch(RetestStrategy(rc), s.strat, marked.feedback);
    var (answered, result) := OnBar(rc, told, tick);
    BarExits(rc, told, StanceOf(marked), tick);
    OneExitWhenHolding(rc, marked, tick);
    OrdersAreNamed(rc, told, tick);
    Invariants.BarKeeps(rc, told, tick);
    NamedCleared(marked);
    ToldAfterAnswer(cfg, rc, ClearFeedback(marked), answered, tick, result);
    RestsSettled(cfg, ApplyResult(cfg, ClearFeedback(marked), tick, result), tick);
    assert RetestBacktest.Poised(cfg, s);
    RetestBacktest.SimBarKeeps(cfg, rc, s, tick);
  }

  lemma {:induction false} OneExitWhenHolding(rc: RetestConfig, st: EngineState, tick: Tick)
    ensures
      var exits := ExitsDue(rc, StanceOf(st), tick);
      exits != [] ==> |exits| == 1 && st.position.Some?
  {
  }

  lemma {:induction false} NamedCleared(st: EngineState)
    requires Named(st)
    ensures Named(ClearFeedback(st))
  {
  }

  lemma {:induction false} RestsSettled(cfg: Config, st: EngineState, tick: Tick)
    requires Named(st) && (st.position.Some? ==> |st.filledIntents| > 0)
    ensures
      var rest := NoteProcessed(ClearFeedback(st), tick);
      Settled(rest) && Named(rest) && StanceOf(rest) == StanceOf(st) && rest.pendingExit == st.pendingExit
  {
  }

  // ---- Whole backtests ----

  lemma {:induction false} BacktestsAgree(cfg: Config, rc: RetestConfig, ticks: seq<Tick>)
    requires ValidRetestConfig(rc)
    ensures Agreed(cfg, SimBars(cfg, RetestStrategy(rc), NEW_MEMORY, ticks))
    decreases |ticks|
  {
    hide Agreed, SimBar, RetestStrategy, NEW_MEMORY;
    if |ticks| == 0 {
      StartsAgreed(cfg);
    } else {
      BacktestsAgree(cfg, rc, ticks[..|ticks| - 1]);
      BarKeepsAgreement(cfg, rc, SimBars(cfg, RetestStrategy(rc), NEW_MEMORY, ticks[..|ticks| - 1]),
                        ticks[|ticks| - 1]);
    }
  }

  lemma {:induction false} StartsAgreed(cfg: Config)
    ensures Agreed(cfg, SimState(Initial([]), NEW_MEMORY, []))
  {
    Invariants.FreshIsReady();
  }

  /**
   * On every bar of every backtest: when it is asked, the strategy takes for its position exactly the side the
   * engine holds and the branch of the intent that was filled; and it asks to leave if and only if something is
   * held and the time is up, for the reason of that branch.
   */
  lemma {:induction false} ItLeavesWhenTimeIsUp(cfg: Config, rc: RetestConfig, ticks: seq<Tick>, tick: Tick)
    requires ValidRetestConfig(rc)
    ensures
      var s := SimBars(cfg, RetestStrategy(rc), NEW_MEMORY, ticks);
      var marked := PreStrategy(cfg, Log(s.engine, BarRecord(tick.bar.timestamp, tick.bar)), tick);
      var told := Dispatch(RetestStrategy(rc), s.strat, marked.feedback);
      var exits := OnBar(rc, told, tick).1.exits;
      && told.positionSide == (if marked.position.Some? then Some(marked.position.value.side) else None)
      && if marked.position.None? || !TimeIsUp(rc, tick) then exits == []
         else
           && marked.filledIntents != []
           && var reason := marked.filledIntents[|marked.filledIntents| - 1].reason;
              && told.positionBranch == Some(BranchOf(reason))
              && exits == [ExitDecision(tick.bar.timestamp, tick.bar.symbol, TimeReason(reason))]
  {
    hide SimBars, PreStrategy, RetestStrategy, NEW_MEMORY, Dispatch, OnBar, Inv, Invariants.Ready, Named;
    var s := SimBars(cfg, RetestStrategy(rc), NEW_MEMORY, ticks);
    BacktestsAgree(cfg, rc, ticks);
    ToldBeforeAsked(cfg, rc, s, tick);
    var marked := PreStrategy(cfg, Log(s.engine, BarRecord(tick.bar.timestamp, tick.bar)), tick);
    BarExits(rc, Dispatch(RetestStrategy(rc), s.strat, marked.feedback), StanceOf(marked), tick);
  }

  /** So nothing held on a bar on which the time is up is still held once the next bar has opened. */
  lemma {:induction false} NothingOutstaysItsTime(cfg: Config, rc: RetestConfig, ticks: seq<Tick>, tick: Tick,
                                                  next: Tick)
    requires ValidRetestConfig(rc) && TimeIsUp(rc, tick)
    ensures
      var s := SimBars(cfg, RetestStrategy(rc), NEW_MEMORY, ticks);
      var marked := PreStrategy(cfg, Log(s.engine, BarRecord(tick.bar.timestamp, tick.bar)), tick);
      var after := SimBar(cfg, RetestStrategy(rc), s, tick).engine;
      marked.position.Some? ==>
        || |after.trades| > |marked.trades|
        || AtOpen(cfg, Log(after, BarRecord(next.bar.timestamp, next.bar)), next).position.None?
  {
    hide SimBars, PreStrategy, RetestStrategy, NEW_MEMORY, Dispatch, OnBar, Inv, ApplyResult, AtOpen, SimBar, Named;
    hide Believes, Invariants.Ready;
    var s := SimBars(cfg, RetestStrategy(rc), NEW_MEMORY, ticks);
    var marked := PreStrategy(cfg, Log(s.engine, BarRecord(tick.bar.timestamp, tick.bar)), tick);
    var told := Dispatch(RetestStrategy(rc), s.strat, marked.feedback);
    if marked.position.Some? {
      ItLeavesWhenTimeIsUp(cfg, rc, ticks, tick);
      AskedIsDone(cfg, ClearFeedback(marked), tick, OnBar(rc, told, tick).1);
      RetestBacktest.SimBarTakesATurn(cfg, rc, s, tick);
      BacktestsAgree(cfg, rc, ticks);
      BarKeepsAgreement(cfg, rc, s, tick);
      var after := SimBar(cfg, RetestStrategy(rc), s, tick).engine;
      if after.pendingExit.Some? {
        LogKeeps(cfg, after, BarRecord(next.bar.timestamp, next.bar));
        GoesAtTheOpen(cfg, Log(after, BarRecord(next.bar.timestamp, next.bar)), next);
      }
    }
  }

  lemma {:induction false} GoesAtTheOpen(cfg: Config, st: EngineState, tick: Tick)
    requires Inv(cfg, st) && st.pendingExit.Some?
    ensures AtOpen(cfg, st, tick).position.None?
  {
    hide AtOpen;
    ExitDuties.DueIsClosed(cfg, st, tick);
  }
}
