/** Every record of every run is allowed by the order book of the records before it, and the book is the engine's. */
module LedgerDiscipline {
  import opened Prelude
  import opened Market
  import opened Events
  import opened EngineSpec
  import opened EngineRun
  import opened EngineInvariants
  import opened OrderBook

  // ---- Before the strategy is asked ----

  lemma {:induction false} OpenShows(cfg: Config, st: EngineState, earlier: seq<Bar>, tick: Tick)
    requires Inv(cfg, st) && Shown(cfg, st, BEGUN) && During(cfg, st, earlier, tick.bar)
    ensures
      var after := AtOpen(cfg, st, tick);
      Shown(cfg, after, OPENED) && During(cfg, after, earlier, tick.bar) && after.pendingExit.None?
  {
    hide FlattenIfSessionChanged, OpenGapStop, ProcessPendingEntry, ProcessPendingExit, Inv, Slots, Shown, During;
    var rolled := FlattenIfSessionChanged(cfg, st, tick.session);
    SessionChangeShows(cfg, st, earlier, tick);
    SessionChangeKeeps(cfg, st, tick.session);
    var gapped := OpenGapStop(cfg, rolled, tick.bar);
    SlotsOfInv(cfg, rolled);
    GapShows(cfg, rolled, earlier, tick.bar);
    GapStopKeeps(cfg, rolled, tick.bar);
    var entered := ProcessPendingEntry(cfg, gapped, tick);
    PendingEntryShows(cfg, gapped, earlier, tick);
    PendingEntryKeeps(cfg, gapped, tick);
    SlotsOfInv(cfg, entered);
    PendingExitShows(cfg, entered, earlier, tick.bar);
  }

  lemma {:induction false} SlotsOfInv(cfg: Config, st: EngineState)
    requires Inv(cfg, st)
    ensures Slots(st)
  {
  }

  lemma {:induction false} NothingQueues(cfg: Config, st: EngineState, tick: Tick)
    requires st.pendingExit.None?
    ensures DuringBar(cfg, st, tick).pendingExit.None?
  {
    hide TouchesStop, TouchesTarget, ExitFill, ClosedTrade, EffectiveFlatten;
  }

  lemma {:induction false} RestShows(cfg: Config, st: EngineState, earlier: seq<Bar>, tick: Tick)
    requires Inv(cfg, st) && Shown(cfg, st, OPENED) && During(cfg, st, earlier, tick.bar) && st.pendingExit.None?
    ensures
      var after := CheckDailyLoss(cfg, DuringBar(cfg, st, tick), tick.bar);
      Shown(cfg, after, RESTING) && During(cfg, after, earlier, tick.bar)
  {
    NothingQueues(cfg, st, tick);
    hide IntrabarStopAndTarget, UpdateExcursions, FlattenNow, CheckDailyLoss, Inv, Slots, Shown, During;
    SlotsOfInv(cfg, st);
    IntrabarShows(cfg, st, earlier, tick.bar);
    var stopped := IntrabarStopAndTarget(cfg, st, tick.bar);
    TrackingShows(cfg, stopped, earlier, tick.bar);
    var tracked := UpdateExcursions(stopped, tick.bar);
    if !(tick.session.minute < EffectiveFlatten(cfg, tick.session) || tick.session.minute >= 18 * 60) {
      FlattenShows(cfg, tracked, earlier, tick.bar, SessionFlatten);
    }
    LossCheckShows(cfg, DuringBar(cfg, st, tick), earlier, tick.bar);
  }

  /** The mark of a bar, from the end of the one before. */
  lemma {:induction false} MarkShows(cfg: Config, st: EngineState, tick: Tick)
    requires Inv(cfg, st) && Shown(cfg, st, RESTING) && Latest(Books(cfg, st.ledger).bars) == BarOf(st.previous)
    ensures
      var after := AfterPreStrategy(cfg, st, tick);
      Shown(cfg, after, RESTING) && During(cfg, after, Books(cfg, st.ledger).bars, tick.bar)
  {
    hide AtOpen, DuringBar, CheckDailyLoss, Inv, Shown, During, Books;
    var earlier, record := Books(cfg, st.ledger).bars, BarRecord(tick.bar.timestamp, tick.bar);
    var logged := Log(st, record);
    BarShows(cfg, st, tick.bar);
    LogKeeps(cfg, st, record);
    OpenShows(cfg, logged, earlier, tick);
    AtOpenKeeps(cfg, logged, tick);
    RestShows(cfg, AtOpen(cfg, logged, tick), earlier, tick);
    Polled(cfg, PreStrategy(cfg, logged, tick), earlier, tick.bar);
  }

  lemma {:induction false} Polled(cfg: Config, st: EngineState, earlier: seq<Bar>, bar: Bar)
    requires Shown(cfg, st, RESTING) && During(cfg, st, earlier, bar)
    ensures Shown(cfg, ClearFeedback(st), RESTING) && During(cfg, ClearFeedback(st), earlier, bar)
  {
    SlotsOnly(cfg, st, earlier, ClearFeedback(st), RESTING, bar);
  }

  lemma {:induction false} SupervisorShows(cfg: Config, st: EngineState, earlier: seq<Bar>, bar: Bar,
                                           breach: Option<Reason>)
    requires Shown(cfg, st, RESTING) && During(cfg, st, earlier, bar)
    ensures
      var after := AfterSupervisor(cfg, st, bar, breach);
      Shown(cfg, after, RESTING) && During(cfg, after, earlier, bar)
  {
    hide FlattenNow, Shown, Books;
    if breach.Some? {
      var record := TransitionRecord(bar.timestamp, ExecutionHalt(Breach(breach.value)));
      PlainShows(cfg, st, RESTING, record);
      FlattenShows(cfg, Log(st, record), earlier, bar, breach.value);
      Polled(cfg, FlattenNow(cfg, Log(st, record), bar, breach.value), earlier, bar);
    }
  }

  // ---- The strategy's answer ----

  lemma {:induction false} VetoesShow(cfg: Config, st: EngineState, earlier: seq<Bar>, bar: Bar, vetoes: seq<RiskVeto>)
    requires Shown(cfg, st, RESTING) && During(cfg, st, earlier, bar)
    ensures
      var after := LogVetoes(st, vetoes);
      Shown(cfg, after, RESTING) && During(cfg, after, earlier, bar)
    decreases |vetoes|
  {
    hide Shown, Books;
    if |vetoes| == 0 {
    } else {
      var before, v := LogVetoes(st, vetoes[..|vetoes| - 1]), vetoes[|vetoes| - 1];
      VetoesShow(cfg, st, earlier, bar, vetoes[..|vetoes| - 1]);
      PlainShows(cfg, before, RESTING, VetoRecord(v.timestamp, v));
    }
  }

  lemma {:induction false} UpdatesShow(cfg: Config, st: EngineState, earlier: seq<Bar>, bar: Bar,
                                       updates: seq<StopUpdate>)
    requires Shown(cfg, st, RESTING) && During(cfg, st, earlier, bar)
    ensures
      var after := LogStopUpdates(st, updates);
      Shown(cfg, after, RESTING) && During(cfg, after, earlier, bar)
    decreases |updates|
  {
    hide Shown, Books;
    if |updates| == 0 {
    } else {
      var before, u := LogStopUpdates(st, updates[..|updates| - 1]), updates[|updates| - 1];
      UpdatesShow(cfg, st, earlier, bar, updates[..|updates| - 1]);
      PlainShows(cfg, before, RESTING, StopRecord(u.timestamp, u.symbol, u.stopPrice, u.reason, false));
    }
  }

  /** A rejected signal is followed at once by its rejection. */
  lemma {:induction false} RefusalShows(cfg: Config, st: EngineState, earlier: seq<Bar>, bar: Bar,
                                        signal: SignalDecision)
    requires Shown(cfg, st, RESTING) && During(cfg, st, earlier, bar) && signal.decision.Rejected?
    ensures
      var after := LogSignal(st, Some(signal));
      Shown(cfg, after, RESTING) && During(cfg, after, earlier, bar)
  {
    hide AllAllowed, Books, Gained, Lost;
    var record := SignalRecord(signal.timestamp, signal);
    ReadNext(cfg, st.ledger, record);
    ReadNext(cfg, st.ledger + [record], RejectionRecord(signal.timestamp, signal));
  }

  lemma {:induction false} DecisionsShow(cfg: Config, st: EngineState, earlier: seq<Bar>, bar: Bar,
                                         result: StrategyResult)
    requires Shown(cfg, st, RESTING) && During(cfg, st, earlier, bar)
    ensures
      var after := LogResult(st, result);
      Shown(cfg, after, RESTING) && During(cfg, after, earlier, bar)
  {
    hide Shown, Books, LogVetoes, LogStopUpdates;
    if result.signal.Some? {
      var signal := result.signal.value;
      if signal.decision.Rejected? {
        RefusalShows(cfg, st, earlier, bar, signal);
      } else {
        PlainShows(cfg, st, RESTING, SignalRecord(signal.timestamp, signal));
      }
    }
    var signalled := LogSignal(st, result.signal);
    VetoesShow(cfg, signalled, earlier, bar, result.riskVetoes);
    UpdatesShow(cfg, LogVetoes(signalled, result.riskVetoes), earlier, bar, result.stopUpdates);
  }

  lemma {:induction false} ExitQueues(cfg: Config, st: EngineState, earlier: seq<Bar>, bar: Bar, exit: ExitDecision)
    requires Shown(cfg, st, RESTING) && During(cfg, st, earlier, bar)
    requires st.position.Some? && cfg.fillTiming.NextBarOpen?
    ensures
      var after := ApplyExit(cfg, st, bar, exit);
      Shown(cfg, after, RESTING) && During(cfg, after, earlier, bar)
  {
    hide AllAllowed, Books, Gained, Lost;
    ReadNext(cfg, st.ledger, ExitRecord(exit.timestamp, exit));
  }

  lemma {:induction false} ExitCloses(cfg: Config, st: EngineState, earlier: seq<Bar>, bar: Bar, exit: ExitDecision)
    requires Slots(st) && Shown(cfg, st, RESTING) && During(cfg, st, earlier, bar)
    requires st.position.Some? && cfg.fillTiming.SignalBarClose?
    ensures
      var after := ApplyExit(cfg, st, bar, exit);
      Shown(cfg, after, RESTING) && During(cfg, after, earlier, bar)
  {
    hide AllAllowed, Books, Gained, Lost, ClosePosition, Closable;
    WaitingIsNone(cfg, st, RESTING);
    var record := ExitRecord(exit.timestamp, exit);
    var logged := Log(st, record);
    ReadNext(cfg, st.ledger, record);
    PlainClose(cfg, logged, OnClose, bar.close, bar.timestamp, exit.reason);
    CloseShows(cfg, logged, earlier, RESTING, bar, bar.close, bar.timestamp, exit.reason, false);
  }

  lemma {:induction false} ExitsShow(cfg: Config, st: EngineState, earlier: seq<Bar>, bar: Bar,
                                     exits: seq<ExitDecision>)
    requires Inv(cfg, st) && Shown(cfg, st, RESTING) && During(cfg, st, earlier, bar)
    ensures
      var after := ApplyExits(cfg, st, bar, exits);
      Shown(cfg, after, RESTING) && During(cfg, after, earlier, bar)
    decreases |exits|
  {
    hide Shown, During, Inv, Slots, ApplyExit;
    if |exits| == 0 {
    } else {
      var before, exit := ApplyExits(cfg, st, bar, exits[..|exits| - 1]), exits[|exits| - 1];
      ExitsShow(cfg, st, earlier, bar, exits[..|exits| - 1]);
      ExitsKeepSlots(cfg, st, bar, exits[..|exits| - 1]);
      SlotsOfInv(cfg, before);
      if before.position.None? {
        NoExit(cfg, before, bar, exit);
      } else if cfg.fillTiming.NextBarOpen? {
        ExitQueues(cfg, before, earlier, bar, exit);
      } else {
        ExitCloses(cfg, before, earlier, bar, exit);
      }
    }
  }

  lemma {:induction false} NoExit(cfg: Config, st: EngineState, bar: Bar, exit: ExitDecision)
    requires st.position.None?
    ensures ApplyExit(cfg, st, bar, exit) == st
  {
  }

  /** The gate's stop test is the book's. */
  lemma {:induction false} GateReadsTheBook(cfg: Config, st: EngineState, earlier: seq<Bar>, tick: Tick,
                                            intent: OrderIntent)
    requires During(cfg, st, earlier, tick.bar)
    ensures
      var veto := VetoOf(cfg, st, tick.session, intent);
      && (veto.None? ==> StopFits(Books(cfg, st.ledger), intent))
      && (veto == Some(InvalidStop) ==>
            intent.metadata.stopPrice.Some? && !StopFits(Books(cfg, st.ledger), intent))
  {
    hide Books;
    assert (earlier + [tick.bar])[..|earlier|] == earlier;
  }

  /**
   * The gate lets an intent through if and only if its side is known, its size within the limit, nothing is open,
   * waiting or queued, the session not halted, the regular hours on the calendar and the flatten minute ahead, the
   * hours right, and its stop there and not on the winning side of its price.
   */
  lemma {:induction false} GateIsOpenIff(cfg: Config, st: EngineState, session: Session, intent: OrderIntent)
    ensures
      var m := intent.metadata;
      var price := if m.signalPrice.Some? then m.signalPrice
                   else if st.previous.Some? then Some(st.previous.value.bar.close) else None;
      VetoOf(cfg, st, session, intent).None? <==>
        && (intent.side.Buy? || intent.side.Sell?) && 1 <= intent.quantity <= cfg.maxContracts
        && st.position.None? && st.pendingEntry.None? && st.pendingExit.None? && !st.dailyLimitHit
        && session.rthClose.Some? && session.minute < cfg.flattenMinutes && session.minute + 1 < session.rthClose.value
        && (cfg.rthEntriesOnly ==> session.isRth)
        && m.stopPrice.Some?
        && (price.Some? && intent.side.Buy? ==> m.stopPrice.value < price.value)
        && (price.Some? && intent.side.Sell? ==> m.stopPrice.value > price.value)
  {
  }

  lemma {:induction false} VetoShows(cfg: Config, st: EngineState, earlier: seq<Bar>, tick: Tick, intent: OrderIntent)
    requires Shown(cfg, st, RESTING) && During(cfg, st, earlier, tick.bar)
    requires VetoOf(cfg, st, tick.session, intent).Some?
    ensures
      var after := ApplyIntent(cfg, st, tick, intent);
      Shown(cfg, after, RESTING) && During(cfg, after, earlier, tick.bar)
  {
    hide AllAllowed, Books, Gained, Lost, VetoOf, StopFits;
    GateReadsTheBook(cfg, st, earlier, tick, intent);
    ReadNext(cfg, st.ledger, IntentVetoRecord(intent.timestamp, intent, VetoOf(cfg, st, tick.session, intent).value));
  }

  /** An accepted intent waits, or is settled at once. */
  lemma {:induction false} AcceptShows(cfg: Config, st: EngineState, earlier: seq<Bar>, tick: Tick, intent: OrderIntent)
    requires Shown(cfg, st, RESTING) && During(cfg, st, earlier, tick.bar)
    requires VetoOf(cfg, st, tick.session, intent).None?
    ensures
      var after := ApplyIntent(cfg, st, tick, intent);
      Shown(cfg, after, RESTING) && During(cfg, after, earlier, tick.bar)
  {
    hide AllAllowed, Books, Gained, Lost, VetoOf, StopFits, OpenPosition;
    GateReadsTheBook(cfg, st, earlier, tick, intent);
    ReadNext(cfg, st.ledger, IntentRecord(intent.timestamp, intent));
    var logged := Log(st, IntentRecord(intent.timestamp, intent));
    if cfg.fillTiming.SignalBarClose? {
      OpeningShows(cfg, logged, earlier, intent, intent.metadata.stopPrice.value, intent.metadata.targetPrice,
                   tick.bar.close, tick, RESTING);
    }
  }

  lemma {:induction false} IntentsShow(cfg: Config, st: EngineState, earlier: seq<Bar>, tick: Tick,
                                       intents: seq<OrderIntent>)
    requires Shown(cfg, st, RESTING) && During(cfg, st, earlier, tick.bar)
    ensures
      var after := ApplyIntents(cfg, st, tick, intents);
      Shown(cfg, after, RESTING) && During(cfg, after, earlier, tick.bar)
    decreases |intents|
  {
    hide Shown, During, ApplyIntent, VetoOf;
    if |intents| == 0 {
    } else {
      var before, intent := ApplyIntents(cfg, st, tick, intents[..|intents| - 1]), intents[|intents| - 1];
      IntentsShow(cfg, st, earlier, tick, intents[..|intents| - 1]);
      if VetoOf(cfg, before, tick.session, intent).Some? {
        VetoShows(cfg, before, earlier, tick, intent);
      } else {
        AcceptShows(cfg, before, earlier, tick, intent);
      }
    }
  }

  lemma {:induction false} AnswerShows(cfg: Config, st: EngineState, earlier: seq<Bar>, tick: Tick,
                                       result: StrategyResult)
    requires Inv(cfg, st) && Shown(cfg, st, RESTING) && During(cfg, st, earlier, tick.bar)
    ensures
      var after := ApplyResult(cfg, st, tick, result);
      Shown(cfg, after, RESTING) && During(cfg, after, earlier, tick.bar)
  {
    hide Shown, During, Inv, LogResult, ApplyExits, ApplyIntents;
    DecisionsShow(cfg, st, earlier, tick.bar, result);
    LogResultOnlyLogs(st, result);
    var logged := LogResult(st, result);
    LoggedKeeps(cfg, st, logged);
    ExitsShow(cfg, logged, earlier, tick.bar, result.exits);
    IntentsShow(cfg, ApplyExits(cfg, logged, tick.bar, result.exits), earlier, tick, result.orderIntents);
  }

  lemma {:induction false} LoggedKeeps(cfg: Config, st: EngineState, logged: EngineState)
    requires Inv(cfg, st) && OnlyLogged(st, logged)
    ensures Inv(cfg, logged)
  {
  }

  // ---- Whole runs ----

  function BarsOf(script: seq<ScriptBar>): (bars: seq<Bar>)
    ensures |bars| == |script|
  {
    seq(|script|, i requires 0 <= i < |script| => script[i].tick.bar)
  }

  lemma {:induction false} BarKeepsShown(cfg: Config, st: EngineState, b: ScriptBar)
    requires Inv(cfg, st) && Admissible(b)
    requires Shown(cfg, st, RESTING) && Latest(Books(cfg, st.ledger).bars) == BarOf(st.previous)
    ensures
      var after := EngineBar(cfg, st, b);
      && Shown(cfg, after, RESTING)
      && Books(cfg, after.ledger).bars == Books(cfg, st.ledger).bars + [b.tick.bar]
      && after.previous == Some(b.tick)
  {
    hide AfterPreStrategy, AfterSupervisor, ApplyResult, Inv, Shown, Books;
    var earlier, marked := Books(cfg, st.ledger).bars, AfterPreStrategy(cfg, st, b.tick);
    MarkShows(cfg, st, b.tick);
    MarkKeeps(cfg, st, b.tick);
    var supervised := AfterSupervisor(cfg, marked, b.tick.bar, b.breach);
    SupervisorShows(cfg, marked, earlier, b.tick.bar, b.breach);
    SupervisorKeeps(cfg, marked, b.tick.bar, b.breach);
    AnswerShows(cfg, supervised, earlier, b.tick, b.result);
    NotedShows(cfg, ApplyResult(cfg, supervised, b.tick, b.result), b.tick);
  }

  lemma {:induction false} NotedShows(cfg: Config, st: EngineState, tick: Tick)
    requires Shown(cfg, st, RESTING)
    ensures Shown(cfg, NoteProcessed(ClearFeedback(st), tick), RESTING)
  {
    hide AllAllowed, Books, HeldBy, WaitsIn, QueuedIn;
  }

  /**
   * After every bar of every run the ledger alone shows what the engine has waiting, queued and open: the
   * entry and how long it still waits, the reason of the queued exit, and the position with its excursions;
   * and the bars on record are the bars of the run.
   */
  lemma {:induction false} TheLedgerShowsTheSlots(cfg: Config, script: seq<ScriptBar>)
    requires AdmissibleScript(script)
    ensures Shown(cfg, Run(cfg, script), RESTING)
    ensures Books(cfg, Run(cfg, script).ledger).bars == BarsOf(script)
    ensures Run(cfg, script).previous == if script == [] then None else Some(script[|script| - 1].tick)
    decreases |script|
  {
    hide EngineBar, Inv, Shown, Books;
    if |script| == 0 {
      NothingShown(cfg);
    } else {
      var before, b := script[..|script| - 1], script[|script| - 1];
      TheLedgerShowsTheSlots(cfg, before);
      EveryReachableStateIsSafe(cfg, before);
      BarKeepsShown(cfg, Run(cfg, before), b);
      assert BarsOf(script) == BarsOf(before) + [b.tick.bar];
    }
  }

  lemma {:induction false} NothingShown(cfg: Config)
    ensures Shown(cfg, Initial([]), RESTING) && Books(cfg, Initial([]).ledger).bars == []
  {
  }

  lemma {:induction false} EndShows(cfg: Config, st: EngineState)
    requires Inv(cfg, st) && Shown(cfg, st, RESTING) && st.previous.Some?
    requires Latest(Books(cfg, st.ledger).bars) == BarOf(st.previous)
    ensures AllAllowed(cfg, CloseEndOfData(cfg, st).ledger)
    ensures Books(cfg, CloseEndOfData(cfg, st).ledger).owed.Nothing?
    ensures Books(cfg, CloseEndOfData(cfg, st).ledger).bars == Books(cfg, st.ledger).bars
  {
    hide AllAllowed, Books, Gained, Lost, ClosePosition, Closable;
    var last := st.previous.value.bar;
    if st.pendingEntry.Some? {
      var record := TransitionRecord(last.timestamp, PendingOrdersCancelled(EndOfData));
      ReadNext(cfg, st.ledger, record);
      FlatCloses(cfg, Log(st, record).(pendingEntry := None), last.close, last.timestamp, EndOfData, false);
    } else if st.position.Some? {
      PlainClose(cfg, st, OnClose, last.close, last.timestamp, EndOfData);
      CloseShows(cfg, st, [], RESTING, last, last.close, last.timestamp, EndOfData, false);
    } else {
      FlatCloses(cfg, st, last.close, last.timestamp, EndOfData, false);
    }
  }

  /**
   * Every record of every run, first to last, is one the order book of the records before it allows: entries
   * fill after exactly the configured delay if the draw selects them, and are missed or invalidated otherwise;
   * queued exits fill at the next bar's open for the reason that was queued; every trade has its cause, price,
   * excursions and flag; and no bar begins with anything overdue.
   */
  lemma {:induction false} EveryRecordIsAllowed(cfg: Config, script: seq<ScriptBar>, i: nat)
    requires AdmissibleScript(script) && i < |CompleteRun(cfg, script).ledger|
    ensures
      var ledger := CompleteRun(cfg, script).ledger;
      Allowed(cfg, Books(cfg, ledger[..i]), ledger[i]) && Books(cfg, ledger).owed.Nothing?
  {
    hide Run, Allowed, Shown, Books, Inv, CloseEndOfData;
    TheLedgerShowsTheSlots(cfg, script);
    EveryReachableStateIsSafe(cfg, script);
    var end := CompleteRun(cfg, script);
    if script == [] {
      EmptyRunIsBlank(cfg);
    } else {
      assert BarsOf(script)[|script| - 1] == script[|script| - 1].tick.bar;
      EndShows(cfg, Run(cfg, script));
    }
    AllowedAt(cfg, end.ledger, i);
  }

  lemma {:induction false} EmptyRunIsBlank(cfg: Config)
    ensures CompleteRun(cfg, []).ledger == []
  {
  }

  lemma {:induction false} AllowedAt(cfg: Config, ledger: seq<EventRecord>, i: nat)
    requires AllAllowed(cfg, ledger) && i < |ledger|
    ensures Allowed(cfg, Books(cfg, ledger[..i]), ledger[i])
    decreases |ledger|
  {
    hide Allowed, Books;
    if i == |ledger| - 1 {
    } else {
      AllowedAt(cfg, ledger[..|ledger| - 1], i);
      assert ledger[..|ledger| - 1][..i] == ledger[..i];
    }
  }
}
