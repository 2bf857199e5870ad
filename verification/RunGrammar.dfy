/** Every run, with any strategy and any supervisor, is a legal sequence of the engine's steps. */
module RunGrammar {
  import opened Prelude
  import opened Market
  import opened Events
  import opened EngineSpec
  import opened EngineRun
  import opened EngineInvariants
  import opened MicroSteps

  // ---- The strategy's result ----

  lemma {:induction false} VetoMicros(st: EngineState, vetoes: seq<RiskVeto>) returns (ms: seq<Micro>)
    ensures Leads(ViewOf(st), ms, ViewOf(LogVetoes(st, vetoes)))
    decreases |vetoes|
  {
    hide Leads;
    ms := Nothing(ViewOf(st));
    if |vetoes| == 0 {
    } else {
      var before := LogVetoes(st, vetoes[..|vetoes| - 1]);
      var v := vetoes[|vetoes| - 1];
      ms := VetoMicros(st, vetoes[..|vetoes| - 1]);
      var last := LogMicros(before, VetoRecord(v.timestamp, v));
      Then(ViewOf(st), ms, ViewOf(before), last, ViewOf(LogVetoes(st, vetoes)));
      ms := ms + last;
    }
  }

  lemma {:induction false} StopUpdateMicros(st: EngineState, updates: seq<StopUpdate>) returns (ms: seq<Micro>)
    ensures Leads(ViewOf(st), ms, ViewOf(LogStopUpdates(st, updates)))
    decreases |updates|
  {
    hide Leads;
    ms := Nothing(ViewOf(st));
    if |updates| == 0 {
    } else {
      var before := LogStopUpdates(st, updates[..|updates| - 1]);
      var u := updates[|updates| - 1];
      ms := StopUpdateMicros(st, updates[..|updates| - 1]);
      var last := LogMicros(before, StopRecord(u.timestamp, u.symbol, u.stopPrice, u.reason, false));
      Then(ViewOf(st), ms, ViewOf(before), last, ViewOf(LogStopUpdates(st, updates)));
      ms := ms + last;
    }
  }

  lemma {:induction false} SignalMicros(st: EngineState, signal: Option<SignalDecision>) returns (ms: seq<Micro>)
    ensures Leads(ViewOf(st), ms, ViewOf(LogSignal(st, signal)))
  {
    hide Leads;
    ms := Nothing(ViewOf(st));
    if signal.Some? {
      var s := signal.value;
      var decided := Log(st, SignalRecord(s.timestamp, s));
      ms := LogMicros(st, SignalRecord(s.timestamp, s));
      if s.decision.Rejected? {
        var second := LogMicros(decided, RejectionRecord(s.timestamp, s));
        Then(ViewOf(st), ms, ViewOf(decided), second, ViewOf(LogSignal(st, signal)));
        ms := ms + second;
      }
    }
  }

  lemma {:induction false} LogResultMicros(st: EngineState, result: StrategyResult) returns (ms: seq<Micro>)
    ensures Leads(ViewOf(st), ms, ViewOf(LogResult(st, result)))
  {
    hide Leads, LogSignal, LogVetoes, LogStopUpdates;
    var signalled := LogSignal(st, result.signal);
    var vetoed := LogVetoes(signalled, result.riskVetoes);
    var a := SignalMicros(st, result.signal);
    var b := VetoMicros(signalled, result.riskVetoes);
    var c := StopUpdateMicros(vetoed, result.stopUpdates);
    Then(ViewOf(st), a, ViewOf(signalled), b, ViewOf(vetoed));
    Then(ViewOf(st), a + b, ViewOf(vetoed), c, ViewOf(LogResult(st, result)));
    return a + b + c;
  }

  lemma {:induction false} ExitMicros(cfg: Config, st: EngineState, bar: Bar,
                                      exit: ExitDecision) returns (ms: seq<Micro>)
    requires Slots(st)
    ensures Leads(ViewOf(st), ms, ViewOf(ApplyExit(cfg, st, bar, exit)))
  {
    hide ClosePosition, Leads;
    ms := Nothing(ViewOf(st));
    if st.position.Some? {
      var logged := Log(st, ExitRecord(exit.timestamp, exit));
      ms := LogMicros(st, ExitRecord(exit.timestamp, exit));
      if cfg.fillTiming.SignalBarClose? {
        var second := CloseMicros(cfg, logged, bar.close, bar.timestamp, exit.reason, false);
        Then(ViewOf(st), ms, ViewOf(logged), second, ViewOf(ApplyExit(cfg, st, bar, exit)));
        ms := ms + second;
      }
    }
  }

  lemma {:induction false} ExitsMicros(cfg: Config, st: EngineState, bar: Bar,
                                       exits: seq<ExitDecision>) returns (ms: seq<Micro>)
    requires Inv(cfg, st)
    ensures Leads(ViewOf(st), ms, ViewOf(ApplyExits(cfg, st, bar, exits)))
    decreases |exits|
  {
    hide ApplyExit, Leads, Inv;
    ms := Nothing(ViewOf(st));
    if |exits| == 0 {
    } else {
      var before := ApplyExits(cfg, st, bar, exits[..|exits| - 1]);
      ms := ExitsMicros(cfg, st, bar, exits[..|exits| - 1]);
      ExitsKeepSlots(cfg, st, bar, exits[..|exits| - 1]);
      InvSlots(cfg, before);
      var last := ExitMicros(cfg, before, bar, exits[|exits| - 1]);
      Then(ViewOf(st), ms, ViewOf(before), last, ViewOf(ApplyExits(cfg, st, bar, exits)));
      ms := ms + last;
    }
  }

  lemma {:induction false} IntentMicros(cfg: Config, st: EngineState, tick: Tick,
                                        intent: OrderIntent) returns (ms: seq<Micro>)
    ensures Leads(ViewOf(st), ms, ViewOf(ApplyIntent(cfg, st, tick, intent)))
  {
    hide OpenPosition, Leads;
    var veto := VetoOf(cfg, st, tick.session, intent);
    if veto.Some? {
      ms := LogMicros(st, IntentVetoRecord(intent.timestamp, intent, veto.value));
    } else {
      var logged := Log(st, IntentRecord(intent.timestamp, intent));
      var accepted := ViewOf(logged).(pending := Some(intent));
      assert Take(ViewOf(st), Accept(intent)) == accepted;
      One(ViewOf(st), Accept(intent));
      ms := [Accept(intent)];
      if cfg.fillTiming.SignalBarClose? {
        var stop, target := intent.metadata.stopPrice.value, intent.metadata.targetPrice;
        var filled := OpenMicros(cfg, logged, intent, stop, target, tick.bar.close, tick.bar.timestamp, tick.session,
                                 accepted);
        Then(ViewOf(st), ms, accepted, filled, ViewOf(ApplyIntent(cfg, st, tick, intent)));
        ms := ms + filled;
      }
    }
  }

  lemma {:induction false} IntentsMicros(cfg: Config, st: EngineState, tick: Tick,
                                         intents: seq<OrderIntent>) returns (ms: seq<Micro>)
    ensures Leads(ViewOf(st), ms, ViewOf(ApplyIntents(cfg, st, tick, intents)))
    decreases |intents|
  {
    hide ApplyIntent, Leads;
    ms := Nothing(ViewOf(st));
    if |intents| == 0 {
    } else {
      var before := ApplyIntents(cfg, st, tick, intents[..|intents| - 1]);
      ms := IntentsMicros(cfg, st, tick, intents[..|intents| - 1]);
      var last := IntentMicros(cfg, before, tick, intents[|intents| - 1]);
      Then(ViewOf(st), ms, ViewOf(before), last, ViewOf(ApplyIntents(cfg, st, tick, intents)));
      ms := ms + last;
    }
  }

  lemma {:induction false} ApplyMicros(cfg: Config, st: EngineState, tick: Tick,
                                       result: StrategyResult) returns (ms: seq<Micro>)
    requires Inv(cfg, st)
    ensures Leads(ViewOf(st), ms, ViewOf(ApplyResult(cfg, st, tick, result)))
  {
    hide LogResult, ApplyExits, ApplyIntents, Leads;
    var logged := LogResult(st, result);
    LogResultOnlyLogs(st, result);
    var exited := ApplyExits(cfg, logged, tick.bar, result.exits);
    var a := LogResultMicros(st, result);
    var b := ExitsMicros(cfg, logged, tick.bar, result.exits);
    var c := IntentsMicros(cfg, exited, tick, result.orderIntents);
    Then(ViewOf(st), a, ViewOf(logged), b, ViewOf(exited));
    Then(ViewOf(st), a + b, ViewOf(exited), c, ViewOf(ApplyResult(cfg, st, tick, result)));
    return a + b + c;
  }

  // ---- Bars and runs ----

  lemma {:induction false} MarkMicros(cfg: Config, st: EngineState, tick: Tick) returns (ms: seq<Micro>)
    requires Inv(cfg, st)
    ensures Leads(ViewOf(st), ms, ViewOf(AfterPreStrategy(cfg, st, tick)))
  {
    hide PreStrategy, Leads;
    var record := BarRecord(tick.bar.timestamp, tick.bar);
    var first := LogMicros(st, record);
    var second := PreStrategyMicros(cfg, Log(st, record), tick);
    assert ViewOf(AfterPreStrategy(cfg, st, tick)) == ViewOf(PreStrategy(cfg, Log(st, record), tick));
    Then(ViewOf(st), first, ViewOf(Log(st, record)), second, ViewOf(AfterPreStrategy(cfg, st, tick)));
    return first + second;
  }

  lemma {:induction false} SupervisorMicros(cfg: Config, st: EngineState, bar: Bar,
                                            breach: Option<Reason>) returns (ms: seq<Micro>)
    requires Inv(cfg, st)
    ensures Leads(ViewOf(st), ms, ViewOf(AfterSupervisor(cfg, st, bar, breach)))
  {
    hide FlattenNow, Leads;
    ms := Nothing(ViewOf(st));
    if breach.Some? {
      var record := TransitionRecord(bar.timestamp, ExecutionHalt(Breach(breach.value)));
      ms := LogMicros(st, record);
      var second := FlattenMicros(cfg, Log(st, record), bar, breach.value);
      Then(ViewOf(st), ms, ViewOf(Log(st, record)), second, ViewOf(AfterSupervisor(cfg, st, bar, breach)));
      ms := ms + second;
    }
  }

  lemma {:induction false} AnswerMicros(cfg: Config, st: EngineState, tick: Tick,
                                        result: StrategyResult) returns (ms: seq<Micro>)
    requires Inv(cfg, st)
    ensures Leads(ViewOf(st), ms, ViewOf(AfterStrategy(cfg, st, tick, result)))
  {
    hide ApplyResult, Leads;
    ms := ApplyMicros(cfg, st, tick, result);
    assert ViewOf(AfterStrategy(cfg, st, tick, result)) == ViewOf(ApplyResult(cfg, st, tick, result));
  }

  lemma {:induction false} BarMicros(cfg: Config, st: EngineState, b: ScriptBar) returns (ms: seq<Micro>)
    requires Inv(cfg, st)
    ensures Leads(ViewOf(st), ms, ViewOf(EngineBar(cfg, st, b)))
  {
    var marked := AfterPreStrategy(cfg, st, b.tick);
    MarkKeeps(cfg, st, b.tick);
    hide AfterPreStrategy, AfterSupervisor, AfterStrategy, Leads, Inv;
    var supervised := AfterSupervisor(cfg, marked, b.tick.bar, b.breach);
    SupervisorKeeps(cfg, marked, b.tick.bar, b.breach);
    var x := MarkMicros(cfg, st, b.tick);
    var y := SupervisorMicros(cfg, marked, b.tick.bar, b.breach);
    var z := AnswerMicros(cfg, supervised, b.tick, b.result);
    Then(ViewOf(st), x, ViewOf(marked), y, ViewOf(supervised));
    Then(ViewOf(st), x + y, ViewOf(supervised), z, ViewOf(EngineBar(cfg, st, b)));
    return x + y + z;
  }

  /** The ledger, trades and fills of every run are the work of enabled micro-steps. */
  lemma {:induction false} EveryRunIsGrammatical(cfg: Config, script: seq<ScriptBar>) returns (ms: seq<Micro>)
    requires AdmissibleScript(script)
    ensures Leads(EMPTY_VIEW, ms, ViewOf(Run(cfg, script)))
    decreases |script|
  {
    hide EngineBar, Leads;
    if |script| == 0 {
      ms := Nothing(EMPTY_VIEW);
    } else {
      var before := script[..|script| - 1];
      ms := EveryRunIsGrammatical(cfg, before);
      EveryReachableStateIsSafe(cfg, before);
      var last := BarMicros(cfg, Run(cfg, before), script[|script| - 1]);
      Then(EMPTY_VIEW, ms, ViewOf(Run(cfg, before)), last, ViewOf(Run(cfg, script)));
      ms := ms + last;
    }
  }

  lemma {:induction false} EndMicros(cfg: Config, st: EngineState) returns (ms: seq<Micro>)
    requires Inv(cfg, st)
    ensures Leads(ViewOf(st), ms, ViewOf(CloseEndOfData(cfg, st)))
  {
    hide ClosePosition, Leads;
    ms := Nothing(ViewOf(st));
    if st.previous.Some? {
      var last := st.previous.value.bar;
      if st.pendingEntry.None? {
        ms := CloseMicros(cfg, st, last.close, last.timestamp, EndOfData, false);
      } else {
        var record := TransitionRecord(last.timestamp, PendingOrdersCancelled(EndOfData));
        var cancelled := Log(st, record).(pendingEntry := None);
        assert Take(ViewOf(st), CancelOrders(last.timestamp, EndOfData)) == ViewOf(cancelled);
        One(ViewOf(st), CancelOrders(last.timestamp, EndOfData));
        var second := CloseMicros(cfg, cancelled, last.close, last.timestamp, EndOfData, false);
        Then(ViewOf(st), [CancelOrders(last.timestamp, EndOfData)], ViewOf(cancelled), second,
             ViewOf(CloseEndOfData(cfg, st)));
        ms := [CancelOrders(last.timestamp, EndOfData)] + second;
      }
    }
  }

  lemma {:induction false} EveryCompleteRunIsGrammatical(cfg: Config, script: seq<ScriptBar>) returns (ms: seq<Micro>)
    requires AdmissibleScript(script)
    ensures Leads(EMPTY_VIEW, ms, ViewOf(CompleteRun(cfg, script)))
  {
    hide CloseEndOfData, Run, Leads;
    ms := EveryRunIsGrammatical(cfg, script);
    EveryReachableStateIsSafe(cfg, script);
    var last := EndMicros(cfg, Run(cfg, script));
    assert ViewOf(CompleteRun(cfg, script)) == ViewOf(CloseEndOfData(cfg, Run(cfg, script)));
    Then(EMPTY_VIEW, ms, ViewOf(Run(cfg, script)), last, ViewOf(CompleteRun(cfg, script)));
    ms := ms + last;
  }
}
