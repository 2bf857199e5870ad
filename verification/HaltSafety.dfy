/** After the daily limit is hit, the session records no further entry fill. */
module HaltSafety {
  import opened Prelude
  import opened Market
  import opened Events
  import opened EngineSpec
  import opened EngineRun
  import opened EngineInvariants
  import opened MicroSteps
  import opened RunGrammar

  /** Replaying the fills of a ledger: a fill while flat is an entry, one while open an exit. */
  datatype Replay = Replay(open: bool, entries: nat)

  function ReplayFills(ledger: seq<EventRecord>): Replay
    decreases |ledger|
  {
    if |ledger| == 0 then Replay(false, 0)
    else
      var before := ReplayFills(ledger[..|ledger| - 1]);
      if !ledger[|ledger| - 1].FillRecord? then before
      else if before.open then before.(open := false)
      else Replay(true, before.entries + 1)
  }

  predicate Replayed(v: View) {
    ReplayFills(v.ledger) == Replay(v.exposure.Some?, |v.filled|)
  }

  lemma {:induction false} ReplayOne(ledger: seq<EventRecord>, record: EventRecord)
    ensures
      var before := ReplayFills(ledger);
      ReplayFills(ledger + [record]) ==
        if !record.FillRecord? then before
        else if before.open then before.(open := false)
        else Replay(true, before.entries + 1)
  {
    assert (ledger + [record])[..|ledger|] == ledger;
  }

  lemma {:induction false} StepReplayed(v: View, m: Micro)
    requires Replayed(v) && Enabled(v, m)
    ensures Replayed(Take(v, m))
  {
    hide ReplayFills;
    match m
    case OpenAt(entry, stop, _) =>
      ReplayOne(v.ledger, FillRecord(entry.timestamp, entry));
      ReplayOne(v.ledger + [FillRecord(entry.timestamp, entry)],
                StopRecord(entry.timestamp, entry.symbol, stop, "initial_stop", true));
    case CloseAt(exit, trade) =>
      ReplayOne(v.ledger, FillRecord(exit.timestamp, exit));
      ReplayOne(v.ledger + [FillRecord(exit.timestamp, exit)], TradeRecord(exit.timestamp, trade));
    case LogNeutral(record) => ReplayOne(v.ledger, record);
    case CancelOrders(timestamp, reason) =>
      ReplayOne(v.ledger, TransitionRecord(timestamp, PendingOrdersCancelled(reason)));
    case Accept(intent) => ReplayOne(v.ledger, IntentRecord(intent.timestamp, intent));
    case Drop(timestamp, t) => ReplayOne(v.ledger, TransitionRecord(timestamp, t));
  }

  lemma {:induction false} StepsReplayed(v: View, ms: seq<Micro>)
    requires Replayed(v) && AllEnabled(v, ms)
    ensures Replayed(TakeAll(v, ms))
    decreases |ms|
  {
    if |ms| == 0 {
    } else {
      StepsReplayed(v, ms[..|ms| - 1]);
      StepReplayed(TakeAll(v, ms[..|ms| - 1]), ms[|ms| - 1]);
    }
  }

  /** The ledger's entry fills are exactly the intents the engine filled, on every run. */
  lemma {:induction false} EntriesAreFilledIntents(cfg: Config, script: seq<ScriptBar>)
    requires AdmissibleScript(script)
    ensures ReplayFills(Run(cfg, script).ledger)
            == Replay(Run(cfg, script).position.Some?, |Run(cfg, script).filledIntents|)
  {
    hide Run;
    var ms := EveryRunIsGrammatical(cfg, script);
    StepsReplayed(EMPTY_VIEW, ms);
  }

  // ---- A halted bar fills no entry ----

  lemma {:induction false} HaltedOpenStaysOut(cfg: Config, st: EngineState, tick: Tick)
    requires Inv(cfg, st)
    requires st.dailyLimitHit
    requires st.previous.Some? && st.previous.value.session.date == tick.session.date
    ensures
      var opened' := AtOpen(cfg, st, tick);
      && opened'.position.None? && opened'.pendingEntry.None? && opened'.dailyLimitHit
      && opened'.filledIntents == st.filledIntents
  {
  }

  lemma {:induction false} FlatBarStaysOut(cfg: Config, st: EngineState, tick: Tick)
    requires st.position.None? && st.dailyLimitHit
    ensures
      var marked := CheckDailyLoss(cfg, DuringBar(cfg, st, tick), tick.bar);
      && marked.position.None? && marked.dailyLimitHit
      && marked.filledIntents == st.filledIntents && marked.previous == st.previous
  {
  }

  lemma {:induction false} HaltedAnswerStaysOut(cfg: Config, st: EngineState, tick: Tick, intents: seq<OrderIntent>)
    requires st.dailyLimitHit
    ensures
      var after := ApplyIntents(cfg, st, tick, intents);
      after == st.(ledger := after.ledger)
    decreases |intents|
  {
    if |intents| == 0 {
    } else {
      HaltedAnswerStaysOut(cfg, st, tick, intents[..|intents| - 1]);
    }
  }

  lemma {:induction false} FlatExitsDoNothing(cfg: Config, st: EngineState, bar: Bar, exits: seq<ExitDecision>)
    requires st.position.None?
    ensures ApplyExits(cfg, st, bar, exits) == st
    decreases |exits|
  {
    if |exits| == 0 {
    } else {
      FlatExitsDoNothing(cfg, st, bar, exits[..|exits| - 1]);
    }
  }

  /** One bar of a halted session: what was open is closed at the open, and nothing is entered. */
  lemma {:induction false} HaltedBarStaysOut(cfg: Config, st: EngineState, b: ScriptBar)
    requires Inv(cfg, st)
    requires st.dailyLimitHit
    requires st.previous.Some? && st.previous.value.session.date == b.tick.session.date
    ensures
      var next := EngineBar(cfg, st, b);
      && next.position.None? && next.dailyLimitHit
      && next.filledIntents == st.filledIntents
      && next.previous == Some(b.tick)
  {
    hide AtOpen, DuringBar, CheckDailyLoss, ApplyExits, ApplyIntents, LogResult, Inv;
    var logged := Log(st, BarRecord(b.tick.bar.timestamp, b.tick.bar));
    assert Inv(cfg, logged) by { LogKeeps(cfg, st, BarRecord(b.tick.bar.timestamp, b.tick.bar)); }
    HaltedOpenStaysOut(cfg, logged, b.tick);
    FlatBarStaysOut(cfg, AtOpen(cfg, logged, b.tick), b.tick);
    var supervised := AfterSupervisor(cfg, AfterPreStrategy(cfg, st, b.tick), b.tick.bar, b.breach);
    LogResultOnlyLogs(supervised, b.result);
    FlatExitsDoNothing(cfg, LogResult(supervised, b.result), b.tick.bar, b.result.exits);
    HaltedAnswerStaysOut(cfg, LogResult(supervised, b.result), b.tick, b.result.orderIntents);
  }

  /**
   * Once a run's daily limit is hit, its ledger shows no entry fill for the rest of the session, and
   * the account is flat from the next bar on, whatever the strategy keeps asking for.
   */
  lemma {:induction false} HaltedSessionStaysOut(cfg: Config, script: seq<ScriptBar>, rest: seq<ScriptBar>)
    requires AdmissibleScript(script + rest)
    requires script != [] && Run(cfg, script).dailyLimitHit
    requires forall i :: 0 <= i < |rest| ==> rest[i].tick.session.date == script[|script| - 1].tick.session.date
    ensures
      var before, after := Run(cfg, script), Run(cfg, script + rest);
      && ReplayFills(after.ledger).entries == ReplayFills(before.ledger).entries
      && after.dailyLimitHit
      && (rest != [] ==> after.position.None?)
    decreases |rest|
  {
    hide EngineBar, Inv, ReplayFills;
    HaltedRun(cfg, script, rest);
    assert AdmissibleScript(script) by {
      assert forall i :: 0 <= i < |script| ==> script[i] == (script + rest)[i];
    }
    EntriesAreFilledIntents(cfg, script);
    EntriesAreFilledIntents(cfg, script + rest);
  }

  lemma {:induction false} HaltedRun(cfg: Config, script: seq<ScriptBar>, rest: seq<ScriptBar>)
    requires AdmissibleScript(script + rest)
    requires script != [] && Run(cfg, script).dailyLimitHit
    requires forall i :: 0 <= i < |rest| ==> rest[i].tick.session.date == script[|script| - 1].tick.session.date
    ensures
      var before, after := Run(cfg, script), Run(cfg, script + rest);
      && after.filledIntents == before.filledIntents
      && after.dailyLimitHit
      && (rest != [] ==> after.position.None?)
      && after.previous == Some((script + rest)[|script + rest| - 1].tick)
    decreases |rest|
  {
    hide AfterPreStrategy, AfterSupervisor, ApplyResult, Inv;
    if |rest| == 0 {
      assert script + rest == script;
    } else {
      var shorter := rest[..|rest| - 1];
      assert (script + rest)[..|script + rest| - 1] == script + shorter;
      assert forall i :: 0 <= i < |script + shorter| ==> (script + shorter)[i] == (script + rest)[i];
      HaltedRun(cfg, script, shorter);
      EveryReachableStateIsSafe(cfg, script + shorter);
      HaltedBarStaysOut(cfg, Run(cfg, script + shorter), rest[|rest| - 1]);
    }
  }

  // ---- When a session is halted ----

  lemma {:induction false} OpenKeepsHalt(cfg: Config, st: EngineState, tick: Tick)
    ensures AtOpen(cfg, st, tick).dailyLimitHit
            == (st.dailyLimitHit && (st.previous.None? || st.previous.value.session.date == tick.session.date))
  {
    hide EntrySelected, StopProtects, EntryFill, OpensThroughStop, ExitFill, ClosedTrade;
  }

  lemma {:induction false} BarKeepsHalt(cfg: Config, st: EngineState, tick: Tick)
    ensures DuringBar(cfg, st, tick).dailyLimitHit == st.dailyLimitHit
  {
    hide TouchesStop, TouchesTarget, EffectiveFlatten, ExitFill, ClosedTrade;
  }

  lemma {:induction false} AnswerKeepsHalt(cfg: Config, st: EngineState, b: ScriptBar)
    ensures EngineBar(cfg, st, b).dailyLimitHit == AfterPreStrategy(cfg, st, b.tick).dailyLimitHit
    ensures EngineBar(cfg, st, b).previous == Some(b.tick)
  {
    hide AfterPreStrategy, LogResult, ApplyExits, ApplyIntents, ClosePosition;
    var supervised := AfterSupervisor(cfg, AfterPreStrategy(cfg, st, b.tick), b.tick.bar, b.breach);
    FlattenKeepsHalt(cfg, AfterPreStrategy(cfg, st, b.tick), b.tick.bar, b.breach);
    LogResultOnlyLogs(supervised, b.result);
    ExitsKeepHalt(cfg, LogResult(supervised, b.result), b.tick.bar, b.result.exits);
    IntentsKeepHalt(cfg, ApplyExits(cfg, LogResult(supervised, b.result), b.tick.bar, b.result.exits), b.tick,
                    b.result.orderIntents);
  }

  lemma {:induction false} FlattenKeepsHalt(cfg: Config, st: EngineState, bar: Bar, breach: Option<Reason>)
    ensures AfterSupervisor(cfg, st, bar, breach).dailyLimitHit == st.dailyLimitHit
  {
  }

  lemma {:induction false} ExitsKeepHalt(cfg: Config, st: EngineState, bar: Bar, exits: seq<ExitDecision>)
    ensures ApplyExits(cfg, st, bar, exits).dailyLimitHit == st.dailyLimitHit
    decreases |exits|
  {
    if |exits| == 0 {
    } else {
      ExitsKeepHalt(cfg, st, bar, exits[..|exits| - 1]);
    }
  }

  lemma {:induction false} IntentsKeepHalt(cfg: Config, st: EngineState, tick: Tick, intents: seq<OrderIntent>)
    ensures ApplyIntents(cfg, st, tick, intents).dailyLimitHit == st.dailyLimitHit
    decreases |intents|
  {
    hide VetoOf, StopProtects, EntryFill;
    if |intents| == 0 {
    } else {
      IntentsKeepHalt(cfg, st, tick, intents[..|intents| - 1]);
    }
  }

  /** Bar k of the run found the session at its loss limit or below. */
  predicate LossAt(cfg: Config, script: seq<ScriptBar>, k: int)
    requires 0 <= k < |script|
  {
    var tick := script[k].tick;
    && cfg.dailyLossLimit.Some?
    && PreStrategyPnl(cfg, Log(Run(cfg, script[..k]), BarRecord(tick.bar.timestamp, tick.bar)), tick)
       <= -cfg.dailyLossLimit.value
  }

  /** From bar k to the last it is one session. */
  predicate OneSession(script: seq<ScriptBar>, k: int)
    requires 0 <= k < |script|
  {
    forall i :: k <= i < |script| ==> script[i].tick.session.date == script[|script| - 1].tick.session.date
  }

  lemma {:induction false} MarkHaltsIff(cfg: Config, st: EngineState, tick: Tick)
    ensures
      var logged := Log(st, BarRecord(tick.bar.timestamp, tick.bar));
      AfterPreStrategy(cfg, st, tick).dailyLimitHit <==>
        || (st.dailyLimitHit && (st.previous.None? || st.previous.value.session.date == tick.session.date))
        || (cfg.dailyLossLimit.Some? && PreStrategyPnl(cfg, logged, tick) <= -cfg.dailyLossLimit.value)
  {
    hide AtOpen, DuringBar, SessionPnl;
    var logged := Log(st, BarRecord(tick.bar.timestamp, tick.bar));
    OpenKeepsHalt(cfg, logged, tick);
    BarKeepsHalt(cfg, AtOpen(cfg, logged, tick), tick);
  }

  /**
   * Exactly when a session is halted: the flag stands after a bar if and only if some bar of the unbroken
   * session up to this one found its P&L at the limit or below.
   */
  lemma {:induction false} HaltedIffLimitMet(cfg: Config, script: seq<ScriptBar>)
    ensures Run(cfg, script).dailyLimitHit <==>
      exists k :: 0 <= k < |script| && OneSession(script, k) && LossAt(cfg, script, k)
    decreases |script|
  {
    hide AfterPreStrategy, PreStrategyPnl, EngineBar;
    if |script| == 0 {
    } else {
      var n := |script| - 1;
      var before, b := script[..n], script[n];
      var st := Run(cfg, before);
      HaltedIffLimitMet(cfg, before);
      MarkHaltsIff(cfg, st, b.tick);
      AnswerKeepsHalt(cfg, st, b);
      RunKeepsTick(cfg, before);
      assert LossAt(cfg, script, n) <==> (cfg.dailyLossLimit.Some? && PreStrategyPnl(
        cfg, Log(st, BarRecord(b.tick.bar.timestamp, b.tick.bar)), b.tick) <= -cfg.dailyLossLimit.value);
      forall k | 0 <= k < n
        ensures LossAt(cfg, script, k) == LossAt(cfg, before, k)
      {
        assert before[..k] == script[..k];
      }
      if Run(cfg, script).dailyLimitHit {
        if LossAt(cfg, script, n) {
          assert OneSession(script, n);
        } else {
          var k :| 0 <= k < |before| && OneSession(before, k) && LossAt(cfg, before, k);
          assert OneSession(script, k);
        }
      }
      if k :| 0 <= k < |script| && OneSession(script, k) && LossAt(cfg, script, k) {
        if k < n {
          assert script[n - 1].tick.session.date == script[n].tick.session.date;
          assert OneSession(before, k);
        }
      }
    }
  }

  lemma {:induction false} RunKeepsTick(cfg: Config, script: seq<ScriptBar>)
    ensures Run(cfg, script).previous == if script == [] then None else Some(script[|script| - 1].tick)
    ensures script == [] ==> !Run(cfg, script).dailyLimitHit
  {
    hide AfterPreStrategy, AfterSupervisor, ApplyResult;
  }
}
