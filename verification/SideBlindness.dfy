/** The engine's runs mirror if and only if the missed-entry draw is blind to the order's side. */
module SideBlindness {
  import opened Prelude
  import opened Market
  import opened Events
  import opened EngineSpec
  import opened EngineRun
  import opened EngineInvariants
  import opened Mirror
  import opened EngineReflection

  // ---- A run that asks for one entry and waits for it ----

  function Later(t: Timestamp, k: nat): Timestamp {
    match t
    case At(instant) => At(instant + k)
    case Blank => if k == 0 then Blank else At(k)
  }

  /** The k-th bar of a market that stands still at `price`, early enough to enter. */
  function StillTick(cfg: Config, intent: OrderIntent, price: real, k: nat): Tick {
    Tick(Bar(Later(intent.timestamp, k), intent.symbol, price, price, price, price, 0.0),
         Session(0, if cfg.flattenMinutes > 0 then 0 else cfg.flattenMinutes - 1, Some(16 * 60), true, false))
  }

  function Asking(intent: OrderIntent): StrategyResult {
    NO_RESULT.(orderIntents := [intent])
  }

  /** The order on the first bar, then `k` bars of waiting. */
  function Probe(cfg: Config, intent: OrderIntent, price: real, k: nat): seq<ScriptBar> {
    if k == 0 then [ScriptBar(StillTick(cfg, intent, price, 0), None, Asking(intent))]
    else Probe(cfg, intent, price, k - 1) + [ScriptBar(StillTick(cfg, intent, price, k), None, NO_RESULT)]
  }

  function StopFor(side: OrderSide, price: real): real {
    if side.Buy? then price - 1.0 else price + 1.0
  }

  /** An order a fresh engine admits and, if it is selected, opens in the still market. */
  predicate Plain(cfg: Config, intent: OrderIntent, price: real) {
    && !intent.side.Unknown?
    && 1 <= intent.quantity <= cfg.maxContracts
    && intent.metadata.signalPrice.None? && intent.metadata.targetPrice.None?
    && intent.metadata.stopPrice == Some(StopFor(intent.side, price))
  }

  /** The engine while the order waits, with `left` more bars to go. */
  predicate Waiting(cfg: Config, st: EngineState, intent: OrderIntent, price: real, left: nat, tick: Tick) {
    && st.position.None? && st.pendingExit.None? && st.filledIntents == []
    && st.pendingEntry == Some(PendingEntry(intent, StopFor(intent.side, price), None, left))
    && st.previous == Some(tick)
    && st.cumulativeNetPnl == 0.0 && st.sessionStartPnl == 0.0 && !st.dailyLimitHit
  }

  lemma {:induction false} FlatBarsDoNothing(cfg: Config, st: EngineState, tick: Tick)
    requires st.position.None? && tick.session.minute < EffectiveFlatten(cfg, tick.session)
    requires !LossBreached(Realized(st), cfg.dailyLossLimit)
    ensures CheckDailyLoss(cfg, DuringBar(cfg, st, tick), tick.bar) == st
  {
  }

  lemma {:induction false} SilenceDoesNothing(cfg: Config, st: EngineState, tick: Tick)
    ensures ApplyResult(cfg, st, tick, NO_RESULT) == st
  {
  }

  lemma {:induction false} FirstBar(cfg: Config, intent: OrderIntent, price: real)
    requires ValidConfig(cfg) && cfg.fillTiming.NextBarOpen? && Plain(cfg, intent, price)
    ensures Waiting(cfg, Run(cfg, Probe(cfg, intent, price, 0)), intent, price, cfg.entryDelayBars,
                    StillTick(cfg, intent, price, 0))
  {
    hide DuringBar, CheckDailyLoss;
    var tick := StillTick(cfg, intent, price, 0);
    var b := ScriptBar(tick, None, Asking(intent));
    assert Probe(cfg, intent, price, 0)[..0] == [];
    assert Run(cfg, Probe(cfg, intent, price, 0)) == EngineBar(cfg, Initial([]), b);
    var logged := Log(Initial([]), BarRecord(tick.bar.timestamp, tick.bar));
    FlatBarsDoNothing(cfg, logged, tick);
    assert PreStrategy(cfg, logged, tick) == logged;
    AsksAndWaits(cfg, ClearFeedback(logged), tick, intent, price);
  }

  lemma {:induction false} AsksAndWaits(cfg: Config, st: EngineState, tick: Tick, intent: OrderIntent, price: real)
    requires cfg.fillTiming.NextBarOpen? && Plain(cfg, intent, price) && tick == StillTick(cfg, intent, price, 0)
    requires !HasOpenOrder(st) && !st.dailyLimitHit && st.previous.None?
    ensures
      var after := ApplyResult(cfg, st, tick, Asking(intent));
      after == st.(ledger := after.ledger,
                   pendingEntry := Some(PendingEntry(intent, StopFor(intent.side, price), None, cfg.entryDelayBars)))
  {
    assert VetoOf(cfg, st, tick.session, intent).None?;
    assert Asking(intent).orderIntents[..0] == [];
    assert ApplyIntents(cfg, st, tick, []) == st;
  }

  lemma {:induction false} WaitingBar(cfg: Config, st: EngineState, intent: OrderIntent, price: real, left: nat, k: nat)
    requires ValidConfig(cfg) && Plain(cfg, intent, price) && left > 0 && k > 0
    requires Waiting(cfg, st, intent, price, left, StillTick(cfg, intent, price, k - 1))
    ensures
      var tick := StillTick(cfg, intent, price, k);
      Waiting(cfg, EngineBar(cfg, st, ScriptBar(tick, None, NO_RESULT)), intent, price, left - 1, tick)
  {
    hide DuringBar, CheckDailyLoss, ApplyResult;
    var tick := StillTick(cfg, intent, price, k);
    var logged := Log(st, BarRecord(tick.bar.timestamp, tick.bar));
    var aged := AtOpen(cfg, logged, tick);
    FlatBarsDoNothing(cfg, aged, tick);
    SilenceDoesNothing(cfg, ClearFeedback(aged), tick);
  }

  lemma {:induction false} Waits(cfg: Config, intent: OrderIntent, price: real, k: nat)
    requires ValidConfig(cfg) && cfg.fillTiming.NextBarOpen? && Plain(cfg, intent, price) && k <= cfg.entryDelayBars
    ensures Waiting(cfg, Run(cfg, Probe(cfg, intent, price, k)), intent, price, cfg.entryDelayBars - k,
                    StillTick(cfg, intent, price, k))
  {
    hide EngineBar, Waiting;
    if k == 0 {
      FirstBar(cfg, intent, price);
    } else {
      Waits(cfg, intent, price, k - 1);
      var script := Probe(cfg, intent, price, k);
      assert script[..|script| - 1] == Probe(cfg, intent, price, k - 1);
      WaitingBar(cfg, Run(cfg, Probe(cfg, intent, price, k - 1)), intent, price, cfg.entryDelayBars - k + 1, k);
    }
  }

  // ---- The bar on which it is due ----

  lemma {:induction false} FlattenFillsNothing(cfg: Config, st: EngineState, bar: Bar, reason: Reason)
    ensures FlattenNow(cfg, st, bar, reason).filledIntents == st.filledIntents
  {
  }

  lemma {:induction false} StopAndTargetFillNothing(cfg: Config, st: EngineState, bar: Bar)
    ensures IntrabarStopAndTarget(cfg, st, bar).filledIntents == st.filledIntents
  {
    hide TouchesStop, TouchesTarget, ExitFill, ClosedTrade;
  }

  lemma {:induction false} RestOfBarFillsNothing(cfg: Config, st: EngineState, tick: Tick)
    ensures CheckDailyLoss(cfg, DuringBar(cfg, st, tick), tick.bar).filledIntents == st.filledIntents
  {
    hide IntrabarStopAndTarget, FlattenNow, EffectiveFlatten, SessionPnl, LossBreached;
    StopAndTargetFillNothing(cfg, st, tick.bar);
    var stopped := UpdateExcursions(IntrabarStopAndTarget(cfg, st, tick.bar), tick.bar);
    FlattenFillsNothing(cfg, stopped, tick.bar, SessionFlatten);
  }

  lemma {:induction false} ExitsFillNothing(cfg: Config, st: EngineState, bar: Bar)
    ensures ProcessPendingExit(cfg, st, bar).filledIntents == st.filledIntents
  {
  }

  lemma {:induction false} DueBar(cfg: Config, st: EngineState, intent: OrderIntent, price: real, k: nat)
    requires ValidConfig(cfg) && Plain(cfg, intent, price) && k > 0
    requires Waiting(cfg, st, intent, price, 0, StillTick(cfg, intent, price, k - 1))
    ensures
      EngineBar(cfg, st, ScriptBar(StillTick(cfg, intent, price, k), None, NO_RESULT)).filledIntents
        == if EntrySelected(cfg, intent) then [intent] else []
  {
    hide DuringBar, CheckDailyLoss, ApplyResult, EntrySelected, ProcessPendingExit;
    var tick := StillTick(cfg, intent, price, k);
    var logged := Log(st, BarRecord(tick.bar.timestamp, tick.bar));
    var entered := ProcessPendingEntry(cfg, logged, tick);
    ExitsFillNothing(cfg, entered, tick.bar);
    RestOfBarFillsNothing(cfg, AtOpen(cfg, logged, tick), tick);
    SilenceDoesNothing(cfg, ClearFeedback(PreStrategy(cfg, logged, tick)), tick);
  }

  /** The probe fills its order if and only if the draw selects it. */
  lemma {:induction false} ProbeFillsIffSelected(cfg: Config, intent: OrderIntent, price: real)
    requires ValidConfig(cfg) && cfg.fillTiming.NextBarOpen? && Plain(cfg, intent, price)
    ensures
      Run(cfg, Probe(cfg, intent, price, cfg.entryDelayBars + 1)).filledIntents
        == if EntrySelected(cfg, intent) then [intent] else []
  {
    hide EngineBar, Waiting, EntrySelected;
    var k := cfg.entryDelayBars + 1;
    var script := Probe(cfg, intent, price, k);
    Waits(cfg, intent, price, k - 1);
    assert script[..|script| - 1] == Probe(cfg, intent, price, k - 1);
    DueBar(cfg, Run(cfg, Probe(cfg, intent, price, k - 1)), intent, price, k);
  }

  // ---- Reflecting it ----

  lemma {:induction false} ProbeMirrors(cfg: Config, intent: OrderIntent, price: real, k: nat)
    requires Plain(cfg, intent, price)
    ensures Plain(cfg, MirrorIntent(intent), -price)
    ensures Map(MirrorScriptBar, Probe(cfg, intent, price, k)) == Probe(cfg, MirrorIntent(intent), -price, k)
    ensures AdmissibleScript(Probe(cfg, intent, price, k))
  {
    if k > 0 {
      ProbeMirrors(cfg, intent, price, k - 1);
      MapAppend(MirrorScriptBar, Probe(cfg, intent, price, k - 1),
                ScriptBar(StillTick(cfg, intent, price, k), None, NO_RESULT));
    } else {
      assert MirrorResult(Asking(intent)) == Asking(MirrorIntent(intent));
    }
  }

  /** If the draw tells an order from its mirrored order, this run does not mirror. */
  lemma {:induction false} ProbeBreaksTheSymmetry(cfg: Config, intent: OrderIntent, price: real)
    requires ValidConfig(cfg) && cfg.fillTiming.NextBarOpen? && Plain(cfg, intent, price)
    requires EntrySelected(cfg, MirrorIntent(intent)) != EntrySelected(cfg, intent)
    ensures
      var script := Probe(cfg, intent, price, cfg.entryDelayBars + 1);
      && AdmissibleScript(script)
      && Run(cfg, Map(MirrorScriptBar, script)) != MirrorState(Run(cfg, script))
  {
    hide Run, Probe, Plain, EntrySelected, MirrorIntent;
    var script := Probe(cfg, intent, price, cfg.entryDelayBars + 1);
    ProbeMirrors(cfg, intent, price, cfg.entryDelayBars + 1);
    ProbeFillsIffSelected(cfg, intent, price);
    ProbeFillsIffSelected(cfg, MirrorIntent(intent), -price);
    assert |MirrorState(Run(cfg, script)).filledIntents| == |Run(cfg, script).filledIntents|;
  }

  /** The same order, with the terms the probe needs; the draw does not look at them. */
  function Probing(intent: OrderIntent, price: real): OrderIntent {
    intent.(metadata := NO_METADATA.(stopPrice := Some(StopFor(intent.side, price))))
  }

  /** A run that does not mirror, if the draw is not blind. */
  lemma {:induction false} SightedDrawsBreakTheSymmetry(cfg: Config) returns (script: seq<ScriptBar>)
    requires ValidConfig(cfg) && !SideBlind(cfg)
    ensures AdmissibleScript(script)
    ensures Run(cfg, Map(MirrorScriptBar, script)) != MirrorState(Run(cfg, script))
  {
    hide Run, Probe;
    var i: OrderIntent :| !i.side.Unknown? && 1 <= i.quantity <= cfg.maxContracts
                          && EntrySelected(cfg, MirrorIntent(i)) != EntrySelected(cfg, i);
    var intent := Probing(i, 100.0);
    script := Probe(cfg, intent, 100.0, cfg.entryDelayBars + 1);
    ProbeBreaksTheSymmetry(cfg, intent, 100.0);
  }

  predicate Mirrors(cfg: Config, script: seq<ScriptBar>) {
    Run(cfg, Map(MirrorScriptBar, script)) == MirrorState(Run(cfg, script))
  }

  /**
   * Exactly when the engine has no directional bias: all its runs mirror if and only if the draw selects
   * every admissible order and its mirrored order alike.
   */
  lemma {:induction false} RunsMirrorIffSideBlind(cfg: Config)
    requires ValidConfig(cfg)
    ensures (forall script :: AdmissibleScript(script) ==> Mirrors(cfg, script)) <==> SideBlind(cfg)
  {
    hide Run, SideBlind, MirrorState;
    if SideBlind(cfg) {
      forall script | AdmissibleScript(script)
        ensures Mirrors(cfg, script)
      {
        RunsMirror(cfg, script);
      }
    } else {
      var script := SightedDrawsBreakTheSymmetry(cfg);
      assert AdmissibleScript(script) && !Mirrors(cfg, script);
    }
  }

  // ---- Such a draw ----

  /** A valid configuration whose draw fills every buy and misses every sell. */
  const SIGHTED: Config := Config(
    20.0, 2.0, 0.25, 0.25, 0.0, 0, 0.5, 7,
    (seed: int, t: Timestamp, symbol: Symbol, side: OrderSide, quantity: int) => if side.Buy? then 0.25 else 0.75,
    NextBarOpen, false, 959, 1, None)

  const ONE_BUY: OrderIntent :=
    Probing(OrderIntent(At(0), "NQ", Buy, 1, Other("entry"), NO_METADATA), 100.0)

  /** The two bars on which it shows: the buy is filled, the reflected sell is missed. */
  lemma {:induction false} ASightedDraw()
    ensures ValidConfig(SIGHTED)
    ensures
      var script := Probe(SIGHTED, ONE_BUY, 100.0, 1);
      && AdmissibleScript(script)
      && Run(SIGHTED, script).filledIntents == [ONE_BUY]
      && Run(SIGHTED, Map(MirrorScriptBar, script)).filledIntents == []
      && Run(SIGHTED, Map(MirrorScriptBar, script)) != MirrorState(Run(SIGHTED, script))
  {
    hide Run, Probe;
    ProbeFillsIffSelected(SIGHTED, ONE_BUY, 100.0);
    ProbeMirrors(SIGHTED, ONE_BUY, 100.0, 1);
    ProbeFillsIffSelected(SIGHTED, MirrorIntent(ONE_BUY), -100.0);
    ProbeBreaksTheSymmetry(SIGHTED, ONE_BUY, 100.0);
  }
}
