/** The live conductor: the same bars, with the order shadow, the supervisor and halts added. */
module LiveLoop {
  import opened Prelude
  import opened Market
  import opened Events
  import opened EngineSpec
  import opened Supervisor
  import opened OrderStateMachine
  import opened PaperBroker
  import SessionPnl

  /** A tick and whether the kill-switch file is there when the supervisor looks. */
  datatype LiveTick = LiveTick(tick: Tick, killSwitch: bool)

  datatype LiveState<!S> = LiveState(
    engine: EngineState,
    strat: S,
    desk: Desk,
    cursor: nat,
    machine: Machine,
    latch: Latch,
    flattened: set<int>)

  datatype Outcome<!S> =
    | Running(state: LiveState<S>)
    | Halted(state: LiveState<S>, error: InvariantError)

  datatype HaltReason = InvariantHalt(error: InvariantError) | OutageHalt

  function Start<S>(s0: S): LiveState<S> {
    LiveState(Initial([]), s0, NEW_DESK, 0, FLAT, OPEN, {})
  }

  /** The per-drain check: presence, side and quantity. */
  predicate CrossChecked(shadow: Option<BrokerPosition>, truth: Option<BrokerPosition>) {
    && shadow.Some? == truth.Some?
    && (shadow.Some? ==> shadow.value.side == truth.value.side && shadow.value.quantity == truth.value.quantity)
  }

  function Synchronize<S>(strategy: Strategy<S>, st: LiveState<S>): Outcome<S> {
    var (desk, events) := SynthesizeAll(st.desk, Tail(st.engine.ledger, st.cursor));
    var (machine, error) := OnEvents(st.machine, events);
    var drained := st.(desk := desk, cursor := |st.engine.ledger|, machine := machine);
    if error.Some? then Halted(drained, error.value)
    else if !CrossChecked(machine.position, SessionPnl.ReportedPosition(st.engine)) then
      Halted(drained, PositionMismatch)
    else
      Running(drained.(strat := Dispatch(strategy, st.strat, st.engine.feedback), engine := ClearFeedback(st.engine)))
  }

  /** The bar up to the first synchronisation. */
  function LiveMark<S>(cfg: Config, strategy: Strategy<S>, st: LiveState<S>, tick: Tick): Outcome<S> {
    var logged := Log(st.engine, BarRecord(tick.bar.timestamp, tick.bar));
    Synchronize(strategy, st.(engine := PreStrategy(cfg, logged, tick)))
  }

  function LivePnl<S>(cfg: Config, st: LiveState<S>, tick: Tick): real {
    PreStrategyPnl(cfg, Log(st.engine, BarRecord(tick.bar.timestamp, tick.bar)), tick)
  }

  function LatchAfter<S>(guard: SupervisorConfig, st: LiveState<S>, t: LiveTick): Latch {
    Marked(guard, st.latch, t.tick.session.date, t.tick.bar, SessionPnl.ReportedPosition(st.engine),
           st.engine.trades, t.killSwitch)
  }

  /** The supervisor's mark; the first breach of a session flattens. */
  function LiveSupervise<S>(cfg: Config, guard: SupervisorConfig, strategy: Strategy<S>, st: LiveState<S>,
                            t: LiveTick): Outcome<S> {
    var latch := LatchAfter(guard, st, t);
    var date := t.tick.session.date;
    if latch.reason.None? || date in st.flattened then Running(st.(latch := latch))
    else
      var halted := Log(st.engine, TransitionRecord(t.tick.bar.timestamp, ExecutionHalt(Breach(latch.reason.value))));
      Synchronize(strategy, st.(latch := latch, flattened := st.flattened + {date},
                                engine := FlattenNow(cfg, halted, t.tick.bar, latch.reason.value)))
  }

  function Stripped(latch: Latch, result: StrategyResult): StrategyResult {
    if latch.reason.Some? then result.(orderIntents := []) else result
  }

  /** The strategy's turn, given the session P&L the bar opened with. */
  function LiveAnswer<S>(cfg: Config, strategy: Strategy<S>, st: LiveState<S>, tick: Tick, pnl: real): Outcome<S> {
    var informed := strategy.onContext(st.strat, pnl, st.engine.dailyLimitHit);
    var (answered, result) := strategy.onBar(informed, tick);
    var applied := ApplyResult(cfg, st.engine, tick, Stripped(st.latch, result));
    var synced := Synchronize(strategy, st.(strat := answered, engine := applied));
    if synced.Halted? then synced
    else Running(synced.state.(engine := NoteProcessed(synced.state.engine, tick)))
  }

  function LiveBar<S>(cfg: Config, guard: SupervisorConfig, strategy: Strategy<S>, st: LiveState<S>,
                      t: LiveTick): Outcome<S> {
    var marked := LiveMark(cfg, strategy, st, t.tick);
    if marked.Halted? then marked
    else
      var supervised := LiveSupervise(cfg, guard, strategy, marked.state, t);
      if supervised.Halted? then supervised
      else LiveAnswer(cfg, strategy, supervised.state, t.tick, LivePnl(cfg, st, t.tick))
  }

  function LiveBars<S>(cfg: Config, guard: SupervisorConfig, strategy: Strategy<S>, s0: S,
                       ticks: seq<LiveTick>): Outcome<S>
    decreases |ticks|
  {
    if |ticks| == 0 then Running(Start(s0))
    else
      var before := LiveBars(cfg, guard, strategy, s0, ticks[..|ticks| - 1]);
      if before.Halted? then before
      else LiveBar(cfg, guard, strategy, before.state, ticks[|ticks| - 1])
  }

  function LiveEnd<S>(cfg: Config, strategy: Strategy<S>, st: LiveState<S>): Outcome<S> {
    Synchronize(strategy, st.(engine := CloseEndOfData(cfg, st.engine)))
  }

  function LastStamp(ticks: seq<LiveTick>): Timestamp {
    if |ticks| == 0 then Blank else ticks[|ticks| - 1].tick.bar.timestamp
  }

  /** A data outage flattens what the broker still holds at the last bar seen. */
  function Outage(cfg: Config, st: EngineState, ticks: seq<LiveTick>): EngineState {
    var logged := Log(st, TransitionRecord(LastStamp(ticks), ExecutionHalt(DataOutageHalt)));
    if |ticks| == 0 || st.position.None? then logged
    else FlattenNow(cfg, logged, ticks[|ticks| - 1].tick.bar, DataOutage)
  }

  /** The whole run: the engine it leaves, the strategy, and why it halted if it did. */
  datatype LiveResult<!S> = LiveResult(engine: EngineState, strat: S, halted: Option<HaltReason>)

  /** How many ticks the loop takes before an invariant halt stops it. */
  function Taken<S>(cfg: Config, guard: SupervisorConfig, strategy: Strategy<S>, s0: S, ticks: seq<LiveTick>): (n: nat)
    ensures n <= |ticks|
    decreases |ticks|
  {
    if |ticks| == 0 then 0
    else if LiveBars(cfg, guard, strategy, s0, ticks[..|ticks| - 1]).Halted? then
      Taken(cfg, guard, strategy, s0, ticks[..|ticks| - 1])
    else |ticks|
  }

  function HaltedResult<S>(o: Outcome<S>, stamp: Timestamp): LiveResult<S>
    requires o.Halted?
  {
    LiveResult(Log(o.state.engine, TransitionRecord(stamp, ExecutionHalt(InvariantViolation))),
               o.state.strat, Some(InvariantHalt(o.error)))
  }

  function LiveRun<S>(cfg: Config, guard: SupervisorConfig, strategy: Strategy<S>, s0: S,
                      ticks: seq<LiveTick>, outage: bool): LiveResult<S>
  {
    var last := LiveBars(cfg, guard, strategy, s0, ticks);
    if last.Halted? then
      HaltedResult(last, LastStamp(ticks[..Taken(cfg, guard, strategy, s0, ticks)]))
    else if outage then
      LiveResult(Outage(cfg, last.state.engine, ticks), last.state.strat, Some(OutageHalt))
    else
      var ended := LiveEnd(cfg, strategy, last.state);
      if ended.Halted? then HaltedResult(ended, LastStamp(ticks))
      else LiveResult(ended.state.engine, ended.state.strat, None)
  }

  /** Once halted, later ticks are never taken. */
  lemma {:induction false} HaltSticks<S>(cfg: Config, guard: SupervisorConfig, strategy: Strategy<S>, s0: S,
                                         ticks: seq<LiveTick>, k: nat)
    requires 0 < k <= |ticks|
    requires LiveBars(cfg, guard, strategy, s0, ticks[..k - 1]).Running?
    requires LiveBars(cfg, guard, strategy, s0, ticks[..k]).Halted?
    ensures LiveBars(cfg, guard, strategy, s0, ticks) == LiveBars(cfg, guard, strategy, s0, ticks[..k])
    ensures Taken(cfg, guard, strategy, s0, ticks) == k
    decreases |ticks|
  {
    hide LiveBar;
    if k == |ticks| {
      assert ticks[..k] == ticks;
    } else {
      var shorter := ticks[..|ticks| - 1];
      assert shorter[..k] == ticks[..k] && shorter[..k - 1] == ticks[..k - 1];
      HaltSticks(cfg, guard, strategy, s0, shorter, k);
    }
  }

  class LiveLoop<S> {
    const config: Config
    const strategy: Strategy<S>
    const ledger: EventLedger
    const broker: PaperBroker
    const supervisor: RiskSupervisor
    const machine: OrderStateMachine
    var strat: S
    var flattened: set<int>

    ghost predicate Valid() {
      broker.Valid() && broker.ledger == ledger && broker.engine.config == config
    }

    ghost function State(): LiveState<S>
      reads this, broker, broker.engine, ledger, supervisor, machine
      requires broker.engine.ledger == ledger
    {
      LiveState(broker.engine.State(), strat, broker.DeskState(), broker.cursor, machine.State(),
                supervisor.State(), flattened)
    }

    constructor (config: Config, guard: SupervisorConfig, strategy: Strategy<S>, s0: S)
      ensures Valid() && State() == Start(s0)
      ensures this.config == config && this.strategy == strategy && supervisor.config == guard
      ensures fresh(ledger) && fresh(broker) && fresh(broker.engine) && fresh(supervisor) && fresh(machine)
    {
      var book := new EventLedger();
      this.config := config;
      this.strategy := strategy;
      ledger := book;
      broker := new PaperBroker(config, book);
      supervisor := new RiskSupervisor(guard);
      machine := new OrderStateMachine();
      strat, flattened := s0, {};
    }

    /** Everything the broker reports, into the shadow. */
    method DrainEvents() returns (error: Option<InvariantError>)
      requires Valid()
      modifies broker, machine
      ensures broker.cursor == |ledger.records|
      ensures
        var (desk, events) := SynthesizeAll(old(broker.DeskState()), Tail(ledger.records, old(broker.cursor)));
        broker.DeskState() == desk && (machine.State(), error) == OnEvents(old(machine.State()), events)
    {
      error := None;
      var events := broker.PollEvents();
      for i := 0 to |events|
        invariant broker.cursor == |ledger.records| && broker.DeskState() == SynthesizeAll(old(broker.DeskState()),
                    Tail(ledger.records, old(broker.cursor))).0
        invariant error == None && (machine.State(), error) == OnEvents(old(machine.State()), events[..i])
      {
        assert events[..i + 1][..i] == events[..i];
        error := machine.Handle(events[i]);
        if error.Some? {
          ErrorSticks(old(machine.State()), events, i + 1);
          return;
        }
      }
      assert events[..|events|] == events;
    }

    /** Drain, cross-check, and pass the feedback on. */
    method SynchronizeBroker() returns (error: Option<InvariantError>)
      requires Valid()
      modifies this`strat, broker, broker.engine, machine
      ensures (if error.Some? then Halted(State(), error.value) else Running(State()))
              == Synchronize(strategy, old(State()))
    {
      hide SynthesizeAll, OnEvents, Tail;
      error := DrainEvents();
      if error.Some? {
        return;
      }
      var truth := broker.Position();
      if !CrossChecked(machine.position, truth) {
        return Some(PositionMismatch);
      }
      var feedback := broker.engine.PollStrategyFeedback();
      strat := Dispatch(strategy, strat, feedback);
      return None;
    }

    method Bar(t: LiveTick) returns (error: Option<InvariantError>)
      requires Valid()
      modifies this, broker, broker.engine, ledger, supervisor, machine
      ensures (if error.Some? then Halted(State(), error.value) else Running(State()))
              == LiveBar(config, supervisor.config, strategy, old(State()), t)
    {
      hide PreStrategy, PreStrategyPnl, ApplyResult, FlattenNow, Synchronize, Marked;
      var tick := t.tick;
      ledger.Append(BarRecord(tick.bar.timestamp, tick.bar));
      var sessionPnl := broker.ProcessBarOpen(tick);
      error := SynchronizeBroker();
      if error.Some? {
        return;
      }
      ghost var marked := State();
      error := Supervise(t);
      if error.Some? {
        return;
      }
      ghost var supervised := State();
      assert LiveSupervise(config, supervisor.config, strategy, marked, t) == Running(supervised);
      error := TakeAnswer(tick, sessionPnl);
    }

    method Supervise(t: LiveTick) returns (error: Option<InvariantError>)
      requires Valid()
      modifies this, broker, broker.engine, ledger, supervisor, machine
      ensures (if error.Some? then Halted(State(), error.value) else Running(State()))
              == LiveSupervise(config, supervisor.config, strategy, old(State()), t)
    {
      hide FlattenNow, Synchronize, Marked;
      var tick := t.tick;
      var position := broker.Position();
      var breach := supervisor.CheckMark(tick.session.date, tick.bar, position, broker.engine.trades, t.killSwitch);
      if breach.Some? && tick.session.date !in flattened {
        flattened := flattened + {tick.session.date};
        ledger.Append(TransitionRecord(tick.bar.timestamp, ExecutionHalt(Breach(breach.value))));
        broker.Flatten(tick.bar, breach.value);
        error := SynchronizeBroker();
      } else {
        error := None;
      }
    }

    method TakeAnswer(tick: Tick, sessionPnl: real) returns (error: Option<InvariantError>)
      requires Valid()
      modifies this, broker, broker.engine, ledger, machine
      ensures (if error.Some? then Halted(State(), error.value) else Running(State()))
              == LiveAnswer(config, strategy, old(State()), tick, sessionPnl)
    {
      hide ApplyResult, Synchronize;
      strat := strategy.onContext(strat, sessionPnl, broker.engine.dailyLimitHit);
      var (answered, result) := strategy.onBar(strat, tick);
      strat := answered;
      if !supervisor.EntriesAllowed() {
        result := result.(orderIntents := []);
      }
      broker.ApplyStrategyResult(tick, result);
      error := SynchronizeBroker();
      if error.None? {
        broker.engine.NoteBarProcessed(tick);
      }
    }

    /** Run to the end of the source, or until a check fails or the source does. */
    method Run(ticks: seq<LiveTick>, outage: bool, ghost s0: S) returns (trades: seq<Trade>, halted: Option<HaltReason>)
      requires Valid() && State() == Start(s0)
      modifies this, broker, broker.engine, ledger, supervisor, machine
      ensures
        var result := LiveRun(config, supervisor.config, strategy, s0, ticks, outage);
        && broker.engine.ledger == ledger
        && broker.engine.State() == result.engine && strat == result.strat
        && trades == result.engine.trades && halted == result.halted
    {
      hide LiveBar, LiveBars, FlattenNow, Synchronize, CloseEndOfData;
      var lastStamp := Blank;
      assert LiveBars(config, supervisor.config, strategy, s0, ticks[..0]) == Running(Start(s0)) by {
        EmptyRun(config, supervisor.config, strategy, s0);
      }
      for i := 0 to |ticks|
        invariant lastStamp == LastStamp(ticks[..i])
        invariant LiveBars(config, supervisor.config, strategy, s0, ticks[..i]) == Running(State())
      {
        lastStamp := ticks[i].tick.bar.timestamp;
        OneMore(config, supervisor.config, strategy, s0, ticks, i);
        var error := Bar(ticks[i]);
        if error.Some? {
          HaltSticks(config, supervisor.config, strategy, s0, ticks, i + 1);
          ledger.Append(TransitionRecord(lastStamp, ExecutionHalt(InvariantViolation)));
          return broker.engine.trades, Some(InvariantHalt(error.value));
        }
      }
      assert ticks[..|ticks|] == ticks;
      if outage {
        ledger.Append(TransitionRecord(lastStamp, ExecutionHalt(DataOutageHalt)));
        if |ticks| > 0 && broker.engine.position.Some? {
          broker.Flatten(ticks[|ticks| - 1].tick.bar, DataOutage);
        }
        return broker.engine.trades, Some(OutageHalt);
      }
      broker.CloseAtEndOfData();
      var error := SynchronizeBroker();
      if error.Some? {
        ledger.Append(TransitionRecord(lastStamp, ExecutionHalt(InvariantViolation)));
        return broker.engine.trades, Some(InvariantHalt(error.value));
      }
      return broker.engine.trades, None;
    }
  }

  lemma {:induction false} EmptyRun<S>(cfg: Config, guard: SupervisorConfig, strategy: Strategy<S>, s0: S)
    ensures LiveBars(cfg, guard, strategy, s0, []) == Running(Start(s0))
  {
  }

  lemma {:induction false} OneMore<S>(cfg: Config, guard: SupervisorConfig, strategy: Strategy<S>, s0: S,
                                      ticks: seq<LiveTick>, i: nat)
    requires i < |ticks|
    requires LiveBars(cfg, guard, strategy, s0, ticks[..i]).Running?
    ensures LiveBars(cfg, guard, strategy, s0, ticks[..i + 1])
            == LiveBar(cfg, guard, strategy, LiveBars(cfg, guard, strategy, s0, ticks[..i]).state, ticks[i])
    ensures LastStamp(ticks[..i + 1]) == ticks[i].tick.bar.timestamp
  {
    hide LiveBar;
    assert ticks[..i + 1][..i] == ticks[..i];
  }

  lemma {:induction false} ErrorSticks(m: Machine, events: seq<BrokerEvent>, k: nat)
    requires k <= |events|
    requires OnEvents(m, events[..k]).1.Some?
    ensures OnEvents(m, events) == OnEvents(m, events[..k])
    decreases |events|
  {
    if k == |events| {
      assert events[..k] == events;
    } else {
      var shorter := events[..|events| - 1];
      assert shorter[..k] == events[..k];
      ErrorSticks(m, shorter, k);
    }
  }
}
