/** The backtest driver: one engine, one strategy, bar by bar. */
module Simulation {
  import opened Market
  import opened Events
  import opened EngineSpec
  import Engine = PositionEngine

  datatype SimState<!S> = SimState(engine: EngineState, strat: S, dates: seq<int>)

  function NoteDate(dates: seq<int>, date: int): seq<int> {
    if |dates| == 0 || dates[|dates| - 1] != date then dates + [date] else dates
  }

  function SimBar<S>(cfg: Config, strategy: Strategy<S>, s: SimState<S>, tick: Tick): SimState<S> {
    var logged := Log(s.engine, BarRecord(tick.bar.timestamp, tick.bar));
    var marked := PreStrategy(cfg, logged, tick);
    var told := Dispatch(strategy, s.strat, marked.feedback);
    var informed := strategy.onContext(told, PreStrategyPnl(cfg, logged, tick), marked.dailyLimitHit);
    var (answered, result) := strategy.onBar(informed, tick);
    var applied := ApplyResult(cfg, ClearFeedback(marked), tick, result);
    SimState(NoteProcessed(ClearFeedback(applied), tick),
             Dispatch(strategy, answered, applied.feedback),
             NoteDate(s.dates, tick.session.date))
  }

  function SimBars<S>(cfg: Config, strategy: Strategy<S>, s0: S, ticks: seq<Tick>): SimState<S>
    decreases |ticks|
  {
    if |ticks| == 0 then SimState(Initial([]), s0, [])
    else SimBar(cfg, strategy, SimBars(cfg, strategy, s0, ticks[..|ticks| - 1]), ticks[|ticks| - 1])
  }

  function SimEnd<S>(cfg: Config, strategy: Strategy<S>, s: SimState<S>): SimState<S> {
    var closed := CloseEndOfData(cfg, s.engine);
    SimState(ClearFeedback(closed), Dispatch(strategy, s.strat, closed.feedback), s.dates)
  }

  function SimRun<S>(cfg: Config, strategy: Strategy<S>, s0: S, ticks: seq<Tick>): SimState<S> {
    SimEnd(cfg, strategy, SimBars(cfg, strategy, s0, ticks))
  }

  /** The days of the bars: that of the first, and of every bar on another day than the one before. */
  function DaysOf(ticks: seq<Tick>): (days: seq<int>)
    ensures ticks != [] ==> days != [] && days[|days| - 1] == ticks[|ticks| - 1].session.date
    decreases |ticks|
  {
    if |ticks| == 0 then []
    else
      var before, last := ticks[..|ticks| - 1], ticks[|ticks| - 1];
      DaysOf(before)
      + if before != [] && before[|before| - 1].session.date == last.session.date then [] else [last.session.date]
  }

  /** A backtest's session dates are the days of its bars, in order, each run of bars of one day counted once. */
  lemma {:induction false} DatesAreTheDays<S>(cfg: Config, strategy: Strategy<S>, s0: S, ticks: seq<Tick>)
    ensures SimBars(cfg, strategy, s0, ticks).dates == DaysOf(ticks)
    ensures SimRun(cfg, strategy, s0, ticks).dates == DaysOf(ticks)
    decreases |ticks|
  {
    hide PreStrategy, PreStrategyPnl, ApplyResult, Dispatch, CloseEndOfData;
    if |ticks| == 0 {
    } else {
      DatesAreTheDays(cfg, strategy, s0, ticks[..|ticks| - 1]);
    }
  }

  class SimulationEngine {
    const config: Config

    constructor (config: Config)
      ensures this.config == config
    {
      this.config := config;
    }

    method Run<S>(ticks: seq<Tick>, strategy: Strategy<S>, s0: S)
      returns (ledger: EventLedger, trades: seq<Trade>, dates: seq<int>, final: S)
      ensures fresh(ledger)
      ensures var end := SimRun(config, strategy, s0, ticks);
              ledger.records == end.engine.ledger && trades == end.engine.trades
              && dates == end.dates && final == end.strat
    {
      ledger := new EventLedger();
      var engine := new Engine.PositionEngine(config, ledger);
      dates := [];
      final := s0;
      for i := 0 to |ticks|
        invariant fresh(engine) && fresh(ledger) && engine.ledger == ledger && engine.config == config
        invariant SimState(engine.State(), final, dates) == SimBars(config, strategy, s0, ticks[..i])
      {
        assert ticks[..i + 1][..i] == ticks[..i];
        final, dates := TakeBar(engine, ticks[i], strategy, final, dates);
      }
      assert ticks[..|ticks|] == ticks;
      engine.CloseAtEndOfData();
      var feedback := engine.PollStrategyFeedback();
      final := Dispatch(strategy, final, feedback);
      trades := engine.trades;
    }

    method NextDates(dates: seq<int>, date: int) returns (dates': seq<int>)
      ensures dates' == NoteDate(dates, date)
    {
      dates' := dates;
      if |dates| == 0 || dates[|dates| - 1] != date {
        dates' := dates + [date];
      }
    }

    method TakeBar<S>(engine: Engine.PositionEngine, tick: Tick, strategy: Strategy<S>, s: S, dates: seq<int>)
      returns (s': S, dates': seq<int>)
      requires engine.config == config
      modifies engine, engine.ledger
      ensures SimState(engine.State(), s', dates')
              == SimBar(config, strategy, SimState(old(engine.State()), s, dates), tick)
    {
      hide PreStrategy, PreStrategyPnl, ApplyResult, NoteDate;
      dates' := NextDates(dates, tick.session.date);
      engine.ledger.Append(BarRecord(tick.bar.timestamp, tick.bar));
      var sessionPnl := engine.ProcessPreStrategy(tick);
      ghost var marked := engine.State();
      var feedback := engine.PollStrategyFeedback();
      s' := Dispatch(strategy, s, feedback);
      s' := strategy.onContext(s', sessionPnl, engine.dailyLimitHit);
      var (answered, result) := strategy.onBar(s', tick);
      engine.ApplyStrategyResult(tick, result);
      assert engine.State() == ApplyResult(config, ClearFeedback(marked), tick, result);
      feedback := engine.PollStrategyFeedback();
      s' := Dispatch(strategy, answered, feedback);
      engine.NoteBarProcessed(tick);
    }
  }
}
