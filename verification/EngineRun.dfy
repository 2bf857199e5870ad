/** Whole runs of the engine, whatever the strategy and the supervisor decide on each bar. */
module EngineRun {
  import opened Prelude
  import opened Market
  import opened Events
  import opened EngineSpec

  /** One bar's inputs: the tick, a supervisor flatten if one fires, and the strategy's answer. */
  datatype ScriptBar = ScriptBar(tick: Tick, breach: Option<Reason>, result: StrategyResult)

  /** A breached supervisor strips the entries from the bar's answer. */
  predicate Admissible(b: ScriptBar) {
    b.breach.Some? ==> b.result.orderIntents == []
  }

  function AfterPreStrategy(cfg: Config, st: EngineState, tick: Tick): EngineState {
    ClearFeedback(PreStrategy(cfg, Log(st, BarRecord(tick.bar.timestamp, tick.bar)), tick))
  }

  function AfterSupervisor(cfg: Config, st: EngineState, bar: Bar, breach: Option<Reason>): EngineState {
    if breach.None? then st
    else
      var halted := Log(st, TransitionRecord(bar.timestamp, ExecutionHalt(Breach(breach.value))));
      ClearFeedback(FlattenNow(cfg, halted, bar, breach.value))
  }

  function AfterStrategy(cfg: Config, st: EngineState, tick: Tick, result: StrategyResult): EngineState {
    NoteProcessed(ClearFeedback(ApplyResult(cfg, st, tick, result)), tick)
  }

  function EngineBar(cfg: Config, st: EngineState, b: ScriptBar): EngineState {
    var marked := AfterPreStrategy(cfg, st, b.tick);
    var supervised := AfterSupervisor(cfg, marked, b.tick.bar, b.breach);
    AfterStrategy(cfg, supervised, b.tick, b.result)
  }

  function Run(cfg: Config, script: seq<ScriptBar>): EngineState
    decreases |script|
  {
    if |script| == 0 then Initial([])
    else EngineBar(cfg, Run(cfg, script[..|script| - 1]), script[|script| - 1])
  }

  function CompleteRun(cfg: Config, script: seq<ScriptBar>): EngineState {
    ClearFeedback(CloseEndOfData(cfg, Run(cfg, script)))
  }
}
