# A verified model of the futures trading core

This project models the trading core of the `full_python` package in Dafny and proves what its parts
promise of each other: the backtest and the live loop over one shared position engine, the hash-linked
journal of order intents, the opening-auction level-retest strategy, and the research code that reads
their results back.

`dafny verify dfyconfig.toml` checks everything.

## How the model is laid out

**The execution core.** `EngineSpec` gives every step of the position engine as a function on its whole
state; `PositionEngine` is the object with those fields, and each of its methods leaves exactly the state
its function describes. `Simulation` is the backtest driver. `LiveLoop`, `PaperBroker`,
`OrderStateMachine` and `Supervisor` are the live loop and the parts it checks against each other, each
an object proved against its functions. `EngineRun` describes whole runs: on every bar a tick, a
supervisor flatten if one fires, and whatever the strategy answers. The theorems about runs hold for every
script of such bars, so for every strategy.

What the engine's functions mean is then told without them. `OrderBook` reads the ledger as an order book and
says which record it allows next; `LedgerDiscipline` proves that every record of every run is allowed, and
that the book shows what the engine has waiting, queued and open. `Deeds` and `LedgerAccounts` give the price,
cause and money of every fill and trade; `ExitDuties` says what has to be closed when; `HaltSafety` and
`SessionPnl` when a session is halted and what its P&L is; `Decisions` that the ledger keeps all the
strategy says, and `Hearing` that the strategy hears all the ledger reports. `BreachVerdict` and
`BreachSafety` say exactly when the supervisor finds a breach and what follows; `BrokerChecks` exactly what
the loop's checks catch. `MicroSteps` and `RunGrammar` show that every ledger any run writes is produced by
six kinds of step, each taken only where its guard allows; the theorems about readers of the ledger (the shadow
position, the attribution of trades, the replay of fills) are inductions over that grammar, and
`LedgerParsing` says exactly which ledgers the attribution can read. `LiveTheorems` proves that the live
loop's own checks never fail, that every backtest is such a run, and that a quiet live run is the backtest.
`EngineReflection` and `SideBlindness` say when the engine has no directional bias.

**The journal.** `Journal` has the record format, the writer and the recovery, as functions and as an
object whose file, records, latest records and counter are updated in place. A file is a sequence of
bytes and a crash leaves any prefix of it. The line encoding, SHA-256 and the whitespace test are
parameters (`Platform`), constrained only by `Lawful`: an encoded record of the current schema holds no line
break, and decoding its line gives it back. `CrashRecovery` is about what survives a crash,
`JournalSoundness` and `IntentLives` about exactly which files are accepted and which records may follow.

**The retest strategy.** `RetestModel` is the classifier and the session state machine;
`RetestStrategyObject` is the object. Told from the bars alone, `RetestHistory` says what the strategy has on
record, `FrozenFeatures` what it judges a session by, and `EntryRules` with `EntryHistory` exactly when it
enters and with which order; `SessionSnapshots` what it reports of all this, and `ClassifierEvidence` what the
classifier decides on. `RetestInvariants` and
`RetestStory` prove what it keeps and what stands behind each of its orders; `RetestReflection` (over
`ClassifierReflection`) that it has no directional bias. `RetestBacktest` and `RetestPositions` run it through
the backtest, where it knows what it holds and leaves in time.

**Algorithms.** `LeastSquares`, `Survivability`, `Reconcile`, `WalkForward`, `LiveBars`, `IntrabarBounds`,
whose report `StopReport` applies to the engine's own runs, and `ExchangeCalendar`, which `HolidayRules` tells
from month, day and day of the week, and Easter from the moon.

Prices and money are exact reals. A session date is an integer; the session a timestamp falls in
(`Session`: date, minute, close, two flags) comes with each tick.

## What the proofs turned up

- `OrderIntentJournal.begin` advances its intent number before the body is digested
  (src/full_python/execution/order_intent_journal.py:184, :191), while recovery recounts the numbers from the
  surviving records (lines 316-319). After a digest failure a reopened journal can hand out an id that is
  already in use, and the file then no longer loads. `CrashRecovery.FailedDigestThenReopenReusesAnId` gives the
  history, `CrashRecovery.NumbersOutrunRecords` says by how much the counter is ahead, and
  `CrashRecovery.FutureReloadsIffNumbersAreUnused` says exactly when nothing that is still to come can spoil the
  file: no record carries a number at or above the counter.
- The missed-entry draw hashes the order's side, so the engine has a directional bias unless the draw happens not
  to care: under a valid configuration all its runs mirror if and only if every order within the size limit is
  selected exactly when its mirrored order is (`EngineReflection.SideBlind`, `SideBlindness.RunsMirrorIffSideBlind`).
  `SideBlindness.ASightedDraw` is a configuration and a two-bar run for which they do not.
- An exit that is queued is gone before the daily-loss check runs, so the check never renames one
  (src/full_python/simulation/position_engine.py:370-371); `LedgerDiscipline.OpenShows` is why.
- A stop update is logged and never applied, so no run moves an open position's stop
  (src/full_python/simulation/position_engine.py:401-406).
- Anchored folds can run off the calendar: a last fold whose nominal end lies past the year 9999 raises, even
  when the data end earlier (`WalkForward.CalendarCanRunOut`). It happens exactly when the last start that fits in
  the calendar comes before the end of the data (`WalkForward.RunsOutMeans`).

## Model

| member | source | states |
|---|---|---|
| Events.EventLedger.Append | src/full_python/events.py:52-70 | the ledger grows by exactly the appended record |
| PositionEngine.PositionEngine.constructor | src/full_python/simulation/position_engine.py:61-94 | a new engine is flat, with nothing pending, over the given ledger |
| PositionEngine.PositionEngine.ProcessPreStrategy | src/full_python/simulation/position_engine.py:121-129 | the seven pre-strategy steps, in order, give exactly the specified state and return the session P&L |
| PositionEngine.PositionEngine.ApplyStrategyResult | src/full_python/simulation/position_engine.py:131-134 | applying an answer gives exactly the specified state |
| PositionEngine.PositionEngine.NoteBarProcessed | src/full_python/simulation/position_engine.py:136-138 | only the remembered bar and session change |
| PositionEngine.PositionEngine.PollStrategyFeedback | src/full_python/simulation/position_engine.py:112-119 | hands out all pending feedback and forgets it, and changes nothing else |
| PositionEngine.PositionEngine.CloseAtEndOfData | src/full_python/simulation/position_engine.py:462-479 | cancels a waiting entry and closes the position at the last close |
| PositionEngine.PositionEngine.Flatten | src/full_python/simulation/position_engine.py:651-671 | the supervisor's flatten: everything pending cancelled, the position closed at the bar's close |
| PositionEngine.PositionEngine.FlattenOnSessionChange | src/full_python/simulation/position_engine.py:147-168 | on a new session date: pendings cancelled, position closed at the previous close, P&L base and halt flag reset |
| PositionEngine.PositionEngine.CheckOpenGapStop | src/full_python/simulation/position_engine.py:170-185 | a live stop the bar opens through is filled at the open |
| PositionEngine.PositionEngine.TakePendingEntry | src/full_python/simulation/position_engine.py:187-216 | a waiting entry ages, is missed, or is opened at the bar's open |
| PositionEngine.PositionEngine.TakePendingExit | src/full_python/simulation/position_engine.py:235-245 | a queued exit is filled at the open, or forgotten when there is no position |
| PositionEngine.PositionEngine.TrackExcursions | src/full_python/simulation/position_engine.py:247-256 | a surviving bar raises MFE and MAE to its own extremes |
| PositionEngine.PositionEngine.CheckIntrabar | src/full_python/simulation/position_engine.py:258-306 | stop before target, with the ambiguity flag and the excursions the exit itself proves |
| PositionEngine.PositionEngine.Backstop | src/full_python/simulation/position_engine.py:308-331 | from the flatten minute on, everything is cancelled and closed |
| PositionEngine.PositionEngine.CheckLossLimit | src/full_python/simulation/position_engine.py:333-372 | the limit halts the session once, cancels the stop and queues the exit; the returned P&L is the session's |
| PositionEngine.PositionEngine.RecordDecisions | src/full_python/simulation/position_engine.py:380-406 | signals, vetoes and stop updates are logged, and nothing else changes |
| PositionEngine.PositionEngine.ApplyAllExits | src/full_python/simulation/position_engine.py:408-426 | exits in order, at the close or queued for the next open |
| PositionEngine.PositionEngine.PlaceIntent | src/full_python/simulation/position_engine.py:428-460 | a vetoed intent is only logged; an admitted one waits or opens, by the fill timing |
| PositionEngine.PositionEngine.Open | src/full_python/simulation/position_engine.py:517-586 | a fill beyond its stop invalidates the entry; any other opens the position and is reported |
| PositionEngine.PositionEngine.Close | src/full_python/simulation/position_engine.py:588-649 | one fill, one trade, cumulative P&L and feedback, and no position left |
| EngineInvariants.EveryReachableStateIsSafe | src/full_python/simulation/position_engine.py:121-460 | after every bar of every run: a waiting entry excludes position and exit, an exit needs a position, an open position has a protective stop or is queued to flatten, sizes stay within the limit, a halted session is on its way out |
| EngineInvariants.MarkKeeps | src/full_python/simulation/position_engine.py:121-129 | the same between the pre-strategy steps and the strategy's answer, with the loss check done |
| EngineInvariants.BarKeeps | src/full_python/simulation/position_engine.py:121-138 | one bar, with any supervisor flatten and any answer, keeps the whole invariant |
| LedgerDiscipline.TheLedgerShowsTheSlots | src/full_python/simulation/position_engine.py:121-460 | after every bar of every run the records alone show the waiting entry and its remaining delay, the queued exit's reason, the open position with its excursions, and the bars |
| LedgerDiscipline.EveryRecordIsAllowed | src/full_python/simulation/position_engine.py:147-671 | every record of every run is one the records before it allow: entries are settled after exactly the delay and filled if the draw selects them, queued exits fill at the next open for their own reason, every trade has one of four causes with its price, excursions and flag, and no bar begins with anything overdue |
| LedgerAccounts.EveryLedgerIsInOrder | src/full_python/simulation/position_engine.py:517-649 | every fill made while flat is the charged entry of the next filled intent, every other one an exit followed by the trade it makes, and there is no other trade |
| LedgerAccounts.EntriesPaySlippage | src/full_python/simulation/position_engine.py:517-586 | each entry fill carries out the next filled intent at the open of its bar (the close under signal-bar fills), worse for its side by exactly the entry slippage and, in the open window, the extra |
| LedgerAccounts.TradesAreTheirFills | src/full_python/simulation/position_engine.py:588-649 | each trade's net result is the signed difference of its two ledger fills times point value and quantity, less the commission |
| LedgerAccounts.ExitsHaveTheirCause | src/full_python/simulation/position_engine.py:147-331 | while strategy and supervisor use reasons of their own, each exit for an engine's reason is made on a bar that shows that event, at its price: a session flatten on a bar in the window, at its close |
| ExitDuties.WindowBarsEndIdle | src/full_python/simulation/position_engine.py:308-331 | no bar in the flatten window ends with a position, a waiting entry or a queued exit, whatever strategy and supervisor do |
| ExitDuties.SurvivorsMetNoExit | src/full_python/simulation/position_engine.py:147-331 | a position still open after a mark met no stop, no target, no flatten window, and nothing due at the open |
| ExitDuties.UntouchedIsFlattened | src/full_python/simulation/position_engine.py:308-331 | a position that meets nothing else on a bar in the window is closed at its close, less exit slippage, as the session's flatten |
| Decisions.NothingSaidIsLost | src/full_python/simulation/position_engine.py:374-460 | the ledger of every run quotes the strategy in full: each signal, rejection, veto, stop update and intent once, in order, and nothing else |
| RiskManager.VetoFor | src/full_python/risk/risk_manager.py:28-86 | an intent passes the gate if and only if side, size, slot, halt flag, session window and stop are all in order |
| RiskManager.FirstObjectionIsGiven | src/full_python/risk/risk_manager.py:54-86 | a veto gives a reason if and only if that check objects and none before it in the gate does |
| LedgerDiscipline.GateIsOpenIff | src/full_python/simulation/position_engine.py:481-515 | the engine lets an intent through if and only if its own slots, halt flag and configuration and the session and stop allow it |
| RunGrammar.EveryRunIsGrammatical | src/full_python/simulation/position_engine.py:374-649 | every run's ledger, trades and position are produced by legal steps only: log, cancel, accept, drop, open, close |
| RunGrammar.EveryCompleteRunIsGrammatical | src/full_python/simulation/position_engine.py:140-145 | the same for runs closed at the end of the data |
| HaltSafety.EntriesAreFilledIntents | src/full_python/simulation/position_engine.py:517-649 | replaying a ledger's fills alternates entries and exits and counts exactly the intents the engine filled |
| HaltSafety.HaltedAnswerStaysOut | src/full_python/simulation/position_engine.py:481-503 | with the halt flag set, no intent opens or queues an entry, on the very bar of the halt too |
| HaltSafety.HaltedBarStaysOut | src/full_python/simulation/position_engine.py:187-216 | a bar of a halted session ends flat and fills no entry, although the pending-entry step never looks at the flag |
| HaltSafety.HaltedSessionStaysOut | src/full_python/simulation/position_engine.py:333-372 | once the limit is hit, the ledger shows no entry fill for the rest of the session, for any entry delay and fill timing |
| HaltSafety.HaltedIffLimitMet | src/full_python/simulation/position_engine.py:333-372 | a session is halted if and only if some bar of it so far found its P&L at the limit or below |
| BreachSafety.BreachedSessionStaysOut | src/full_python/execution/live_loop.py:70-99 | from the bar on which a session's first breach is found, the account is flat with nothing waiting after every bar of that session, and the ledger shows no entry fill after the mark that found it |
| BreachVerdict.BreachIffObjection | src/full_python/execution/supervisor.py:52-101 | on every live run with sessions in order, a bar whose session was not yet latched ends latched if and only if the switch is set, more is held than allowed, or the engine's own session P&L is at or below the stop, and for the first of these that holds |
| BreachVerdict.ObjectionsEndFlat | src/full_python/execution/live_loop.py:70-99 | after every bar with such an objection, or with one earlier in its session, the account is flat with nothing waiting |
| SessionPnl.IncrementalPnlIsRecomputedPnl | src/full_python/simulation/position_engine.py:333-372 | the session P&L returned on any bar of any run is the sum over that session's trades plus the mark of the open position, and cumulative P&L is the sum of all trades |
| SessionPnl.SupervisorNeverFiresFirst | src/full_python/execution/supervisor.py:72-101 | a supervisor stop no tighter than the engine's limit fires only when the engine has halted already |
| SessionPnl.FlatteningRealizesTheMark | src/full_python/simulation/position_engine.py:333-372 | closing at the mark realises exactly the session P&L the mark showed, less exit slippage and commission |
| StopHistory.ExcursionsAreBatchExtremes | src/full_python/simulation/position_engine.py:247-256 | in every reachable state MFE and MAE are the extremes over exactly the bars the position survived |
| StopHistory.StoppedMfeIsBounded | src/full_python/simulation/position_engine.py:258-306 | for every stop-out of every run and every price path inside the bar, the true MFE lies in the reported interval, and is the recorded one when the exit is not flagged |
| StopHistory.EveryBoundIsAttained | src/full_python/research/intrabar_bounds.py:81-95 | the interval is tight: each of its values is the true MFE of some path inside the bar |
| EngineReflection.PreStrategyMirrors | src/full_python/simulation/position_engine.py:121-129 | reflected market, mirrored state, the very same session P&L |
| EngineReflection.ApplyMirrors | src/full_python/simulation/position_engine.py:374-460 | a mirrored answer leaves the mirrored state, vetoes included |
| EngineReflection.RunsMirror | src/full_python/simulation/position_engine.py:121-460 | over whole runs the reflected script gives the mirrored ledger and state, whenever the draw is blind to the side |
| EngineReflection.CompleteRunsMirror | src/full_python/simulation/position_engine.py:462-649 | every trade of the reflected run has the other side and the same P&L, MFE and MAE |
| EngineReflection.DueEntryMirrorsIff | src/full_python/simulation/position_engine.py:187-233 | a due entry is settled as its mirrored entry is, mirrored, if and only if the draw gives both the same answer |
| SideBlindness.ProbeFillsIffSelected | src/full_python/simulation/position_engine.py:187-233 | for every admissible order there is a run that fills it if and only if the draw selects it |
| SideBlindness.RunsMirrorIffSideBlind | src/full_python/simulation/position_engine.py:218-233 | under a valid configuration all runs mirror if and only if the draw selects every order exactly when it selects the mirrored one |
| SideBlindness.ASightedDraw | src/full_python/simulation/position_engine.py:218-233 | a valid configuration and a run of two bars that does not mirror: the buy is filled, the reflected sell is missed |
| Supervisor.RiskSupervisor.CheckMark | src/full_python/execution/supervisor.py:52-70 | the latch: set on a breach, answered until the session changes, then cleared |
| OrderStateMachine.OrderStateMachine.Handle | src/full_python/execution/state_machine.py:42-53 | acknowledgements change nothing, a partial fill is refused, a fill is taken as specified |
| OrderStateMachine.OrderStateMachine.HandleFill | src/full_python/execution/state_machine.py:55-78 | a fill opens when flat and closes when it matches; a repeated id, a second entry and a partial close are refused |
| OrderStateMachine.NoOrderFillsTwice | src/full_python/execution/state_machine.py:55-62 | if a sequence of events is accepted, its filled ids are pairwise different and are the ids on record |
| BrokerChecks.TakenIffAcceptable | src/full_python/execution/state_machine.py:42-78 | reports are taken if and only if none is partial, no order fills twice, and every second fill closes the one before it in full; then the machine holds what they leave open |
| BrokerChecks.WhatTheChecksCatch | src/full_python/execution/live_loop.py:140-162 | whatever ledger and position an engine has, a synchronisation lets it pass if and only if its reports are in that order and leave open what it holds |
| BrokerChecks.ReportsAreTheLedgers | src/full_python/execution/paper_broker.py:55-81 | what the broker reports of any ledger: each intent acknowledged once, numbered from one, and each fill once, in order, as it was made |
| PaperBroker.PaperBroker.PollEvents | src/full_python/execution/paper_broker.py:55-81 | the loop over the ledger's tail synthesises exactly the specified events and advances cursor, counters and open id |
| PaperBroker.SynthesizeConcat | src/full_python/execution/paper_broker.py:55-81 | polling in several rounds gives the events of polling once |
| PaperBroker.PaperBroker.ProcessBarOpen | src/full_python/execution/paper_broker.py:38-39 | delegates to the engine, broker counters untouched |
| PaperBroker.PaperBroker.Flatten | src/full_python/execution/paper_broker.py:52-53 | delegates to the engine, broker counters untouched |
| Shadow.StepAgrees | src/full_python/execution/live_loop.py:144-162 | each kind of engine step keeps the shadow in agreement, missed, invalidated and cancelled entries with their stale id included |
| Shadow.StepsAgree | src/full_python/execution/live_loop.py:144-162 | agreement survives every legal sequence of steps |
| Simulation.SimulationEngine.TakeBar | src/full_python/simulation/engine.py:50-69 | one turn of the bar loop is one bar of the specification, strategy and dates included |
| Simulation.SimulationEngine.Run | src/full_python/simulation/engine.py:39-77 | the backtest leaves the specified ledger, trades, dates and strategy state |
| Hearing.BacktestsHear | src/full_python/simulation/engine.py:50-72 | what a recording strategy holds after a backtest is read off ledger and ticks: every entry fill and closed trade in ledger order, those of a bar's first steps before it is asked, those of its answer before the next bar |
| Hearing.LiveRunsHear | src/full_python/execution/live_loop.py:63-105 | the same for live runs, with what a supervisor flatten brings in between |
| Hearing.EverythingIsHeardOnce | src/full_python/execution/strategy_feedback.py:10-19 | over a complete run the strategy hears exactly the entry fills of the filled intents and exactly the trades, each once |
| Simulation.DatesAreTheDays | src/full_python/simulation/engine.py:50-54 | the session dates are the days of the bars in order, each run of bars of one day once |
| LiveLoop.LiveLoop.Bar | src/full_python/execution/live_loop.py:63-102 | one turn of the live loop, with its three synchronisations, is one live bar of the specification |
| LiveLoop.LiveLoop.Supervise | src/full_python/execution/live_loop.py:75-89 | a breach is logged and flattened once a session |
| LiveLoop.LiveLoop.DrainEvents | src/full_python/execution/live_loop.py:140-142 | every event of the poll goes through the shadow in order, up to the first refusal |
| LiveLoop.LiveLoop.SynchronizeBroker | src/full_python/execution/live_loop.py:144-162 | drain, cross-check and feedback, or the first invariant error |
| LiveLoop.LiveLoop.Run | src/full_python/execution/live_loop.py:57-138 | the whole loop, invariant halts and data outages included, ends as specified |
| LiveTheorems.LiveBarsNeverHalt | src/full_python/execution/live_loop.py:57-138 | whatever strategy, supervisor and market do, no check of the loop ever fails and the engine plays a legal run |
| LiveTheorems.ShadowAgreement | src/full_python/execution/live_loop.py:151-162 | after every bar the shadow's side, quantity and entry price are the engine's, and no order id has filled twice |
| LiveTheorems.LiveRunCompletes | src/full_python/execution/live_loop.py:104-105 | a live run that sees all its bars ends without a halt, as the complete run of its script |
| LiveTheorems.OutageLeavesNothingOpen | src/full_python/execution/live_loop.py:120-135 | a data outage is put on record and leaves no position: what was held is closed at the last bar seen, as the outage's |
| LiveTheorems.LiveRunIsTheBacktest | src/full_python/execution/live_loop.py:57-138 | while the supervisor is silent and the source does not fail, the live loop leaves the backtest's ledger, trades and strategy state, for every strategy |
| LiveTheorems.SlackGuardNeverBreaches | src/full_python/execution/supervisor.py:72-101 | a supervisor without loss stop and switch, with room for every position, is silent on every run |
| LiveTheorems.BacktestIsARun | src/full_python/simulation/engine.py:39-77 | every backtest is a run of the engine, so all theorems about runs hold of it |
| Attribution.EntryAttributions | src/full_python/research/opening_auction_retest.py:58-132 | the loop over the ledger returns exactly the specified parse, or its first error |
| LedgerParsing.ParsesIffReadable | src/full_python/research/opening_auction_retest.py:58-132 | a ledger parses if and only if each intent comes fully priced while none waits and each entry fill fits the one that waits; then each fill is read with that intent |
| Attribution.IndexEntries | src/full_python/research/opening_auction_retest.py:135-144 | the index of entries, or the duplicate-entry error |
| Attribution.AttributeRetestTrades | src/full_python/research/opening_auction_retest.py:135-159 | succeeds if and only if the ledger parses, entries and trades are as many, no key repeats on either side, and each trade matches the entry under its key, in whatever order; then each trade carries that entry, and otherwise a duplicate key or a leftover entry is named |
| Attribution.Pops | src/full_python/research/opening_auction_retest.py:145-157 | popping goes through if and only if each trade has an entry of its own, and takes out just those |
| LedgerRoundTrip.CompleteRunsAttribute | src/full_python/research/opening_auction_retest.py:58-159 | for distinct timestamps, retest intents and exits with their own reasons, the ledger of every complete run parses and each trade is paired with the very intent that opened it |
| LedgerRoundTrip.AttributeRun | src/full_python/research/opening_auction_retest.py:135-159 | run, then attribute: never an error, one attribution per trade, each traced to its intent |
| Journal.OrderIntentJournal.constructor | src/full_python/execution/order_intent_journal.py:129-155 | an empty journal, numbering from 1 |
| Journal.OrderIntentJournal.Open | src/full_python/execution/order_intent_journal.py:129-155 | opening gives the recovered state of an existing file, an empty journal for a new one, or the specified error |
| Journal.OrderIntentJournal.Reload | src/full_python/execution/order_intent_journal.py:293-319 | the recovery loop: the specified records, latest records, truncation and counter, or the specified error |
| Journal.OrderIntentJournal.TakeLine | src/full_python/execution/order_intent_journal.py:300-314 | one line: validated and taken, or tolerated only as a torn last line |
| Journal.OrderIntentJournal.BeginIntent | src/full_python/execution/order_intent_journal.py:169-195 | the specified record is appended, or the specified error raised; the counter moves even when the digest fails |
| Journal.OrderIntentJournal.Transition | src/full_python/execution/order_intent_journal.py:197-226 | only a legal transition of a known intent is appended |
| Journal.OrderIntentJournal.Write | src/full_python/execution/order_intent_journal.py:276-280 | file, records and latest record grow together |
| CrashRecovery.EveryPrefixRecovers | src/full_python/execution/order_intent_journal.py:293-319 | every byte prefix of a journal's file, of whatever schema versions, loads, is cut to its whole records, and gives their records, latest records and next number |
| CrashRecovery.WholeIsLongest | src/full_python/execution/order_intent_journal.py:293-319 | the whole lines are the longest run that fits in the prefix |
| CrashRecovery.IntentIdsAreDistinct | src/full_python/execution/order_intent_journal.py:183-185 | different numbers give different ids, past eight digits too |
| CrashRecovery.HistoriesKeep | src/full_python/execution/order_intent_journal.py:169-226 | while no number ahead of the counter is taken, every history of calls, failed ones included, leaves a valid file that the books match, and no number taken ahead |
| CrashRecovery.NumbersOutrunRecords | src/full_python/execution/order_intent_journal.py:183-191 | from a new or reopened journal on, the counter is ahead of the records by exactly the digest failures |
| CrashRecovery.CrashRefinesAnEarlierWriter | src/full_python/execution/order_intent_journal.py:293-319 | after every history of a new or reopened journal and every crash in what it wrote, reopening gives the writer as it was when it had written the surviving records, its counter reduced by the digest failures |
| CrashRecovery.AppendingAfterACrashRecovers | src/full_python/execution/order_intent_journal.py:276-319 | without a digest failure the reopened journal is the earlier writer itself, and whatever is appended then loads again |
| CrashRecovery.BeginReloadsIffIdIsFresh | src/full_python/execution/order_intent_journal.py:169-195 | on any reopened journal the next begin leaves a file that loads if and only if its id is not in use |
| CrashRecovery.FutureReloadsIffNumbersAreUnused | src/full_python/execution/order_intent_journal.py:169-226 | every later history leaves a file that loads if and only if no record carries a number at or above the counter |
| CrashRecovery.FailedDigestThenReopenReusesAnId | src/full_python/execution/order_intent_journal.py:184-195 | a concrete history after which the reopened journal reuses an id and the file stops loading |
| JournalSoundness.AcceptedFilesAreValid | src/full_python/execution/order_intent_journal.py:321-379 | whatever bytes recovery accepts, what it keeps is a prefix made of the file's own lines, and its books are in order, ready to be written on |
| JournalSoundness.GoingOnIsSafeIffNumbersAreUnused | src/full_python/execution/order_intent_journal.py:293-319 | going on from any accepted file: nothing that follows can spoil it if and only if no record carries a number at or above the recounted one |
| JournalSoundness.RecoveryIsIdempotent | src/full_python/execution/order_intent_journal.py:293-319 | recovering the recovered file changes nothing |
| JournalSoundness.FourRecordsAtMost | src/full_python/execution/order_intent_journal.py:387-405 | an intent's records and the rank of its state never exceed four together |
| JournalSoundness.AcceptedFilesAreSound | src/full_python/execution/order_intent_journal.py:321-405 | contiguous numbers, an unbroken chain, one identity and one legal life per intent, and at most four records for each |
| IntentLives.LivesGoOn | src/full_python/execution/order_intent_journal.py:387-405 | the transition table allows exactly what goes on in one of twelve listed lives |
| IntentLives.ValidIffSound | src/full_python/execution/order_intent_journal.py:321-379 | a log is valid if and only if every record has its version, id, place in the chain and hash, its intent is in one of the twelve lives with one identity, and an acknowledgment names an order |
| IntentLives.AdvancesIffALife | src/full_python/execution/order_intent_journal.py:197-226 | a transition is accepted if and only if it takes the intent one step on in a life and an acknowledgment names an order; the record has the intent's identity and at most 256 characters of detail |
| IntentLives.BeginsIffGood | src/full_python/execution/order_intent_journal.py:169-195 | a new intent is accepted if and only if role, numbers and client id are good and the body can be digested |
| IntentLives.NumbersReadBack | src/full_python/execution/order_intent_journal.py:183-185 | the digits of an id read back as its number, eight of them and no more than needed |
| RetestModel.ChosenCrossedReference | src/full_python/strategy/opening_auction_retest.py:137-188 | the chosen level is one of the two that the opening crossed, no crossed level lies outside it, and its label names the crossed levels at that price |
| RetestModel.Classify | src/full_python/strategy/opening_auction_retest.py:191-330 | a tradable classification has complete history, a positive daily range, a side and a level |
| ClassifierEvidence.TheOnlyEvidenceDecides | src/full_python/strategy/opening_auction_retest.py:252-330 | with the evidence written as distances from the outermost traded-through level and places among the last closes, an opening that can be judged is traded if and only if exactly one of the four pieces holds, and then with an accepted break or against a rejected one, at that level and under its name; none and several are refused for that reason |
| ClassifierEvidence.UnreadyIsRefused | src/full_python/strategy/opening_auction_retest.py:196-241 | an opening that cannot be judged is refused, and for the first thing amiss: each of the six reasons is given exactly when its own check is the first to fail |
| RetestStrategyObject.MeasurePath | src/full_python/strategy/opening_auction_retest.py:561-568 | the loop sums the distance walked through the closes |
| RetestStrategyObject.OpeningAuctionRetestStrategy.TakeFill | src/full_python/strategy/opening_auction_retest.py:365-383 | an entry fill puts the strategy in position; any other is ignored |
| RetestStrategyObject.OpeningAuctionRetestStrategy.TakeClosedTrade | src/full_python/strategy/opening_auction_retest.py:385-401 | a closed trade is noted and ends the session's trading |
| RetestStrategyObject.OpeningAuctionRetestStrategy.FeaturesNow | src/full_python/strategy/opening_auction_retest.py:543-634 | the features are the specified ones of the memory |
| RetestStrategyObject.OpeningAuctionRetestStrategy.Freeze | src/full_python/strategy/opening_auction_retest.py:636-659 | the classification is frozen once, with its snapshot and note |
| RetestStrategyObject.OpeningAuctionRetestStrategy.Finalize | src/full_python/strategy/opening_auction_retest.py:462-494 | the ended session feeds the histories and the prior levels |
| RetestStrategyObject.OpeningAuctionRetestStrategy.Start | src/full_python/strategy/opening_auction_retest.py:496-509 | a new session: finalised, reset, and its roll transition noted |
| RetestStrategyObject.OpeningAuctionRetestStrategy.SeekRetest | src/full_python/strategy/opening_auction_retest.py:762-817 | no contact, a failed hold, or an armed setup |
| RetestStrategyObject.OpeningAuctionRetestStrategy.SeekConfirmation | src/full_python/strategy/opening_auction_retest.py:819-888 | invalidated, expired, waiting, rejected or ordered, as specified |
| RetestStrategyObject.OpeningAuctionRetestStrategy.AcceptEntry | src/full_python/strategy/opening_auction_retest.py:698-760 | the order with its metadata, regime and reason included, and the entry pending |
| RetestStrategyObject.OpeningAuctionRetestStrategy.SignalTimeExit | src/full_python/strategy/opening_auction_retest.py:890-907 | one time exit, inside its window, while a position is open |
| RetestStrategyObject.OpeningAuctionRetestStrategy.TakeBar | src/full_python/strategy/opening_auction_retest.py:909-988 | one bar leaves exactly the specified memory and answer |
| RetestHistory.EveryHistoryIsRecorded | src/full_python/strategy/opening_auction_retest.py:462-541 | after every history prior levels are the highest high, lowest low and last close of the latest earlier session with regular hours; night, opening and average figures are those of today's own bars; range and volume histories are the last of all earlier sessions' |
| FrozenFeatures.EveryJudgementIsOfItsOpening | src/full_python/strategy/opening_auction_retest.py:543-659 | a session is judged if and only if a bar has ended its observation, and then by features each of which describes the bars up to the first such one |
| SessionSnapshots.EverySessionIsSnapped | src/full_python/strategy/opening_auction_retest.py:636-659 | after every history there is one snapshot for each session judged, in order, whose features describe the bars it was judged on, or all bars of a session that ended unjudged, with the classifier's verdict on them |
| EntryHistory.EntryStateIsByTheRules | src/full_python/strategy/opening_auction_retest.py:762-995 | in every session left to itself the strategy waits exactly while nothing has ended the wait, and is armed exactly while the first bar to touch has held and nothing since has settled the matter |
| EntryHistory.OrdersAreByTheRules | src/full_python/strategy/opening_auction_retest.py:698-888 | such a session orders if and only if a standing first retest and the bar trigger it: level, average price, margins, count, window and risk; and then exactly the order with that side, size, branch, stop and target |
| SessionSnapshots.OrdersWaitForTwoBars | src/full_python/strategy/opening_auction_retest.py:916-921 | an order nothing is heard of waits for two more bars of its session and is given up on the third |
| SessionSnapshots.TheTrailIsKept | src/full_python/strategy/opening_auction_retest.py:365-401 | the diagnostics of every history keep each entry fill, closed trade, time exit and order, once and in order |
| RetestInvariants.EveryMemoryIsReady | src/full_python/strategy/opening_auction_retest.py:819-826 | after every history of bars and feedback, a seeking strategy has its classification, level, range and retest bar, so no assertion of the entry logic can fail |
| RetestInvariants.EveryOrderIsSound | src/full_python/strategy/opening_auction_retest.py:864-888 | every bar of every history orders at most once, with the stop on the losing side and the risk within its band |
| RetestInvariants.OneEntryPerSession | src/full_python/strategy/opening_auction_retest.py:733-736 | within a session the strategy orders at most once, whatever becomes of the order |
| RetestStory.WaitingStory | src/full_python/strategy/opening_auction_retest.py:762-776 | while it waits, no bar it could act on since the classification has touched the level |
| RetestStory.ArmedStory | src/full_python/strategy/opening_auction_retest.py:801-806 | an armed setup rests on the first bar to touch the level, which held it; range, extreme and count are those of the bars since |
| RetestStory.RoundsToGrid | src/full_python/strategy/opening_auction_retest.py:661-667 | rounding lands on the tick grid, on the named side, less than a tick away up to the epsilon |
| RetestStory.EveryOrderHasItsStory | src/full_python/strategy/opening_auction_retest.py:819-888 | behind every order stand the first retest that held and a later bar that confirmed, and the stop hangs on the worst price from the one to the other |
| ClassifierReflection.ChosenMirrors | src/full_python/strategy/opening_auction_retest.py:137-188 | reflection exchanges the chosen high and low levels |
| ClassifierReflection.ClassifyMirrors | src/full_python/strategy/opening_auction_retest.py:191-330 | reflected features give the reflected classification |
| RetestReflection.FeaturesMirror | src/full_python/strategy/opening_auction_retest.py:543-634 | a reflected memory gives the reflected features |
| RetestReflection.RoundMirrors | src/full_python/strategy/opening_auction_retest.py:661-667 | rounding up is the reflection of rounding down |
| RetestReflection.BarMirrors | src/full_python/strategy/opening_auction_retest.py:909-988 | one reflected bar: the mirrored memory and the mirrored answer |
| RetestReflection.HistoriesMirror | src/full_python/strategy/opening_auction_retest.py:333-988 | over whole multi-session histories, reflected bars and fills leave the mirrored memory, diagnostics included |
| RetestReflection.DecisionsMirror | src/full_python/strategy/opening_auction_retest.py:909-988 | bar by bar the decisions are mirrored: the other side, reflected stop and target |
| RetestBacktest.BacktestsMirror | src/full_python/simulation/engine.py:39-77 | the backtest of the strategy on the reflected market is the reflected backtest, trade by trade with the same money |
| RetestPositions.BacktestsAgree | src/full_python/strategy/opening_auction_retest.py:365-401 | after every bar of every backtest the strategy takes for its position exactly the engine's, with the branch of the filled intent, and has asked to leave only if an exit is queued |
| RetestPositions.ItLeavesWhenTimeIsUp | src/full_python/strategy/opening_auction_retest.py:890-907 | on every bar of every backtest it asks to leave if and only if something is held and the time is up, for the reason of its branch |
| RetestPositions.NothingOutstaysItsTime | src/full_python/strategy/opening_auction_retest.py:890-907 | nothing held on a bar when the time is up is still held once the next bar has opened |
| RetestBacktest.BacktestsAttribute | src/full_python/research/opening_auction_retest.py:135-159 | every backtest of the strategy over distinct timestamps writes a ledger that attributes each trade to its intent |
| LeastSquares.ClosedForms | src/full_python/indicators/streaming.py:177-178 | the two closed forms are the sums of the indices and of their squares |
| LeastSquares.DenominatorIsPositive | src/full_python/indicators/streaming.py:179-179 | for every length of at least 2 the divisor is positive |
| LeastSquares.NormalEquations | src/full_python/indicators/streaming.py:186-189 | slope and intercept solve both normal equations |
| LeastSquares.FittedIsTheLeastSquaresLine | src/full_python/indicators/streaming.py:188-190 | no line has a smaller squared error, and only the fitted one has the same |
| LeastSquares.LinregEndpoint.Create | src/full_python/indicators/streaming.py:171-179 | an indicator for every length of at least 2, and none for a shorter one |
| LeastSquares.LinregEndpoint.Update | src/full_python/indicators/streaming.py:181-190 | for every stream: nothing while warming up, then the last point of that line through the last values |
| Ranking.Ranked | src/full_python/reporting/survivability.py:64-64 | a descending rearrangement of the same values |
| Survivability.TopOfInsert | src/full_python/reporting/survivability.py:66-67 | with one more value the best k are the better of leaving it out and putting it in |
| Survivability.RemovalIsBounded | src/full_python/reporting/survivability.py:66-67 | no removal of at most k trades leaves less than `without_top(k)` |
| Survivability.SomeRemovalIsWorst | src/full_python/reporting/survivability.py:66-67 | some removal of at most k trades leaves exactly that |
| Survivability.MaxDrawdown | src/full_python/reporting/survivability.py:46-49 | the one-pass drawdown is the least of S_j - S_i over all i up to j |
| Survivability.MaxLossStreak | src/full_python/reporting/survivability.py:50-54 | the length of the longest unbroken run of losses |
| Survivability.SidesMakeTheNet | src/full_python/reporting/survivability.py:55-58 | long and short results add up to the net |
| Survivability.BuildReport | src/full_python/reporting/survivability.py:37-84 | drawdown, streak, ranked removals, sides and ratios of the report are what they are named for, empty lists included |
| Reconcile.Compatible | src/full_python/reconcile.py:227-233 | the same side, and the entries at most sixty seconds apart for each minute of tolerance, either way |
| Reconcile.FindNearest | src/full_python/reconcile.py:224-236 | the scan finds the first of the nearest compatible trades, or there is none |
| Reconcile.NearestIsItsOwnFirst | src/full_python/reconcile.py:248-248 | removing the first equal trade removes the one that was found |
| Reconcile.TakeTrade | src/full_python/reconcile.py:223-279 | one turn keeps conservation, compatibility and maximality |
| Reconcile.Run | src/full_python/reconcile.py:213-298 | every trade of both lists is used exactly once, pairs are compatible, and no missing trade is compatible with any extra one |
| WalkForward.AddMonths | src/full_python/research/walk_forward.py:15-21 | a later valid day in exactly that month, clamped to its end, or past the calendar |
| WalkForward.BuildAnchoredFolds | src/full_python/research/walk_forward.py:51-78 | the loop ends; its folds tile the span with no gap or overlap, each as long as asked and cut only at the end of the data; and which error it ends in, if any, is known from the arguments alone |
| WalkForward.RunsOutMeans | src/full_python/research/walk_forward.py:67-69 | some fold in the span has no nominal end in the calendar if and only if the last start that fits in the calendar comes before the end of the data |
| WalkForward.CalendarCanRunOut | src/full_python/research/walk_forward.py:68-68 | a valid call on which the next fold would end past the last date there is |
| WalkForward.SummarizeFold | src/full_python/research/walk_forward.py:97-111 | a fold reports exactly the trades entered in it, and its ratios are what they are named for |
| WalkForward.SummarizeWalkForward | src/full_python/research/walk_forward.py:92-112 | one such report for every fold, in order |
| WalkForward.FoldsConserve | src/full_python/research/walk_forward.py:92-112 | counts and net results of the folds sum to those of all trades in the span |
| WalkForward.SelectedByOrdinal | src/full_python/research/walk_forward.py:96-100 | a fold takes the trades entered from its first day up to, not including, its last, as days are numbered |
| WalkForward.Study | src/full_python/research/walk_forward.py:51-112 | fold, then report: it fails exactly as the fold builder does, and no trade of the span is lost or counted twice |
| ExchangeCalendar.EasterIsASpringSunday | src/full_python/data/exchange_calendar.py:78-91 | for every year a real date from March 22 to April 25, and a Sunday |
| ExchangeCalendar.GoodFridayIsAFriday | src/full_python/data/exchange_calendar.py:94-95 | always a Friday |
| ExchangeCalendar.NthWeekdayIsThat | src/full_python/data/exchange_calendar.py:44-47 | the right weekday, in the n-th week of its month |
| ExchangeCalendar.LastWeekdayIsThat | src/full_python/data/exchange_calendar.py:50-55 | the right weekday, in the last seven days of its month, December included |
| ExchangeCalendar.ObservedIsAWorkday | src/full_python/data/exchange_calendar.py:58-75 | an observed holiday is a working day next to or on its date |
| ExchangeCalendar.ClosuresNeverMeetAbbreviatedSessions | src/full_python/data/exchange_calendar.py:103-128 | whatever the years, no day is both |
| ExchangeCalendar.HolidaysStayInTheirYear | src/full_python/data/exchange_calendar.py:150-163 | looking a date up in its own year's rules misses no other year's |
| ExchangeCalendar.CloseMeans | src/full_python/data/exchange_calendar.py:150-163 | a date's close does not depend on the order of the tests |
| HolidayRules.EasterFollowsTheFullMoon | src/full_python/data/exchange_calendar.py:78-91 | for every year the algorithm's date is the first Sunday after the full moon of the golden number and the epact |
| HolidayRules.EveryCloseIsByTheRules | src/full_python/data/exchange_calendar.py:98-163 | for every day there is: no session on weekends, Good Friday, the observed Christmas and New Year, and the listed closure; 13:00 on the seven holidays; 13:15 on the three eves; 16:00 otherwise |
| Dates.OrdinalsAreTheCalendar | src/full_python/data/exchange_calendar.py:44-75 | counting days loses nothing: ordinals order and name valid days exactly as the calendar does |
| LiveBars.LiveBarSource.Next | src/full_python/livedata/live_bar_source.py:73-125 | rounds are passed over while nothing comes for an unarmed minute; the first other round gives its one warranted outcome, and an acceptable bar that leaves no armed gap is emitted |
| LiveBars.LiveBarSource.OneOutcome | src/full_python/livedata/live_bar_source.py:73-125 | every round warrants exactly one outcome |
| LiveBars.LiveBarSource.Drain | src/full_python/livedata/live_bar_source.py:184-189 | the emitted times strictly increase |
| IntrabarBounds.IndexBars | src/full_python/research/intrabar_bounds.py:57-65 | files the needed bars if and only if no two have one key, and otherwise names the first bar met twice |
| IntrabarBounds.BoundTrades | src/full_python/research/intrabar_bounds.py:73-106 | one interval per ambiguous trade from its own exit bar, totals and threshold counts, or the first missing bar |
| IntrabarBounds.WidthsMakeTheDifference | src/full_python/research/intrabar_bounds.py:86-91 | the total uncertainty is the difference of the two other totals |
| IntrabarBounds.BuildReport | src/full_python/research/intrabar_bounds.py:40-124 | succeeds if and only if every ambiguous trade has exactly one exit bar, and otherwise names the first bar met twice or else the first trade without one; intervals, totals, median, maximum and counts are what they are named for |
| IntrabarBounds.IntervalHoldsEveryPath | src/full_python/research/intrabar_bounds.py:81-95 | the interval holds every path's true excursion, and zero width means it is exact |
| IntrabarBounds.ResolvedMeansResolved | src/full_python/research/intrabar_bounds.py:92-95 | a threshold not counted as unresolved is met by every path or by none |
| IntrabarBounds.UnresolvedIffThePathDecides | src/full_python/research/intrabar_bounds.py:92-95 | on the bar that touched the stop, a threshold is counted as unresolved if and only if one price path inside the bar reaches it and another does not |
| StopReport.FlaggedTradesAreStops | src/full_python/simulation/position_engine.py:258-306 | every flagged trade of a run in one symbol was stopped out by a bar of the run with its exit key |
| StopReport.ReportRun | src/full_python/research/intrabar_bounds.py:40-124 | run, then report: on bars with distinct times it never fails, and each interval comes from the very bar that stopped the trade and holds the true excursion for every path inside it |

## Left out

- Objects held by value: `_Position`, `_PendingEntry`, `_PendingExit` and the per-session fields of the retest strategy are records in one field, reassigned whole; nothing else in the source keeps a reference to them.
- RetestStrategyObject.OpeningAuctionRetestStrategy.TakeBar: the `assert` statements of the entry logic are not steps of the method; `RetestInvariants.EveryMemoryIsReady` shows that what they assert always holds.
- EntryHistory.OrdersAreByTheRules: says nothing of a session in which a fill or a closed trade is reported between the classification and the bar; the strategy has ordered nothing there by then, so such a report is of an order of an earlier session.
- PositionEngine.PositionEngine.constructor: the check that a strategy's own point value equals the configuration's is not modelled, because a modelled strategy carries no such setting.
- Simulation.SimulationEngine.Run: starts from a fresh ledger; running into a ledger that already has records is not modelled.
- Reconcile.Run: the deltas reported with each pair are differences of the pair's own fields and are not computed.
- LiveBars.LiveBarSource.Next: one round of waiting is one input; slicing the wait for maintenance, and the clock arithmetic of the deadline, are not modelled.
- Order ids are values (`entry 1`, `exit 1`) and not their texts; event ids, which only number the records, are not modelled.
- Missing metadata is `None` in a record with the keys the core reads; other keys, and keys that shadow a payload's own fields, are not modelled.
- A strategy's optional hooks are always present; a missing one is the identity.
- Floating-point rounding, the rounding of prices to ten digits, non-finite values and the tolerance of price comparisons; the 1e-12 of the tick rounding is kept.
- Time zones, daylight saving and the classification of a timestamp into its session.
- File locking, `fsync`, SHA-256, JSON and UTF-8 themselves.
- The two other strategies' gate lists, the Tradovate adapter, the command line, and the HTML, CSV and SQLite output.
- The audits of the research reports; they count every cancellation record as an intent's outcome, and the engine also writes one when only an exit is cancelled.
- Sharpe ratios, t-statistics, bootstrap probabilities, promotion gates and configuration hashes.
- Indicators other than the regression endpoint.
