/** The retest strategy as an object: every method leaves exactly the memory its function describes. */
module RetestStrategyObject {
  import opened Prelude
  import opened Market
  import opened RetestModel

  /** The distance walked through the closes, summed close by close. */
  method MeasurePath(start: real, closes: seq<real>) returns (path: real)
    ensures path == PathLength(start, closes)
  {
    var previous := start;
    path := 0.0;
    for i := 0 to |closes|
      invariant path == PathLength(start, closes[..i])
      invariant previous == if i == 0 then start else closes[i - 1]
    {
      assert closes[..i + 1][..i] == closes[..i];
      path := path + Abs(closes[i] - previous);
      previous := closes[i];
    }
    assert closes[..|closes|] == closes;
  }

  method EfficiencyOf(s: SessionState) returns (efficiency: Option<real>)
    ensures efficiency == Efficiency(s)
  {
    efficiency := None;
    if s.rthOpen.Some? && s.openingClose.Some? {
      var path := MeasurePath(s.rthOpen.value, s.openingCloses);
      if path > 0.0 {
        efficiency := Some(Abs(s.openingClose.value - s.rthOpen.value) / path);
      }
    }
  }

  /** What a session change resets is kept together in `session`. */
  class OpeningAuctionRetestStrategy {
    const config: RetestConfig
    var dtrHistory: seq<real>
    var volumeHistory: seq<real>
    var sessionDate: Option<int>
    var currentContract: Option<string>
    var previousRthContract: Option<string>
    var priorRthHigh: Option<real>
    var priorRthLow: Option<real>
    var priorRthClose: Option<real>
    var snapshots: seq<Snapshot>
    var diagnostics: seq<Diagnostic>
    var positionSide: Option<PositionSide>
    var positionBranch: Option<Regime>
    var entryPending: bool
    var entryPendingAge: nat
    var exitPending: bool
    var session: SessionState

    function Now(): Memory
      reads this
    {
      Memory(
        dtrHistory, volumeHistory, sessionDate, currentContract, previousRthContract, priorRthHigh, priorRthLow,
        priorRthClose, snapshots, diagnostics, positionSide, positionBranch, entryPending, entryPendingAge,
        exitPending, session)
    }

    constructor (config: RetestConfig)
      ensures this.config == config && Now() == NEW_MEMORY
    {
      this.config := config;
      dtrHistory, volumeHistory := [], [];
      sessionDate, currentContract, previousRthContract := None, None, None;
      priorRthHigh, priorRthLow, priorRthClose := None, None, None;
      snapshots, diagnostics := [], [];
      positionSide, positionBranch := None, None;
      entryPending, entryPendingAge, exitPending := false, 0, false;
      session := FRESH_SESSION;
    }

    method NoteEvent(timestamp: Timestamp, note: Note)
      modifies this`diagnostics
      ensures Now() == Noted(old(Now()), timestamp, note)
    {
      var c := session.classification;
      diagnostics := diagnostics + [Diagnostic(
        sessionDate, timestamp,
        if c.Some? then c.value.regime else NoTrade,
        if c.Some? then c.value.side else None,
        session.entryState, note)];
    }

    method ClearPending()
      modifies this
      ensures Now() == Unpended(old(Now()))
    {
      entryPending := false;
      entryPendingAge := 0;
    }

    method EnterPosition(fill: Fill)
      modifies this
      ensures Now() == Entered(old(Now()), fill)
    {
      ClearPending();
      positionSide := Some(SideOfEntry(fill.side));
      positionBranch := Some(if fill.reason.AcceptedBreakRetest? then AcceptedBreak else RejectedBreak);
      session := session.(entryState := InPosition);
    }

    method LeavePosition()
      modifies this
      ensures Now() == Exited(old(Now()))
    {
      ClearPending();
      positionSide := None;
      positionBranch := None;
      exitPending := false;
      session := session.(entryState := Done);
    }

    method TakeFill(fill: Fill)
      modifies this
      ensures Now() == OnFill(old(Now()), fill)
    {
      hide Noted, Entered;
      if !EntryReason(fill.reason) { return; }
      EnterPosition(fill);
      NoteEvent(fill.timestamp, Filled(fill.price, fill.quantity, fill.reason));
    }

    method TakeClosedTrade(trade: Trade)
      modifies this
      ensures Now() == OnTradeClosed(old(Now()), trade)
    {
      hide Noted, Exited;
      NoteEvent(trade.exitTimestamp, TradeClosed(trade.netPnl, trade.exitReason, trade.mfePoints, trade.maePoints));
      LeavePosition();
    }

    method FeaturesNow(timestamp: Timestamp) returns (f: Features)
      ensures f == BuildFeatures(config, Now(), timestamp)
    {
      hide CompleteOpening, CompleteOvernight, MaxGap, FullMedian, VolumeRatio, OpeningWidth, OpeningMidpoint,
           Displacement, Efficiency, OpeningLocation, CountSides;
      var s := session;
      var efficiency := EfficiencyOf(s);
      var dtr20 := FullMedian(dtrHistory, config.dailyRangeLookback);
      f := Features(
        sessionDate, timestamp, CompleteOpening(config, s), s.rollTransition,
        CompleteOvernight(config, s.overnightOffsets), |s.overnightOffsets|, MaxGap(s.overnightOffsets),
        s.openingMinutes, s.openingCloses, dtr20,
        VolumeRatio(s.openingVolume, FullMedian(volumeHistory, config.openingVolumeLookback)),
        s.rthOpen, s.openingHigh, s.openingLow, s.openingClose,
        OpeningWidth(s), OpeningMidpoint(s), Displacement(s, dtr20), efficiency, OpeningLocation(s), s.currentVwap,
        CountSides(s.vwapSides, AboveVwap), CountSides(s.vwapSides, BelowVwap),
        s.overnightHigh, s.overnightLow, priorRthHigh, priorRthLow, priorRthClose);
    }

    method Freeze(timestamp: Timestamp)
      modifies this
      ensures Now() == FreezeClassification(config, old(Now()), timestamp)
    {
      hide BuildFeatures, Classify, Noted;
      if session.classification.Some? { return; }
      var f := FeaturesNow(timestamp);
      var c := Classify(config, f);
      snapshots := snapshots + [Snapshot(f, c)];
      session := session.(
        features := Some(f),
        classification := Some(c),
        entryState := if c.regime.NoTrade? then Done else WaitFirstRetest);
      NoteEvent(timestamp, Classified(c.reason, c.referenceSide, c.referenceType, c.referencePrice));
    }

    method Finalize()
      modifies this
      ensures Now() == FinalizeSession(config, old(Now()))
    {
      hide FreezeClassification, CompleteOpening, Push, TrueRange;
      if sessionDate.None? { return; }
      ghost var frozen := if session.rthStarted then FreezeClassification(config, Now(), session.lastTimestamp)
                          else Now();
      if session.rthStarted && session.classification.None? {
        Freeze(session.lastTimestamp);
      } else {
        AlreadyFrozen(config, Now(), session.lastTimestamp);
      }
      assert Now() == frozen;
      if CompleteOpening(config, session) && session.openingVolume > 0.0 {
        volumeHistory := Push(volumeHistory, session.openingVolume, config.openingVolumeLookback);
      }
      assert Now() == RecordVolume(config, frozen);
      KeepRange();
    }

    method KeepRange()
      modifies this
      ensures Now() == RecordRange(config, old(Now()))
    {
      hide Push, TrueRange;
      var s := session;
      if s.rthHigh.Some? && s.rthLow.Some? && s.rthClose.Some? {
        if priorRthClose.Some? && !s.rollTransition {
          var range := TrueRange(s.rthHigh.value, s.rthLow.value, priorRthClose.value);
          if range > 0.0 {
            dtrHistory := Push(dtrHistory, range, config.dailyRangeLookback);
          }
        }
        priorRthHigh := s.rthHigh;
        priorRthLow := s.rthLow;
        priorRthClose := s.rthClose;
        previousRthContract := currentContract;
      }
    }

    method Start(date: int)
      modifies this
      ensures Now() == StartSession(config, old(Now()), date)
    {
      hide FinalizeSession, Restarted;
      Finalize();
      Restart(date);
    }

    method Restart(date: int)
      modifies this
      ensures Now() == Restarted(config, old(Now()), date)
    {
      ClearPending();
      sessionDate := Some(date);
      currentContract := Some(config.frontContract(date));
      session := FRESH_SESSION.(rollTransition := previousRthContract.Some? && previousRthContract != currentContract);
      exitPending := false;
    }

    // ---- Entry logic ----

    method CancelEntry(bar: Bar, what: CancelReason, level: Option<real>, location: Option<real>, bars: Option<nat>)
      modifies this
      ensures Now() == Cancel(old(Now()), bar, what, level, location, bars)
    {
      hide Noted;
      session := session.(entryState := Done);
      NoteEvent(bar.timestamp, Cancelled(what, level, location, bars));
    }

    method RejectEntry(bar: Bar, risk: real, riskDtr: real) returns (result: StrategyResult)
      modifies this
      ensures Now() == Reject(old(Now()), bar, risk, riskDtr).0 && result == Reject(old(Now()), bar, risk, riskDtr).1
    {
      hide Noted;
      var c := session.classification;
      session := session.(entryAttempted := true, entryState := Done);
      NoteEvent(bar.timestamp, EntryRejected(risk, riskDtr));
      result := StrategyResult(
        Some(SignalDecision(bar.timestamp, bar.symbol, Rejected, if c.Some? then c.value.side else None, RiskGeometry,
                            NO_METADATA.(geometry := Some(Geometry(risk, riskDtr, None, None, None, None))))),
        [], [], [], []);
    }

    method AcceptEntry(bar: Bar, plan: Plan) returns (result: StrategyResult)
      modifies this
      ensures Now() == AcceptedOrder(config, old(Now()), bar, plan).0
      ensures result == AcceptedOrder(config, old(Now()), bar, plan).1
    {
      hide Noted, OrderMetadata, SetupOf, BranchReason;
      var u := SetupOf(session);
      var reason := BranchReason(session);
      var metadata := OrderMetadata(u, session, bar, plan);
      session := session.(entryAttempted := true, entryState := EntryPending);
      entryPending := true;
      entryPendingAge := 0;
      NoteEvent(bar.timestamp, EntryConfirmed(reason, metadata));
      result := StrategyResult(
        Some(SignalDecision(bar.timestamp, bar.symbol, Accepted, Some(u.side), reason, metadata)),
        [OrderIntent(bar.timestamp, bar.symbol, if u.side.Long? then Buy else Sell, config.contracts, reason,
                     metadata)],
        [], [], []);
    }

    method SeekRetest(bar: Bar)
      modifies this
      ensures Now() == FirstRetest(config, old(Now()), bar)
    {
      hide Noted, Contact, Holds, SetupOf, CloseLocation, Cancel;
      var u := SetupOf(session);
      if !Contact(config, u, bar) { return; }
      if !Holds(config, u, bar) {
        CancelEntry(bar, FirstRetestFailedHold, Some(u.reference), CloseLocation(bar), None);
        return;
      }
      session := session.(
        retestHigh := Some(bar.high),
        retestLow := Some(bar.low),
        structuralExtreme := Some(if u.side.Long? then bar.low else bar.high),
        confirmationBars := 0,
        entryState := Armed);
      NoteEvent(bar.timestamp, FirstRetestArmed(u.reference, bar.high, bar.low, CloseLocation(bar)));
    }

    method SeekConfirmation(bar: Bar) returns (order: Option<StrategyResult>)
      requires config.tickSize > 0.0
      modifies this
      ensures Now() == Confirmation(config, old(Now()), bar).0 && order == Confirmation(config, old(Now()), bar).1
    {
      hide Noted, Invalidated, Confirmed, Cancel, PlanOf, AcceptedOrder, Reject;
      var u := SetupOf(session);
      session := session.(
        confirmationBars := session.confirmationBars + 1,
        structuralExtreme := if u.side.Long? then Sink(session.structuralExtreme, bar.low)
                             else Raise(session.structuralExtreme, bar.high));
      assert Now() == Extended(old(Now()), bar);
      ExtendedSetup(old(Now()), bar);
      hide Extended, SetupOf;
      order := None;
      if Invalidated(config, u, bar) {
        CancelEntry(bar, ArmedReferenceInvalidated, Some(u.reference), None, None);
      } else if Confirmed(config, u, session, bar) {
        var result := PlaceEntry(bar);
        order := Some(result);
      } else if session.confirmationBars >= config.confirmationMaxBars {
        CancelEntry(bar, ConfirmationExpired, None, None, Some(session.confirmationBars));
      }
    }

    method PlaceEntry(bar: Bar) returns (result: StrategyResult)
      requires config.tickSize > 0.0
      modifies this
      ensures Now() == Place(config, old(Now()), bar).0 && result == Place(config, old(Now()), bar).1
    {
      hide PlanOf, AcceptedOrder, Reject, SetupOf;
      var u := SetupOf(session);
      var extreme := session.structuralExtreme;
      var plan := PlanOf(config, u, if extreme.Some? then extreme.value else 0.0, bar.close);
      var riskDtr := if u.dtr > 0.0 then plan.risk / u.dtr else 0.0;
      if config.minRiskDtr <= riskDtr <= config.maxRiskDtr {
        result := AcceptEntry(bar, plan);
      } else {
        result := RejectEntry(bar, plan.risk, riskDtr);
      }
    }

    // ---- One bar ----

    method AgePending(timestamp: Timestamp)
      modifies this
      ensures Now() == ExpirePending(old(Now()), timestamp)
    {
      hide Noted;
      if entryPending {
        entryPendingAge := entryPendingAge + 1;
        if entryPendingAge > 2 {
          ClearPending();
          session := session.(entryState := Done);
          NoteEvent(timestamp, EntryPendingExpired);
        }
      }
    }

    method SignalTimeExit(bar: Bar, minute: int) returns (exits: seq<ExitDecision>)
      modifies this
      ensures Now() == HardExit(config, old(Now()), bar, minute).0
      ensures exits == HardExit(config, old(Now()), bar, minute).1
    {
      hide Noted;
      exits := [];
      if positionSide.Some? && !exitPending && config.hardExitFill - 1 <= minute < 18 * 60 {
        exitPending := true;
        NoteEvent(bar.timestamp, TimeExitSignalled);
        exits := [ExitDecision(bar.timestamp, bar.symbol, TimeExitReason(positionBranch))];
      }
    }

    method Prepare(tick: Tick) returns (exits: seq<ExitDecision>)
      modifies this
      ensures Now() == OpenBar(config, old(Now()), tick).0 && exits == OpenBar(config, old(Now()), tick).1
    {
      hide StartSession, ExpirePending, HardExit;
      if sessionDate != Some(tick.session.date) {
        Start(tick.session.date);
      }
      session := session.(lastTimestamp := tick.bar.timestamp);
      AgePending(tick.bar.timestamp);
      exits := SignalTimeExit(tick.bar, tick.session.minute);
    }

    method Observe(tick: Tick)
      modifies this
      ensures Now() == ObserveRth(config, old(Now()), tick)
    {
      hide TrackRth, FreezeClassification;
      var minute := tick.session.minute;
      session := TrackRth(config, session, tick.bar, minute);
      if session.classification.None? && minute >= ObservationEnd(config) - 1 {
        Freeze(tick.bar.timestamp);
      }
    }

    method Seek(bar: Bar, minute: int) returns (order: Option<StrategyResult>)
      requires config.tickSize > 0.0
      modifies this
      ensures Now() == SeekEntry(config, old(Now()), bar, minute).0
      ensures order == SeekEntry(config, old(Now()), bar, minute).1
    {
      hide FirstRetest, Confirmation, Cancel;
      order := None;
      if Available(Now()) {
        if ObservationEnd(config) <= minute < config.entryEnd {
          if session.entryState.WaitFirstRetest? {
            if minute >= config.entryEnd - 1 {
              CancelEntry(bar, FirstRetestWindowExpired, None, None, None);
            } else {
              SeekRetest(bar);
            }
          } else if session.entryState.Armed? {
            order := SeekConfirmation(bar);
          }
        } else if minute >= config.entryEnd && (session.entryState.WaitFirstRetest? || session.entryState.Armed?) {
          CancelEntry(bar, EntryWindowExpired, None, None, None);
        }
      }
    }

    method TakeBar(tick: Tick) returns (result: StrategyResult)
      requires config.tickSize > 0.0
      modifies this
      ensures Now() == OnBar(config, old(Now()), tick).0 && result == OnBar(config, old(Now()), tick).1
    {
      hide OpenBar, ObserveRth, SeekEntry, TrackOvernight;
      var exits := Prepare(tick);
      result := NO_RESULT.(exits := exits);
      if !tick.session.isRth {
        session := TrackOvernight(session, tick.bar, tick.session.minute);
      } else {
        Observe(tick);
        var order := Seek(tick.bar, tick.session.minute);
        if order.Some? {
          result := StrategyResult(order.value.signal, order.value.orderIntents, [], [], exits);
        }
      }
    }
  }

  lemma {:induction false} ExtendedSetup(m: Memory, bar: Bar)
    ensures SetupOf(Extended(m, bar).session) == SetupOf(m.session)
  {
  }

  /** A frozen classification stays frozen. */
  lemma {:induction false} AlreadyFrozen(cfg: RetestConfig, m: Memory, timestamp: Timestamp)
    ensures m.session.classification.Some? ==> FreezeClassification(cfg, m, timestamp) == m
  {
  }
}
