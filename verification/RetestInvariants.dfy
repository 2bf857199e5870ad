/** What holds of the retest strategy's memory after any bars and any broker feedback. */
module RetestInvariants {
  import opened Prelude
  import opened Market
  import opened RetestModel

  /** What the drivers feed the strategy. */
  datatype Input = Heard(item: Feedback) | Saw(tick: Tick)

  function Hear(m: Memory, item: Feedback): Memory {
    match item
    case FillFeedback(fill) => OnFill(m, fill)
    case TradeFeedback(trade) => OnTradeClosed(m, trade)
  }

  function Take(cfg: RetestConfig, m: Memory, input: Input): Memory
    requires cfg.tickSize > 0.0
  {
    match input
    case Heard(item) => Hear(m, item)
    case Saw(tick) => OnBar(cfg, m, tick).0
  }

  /** The memory after a whole history of inputs. */
  function Remember(cfg: RetestConfig, inputs: seq<Input>): Memory
    requires cfg.tickSize > 0.0
    decreases |inputs|
  {
    if |inputs| == 0 then NEW_MEMORY
    else Take(cfg, Remember(cfg, inputs[..|inputs| - 1]), inputs[|inputs| - 1])
  }

  predicate Seeking(state: EntryState) {
    state.WaitFirstRetest? || state.Armed?
  }

  predicate Tradable(s: SessionState) {
    s.classification.Some? && !s.classification.value.regime.NoTrade?
  }

  /** A tradable classification carries everything the entry logic takes from it. */
  predicate Complete(s: SessionState)
    requires s.classification.Some?
  {
    && s.classification.value.side.Some?
    && s.classification.value.referencePrice.Some?
    && s.features.Some?
    && s.features.value.dtr20.Some?
    && s.features.value.dtr20.value > 0.0
  }

  predicate ReadySession(s: SessionState) {
    && (Tradable(s) ==> Complete(s))
    && (Seeking(s.entryState) ==> Tradable(s) && !s.entryAttempted)
    && (s.entryState.Armed? ==> s.retestHigh.Some? && s.retestLow.Some? && s.structuralExtreme.Some?)
    && (s.entryAttempted ==> s.classification.Some?)
  }

  predicate Ready(m: Memory) {
    && ReadySession(m.session)
    && m.entryPendingAge <= 2
    && (m.entryPending ==> m.session.entryAttempted)
    && (m.session.entryState.Armed? ==> m.positionSide.None?)
  }

  lemma {:induction false} FreshIsReady()
    ensures Ready(NEW_MEMORY) && ReadySession(FRESH_SESSION) && NEW_MEMORY.session.entryState.Observe?
  {
  }

  lemma {:induction false} HearKeeps(m: Memory, item: Feedback)
    requires Ready(m)
    ensures Ready(Hear(m, item))
    ensures Hear(m, item).session.entryAttempted == m.session.entryAttempted
    ensures Hear(m, item).sessionDate == m.sessionDate
  {
  }

  lemma {:induction false} FreezeKeeps(cfg: RetestConfig, m: Memory, timestamp: Timestamp)
    requires Ready(m)
    ensures Ready(FreezeClassification(cfg, m, timestamp))
    ensures FreezeClassification(cfg, m, timestamp).session.entryAttempted == m.session.entryAttempted
    ensures FreezeClassification(cfg, m, timestamp).sessionDate == m.sessionDate
  {
    hide BuildFeatures, Candidates;
  }

  lemma {:induction false} StartKeeps(cfg: RetestConfig, m: Memory, date: int)
    ensures Ready(StartSession(cfg, m, date))
    ensures StartSession(cfg, m, date).sessionDate == Some(date)
  {
    hide FinalizeSession;
  }

  lemma {:induction false} ExpireKeeps(m: Memory, timestamp: Timestamp)
    requires Ready(m)
    ensures Ready(ExpirePending(m, timestamp))
    ensures ExpirePending(m, timestamp).session.entryAttempted == m.session.entryAttempted
    ensures ExpirePending(m, timestamp).sessionDate == m.sessionDate
  {
  }

  lemma {:induction false} HardExitKeeps(cfg: RetestConfig, m: Memory, bar: Bar, minute: int)
    ensures HardExit(cfg, m, bar, minute).0.session == m.session
    ensures HardExit(cfg, m, bar, minute).0.entryPendingAge == m.entryPendingAge
    ensures HardExit(cfg, m, bar, minute).0.sessionDate == m.sessionDate
    ensures HardExit(cfg, m, bar, minute).0.entryPending == m.entryPending
    ensures HardExit(cfg, m, bar, minute).0.positionSide == m.positionSide
  {
  }

  lemma {:induction false} OpenKeeps(cfg: RetestConfig, m: Memory, tick: Tick)
    requires Ready(m)
    ensures
      var awake := OpenBar(cfg, m, tick).0;
      && Ready(awake)
      && awake.sessionDate == Some(tick.session.date)
      && (m.sessionDate == Some(tick.session.date) ==> awake.session.entryAttempted == m.session.entryAttempted)
  {
    hide StartSession, ExpirePending, HardExit;
    StartKeeps(cfg, m, tick.session.date);
    var started := if m.sessionDate != Some(tick.session.date) then StartSession(cfg, m, tick.session.date) else m;
    var stamped := started.(session := started.session.(lastTimestamp := tick.bar.timestamp));
    ExpireKeeps(stamped, tick.bar.timestamp);
    HardExitKeeps(cfg, ExpirePending(stamped, tick.bar.timestamp), tick.bar, tick.session.minute);
  }

  lemma {:induction false} ObserveKeeps(cfg: RetestConfig, m: Memory, tick: Tick)
    requires Ready(m)
    ensures Ready(ObserveRth(cfg, m, tick))
    ensures ObserveRth(cfg, m, tick).session.entryAttempted == m.session.entryAttempted
    ensures ObserveRth(cfg, m, tick).sessionDate == m.sessionDate
  {
    hide FreezeClassification, UpdateVwap, RecordOpeningBar;
    TrackKeepsEntry(cfg, m.session, tick.bar, tick.session.minute);
    FreezeKeeps(cfg, m.(session := TrackRth(cfg, m.session, tick.bar, tick.session.minute)), tick.bar.timestamp);
  }

  /** The part of the session the entry logic lives on, untouched by tracking. */
  predicate SameEntry(s: SessionState, t: SessionState) {
    && t.classification == s.classification && t.features == s.features && t.entryState == s.entryState
    && t.entryAttempted == s.entryAttempted && t.retestHigh == s.retestHigh && t.retestLow == s.retestLow
    && t.structuralExtreme == s.structuralExtreme && t.confirmationBars == s.confirmationBars
  }

  lemma {:induction false} TrackKeepsEntry(cfg: RetestConfig, s: SessionState, bar: Bar, minute: int)
    ensures SameEntry(s, TrackRth(cfg, s, bar, minute))
  {
  }

  /** The order's stop is on the losing side of its price, at a risk within the configured band. */
  predicate SoundOrder(cfg: RetestConfig, intent: OrderIntent) {
    && !intent.side.Unknown?
    && EntryReason(intent.reason)
    && intent.quantity == cfg.contracts
    && intent.metadata.signalPrice.Some? && intent.metadata.stopPrice.Some? && intent.metadata.targetPrice.Some?
    && intent.metadata.referencePrice.Some?
    && intent.metadata.geometry.Some? && intent.metadata.geometry.value.dtr20.Some?
    && var risk := if intent.side.Buy? then intent.metadata.signalPrice.value - intent.metadata.stopPrice.value
                   else intent.metadata.stopPrice.value - intent.metadata.signalPrice.value;
       var dtr := intent.metadata.geometry.value.dtr20.value;
       risk > 0.0 && dtr > 0.0 && cfg.minRiskDtr <= risk / dtr <= cfg.maxRiskDtr
  }

  lemma {:induction false} PositiveQuotient(a: real, b: real)
    requires b > 0.0 && a / b > 0.0
    ensures a > 0.0
  {
    assert a == (a / b) * b;
  }

  lemma {:induction false} OrderIsSound(cfg: RetestConfig, m: Memory, bar: Bar, extreme: real)
    requires ValidRetestConfig(cfg) && Ready(m) && Tradable(m.session)
    requires
      var u := SetupOf(m.session);
      cfg.minRiskDtr <= PlanOf(cfg, u, extreme, bar.close).risk / u.dtr <= cfg.maxRiskDtr
    ensures
      var (next, answer) := AcceptedOrder(cfg, m, bar, PlanOf(cfg, SetupOf(m.session), extreme, bar.close));
      && Ready(next) && next.session.entryAttempted && next.sessionDate == m.sessionDate
      && |answer.orderIntents| == 1 && SoundOrder(cfg, answer.orderIntents[0])
  {
    hide RoundDown, RoundUp;
    var u := SetupOf(m.session);
    PositiveQuotient(PlanOf(cfg, u, extreme, bar.close).risk, u.dtr);
  }

  lemma {:induction false} RejectKeeps(m: Memory, bar: Bar, risk: real, riskDtr: real)
    requires Ready(m) && Tradable(m.session)
    ensures
      var (next, answer) := Reject(m, bar, risk, riskDtr);
      Ready(next) && next.session.entryAttempted && next.sessionDate == m.sessionDate && answer.orderIntents == []
  {
  }

  lemma {:induction false} PlaceKeeps(cfg: RetestConfig, m: Memory, bar: Bar)
    requires ValidRetestConfig(cfg) && Ready(m) && Tradable(m.session)
    ensures
      var (next, answer) := Place(cfg, m, bar);
      && Ready(next)
      && next.session.entryAttempted
      && next.sessionDate == m.sessionDate
      && |answer.orderIntents| <= 1
      && forall i :: 0 <= i < |answer.orderIntents| ==> SoundOrder(cfg, answer.orderIntents[i])
  {
    hide PlanOf, AcceptedOrder, Reject, SoundOrder;
    var u := SetupOf(m.session);
    var extreme := if m.session.structuralExtreme.Some? then m.session.structuralExtreme.value else 0.0;
    var plan := PlanOf(cfg, u, extreme, bar.close);
    if cfg.minRiskDtr <= plan.risk / u.dtr <= cfg.maxRiskDtr {
      OrderIsSound(cfg, m, bar, extreme);
    } else {
      RejectKeeps(m, bar, plan.risk, plan.risk / u.dtr);
    }
  }

  lemma {:induction false} ExtendKeeps(m: Memory, bar: Bar)
    requires Ready(m)
    ensures Ready(Extended(m, bar))
  {
  }

  lemma {:induction false} CancelKeeps(m: Memory, bar: Bar, what: CancelReason, level: Option<real>,
                                       location: Option<real>, bars: Option<nat>)
    requires Ready(m)
    ensures
      var next := Cancel(m, bar, what, level, location, bars);
      Ready(next) && next.session == m.session.(entryState := Done) && next.sessionDate == m.sessionDate
  {
  }

  lemma {:induction false} ConfirmationKeeps(cfg: RetestConfig, m: Memory, bar: Bar)
    requires ValidRetestConfig(cfg) && Ready(m) && m.session.entryState.Armed?
    ensures
      var (next, answer) := Confirmation(cfg, m, bar);
      && Ready(next)
      && next.sessionDate == m.sessionDate
      && (answer.Some? ==>
            && next.session.entryAttempted
            && |answer.value.orderIntents| <= 1
            && forall i :: 0 <= i < |answer.value.orderIntents| ==> SoundOrder(cfg, answer.value.orderIntents[i]))
      && (answer.None? ==> !next.session.entryAttempted)
  {
    hide Place, SoundOrder, Cancel, Invalidated, Confirmed;
    var seen := Extended(m, bar);
    ExtendKeeps(m, bar);
    PlaceKeeps(cfg, seen, bar);
    CancelKeeps(seen, bar, ArmedReferenceInvalidated, Some(SetupOf(m.session).reference), None, None);
    CancelKeeps(seen, bar, ConfirmationExpired, None, None, Some(seen.session.confirmationBars));
  }

  lemma {:induction false} OvernightKeeps(m: Memory, bar: Bar, minute: int)
    requires Ready(m)
    ensures Ready(m.(session := TrackOvernight(m.session, bar, minute)))
    ensures TrackOvernight(m.session, bar, minute).entryAttempted == m.session.entryAttempted
  {
  }

  lemma {:induction false} FirstRetestKeeps(cfg: RetestConfig, m: Memory, bar: Bar)
    requires Ready(m) && m.session.entryState.WaitFirstRetest? && Available(m)
    ensures
      var next := FirstRetest(cfg, m, bar);
      Ready(next) && next.sessionDate == m.sessionDate
  {
    hide Contact, Holds, Cancel;
    CancelKeeps(m, bar, FirstRetestFailedHold, Some(SetupOf(m.session).reference), CloseLocation(bar), None);
  }

  lemma {:induction false} SeekKeeps(cfg: RetestConfig, m: Memory, bar: Bar, minute: int)
    requires ValidRetestConfig(cfg) && Ready(m)
    ensures
      var (next, answer) := SeekEntry(cfg, m, bar, minute);
      && Ready(next)
      && (m.session.entryAttempted ==> next.session.entryAttempted && answer.None?)
      && next.sessionDate == m.sessionDate
      && (answer.Some? ==>
            && m.session.entryState.Armed? && !m.session.entryAttempted && next.session.entryAttempted
            && |answer.value.orderIntents| <= 1
            && forall i :: 0 <= i < |answer.value.orderIntents| ==> SoundOrder(cfg, answer.value.orderIntents[i]))
  {
    hide Confirmation, FirstRetest, Cancel, SoundOrder;
    CancelKeeps(m, bar, FirstRetestWindowExpired, None, None, None);
    CancelKeeps(m, bar, EntryWindowExpired, None, None, None);
    if m.session.entryState.WaitFirstRetest? && Available(m) {
      FirstRetestKeeps(cfg, m, bar);
    } else if m.session.entryState.Armed? {
      ConfirmationKeeps(cfg, m, bar);
    }
  }

  /**
   * Readiness is preserved by every input, so no assertion in the entry logic can fail; and whatever
   * a bar orders is one sound order, placed for a session that had not attempted an entry.
   */
  lemma {:induction false} BarKeeps(cfg: RetestConfig, m: Memory, tick: Tick)
    requires ValidRetestConfig(cfg) && Ready(m)
    ensures
      var (next, answer) := OnBar(cfg, m, tick);
      && Ready(next)
      && (m.sessionDate == Some(tick.session.date) && m.session.entryAttempted ==>
            next.session.entryAttempted && answer.orderIntents == [])
      && (answer.orderIntents != [] ==> next.session.entryAttempted && |answer.orderIntents| == 1)
      && (forall i :: 0 <= i < |answer.orderIntents| ==> SoundOrder(cfg, answer.orderIntents[i]))
      && next.sessionDate == Some(tick.session.date)
  {
    hide SeekEntry, SoundOrder, OpenBar, TrackOvernight, ObserveRth, ReadySession;
    OpenKeeps(cfg, m, tick);
    var awake := OpenBar(cfg, m, tick).0;
    if tick.session.isRth {
      ObserveKeeps(cfg, awake, tick);
      SeekKeeps(cfg, ObserveRth(cfg, awake, tick), tick.bar, tick.session.minute);
      var (next, order) := SeekEntry(cfg, ObserveRth(cfg, awake, tick), tick.bar, tick.session.minute);
      assert OnBar(cfg, m, tick).0 == next;
      assert order.Some? ==> OnBar(cfg, m, tick).1.orderIntents == order.value.orderIntents;
    } else {
      OvernightKeeps(awake, tick.bar, tick.session.minute);
    }
  }

  // ---- Over whole histories ----

  lemma {:induction false} EveryMemoryIsReady(cfg: RetestConfig, inputs: seq<Input>)
    requires ValidRetestConfig(cfg)
    ensures Ready(Remember(cfg, inputs))
    decreases |inputs|
  {
    hide OnBar, Hear, Ready, NEW_MEMORY;
    if |inputs| == 0 {
      FreshIsReady();
    } else {
      var before := Remember(cfg, inputs[..|inputs| - 1]);
      EveryMemoryIsReady(cfg, inputs[..|inputs| - 1]);
      match inputs[|inputs| - 1]
      case Heard(item) => HearKeeps(before, item);
      case Saw(tick) => BarKeeps(cfg, before, tick);
    }
  }

  /** What the strategy orders on the bar at `i`. */
  function Orders(cfg: RetestConfig, inputs: seq<Input>, i: nat): seq<OrderIntent>
    requires cfg.tickSize > 0.0 && i < |inputs|
  {
    if inputs[i].Heard? then [] else OnBar(cfg, Remember(cfg, inputs[..i]), inputs[i].tick).1.orderIntents
  }

  /** No history makes the strategy order more than once on a bar, or order unsoundly. */
  lemma {:induction false} EveryOrderIsSound(cfg: RetestConfig, inputs: seq<Input>, i: nat)
    requires ValidRetestConfig(cfg) && i < |inputs|
    ensures |Orders(cfg, inputs, i)| <= 1
    ensures forall k :: 0 <= k < |Orders(cfg, inputs, i)| ==> SoundOrder(cfg, Orders(cfg, inputs, i)[k])
  {
    hide OnBar, SoundOrder, Ready;
    EveryMemoryIsReady(cfg, inputs[..i]);
    if inputs[i].Saw? {
      BarKeeps(cfg, Remember(cfg, inputs[..i]), inputs[i].tick);
    }
  }

  predicate WithinSession(inputs: seq<Input>, i: nat, j: nat, date: int)
    requires j < |inputs|
  {
    forall k :: i <= k <= j && inputs[k].Saw? ==> inputs[k].tick.session.date == date
  }

  lemma {:induction false} AttemptLasts(cfg: RetestConfig, inputs: seq<Input>, i: nat, j: nat, date: int)
    requires ValidRetestConfig(cfg) && i <= j < |inputs| && WithinSession(inputs, i, j, date)
    requires Orders(cfg, inputs, i) != []
    ensures
      var m := Remember(cfg, inputs[..j + 1]);
      m.session.entryAttempted && m.sessionDate == Some(date)
    ensures i < j ==> Orders(cfg, inputs, j) == []
    decreases j
  {
    hide OnBar, Hear, SoundOrder, Ready, NEW_MEMORY;
    assert inputs[..j + 1][..j] == inputs[..j];
    EveryMemoryIsReady(cfg, inputs[..j]);
    var before := Remember(cfg, inputs[..j]);
    if i < j {
      AttemptLasts(cfg, inputs, i, j - 1, date);
    }
    match inputs[j]
    case Heard(item) => HearKeeps(before, item);
    case Saw(tick) => BarKeeps(cfg, before, tick);
  }

  /** Within one session the strategy enters at most once, whatever happens to its order. */
  lemma {:induction false} OneEntryPerSession(cfg: RetestConfig, inputs: seq<Input>, i: nat, j: nat, date: int)
    requires ValidRetestConfig(cfg) && i < j < |inputs| && WithinSession(inputs, i, j, date)
    ensures Orders(cfg, inputs, i) == [] || Orders(cfg, inputs, j) == []
  {
    hide OnBar, Remember;
    if Orders(cfg, inputs, i) != [] {
      AttemptLasts(cfg, inputs, i, j, date);
    }
  }
}
