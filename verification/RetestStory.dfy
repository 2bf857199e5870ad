/** The story behind every order: the level's first retest held, and a later bar confirmed. */
module RetestStory {
  import opened Prelude
  import opened Market
  import opened RetestModel
  import opened RetestInvariants

  /** A bar the entry logic looks at. */
  predicate Sought(cfg: RetestConfig, input: Input) {
    input.Saw? && input.tick.session.isRth && input.tick.session.minute >= ObservationEnd(cfg)
  }

  function SoughtBars(cfg: RetestConfig, inputs: seq<Input>): seq<Bar>
    decreases |inputs|
  {
    if |inputs| == 0 then []
    else
      var last := inputs[|inputs| - 1];
      SoughtBars(cfg, inputs[..|inputs| - 1]) + if Sought(cfg, last) then [last.tick.bar] else []
  }

  /** The lowest low on the long side, the highest high on the short side. */
  function Furthest(side: PositionSide, bars: seq<Bar>): Option<real>
    decreases |bars|
  {
    if |bars| == 0 then None
    else
      var last := bars[|bars| - 1];
      var before := Furthest(side, bars[..|bars| - 1]);
      if side.Long? then Sink(before, last.low) else Raise(before, last.high)
  }

  /** The bar of `date` may be the one that classifies: nothing of that session is classified yet. */
  predicate Unclassified(m: Memory, date: int) {
    m.sessionDate != Some(date) || m.session.classification.None?
  }

  // ---- One bar ----

  lemma {:induction false} OpenSteps(cfg: RetestConfig, m: Memory, tick: Tick)
    requires Ready(m)
    ensures
      var awake := OpenBar(cfg, m, tick).0;
      && awake.positionSide == m.positionSide
      && (m.sessionDate != Some(tick.session.date) ==> awake.session.classification.None?)
      && (m.sessionDate == Some(tick.session.date) ==> awake.session.classification == m.session.classification)
      && (Seeking(awake.session.entryState) ==>
            m.sessionDate == Some(tick.session.date) && SameEntry(m.session, awake.session))
  {
    hide FinalizeSession;
    StartKeepsPosition(cfg, m, tick.session.date);
    if m.sessionDate != Some(tick.session.date) {
      StartKeeps(cfg, m, tick.session.date);
    }
  }

  lemma {:induction false} StartKeepsPosition(cfg: RetestConfig, m: Memory, date: int)
    ensures StartSession(cfg, m, date).positionSide == m.positionSide
    ensures StartSession(cfg, m, date).session.classification.None?
  {
    hide BuildFeatures, Classify;
  }

  lemma {:induction false} ObserveSteps(cfg: RetestConfig, m: Memory, tick: Tick)
    ensures
      var seen := ObserveRth(cfg, m, tick);
      && seen.positionSide == m.positionSide && seen.entryPending == m.entryPending
      && (seen.session.entryState.Armed? ==> SameEntry(m.session, seen.session))
      && (seen.session.entryState.WaitFirstRetest? ==>
            SameEntry(m.session, seen.session) || m.session.classification.None?)
  {
    hide BuildFeatures, Classify, TrackRth;
    TrackKeepsEntry(cfg, m.session, tick.bar, tick.session.minute);
  }

  /** The retest bar arms the setup: contact, hold, and its own range on record. */
  predicate Arms(cfg: RetestConfig, s: SessionState, bar: Bar, minute: int) {
    var u := SetupOf(s);
    && ObservationEnd(cfg) <= minute < cfg.entryEnd - 1
    && Contact(cfg, u, bar) && Holds(cfg, u, bar)
    && s.retestHigh == Some(bar.high) && s.retestLow == Some(bar.low)
    && s.structuralExtreme == Some(if u.side.Long? then bar.low else bar.high)
    && s.confirmationBars == 0
  }

  lemma {:induction false} CancelledIsDone(m: Memory, bar: Bar, what: CancelReason, level: Option<real>,
                                           location: Option<real>, bars: Option<nat>)
    ensures Cancel(m, bar, what, level, location, bars).session == m.session.(entryState := Done)
  {
  }

  lemma {:induction false} FirstRetestSteps(cfg: RetestConfig, m: Memory, bar: Bar, minute: int)
    requires Ready(m) && m.session.entryState.WaitFirstRetest? && ObservationEnd(cfg) <= minute < cfg.entryEnd - 1
    ensures
      var next := FirstRetest(cfg, m, bar);
      && SetupOf(next.session) == SetupOf(m.session)
      && (next.session.entryState.WaitFirstRetest? ==> next == m && !Contact(cfg, SetupOf(m.session), bar))
      && (next.session.entryState.Armed? ==> Arms(cfg, next.session, bar, minute))
  {
    hide Contact, Holds, Cancel;
    CancelledIsDone(m, bar, FirstRetestFailedHold, Some(SetupOf(m.session).reference), CloseLocation(bar), None);
  }

  lemma {:induction false} PlacedSteps(cfg: RetestConfig, m: Memory, bar: Bar)
    requires cfg.tickSize > 0.0
    ensures
      var next := Place(cfg, m, bar).0;
      SetupOf(next.session) == SetupOf(m.session) && !Seeking(next.session.entryState)
  {
    hide PlanOf, OrderMetadata;
  }

  lemma {:induction false} ConfirmationSteps(cfg: RetestConfig, m: Memory, bar: Bar)
    requires cfg.tickSize > 0.0 && Ready(m) && m.session.entryState.Armed?
    ensures
      var next := Confirmation(cfg, m, bar).0;
      && SetupOf(next.session) == SetupOf(m.session)
      && !next.session.entryState.WaitFirstRetest?
      && (next.session.entryState.Armed? ==> next == Extended(m, bar))
  {
    hide Invalidated, Confirmed, Place, Cancel;
    var seen := Extended(m, bar);
    PlacedSteps(cfg, seen, bar);
    CancelledIsDone(seen, bar, ArmedReferenceInvalidated, Some(SetupOf(m.session).reference), None, None);
    CancelledIsDone(seen, bar, ConfirmationExpired, None, None, Some(seen.session.confirmationBars));
  }

  lemma {:induction false} SeekSteps(cfg: RetestConfig, m: Memory, bar: Bar, minute: int)
    requires cfg.tickSize > 0.0 && Ready(m)
    ensures
      var next := SeekEntry(cfg, m, bar, minute).0;
      && SetupOf(next.session) == SetupOf(m.session)
      && (next.session.entryState.WaitFirstRetest? ==>
            && next == m
            && (minute >= ObservationEnd(cfg) && m.positionSide.None? ==> !Contact(cfg, SetupOf(m.session), bar)))
      && (next.session.entryState.Armed? ==>
            || (m.session.entryState.WaitFirstRetest? && minute >= ObservationEnd(cfg)
                && Arms(cfg, next.session, bar, minute))
            || (m.session.entryState.Armed? && next == if minute >= ObservationEnd(cfg) then Extended(m, bar) else m))
  {
    hide Contact, Arms, FirstRetest, Confirmation, Cancel;
    if m.session.entryState.WaitFirstRetest? {
      CancelledIsDone(m, bar, FirstRetestWindowExpired, None, None, None);
      CancelledIsDone(m, bar, EntryWindowExpired, None, None, None);
      if ObservationEnd(cfg) <= minute < cfg.entryEnd - 1 {
        FirstRetestSteps(cfg, m, bar, minute);
      }
    } else if m.session.entryState.Armed? {
      CancelledIsDone(m, bar, EntryWindowExpired, None, None, None);
      ConfirmationSteps(cfg, m, bar);
    }
  }

  lemma {:induction false} SameEntrySameSetup(a: Memory, b: Memory, bar: Bar)
    requires SameEntry(a.session, b.session)
    ensures SetupOf(a.session) == SetupOf(b.session)
    ensures SameEntry(Extended(a, bar).session, Extended(b, bar).session)
  {
  }

  lemma {:induction false} BarSteps(cfg: RetestConfig, m: Memory, tick: Tick)
    requires ValidRetestConfig(cfg) && Ready(m)
    ensures
      var next := OnBar(cfg, m, tick).0;
      var same := m.sessionDate == Some(tick.session.date);
      var sought := Sought(cfg, Saw(tick));
      && (next.session.entryState.WaitFirstRetest? ==>
            && (sought && m.positionSide.None? ==> !Contact(cfg, SetupOf(next.session), tick.bar))
            && (Unclassified(m, tick.session.date)
                || (same && m.session.entryState.WaitFirstRetest? && SetupOf(next.session) == SetupOf(m.session))))
      && (next.session.entryState.Armed? ==>
            || (&& sought && Arms(cfg, next.session, tick.bar, tick.session.minute)
                && (Unclassified(m, tick.session.date)
                    || (same && m.session.entryState.WaitFirstRetest? && SetupOf(next.session) == SetupOf(m.session))))
            || (&& same && m.session.entryState.Armed?
                && SameEntry(if sought then Extended(m, tick.bar).session else m.session, next.session)))
  {
    hide OpenBar, ObserveRth, SeekEntry, Contact, Arms;
    OpenSteps(cfg, m, tick);
    OpenKeeps(cfg, m, tick);
    var awake := OpenBar(cfg, m, tick).0;
    if tick.session.isRth {
      var seen := ObserveRth(cfg, awake, tick);
      ObserveSteps(cfg, awake, tick);
      ObserveKeeps(cfg, awake, tick);
      SeekSteps(cfg, seen, tick.bar, tick.session.minute);
      if seen.session.entryState.Armed? {
        assert SameEntry(m.session, seen.session);
        SameEntrySameSetup(m, seen, tick.bar);
      } else if seen.session.entryState.WaitFirstRetest? && SameEntry(awake.session, seen.session) {
        assert SameEntry(m.session, seen.session);
        SameEntrySameSetup(m, seen, tick.bar);
      }
    }
  }

  // ---- Whole histories ----

  /** Nothing sought in `[from, to)` while flat touched the level. */
  predicate Untouched(cfg: RetestConfig, inputs: seq<Input>, u: Setup, from: nat, to: nat)
    requires cfg.tickSize > 0.0 && from <= to <= |inputs|
  {
    forall i :: from <= i < to && Sought(cfg, inputs[i]) && Remember(cfg, inputs[..i]).positionSide.None? ==>
      !Contact(cfg, u, inputs[i].tick.bar)
  }

  /** `f` is the bar that classified the session now running. */
  predicate ClassifiedAt(cfg: RetestConfig, inputs: seq<Input>, f: nat, date: int)
    requires cfg.tickSize > 0.0 && f < |inputs|
  {
    && inputs[f].Saw?
    && Unclassified(Remember(cfg, inputs[..f]), date)
    && WithinSession(inputs, f, |inputs| - 1, date)
  }

  lemma {:induction false} HearSteps(m: Memory, item: Feedback)
    ensures Seeking(Hear(m, item).session.entryState) ==> Hear(m, item) == m
  {
  }

  /** While the strategy waits for the first retest, no bar since the classification touched the level. */
  lemma {:induction false} WaitingStory(cfg: RetestConfig, inputs: seq<Input>, date: int) returns (f: nat)
    requires ValidRetestConfig(cfg)
    requires Remember(cfg, inputs).session.entryState.WaitFirstRetest?
    requires Remember(cfg, inputs).sessionDate == Some(date)
    ensures f < |inputs| && ClassifiedAt(cfg, inputs, f, date)
    ensures Untouched(cfg, inputs, SetupOf(Remember(cfg, inputs).session), f, |inputs|)
    decreases |inputs|
  {
    hide OnBar, Hear, SetupOf, Contact, Ready, NEW_MEMORY;
    if |inputs| == 0 {
      FreshIsReady();
      assert false;
    }
    var n := |inputs| - 1;
    var before := inputs[..n];
    EveryMemoryIsReady(cfg, before);
    match inputs[n]
    case Heard(item) =>
      HearSteps(Remember(cfg, before), item);
      f := WaitingStory(cfg, before, date);
      Longer(cfg, inputs, f, date, SetupOf(Remember(cfg, inputs).session));
    case Saw(tick) =>
      BarKeeps(cfg, Remember(cfg, before), tick);
      BarSteps(cfg, Remember(cfg, before), tick);
      if Unclassified(Remember(cfg, before), date) {
        f := n;
      } else {
        f := WaitingStory(cfg, before, date);
        Longer(cfg, inputs, f, date, SetupOf(Remember(cfg, inputs).session));
      }
  }

  lemma {:induction false} Longer(cfg: RetestConfig, inputs: seq<Input>, f: nat, date: int, u: Setup)
    requires cfg.tickSize > 0.0
    requires |inputs| > 0 && f < |inputs| - 1
    requires ClassifiedAt(cfg, inputs[..|inputs| - 1], f, date)
    requires inputs[|inputs| - 1].Saw? ==> inputs[|inputs| - 1].tick.session.date == date
    ensures ClassifiedAt(cfg, inputs, f, date)
    ensures Untouched(cfg, inputs[..|inputs| - 1], u, f, |inputs| - 1) ==> Untouched(cfg, inputs, u, f, |inputs| - 1)
  {
    hide Remember, Unclassified, Contact, Sought;
    var before := inputs[..|inputs| - 1];
    assert forall i :: 0 <= i < |inputs| - 1 ==> before[i] == inputs[i] && before[..i] == inputs[..i];
  }

  /** An armed setup: the first bar to touch the level held it, and everything since is on record. */
  predicate HeldFirstRetest(cfg: RetestConfig, inputs: seq<Input>, f: nat, k: nat, date: int)
    requires cfg.tickSize > 0.0 && f <= k < |inputs|
  {
    var s := Remember(cfg, inputs).session;
    var u := SetupOf(s);
    && ClassifiedAt(cfg, inputs, f, date)
    && Untouched(cfg, inputs, u, f, k)
    && Sought(cfg, inputs[k])
    && inputs[k].tick.session.minute < cfg.entryEnd - 1
    && Contact(cfg, u, inputs[k].tick.bar)
    && Holds(cfg, u, inputs[k].tick.bar)
    && s.retestHigh == Some(inputs[k].tick.bar.high)
    && s.retestLow == Some(inputs[k].tick.bar.low)
    && s.structuralExtreme == Furthest(u.side, SoughtBars(cfg, inputs[k..]))
    && s.confirmationBars == |SoughtBars(cfg, inputs[k + 1..])|
  }

  lemma {:induction false} OneSought(cfg: RetestConfig, inputs: seq<Input>)
    requires |inputs| > 0 && Sought(cfg, inputs[|inputs| - 1])
    ensures SoughtBars(cfg, inputs[|inputs|..]) == []
    ensures SoughtBars(cfg, inputs[|inputs| - 1..]) == [inputs[|inputs| - 1].tick.bar]
  {
    var last := inputs[|inputs| - 1];
    assert inputs[|inputs| - 1..] == [last];
    assert [last][..0] == [];
    assert SoughtBars(cfg, []) == [];
  }

  lemma {:induction false} FurthestOfOne(side: PositionSide, bar: Bar)
    ensures Furthest(side, [bar]) == Some(if side.Long? then bar.low else bar.high)
  {
    assert [bar][..0] == [];
    assert Furthest(side, []) == None;
  }

  lemma {:induction false} ArmsNow(cfg: RetestConfig, inputs: seq<Input>, f: nat, date: int)
    requires cfg.tickSize > 0.0 && |inputs| > 0 && f <= |inputs| - 1
    requires ClassifiedAt(cfg, inputs, f, date) && Sought(cfg, inputs[|inputs| - 1])
    requires Untouched(cfg, inputs, SetupOf(Remember(cfg, inputs).session), f, |inputs| - 1)
    requires Arms(cfg, Remember(cfg, inputs).session, inputs[|inputs| - 1].tick.bar,
                  inputs[|inputs| - 1].tick.session.minute)
    ensures HeldFirstRetest(cfg, inputs, f, |inputs| - 1, date)
  {
    hide Remember, ClassifiedAt, Untouched, SetupOf, Contact, Holds, SoughtBars, Furthest;
    var last := inputs[|inputs| - 1];
    OneSought(cfg, inputs);
    FurthestOfOne(SetupOf(Remember(cfg, inputs).session).side, last.tick.bar);
  }

  lemma {:induction false} OneMoreSought(cfg: RetestConfig, inputs: seq<Input>, from: nat)
    requires from < |inputs|
    ensures
      var last := inputs[|inputs| - 1];
      SoughtBars(cfg, inputs[from..])
        == SoughtBars(cfg, inputs[..|inputs| - 1][from..]) + if Sought(cfg, last) then [last.tick.bar] else []
  {
    assert inputs[from..][..|inputs| - from - 1] == inputs[..|inputs| - 1][from..];
  }

  lemma {:induction false} FurthestGrows(side: PositionSide, bars: seq<Bar>, bar: Bar)
    ensures Furthest(side, bars + [bar])
            == if side.Long? then Sink(Furthest(side, bars), bar.low) else Raise(Furthest(side, bars), bar.high)
  {
    assert (bars + [bar])[..|bars|] == bars;
  }

  lemma {:induction false} StaysArmed(cfg: RetestConfig, inputs: seq<Input>, f: nat, k: nat, date: int)
    requires cfg.tickSize > 0.0 && |inputs| > 0 && f <= k < |inputs| - 1
    requires HeldFirstRetest(cfg, inputs[..|inputs| - 1], f, k, date)
    requires inputs[|inputs| - 1].Saw? ==> inputs[|inputs| - 1].tick.session.date == date
    requires
      var before := Remember(cfg, inputs[..|inputs| - 1]);
      var last := inputs[|inputs| - 1];
      SameEntry(if Sought(cfg, last) then Extended(before, last.tick.bar).session else before.session,
                Remember(cfg, inputs).session)
    ensures HeldFirstRetest(cfg, inputs, f, k, date)
  {
    hide Remember, Contact, Holds, ClassifiedAt, Untouched, SoughtBars, Furthest;
    var before := inputs[..|inputs| - 1];
    var last := inputs[|inputs| - 1];
    var u := SetupOf(Remember(cfg, before).session);
    assert before[k] == inputs[k];
    Longer(cfg, inputs, f, date, u);
    StillUntouched(cfg, inputs, u, f, k);
    OneMoreSought(cfg, inputs, k);
    OneMoreSought(cfg, inputs, k + 1);
    if Sought(cfg, last) {
      FurthestGrows(u.side, SoughtBars(cfg, before[k..]), last.tick.bar);
      assert SoughtBars(cfg, inputs[k..]) == SoughtBars(cfg, before[k..]) + [last.tick.bar];
    } else {
      assert SoughtBars(cfg, inputs[k..]) == SoughtBars(cfg, before[k..]);
    }
  }

  lemma {:induction false} StillUntouched(cfg: RetestConfig, inputs: seq<Input>, u: Setup, from: nat, to: nat)
    requires cfg.tickSize > 0.0 && from <= to < |inputs|
    requires Untouched(cfg, inputs[..|inputs| - 1], u, from, to)
    ensures Untouched(cfg, inputs, u, from, to)
  {
    hide Remember, Contact, Sought;
    var before := inputs[..|inputs| - 1];
    assert forall i :: 0 <= i < |inputs| - 1 ==> before[i] == inputs[i] && before[..i] == inputs[..i];
  }

  lemma {:induction false} ArmedStory(cfg: RetestConfig, inputs: seq<Input>, date: int) returns (f: nat, k: nat)
    requires ValidRetestConfig(cfg)
    requires Remember(cfg, inputs).session.entryState.Armed? && Remember(cfg, inputs).sessionDate == Some(date)
    ensures f <= k < |inputs| && HeldFirstRetest(cfg, inputs, f, k, date)
    decreases |inputs|
  {
    hide OnBar, Hear, SetupOf, Contact, Ready, NEW_MEMORY, HeldFirstRetest, Arms, Extended, Untouched;
    if |inputs| == 0 {
      FreshIsReady();
      assert false;
    }
    var n := |inputs| - 1;
    var before := inputs[..n];
    EveryMemoryIsReady(cfg, before);
    match inputs[n]
    case Heard(item) =>
      HearSteps(Remember(cfg, before), item);
      f, k := ArmedStory(cfg, before, date);
      StaysArmed(cfg, inputs, f, k, date);
    case Saw(tick) =>
      BarKeeps(cfg, Remember(cfg, before), tick);
      BarSteps(cfg, Remember(cfg, before), tick);
      var m := Remember(cfg, before);
      if m.sessionDate == Some(date) && m.session.entryState.Armed?
         && SameEntry(if Sought(cfg, inputs[n]) then Extended(m, tick.bar).session else m.session,
                      Remember(cfg, inputs).session) {
        f, k := ArmedStory(cfg, before, date);
        StaysArmed(cfg, inputs, f, k, date);
      } else if Unclassified(Remember(cfg, before), date) {
        f, k := n, n;
        NothingYet(cfg, inputs, SetupOf(Remember(cfg, inputs).session));
        ArmsNow(cfg, inputs, n, date);
      } else {
        f := WaitingStory(cfg, before, date);
        k := n;
        Longer(cfg, inputs, f, date, SetupOf(Remember(cfg, inputs).session));
        ArmsNow(cfg, inputs, f, date);
      }
  }

  lemma {:induction false} NothingYet(cfg: RetestConfig, inputs: seq<Input>, u: Setup)
    requires cfg.tickSize > 0.0 && |inputs| > 0
    ensures Untouched(cfg, inputs, u, |inputs| - 1, |inputs| - 1)
  {
  }

  // ---- The order itself ----

  lemma {:induction false} OrderNeedsArms(cfg: RetestConfig, m: Memory, tick: Tick)
    requires ValidRetestConfig(cfg) && Ready(m) && OnBar(cfg, m, tick).1.orderIntents != []
    ensures m.session.entryState.Armed? && m.sessionDate == Some(tick.session.date)
    ensures tick.session.isRth && ObservationEnd(cfg) <= tick.session.minute < cfg.entryEnd
    ensures
      var seen := ObserveRth(cfg, OpenBar(cfg, m, tick).0, tick);
      && SameEntry(m.session, seen.session)
      && Confirmation(cfg, seen, tick.bar).1.Some?
      && OnBar(cfg, m, tick).1.orderIntents == Confirmation(cfg, seen, tick.bar).1.value.orderIntents
  {
    hide OpenBar, ObserveRth, Confirmation, FirstRetest, Cancel;
    OpenSteps(cfg, m, tick);
    OpenKeeps(cfg, m, tick);
    var awake := OpenBar(cfg, m, tick).0;
    if tick.session.isRth {
      ObserveSteps(cfg, awake, tick);
      ObserveKeeps(cfg, awake, tick);
    }
  }

  /** The confirming close, beyond the retest bar and the level by their margins. */
  predicate Confirms(cfg: RetestConfig, u: Setup, retest: Bar, bar: Bar) {
    var margin := cfg.confirmationMarginDtr * u.dtr;
    if u.side.Long? then bar.close >= retest.high + cfg.tickSize && bar.close >= u.reference + margin
    else bar.close <= retest.low - cfg.tickSize && bar.close <= u.reference - margin
  }

  function GridPrice(n: int, tick: real): real {
    n as real * tick
  }

  ghost predicate OnGrid(cfg: RetestConfig, price: real) {
    exists n: int :: price == GridPrice(n, cfg.tickSize)
  }

  /** The order in the setup's direction, its stop the grid price just past the worst price and its buffer. */
  ghost predicate OrderFrom(cfg: RetestConfig, u: Setup, worst: Option<real>, bars: nat, bar: Bar, order: OrderIntent)
    requires cfg.tickSize > 0.0
  {
    var buffer := cfg.stopBufferDtr * u.dtr;
    && order.side == (if u.side.Long? then Buy else Sell)
    && order.timestamp == bar.timestamp
    && order.metadata.signalPrice == Some(bar.close)
    && order.metadata.referencePrice == Some(u.reference)
    && order.metadata.geometry.Some? && order.metadata.geometry.value.confirmationBars == Some(bars)
    && worst.Some? && order.metadata.stopPrice.Some?
    && OnGrid(cfg, order.metadata.stopPrice.value)
    && var past := if u.side.Long? then worst.value - buffer - order.metadata.stopPrice.value
                   else order.metadata.stopPrice.value - worst.value - buffer;
       -EPSILON <= past < cfg.tickSize - EPSILON
  }

  lemma {:induction false} Scaled(a: real, b: real, k: real)
    requires k > 0.0 && a <= b
    ensures a * k <= b * k && (a < b ==> a * k < b * k)
  {
  }

  lemma {:induction false} ScaledFloor(q: real, x: real, tick: real)
    requires tick > 0.0 && q * tick == x
    ensures GridPrice(q.Floor, tick) <= x < GridPrice(q.Floor, tick) + tick
  {
    var n := q.Floor as real;
    Scaled(n, q, tick);
    assert q - n < 1.0;
    var part := q - n;
    Scaled(part, 1.0, tick);
    assert part * tick < tick;
    assert q == n + part;
    assert q * tick == n * tick + part * tick;
    assert GridPrice(q.Floor, tick) == n * tick;
    assert x == q * tick;
    assert x < n * tick + tick;
  }

  lemma {:induction false} FloorBounds(x: real, tick: real)
    requires tick > 0.0
    ensures
      var floor := GridPrice((x / tick).Floor, tick);
      floor <= x < floor + tick
  {
    ScaledFloor(x / tick, x, tick);
  }

  lemma {:induction false} CeilingBounds(x: real, tick: real)
    requires tick > 0.0
    ensures
      var ceiling := GridPrice(Ceiling(x / tick), tick);
      ceiling - tick < x <= ceiling
  {
    ScaledFloor(-(x / tick), -x, tick);
  }

  lemma {:induction false} RoundsToGrid(cfg: RetestConfig, price: real)
    requires cfg.tickSize > 0.0
    ensures OnGrid(cfg, RoundDown(cfg, price)) && OnGrid(cfg, RoundUp(cfg, price))
    ensures -EPSILON <= price - RoundDown(cfg, price) < cfg.tickSize - EPSILON
    ensures -EPSILON <= RoundUp(cfg, price) - price < cfg.tickSize - EPSILON
  {
    FloorBounds(price + EPSILON, cfg.tickSize);
    CeilingBounds(price - EPSILON, cfg.tickSize);
    assert RoundDown(cfg, price) == GridPrice(((price + EPSILON) / cfg.tickSize).Floor, cfg.tickSize);
    assert RoundUp(cfg, price) == GridPrice(Ceiling((price - EPSILON) / cfg.tickSize), cfg.tickSize);
  }

  lemma {:induction false} StopPastWorst(cfg: RetestConfig, u: Setup, worst: real)
    requires cfg.tickSize > 0.0
    ensures
      var stop := StopFrom(cfg, u, worst);
      var buffer := cfg.stopBufferDtr * u.dtr;
      && OnGrid(cfg, stop)
      && -EPSILON <= (if u.side.Long? then worst - buffer - stop else stop - worst - buffer) < cfg.tickSize - EPSILON
  {
    hide RoundDown, RoundUp, OnGrid;
    var buffer := Share(cfg.stopBufferDtr, u.dtr);
    RoundsToGrid(cfg, Below(worst, buffer));
    RoundsToGrid(cfg, Above(worst, buffer));
  }

  lemma {:induction false} PlacedOrder(cfg: RetestConfig, m: Memory, bar: Bar)
    requires cfg.tickSize > 0.0 && m.session.structuralExtreme.Some? && Place(cfg, m, bar).1.orderIntents != []
    ensures
      OrderFrom(cfg, SetupOf(m.session), m.session.structuralExtreme, m.session.confirmationBars, bar,
                Place(cfg, m, bar).1.orderIntents[0])
  {
    hide StopFrom, TargetFrom, BranchReason, Over, Abs, SetupOf, Noted, OnGrid;
    StopPastWorst(cfg, SetupOf(m.session), m.session.structuralExtreme.value);
  }

  lemma {:induction false} ConfirmedOrder(cfg: RetestConfig, m: Memory, bar: Bar, retest: Bar)
    requires ValidRetestConfig(cfg) && Ready(m) && m.session.entryState.Armed?
    requires m.session.retestHigh == Some(retest.high) && m.session.retestLow == Some(retest.low)
    requires Confirmation(cfg, m, bar).1.Some? && Confirmation(cfg, m, bar).1.value.orderIntents != []
    ensures Confirms(cfg, SetupOf(m.session), retest, bar)
    ensures
      var seen := Extended(m, bar).session;
      OrderFrom(cfg, SetupOf(m.session), seen.structuralExtreme, seen.confirmationBars, bar,
                Confirmation(cfg, m, bar).1.value.orderIntents[0])
  {
    hide Invalidated, Cancel, Place, OrderFrom;
    PlacedOrder(cfg, Extended(m, bar), bar);
  }

  lemma {:induction false} WorstSince(cfg: RetestConfig, inputs: seq<Input>, k: nat, n: nat, side: PositionSide)
    requires k < n < |inputs| && Sought(cfg, inputs[n])
    ensures
      var before := Furthest(side, SoughtBars(cfg, inputs[..n][k..]));
      var bar := inputs[n].tick.bar;
      Furthest(side, SoughtBars(cfg, inputs[k..n + 1]))
        == if side.Long? then Sink(before, bar.low) else Raise(before, bar.high)
  {
    hide Furthest, SoughtBars;
    assert inputs[..n + 1][k..] == inputs[k..n + 1];
    assert inputs[..n + 1][..n] == inputs[..n];
    OneMoreSought(cfg, inputs[..n + 1], k);
    FurthestGrows(side, SoughtBars(cfg, inputs[..n][k..]), inputs[n].tick.bar);
  }

  /**
   * No trade without its story: behind every order stands the first bar since the classification to touch
   * the level, which held it, then a later bar that confirmed; and the stop hangs on the worst price from
   * the one to the other.
   */
  lemma {:induction false} EveryOrderHasItsStory(cfg: RetestConfig, inputs: seq<Input>, n: nat) returns (f: nat, k: nat)
    requires ValidRetestConfig(cfg) && n < |inputs| && Orders(cfg, inputs, n) != []
    ensures f <= k < n && inputs[n].Saw? && inputs[k].Saw?
    ensures HeldFirstRetest(cfg, inputs[..n], f, k, inputs[n].tick.session.date)
    ensures
      var u := SetupOf(Remember(cfg, inputs[..n]).session);
      && Confirms(cfg, u, inputs[k].tick.bar, inputs[n].tick.bar)
      && OrderFrom(cfg, u, Furthest(u.side, SoughtBars(cfg, inputs[k..n + 1])),
                   Remember(cfg, inputs[..n]).session.confirmationBars + 1, inputs[n].tick.bar,
                   Orders(cfg, inputs, n)[0])
  {
    hide OnBar, OpenBar, ObserveRth, Confirmation, ReadySession, Confirms, OrderFrom, Untouched, ClassifiedAt,
         Furthest, SoughtBars, Contact, Holds, NEW_MEMORY;
    var m := Remember(cfg, inputs[..n]);
    var tick := inputs[n].tick;
    EveryMemoryIsReady(cfg, inputs[..n]);
    OrderNeedsArms(cfg, m, tick);
    f, k := ArmedStory(cfg, inputs[..n], tick.session.date);
    var seen := ObserveRth(cfg, OpenBar(cfg, m, tick).0, tick);
    OpenKeeps(cfg, m, tick);
    ObserveKeeps(cfg, OpenBar(cfg, m, tick).0, tick);
    SameEntrySameSetup(m, seen, tick.bar);
    ConfirmedOrder(cfg, seen, tick.bar, inputs[k].tick.bar);
    WorstSince(cfg, inputs, k, n, SetupOf(m.session).side);
  }
}
