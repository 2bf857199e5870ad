/** Over whole histories: in a session left to itself the retest strategy enters exactly when the rules say. */
module EntryHistory {
  import opened Prelude
  import opened Market
  import opened RetestModel
  import opened RetestInvariants
  import opened RetestHistory
  import opened EntryRules
  import Frozen = FrozenFeatures
  import Story = RetestStory

  /** The entry window follows the observation, as the configuration demands. */
  predicate WindowsInOrder(cfg: RetestConfig) {
    cfg.observationStart + cfg.observationMinutes < cfg.entryEnd
  }

  /** From input f, which ends the observation and finds no position, only bars of one session come. */
  predicate Undisturbed(cfg: RetestConfig, inputs: seq<Input>, f: nat)
    requires cfg.tickSize > 0.0 && f < |inputs|
  {
    && inputs[f].Saw? && Frozen.Closing(cfg, inputs[f].tick)
    && Story.Unclassified(Remember(cfg, inputs[..f]), inputs[f].tick.session.date)
    && Remember(cfg, inputs[..f]).positionSide.None?
    && forall i :: f <= i < |inputs| ==>
         inputs[i].Saw? && inputs[i].tick.session.date == inputs[f].tick.session.date
  }

  // ---- The parts of a bar before the entry logic ----

  lemma {:induction false} AlikeTwice(a: SessionState, b: SessionState, c: SessionState)
    requires SeeksAlike(a, b) && SeeksAlike(b, c)
    ensures SeeksAlike(a, c)
  {
  }

  lemma {:induction false} OpenAlike(cfg: RetestConfig, m: Memory, tick: Tick)
    requires Ready(m) && m.sessionDate == Some(tick.session.date)
    ensures SeeksAlike(m.session, OpenBar(cfg, m, tick).0.session)
    ensures OpenBar(cfg, m, tick).0.positionSide == m.positionSide
  {
  }

  lemma {:induction false} ObserveAlike(cfg: RetestConfig, m: Memory, tick: Tick)
    requires m.session.classification.Some?
    ensures SeeksAlike(m.session, ObserveRth(cfg, m, tick).session)
    ensures ObserveRth(cfg, m, tick).positionSide == m.positionSide
  {
    hide TrackRth;
    TrackKeepsEntry(cfg, m.session, tick.bar, tick.session.minute);
  }

  lemma {:induction false} OvernightAlike(m: Memory, bar: Bar, minute: int)
    ensures SeeksAlike(m.session, TrackOvernight(m.session, bar, minute))
  {
  }

  lemma {:induction false} StartUnclassified(cfg: RetestConfig, m: Memory, tick: Tick)
    requires Story.Unclassified(m, tick.session.date)
    ensures OpenBar(cfg, m, tick).0.session.classification.None?
    ensures OpenBar(cfg, m, tick).0.positionSide == m.positionSide
  {
    hide FinalizeSession;
    Story.StartKeepsPosition(cfg, m, tick.session.date);
  }

  lemma {:induction false} ClosingFreezes(cfg: RetestConfig, m: Memory, tick: Tick)
    requires m.session.classification.None? && Frozen.Closing(cfg, tick)
    ensures
      var seen := ObserveRth(cfg, m, tick);
      && seen.session.classification.Some? && seen.positionSide == m.positionSide
      && (Tradable(seen.session) ==> seen.session.entryState.WaitFirstRetest?)
  {
    hide BuildFeatures, Classify, TrackRth;
    TrackKeepsEntry(cfg, m.session, tick.bar, tick.session.minute);
  }

  /** The average is up to date when the entry logic runs. */
  lemma {:induction false} SeenAverages(cfg: RetestConfig, ticks: seq<Tick>, tick: Tick, m: Memory)
    requires Recorded(cfg, ticks, m) && tick.session.isRth
    ensures Averages(ObserveRth(cfg, OpenBar(cfg, m, tick).0, tick).session, Rth(Today(ticks + [tick])))
  {
    hide OpenBar, TrackRth, FreezeClassification, Recorded, SameDay, SameHistory, Rth, Today, Averages;
    var awake := OpenBar(cfg, m, tick).0;
    var tracked := awake.(session := TrackRth(cfg, awake.session, tick.bar, tick.session.minute));
    Frozen.TrackedIsRecorded(cfg, ticks, tick, m);
    FreezingKeeps(cfg, tracked, tick.bar.timestamp);
    SameAsItself(tracked);
    SameIsRecorded(cfg, ticks + [tick], tracked, ObserveRth(cfg, awake, tick));
    RecordedAverages(cfg, ticks + [tick], ObserveRth(cfg, awake, tick));
  }

  lemma {:induction false} RecordedAverages(cfg: RetestConfig, ticks: seq<Tick>, m: Memory)
    requires Recorded(cfg, ticks, m) && |ticks| > 0
    ensures Averages(m.session, Rth(Today(ticks)))
  {
    hide IsHigh, IsLow, OpeningIs, HistoryIs, Volume, Turnover, Rth, Today, Advances, Sides, Night, Opening;
  }

  // ---- The entry state over a session ----

  /** The session's state after its last input so far. */
  ghost predicate ByTheRules(cfg: RetestConfig, inputs: seq<Input>, f: nat, m: Memory)
    requires f < |inputs|
  {
    && m.positionSide.None? && m.session.classification.Some?
    && (Tradable(m.session) ==>
          Complete(m.session) && Follows(cfg, Seen(inputs), |Seen(inputs[..f])|, m.session))
  }

  lemma {:induction false} NothingYet(cfg: RetestConfig, all: seq<Tick>, s: SessionState)
    requires Tradable(s) && Complete(s) && s.entryState.WaitFirstRetest?
    ensures Follows(cfg, all, |all|, s)
  {
    var t := TermsOf(s);
    assert forall k :: !Stands(cfg, t, all, |all|, k) by {
      forall k: int
        ensures !Stands(cfg, t, all, |all|, k)
      {
        StandsOnlyWithin(cfg, t, all, |all|, k);
      }
    }
  }

  /** What the entry logic finds on the bar that classifies, and on every later one. */
  lemma {:induction false} SeenFollows(cfg: RetestConfig, inputs: seq<Input>, f: nat)
    requires ValidRetestConfig(cfg) && WindowsInOrder(cfg)
    requires f < |inputs| && Undisturbed(cfg, inputs, f) && inputs[|inputs| - 1].tick.session.isRth
    requires f < |inputs| - 1 ==> ByTheRules(cfg, inputs[..|inputs| - 1], f, Remember(cfg, inputs[..|inputs| - 1]))
    ensures
      var m, tick := Remember(cfg, inputs[..|inputs| - 1]), inputs[|inputs| - 1].tick;
      var seen := ObserveRth(cfg, OpenBar(cfg, m, tick).0, tick);
      && Ready(seen) && seen.positionSide.None? && seen.session.classification.Some?
      && Averages(seen.session, Rth(Today(Seen(inputs))))
      && (Tradable(seen.session) ==>
            && Complete(seen.session)
            && Follows(cfg, Seen(inputs[..|inputs| - 1]), |Seen(inputs[..f])|, seen.session))
      && (f < |inputs| - 1 ==> SeeksAlike(m.session, seen.session))
  {
    hide OnBar, OpenBar, ObserveRth, Follows, Ready, Averages, Recorded, Remember, Tradable;
    var n := |inputs| - 1;
    var before, tick := inputs[..n], inputs[n].tick;
    var m := Remember(cfg, before);
    EveryMemoryIsReady(cfg, before);
    EveryHistoryIsRecorded(cfg, before);
    SeenAverages(cfg, Seen(before), tick, m);
    OpenKeeps(cfg, m, tick);
    var awake := OpenBar(cfg, m, tick).0;
    ObserveKeeps(cfg, awake, tick);
    var seen := ObserveRth(cfg, awake, tick);
    ReadyCompletes(seen);
    if n == f {
      StartUnclassified(cfg, m, tick);
      ClosingFreezes(cfg, awake, tick);
      if Tradable(seen.session) {
        NothingYet(cfg, Seen(before), seen.session);
      }
    } else {
      SameSession(cfg, inputs, f);
      OpenAlike(cfg, m, tick);
      ObserveAlike(cfg, awake, tick);
      AlikeTwice(m.session, awake.session, seen.session);
      SeenAlike(cfg, inputs, f, m, seen);
    }
  }

  lemma {:induction false} ReadyCompletes(m: Memory)
    requires Ready(m)
    ensures Tradable(m.session) ==> Complete(m.session)
  {
  }

  lemma {:induction false} SameSession(cfg: RetestConfig, inputs: seq<Input>, f: nat)
    requires cfg.tickSize > 0.0 && f < |inputs| - 1 && Undisturbed(cfg, inputs, f)
    ensures Remember(cfg, inputs[..|inputs| - 1]).sessionDate == Some(inputs[|inputs| - 1].tick.session.date)
  {
    hide OnBar;
    var before := inputs[..|inputs| - 1];
    EveryHistoryIsRecorded(cfg, before);
    var last := before[|before| - 1];
    assert last.Saw? && last.tick.session.date == inputs[f].tick.session.date;
    LastSeen(before);
    hide HistoryIs, DayIs, Remember;
  }

  lemma {:induction false} LastSeen(inputs: seq<Input>)
    requires |inputs| > 0 && inputs[|inputs| - 1].Saw?
    ensures |Seen(inputs)| > 0 && Seen(inputs)[|Seen(inputs)| - 1] == inputs[|inputs| - 1].tick
    ensures Seen(inputs) == Seen(inputs[..|inputs| - 1]) + [inputs[|inputs| - 1].tick]
  {
  }

  lemma {:induction false} SeenAlike(cfg: RetestConfig, inputs: seq<Input>, f: nat, m: Memory, seen: Memory)
    requires f < |inputs| - 1 && ByTheRules(cfg, inputs[..|inputs| - 1], f, m)
    requires SeeksAlike(m.session, seen.session)
    ensures Tradable(seen.session) ==>
      Complete(seen.session) && Follows(cfg, Seen(inputs[..|inputs| - 1]), |Seen(inputs[..f])|, seen.session)
  {
    hide Follows;
    assert inputs[..|inputs| - 1][..f] == inputs[..f];
    if Tradable(seen.session) {
      AlikeFollows(cfg, Seen(inputs[..|inputs| - 1]), |Seen(inputs[..f])|, m.session, seen.session);
    }
  }

  lemma {:induction false} SeenGrows(inputs: seq<Input>, f: nat)
    requires f <= |inputs|
    ensures |Seen(inputs[..f])| <= |Seen(inputs)|
    decreases |inputs|
  {
    if f == |inputs| {
      assert inputs[..f] == inputs;
    } else {
      SeenGrows(inputs[..|inputs| - 1], f);
      assert inputs[..|inputs| - 1][..f] == inputs[..f];
    }
  }

  /** Outside the regular hours nothing is looked for. */
  lemma {:induction false} NightBarFollows(cfg: RetestConfig, inputs: seq<Input>, f: nat)
    requires ValidRetestConfig(cfg) && f < |inputs| - 1 && Undisturbed(cfg, inputs, f)
    requires !inputs[|inputs| - 1].tick.session.isRth
    requires ByTheRules(cfg, inputs[..|inputs| - 1], f, Remember(cfg, inputs[..|inputs| - 1]))
    ensures ByTheRules(cfg, inputs, f, Remember(cfg, inputs))
  {
    hide OpenBar, Follows, Ready, TrackOvernight, HistoryIs, DayIs;
    var n := |inputs| - 1;
    var before, tick := inputs[..n], inputs[n].tick;
    var m := Remember(cfg, before);
    EveryMemoryIsReady(cfg, before);
    SameSession(cfg, inputs, f);
    OpenAlike(cfg, m, tick);
    var awake := OpenBar(cfg, m, tick).0;
    OvernightAlike(awake, tick.bar, tick.session.minute);
    var next := Remember(cfg, inputs);
    assert next == awake.(session := TrackOvernight(awake.session, tick.bar, tick.session.minute));
    AlikeTwice(m.session, awake.session, next.session);
    SeenAlike(cfg, inputs, f, m, next);
    LastSeen(inputs);
    SeenGrows(before, f);
    assert before[..f] == inputs[..f];
    if Tradable(next.session) {
      IdleBarFollows(cfg, Seen(before), |Seen(inputs[..f])|, next.session, tick);
    }
  }

  lemma {:induction false} DayBarFollows(cfg: RetestConfig, inputs: seq<Input>, f: nat)
    requires ValidRetestConfig(cfg) && WindowsInOrder(cfg)
    requires f < |inputs| && Undisturbed(cfg, inputs, f) && inputs[|inputs| - 1].tick.session.isRth
    requires f < |inputs| - 1 ==> ByTheRules(cfg, inputs[..|inputs| - 1], f, Remember(cfg, inputs[..|inputs| - 1]))
    ensures ByTheRules(cfg, inputs, f, Remember(cfg, inputs))
  {
    hide OpenBar, ObserveRth, SeekEntry, Follows, Ready, Averages, Rth, Today;
    var n := |inputs| - 1;
    var before, tick := inputs[..n], inputs[n].tick;
    var m := Remember(cfg, before);
    SeenFollows(cfg, inputs, f);
    var seen := ObserveRth(cfg, OpenBar(cfg, m, tick).0, tick);
    var next := SeekEntry(cfg, seen, tick.bar, tick.session.minute).0;
    assert Remember(cfg, inputs) == next;
    SeekingKeeps(cfg, seen, tick.bar, tick.session.minute);
    LastSeen(inputs);
    SeenGrows(before, f);
    assert before[..f] == inputs[..f];
    if Tradable(next.session) {
      SeekFollows(cfg, Seen(before), |Seen(inputs[..f])|, seen, tick);
    }
  }

  /**
   * In every session left to itself since its classification, the strategy waits for a first touch exactly while
   * no bar has ended the wait, and is armed exactly while the first bar to touch has held and nothing since has
   * settled the matter.
   */
  lemma {:induction false} EntryStateIsByTheRules(cfg: RetestConfig, inputs: seq<Input>, f: nat)
    requires ValidRetestConfig(cfg) && WindowsInOrder(cfg) && f < |inputs| && Undisturbed(cfg, inputs, f)
    ensures ByTheRules(cfg, inputs, f, Remember(cfg, inputs))
    decreases |inputs|
  {
    hide ByTheRules, Remember;
    var before := inputs[..|inputs| - 1];
    if f == |inputs| - 1 {
      DayBarFollows(cfg, inputs, f);
    } else {
      assert before[..f] == inputs[..f];
      EntryStateIsByTheRules(cfg, before, f);
      if inputs[|inputs| - 1].tick.session.isRth {
        DayBarFollows(cfg, inputs, f);
      } else {
        NightBarFollows(cfg, inputs, f);
      }
    }
  }

  // ---- The order ----

  /** The stop lies just past the worst price and its buffer, by less than a tick. */
  predicate HangsOn(cfg: RetestConfig, t: Terms, ticks: seq<Tick>, worst: real, stop: real) {
    var past := if t.long then worst - cfg.stopBufferDtr * t.range - stop
                else stop - worst - cfg.stopBufferDtr * t.range;
    && (if t.long then IsLow(ticks, Some(worst)) else IsHigh(ticks, Some(worst)))
    && -EPSILON <= past < cfg.tickSize - EPSILON
  }

  /** The stop is the grid price just past the worst price of the bars and its buffer. */
  ghost predicate IsStop(cfg: RetestConfig, t: Terms, ticks: seq<Tick>, stop: real)
    requires cfg.tickSize > 0.0
  {
    Story.OnGrid(cfg, stop) && exists worst: real :: HangsOn(cfg, t, ticks, worst, stop)
  }

  function Risk(t: Terms, close: real, stop: real): real {
    if t.long then close - stop else stop - close
  }

  predicate Affordable(cfg: RetestConfig, t: Terms, risk: real) {
    cfg.minRiskDtr * t.range <= risk <= cfg.maxRiskDtr * t.range
  }

  /** The last bar triggers the entry on the retest of bar k, with that stop. */
  ghost predicate Triggers(cfg: RetestConfig, t: Terms, all: seq<Tick>, k: int, stop: real)
    requires cfg.tickSize > 0.0
  {
    && 0 <= k < |all| - 1
    && var last := all[|all| - 1];
       && Acts(cfg, last) && last.session.minute < cfg.entryEnd
       && !Loses(cfg, t, last.bar) && ConfirmsAt(cfg, t, all, k, |all| - 1)
       && IsStop(cfg, t, Acting(cfg, all[k..]), stop) && Affordable(cfg, t, Risk(t, last.bar.close, stop))
  }

  /** The order of such an entry: its direction, size, branch, price, stop and target. */
  ghost predicate OrderIs(cfg: RetestConfig, t: Terms, regime: Regime, bar: Bar, stop: real, order: OrderIntent)
    requires cfg.tickSize > 0.0
  {
    var risk := Risk(t, bar.close, stop);
    && order.side == (if t.long then Buy else Sell) && order.quantity == cfg.contracts
    && order.timestamp == bar.timestamp && order.symbol == bar.symbol
    && order.reason == (if regime.AcceptedBreak? then AcceptedBreakRetest else RejectedBreakRetest)
    && order.metadata.signalPrice == Some(bar.close) && order.metadata.stopPrice == Some(stop)
    && order.metadata.referencePrice == Some(t.level) && order.metadata.targetPrice.Some?
    && var target := order.metadata.targetPrice.value;
       && Story.OnGrid(cfg, target)
       && (if t.long then -EPSILON <= bar.close + cfg.rewardR * risk - target < cfg.tickSize - EPSILON
           else -EPSILON <= target - (bar.close - cfg.rewardR * risk) < cfg.tickSize - EPSILON)
  }

  /** Two grid prices less than a tick apart are one. */
  lemma {:induction false} OneOnGrid(cfg: RetestConfig, a: real, b: real)
    requires cfg.tickSize > 0.0 && Story.OnGrid(cfg, a) && Story.OnGrid(cfg, b) && -cfg.tickSize < a - b < cfg.tickSize
    ensures a == b
  {
    var i: int :| a == Story.GridPrice(i, cfg.tickSize);
    var j: int :| b == Story.GridPrice(j, cfg.tickSize);
    assert a - b == (i - j) as real * cfg.tickSize;
    if i > j {
      Story.Scaled(1.0, (i - j) as real, cfg.tickSize);
    } else if i < j {
      Story.Scaled((i - j) as real, -1.0, cfg.tickSize);
    }
  }

  lemma {:induction false} OneWorst(t: Terms, ticks: seq<Tick>, a: real, b: real)
    requires if t.long then IsLow(ticks, Some(a)) && IsLow(ticks, Some(b))
             else IsHigh(ticks, Some(a)) && IsHigh(ticks, Some(b))
    ensures a == b
  {
    OneHighOneLow(ticks, Some(a), Some(a));
    OneHighOneLow(ticks, Some(b), Some(b));
  }

  lemma {:induction false} OneStop(cfg: RetestConfig, t: Terms, ticks: seq<Tick>, a: real, b: real)
    requires cfg.tickSize > 0.0 && IsStop(cfg, t, ticks, a) && IsStop(cfg, t, ticks, b)
    ensures a == b
  {
    hide Story.OnGrid, IsLow, IsHigh;
    var x: real :| HangsOn(cfg, t, ticks, x, a);
    var y: real :| HangsOn(cfg, t, ticks, y, b);
    OneWorst(t, ticks, x, y);
    OneOnGrid(cfg, a, b);
  }

  lemma {:induction false} StopFromIsStop(cfg: RetestConfig, s: SessionState, ticks: seq<Tick>, worst: real)
    requires cfg.tickSize > 0.0 && Tradable(s) && Complete(s)
    requires if TermsOf(s).long then IsLow(ticks, Some(worst)) else IsHigh(ticks, Some(worst))
    ensures IsStop(cfg, TermsOf(s), ticks, StopFrom(cfg, SetupOf(s), worst))
  {
    hide Story.OnGrid, IsLow, IsHigh, StopFrom;
    Story.StopPastWorst(cfg, SetupOf(s), worst);
    assert HangsOn(cfg, TermsOf(s), ticks, worst, StopFrom(cfg, SetupOf(s), worst));
  }

  lemma {:induction false} TargetIsThere(cfg: RetestConfig, side: PositionSide, close: real, risk: real)
    requires cfg.tickSize > 0.0
    ensures
      var target := TargetFrom(cfg, side, close, risk);
      && Story.OnGrid(cfg, target)
      && (if side.Long? then -EPSILON <= close + cfg.rewardR * risk - target < cfg.tickSize - EPSILON
          else -EPSILON <= target - (close - cfg.rewardR * risk) < cfg.tickSize - EPSILON)
  {
    hide RoundDown, RoundUp, Story.OnGrid;
    var reward := Share(cfg.rewardR, risk);
    Story.RoundsToGrid(cfg, Above(close, reward));
    Story.RoundsToGrid(cfg, Below(close, reward));
  }

  lemma {:induction false} BandIsAffordable(cfg: RetestConfig, t: Terms, risk: real)
    requires t.range > 0.0
    ensures cfg.minRiskDtr <= risk / t.range <= cfg.maxRiskDtr <==> Affordable(cfg, t, risk)
  {
    ShareAtLeast(risk, t.range, cfg.minRiskDtr);
    ShareAtLeast(risk, t.range, cfg.maxRiskDtr);
  }

  /** The plan's own stop and target make the order. */
  lemma {:induction false} PlannedOrder(cfg: RetestConfig, m: Memory, bar: Bar, worst: real)
    requires cfg.tickSize > 0.0 && Tradable(m.session) && Complete(m.session)
    ensures
      var t, u := TermsOf(m.session), SetupOf(m.session);
      var plan := PlanOf(cfg, u, worst, bar.close);
      var orders := AcceptedOrder(cfg, m, bar, plan).1.orderIntents;
      && plan.risk == Risk(t, bar.close, StopFrom(cfg, u, worst)) && |orders| == 1
      && OrderIs(cfg, t, m.session.classification.value.regime, bar, StopFrom(cfg, u, worst), orders[0])
  {
    hide StopFrom, TargetFrom, Story.OnGrid, Noted, Over, Abs;
    var t, u := TermsOf(m.session), SetupOf(m.session);
    TargetIsThere(cfg, u.side, bar.close, Risk(t, bar.close, StopFrom(cfg, u, worst)));
  }

  /** A confirmed entry is ordered exactly when its risk fits the band, on those terms. */
  lemma {:induction false} PlacedIff(cfg: RetestConfig, m: Memory, bar: Bar, worst: real)
    requires cfg.tickSize > 0.0 && Tradable(m.session) && Complete(m.session)
    requires m.session.structuralExtreme == Some(worst)
    ensures
      var t, orders := TermsOf(m.session), Place(cfg, m, bar).1.orderIntents;
      var stop := StopFrom(cfg, SetupOf(m.session), worst);
      && (orders != [] <==> Affordable(cfg, t, Risk(t, bar.close, stop)))
      && |orders| <= 1
      && (orders != [] ==> OrderIs(cfg, t, m.session.classification.value.regime, bar, stop, orders[0]))
  {
    hide StopFrom, PlanOf, AcceptedOrder, OrderIs, Affordable, SetupOf, Risk;
    var t, u := TermsOf(m.session), SetupOf(m.session);
    SetupIsHeld(m.session);
    BandIsAffordable(cfg, t, Risk(t, bar.close, StopFrom(cfg, u, worst)));
    PlannedOrder(cfg, m, bar, worst);
  }

  /** An armed setup orders on the next acting bar if and only if the bar triggers it. */
  lemma {:induction false} ArmedOrders(cfg: RetestConfig, all: seq<Tick>, m: Memory, tick: Tick, k: nat)
    requires ValidRetestConfig(cfg) && WindowsInOrder(cfg) && Ready(m) && m.session.entryState.Armed?
    requires k < |all| && Acts(cfg, tick) && Tradable(m.session) && Complete(m.session)
    requires OnRecord(cfg, TermsOf(m.session), all, k, m.session)
    requires Averages(m.session, Rth(Today(all + [tick])))
    ensures
      var t, order := TermsOf(m.session), SeekEntry(cfg, m, tick.bar, tick.session.minute).1;
      var orders := if order.Some? then order.value.orderIntents else [];
      && |orders| <= 1
      && (orders != [] <==> exists stop :: Triggers(cfg, t, all + [tick], k, stop))
      && (orders != [] ==> exists stop :: Triggers(cfg, t, all + [tick], k, stop)
                             && OrderIs(cfg, t, m.session.classification.value.regime, tick.bar, stop, orders[0]))
  {
    hide SeekEntry, Ready, Confirmed, Invalidated, Loses, Confirms, Acting, IsLow, IsHigh, Averages, Rth, Today,
         Extended;
    hide IsStop, Affordable, OrderIs, Place, StopFrom;
    var t, more, seen := TermsOf(m.session), all + [tick], Extended(m, tick.bar);
    ArmedBar(cfg, m, tick.bar, tick.session.minute);
    LossIsInvalidation(cfg, m.session, tick.bar);
    ExtendedAlike(m, tick.bar, Rth(Today(more)));
    ConfirmingIsConfirming(cfg, seen.session, all[k].bar, tick.bar, Rth(Today(more)));
    ExtendedRecord(cfg, t, all, m, tick, k);
    assert more[..|more|] == more;
    var worst := seen.session.structuralExtreme.value;
    var stop := StopFrom(cfg, SetupOf(seen.session), worst);
    StopFromIsStop(cfg, seen.session, Acting(cfg, more[k..]), worst);
    PlacedIff(cfg, seen, tick.bar, worst);
    assert ConfirmsAt(cfg, t, more, k, |all|) <==> Confirmed(cfg, SetupOf(m.session), seen.session, tick.bar);
    if other: real :| Triggers(cfg, t, more, k, other) {
      OneStop(cfg, t, Acting(cfg, more[k..]), stop, other);
    }
    assert Triggers(cfg, t, more, k, stop) <==>
             && tick.session.minute < cfg.entryEnd && !Invalidated(cfg, SetupOf(m.session), tick.bar)
             && Confirmed(cfg, SetupOf(m.session), seen.session, tick.bar)
             && Affordable(cfg, t, Risk(t, tick.bar.close, stop));
    var order := SeekEntry(cfg, m, tick.bar, tick.session.minute).1;
    if order.Some? && order.value.orderIntents != [] {
      assert Triggers(cfg, t, more, k, stop);
      assert OrderIs(cfg, t, m.session.classification.value.regime, tick.bar, stop, order.value.orderIntents[0]);
    }
  }

  lemma {:induction false} OnlyArmedOrders(cfg: RetestConfig, m: Memory, bar: Bar, minute: int)
    requires cfg.tickSize > 0.0 && ObservationEnd(cfg) <= cfg.entryEnd
    requires !m.session.entryState.Armed? || minute < ObservationEnd(cfg)
    ensures SeekEntry(cfg, m, bar, minute).1.None?
  {
    hide FirstRetest, Cancel;
  }

  lemma {:induction false} OrdersOf(cfg: RetestConfig, inputs: seq<Input>)
    requires cfg.tickSize > 0.0 && |inputs| > 0 && inputs[|inputs| - 1].Saw?
    ensures
      var m, tick := Remember(cfg, inputs[..|inputs| - 1]), inputs[|inputs| - 1].tick;
      var order := SeekEntry(cfg, ObserveRth(cfg, OpenBar(cfg, m, tick).0, tick), tick.bar, tick.session.minute).1;
      Orders(cfg, inputs, |inputs| - 1)
      == if tick.session.isRth && order.Some? then order.value.orderIntents else []
  {
    hide OpenBar, ObserveRth, SeekEntry, Remember;
  }

  /** The order is the one the rules ask for, on the retest of bar k. */
  ghost predicate Answers(cfg: RetestConfig, t: Terms, regime: Regime, all: seq<Tick>, base: nat,
                          orders: seq<OrderIntent>)
    requires cfg.tickSize > 0.0 && |all| > 0
  {
    var before, bar := all[..|all| - 1], all[|all| - 1].bar;
    && |orders| <= 1
    && (orders != [] <==> exists k, stop :: Stands(cfg, t, before, base, k) && Triggers(cfg, t, all, k, stop))
    && (orders != [] ==>
          exists k, stop :: Stands(cfg, t, before, base, k) && Triggers(cfg, t, all, k, stop)
                            && OrderIs(cfg, t, regime, bar, stop, orders[0]))
  }

  lemma {:induction false} SeekAnswers(cfg: RetestConfig, all: seq<Tick>, base: nat, m: Memory, tick: Tick)
    requires ValidRetestConfig(cfg) && WindowsInOrder(cfg) && Ready(m) && base <= |all|
    requires Tradable(m.session) && Complete(m.session) && Follows(cfg, all, base, m.session) && tick.session.isRth
    requires Averages(m.session, Rth(Today(all + [tick])))
    ensures
      var order := SeekEntry(cfg, m, tick.bar, tick.session.minute).1;
      Answers(cfg, TermsOf(m.session), m.session.classification.value.regime, all + [tick], base,
              if order.Some? then order.value.orderIntents else [])
  {
    hide StillWaits, Stands, Leaves, Arms, OnRecord, SeekEntry, Ready, Averages, Rth, Today, OrderIs, IsStop,
         Affordable;
    hide Loses, ConfirmsAt;
    var t, more := TermsOf(m.session), all + [tick];
    assert more[..|more| - 1] == all;
    if m.session.entryState.Armed? && Acts(cfg, tick) {
      var k :| Stands(cfg, t, all, base, k);
      StandsOnlyWithin(cfg, t, all, base, k);
      ArmedOrders(cfg, all, m, tick, k);
      if j, stop :| Stands(cfg, t, all, base, j) && Triggers(cfg, t, more, j, stop) {
        OneStands(cfg, t, all, base, j, k);
      }
    } else {
      OnlyArmedOrders(cfg, m, tick.bar, tick.session.minute);
      NothingTriggers(cfg, t, all, base, m, tick);
    }
  }

  lemma {:induction false} NothingTriggers(cfg: RetestConfig, t: Terms, all: seq<Tick>, base: nat, m: Memory,
                                           tick: Tick)
    requires cfg.tickSize > 0.0 && Tradable(m.session) && Complete(m.session) && t == TermsOf(m.session)
    requires Follows(cfg, all, base, m.session) && !(m.session.entryState.Armed? && Acts(cfg, tick))
    ensures forall k, stop :: !(Stands(cfg, t, all, base, k) && Triggers(cfg, t, all + [tick], k, stop))
  {
    hide StillWaits, Stands, OnRecord, IsStop, Affordable, Loses, ConfirmsAt;
    assert (all + [tick])[|all|] == tick;
  }

  /**
   * No trade but by the rules, and none missed: in every session left to itself since its classification, a bar
   * orders if and only if a standing first retest and this bar trigger it, and then exactly that order.
   */
  lemma {:induction false} OrdersAreByTheRules(cfg: RetestConfig, inputs: seq<Input>, f: nat)
    requires ValidRetestConfig(cfg) && WindowsInOrder(cfg) && f < |inputs| - 1 && Undisturbed(cfg, inputs, f)
    ensures
      var m := Remember(cfg, inputs[..|inputs| - 1]);
      && m.session.classification.Some? && |Seen(inputs)| > 0
      && if !Tradable(m.session) then Orders(cfg, inputs, |inputs| - 1) == []
         else Complete(m.session)
              && Answers(cfg, TermsOf(m.session), m.session.classification.value.regime, Seen(inputs),
                         |Seen(inputs[..f])|, Orders(cfg, inputs, |inputs| - 1))
  {
    hide OnBar, OpenBar, ObserveRth, SeekEntry, Follows, Ready, Averages, Rth, Today, Remember, Orders, Answers;
    var n := |inputs| - 1;
    var before, tick := inputs[..n], inputs[n].tick;
    assert before[..f] == inputs[..f];
    var m := Remember(cfg, before);
    EntryStateIsByTheRules(cfg, before, f);
    OrdersOf(cfg, inputs);
    LastSeen(inputs);
    SeenGrows(before, f);
    if tick.session.isRth {
      SeenFollows(cfg, inputs, f);
      var seen := ObserveRth(cfg, OpenBar(cfg, m, tick).0, tick);
      if Tradable(m.session) {
        AlikeTerms(m.session, seen.session);
        SeekAnswers(cfg, Seen(before), |Seen(inputs[..f])|, seen, tick);
      } else {
        UntradableIsSilent(cfg, seen, tick.bar, tick.session.minute);
      }
    } else if Tradable(m.session) {
      NightAnswers(cfg, TermsOf(m.session), m.session.classification.value.regime, Seen(before),
                   |Seen(inputs[..f])|, tick);
    }
  }

  lemma {:induction false} AlikeTerms(s: SessionState, n: SessionState)
    requires SeeksAlike(s, n) && Tradable(s) && Complete(s)
    ensures Tradable(n) && Complete(n) && TermsOf(n) == TermsOf(s) && n.classification == s.classification
  {
  }

  lemma {:induction false} UntradableIsSilent(cfg: RetestConfig, m: Memory, bar: Bar, minute: int)
    requires cfg.tickSize > 0.0 && m.session.classification.Some? && !Tradable(m.session)
    ensures SeekEntry(cfg, m, bar, minute).1.None?
  {
  }

  lemma {:induction false} NightAnswers(cfg: RetestConfig, t: Terms, regime: Regime, all: seq<Tick>, base: nat,
                                        tick: Tick)
    requires cfg.tickSize > 0.0 && !tick.session.isRth
    ensures Answers(cfg, t, regime, all + [tick], base, [])
  {
    hide Stands, IsStop, Affordable, Loses, ConfirmsAt, OrderIs;
    assert (all + [tick])[|all|] == tick;
  }
}
