/** The retest strategy has no directional bias: reflected bars and fills give the mirrored decisions. */
module RetestReflection {
  import opened Prelude
  import opened Market
  import opened Mirror
  import opened RetestModel
  import opened RetestInvariants
  import opened RetestMirror
  import opened ClassifierReflection

  // ---- Division ----

  lemma {:induction false} QuotientNegates(x: real, d: real)
    requires d != 0.0
    ensures (-x) / d == -(x / d)
  {
    assert ((-x) / d) * d == (-(x / d)) * d;
  }

  lemma {:induction false} NoZeroFactor(x: real, d: real)
    requires d != 0.0 && x * d == 0.0
    ensures x == 0.0
  {
  }

  lemma {:induction false} QuotientFlips(x: real, y: real, d: real)
    requires d != 0.0 && x + y == d
    ensures x / d == 1.0 - y / d
  {
    var p, q := x / d, y / d;
    assert p * d == x && q * d == y;
    assert (p + q) * d == p * d + q * d;
    assert (p + q - 1.0) * d == 0.0;
    NoZeroFactor(p + q - 1.0, d);
  }

  lemma {:induction false} ProductNegates(x: real, y: real)
    ensures (-x) * y == -(x * y)
  {
  }

  lemma {:induction false} RoundMirrors(cfg: RetestConfig, price: real, mirrored: real)
    requires cfg.tickSize > 0.0 && mirrored == -price
    ensures RoundUp(cfg, mirrored) == -RoundDown(cfg, price)
    ensures RoundDown(cfg, mirrored) == -RoundUp(cfg, price)
  {
    var down, up := (price + EPSILON) / cfg.tickSize, (price - EPSILON) / cfg.tickSize;
    QuotientNegates(price + EPSILON, cfg.tickSize);
    QuotientNegates(price - EPSILON, cfg.tickSize);
    assert mirrored - EPSILON == -(price + EPSILON) && mirrored + EPSILON == -(price - EPSILON);
    assert Ceiling(-down) == -(down.Floor) by { assert -(-down) == down; }
    assert Ceiling(-down) as real == -(down.Floor as real);
    assert (-up).Floor as real == -(Ceiling(up) as real);
    ProductNegates(down.Floor as real, cfg.tickSize);
    ProductNegates(Ceiling(up) as real, cfg.tickSize);
  }

  // ---- Features ----

  lemma {:induction false} PathMirrors(start: real, closes: seq<real>)
    ensures PathLength(-start, Map(Negate, closes)) == PathLength(start, closes)
    decreases |closes|
  {
    if |closes| == 0 {
    } else {
      MapInit(Negate, closes);
      PathMirrors(start, closes[..|closes| - 1]);
    }
  }

  lemma {:induction false} SidesMirror(sides: seq<VwapSide>, side: VwapSide)
    ensures CountSides(Map(MirrorVwapSide, sides), MirrorVwapSide(side)) == CountSides(sides, side)
    decreases |sides|
  {
    if |sides| == 0 {
    } else {
      MapInit(MirrorVwapSide, sides);
      SidesMirror(sides[..|sides| - 1], side);
    }
  }

  lemma {:induction false} LocationMirrors(high: real, low: real, close: real)
    requires high != low
    ensures ((-close) - (-high)) / ((-low) - (-high)) == 1.0 - (close - low) / (high - low)
  {
    QuotientFlips(high - close, close - low, high - low);
  }

  lemma {:induction false} OpeningShapeMirrors(s: SessionState)
    ensures OpeningWidth(MirrorSession(s)) == OpeningWidth(s)
    ensures OpeningMidpoint(MirrorSession(s)) == Neg(OpeningMidpoint(s))
    ensures OpeningLocation(MirrorSession(s)) == Flip(OpeningLocation(s))
  {
    if OpeningWidth(s).Some? && OpeningWidth(s).value > 0.0 && s.openingClose.Some? {
      LocationMirrors(s.openingHigh.value, s.openingLow.value, s.openingClose.value);
    }
  }

  lemma {:induction false} EfficiencyMirrors(s: SessionState)
    ensures Efficiency(MirrorSession(s)) == Efficiency(s)
  {
    hide PathLength;
    if s.rthOpen.Some? && s.openingClose.Some? {
      PathMirrors(s.rthOpen.value, s.openingCloses);
    }
  }

  lemma {:induction false} DisplacementMirrors(s: SessionState, dtr20: Option<real>)
    ensures Displacement(MirrorSession(s), dtr20) == Neg(Displacement(s, dtr20))
  {
    if dtr20.Some? && dtr20.value != 0.0 && s.rthOpen.Some? && s.openingClose.Some? {
      QuotientNegates(s.openingClose.value - s.rthOpen.value, dtr20.value);
    }
  }

  lemma {:induction false} FeaturesMirror(cfg: RetestConfig, m: Memory, timestamp: Timestamp)
    ensures BuildFeatures(cfg, MirrorMemory(m), timestamp) == MirrorFeatures(BuildFeatures(cfg, m, timestamp))
  {
    hide CountSides, FullMedian, CompleteOvernight, MaxGap, OpeningWidth, OpeningMidpoint, OpeningLocation,
         Efficiency, Displacement, VolumeRatio;
    var s := m.session;
    SidesMirror(s.vwapSides, AboveVwap);
    SidesMirror(s.vwapSides, BelowVwap);
    OpeningShapeMirrors(s);
    EfficiencyMirrors(s);
    DisplacementMirrors(s, FullMedian(m.dtrHistory, cfg.dailyRangeLookback));
  }

  // ---- Diagnostics, feedback, classification ----

  lemma {:induction false} NotedMirrors(m: Memory, timestamp: Timestamp, note: Note)
    ensures Noted(MirrorMemory(m), timestamp, MirrorNote(note)) == MirrorMemory(Noted(m, timestamp, note))
  {
    hide MirrorNote, MirrorFeatures, MirrorWhy, MirrorSnapshot;
    MapAppend(MirrorDiagnostic, m.diagnostics,
              Noted(m, timestamp, note).diagnostics[|m.diagnostics|]);
  }

  lemma {:induction false} EnteredMirrors(m: Memory, fill: Fill)
    requires SidedFill(fill)
    ensures Entered(MirrorMemory(m), MirrorFill(fill)) == MirrorMemory(Entered(m, fill))
  {
    hide MirrorFeatures, MirrorClassification, MirrorDiagnostic, MirrorSnapshot;
  }

  lemma {:induction false} FillMirrors(m: Memory, fill: Fill)
    requires SidedFill(fill)
    ensures OnFill(MirrorMemory(m), MirrorFill(fill)) == MirrorMemory(OnFill(m, fill))
  {
    hide Noted, Entered, MirrorMemory;
    EnteredMirrors(m, fill);
    NotedMirrors(Entered(m, fill), fill.timestamp, Filled(fill.price, fill.quantity, fill.reason));
  }

  lemma {:induction false} ExitedMirrors(m: Memory)
    ensures Exited(MirrorMemory(m)) == MirrorMemory(Exited(m))
  {
    hide MirrorFeatures, MirrorClassification, MirrorDiagnostic, MirrorSnapshot;
  }

  lemma {:induction false} TradeMirrors(m: Memory, trade: Trade)
    ensures OnTradeClosed(MirrorMemory(m), MirrorTrade(trade)) == MirrorMemory(OnTradeClosed(m, trade))
  {
    hide Noted, Exited, MirrorMemory;
    var note := TradeClosed(trade.netPnl, trade.exitReason, trade.mfePoints, trade.maePoints);
    NotedMirrors(m, trade.exitTimestamp, note);
    ExitedMirrors(Noted(m, trade.exitTimestamp, note));
  }

  lemma {:induction false} FrozenMirrors(m: Memory, features: Features, c: Classification)
    ensures Frozen(MirrorMemory(m), MirrorFeatures(features), MirrorClassification(c))
            == MirrorMemory(Frozen(m, features, c))
  {
    hide MirrorFeatures, MirrorDiagnostic;
    MapAppend(MirrorSnapshot, m.snapshots, Snapshot(features, c));
  }

  lemma {:induction false} FreezeMirrors(cfg: RetestConfig, m: Memory, timestamp: Timestamp)
    ensures FreezeClassification(cfg, MirrorMemory(m), timestamp)
            == MirrorMemory(FreezeClassification(cfg, m, timestamp))
  {
    hide BuildFeatures, Classify, Noted, Frozen, MirrorFeatures, MirrorSnapshot, MirrorDiagnostic;
    if m.session.classification.None? {
      var features := BuildFeatures(cfg, m, timestamp);
      FeaturesMirror(cfg, m, timestamp);
      ClassifyMirrors(cfg, features);
      var c := Classify(cfg, features);
      FrozenMirrors(m, features, c);
      NotedMirrors(Frozen(m, features, c), timestamp,
                   Classified(c.reason, c.referenceSide, c.referenceType, c.referencePrice));
    }
  }

  // ---- Session changes ----

  lemma {:induction false} VolumeMirrors(cfg: RetestConfig, m: Memory)
    ensures RecordVolume(cfg, MirrorMemory(m)) == MirrorMemory(RecordVolume(cfg, m))
  {
    hide Push, MirrorFeatures, MirrorClassification, MirrorDiagnostic, MirrorSnapshot;
  }

  lemma {:induction false} RangeMirrors(cfg: RetestConfig, m: Memory)
    ensures RecordRange(cfg, MirrorMemory(m)) == MirrorMemory(RecordRange(cfg, m))
  {
    hide Push, MirrorFeatures, MirrorClassification, MirrorDiagnostic, MirrorSnapshot;
  }

  lemma {:induction false} RestartMirrors(cfg: RetestConfig, m: Memory, date: int)
    ensures Restarted(cfg, MirrorMemory(m), date) == MirrorMemory(Restarted(cfg, m, date))
  {
    hide MirrorFeatures, MirrorClassification, MirrorDiagnostic, MirrorSnapshot;
    assert MirrorSession(FRESH_SESSION) == FRESH_SESSION;
  }

  lemma {:induction false} StartMirrors(cfg: RetestConfig, m: Memory, date: int)
    ensures StartSession(cfg, MirrorMemory(m), date) == MirrorMemory(StartSession(cfg, m, date))
  {
    hide FreezeClassification, RecordVolume, RecordRange, Restarted, MirrorSession;
    FreezeMirrors(cfg, m, m.session.lastTimestamp);
    SessionFactsMirror(m.session);
    var frozen := if m.session.rthStarted then FreezeClassification(cfg, m, m.session.lastTimestamp) else m;
    VolumeMirrors(cfg, frozen);
    RangeMirrors(cfg, RecordVolume(cfg, frozen));
    RestartMirrors(cfg, FinalizeSession(cfg, m), date);
  }

  /** What reflection leaves alone in a session. */
  lemma {:induction false} SessionFactsMirror(s: SessionState)
    ensures
      var t := MirrorSession(s);
      && t.rthStarted == s.rthStarted && t.lastTimestamp == s.lastTimestamp && t.entryState == s.entryState
      && t.entryAttempted == s.entryAttempted && t.confirmationBars == s.confirmationBars
      && t.openingMinuteSet == s.openingMinuteSet
      && t.classification.Some? == s.classification.Some?
      && (s.classification.Some? ==> t.classification.value.regime == s.classification.value.regime)
  {
  }

  // ---- Tracking a bar ----

  lemma {:induction false} OvernightMirrors(s: SessionState, bar: Bar, minute: int)
    ensures TrackOvernight(MirrorSession(s), MirrorBar(bar), minute) == MirrorSession(TrackOvernight(s, bar, minute))
  {
    hide MirrorFeatures, MirrorClassification;
  }

  lemma {:induction false} NotionalMirrors(bar: Bar)
    ensures Notional(MirrorBar(bar)) == -Notional(bar)
  {
    var typical := (bar.high + bar.low + bar.close) / 3.0;
    ProductNegates(typical, Max(0.0, bar.volume));
  }

  lemma {:induction false} AveragedMirrors(s: SessionState, notional: real, volume: real, mirrored: real)
    requires mirrored == -notional
    ensures Averaged(MirrorSession(s), mirrored, volume) == MirrorSession(Averaged(s, notional, volume))
  {
    hide MirrorFeatures, MirrorClassification;
    if s.vwapVolume + volume > 0.0 {
      QuotientNegates(s.vwapPv + notional, s.vwapVolume + volume);
    }
  }

  lemma {:induction false} VwapMirrors(s: SessionState, bar: Bar)
    ensures UpdateVwap(MirrorSession(s), MirrorBar(bar)) == MirrorSession(UpdateVwap(s, bar))
  {
    hide MirrorSession, Averaged, Notional;
    NotionalMirrors(bar);
    AveragedMirrors(s, Notional(bar), Max(0.0, bar.volume), Notional(MirrorBar(bar)));
  }

  lemma {:induction false} RecordMirrors(cfg: RetestConfig, s: SessionState, bar: Bar, minute: int)
    ensures RecordOpeningBar(cfg, MirrorSession(s), MirrorBar(bar), minute)
            == MirrorSession(RecordOpeningBar(cfg, s, bar, minute))
  {
    hide MirrorFeatures, MirrorClassification;
    MapAppend(Negate, s.openingCloses, bar.close);
    MapAppend(MirrorVwapSide, s.vwapSides, VwapSideOf(s.currentVwap, bar.close));
  }

  lemma {:induction false} StartedMirrors(s: SessionState, bar: Bar)
    ensures Started(MirrorSession(s), MirrorBar(bar)) == MirrorSession(Started(s, bar))
  {
    hide MirrorFeatures, MirrorClassification;
  }

  lemma {:induction false} TrackMirrors(cfg: RetestConfig, s: SessionState, bar: Bar, minute: int)
    ensures TrackRth(cfg, MirrorSession(s), MirrorBar(bar), minute) == MirrorSession(TrackRth(cfg, s, bar, minute))
  {
    hide MirrorSession, Started, UpdateVwap, RecordOpeningBar;
    StartedMirrors(s, bar);
    VwapMirrors(Started(s, bar), bar);
    RecordMirrors(cfg, UpdateVwap(Started(s, bar), bar), bar, minute);
  }

  // ---- Opening a bar ----

  /** What reflection leaves alone in the memory. */
  lemma {:induction false} MemoryFactsMirror(m: Memory)
    ensures
      var w := MirrorMemory(m);
      && w.sessionDate == m.sessionDate && w.entryPending == m.entryPending && w.entryPendingAge == m.entryPendingAge
      && w.exitPending == m.exitPending && w.positionSide.Some? == m.positionSide.Some?
      && w.positionBranch == m.positionBranch && w.session == MirrorSession(m.session)
  {
  }

  lemma {:induction false} ExpiredMirrors(m: Memory)
    ensures Expired(MirrorMemory(m)) == MirrorMemory(Expired(m))
    ensures Aged(MirrorMemory(m)) == MirrorMemory(Aged(m))
    ensures Leaving(MirrorMemory(m)) == MirrorMemory(Leaving(m))
    ensures Finished(MirrorMemory(m)) == MirrorMemory(Finished(m))
    ensures Waiting(MirrorMemory(m)) == MirrorMemory(Waiting(m))
  {
    hide MirrorFeatures, MirrorClassification, MirrorDiagnostic, MirrorSnapshot;
  }

  lemma {:induction false} SessionUpdateMirrors(m: Memory, s: SessionState)
    ensures MirrorMemory(m).(session := MirrorSession(s)) == MirrorMemory(m.(session := s))
  {
    hide MirrorSession;
  }

  lemma {:induction false} StampMirrors(s: SessionState, timestamp: Timestamp)
    ensures MirrorSession(s).(lastTimestamp := timestamp) == MirrorSession(s.(lastTimestamp := timestamp))
  {
    hide MirrorFeatures, MirrorClassification;
  }

  lemma {:induction false} ExpireMirrors(m: Memory, timestamp: Timestamp)
    ensures ExpirePending(MirrorMemory(m), timestamp) == MirrorMemory(ExpirePending(m, timestamp))
  {
    hide MirrorMemory, Noted, Expired, Aged;
    MemoryFactsMirror(m);
    ExpiredMirrors(m);
    NotedMirrors(Expired(m), timestamp, EntryPendingExpired);
  }

  lemma {:induction false} HardExitMirrors(cfg: RetestConfig, m: Memory, bar: Bar, minute: int)
    ensures HardExit(cfg, MirrorMemory(m), MirrorBar(bar), minute).0 == MirrorMemory(HardExit(cfg, m, bar, minute).0)
    ensures HardExit(cfg, MirrorMemory(m), MirrorBar(bar), minute).1 == HardExit(cfg, m, bar, minute).1
  {
    hide MirrorMemory, Noted, Leaving;
    MemoryFactsMirror(m);
    ExpiredMirrors(m);
    NotedMirrors(Leaving(m), bar.timestamp, TimeExitSignalled);
  }

  lemma {:induction false} OpenMirrors(cfg: RetestConfig, m: Memory, tick: Tick)
    ensures OpenBar(cfg, MirrorMemory(m), MirrorTick(tick)).0 == MirrorMemory(OpenBar(cfg, m, tick).0)
    ensures OpenBar(cfg, MirrorMemory(m), MirrorTick(tick)).1 == OpenBar(cfg, m, tick).1
  {
    hide MirrorMemory, MirrorSession, StartSession, ExpirePending, HardExit;
    MemoryFactsMirror(m);
    StartMirrors(cfg, m, tick.session.date);
    var started := if m.sessionDate != Some(tick.session.date) then StartSession(cfg, m, tick.session.date) else m;
    MemoryFactsMirror(started);
    StampMirrors(started.session, tick.bar.timestamp);
    var stamp := started.session.(lastTimestamp := tick.bar.timestamp);
    SessionUpdateMirrors(started, stamp);
    var stamped := started.(session := stamp);
    ExpireMirrors(stamped, tick.bar.timestamp);
    HardExitMirrors(cfg, ExpirePending(stamped, tick.bar.timestamp), tick.bar, tick.session.minute);
  }

  lemma {:induction false} ObserveMirrors(cfg: RetestConfig, m: Memory, tick: Tick)
    ensures ObserveRth(cfg, MirrorMemory(m), MirrorTick(tick)) == MirrorMemory(ObserveRth(cfg, m, tick))
  {
    hide MirrorMemory, MirrorSession, TrackRth, FreezeClassification;
    MemoryFactsMirror(m);
    TrackMirrors(cfg, m.session, tick.bar, tick.session.minute);
    var tracked := TrackRth(cfg, m.session, tick.bar, tick.session.minute);
    SessionUpdateMirrors(m, tracked);
    SessionFactsMirror(tracked);
    MemoryFactsMirror(m.(session := tracked));
    FreezeMirrors(cfg, m.(session := tracked), tick.bar.timestamp);
  }

  // ---- The entry logic ----

  function MirrorSetup(u: Setup): Setup {
    Setup(-u.reference, u.dtr, MirrorSide(u.side))
  }

  lemma {:induction false} SetupMirrors(s: SessionState)
    requires Tradable(s) && Complete(s)
    ensures SetupOf(MirrorSession(s)) == MirrorSetup(SetupOf(s))
  {
  }

  lemma {:induction false} RetestTestsMirror(cfg: RetestConfig, u: Setup, bar: Bar)
    ensures Contact(cfg, MirrorSetup(u), MirrorBar(bar)) == Contact(cfg, u, bar)
    ensures CloseLocation(MirrorBar(bar)) == Flip(CloseLocation(bar))
    ensures Holds(cfg, MirrorSetup(u), MirrorBar(bar)) == Holds(cfg, u, bar)
    ensures Invalidated(cfg, MirrorSetup(u), MirrorBar(bar)) == Invalidated(cfg, u, bar)
  {
    if bar.high - bar.low > 0.0 {
      LocationMirrors(bar.high, bar.low, bar.close);
    }
  }

  lemma {:induction false} ConfirmedMirrors(cfg: RetestConfig, u: Setup, s: SessionState, bar: Bar)
    ensures Confirmed(cfg, MirrorSetup(u), MirrorSession(s), MirrorBar(bar)) == Confirmed(cfg, u, s, bar)
  {
    hide MirrorFeatures, MirrorClassification;
  }

  lemma {:induction false} ArmedByMirrors(m: Memory, bar: Bar)
    requires Tradable(m.session) && Complete(m.session)
    ensures ArmedBy(MirrorMemory(m), MirrorBar(bar)) == MirrorMemory(ArmedBy(m, bar))
  {
    hide MirrorFeatures, MirrorClassification, MirrorDiagnostic, MirrorSnapshot, SetupOf;
    SetupMirrors(m.session);
  }

  lemma {:induction false} ExtendedMirrors(m: Memory, bar: Bar)
    requires Tradable(m.session) && Complete(m.session)
    ensures Extended(MirrorMemory(m), MirrorBar(bar)) == MirrorMemory(Extended(m, bar))
  {
    hide MirrorFeatures, MirrorClassification, MirrorDiagnostic, MirrorSnapshot, SetupOf;
    SetupMirrors(m.session);
  }

  lemma {:induction false} CancelMirrors(m: Memory, bar: Bar, what: CancelReason, level: Option<real>,
                                         location: Option<real>, bars: Option<nat>)
    ensures Cancel(MirrorMemory(m), MirrorBar(bar), what, Neg(level), Flip(location), bars)
            == MirrorMemory(Cancel(m, bar, what, level, location, bars))
  {
    hide MirrorMemory, Noted, Finished;
    ExpiredMirrors(m);
    NotedMirrors(Finished(m), bar.timestamp, Cancelled(what, level, location, bars));
  }

  lemma {:induction false} FirstRetestMirrors(cfg: RetestConfig, m: Memory, bar: Bar)
    requires Tradable(m.session) && Complete(m.session)
    ensures FirstRetest(cfg, MirrorMemory(m), MirrorBar(bar)) == MirrorMemory(FirstRetest(cfg, m, bar))
  {
    hide MirrorMemory, MirrorSession, Noted, ArmedBy, Contact, Holds, Cancel, SetupOf, CloseLocation;
    var u := SetupOf(m.session);
    MemoryFactsMirror(m);
    SetupMirrors(m.session);
    RetestTestsMirror(cfg, u, bar);
    CancelMirrors(m, bar, FirstRetestFailedHold, Some(u.reference), CloseLocation(bar), None);
    ArmedByMirrors(m, bar);
    NotedMirrors(ArmedBy(m, bar), bar.timestamp, FirstRetestArmed(u.reference, bar.high, bar.low, CloseLocation(bar)));
  }

  function MirrorPlan(plan: Plan): Plan {
    Plan(-plan.stop, plan.risk, -plan.target)
  }

  lemma {:induction false} StopMirrors(cfg: RetestConfig, u: Setup, extreme: real, mirrored: real)
    requires cfg.tickSize > 0.0 && mirrored == -extreme
    ensures StopFrom(cfg, MirrorSetup(u), mirrored) == -StopFrom(cfg, u, extreme)
  {
    hide RoundUp, RoundDown;
    var buffer := Share(cfg.stopBufferDtr, u.dtr);
    RoundMirrors(cfg, Below(extreme, buffer), Above(mirrored, buffer));
    RoundMirrors(cfg, Above(extreme, buffer), Below(mirrored, buffer));
  }

  lemma {:induction false} TargetMirrors(cfg: RetestConfig, side: PositionSide, close: real, risk: real, mirrored: real)
    requires cfg.tickSize > 0.0 && mirrored == -close
    ensures TargetFrom(cfg, MirrorSide(side), mirrored, risk) == -TargetFrom(cfg, side, close, risk)
  {
    hide RoundUp, RoundDown;
    var reward := Share(cfg.rewardR, risk);
    RoundMirrors(cfg, Above(close, reward), Below(mirrored, reward));
    RoundMirrors(cfg, Below(close, reward), Above(mirrored, reward));
  }

  lemma {:induction false} PlanMirrors(cfg: RetestConfig, u: Setup, extreme: real, close: real)
    requires cfg.tickSize > 0.0
    ensures PlanOf(cfg, MirrorSetup(u), -extreme, -close) == MirrorPlan(PlanOf(cfg, u, extreme, close))
  {
    hide StopFrom, TargetFrom;
    StopMirrors(cfg, u, extreme, -extreme);
    TargetMirrors(cfg, u.side, close, PlanOf(cfg, u, extreme, close).risk, -close);
  }

  lemma {:induction false} AttemptedMirrors(m: Memory, state: EntryState)
    ensures Attempted(MirrorMemory(m), state) == MirrorMemory(Attempted(m, state))
  {
    hide MirrorFeatures, MirrorClassification, MirrorDiagnostic, MirrorSnapshot;
  }

  lemma {:induction false} MetadataMirrors(u: Setup, s: SessionState, bar: Bar, plan: Plan)
    ensures OrderMetadata(MirrorSetup(u), MirrorSession(s), MirrorBar(bar), MirrorPlan(plan))
            == MirrorMetadata(OrderMetadata(u, s, bar, plan))
    ensures BranchReason(MirrorSession(s)) == BranchReason(s)
  {
    hide MirrorFeatures, Over;
  }

  lemma {:induction false} RejectMirrors(m: Memory, bar: Bar, risk: real, riskDtr: real)
    ensures Reject(MirrorMemory(m), MirrorBar(bar), risk, riskDtr).0 == MirrorMemory(Reject(m, bar, risk, riskDtr).0)
    ensures Reject(MirrorMemory(m), MirrorBar(bar), risk, riskDtr).1 == MirrorResult(Reject(m, bar, risk, riskDtr).1)
  {
    hide MirrorMemory, Noted, Attempted, MirrorFeatures;
    MemoryFactsMirror(m);
    AttemptedMirrors(m, Done);
    NotedMirrors(Attempted(m, Done), bar.timestamp, EntryRejected(risk, riskDtr));
  }

  lemma {:induction false} AcceptedMirrorsOrder(cfg: RetestConfig, m: Memory, bar: Bar, plan: Plan)
    requires Tradable(m.session) && Complete(m.session)
    ensures
      var (next, answer) := AcceptedOrder(cfg, MirrorMemory(m), MirrorBar(bar), MirrorPlan(plan));
      && next == MirrorMemory(AcceptedOrder(cfg, m, bar, plan).0)
      && answer == MirrorResult(AcceptedOrder(cfg, m, bar, plan).1)
  {
    hide MirrorMemory, MirrorSession, Noted, Attempted, Waiting, SetupOf, OrderMetadata, BranchReason, MirrorMetadata;
    var u := SetupOf(m.session);
    MemoryFactsMirror(m);
    SetupMirrors(m.session);
    MetadataMirrors(u, m.session, bar, plan);
    AttemptedMirrors(m, EntryPending);
    ExpiredMirrors(Attempted(m, EntryPending));
    NotedMirrors(Waiting(Attempted(m, EntryPending)), bar.timestamp,
                 EntryConfirmed(BranchReason(m.session), OrderMetadata(u, m.session, bar, plan)));
  }

  lemma {:induction false} PlaceMirrors(cfg: RetestConfig, m: Memory, bar: Bar)
    requires cfg.tickSize > 0.0 && Tradable(m.session) && Complete(m.session) && m.session.structuralExtreme.Some?
    ensures Place(cfg, MirrorMemory(m), MirrorBar(bar)).0 == MirrorMemory(Place(cfg, m, bar).0)
    ensures Place(cfg, MirrorMemory(m), MirrorBar(bar)).1 == MirrorResult(Place(cfg, m, bar).1)
  {
    hide MirrorMemory, AcceptedOrder, Reject, PlanOf, SetupOf, MirrorFeatures, MirrorClassification, MirrorResult;
    var u := SetupOf(m.session);
    var extreme := m.session.structuralExtreme.value;
    var plan := PlanOf(cfg, u, extreme, bar.close);
    MemoryFactsMirror(m);
    SetupMirrors(m.session);
    PlanMirrors(cfg, u, extreme, bar.close);
    AcceptedMirrorsOrder(cfg, m, bar, plan);
    RejectMirrors(m, bar, plan.risk, if u.dtr > 0.0 then plan.risk / u.dtr else 0.0);
  }

  lemma {:induction false} ConfirmationMirrors(cfg: RetestConfig, m: Memory, bar: Bar)
    requires cfg.tickSize > 0.0 && Tradable(m.session) && Complete(m.session)
    ensures Confirmation(cfg, MirrorMemory(m), MirrorBar(bar)).0 == MirrorMemory(Confirmation(cfg, m, bar).0)
    ensures Confirmation(cfg, MirrorMemory(m), MirrorBar(bar)).1 == MirrorAnswer(Confirmation(cfg, m, bar).1)
  {
    hide MirrorMemory, MirrorSession, Extended, Place, Cancel, Invalidated, Confirmed, SetupOf, MirrorResult;
    var u := SetupOf(m.session);
    var seen := Extended(m, bar);
    MemoryFactsMirror(m);
    SetupMirrors(m.session);
    ExtendedMirrors(m, bar);
    ExtendedHasExtreme(m, bar);
    MemoryFactsMirror(seen);
    SessionFactsMirror(seen.session);
    RetestTestsMirror(cfg, u, bar);
    ConfirmedMirrors(cfg, u, seen.session, bar);
    CancelMirrors(seen, bar, ArmedReferenceInvalidated, Some(u.reference), None, None);
    CancelMirrors(seen, bar, ConfirmationExpired, None, None, Some(seen.session.confirmationBars));
    PlaceMirrors(cfg, seen, bar);
  }

  lemma {:induction false} ExtendedHasExtreme(m: Memory, bar: Bar)
    ensures
      var s := Extended(m, bar).session;
      s.structuralExtreme.Some? && s.classification == m.session.classification && s.features == m.session.features
  {
  }

  function MirrorAnswer(r: Option<StrategyResult>): Option<StrategyResult> {
    if r.None? then None else Some(MirrorResult(r.value))
  }

  lemma {:induction false} SeekMirrors(cfg: RetestConfig, m: Memory, bar: Bar, minute: int)
    requires cfg.tickSize > 0.0 && Ready(m)
    ensures SeekEntry(cfg, MirrorMemory(m), MirrorBar(bar), minute).0 == MirrorMemory(SeekEntry(cfg, m, bar, minute).0)
    ensures SeekEntry(cfg, MirrorMemory(m), MirrorBar(bar), minute).1 == MirrorAnswer(SeekEntry(cfg, m, bar, minute).1)
  {
    hide MirrorMemory, MirrorSession, FirstRetest, Confirmation, Cancel, MirrorResult;
    MemoryFactsMirror(m);
    SessionFactsMirror(m.session);
    if Tradable(m.session) {
      FirstRetestMirrors(cfg, m, bar);
      ConfirmationMirrors(cfg, m, bar);
      CancelMirrors(m, bar, FirstRetestWindowExpired, None, None, None);
      CancelMirrors(m, bar, EntryWindowExpired, None, None, None);
    }
  }

  /** One bar: the mirrored memory, and the mirrored answer. */
  lemma {:induction false} BarMirrors(cfg: RetestConfig, m: Memory, tick: Tick)
    requires ValidRetestConfig(cfg) && Ready(m)
    ensures OnBar(cfg, MirrorMemory(m), MirrorTick(tick)).0 == MirrorMemory(OnBar(cfg, m, tick).0)
    ensures OnBar(cfg, MirrorMemory(m), MirrorTick(tick)).1 == MirrorResult(OnBar(cfg, m, tick).1)
  {
    hide MirrorMemory, MirrorSession, OpenBar, ObserveRth, SeekEntry, TrackOvernight;
    OpenMirrors(cfg, m, tick);
    OpenKeeps(cfg, m, tick);
    var awake := OpenBar(cfg, m, tick).0;
    if tick.session.isRth {
      ObserveMirrors(cfg, awake, tick);
      ObserveKeeps(cfg, awake, tick);
      SeekMirrors(cfg, ObserveRth(cfg, awake, tick), tick.bar, tick.session.minute);
    } else {
      MemoryFactsMirror(awake);
      OvernightMirrors(awake.session, tick.bar, tick.session.minute);
      SessionUpdateMirrors(awake, TrackOvernight(awake.session, tick.bar, tick.session.minute));
    }
  }

  // ---- Whole histories ----

  function MirrorInput(input: Input): Input {
    match input
    case Heard(item) => Heard(MirrorFeedback(item))
    case Saw(tick) => Saw(MirrorTick(tick))
  }

  /** Every fill in the history is of a proper order. */
  predicate SidedHistory(inputs: seq<Input>) {
    forall i :: 0 <= i < |inputs| && inputs[i].Heard? ==> SidedFeedback(inputs[i].item)
  }

  lemma {:induction false} HearMirrors(m: Memory, item: Feedback)
    requires SidedFeedback(item)
    ensures Hear(MirrorMemory(m), MirrorFeedback(item)) == MirrorMemory(Hear(m, item))
  {
    hide MirrorMemory, OnFill, OnTradeClosed;
    match item
    case FillFeedback(fill) => FillMirrors(m, fill);
    case TradeFeedback(trade) => TradeMirrors(m, trade);
  }

  lemma {:induction false} NewMirrors()
    ensures MirrorMemory(NEW_MEMORY) == NEW_MEMORY
  {
    assert MirrorSession(FRESH_SESSION) == FRESH_SESSION;
  }

  /**
   * Over whole multi-session histories: reflected bars and reflected feedback leave the mirrored memory,
   * diagnostics and snapshots included.
   */
  lemma {:induction false} HistoriesMirror(cfg: RetestConfig, inputs: seq<Input>)
    requires ValidRetestConfig(cfg) && SidedHistory(inputs)
    ensures Remember(cfg, Map(MirrorInput, inputs)) == MirrorMemory(Remember(cfg, inputs))
    decreases |inputs|
  {
    hide MirrorMemory, OnBar, Hear, Ready, NEW_MEMORY;
    if |inputs| == 0 {
      NewMirrors();
    } else {
      var before := inputs[..|inputs| - 1];
      MapInit(MirrorInput, inputs);
      HistoriesMirror(cfg, before);
      EveryMemoryIsReady(cfg, before);
      match inputs[|inputs| - 1]
      case Heard(item) => HearMirrors(Remember(cfg, before), item);
      case Saw(tick) => BarMirrors(cfg, Remember(cfg, before), tick);
    }
  }

  /** And bar by bar the decisions are the mirrored ones: the other side, reflected stop and target. */
  lemma {:induction false} DecisionsMirror(cfg: RetestConfig, inputs: seq<Input>, i: nat)
    requires ValidRetestConfig(cfg) && SidedHistory(inputs) && i < |inputs| && inputs[i].Saw?
    ensures
      OnBar(cfg, Remember(cfg, Map(MirrorInput, inputs)[..i]), Map(MirrorInput, inputs)[i].tick).1
        == MirrorResult(OnBar(cfg, Remember(cfg, inputs[..i]), inputs[i].tick).1)
  {
    hide MirrorMemory, OnBar, Ready, Remember;
    assert Map(MirrorInput, inputs)[..i] == Map(MirrorInput, inputs[..i]);
    HistoriesMirror(cfg, inputs[..i]);
    EveryMemoryIsReady(cfg, inputs[..i]);
    BarMirrors(cfg, Remember(cfg, inputs[..i]), inputs[i].tick);
  }
}
