/** What the strategy reports: one snapshot for every session judged, and a trail of what happened to its orders. */
module SessionSnapshots {
  import opened Prelude
  import opened Market
  import opened RetestModel
  import opened RetestInvariants
  import opened RetestHistory
  import opened FrozenFeatures

  // ---- Snapshots ----

  /** A session that ends with regular hours seen and no judgement made is judged by all of its bars. */
  predicate JudgedLate(cfg: RetestConfig, ticks: seq<Tick>) {
    ticks != [] && Judged(cfg, ticks) == [] && Rth(Today(ticks)) != []
  }

  /** The bars each judgement so far was made on, session by session. */
  function Judgements(cfg: RetestConfig, ticks: seq<Tick>): seq<seq<Tick>>
    decreases |ticks|
  {
    if |ticks| == 0 then []
    else
      var before, last := ticks[..|ticks| - 1], ticks[|ticks| - 1];
      var same := before != [] && before[|before| - 1].session.date == last.session.date;
      Judgements(cfg, before)
      + (if !same && JudgedLate(cfg, before) then [before] else [])
      + (if Closing(cfg, last) && !(same && Judged(cfg, before) != []) then [ticks] else [])
  }

  /** The snapshot is the judgement on those bars. */
  ghost predicate IsJudgement(cfg: RetestConfig, ticks: seq<Tick>, snapshot: Snapshot) {
    && ticks != [] && Describes(cfg, ticks, snapshot.features)
    && snapshot.classification == Classify(cfg, snapshot.features)
  }

  ghost predicate Snapped(cfg: RetestConfig, judgements: seq<seq<Tick>>, snapshots: seq<Snapshot>) {
    && |snapshots| == |judgements|
    && forall i :: 0 <= i < |snapshots| ==> IsJudgement(cfg, judgements[i], snapshots[i])
  }

  lemma {:induction false} SnappedAdds(cfg: RetestConfig, judgements: seq<seq<Tick>>, snapshots: seq<Snapshot>,
                                       ticks: seq<Tick>, snapshot: Snapshot)
    requires Snapped(cfg, judgements, snapshots) && IsJudgement(cfg, ticks, snapshot)
    ensures Snapped(cfg, judgements + [ticks], snapshots + [snapshot])
  {
    hide IsJudgement;
  }

  lemma {:induction false} JudgementsNext(cfg: RetestConfig, ticks: seq<Tick>, t: Tick)
    ensures
      var same := ticks != [] && ticks[|ticks| - 1].session.date == t.session.date;
      Judgements(cfg, ticks + [t])
      == Judgements(cfg, ticks) + (if !same && JudgedLate(cfg, ticks) then [ticks] else [])
         + (if Closing(cfg, t) && !(same && Judged(cfg, ticks) != []) then [ticks + [t]] else [])
  {
    hide Closing, JudgedLate, Judged;
    assert (ticks + [t])[..|ticks|] == ticks;
  }

  /** The stamp of the last bar is on record while its session lasts. */
  predicate LastStamped(ticks: seq<Tick>, s: SessionState) {
    |ticks| > 0 ==> s.lastTimestamp == ticks[|ticks| - 1].bar.timestamp
  }

  lemma {:induction false} StampingBar(cfg: RetestConfig, m: Memory, tick: Tick)
    requires cfg.tickSize > 0.0
    ensures OnBar(cfg, m, tick).0.session.lastTimestamp == tick.bar.timestamp
  {
    hide StartSession, SeekEntry, FreezeClassification, TrackRth, TrackOvernight, ExpirePending, HardExit;
    var started := if m.sessionDate != Some(tick.session.date) then StartSession(cfg, m, tick.session.date) else m;
    var stamped := started.(session := started.session.(lastTimestamp := tick.bar.timestamp));
    StampKept(cfg, stamped, tick);
    var awake := OpenBar(cfg, m, tick).0;
    TrackingStamp(cfg, awake, tick);
    if tick.session.isRth {
      SeekingSnapsNothing(cfg, ObserveRth(cfg, awake, tick), tick.bar, tick.session.minute);
    }
  }

  lemma {:induction false} StampKept(cfg: RetestConfig, m: Memory, tick: Tick)
    ensures
      var next := HardExit(cfg, ExpirePending(m, tick.bar.timestamp), tick.bar, tick.session.minute).0;
      next.session.lastTimestamp == m.session.lastTimestamp && next.snapshots == m.snapshots
  {
  }

  lemma {:induction false} TrackingStamp(cfg: RetestConfig, m: Memory, tick: Tick)
    ensures ObserveRth(cfg, m, tick).session.lastTimestamp == m.session.lastTimestamp
    ensures TrackOvernight(m.session, tick.bar, tick.session.minute).lastTimestamp == m.session.lastTimestamp
  {
    hide TrackRth, FreezeClassification;
    TrackedStamp(cfg, m.session, tick.bar, tick.session.minute);
    FrozenStamp(cfg, m.(session := TrackRth(cfg, m.session, tick.bar, tick.session.minute)), tick.bar.timestamp);
  }

  lemma {:induction false} TrackedStamp(cfg: RetestConfig, s: SessionState, bar: Bar, minute: int)
    ensures TrackRth(cfg, s, bar, minute).lastTimestamp == s.lastTimestamp
  {
  }

  lemma {:induction false} FrozenStamp(cfg: RetestConfig, m: Memory, timestamp: Timestamp)
    ensures FreezeClassification(cfg, m, timestamp).session.lastTimestamp == m.session.lastTimestamp
  {
    hide BuildFeatures, Classify;
  }

  lemma {:induction false} SeekingSnapsNothing(cfg: RetestConfig, m: Memory, bar: Bar, minute: int)
    requires cfg.tickSize > 0.0
    ensures
      var next := SeekEntry(cfg, m, bar, minute).0;
      next.snapshots == m.snapshots && next.session.lastTimestamp == m.session.lastTimestamp
  {
    hide SeekEntry;
    SeekingKeeps(cfg, m, bar, minute);
  }

  lemma {:induction false} FreezingSnaps(cfg: RetestConfig, m: Memory, timestamp: Timestamp)
    ensures
      var f := BuildFeatures(cfg, m, timestamp);
      FreezeClassification(cfg, m, timestamp).snapshots
      == m.snapshots + if m.session.classification.Some? then [] else [Snapshot(f, Classify(cfg, f))]
  {
    hide BuildFeatures, Classify;
  }

  /** The session change adds the late judgement, if there is one to make. */
  lemma {:induction false} StartSnaps(cfg: RetestConfig, ticks: seq<Tick>, m: Memory, date: int)
    requires Recorded(cfg, ticks, m) && Judges(cfg, ticks, m.session) && LastStamped(ticks, m.session)
    requires Snapped(cfg, Judgements(cfg, ticks), m.snapshots)
    ensures Snapped(cfg, Judgements(cfg, ticks) + if JudgedLate(cfg, ticks) then [ticks] else [],
                    StartSession(cfg, m, date).snapshots)
  {
    hide HistoryIs, IsHigh, IsLow, OpeningIs, Describes, Classify, BuildFeatures, RecordVolume, RecordRange;
    hide FreezeClassification, Judged, Judgements, Snapped, Today, Rth, Volume, Turnover, Sides, Advances, Night,
         Opening;
    RecordingSnapsNothing(cfg, m);
    if ticks == [] {
      assert Judgements(cfg, ticks) + [] == Judgements(cfg, ticks);
    } else {
      var stamp := m.session.lastTimestamp;
      FreezingSnaps(cfg, m, stamp);
      RecordingSnapsNothing(cfg, FreezeClassification(cfg, m, stamp));
      if JudgedLate(cfg, ticks) {
        FeaturesDescribe(cfg, ticks, m);
        var f := BuildFeatures(cfg, m, stamp);
        SnappedAdds(cfg, Judgements(cfg, ticks), m.snapshots, ticks, Snapshot(f, Classify(cfg, f)));
      } else {
        assert Judgements(cfg, ticks) + [] == Judgements(cfg, ticks);
        assert m.snapshots + [] == m.snapshots;
      }
    }
  }

  lemma {:induction false} RecordingSnapsNothing(cfg: RetestConfig, m: Memory)
    ensures RecordRange(cfg, RecordVolume(cfg, m)).snapshots == m.snapshots
  {
    hide CompleteOpening, Push, TrueRange;
  }

  lemma {:induction false} BarSnaps(cfg: RetestConfig, ticks: seq<Tick>, t: Tick, m: Memory)
    requires cfg.tickSize > 0.0 && Recorded(cfg, ticks, m) && Judges(cfg, ticks, m.session)
    requires LastStamped(ticks, m.session) && Snapped(cfg, Judgements(cfg, ticks), m.snapshots)
    ensures Snapped(cfg, Judgements(cfg, ticks + [t]), OnBar(cfg, m, t).0.snapshots)
  {
    hide StartSession, TrackRth, TrackOvernight, FreezeClassification, SeekEntry, Recorded, Judged, Judgements, Snapped;
    hide JudgedLate, Describes, Classify, BuildFeatures, ExpirePending, HardExit, LastStamped;
    var same := ticks != [] && ticks[|ticks| - 1].session.date == t.session.date;
    var started := if m.sessionDate != Some(t.session.date) then StartSession(cfg, m, t.session.date) else m;
    SameIffRecorded(cfg, ticks, t, m);
    JudgementsNext(cfg, ticks, t);
    var carried := Judgements(cfg, ticks) + if !same && JudgedLate(cfg, ticks) then [ticks] else [];
    if !same {
      StartSnaps(cfg, ticks, m, t.session.date);
    } else {
      assert carried == Judgements(cfg, ticks);
    }
    var stamped := started.(session := started.session.(lastTimestamp := t.bar.timestamp));
    StampKept(cfg, stamped, t);
    var awake := OpenBar(cfg, m, t).0;
    assert Snapped(cfg, carried, awake.snapshots);
    PreambleJudges(cfg, ticks, t, m);
    if t.session.isRth {
      var tracked := awake.(session := TrackRth(cfg, awake.session, t.bar, t.session.minute));
      TrackingJudges(cfg, awake.session, t.bar, t.session.minute);
      SeekingSnapsNothing(cfg, ObserveRth(cfg, awake, t), t.bar, t.session.minute);
      FreezingSnaps(cfg, tracked, t.bar.timestamp);
      if Closing(cfg, t) && tracked.session.classification.None? {
        TrackedIsRecorded(cfg, ticks, t, m);
        FeaturesDescribe(cfg, ticks + [t], tracked);
        var f := BuildFeatures(cfg, tracked, t.bar.timestamp);
        SnappedAdds(cfg, carried, awake.snapshots, ticks + [t], Snapshot(f, Classify(cfg, f)));
      } else {
        assert carried + [] == carried;
      }
    } else {
      assert carried + [] == carried;
    }
  }

  lemma {:induction false} SameIffRecorded(cfg: RetestConfig, ticks: seq<Tick>, t: Tick, m: Memory)
    requires Recorded(cfg, ticks, m)
    ensures m.sessionDate == Some(t.session.date) <==> ticks != [] && ticks[|ticks| - 1].session.date == t.session.date
  {
    hide HistoryIs, DayIs;
  }

  lemma {:induction false} HearingSnapsNothing(m: Memory, item: Feedback)
    ensures Hear(m, item).snapshots == m.snapshots
    ensures Hear(m, item).session.lastTimestamp == m.session.lastTimestamp
  {
  }

  /**
   * After every history there is exactly one snapshot for every session judged so far, in order: on the bars up to
   * the one that ended its observation, or on all of its bars when it ended without; each with features that
   * describe those bars and the classifier's verdict on them.
   */
  lemma {:induction false} EverySessionIsSnapped(cfg: RetestConfig, inputs: seq<Input>)
    requires cfg.tickSize > 0.0
    ensures Snapped(cfg, Judgements(cfg, Seen(inputs)), Remember(cfg, inputs).snapshots)
    ensures LastStamped(Seen(inputs), Remember(cfg, inputs).session)
    decreases |inputs|
  {
    hide OnBar, Hear, Recorded, Judges, Snapped, Judgements, NEW_MEMORY;
    if |inputs| == 0 {
      NothingSnapped(cfg);
    } else {
      var before, last := inputs[..|inputs| - 1], inputs[|inputs| - 1];
      EverySessionIsSnapped(cfg, before);
      EveryHistoryIsRecorded(cfg, before);
      EveryJudgementIsOfItsOpening(cfg, before);
      match last
      case Heard(item) =>
        HearingSnapsNothing(Remember(cfg, before), item);
        assert Seen(before) + [] == Seen(before);
      case Saw(tick) =>
        BarSnaps(cfg, Seen(before), tick, Remember(cfg, before));
        StampingBar(cfg, Remember(cfg, before), tick);
    }
  }

  lemma {:induction false} NothingSnapped(cfg: RetestConfig)
    ensures Snapped(cfg, Judgements(cfg, []), NEW_MEMORY.snapshots)
  {
  }

  // ---- The trail ----

  /** The notes that report what became of an order. */
  predicate OnTrail(note: Note) {
    note.Filled? || note.TradeClosed? || note.EntryConfirmed? || note.TimeExitSignalled?
  }

  function Trail(diagnostics: seq<Diagnostic>): seq<Note>
    decreases |diagnostics|
  {
    if |diagnostics| == 0 then []
    else
      var last := diagnostics[|diagnostics| - 1].note;
      Trail(diagnostics[..|diagnostics| - 1]) + if OnTrail(last) then [last] else []
  }

  /** What a bar's answer puts on the trail: the time exit, then the order. */
  function Answered(result: StrategyResult): seq<Note> {
    (if result.exits == [] then [] else [TimeExitSignalled])
    + if result.orderIntents == [] then []
      else [EntryConfirmed(result.orderIntents[0].reason, result.orderIntents[0].metadata)]
  }

  /** What one input puts on it. */
  function Happened(cfg: RetestConfig, m: Memory, input: Input): seq<Note>
    requires cfg.tickSize > 0.0
  {
    match input
    case Heard(FillFeedback(fill)) =>
      if fill.reason.AcceptedBreakRetest? || fill.reason.RejectedBreakRetest?
      then [Filled(fill.price, fill.quantity, fill.reason)] else []
    case Heard(TradeFeedback(t)) => [TradeClosed(t.netPnl, t.exitReason, t.mfePoints, t.maePoints)]
    case Saw(tick) => Answered(OnBar(cfg, m, tick).1)
  }

  function AllHappened(cfg: RetestConfig, inputs: seq<Input>): seq<Note>
    requires cfg.tickSize > 0.0
    decreases |inputs|
  {
    if |inputs| == 0 then []
    else
      var before := inputs[..|inputs| - 1];
      AllHappened(cfg, before) + Happened(cfg, Remember(cfg, before), inputs[|inputs| - 1])
  }

  /** From `m` to `n` the trail has grown by just those notes. */
  predicate Trails(m: Memory, n: Memory, notes: seq<Note>) {
    Trail(n.diagnostics) == Trail(m.diagnostics) + notes
  }

  lemma {:induction false} NotedTrails(m: Memory, timestamp: Timestamp, note: Note)
    ensures Trails(m, Noted(m, timestamp, note), if OnTrail(note) then [note] else [])
  {
    var after := Noted(m, timestamp, note).diagnostics;
    assert after[..|after| - 1] == m.diagnostics;
  }

  lemma {:induction false} SameTrails(m: Memory, n: Memory)
    requires n.diagnostics == m.diagnostics
    ensures Trails(m, n, [])
  {
    hide Trail;
    assert Trail(m.diagnostics) + [] == Trail(m.diagnostics);
  }

  lemma {:induction false} TrailsOn(m: Memory, n: Memory, o: Memory, a: seq<Note>, b: seq<Note>)
    requires Trails(m, n, a) && Trails(n, o, b)
    ensures Trails(m, o, a + b)
  {
    hide Trail;
    assert Trail(m.diagnostics) + a + b == Trail(m.diagnostics) + (a + b);
  }

  lemma {:induction false} HearingTrails(cfg: RetestConfig, m: Memory, item: Feedback)
    requires cfg.tickSize > 0.0
    ensures Trails(m, Hear(m, item), Happened(cfg, m, Heard(item)))
  {
    hide Trail;
    match item
    case FillFeedback(fill) =>
      if EntryReason(fill.reason) {
        NotedTrails(Entered(m, fill), fill.timestamp, Filled(fill.price, fill.quantity, fill.reason));
      } else {
        SameTrails(m, m);
      }
    case TradeFeedback(t) =>
      NotedTrails(m, t.exitTimestamp, TradeClosed(t.netPnl, t.exitReason, t.mfePoints, t.maePoints));
  }

  lemma {:induction false} FreezingTrails(cfg: RetestConfig, m: Memory, timestamp: Timestamp)
    ensures Trails(m, FreezeClassification(cfg, m, timestamp), [])
  {
    hide BuildFeatures, Classify, Trail;
    SameTrails(m, m);
    var f := BuildFeatures(cfg, m, timestamp);
    var c := Classify(cfg, f);
    NotedTrails(Frozen(m, f, c), timestamp, Classified(c.reason, c.referenceSide, c.referenceType, c.referencePrice));
  }

  lemma {:induction false} StartTrails(cfg: RetestConfig, m: Memory, date: int)
    ensures Trails(m, StartSession(cfg, m, date), [])
  {
    hide Trail, FreezeClassification, CompleteOpening, Push, TrueRange;
    FreezingTrails(cfg, m, m.session.lastTimestamp);
    SameTrails(m, m);
  }

  lemma {:induction false} OpeningTrails(cfg: RetestConfig, m: Memory, tick: Tick)
    ensures
      var (awake, exits) := OpenBar(cfg, m, tick);
      Trails(m, awake, if exits == [] then [] else [TimeExitSignalled])
  {
    hide Trail, StartSession;
    StartTrails(cfg, m, tick.session.date);
    SameTrails(m, m);
    var started := if m.sessionDate != Some(tick.session.date) then StartSession(cfg, m, tick.session.date) else m;
    var stamped := started.(session := started.session.(lastTimestamp := tick.bar.timestamp));
    SameTrails(started, stamped);
    TrailsOn(m, started, stamped, [], []);
    var aged := ExpirePending(stamped, tick.bar.timestamp);
    AgeingTrails(stamped, tick.bar.timestamp);
    TrailsOn(m, stamped, aged, [], []);
    LeavingTrails(cfg, aged, tick.bar, tick.session.minute);
    var exits := HardExit(cfg, aged, tick.bar, tick.session.minute).1;
    TrailsOn(m, aged, OpenBar(cfg, m, tick).0, [], if exits == [] then [] else [TimeExitSignalled]);
  }

  lemma {:induction false} AgeingTrails(m: Memory, timestamp: Timestamp)
    ensures Trails(m, ExpirePending(m, timestamp), [])
  {
    hide Trail;
    SameTrails(m, m);
    NotedTrails(Expired(m), timestamp, EntryPendingExpired);
  }

  lemma {:induction false} LeavingTrails(cfg: RetestConfig, m: Memory, bar: Bar, minute: int)
    ensures
      var (next, exits) := HardExit(cfg, m, bar, minute);
      Trails(m, next, if exits == [] then [] else [TimeExitSignalled])
  {
    hide Trail;
    SameTrails(m, m);
    NotedTrails(Leaving(m), bar.timestamp, TimeExitSignalled);
  }

  /** What an order puts on the trail. */
  function OrderNotes(result: Option<StrategyResult>): seq<Note> {
    if result.None? || result.value.orderIntents == [] then []
    else [EntryConfirmed(result.value.orderIntents[0].reason, result.value.orderIntents[0].metadata)]
  }

  lemma {:induction false} CancelTrails(m: Memory, bar: Bar, what: CancelReason, level: Option<real>,
                                        location: Option<real>, bars: Option<nat>)
    ensures Trails(m, Cancel(m, bar, what, level, location, bars), [])
  {
    hide Trail;
    NotedTrails(Finished(m), bar.timestamp, Cancelled(what, level, location, bars));
  }

  lemma {:induction false} RetestTrails(cfg: RetestConfig, m: Memory, bar: Bar)
    ensures Trails(m, FirstRetest(cfg, m, bar), [])
  {
    hide Trail, Contact, Holds, CloseLocation, Cancel, SetupOf;
    var u := SetupOf(m.session);
    SameTrails(m, m);
    CancelTrails(m, bar, FirstRetestFailedHold, Some(u.reference), CloseLocation(bar), None);
    NotedTrails(ArmedBy(m, bar), bar.timestamp, FirstRetestArmed(u.reference, bar.high, bar.low, CloseLocation(bar)));
  }

  lemma {:induction false} PlacingTrails(cfg: RetestConfig, m: Memory, bar: Bar)
    requires cfg.tickSize > 0.0
    ensures
      var (next, result) := Place(cfg, m, bar);
      Trails(m, next, OrderNotes(Some(result)))
  {
    hide Trail, PlanOf, OrderMetadata, SetupOf, BranchReason;
    var u, extreme := SetupOf(m.session), m.session.structuralExtreme;
    var plan := PlanOf(cfg, u, if extreme.Some? then extreme.value else 0.0, bar.close);
    var riskDtr := if u.dtr > 0.0 then plan.risk / u.dtr else 0.0;
    NotedTrails(Attempted(m, Done), bar.timestamp, EntryRejected(plan.risk, riskDtr));
    NotedTrails(Waiting(Attempted(m, EntryPending)), bar.timestamp,
                EntryConfirmed(BranchReason(m.session), OrderMetadata(u, m.session, bar, plan)));
  }

  lemma {:induction false} ConfirmingTrails(cfg: RetestConfig, m: Memory, bar: Bar)
    requires cfg.tickSize > 0.0
    ensures
      var (next, result) := Confirmation(cfg, m, bar);
      Trails(m, next, OrderNotes(result))
  {
    hide Trail, Place, Cancel, Invalidated, Confirmed, SetupOf;
    var u, seen := SetupOf(m.session), Extended(m, bar);
    SameTrails(m, seen);
    SameTrails(seen, seen);
    CancelTrails(seen, bar, ArmedReferenceInvalidated, Some(u.reference), None, None);
    CancelTrails(seen, bar, ConfirmationExpired, None, None, Some(seen.session.confirmationBars));
    PlacingTrails(cfg, seen, bar);
    var (next, result) := Confirmation(cfg, m, bar);
    TrailsOn(m, seen, next, [], OrderNotes(result));
    assert [] + OrderNotes(result) == OrderNotes(result);
  }

  lemma {:induction false} SeekingTrails(cfg: RetestConfig, m: Memory, bar: Bar, minute: int)
    requires cfg.tickSize > 0.0
    ensures
      var (next, result) := SeekEntry(cfg, m, bar, minute);
      Trails(m, next, OrderNotes(result))
  {
    hide Trail, FirstRetest, Confirmation, Cancel, Available;
    SameTrails(m, m);
    CancelTrails(m, bar, FirstRetestWindowExpired, None, None, None);
    CancelTrails(m, bar, EntryWindowExpired, None, None, None);
    RetestTrails(cfg, m, bar);
    ConfirmingTrails(cfg, m, bar);
  }

  lemma {:induction false} BarTrails(cfg: RetestConfig, m: Memory, tick: Tick)
    requires cfg.tickSize > 0.0
    ensures Trails(m, OnBar(cfg, m, tick).0, Answered(OnBar(cfg, m, tick).1))
  {
    hide Trails, OpenBar, SeekEntry, FreezeClassification, TrackRth, TrackOvernight;
    OpeningTrails(cfg, m, tick);
    var (awake, exits) := OpenBar(cfg, m, tick);
    var left: seq<Note> := if exits == [] then [] else [TimeExitSignalled];
    if !tick.session.isRth {
      var next := awake.(session := TrackOvernight(awake.session, tick.bar, tick.session.minute));
      SameTrails(awake, next);
      TrailsOn(m, awake, next, left, []);
    } else {
      var tracked := awake.(session := TrackRth(cfg, awake.session, tick.bar, tick.session.minute));
      SameTrails(awake, tracked);
      TrailsOn(m, awake, tracked, left, []);
      assert left + [] == left;
      FreezingTrails(cfg, tracked, tick.bar.timestamp);
      SameTrails(tracked, tracked);
      var seen := ObserveRth(cfg, awake, tick);
      TrailsOn(m, tracked, seen, left, []);
      SeekingTrails(cfg, seen, tick.bar, tick.session.minute);
      var (next, order) := SeekEntry(cfg, seen, tick.bar, tick.session.minute);
      TrailsOn(m, seen, next, left, OrderNotes(order));
    }
  }

  /**
   * The diagnostics keep the whole trail of every history: each entry fill and each closed trade heard, each time
   * exit and each order, once and in order.
   */
  lemma {:induction false} TheTrailIsKept(cfg: RetestConfig, inputs: seq<Input>)
    requires cfg.tickSize > 0.0
    ensures Trail(Remember(cfg, inputs).diagnostics) == AllHappened(cfg, inputs)
    decreases |inputs|
  {
    hide Trail, Happened, OnBar, Hear, NEW_MEMORY;
    if |inputs| == 0 {
      NoTrail();
    } else {
      var before, last := inputs[..|inputs| - 1], inputs[|inputs| - 1];
      TheTrailIsKept(cfg, before);
      var m := Remember(cfg, before);
      match last
      case Heard(item) => HearingTrails(cfg, m, item);
      case Saw(tick) =>
        BarTrails(cfg, m, tick);
        assert Happened(cfg, m, last) == Answered(OnBar(cfg, m, tick).1) by { SawHappened(cfg, m, tick); }
    }
  }

  lemma {:induction false} SawHappened(cfg: RetestConfig, m: Memory, tick: Tick)
    requires cfg.tickSize > 0.0
    ensures Happened(cfg, m, Saw(tick)) == Answered(OnBar(cfg, m, tick).1)
  {
    hide OnBar, Answered;
  }

  lemma {:induction false} NoTrail()
    ensures Trail(NEW_MEMORY.diagnostics) == []
  {
  }

  // ---- An order that is not filled ----

  /** A bar of the order's own session: it ages, and on the third it is given up. */
  lemma {:induction false} WaitingAges(cfg: RetestConfig, m: Memory, tick: Tick)
    requires cfg.tickSize > 0.0 && Ready(m) && m.sessionDate == Some(tick.session.date)
    requires m.session.entryAttempted && !Seeking(m.session.entryState)
    ensures
      var next := OnBar(cfg, m, tick).0;
      && next.session.entryAttempted && !Seeking(next.session.entryState) && next.sessionDate == m.sessionDate
      && (m.entryPending && m.entryPendingAge < 2 ==>
            next.entryPending && next.entryPendingAge == m.entryPendingAge + 1
            && next.session.entryState == m.session.entryState)
      && (m.entryPending && m.entryPendingAge == 2 ==> !next.entryPending && next.session.entryState.Done?)
      && (!m.entryPending ==> !next.entryPending && next.session.entryState == m.session.entryState)
  {
    hide TrackRth, TrackOvernight, SeekEntry, FreezeClassification;
    var awake := OpenBar(cfg, m, tick).0;
    if tick.session.isRth {
      AttemptedObserves(cfg, awake, tick);
      AttemptedSeeks(cfg, ObserveRth(cfg, awake, tick), tick.bar, tick.session.minute);
    } else {
      NightKeepsEntry(awake, tick.bar, tick.session.minute);
    }
  }

  lemma {:induction false} NightKeepsEntry(m: Memory, bar: Bar, minute: int)
    ensures SameEntry(m.session, TrackOvernight(m.session, bar, minute))
  {
  }

  lemma {:induction false} AttemptedObserves(cfg: RetestConfig, m: Memory, tick: Tick)
    requires m.session.classification.Some?
    ensures
      var seen := ObserveRth(cfg, m, tick);
      && SameEntry(m.session, seen.session) && seen.entryPending == m.entryPending
      && seen.entryPendingAge == m.entryPendingAge && seen.sessionDate == m.sessionDate
  {
    hide TrackRth;
    TrackKeepsEntry(cfg, m.session, tick.bar, tick.session.minute);
  }

  lemma {:induction false} AttemptedSeeks(cfg: RetestConfig, m: Memory, bar: Bar, minute: int)
    requires cfg.tickSize > 0.0 && m.session.entryAttempted
    ensures SeekEntry(cfg, m, bar, minute) == (m, None)
  {
  }

  lemma {:induction false} OrderStartsWaiting(cfg: RetestConfig, inputs: seq<Input>, n: nat)
    requires ValidRetestConfig(cfg) && n < |inputs| && Orders(cfg, inputs, n) != []
    ensures inputs[n].Saw?
    ensures
      var m := Remember(cfg, inputs[..n + 1]);
      && m.session.entryAttempted && m.session.entryState.EntryPending? && m.sessionDate
        == Some(inputs[n].tick.session.date)
      && m.entryPending && m.entryPendingAge == 0
  {
    hide OpenBar, ObserveRth, Ready, FirstRetest, Cancel, Invalidated, Confirmed, PlanOf, OrderMetadata, SetupOf;
    hide BranchReason, Extended;
    assert inputs[..n + 1][..n] == inputs[..n];
    EveryMemoryIsReady(cfg, inputs[..n]);
    BarKeeps(cfg, Remember(cfg, inputs[..n]), inputs[n].tick);
  }

  /**
   * An order nothing is heard of waits for two more bars of its session and is given up on the third, for good.
   */
  lemma {:induction false} OrdersWaitForTwoBars(cfg: RetestConfig, inputs: seq<Input>, n: nat)
    requires ValidRetestConfig(cfg) && n < |inputs| && Orders(cfg, inputs, n) != []
    requires forall i :: n <= i < |inputs| ==>
      inputs[i].Saw? && inputs[n].Saw? && inputs[i].tick.session.date == inputs[n].tick.session.date
    ensures
      var m, later := Remember(cfg, inputs), |inputs| - n - 1;
      && m.session.entryAttempted && m.sessionDate == Some(inputs[n].tick.session.date)
      && (m.entryPending <==> later <= 2) && (later <= 2 ==> m.entryPendingAge == later)
      && m.session.entryState == if later <= 2 then EntryPending else Done
    decreases |inputs|
  {
    hide OnBar, Ready, NEW_MEMORY;
    if |inputs| == n + 1 {
      assert inputs[..n + 1] == inputs;
      OrderStartsWaiting(cfg, inputs, n);
    } else {
      var before := inputs[..|inputs| - 1];
      assert before[..n] == inputs[..n] && before[n] == inputs[n];
      OrdersWaitForTwoBars(cfg, before, n);
      EveryMemoryIsReady(cfg, before);
      WaitingAges(cfg, Remember(cfg, before), inputs[|inputs| - 1].tick);
    }
  }
}
