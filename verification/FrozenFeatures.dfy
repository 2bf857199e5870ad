/** What the strategy judges a session by: its frozen features, told from the bars up to the end of the opening. */
module FrozenFeatures {
  import opened Prelude
  import opened Market
  import opened RetestModel
  import opened RetestInvariants
  import opened RetestHistory
  import Ranking

  /** The last bar ends the observation. */
  predicate Closing(cfg: RetestConfig, t: Tick) {
    t.session.isRth && t.session.minute >= cfg.observationStart + cfg.observationMinutes - 1
  }

  /** The bars up to the first of the last bar's session that ends the observation; none if it has not come. */
  function Judged(cfg: RetestConfig, ticks: seq<Tick>): seq<Tick>
    decreases |ticks|
  {
    if |ticks| == 0 then []
    else
      var before, last := ticks[..|ticks| - 1], ticks[|ticks| - 1];
      if before != [] && before[|before| - 1].session.date == last.session.date && Judged(cfg, before) != []
      then Judged(cfg, before)
      else if Closing(cfg, last) then ticks else []
  }

  // ---- Figures ----

  /** The middle of the last values, if there are enough of them. */
  ghost predicate IsTypical(all: seq<real>, lookback: nat, typical: Option<real>) {
    if 0 < lookback <= |all| then typical.Some? && Ranking.IsMedian(all[|all| - lookback..], typical.value)
    else typical.None?
  }

  predicate IsGap(offsets: seq<int>, gap: Option<int>) {
    if |offsets| < 2 then gap.None?
    else
      && gap.Some?
      && (exists i :: 1 <= i < |offsets| && Step(offsets, i) == gap.value)
      && (forall i :: 1 <= i < |offsets| ==> Step(offsets, i) <= gap.value)
  }

  function Step(offsets: seq<int>, i: int): int
    requires 1 <= i < |offsets|
  {
    offsets[i] - offsets[i - 1]
  }

  /** Early enough, late enough, and without too long a silence. */
  predicate Covered(cfg: RetestConfig, offsets: seq<int>) {
    && |offsets| >= 2
    && offsets[0] <= cfg.overnightStartTolerance
    && offsets[|offsets| - 1] + cfg.overnightPreopenTolerance >= 929
    && forall i :: 1 <= i < |offsets| ==> Step(offsets, i) <= cfg.overnightMaxGap
  }

  function Distance(a: real, b: real): real {
    if a >= b then a - b else b - a
  }

  /** From the open through the closes. */
  function Walked(open: real, ticks: seq<Tick>): real
    decreases |ticks|
  {
    if |ticks| == 0 then 0.0
    else
      var before, last := ticks[..|ticks| - 1], ticks[|ticks| - 1];
      Walked(open, before)
      + Distance(if before == [] then open else before[|before| - 1].bar.close, last.bar.close)
  }

  /** There when the divisor is positive, and then the quotient. */
  predicate IsShare(share: Option<real>, part: real, whole: real) {
    (share.Some? <==> whole > 0.0) && (share.Some? ==> share.value * whole == part)
  }

  // ---- What the features describe ----

  ghost predicate Describes(cfg: RetestConfig, ticks: seq<Tick>, f: Features)
    requires |ticks| > 0
  {
    var last := ticks[|ticks| - 1];
    && f.sessionDate == Some(last.session.date)
    && f.classificationTimestamp == last.bar.timestamp
    && DescribesHistory(cfg, Earlier(ticks), f)
    && (f.rollTransition <==>
          LatestRth(Earlier(ticks)) != []
          && ContractOf(cfg, LatestRth(Earlier(ticks))) != Some(cfg.frontContract(last.session.date)))
    && DescribesNight(cfg, Night(Today(ticks)), f)
    && DescribesOpening(cfg, Opening(cfg, Today(ticks)), f)
    && DescribesScale(cfg, Volumes(cfg, Earlier(ticks)), Volume(Opening(cfg, Today(ticks))), f)
    && DescribesAverage(cfg, Today(ticks), f)
  }

  ghost predicate DescribesHistory(cfg: RetestConfig, earlier: seq<Tick>, f: Features) {
    && IsHigh(LatestRth(earlier), f.priorRthHigh) && IsLow(LatestRth(earlier), f.priorRthLow)
    && f.priorRthClose == LastClose(LatestRth(earlier))
    && IsTypical(Ranges(cfg, earlier), cfg.dailyRangeLookback, f.dtr20)
  }

  ghost predicate DescribesNight(cfg: RetestConfig, overnight: seq<Tick>, f: Features) {
    && IsHigh(overnight, f.overnightHigh) && IsLow(overnight, f.overnightLow)
    && f.overnightBarCount == |Advances(overnight)|
    && IsGap(Advances(overnight), f.overnightMaxGap)
    && (f.completeOvernight <==> Covered(cfg, Advances(overnight)))
  }

  ghost predicate DescribesOpening(cfg: RetestConfig, opening: seq<Tick>, f: Features) {
    && (f.completeObservation <==> EveryMinute(cfg, opening))
    && MinutesAre(opening, f.openingMinutes) && ClosesAre(opening, f.openingCloses)
    && IsOpen(cfg, opening, f.rthOpen)
    && IsHigh(opening, f.openingHigh) && IsLow(opening, f.openingLow) && f.openingClose == LastClose(opening)
    && DescribesShape(cfg, opening, f)
  }

  /** Width, middle, displacement, efficiency and location of the opening. */
  predicate DescribesShape(cfg: RetestConfig, opening: seq<Tick>, f: Features) {
    && (f.openingWidth.Some? <==> opening != []) && (f.openingMidpoint.Some? <==> opening != [])
    && (f.openingHigh.Some? <==> opening != []) && (f.openingLow.Some? <==> opening != [])
    && (f.openingClose.Some? <==> opening != [])
    && (opening != [] ==>
          && f.openingWidth.value == f.openingHigh.value - f.openingLow.value
          && f.openingMidpoint.value - f.openingLow.value == f.openingHigh.value - f.openingMidpoint.value
          && IsShare(f.closeLocation, f.openingClose.value - f.openingLow.value, f.openingWidth.value))
    && (opening == [] ==> f.closeLocation.None?)
    && (f.rthOpen.Some? && opening != [] ==>
          && IsShare(f.efficiencyRatio, Distance(f.openingClose.value, f.rthOpen.value),
                     Walked(f.rthOpen.value, opening))
          && (f.displacementDtr.Some? <==> f.dtr20.Some? && f.dtr20.value != 0.0)
          && (f.displacementDtr.Some? ==>
                f.displacementDtr.value * f.dtr20.value == f.openingClose.value - f.rthOpen.value))
    && (f.rthOpen.None? || opening == [] ==> f.efficiencyRatio.None? && f.displacementDtr.None?)
  }

  /** The opening's volume against the typical one. */
  ghost predicate DescribesScale(cfg: RetestConfig, volumes: seq<real>, volume: real, f: Features) {
    exists typical: Option<real> ::
      && IsTypical(volumes, cfg.openingVolumeLookback, typical)
      && IsShare(f.openingVolumeRatio, volume, if typical.Some? then typical.value else 0.0)
  }

  predicate DescribesAverage(cfg: RetestConfig, today: seq<Tick>, f: Features) {
    && IsShare(f.openingVwap, Turnover(Rth(today)), Volume(Rth(today)))
    && f.closesAboveVwap == multiset(Sides(cfg, today))[AboveVwap]
    && f.closesBelowVwap == multiset(Sides(cfg, today))[BelowVwap]
  }

  // ---- The features built from a record describe its bars ----

  lemma {:induction false} GapIsTheWidest(offsets: seq<int>)
    ensures IsGap(offsets, MaxGap(offsets))
    decreases |offsets|
  {
    if |offsets| < 2 {
    } else {
      var n := |offsets| - 1;
      var before := offsets[..n];
      GapIsTheWidest(before);
      assert forall i :: 1 <= i < n ==> Step(before, i) == Step(offsets, i);
      var gap := MaxGap(offsets).value;
      if MaxGap(before).Some? && MaxGap(before).value == gap {
        var i :| 1 <= i < |before| && Step(before, i) == gap;
        assert Step(offsets, i) == gap;
      } else {
        assert Step(offsets, n) == gap;
      }
    }
  }

  lemma {:induction false} CoverageIsCoverage(cfg: RetestConfig, offsets: seq<int>)
    ensures CompleteOvernight(cfg, offsets) <==> Covered(cfg, offsets)
  {
    hide MaxGap;
    GapIsTheWidest(offsets);
    if Covered(cfg, offsets) {
      var i :| 1 <= i < |offsets| && Step(offsets, i) == MaxGap(offsets).value;
      assert Step(offsets, i) <= cfg.overnightMaxGap;
    }
  }

  lemma {:induction false} CountIsCount(sides: seq<VwapSide>, side: VwapSide)
    ensures CountSides(sides, side) == multiset(sides)[side]
    decreases |sides|
  {
    if |sides| == 0 {
    } else {
      assert sides == sides[..|sides| - 1] + [sides[|sides| - 1]];
      CountIsCount(sides[..|sides| - 1], side);
    }
  }

  lemma {:induction false} PathIsWalked(open: real, opening: seq<Tick>, closes: seq<real>)
    requires ClosesAre(opening, closes)
    ensures PathLength(open, closes) == Walked(open, opening)
    decreases |opening|
  {
    if |opening| == 0 {
    } else {
      PathIsWalked(open, opening[..|opening| - 1], closes[..|closes| - 1]);
    }
  }

  lemma {:induction false} TypicalIsMedian(all: seq<real>, lookback: nat)
    ensures IsTypical(all, lookback, FullMedian(LastOf(all, lookback), lookback))
  {
    hide Ranking.IsMedian;
    if 0 < lookback <= |all| {
      assert LastOf(all, lookback) == all[|all| - lookback..];
    }
  }

  lemma {:induction false} Quotient(a: real, b: real)
    requires b != 0.0
    ensures a / b * b == a
  {
  }

  lemma {:induction false} ShapeIs(cfg: RetestConfig, opening: seq<Tick>, m: Memory, timestamp: Timestamp)
    requires OpeningIs(cfg, opening, m.session)
    ensures DescribesOpening(cfg, opening, BuildFeatures(cfg, m, timestamp))
  {
    hide IsOpen, HasMinute, FullMedian, MaxGap, CountSides, CompleteOvernight, CompleteOpening, EveryMinute,
         VolumeRatio;
    hide MinutesAre, ClosesAre, PathLength, Walked, IsHigh, IsLow, Volume;
    var s, f := m.session, BuildFeatures(cfg, m, timestamp);
    CompleteMeans(cfg, opening, s);
    SomeOrNone(opening, s.openingHigh, s.openingLow);
    if opening != [] {
      var width := s.openingHigh.value - s.openingLow.value;
      if width > 0.0 {
        Quotient(s.openingClose.value - s.openingLow.value, width);
      }
      if s.rthOpen.Some? {
        EfficiencyIs(opening, s);
        if f.dtr20.Some? && f.dtr20.value != 0.0 {
          Quotient(s.openingClose.value - s.rthOpen.value, f.dtr20.value);
        }
      }
    }
  }

  lemma {:induction false} EfficiencyIs(opening: seq<Tick>, s: SessionState)
    requires ClosesAre(opening, s.openingCloses) && s.rthOpen.Some? && s.openingClose.Some?
    ensures IsShare(Efficiency(s), Distance(s.openingClose.value, s.rthOpen.value), Walked(s.rthOpen.value, opening))
  {
    hide PathLength, Walked;
    PathIsWalked(s.rthOpen.value, opening, s.openingCloses);
    var path := PathLength(s.rthOpen.value, s.openingCloses);
    if path > 0.0 {
      Quotient(Abs(s.openingClose.value - s.rthOpen.value), path);
    }
  }

  lemma {:induction false} ScaleIs(cfg: RetestConfig, volumes: seq<real>, m: Memory, timestamp: Timestamp)
    requires m.volumeHistory == LastOf(volumes, cfg.openingVolumeLookback)
    ensures DescribesScale(cfg, volumes, m.session.openingVolume, BuildFeatures(cfg, m, timestamp))
  {
    hide FullMedian, MaxGap, CountSides, CompleteOvernight, CompleteOpening, OpeningWidth, OpeningMidpoint;
    hide Displacement, Efficiency, OpeningLocation, IsTypical, LastOf;
    TypicalIsMedian(volumes, cfg.openingVolumeLookback);
    var typical := FullMedian(m.volumeHistory, cfg.openingVolumeLookback);
    if typical.Some? && typical.value > 0.0 {
      Quotient(m.session.openingVolume, typical.value);
    }
    assert IsTypical(volumes, cfg.openingVolumeLookback, typical);
  }

  lemma {:induction false} AverageIs(cfg: RetestConfig, today: seq<Tick>, m: Memory, timestamp: Timestamp)
    requires DayIs(cfg, today, m.session)
    ensures DescribesAverage(cfg, today, BuildFeatures(cfg, m, timestamp))
  {
    hide FullMedian, MaxGap, CountSides, CompleteOvernight, CompleteOpening, OpeningWidth, OpeningMidpoint;
    hide Displacement, Efficiency, OpeningLocation, VolumeRatio, IsHigh, IsLow, OpeningIs, Volume, Turnover, Sides, Rth;
    hide Advances, Night, Opening;
    CountIsCount(Sides(cfg, today), AboveVwap);
    CountIsCount(Sides(cfg, today), BelowVwap);
    if Volume(Rth(today)) > 0.0 {
      Quotient(Turnover(Rth(today)), Volume(Rth(today)));
    }
  }

  lemma {:induction false} NightIs(cfg: RetestConfig, today: seq<Tick>, m: Memory, timestamp: Timestamp)
    requires DayIs(cfg, today, m.session)
    ensures DescribesNight(cfg, Night(today), BuildFeatures(cfg, m, timestamp))
  {
    hide FullMedian, MaxGap, CountSides, CompleteOvernight, CompleteOpening, OpeningWidth, OpeningMidpoint, Covered;
    hide Displacement, Efficiency, OpeningLocation, VolumeRatio, IsHigh, IsLow, OpeningIs, Volume, Turnover, Sides, Rth;
    hide Advances, Night, Opening, IsGap;
    GapIsTheWidest(m.session.overnightOffsets);
    CoverageIsCoverage(cfg, m.session.overnightOffsets);
  }

  lemma {:induction false} PastIs(cfg: RetestConfig, earlier: seq<Tick>, m: Memory, timestamp: Timestamp)
    requires HistoryIs(cfg, earlier, m)
    ensures DescribesHistory(cfg, earlier, BuildFeatures(cfg, m, timestamp))
  {
    hide FullMedian, MaxGap, CountSides, CompleteOvernight, CompleteOpening, OpeningWidth, OpeningMidpoint, IsTypical;
    hide Displacement, Efficiency, OpeningLocation, VolumeRatio, IsHigh, IsLow, Volumes, Ranges, LatestRth, LastOf;
    TypicalIsMedian(Ranges(cfg, earlier), cfg.dailyRangeLookback);
  }

  lemma {:induction false} BuiltFeatures(cfg: RetestConfig, m: Memory, timestamp: Timestamp)
    ensures
      var f := BuildFeatures(cfg, m, timestamp);
      && f.sessionDate == m.sessionDate && f.classificationTimestamp == timestamp
      && f.rollTransition == m.session.rollTransition
  {
    hide FullMedian, MaxGap, CountSides, CompleteOvernight, CompleteOpening, OpeningWidth, OpeningMidpoint;
    hide Displacement, Efficiency, OpeningLocation, VolumeRatio;
  }

  lemma {:induction false} FeaturesDescribe(cfg: RetestConfig, ticks: seq<Tick>, m: Memory)
    requires |ticks| > 0 && Recorded(cfg, ticks, m)
    ensures Describes(cfg, ticks, BuildFeatures(cfg, m, ticks[|ticks| - 1].bar.timestamp))
  {
    hide BuildFeatures, DescribesHistory, DescribesNight, DescribesOpening, DescribesScale, DescribesAverage;
    hide IsHigh, IsLow, Night, Rth, Opening, Volumes, Ranges, Sides, Advances, Volume, Turnover, Today, Earlier;
    hide LatestRth, LastOf, LastClose, OpeningIs;
    var stamp := ticks[|ticks| - 1].bar.timestamp;
    BuiltFeatures(cfg, m, stamp);
    PastIs(cfg, Earlier(ticks), m, stamp);
    NightIs(cfg, Today(ticks), m, stamp);
    ShapeIs(cfg, Opening(cfg, Today(ticks)), m, stamp);
    OpeningVolumeIs(cfg, Opening(cfg, Today(ticks)), m.session);
    ScaleIs(cfg, Volumes(cfg, Earlier(ticks)), m, stamp);
    AverageIs(cfg, Today(ticks), m, stamp);
    NoneIsEmpty(cfg, LatestRth(Earlier(ticks)));
  }

  lemma {:induction false} OpeningVolumeIs(cfg: RetestConfig, opening: seq<Tick>, s: SessionState)
    requires OpeningIs(cfg, opening, s)
    ensures s.openingVolume == Volume(opening)
  {
    hide IsHigh, IsLow, IsOpen, HasMinute, ClosesAre, MinutesAre, Volume;
  }

  lemma {:induction false} NoneIsEmpty(cfg: RetestConfig, ticks: seq<Tick>)
    ensures ContractOf(cfg, ticks).Some? <==> ticks != []
  {
  }

  // ---- Every judgement is of its own opening ----

  /** Judged once the opening has ended, and then by features that describe it. */
  ghost predicate Judges(cfg: RetestConfig, ticks: seq<Tick>, s: SessionState) {
    && (s.features.Some? <==> Judged(cfg, ticks) != []) && (s.classification.Some? <==> Judged(cfg, ticks) != [])
    && (s.features.Some? && s.classification.Some? && Judged(cfg, ticks) != [] ==>
          && Describes(cfg, Judged(cfg, ticks), s.features.value)
          && s.classification.value == Classify(cfg, s.features.value))
  }

  lemma {:induction false} JudgedGrows(cfg: RetestConfig, ticks: seq<Tick>, t: Tick)
    ensures
      var same := |ticks| > 0 && ticks[|ticks| - 1].session.date == t.session.date;
      Judged(cfg, ticks + [t]) == if same && Judged(cfg, ticks) != [] then Judged(cfg, ticks)
                                  else if Closing(cfg, t) then ticks + [t] else []
  {
    hide Closing;
    assert (ticks + [t])[..|ticks|] == ticks;
  }

  /** What a bar finds: the session's own judgement, or none in a new session. */
  lemma {:induction false} PreambleJudges(cfg: RetestConfig, ticks: seq<Tick>, t: Tick, m: Memory)
    requires Recorded(cfg, ticks, m) && Judges(cfg, ticks, m.session)
    ensures
      var s := OpenBar(cfg, m, t).0.session;
      var same := |ticks| > 0 && ticks[|ticks| - 1].session.date == t.session.date;
      if same then s.classification == m.session.classification && s.features == m.session.features
      else s.classification.None? && s.features.None?
  {
    hide OpenBar, FinalizeSession, HistoryIs, DayIs, Judges, SameHistory, SameDay;
    PreambleKeeps(cfg, m, t);
  }

  lemma {:induction false} TrackingJudges(cfg: RetestConfig, s: SessionState, bar: Bar, minute: int)
    ensures
      var tracked := TrackRth(cfg, s, bar, minute);
      tracked.classification == s.classification && tracked.features == s.features
    ensures
      var tracked := TrackOvernight(s, bar, minute);
      tracked.classification == s.classification && tracked.features == s.features
  {
  }

  lemma {:induction false} FreezingJudges(cfg: RetestConfig, m: Memory, timestamp: Timestamp)
    requires m.session.classification.None?
    ensures
      var s, f := FreezeClassification(cfg, m, timestamp).session, BuildFeatures(cfg, m, timestamp);
      s.features == Some(f) && s.classification == Some(Classify(cfg, f))
  {
    hide BuildFeatures, Classify;
  }

  lemma {:induction false} BarJudges(cfg: RetestConfig, ticks: seq<Tick>, t: Tick, m: Memory)
    requires cfg.tickSize > 0.0 && Recorded(cfg, ticks, m) && Judges(cfg, ticks, m.session)
    ensures Judges(cfg, ticks + [t], OnBar(cfg, m, t).0.session)
  {
    hide OpenBar, StartSession, TrackRth, TrackOvernight, FreezeClassification, SeekEntry, Recorded, Awake, SameDay;
    hide SameHistory, Describes, Classify, BuildFeatures, Judged;
    JudgedGrows(cfg, ticks, t);
    PreambleJudges(cfg, ticks, t, m);
    var awake := OpenBar(cfg, m, t).0;
    TrackingJudges(cfg, awake.session, t.bar, t.session.minute);
    if t.session.isRth {
      var seen := ObserveRth(cfg, awake, t);
      SeekingKeeps(cfg, seen, t.bar, t.session.minute);
      var tracked := awake.(session := TrackRth(cfg, awake.session, t.bar, t.session.minute));
      if tracked.session.classification.None? && Closing(cfg, t) {
        TrackedIsRecorded(cfg, ticks, t, m);
        FreezingJudges(cfg, tracked, t.bar.timestamp);
        FeaturesDescribe(cfg, ticks + [t], tracked);
      }
    }
  }

  lemma {:induction false} TrackedIsRecorded(cfg: RetestConfig, ticks: seq<Tick>, t: Tick, m: Memory)
    requires Recorded(cfg, ticks, m) && t.session.isRth
    ensures
      var awake := OpenBar(cfg, m, t).0;
      Recorded(cfg, ticks + [t], awake.(session := TrackRth(cfg, awake.session, t.bar, t.session.minute)))
  {
    hide OpenBar, StartSession, TrackRth, TrackOvernight, Recorded, Awake, SameDay, SameHistory;
    var started := if m.sessionDate != Some(t.session.date) then StartSession(cfg, m, t.session.date) else m;
    StartRecords(cfg, ticks, t, m);
    PreambleKeeps(cfg, m, t);
    var awake := OpenBar(cfg, m, t).0;
    SameStaysAwake(cfg, ticks, t, started, awake);
    TrackingRecords(cfg, ticks, t, awake);
  }

  /**
   * After every history, the session is judged if and only if a bar has ended its observation, and then by the
   * classifier on features that describe exactly the bars up to the first such one.
   */
  lemma {:induction false} EveryJudgementIsOfItsOpening(cfg: RetestConfig, inputs: seq<Input>)
    requires cfg.tickSize > 0.0
    ensures Judges(cfg, Seen(inputs), Remember(cfg, inputs).session)
    decreases |inputs|
  {
    hide OnBar, Hear, Recorded, SameDay, SameHistory, NEW_MEMORY, Judges;
    if |inputs| == 0 {
      NothingJudged(cfg);
    } else {
      var before, last := inputs[..|inputs| - 1], inputs[|inputs| - 1];
      EveryJudgementIsOfItsOpening(cfg, before);
      EveryHistoryIsRecorded(cfg, before);
      var m := Remember(cfg, before);
      match last
      case Heard(item) =>
        HearingKeeps(m, item);
        SameJudges(cfg, Seen(before), m.session, Hear(m, item).session);
        assert Seen(before) + [] == Seen(before);
      case Saw(tick) => BarJudges(cfg, Seen(before), tick, m);
    }
  }

  lemma {:induction false} SameJudges(cfg: RetestConfig, ticks: seq<Tick>, s: SessionState, t: SessionState)
    requires Judges(cfg, ticks, s) && t.classification == s.classification && t.features == s.features
    ensures Judges(cfg, ticks, t)
  {
    hide Describes, Classify, Judged;
  }

  lemma {:induction false} NothingJudged(cfg: RetestConfig)
    ensures Judges(cfg, [], NEW_MEMORY.session)
  {
  }
}
