/** What the strategy has on record, read off the bars it has seen: today's tracking, prior levels, histories. */
module RetestHistory {
  import opened Prelude
  import opened Market
  import opened RetestModel
  import opened RetestInvariants

  /** The bars among the inputs. */
  function Seen(inputs: seq<Input>): seq<Tick>
    decreases |inputs|
  {
    if |inputs| == 0 then []
    else
      var last := inputs[|inputs| - 1];
      Seen(inputs[..|inputs| - 1]) + if last.Saw? then [last.tick] else []
  }

  // ---- Sessions ----

  /** The bars of the session of the last bar. */
  function Today(ticks: seq<Tick>): (today: seq<Tick>)
    ensures |today| <= |ticks| && (ticks != [] ==> today != [])
    decreases |ticks|
  {
    if |ticks| == 0 then []
    else
      var before, last := ticks[..|ticks| - 1], ticks[|ticks| - 1];
      if before != [] && before[|before| - 1].session.date == last.session.date then Today(before) + [last]
      else [last]
  }

  /** The bars of all sessions before. */
  function Earlier(ticks: seq<Tick>): (earlier: seq<Tick>)
    ensures ticks != [] ==> |earlier| < |ticks|
  {
    ticks[..|ticks| - |Today(ticks)|]
  }

  /** Bars of the regular hours. */
  function Rth(ticks: seq<Tick>): seq<Tick>
    decreases |ticks|
  {
    if |ticks| == 0 then []
    else
      var last := ticks[|ticks| - 1];
      Rth(ticks[..|ticks| - 1]) + if last.session.isRth then [last] else []
  }

  /** Bars before the first one of the regular hours. */
  function Night(ticks: seq<Tick>): seq<Tick>
    decreases |ticks|
  {
    if |ticks| == 0 then []
    else
      var before, last := ticks[..|ticks| - 1], ticks[|ticks| - 1];
      Night(before) + if !last.session.isRth && Rth(before) == [] then [last] else []
  }

  /** Bars of the observation window, the first of each minute. */
  function Opening(cfg: RetestConfig, ticks: seq<Tick>): seq<Tick>
    decreases |ticks|
  {
    if |ticks| == 0 then []
    else
      var before, last := Opening(cfg, ticks[..|ticks| - 1]), ticks[|ticks| - 1];
      before + if last.session.isRth && InWindow(cfg, last) && !HasMinute(before, last.session.minute)
               then [last] else []
  }

  predicate InWindow(cfg: RetestConfig, t: Tick) {
    cfg.observationStart <= t.session.minute < cfg.observationStart + cfg.observationMinutes
  }

  predicate HasMinute(ticks: seq<Tick>, minute: int) {
    exists i :: 0 <= i < |ticks| && ticks[i].session.minute == minute
  }

  /** The regular hours of the latest session that had any. */
  function LatestRth(ticks: seq<Tick>): seq<Tick>
    decreases |ticks|
  {
    if |ticks| == 0 then []
    else if Rth(Today(ticks)) != [] then Rth(Today(ticks))
    else LatestRth(Earlier(ticks))
  }

  // ---- Figures ----

  /** The highest high, of at least one bar. */
  predicate IsHigh(ticks: seq<Tick>, high: Option<real>) {
    if |ticks| == 0 then high.None?
    else
      && high.Some?
      && (exists i :: 0 <= i < |ticks| && ticks[i].bar.high == high.value)
      && (forall i :: 0 <= i < |ticks| ==> ticks[i].bar.high <= high.value)
  }

  /** The lowest low. */
  predicate IsLow(ticks: seq<Tick>, low: Option<real>) {
    if |ticks| == 0 then low.None?
    else
      && low.Some?
      && (exists i :: 0 <= i < |ticks| && ticks[i].bar.low == low.value)
      && (forall i :: 0 <= i < |ticks| ==> ticks[i].bar.low >= low.value)
  }

  function LastClose(ticks: seq<Tick>): Option<real> {
    if |ticks| == 0 then None else Some(ticks[|ticks| - 1].bar.close)
  }

  function Traded(bar: Bar): real {
    if bar.volume > 0.0 then bar.volume else 0.0
  }

  function Volume(ticks: seq<Tick>): real
    decreases |ticks|
  {
    if |ticks| == 0 then 0.0 else Volume(ticks[..|ticks| - 1]) + Traded(ticks[|ticks| - 1].bar)
  }

  /** Typical price times volume, bar by bar. */
  function Turnover(ticks: seq<Tick>): real
    decreases |ticks|
  {
    if |ticks| == 0 then 0.0
    else
      var bar := ticks[|ticks| - 1].bar;
      Turnover(ticks[..|ticks| - 1]) + (bar.high + bar.low + bar.close) / 3.0 * Traded(bar)
  }

  predicate ClosesAre(ticks: seq<Tick>, closes: seq<real>) {
    |closes| == |ticks| && forall i :: 0 <= i < |ticks| ==> closes[i] == ticks[i].bar.close
  }

  predicate MinutesAre(ticks: seq<Tick>, minutes: seq<int>) {
    |minutes| == |ticks| && forall i :: 0 <= i < |ticks| ==> minutes[i] == ticks[i].session.minute
  }

  /** The open of the window's first minute, if a bar of it came. */
  predicate IsOpen(cfg: RetestConfig, ticks: seq<Tick>, open: Option<real>) {
    && (open.None? <==> !HasMinute(ticks, cfg.observationStart))
    && (open.Some? ==> exists i :: 0 <= i < |ticks| && ticks[i].session.minute == cfg.observationStart
                                   && ticks[i].bar.open == open.value)
  }

  /** Minutes since six in the evening. */
  function Offset(t: Tick): int {
    if t.session.minute >= 18 * 60 then t.session.minute - 18 * 60 else t.session.minute + 6 * 60
  }

  /** The offsets that lie after all before them. */
  function Advances(ticks: seq<Tick>): seq<int>
    decreases |ticks|
  {
    if |ticks| == 0 then []
    else
      var before, last := ticks[..|ticks| - 1], ticks[|ticks| - 1];
      Advances(before) + if forall i :: 0 <= i < |before| ==> Offset(before[i]) < Offset(last) then [Offset(last)]
                         else []
  }

  /** Where the close of the last bar lies against the average price of the regular hours so far. */
  function SideOfAverage(today: seq<Tick>, close: real): VwapSide {
    var volume, turnover := Volume(Rth(today)), Turnover(Rth(today));
    if volume <= 0.0 || close * volume == turnover then AtVwap
    else if close * volume > turnover then AboveVwap else BelowVwap
  }

  /** That side for every bar of the opening, as of its own time. */
  function Sides(cfg: RetestConfig, today: seq<Tick>): seq<VwapSide>
    decreases |today|
  {
    if |today| == 0 then []
    else
      var before, last := today[..|today| - 1], today[|today| - 1];
      Sides(cfg, before)
      + if last.session.isRth && InWindow(cfg, last) && !HasMinute(Opening(cfg, before), last.session.minute)
        then [SideOfAverage(today, last.bar.close)] else []
  }

  // ---- The strategy's record of a day ----

  /** Today's figures are those of today's bars. */
  ghost predicate DayIs(cfg: RetestConfig, today: seq<Tick>, s: SessionState) {
    var rth, overnight, opening := Rth(today), Night(today), Opening(cfg, today);
    && (s.rthStarted <==> rth != [])
    && IsHigh(rth, s.rthHigh) && IsLow(rth, s.rthLow) && s.rthClose == LastClose(rth)
    && IsHigh(overnight, s.overnightHigh) && IsLow(overnight, s.overnightLow)
    && s.vwapPv == Turnover(rth) && s.vwapVolume == Volume(rth)
    && s.currentVwap == (if Volume(rth) > 0.0 then Some(Turnover(rth) / Volume(rth)) else None)
    && s.overnightOffsets == Advances(overnight)
    && s.vwapSides == Sides(cfg, today)
    && OpeningIs(cfg, opening, s)
  }

  ghost predicate OpeningIs(cfg: RetestConfig, opening: seq<Tick>, s: SessionState) {
    && MinutesAre(opening, s.openingMinutes) && ClosesAre(opening, s.openingCloses)
    && (forall minute :: minute in s.openingMinuteSet <==> HasMinute(opening, minute))
    && IsOpen(cfg, opening, s.rthOpen)
    && IsHigh(opening, s.openingHigh) && IsLow(opening, s.openingLow) && s.openingClose == LastClose(opening)
    && s.openingVolume == Volume(opening)
  }

  /** Nothing the tracking looks at has changed. */
  predicate SameDay(s: SessionState, t: SessionState) {
    t == s.(lastTimestamp := t.lastTimestamp, classification := t.classification, features := t.features,
            entryState := t.entryState, entryAttempted := t.entryAttempted, retestHigh := t.retestHigh,
            retestLow := t.retestLow, structuralExtreme := t.structuralExtreme, confirmationBars := t.confirmationBars)
  }

  lemma {:induction false} SameDayIs(cfg: RetestConfig, today: seq<Tick>, s: SessionState, t: SessionState)
    requires DayIs(cfg, today, s) && SameDay(s, t)
    ensures DayIs(cfg, today, t)
  {
    hide IsHigh, IsLow, OpeningIs;
    OpeningOnly(cfg, Opening(cfg, today), s, t);
  }

  // ---- One more bar of the day ----

  lemma {:induction false} HighGrows(ticks: seq<Tick>, high: Option<real>, t: Tick)
    requires IsHigh(ticks, high)
    ensures IsHigh(ticks + [t], Raise(high, t.bar.high))
  {
    var all, top := ticks + [t], Raise(high, t.bar.high);
    assert all[|ticks|] == t;
    if |ticks| > 0 && high.value > t.bar.high {
      var i :| 0 <= i < |ticks| && ticks[i].bar.high == high.value;
      assert all[i].bar.high == top.value;
    } else {
      assert all[|ticks|].bar.high == top.value;
    }
  }

  lemma {:induction false} LowGrows(ticks: seq<Tick>, low: Option<real>, t: Tick)
    requires IsLow(ticks, low)
    ensures IsLow(ticks + [t], Sink(low, t.bar.low))
  {
    var all, bottom := ticks + [t], Sink(low, t.bar.low);
    assert all[|ticks|] == t;
    if |ticks| > 0 && low.value < t.bar.low {
      var i :| 0 <= i < |ticks| && ticks[i].bar.low == low.value;
      assert all[i].bar.low == bottom.value;
    } else {
      assert all[|ticks|].bar.low == bottom.value;
    }
  }

  lemma {:induction false} FiltersGrow(cfg: RetestConfig, today: seq<Tick>, t: Tick)
    ensures
      var all, opening := today + [t], Opening(cfg, today);
      && Rth(all) == Rth(today) + (if t.session.isRth then [t] else [])
      && Night(all) == Night(today) + (if !t.session.isRth && Rth(today) == [] then [t] else [])
      && Opening(cfg, all)
         == opening + (if t.session.isRth && InWindow(cfg, t) && !HasMinute(opening, t.session.minute) then [t] else [])
  {
    hide HasMinute, InWindow;
    assert (today + [t])[..|today|] == today;
  }

  lemma {:induction false} SumsGrow(ticks: seq<Tick>, t: Tick)
    ensures Volume(ticks + [t]) == Volume(ticks) + Traded(t.bar)
    ensures Turnover(ticks + [t]) == Turnover(ticks) + Notional(t.bar)
  {
    assert (ticks + [t])[..|ticks|] == ticks;
  }

  lemma {:induction false} VolumeIsNonNegative(ticks: seq<Tick>)
    ensures Volume(ticks) >= 0.0
    decreases |ticks|
  {
    if |ticks| == 0 {
    } else {
      VolumeIsNonNegative(ticks[..|ticks| - 1]);
    }
  }

  lemma {:induction false} MinutesGrow(ticks: seq<Tick>, t: Tick, minute: int)
    ensures HasMinute(ticks + [t], minute) <==> HasMinute(ticks, minute) || t.session.minute == minute
  {
    var all := ticks + [t];
    assert all[|ticks|] == t;
    if HasMinute(ticks, minute) {
      var i :| 0 <= i < |ticks| && ticks[i].session.minute == minute;
      assert all[i].session.minute == minute;
    }
    if HasMinute(all, minute) && t.session.minute != minute {
      var i :| 0 <= i < |all| && all[i].session.minute == minute;
      assert ticks[i].session.minute == minute;
    }
  }

  /** The last offset on record is the latest of all. */
  lemma {:induction false} LastAdvanceIsLatest(ticks: seq<Tick>)
    ensures ticks != [] ==> Advances(ticks) != []
    ensures forall i :: 0 <= i < |ticks| ==> Offset(ticks[i]) <= Advances(ticks)[|Advances(ticks)| - 1]
    ensures ticks != [] ==> exists i :: 0 <= i < |ticks| && Offset(ticks[i]) == Advances(ticks)[|Advances(ticks)| - 1]
    decreases |ticks|
  {
    hide Offset;
    if |ticks| == 0 {
    } else {
      var before, last := ticks[..|ticks| - 1], ticks[|ticks| - 1];
      LastAdvanceIsLatest(before);
      if before != [] {
        var i :| 0 <= i < |before| && Offset(before[i]) == Advances(before)[|Advances(before)| - 1];
        assert ticks[i] == before[i];
      }
      assert Offset(ticks[|ticks| - 1]) == Offset(last);
    }
  }

  lemma {:induction false} AdvancesGrow(ticks: seq<Tick>, t: Tick)
    ensures
      var offsets := Advances(ticks);
      Advances(ticks + [t])
        == if |offsets| == 0 || Offset(t) > offsets[|offsets| - 1] then offsets + [Offset(t)] else offsets
  {
    hide Offset;
    LastAdvanceIsLatest(ticks);
    assert (ticks + [t])[..|ticks|] == ticks;
  }

  lemma {:induction false} SidesGrow(cfg: RetestConfig, today: seq<Tick>, t: Tick)
    ensures
      Sides(cfg, today + [t])
        == Sides(cfg, today)
           + if t.session.isRth && InWindow(cfg, t) && !HasMinute(Opening(cfg, today), t.session.minute)
             then [SideOfAverage(today + [t], t.bar.close)] else []
  {
    hide HasMinute, InWindow, SideOfAverage;
    assert (today + [t])[..|today|] == today;
  }

  lemma {:induction false} SideIsTheAverages(today: seq<Tick>, s: SessionState, close: real)
    requires Volume(Rth(today)) >= 0.0
    requires s.currentVwap == if Volume(Rth(today)) > 0.0 then Some(Turnover(Rth(today)) / Volume(Rth(today))) else None
    ensures VwapSideOf(s.currentVwap, close) == SideOfAverage(today, close)
  {
    hide Volume, Turnover;
    var volume, turnover := Volume(Rth(today)), Turnover(Rth(today));
    if volume > 0.0 {
      QuotientTimes(turnover, volume, turnover / volume);
      AgainstQuotient(close, turnover / volume, volume);
    }
  }

  lemma {:induction false} AgainstQuotient(close: real, average: real, volume: real)
    requires volume > 0.0
    ensures close == average <==> close * volume == average * volume
    ensures close > average <==> close * volume > average * volume
  {
    if close > average {
      assert (close - average) * volume > 0.0;
    } else if close < average {
      assert (average - close) * volume > 0.0;
    }
  }

  lemma {:induction false} OvernightGrows(cfg: RetestConfig, today: seq<Tick>, s: SessionState, t: Tick)
    requires DayIs(cfg, today, s) && !t.session.isRth
    ensures DayIs(cfg, today + [t], TrackOvernight(s, t.bar, t.session.minute))
  {
    hide IsHigh, IsLow, OpeningIs, Volume, Turnover, InWindow, HasMinute, Raise, Sink, Advances, Sides;
    FiltersGrow(cfg, today, t);
    var opening := Opening(cfg, today);
    assert Rth(today) + [] == Rth(today) && Night(today) + [] == Night(today) && opening + [] == opening;
    if Rth(today) == [] {
      HighGrows(Night(today), s.overnightHigh, t);
      LowGrows(Night(today), s.overnightLow, t);
    }
    AdvancesGrow(Night(today), t);
    SidesGrow(cfg, today, t);
    assert Sides(cfg, today) + [] == Sides(cfg, today);
    OpeningOnly(cfg, opening, s, TrackOvernight(s, t.bar, t.session.minute));
  }

  /** The opening's figures depend on nothing else. */
  lemma {:induction false} OpeningOnly(cfg: RetestConfig, opening: seq<Tick>, s: SessionState, t: SessionState)
    requires OpeningIs(cfg, opening, s)
    requires t.openingMinutes == s.openingMinutes && t.openingCloses == s.openingCloses
    requires t.openingMinuteSet == s.openingMinuteSet && t.rthOpen == s.rthOpen
    requires t.openingHigh == s.openingHigh && t.openingLow == s.openingLow && t.openingClose == s.openingClose
    requires t.openingVolume == s.openingVolume
    ensures OpeningIs(cfg, opening, t)
  {
    hide IsHigh, IsLow, IsOpen, MinutesAre, ClosesAre, HasMinute, Volume;
  }

  lemma {:induction false} RthGrows(cfg: RetestConfig, today: seq<Tick>, s: SessionState, t: Tick)
    requires DayIs(cfg, today, s) && t.session.isRth
    ensures DayIs(cfg, today + [t], TrackRth(cfg, s, t.bar, t.session.minute))
  {
    hide IsHigh, IsLow, OpeningIs, Volume, Turnover, HasMinute, Raise, Sink, Notional, VwapSideOf, Advances, Sides;
    hide SideOfAverage;
    FiltersGrow(cfg, today, t);
    var rth, opening := Rth(today), Opening(cfg, today);
    assert Night(today) + [] == Night(today) && opening + [] == opening;
    HighGrows(rth, s.rthHigh, t);
    LowGrows(rth, s.rthLow, t);
    SumsGrow(rth, t);
    VolumeIsNonNegative(rth);
    var priced := UpdateVwap(Started(s, t.bar), t.bar);
    assert Max(0.0, t.bar.volume) == Traded(t.bar);
    OpeningOnly(cfg, opening, s, priced);
    SidesGrow(cfg, today, t);
    assert Sides(cfg, today) + [] == Sides(cfg, today);
    VolumeIsNonNegative(Rth(today + [t]));
    SideIsTheAverages(today + [t], priced, t.bar.close);
    if InWindow(cfg, t) {
      OpeningGrows(cfg, opening, priced, t);
      MinuteIsKnown(cfg, opening, priced, t.session.minute);
    }
  }

  lemma {:induction false} OpeningGrows(cfg: RetestConfig, opening: seq<Tick>, s: SessionState, t: Tick)
    requires OpeningIs(cfg, opening, s)
    ensures
      OpeningIs(cfg, opening + (if HasMinute(opening, t.session.minute) then [] else [t]),
                RecordOpeningBar(cfg, s, t.bar, t.session.minute))
  {
    hide IsHigh, IsLow, HasMinute, VwapSideOf, Raise, Sink;
    var minute := t.session.minute;
    if HasMinute(opening, minute) {
      assert opening + [] == opening;
    } else {
      HighGrows(opening, s.openingHigh, t);
      LowGrows(opening, s.openingLow, t);
      SumsGrow(opening, t);
      assert Max(0.0, t.bar.volume) == Traded(t.bar);
      forall other: int
        ensures HasMinute(opening + [t], other) <==> HasMinute(opening, other) || minute == other
      {
        MinutesGrow(opening, t, other);
      }
      OpenGrows(cfg, opening, s.rthOpen, t);
    }
  }

  lemma {:induction false} MinuteIsKnown(cfg: RetestConfig, opening: seq<Tick>, s: SessionState, minute: int)
    requires OpeningIs(cfg, opening, s)
    ensures minute in s.openingMinuteSet <==> HasMinute(opening, minute)
  {
    hide HasMinute, IsHigh, IsLow, IsOpen;
  }

  lemma {:induction false} OpenGrows(cfg: RetestConfig, opening: seq<Tick>, open: Option<real>, t: Tick)
    requires IsOpen(cfg, opening, open) && !HasMinute(opening, t.session.minute)
    ensures IsOpen(cfg, opening + [t], if t.session.minute == cfg.observationStart then Some(t.bar.open) else open)
  {
    var all := opening + [t];
    assert all[|opening|] == t;
    MinutesGrow(opening, t, cfg.observationStart);
    if t.session.minute != cfg.observationStart && open.Some? {
      var i :| 0 <= i < |opening| && opening[i].session.minute == cfg.observationStart
               && opening[i].bar.open == open.value;
      assert all[i] == opening[i];
    }
  }

  // ---- What earlier sessions leave ----

  function Top(ticks: seq<Tick>): (high: Option<real>)
    ensures IsHigh(ticks, high)
    decreases |ticks|
  {
    if |ticks| == 0 then None
    else
      var before, last := ticks[..|ticks| - 1], ticks[|ticks| - 1];
      HighGrows(before, Top(before), last);
      assert ticks == before + [last];
      Raise(Top(before), last.bar.high)
  }

  function Bottom(ticks: seq<Tick>): (low: Option<real>)
    ensures IsLow(ticks, low)
    decreases |ticks|
  {
    if |ticks| == 0 then None
    else
      var before, last := ticks[..|ticks| - 1], ticks[|ticks| - 1];
      LowGrows(before, Bottom(before), last);
      assert ticks == before + [last];
      Sink(Bottom(before), last.bar.low)
  }

  lemma {:induction false} OneHighOneLow(ticks: seq<Tick>, high: Option<real>, low: Option<real>)
    ensures IsHigh(ticks, high) ==> high == Top(ticks)
    ensures IsLow(ticks, low) ==> low == Bottom(ticks)
  {
  }

  /** The widest of the day's own range and its two reaches from the prior close. */
  function Spread(high: real, low: real, close: real): real {
    var up, down := if high >= close then high - close else close - high, if low >= close then low - close
                    else close - low;
    var reach := if up >= down then up else down;
    if high - low >= reach then high - low else reach
  }

  function ContractOf(cfg: RetestConfig, ticks: seq<Tick>): Option<string> {
    if |ticks| == 0 then None else Some(cfg.frontContract(ticks[0].session.date))
  }

  /** The daily ranges of all sessions that have one: regular hours, a prior close, and no change of contract. */
  function Ranges(cfg: RetestConfig, ticks: seq<Tick>): seq<real>
    decreases |ticks|
  {
    if |ticks| == 0 then []
    else
      var rth, earlier := Rth(Today(ticks)), Earlier(ticks);
      var prior := LatestRth(earlier);
      Ranges(cfg, earlier)
      + if |rth| == 0 || |prior| == 0 || ContractOf(cfg, rth) != ContractOf(cfg, prior) then []
        else
          var range := Spread(Top(rth).value, Bottom(rth).value, LastClose(prior).value);
          if range > 0.0 then [range] else []
  }

  /** Every minute of the window, in order. */
  predicate EveryMinute(cfg: RetestConfig, opening: seq<Tick>) {
    && |opening| == (if cfg.observationMinutes > 0 then cfg.observationMinutes else 0)
    && forall i :: 0 <= i < |opening| ==> opening[i].session.minute == cfg.observationStart + i
  }

  /** The opening volumes of all sessions whose window is complete. */
  function Volumes(cfg: RetestConfig, ticks: seq<Tick>): seq<real>
    decreases |ticks|
  {
    if |ticks| == 0 then []
    else
      var opening := Opening(cfg, Today(ticks));
      Volumes(cfg, Earlier(ticks)) + if EveryMinute(cfg, opening)
        && Volume(opening) > 0.0 then [Volume(opening)] else []
  }

  /** Prior levels and histories are those of the sessions before. */
  ghost predicate HistoryIs(cfg: RetestConfig, earlier: seq<Tick>, m: Memory) {
    var prior := LatestRth(earlier);
    && IsHigh(prior, m.priorRthHigh) && IsLow(prior, m.priorRthLow) && m.priorRthClose == LastClose(prior)
    && m.previousRthContract == ContractOf(cfg, prior)
    && m.dtrHistory == LastOf(Ranges(cfg, earlier), cfg.dailyRangeLookback)
    && m.volumeHistory == LastOf(Volumes(cfg, earlier), cfg.openingVolumeLookback)
  }

  /** Everything on record is what the bars seen make of it. */
  ghost predicate Recorded(cfg: RetestConfig, ticks: seq<Tick>, m: Memory) {
    && HistoryIs(cfg, Earlier(ticks), m)
    && if |ticks| == 0 then m.sessionDate.None?
       else
         var date := ticks[|ticks| - 1].session.date;
         && m.sessionDate == Some(date)
         && m.currentContract == Some(cfg.frontContract(date))
         && (m.session.rollTransition <==>
               m.previousRthContract.Some? && m.previousRthContract != m.currentContract)
         && DayIs(cfg, Today(ticks), m.session)
  }

  /** Nothing that outlasts the session has changed. */
  predicate SameHistory(m: Memory, n: Memory) {
    && n.dtrHistory == m.dtrHistory && n.volumeHistory == m.volumeHistory && n.sessionDate == m.sessionDate
    && n.currentContract == m.currentContract && n.previousRthContract == m.previousRthContract
    && n.priorRthHigh == m.priorRthHigh && n.priorRthLow == m.priorRthLow && n.priorRthClose == m.priorRthClose
  }

  lemma {:induction false} SameIsRecorded(cfg: RetestConfig, ticks: seq<Tick>, m: Memory, n: Memory)
    requires Recorded(cfg, ticks, m) && SameHistory(m, n) && SameDay(m.session, n.session)
    ensures Recorded(cfg, ticks, n)
  {
    hide IsHigh, IsLow, DayIs, SameDay;
    if |ticks| > 0 {
      SameDayIs(cfg, Today(ticks), m.session, n.session);
      assert n.session.rollTransition == m.session.rollTransition by { SameRoll(m.session, n.session); }
    }
  }

  lemma {:induction false} SameRoll(s: SessionState, t: SessionState)
    requires SameDay(s, t)
    ensures t.rollTransition == s.rollTransition
  {
  }

  lemma {:induction false} RangeMeans(lo: int, hi: int)
    ensures |Range(lo, hi)| == if hi > lo then hi - lo else 0
    ensures forall i :: 0 <= i < |Range(lo, hi)| ==> Range(lo, hi)[i] == lo + i
    decreases hi - lo
  {
    if hi <= lo {
    } else {
      RangeMeans(lo, hi - 1);
    }
  }

  lemma {:induction false} CompleteMeans(cfg: RetestConfig, opening: seq<Tick>, s: SessionState)
    requires OpeningIs(cfg, opening, s)
    ensures CompleteOpening(cfg, s) <==> EveryMinute(cfg, opening)
  {
    hide IsHigh, IsLow, IsOpen, HasMinute, ClosesAre, Volume;
    RangeMeans(cfg.observationStart, ObservationEnd(cfg));
    if EveryMinute(cfg, opening) {
      assert s.openingMinutes == Range(cfg.observationStart, ObservationEnd(cfg));
    }
  }

  lemma {:induction false} PushKeepsLast(history: seq<real>, x: real, n: nat)
    ensures Push(LastOf(history, n), x, n) == LastOf(history + [x], n)
  {
  }

  lemma {:induction false} FreezingKeeps(cfg: RetestConfig, m: Memory, timestamp: Timestamp)
    ensures SameHistory(m, FreezeClassification(cfg, m, timestamp))
    ensures SameDay(m.session, FreezeClassification(cfg, m, timestamp).session)
  {
    hide BuildFeatures, Classify;
  }

  lemma {:induction false} OneDay(ticks: seq<Tick>)
    ensures forall i :: 0 <= i < |Today(ticks)| ==> Today(ticks)[i].session.date == ticks[|ticks| - 1].session.date
    decreases |ticks|
  {
    if |ticks| == 0 {
    } else {
      OneDay(ticks[..|ticks| - 1]);
    }
  }

  lemma {:induction false} RthAreTheirs(ticks: seq<Tick>)
    ensures forall i :: 0 <= i < |Rth(ticks)| ==> Rth(ticks)[i] in ticks
    decreases |ticks|
  {
    if |ticks| == 0 {
    } else {
      RthAreTheirs(ticks[..|ticks| - 1]);
    }
  }

  /** The end of a session adds its opening volume. */
  lemma {:induction false} VolumeRecords(cfg: RetestConfig, ticks: seq<Tick>, m: Memory)
    requires |ticks| > 0 && DayIs(cfg, Today(ticks), m.session)
    requires m.volumeHistory == LastOf(Volumes(cfg, Earlier(ticks)), cfg.openingVolumeLookback)
    ensures RecordVolume(cfg, m).volumeHistory == LastOf(Volumes(cfg, ticks), cfg.openingVolumeLookback)
    ensures RecordVolume(cfg, m) == m.(volumeHistory := RecordVolume(cfg, m).volumeHistory)
  {
    hide IsHigh, IsLow, CompleteOpening, EveryMinute, Push;
    var opening := Opening(cfg, Today(ticks));
    CompleteMeans(cfg, opening, m.session);
    PushKeepsLast(Volumes(cfg, Earlier(ticks)), m.session.openingVolume, cfg.openingVolumeLookback);
    assert Volumes(cfg, Earlier(ticks)) + [] == Volumes(cfg, Earlier(ticks));
    assert m.session.openingVolume == Volume(opening);
  }

  /** The end of a session makes its regular hours the prior ones, and adds its range. */
  lemma {:induction false} RangeRecords(cfg: RetestConfig, ticks: seq<Tick>, m: Memory)
    requires |ticks| > 0 && Recorded(cfg, ticks, m.(volumeHistory := LastOf(Volumes(cfg, Earlier(ticks)),
                                                                            cfg.openingVolumeLookback)))
    requires m.volumeHistory == LastOf(Volumes(cfg, ticks), cfg.openingVolumeLookback)
    ensures HistoryIs(cfg, ticks, RecordRange(cfg, m))
  {
    hide IsHigh, IsLow, OpeningIs, Night, Advances, Sides, Opening, Push, TrueRange, Volumes, Turnover, Volume;
    hide LastOf;
    var rth, earlier := Rth(Today(ticks)), Earlier(ticks);
    var prior := LatestRth(earlier);
    OneHighOneLow(rth, m.session.rthHigh, m.session.rthLow);
    SomeOrNone(rth, m.session.rthHigh, m.session.rthLow);
    if |rth| == 0 {
      assert Ranges(cfg, earlier) + [] == Ranges(cfg, earlier);
    } else {
      OneDay(ticks);
      RthAreTheirs(Today(ticks));
      assert rth[0] in Today(ticks);
      assert ContractOf(cfg, rth) == m.currentContract;
      assert Ranges(cfg, earlier) + [] == Ranges(cfg, earlier);
      if |prior| > 0 {
        SpreadIsTrueRange(m.session.rthHigh.value, m.session.rthLow.value, m.priorRthClose.value);
        PushKeepsLast(Ranges(cfg, earlier),
                      TrueRange(m.session.rthHigh.value, m.session.rthLow.value, m.priorRthClose.value),
                      cfg.dailyRangeLookback);
      }
    }
  }

  lemma {:induction false} SomeOrNone(ticks: seq<Tick>, high: Option<real>, low: Option<real>)
    requires IsHigh(ticks, high) && IsLow(ticks, low)
    ensures high.Some? == low.Some? == LastClose(ticks).Some? == (|ticks| > 0)
  {
  }

  lemma {:induction false} SpreadIsTrueRange(high: real, low: real, close: real)
    ensures Spread(high, low, close) == TrueRange(high, low, close)
  {
  }

  lemma {:induction false} SessionEndRecords(cfg: RetestConfig, ticks: seq<Tick>, m: Memory)
    requires Recorded(cfg, ticks, m)
    ensures HistoryIs(cfg, ticks, FinalizeSession(cfg, m))
  {
    hide DayIs, RecordVolume, RecordRange, FreezeClassification, IsHigh, IsLow, Volumes, Ranges;
    if |ticks| == 0 {
      assert Earlier(ticks) == ticks;
    } else {
      var frozen := if m.session.rthStarted then FreezeClassification(cfg, m, m.session.lastTimestamp) else m;
      FreezingKeeps(cfg, m, m.session.lastTimestamp);
      SameDayAsItself(m.session);
      SameIsRecorded(cfg, ticks, m, frozen);
      VolumeRecords(cfg, ticks, frozen);
      var counted := RecordVolume(cfg, frozen);
      assert counted.(volumeHistory := frozen.volumeHistory) == frozen;
      RangeRecords(cfg, ticks, counted);
    }
  }

  lemma {:induction false} SameDayAsItself(s: SessionState)
    ensures SameDay(s, s)
  {
  }

  // ---- One more input ----

  lemma {:induction false} TodayGrows(ticks: seq<Tick>, t: Tick)
    ensures
      if |ticks| > 0 && ticks[|ticks| - 1].session.date == t.session.date
      then Today(ticks + [t]) == Today(ticks) + [t] && Earlier(ticks + [t]) == Earlier(ticks)
      else Today(ticks + [t]) == [t] && Earlier(ticks + [t]) == ticks
  {
    assert (ticks + [t])[..|ticks|] == ticks;
  }

  /** The record as the bar itself finds it: today's bars so far, or a new day. */
  ghost predicate Awake(cfg: RetestConfig, ticks: seq<Tick>, t: Tick, m: Memory) {
    && HistoryIs(cfg, Earlier(ticks + [t]), m)
    && m.sessionDate == Some(t.session.date)
    && m.currentContract == Some(cfg.frontContract(t.session.date))
    && (m.session.rollTransition <==> m.previousRthContract.Some? && m.previousRthContract != m.currentContract)
    && Today(ticks + [t]) != []
    && DayIs(cfg, Today(ticks + [t])[..|Today(ticks + [t])| - 1], m.session)
  }

  lemma {:induction false} FreshDayIs(cfg: RetestConfig, roll: bool)
    ensures DayIs(cfg, [], FRESH_SESSION.(rollTransition := roll))
  {
  }

  lemma {:induction false} StartRecords(cfg: RetestConfig, ticks: seq<Tick>, t: Tick, m: Memory)
    requires Recorded(cfg, ticks, m)
    ensures
      var started := if m.sessionDate != Some(t.session.date) then StartSession(cfg, m, t.session.date) else m;
      Awake(cfg, ticks, t, started)
  {
    hide DayIs, HistoryIs, FinalizeSession, Today, Earlier;
    TodayGrows(ticks, t);
    var today := Today(ticks + [t]);
    if m.sessionDate != Some(t.session.date) {
      SessionEndRecords(cfg, ticks, m);
      var ended := FinalizeSession(cfg, m);
      var started := StartSession(cfg, m, t.session.date);
      FreshDayIs(cfg, started.session.rollTransition);
      assert today[..0] == [];
      HistoryOnly(cfg, ticks, ended, started);
    } else {
      assert (Today(ticks) + [t])[..|Today(ticks)|] == Today(ticks);
    }
  }

  lemma {:induction false} HistoryOnly(cfg: RetestConfig, earlier: seq<Tick>, m: Memory, n: Memory)
    requires HistoryIs(cfg, earlier, m)
    requires n.dtrHistory == m.dtrHistory && n.volumeHistory == m.volumeHistory
    requires n.previousRthContract == m.previousRthContract
    requires n.priorRthHigh == m.priorRthHigh && n.priorRthLow == m.priorRthLow && n.priorRthClose == m.priorRthClose
    ensures HistoryIs(cfg, earlier, n)
  {
    hide IsHigh, IsLow, Ranges, Volumes;
  }

  lemma {:induction false} SameStaysAwake(cfg: RetestConfig, ticks: seq<Tick>, t: Tick, m: Memory, n: Memory)
    requires Awake(cfg, ticks, t, m) && SameHistory(m, n) && SameDay(m.session, n.session)
    ensures Awake(cfg, ticks, t, n)
  {
    hide DayIs, HistoryIs, Today, Earlier, SameDay;
    HistoryOnly(cfg, Earlier(ticks + [t]), m, n);
    SameRoll(m.session, n.session);
    SameDayIs(cfg, Today(ticks + [t])[..|Today(ticks + [t])| - 1], m.session, n.session);
  }

  /** The rest of the preamble looks at none of it. */
  lemma {:induction false} PreambleKeeps(cfg: RetestConfig, m: Memory, tick: Tick)
    ensures
      var started := if m.sessionDate != Some(tick.session.date) then StartSession(cfg, m, tick.session.date) else m;
      var awake := OpenBar(cfg, m, tick).0;
      && SameHistory(started, awake) && SameDay(started.session, awake.session)
      && awake.session.classification == started.session.classification
      && awake.session.features == started.session.features
  {
    hide StartSession;
  }

  /** Only the entry logic's own state has changed: not the record, nor what was frozen, held or reported from it. */
  predicate Untouched(m: Memory, n: Memory) {
    && n == m.(diagnostics := n.diagnostics, entryPending := n.entryPending, entryPendingAge := n.entryPendingAge,
               session := n.session)
    && SameDay(m.session, n.session) && n.session.lastTimestamp == m.session.lastTimestamp
    && n.session.classification == m.session.classification && n.session.features == m.session.features
  }

  lemma {:induction false} UntouchedKeepsHistory(m: Memory, n: Memory)
    requires Untouched(m, n)
    ensures SameHistory(m, n)
  {
  }

  lemma {:induction false} CancellingKeeps(m: Memory, bar: Bar, what: CancelReason, level: Option<real>,
                                           location: Option<real>, bars: Option<nat>)
    ensures Untouched(m, Cancel(m, bar, what, level, location, bars))
    ensures Untouched(m, m)
  {
  }

  lemma {:induction false} ExtendingKeeps(m: Memory, bar: Bar)
    ensures Untouched(m, Extended(m, bar))
  {
    hide SetupOf, Sink, Raise;
  }

  lemma {:induction false} RetestKeeps(cfg: RetestConfig, m: Memory, bar: Bar)
    ensures Untouched(m, FirstRetest(cfg, m, bar))
  {
    hide Contact, Holds, CloseLocation, SetupOf, Cancel;
    CancellingKeeps(m, bar, FirstRetestFailedHold, Some(SetupOf(m.session).reference), CloseLocation(bar), None);
  }

  lemma {:induction false} OrderKeeps(cfg: RetestConfig, m: Memory, bar: Bar, plan: Plan)
    ensures Untouched(m, AcceptedOrder(cfg, m, bar, plan).0)
  {
    hide OrderMetadata, SetupOf, BranchReason;
  }

  lemma {:induction false} RejectionKeeps(m: Memory, bar: Bar, risk: real, riskDtr: real)
    ensures Untouched(m, Reject(m, bar, risk, riskDtr).0)
  {
  }

  lemma {:induction false} PlacingKeeps(cfg: RetestConfig, m: Memory, bar: Bar)
    requires cfg.tickSize > 0.0
    ensures Untouched(m, Place(cfg, m, bar).0)
  {
    hide PlanOf, SetupOf, Untouched, AcceptedOrder, Reject;
    var u, extreme := SetupOf(m.session), m.session.structuralExtreme;
    var plan := PlanOf(cfg, u, if extreme.Some? then extreme.value else 0.0, bar.close);
    OrderKeeps(cfg, m, bar, plan);
    RejectionKeeps(m, bar, plan.risk, if u.dtr > 0.0 then plan.risk / u.dtr else 0.0);
  }

  lemma {:induction false} UntouchedTwice(m: Memory, n: Memory, o: Memory)
    requires Untouched(m, n) && Untouched(n, o)
    ensures Untouched(m, o)
  {
  }

  lemma {:induction false} ConfirmingKeeps(cfg: RetestConfig, m: Memory, bar: Bar)
    requires cfg.tickSize > 0.0
    ensures Untouched(m, Confirmation(cfg, m, bar).0)
  {
    hide Untouched, Extended, Place, Cancel, Invalidated, Confirmed, SetupOf;
    var u, seen := SetupOf(m.session), Extended(m, bar);
    ExtendingKeeps(m, bar);
    CancellingKeeps(seen, bar, ArmedReferenceInvalidated, Some(u.reference), None, None);
    CancellingKeeps(seen, bar, ConfirmationExpired, None, None, Some(seen.session.confirmationBars));
    CancellingKeeps(m, bar, ConfirmationExpired, None, None, None);
    PlacingKeeps(cfg, seen, bar);
    UntouchedTwice(m, seen, Confirmation(cfg, m, bar).0);
  }

  lemma {:induction false} SeekingKeeps(cfg: RetestConfig, m: Memory, bar: Bar, minute: int)
    requires cfg.tickSize > 0.0
    ensures Untouched(m, SeekEntry(cfg, m, bar, minute).0)
  {
    hide Untouched, Available, FirstRetest, Confirmation, Cancel;
    CancellingKeeps(m, bar, FirstRetestWindowExpired, None, None, None);
    CancellingKeeps(m, bar, EntryWindowExpired, None, None, None);
    RetestKeeps(cfg, m, bar);
    ConfirmingKeeps(cfg, m, bar);
  }

  lemma {:induction false} HearingKeeps(m: Memory, item: Feedback)
    ensures SameHistory(m, Hear(m, item)) && SameDay(m.session, Hear(m, item).session)
    ensures Hear(m, item).session.classification == m.session.classification
    ensures Hear(m, item).session.features == m.session.features
  {
  }

  /** Tracking the bar completes the record. */
  lemma {:induction false} TrackingRecords(cfg: RetestConfig, ticks: seq<Tick>, t: Tick, m: Memory)
    requires Awake(cfg, ticks, t, m)
    ensures
      var tracked := if t.session.isRth then TrackRth(cfg, m.session, t.bar, t.session.minute)
                     else TrackOvernight(m.session, t.bar, t.session.minute);
      Recorded(cfg, ticks + [t], m.(session := tracked))
  {
    hide DayIs, HistoryIs, Today, Earlier, TrackRth, TrackOvernight;
    var today := Today(ticks + [t]);
    LastOfToday(ticks, t);
    var before := today[..|today| - 1];
    assert today == before + [t];
    if t.session.isRth {
      RthGrows(cfg, before, m.session, t);
    } else {
      OvernightGrows(cfg, before, m.session, t);
    }
    TrackingKeepsRoll(cfg, m.session, t.bar, t.session.minute);
    var tracked := if t.session.isRth then TrackRth(cfg, m.session, t.bar, t.session.minute)
                   else TrackOvernight(m.session, t.bar, t.session.minute);
    HistoryOnly(cfg, Earlier(ticks + [t]), m, m.(session := tracked));
  }

  lemma {:induction false} LastOfToday(ticks: seq<Tick>, t: Tick)
    ensures Today(ticks + [t]) != [] && Today(ticks + [t])[|Today(ticks + [t])| - 1] == t
  {
    TodayGrows(ticks, t);
  }

  lemma {:induction false} TrackingKeepsRoll(cfg: RetestConfig, s: SessionState, bar: Bar, minute: int)
    ensures TrackRth(cfg, s, bar, minute).rollTransition == s.rollTransition
    ensures TrackOvernight(s, bar, minute).rollTransition == s.rollTransition
  {
  }

  lemma {:induction false} BarRecords(cfg: RetestConfig, ticks: seq<Tick>, t: Tick, m: Memory)
    requires cfg.tickSize > 0.0 && Recorded(cfg, ticks, m)
    ensures Recorded(cfg, ticks + [t], OnBar(cfg, m, t).0)
  {
    hide OpenBar, StartSession, TrackRth, TrackOvernight, FreezeClassification, SeekEntry, Recorded, Awake, SameDay,
         SameHistory;
    var started := if m.sessionDate != Some(t.session.date) then StartSession(cfg, m, t.session.date) else m;
    StartRecords(cfg, ticks, t, m);
    PreambleKeeps(cfg, m, t);
    var awake := OpenBar(cfg, m, t).0;
    SameStaysAwake(cfg, ticks, t, started, awake);
    TrackingRecords(cfg, ticks, t, awake);
    if t.session.isRth {
      var tracked := awake.(session := TrackRth(cfg, awake.session, t.bar, t.session.minute));
      var seen := ObserveRth(cfg, awake, t);
      FreezingKeeps(cfg, tracked, t.bar.timestamp);
      SameAsItself(tracked);
      SameIsRecorded(cfg, ticks + [t], tracked, seen);
      SeekingKeeps(cfg, seen, t.bar, t.session.minute);
      UntouchedKeepsHistory(seen, SeekEntry(cfg, seen, t.bar, t.session.minute).0);
      SameIsRecorded(cfg, ticks + [t], seen, SeekEntry(cfg, seen, t.bar, t.session.minute).0);
    }
  }

  lemma {:induction false} SameAsItself(m: Memory)
    ensures SameHistory(m, m) && SameDay(m.session, m.session)
  {
  }

  /**
   * The record of every history of bars and fills: prior levels are the highest high, lowest low and last close
   * of the regular hours of the latest earlier session that had any; overnight, opening and average figures are
   * those of today's own bars; and the range and volume histories are the last of all earlier sessions'.
   */
  lemma {:induction false} EveryHistoryIsRecorded(cfg: RetestConfig, inputs: seq<Input>)
    requires cfg.tickSize > 0.0
    ensures Recorded(cfg, Seen(inputs), Remember(cfg, inputs))
    decreases |inputs|
  {
    hide OnBar, Hear, Recorded, SameDay, SameHistory, NEW_MEMORY;
    if |inputs| == 0 {
      NothingRecorded(cfg);
    } else {
      var before, last := inputs[..|inputs| - 1], inputs[|inputs| - 1];
      EveryHistoryIsRecorded(cfg, before);
      var m := Remember(cfg, before);
      match last
      case Heard(item) =>
        HearingKeeps(m, item);
        SameIsRecorded(cfg, Seen(before), m, Hear(m, item));
        assert Seen(before) + [] == Seen(before);
      case Saw(tick) => BarRecords(cfg, Seen(before), tick, m);
    }
  }

  lemma {:induction false} NothingRecorded(cfg: RetestConfig)
    ensures Recorded(cfg, [], NEW_MEMORY)
  {
  }
}
