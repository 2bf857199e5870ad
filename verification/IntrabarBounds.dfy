/** The report that bounds the excursion of path-ambiguous stops by their exit bars. */
module IntrabarBounds {
  import opened Prelude
  import opened Market
  import opened StopHistory
  import EngineSpec
  import Ranking

  datatype Interval = Interval(
    symbol: Symbol, side: PositionSide, entryTimestamp: Timestamp, exitTimestamp: Timestamp, entryMinuteStop: bool,
    lower: real, upper: real, width: real, netPnl: real)

  datatype Report = Report(
    tradeCount: nat, stopCount: nat, stopNet: real, entryMinuteCount: nat, entryMinuteNet: real,
    ambiguousCount: nat, ambiguousNet: real, confirmedTotal: real, upperTotal: real, uncertaintyTotal: real,
    uncertaintyMedian: real, uncertaintyMax: real, unresolved: map<real, nat>, intervals: seq<Interval>)

  datatype BoundsError =
    | DuplicateBar(symbol: Symbol, timestamp: Timestamp)
    | MissingBar(symbol: Symbol, timestamp: Timestamp)

  datatype Result<+T> = Ok(value: T) | Err(error: BoundsError)

  type Key = (Symbol, Timestamp)

  function ExitKey(trade: Trade): Key {
    (trade.symbol, trade.exitTimestamp)
  }

  function BarKey(bar: Bar): Key {
    (bar.symbol, bar.timestamp)
  }

  // ---- Which trades ----

  predicate IsStop(trade: Trade) {
    trade.exitReason.Stop?
  }

  predicate IsEntryMinuteStop(trade: Trade) {
    IsStop(trade) && trade.entryTimestamp == trade.exitTimestamp
  }

  predicate IsAmbiguous(trade: Trade) {
    IsStop(trade) && trade.ambiguousExit
  }

  /** The trades that pass, in order. */
  function Filter(p: Trade -> bool, trades: seq<Trade>): (s: seq<Trade>)
    ensures forall t :: t in s <==> t in trades && p(t)
  {
    if |trades| == 0 then []
    else
      assert trades == trades[..|trades| - 1] + [trades[|trades| - 1]];
      Filter(p, trades[..|trades| - 1]) + if p(trades[|trades| - 1]) then [trades[|trades| - 1]] else []
  }

  // ---- The exit bars ----

  /** The bar filed under each needed key. */
  predicate Files(index: map<Key, Bar>, needed: set<Key>, bars: seq<Bar>) {
    && (forall key :: key in index ==> key in needed && index[key] in bars && BarKey(index[key]) == key)
    && (forall i :: 0 <= i < |bars| && BarKey(bars[i]) in needed ==> BarKey(bars[i]) in index)
  }

  /** No needed key is met by two bars. */
  predicate Unambiguous(needed: set<Key>, bars: seq<Bar>) {
    forall i, j :: 0 <= i < j < |bars| && BarKey(bars[i]) in needed ==> BarKey(bars[i]) != BarKey(bars[j])
  }

  /** Bar n is the first to meet a needed key that an earlier bar has met. */
  predicate FirstTwice(needed: set<Key>, bars: seq<Bar>, n: nat) {
    && n < |bars| && BarKey(bars[n]) in needed
    && Unambiguous(needed, bars[..n]) && !Unambiguous(needed, bars[..n + 1])
  }

  lemma {:induction false} FileOne(index: map<Key, Bar>, needed: set<Key>, bars: seq<Bar>, bar: Bar)
    requires Files(index, needed, bars) && Unambiguous(needed, bars)
    ensures BarKey(bar) !in needed ==> Files(index, needed, bars + [bar]) && Unambiguous(needed, bars + [bar])
    ensures BarKey(bar) in needed && BarKey(bar) !in index ==>
      Files(index[BarKey(bar) := bar], needed, bars + [bar]) && Unambiguous(needed, bars + [bar])
  {
    var all := bars + [bar];
    assert forall i :: 0 <= i < |bars| ==> all[i] == bars[i];
    assert all[|bars|] == bar;
  }

  lemma {:induction false} TwiceFiled(index: map<Key, Bar>, needed: set<Key>, bars: seq<Bar>, n: nat)
    requires n < |bars| && Files(index, needed, bars[..n]) && BarKey(bars[n]) in index
    ensures !Unambiguous(needed, bars[..n + 1]) && !Unambiguous(needed, bars)
  {
    var first := index[BarKey(bars[n])];
    assert first in bars[..n];
    var i :| 0 <= i < n && bars[..n][i] == first;
    assert BarKey(bars[i]) == BarKey(bars[n]);
    assert bars[..n + 1][i] == bars[i] && bars[..n + 1][n] == bars[n];
  }

  function Twice(bar: Bar): BoundsError {
    DuplicateBar(bar.symbol, bar.timestamp)
  }

  method IndexBars(needed: set<Key>, bars: seq<Bar>) returns (r: Result<map<Key, Bar>>)
    ensures r.Ok? <==> Unambiguous(needed, bars)
    ensures r.Ok? ==> Files(r.value, needed, bars)
    ensures r.Err? ==> exists n: nat :: FirstTwice(needed, bars, n) && r.error == Twice(bars[n])
  {
    var index: map<Key, Bar> := map[];
    assert Files(index, needed, []) && Unambiguous(needed, []);
    hide Files, Unambiguous;
    for n := 0 to |bars|
      invariant Files(index, needed, bars[..n]) && Unambiguous(needed, bars[..n])
    {
      FileOne(index, needed, bars[..n], bars[n]);
      assert bars[..n] + [bars[n]] == bars[..n + 1];
      var key := BarKey(bars[n]);
      if key in needed {
        if key in index {
          TwiceFiled(index, needed, bars, n);
          assert FirstTwice(needed, bars, n);
          return Err(Twice(bars[n]));
        }
        index := index[key := bars[n]];
      }
    }
    assert bars[..|bars|] == bars;
    r := Ok(index);
  }

  // ---- The intervals ----

  function IntervalOf(trade: Trade, bar: Bar): Interval {
    Interval(trade.symbol, trade.side, trade.entryTimestamp, trade.exitTimestamp,
             trade.entryTimestamp == trade.exitTimestamp,
             Lower(trade), Upper(trade, bar), Upper(trade, bar) - Lower(trade), trade.netPnl)
  }

  predicate Straddles(interval: Interval, threshold: real) {
    interval.lower < threshold <= interval.upper
  }

  function Occurrences(thresholds: seq<real>, v: real): nat {
    if |thresholds| == 0 then 0
    else Occurrences(thresholds[..|thresholds| - 1], v) + if thresholds[|thresholds| - 1] == v then 1 else 0
  }

  /** How often the intervals leave `v` unresolved, once for each time it is asked about. */
  function Tally(intervals: seq<Interval>, thresholds: seq<real>, v: real): nat {
    if |intervals| == 0 then 0
    else
      Tally(intervals[..|intervals| - 1], thresholds, v)
      + if Straddles(intervals[|intervals| - 1], v) then Occurrences(thresholds, v) else 0
  }

  ghost predicate Tallies(counts: map<real, nat>, intervals: seq<Interval>, thresholds: seq<real>) {
    && (forall v :: v in counts <==> v in thresholds)
    && (forall v :: v in counts ==> counts[v] == Tally(intervals, thresholds, v))
  }

  function SumLower(intervals: seq<Interval>): real {
    if |intervals| == 0 then 0.0 else SumLower(intervals[..|intervals| - 1]) + intervals[|intervals| - 1].lower
  }

  function SumUpper(intervals: seq<Interval>): real {
    if |intervals| == 0 then 0.0 else SumUpper(intervals[..|intervals| - 1]) + intervals[|intervals| - 1].upper
  }

  function Widths(intervals: seq<Interval>): (s: seq<real>)
    ensures |s| == |intervals|
  {
    if |intervals| == 0 then [] else Widths(intervals[..|intervals| - 1]) + [intervals[|intervals| - 1].width]
  }

  predicate Bounds(intervals: seq<Interval>, trades: seq<Trade>, index: map<Key, Bar>) {
    && |intervals| == |trades|
    && forall i :: 0 <= i < |trades| ==>
         ExitKey(trades[i]) in index && intervals[i] == IntervalOf(trades[i], index[ExitKey(trades[i])])
  }

  /** The uncertainty the report totals is what separates its two other totals. */
  lemma {:induction false} WidthsMakeTheDifference(intervals: seq<Interval>, trades: seq<Trade>, index: map<Key, Bar>)
    requires Bounds(intervals, trades, index)
    ensures Sum(Widths(intervals)) == SumUpper(intervals) - SumLower(intervals) >= 0.0
    ensures forall i :: 0 <= i < |intervals| ==> Widths(intervals)[i] == intervals[i].width >= 0.0
    decreases |intervals|
  {
    if |intervals| == 0 {
    } else {
      var n := |intervals| - 1;
      WidthsMakeTheDifference(intervals[..n], trades[..n], index);
      assert Widths(intervals)[..n] == Widths(intervals[..n]);
    }
  }

  method CountThresholds(counts: map<real, nat>, interval: Interval, thresholds: seq<real>, ghost before: seq<Interval>)
    returns (next: map<real, nat>)
    requires Tallies(counts, before, thresholds)
    ensures Tallies(next, before + [interval], thresholds)
  {
    next := counts;
    for n := 0 to |thresholds|
      invariant forall v :: v in next <==> v in thresholds
      invariant forall v :: v in next ==>
        next[v] == counts[v] + if Straddles(interval, v) then Occurrences(thresholds[..n], v) else 0
    {
      assert thresholds[..n + 1][..n] == thresholds[..n];
      var threshold := thresholds[n];
      if interval.lower < threshold <= interval.upper {
        next := next[threshold := next[threshold] + 1];
      }
    }
    assert thresholds[..|thresholds|] == thresholds;
    assert (before + [interval])[..|before|] == before;
  }

  method ZeroCounts(thresholds: seq<real>) returns (counts: map<real, nat>)
    ensures Tallies(counts, [], thresholds)
  {
    counts := map[];
    for n := 0 to |thresholds|
      invariant forall v :: v in counts <==> v in thresholds[..n]
      invariant forall v :: v in counts ==> counts[v] == 0
    {
      counts := counts[thresholds[n] := 0];
    }
    assert thresholds[..|thresholds|] == thresholds;
  }

  /** Trade i is the first whose exit bar is not filed. */
  predicate FirstMissing(trades: seq<Trade>, index: map<Key, Bar>, i: nat) {
    i < |trades| && ExitKey(trades[i]) !in index && forall j :: 0 <= j < i ==> ExitKey(trades[j]) in index
  }

  function Missing(trade: Trade): BoundsError {
    MissingBar(trade.symbol, trade.exitTimestamp)
  }

  method BoundTrades(trades: seq<Trade>, index: map<Key, Bar>, thresholds: seq<real>)
    returns (missing: Option<BoundsError>, intervals: seq<Interval>, lower: real, upper: real, counts: map<real, nat>)
    ensures missing.Some? ==> exists i: nat :: FirstMissing(trades, index, i) && missing.value == Missing(trades[i])
    ensures missing.None? ==> Bounds(intervals, trades, index) && Tallies(counts, intervals, thresholds)
    ensures missing.None? ==> lower == SumLower(intervals) && upper == SumUpper(intervals)
  {
    hide Tallies;
    missing, intervals, lower, upper := None, [], 0.0, 0.0;
    counts := ZeroCounts(thresholds);
    for n := 0 to |trades|
      invariant Bounds(intervals, trades[..n], index) && Tallies(counts, intervals, thresholds)
      invariant lower == SumLower(intervals) && upper == SumUpper(intervals)
    {
      var trade := trades[n];
      var key := ExitKey(trade);
      if key !in index {
        assert FirstMissing(trades, index, n);
        missing := Some(Missing(trade));
        return;
      }
      var interval := IntervalOf(trade, index[key]);
      counts := CountThresholds(counts, interval, thresholds, intervals);
      assert (intervals + [interval])[..n] == intervals;
      intervals := intervals + [interval];
      lower := lower + interval.lower;
      upper := upper + interval.upper;
    }
    assert trades[..|trades|] == trades;
  }

  // ---- The report ----

  /** The interval the trade's exit bar gives, for some bar of the data. */
  ghost predicate FromData(interval: Interval, trade: Trade, bars: seq<Bar>) {
    exists bar :: bar in bars && BarKey(bar) == ExitKey(trade) && interval == IntervalOf(trade, bar)
  }

  ghost predicate AllFromData(intervals: seq<Interval>, trades: seq<Trade>, bars: seq<Bar>) {
    |intervals| == |trades| && forall i :: 0 <= i < |trades| ==> FromData(intervals[i], trades[i], bars)
  }

  /** The totals of the report are those of its intervals, and they fit together. */
  ghost predicate Consistent(r: Report, thresholds: seq<real>) {
    var widths := Widths(r.intervals);
    && r.ambiguousCount == |r.intervals|
    && r.confirmedTotal == SumLower(r.intervals)
    && r.upperTotal == SumUpper(r.intervals)
    && r.uncertaintyTotal == r.upperTotal - r.confirmedTotal
    && Tallies(r.unresolved, r.intervals, thresholds)
    && (forall i :: 0 <= i < |widths| ==> 0.0 <= widths[i] <= r.uncertaintyMax)
    && (if |widths| == 0 then r.uncertaintyMax == 0.0 && r.uncertaintyMedian == 0.0
        else r.uncertaintyMax in widths && Ranking.IsMedian(widths, r.uncertaintyMedian))
  }

  /** The counts and results of the trades, of the stops among them, and of those in their entry minute. */
  predicate Counted(r: Report, trades: seq<Trade>) {
    var stops, atEntry, ambiguous :=
      Filter(IsStop, trades), Filter(IsEntryMinuteStop, trades), Filter(IsAmbiguous, trades);
    && r.tradeCount == |trades|
    && r.stopCount == |stops| && r.stopNet == TotalNet(stops)
    && r.entryMinuteCount == |atEntry| && r.entryMinuteNet == TotalNet(atEntry)
    && r.ambiguousCount == |ambiguous| && r.ambiguousNet == TotalNet(ambiguous)
  }

  /** The data lack the trade's exit bar. */
  predicate Unfiled(trade: Trade, bars: seq<Bar>) {
    forall i :: 0 <= i < |bars| ==> BarKey(bars[i]) != ExitKey(trade)
  }

  /** Trade i is the first whose exit bar the data lack. */
  predicate FirstUnfiled(trades: seq<Trade>, bars: seq<Bar>, i: nat) {
    i < |trades| && Unfiled(trades[i], bars) && forall j :: 0 <= j < i ==> !Unfiled(trades[j], bars)
  }

  predicate NoneUnfiled(trades: seq<Trade>, bars: seq<Bar>) {
    forall i :: 0 <= i < |trades| ==> !Unfiled(trades[i], bars)
  }

  function NeededKeys(trades: seq<Trade>): set<Key> {
    set t | t in trades :: ExitKey(t)
  }

  /**
   * The report succeeds if and only if every ambiguous trade has exactly one exit bar; otherwise it names
   * the first bar met twice, or else the first trade without one.
   */
  method BuildReport(trades: seq<Trade>, bars: seq<Bar>, thresholds: seq<real>) returns (r: Result<Report>)
    ensures
      var ambiguous := Filter(IsAmbiguous, trades);
      var needed := NeededKeys(ambiguous);
      && (r.Ok? <==> Unambiguous(needed, bars) && NoneUnfiled(ambiguous, bars))
      && (r.Ok? ==> AllFromData(r.value.intervals, ambiguous, bars) && Consistent(r.value, thresholds)
                    && Counted(r.value, trades))
      && (!Unambiguous(needed, bars) ==>
            exists n: nat :: FirstTwice(needed, bars, n) && r == Err(Twice(bars[n])))
      && (Unambiguous(needed, bars) && !NoneUnfiled(ambiguous, bars) ==>
            exists n: nat :: FirstUnfiled(ambiguous, bars, n) && r == Err(Missing(ambiguous[n])))
  {
    hide Filter, Tallies, SumLower, SumUpper, Sum, TotalNet, Unambiguous, Files, Bounds, AllFromData, NeededKeys;
    hide NoneUnfiled, FirstUnfiled, FirstTwice, ExitKey, Ranking.IsMedian;
    var stops := Filter(IsStop, trades);
    var atEntry := Filter(IsEntryMinuteStop, trades);
    var ambiguous := Filter(IsAmbiguous, trades);
    var index := IndexBars(NeededKeys(ambiguous), bars);
    if index.Err? {
      return Err(index.error);
    }
    var missing, intervals, lower, upper, counts := BoundTrades(ambiguous, index.value, thresholds);
    if missing.Some? {
      var n: nat :| FirstMissing(ambiguous, index.value, n) && missing.value == Missing(ambiguous[n]);
      NoBarFor(ambiguous, index.value, bars, n);
      return Err(missing.value);
    }
    WidthsMakeTheDifference(intervals, ambiguous, index.value);
    EveryIntervalHasItsBar(intervals, ambiguous, index.value, bars);
    var widths := Widths(intervals);
    var largest := Ranking.Largest(widths);
    var median := if |widths| > 0 then Ranking.Median(widths) else 0.0;
    r := Ok(Report(|trades|, |stops|, TotalNet(stops), |atEntry|, TotalNet(atEntry), |intervals|, TotalNet(ambiguous),
                   lower, upper, Sum(widths), median, largest, counts, intervals));
  }

  lemma {:induction false} FiledIffThere(trades: seq<Trade>, index: map<Key, Bar>, bars: seq<Bar>, i: nat)
    requires Files(index, NeededKeys(trades), bars) && i < |trades|
    ensures ExitKey(trades[i]) in index <==> !Unfiled(trades[i], bars)
  {
    assert trades[i] in trades && ExitKey(trades[i]) in NeededKeys(trades);
    if ExitKey(trades[i]) in index {
      var k :| 0 <= k < |bars| && bars[k] == index[ExitKey(trades[i])];
      assert BarKey(bars[k]) == ExitKey(trades[i]);
    }
  }

  lemma {:induction false} NoBarFor(trades: seq<Trade>, index: map<Key, Bar>, bars: seq<Bar>, n: nat)
    requires Files(index, NeededKeys(trades), bars) && FirstMissing(trades, index, n)
    ensures FirstUnfiled(trades, bars, n) && !NoneUnfiled(trades, bars)
  {
    hide Files, Unfiled, ExitKey;
    FiledIffThere(trades, index, bars, n);
    forall j | 0 <= j < n
      ensures !Unfiled(trades[j], bars)
    {
      FiledIffThere(trades, index, bars, j);
    }
  }

  lemma {:induction false} EveryIntervalHasItsBar(intervals: seq<Interval>, trades: seq<Trade>, index: map<Key, Bar>,
                                                  bars: seq<Bar>)
    requires Files(index, NeededKeys(trades), bars) && Bounds(intervals, trades, index)
    ensures AllFromData(intervals, trades, bars) && NoneUnfiled(trades, bars)
  {
    forall i | 0 <= i < |trades|
      ensures FromData(intervals[i], trades[i], bars) && !Unfiled(trades[i], bars)
    {
      FiledIffThere(trades, index, bars, i);
      var bar := index[ExitKey(trades[i])];
      assert bar in bars && BarKey(bar) == ExitKey(trades[i]) && intervals[i] == IntervalOf(trades[i], bar);
    }
  }

  /**
   * A reported interval holds the true excursion of every price path inside the exit bar, and a reported
   * width of zero means the confirmed excursion is exact whatever the path was.
   */
  lemma {:induction false} IntervalHoldsEveryPath(trade: Trade, bar: Bar, path: seq<real>)
    requires Within(path, bar)
    ensures
      var interval := IntervalOf(trade, bar);
      var truth := TrueMfe(trade.side, trade.entryPrice, Lower(trade), path);
      && interval.lower <= truth <= interval.upper
      && (interval.width == 0.0 ==> truth == Lower(trade))
  {
    PathStaysBounded(trade.side, trade.entryPrice, Lower(trade), path, bar);
  }

  /** A threshold the report calls resolved is met by every path or by none. */
  lemma {:induction false} ResolvedMeansResolved(trade: Trade, bar: Bar, p: seq<real>, q: seq<real>, threshold: real)
    requires Within(p, bar) && Within(q, bar)
    requires !Straddles(IntervalOf(trade, bar), threshold)
    ensures TrueMfe(trade.side, trade.entryPrice, Lower(trade), p) >= threshold
            <==> TrueMfe(trade.side, trade.entryPrice, Lower(trade), q) >= threshold
  {
    IntervalHoldsEveryPath(trade, bar, p);
    IntervalHoldsEveryPath(trade, bar, q);
  }

  ghost predicate Reaches(trade: Trade, bar: Bar, path: seq<real>, threshold: real) {
    Within(path, bar) && TrueMfe(trade.side, trade.entryPrice, Lower(trade), path) >= threshold
  }

  ghost predicate FallsShort(trade: Trade, bar: Bar, path: seq<real>, threshold: real) {
    Within(path, bar) && TrueMfe(trade.side, trade.entryPrice, Lower(trade), path) < threshold
  }

  /** On the bar that touched its stop, a trade is unresolved exactly when the path decides. */
  lemma {:induction false} UnresolvedIffThePathDecides(trade: Trade, bar: Bar, threshold: real)
    requires EngineSpec.StopProtects(trade.side, trade.stopPrice, trade.entryPrice)
    requires if trade.side.Long? then bar.low <= trade.stopPrice else bar.high >= trade.stopPrice
    ensures Straddles(IntervalOf(trade, bar), threshold) <==>
      (exists p: seq<real> :: Reaches(trade, bar, p, threshold))
      && (exists q: seq<real> :: FallsShort(trade, bar, q, threshold))
  {
    hide TrueMfe, Within, EngineSpec.StopProtects;
    var interval := IntervalOf(trade, bar);
    if Straddles(interval, threshold) {
      var p := EveryBoundIsAttained(trade, bar, interval.upper);
      var q := EveryBoundIsAttained(trade, bar, interval.lower);
      assert Reaches(trade, bar, p, threshold) && FallsShort(trade, bar, q, threshold);
    } else if p: seq<real>, q: seq<real> :| Reaches(trade, bar, p, threshold) && FallsShort(trade, bar, q, threshold) {
      ResolvedMeansResolved(trade, bar, p, q, threshold);
    }
  }
}
