/** Anchored walk-forward folds: they terminate, tile the span, and account for every trade in it. */
module WalkForward {
  import opened Prelude
  import opened Dates
  import Survivability

  function MonthIndex(d: Day): int {
    d.year * 12 + d.month - 1
  }

  /** The same day of a later month, clamped to that month's end; None past the last year a date can have. */
  function AddMonths(d: Day, months: int): (r: Option<Day>)
    ensures ValidDay(d) && r.Some? ==>
      && ValidDay(r.value)
      && MonthIndex(r.value) == MonthIndex(d) + months
      && r.value.day == (if d.day <= MonthLength(r.value.year, r.value.month) then d.day
                         else MonthLength(r.value.year, r.value.month))
      && (months >= 1 ==> Before(d, r.value))
    ensures ValidDay(d) && months >= 1 ==> (r.None? <==> MonthIndex(d) + months >= (MAX_YEAR + 1) * 12)
  {
    var total := d.year * 12 + d.month - 1 + months;
    var year, month := total / 12, total % 12 + 1;
    if !(1 <= year <= MAX_YEAR) then None
    else Some(Day(year, month, MinInt(d.day, MonthLength(year, month))))
  }

  datatype Fold = Fold(index: nat, trainStart: Day, trainEnd: Day, validationStart: Day, validationEnd: Day)

  datatype FoldError = NoMonths | BadOrder | DateOutOfRange

  datatype Result<+T> = Ok(value: T) | Err(error: FoldError)

  function Earlier(a: Day, b: Day): Day {
    if Before(b, a) then b else a
  }

  /** The folds tile `[from, to)`: they follow on from one another without gap or overlap. */
  predicate Tiles(folds: seq<Fold>, from: Day, to: Day) {
    if |folds| == 0 then from == to
    else
      var last := folds[|folds| - 1];
      && Before(last.validationStart, last.validationEnd)
      && last.validationEnd == to
      && Tiles(folds[..|folds| - 1], from, last.validationStart)
  }

  /** Each fold trains on everything before it, and validates for the months asked, cut at the end of the data. */
  predicate Anchored(folds: seq<Fold>, start: Day, end: Day, months: int) {
    forall k :: 0 <= k < |folds| ==>
      && folds[k].index == k + 1
      && folds[k].trainStart == start
      && folds[k].trainEnd == folds[k].validationStart
      && AddMonths(folds[k].validationStart, months).Some?
      && folds[k].validationEnd == Earlier(AddMonths(folds[k].validationStart, months).value, end)
  }

  /** Where the k-th fold starts, if the data went on for ever. */
  function Start(initial: Day, months: int, k: nat): Option<Day> {
    if k == 0 then Some(initial)
    else
      var before := Start(initial, months, k - 1);
      if before.None? then None else AddMonths(before.value, months)
  }

  predicate Overruns(initial: Day, end: Day, months: int, k: nat) {
    var start := Start(initial, months, k);
    start.Some? && Before(start.value, end) && AddMonths(start.value, months).None?
  }

  /** Some fold that starts before the end of the data has no nominal end in the calendar. */
  ghost predicate RunsOut(initial: Day, end: Day, months: int) {
    exists k: nat :: Overruns(initial, end, months, k)
  }

  const LAST_MONTH := MAX_YEAR * 12 + 11

  /** A start is in the calendar exactly as long as its month is. */
  lemma {:induction false} StartMonths(initial: Day, months: int, k: nat)
    requires ValidDay(initial) && months >= 1
    ensures Start(initial, months, k).Some? <==> MonthIndex(initial) + k * months <= LAST_MONTH
    ensures Start(initial, months, k).Some? ==>
      && ValidDay(Start(initial, months, k).value)
      && MonthIndex(Start(initial, months, k).value) == MonthIndex(initial) + k * months
  {
    if k == 0 {
    } else {
      hide AddMonths;
      StartMonths(initial, months, k - 1);
      assert k * months == (k - 1) * months + months;
    }
  }

  /** How many folds further the last start in the calendar is. */
  function StepsLeft(initial: Day, months: int): (q: nat)
    requires ValidDay(initial) && months >= 1
    ensures q * months <= LAST_MONTH - MonthIndex(initial) < q * months + months
  {
    (LAST_MONTH - MonthIndex(initial)) / months
  }

  /** The last start the calendar has room for. */
  function LastStart(initial: Day, months: int): (d: Day)
    requires ValidDay(initial) && months >= 1
    ensures ValidDay(d) && LAST_MONTH - months < MonthIndex(d) <= LAST_MONTH
  {
    StartMonths(initial, months, StepsLeft(initial, months));
    Start(initial, months, StepsLeft(initial, months)).value
  }

  /** The loop runs off the calendar exactly when the last start in it comes before the end of the data. */
  lemma {:induction false} RunsOutMeans(initial: Day, end: Day, months: int)
    requires ValidDay(initial) && months >= 1
    ensures RunsOut(initial, end, months) <==> Before(LastStart(initial, months), end)
  {
    hide Start, AddMonths;
    var q := StepsLeft(initial, months);
    StartMonths(initial, months, q);
    assert Before(LastStart(initial, months), end) ==> Overruns(initial, end, months, q);
    forall k: nat | Overruns(initial, end, months, k)
      ensures k == q
    {
      StartMonths(initial, months, k);
      OneMultiple(k, q, months, LAST_MONTH - MonthIndex(initial));
    }
  }

  lemma {:induction false} OneMultiple(j: nat, k: nat, months: int, total: int)
    requires months >= 1
    requires j * months <= total < j * months + months
    requires k * months <= total < k * months + months
    ensures j == k
  {
    if j < k {
      NextMultiple(j, k, months);
    } else if k < j {
      NextMultiple(k, j, months);
    }
  }

  lemma {:induction false} NextMultiple(j: nat, k: nat, m: int)
    requires j < k && m >= 1
    ensures j * m + m <= k * m
    decreases k
  {
    assert k * m == (k - 1) * m + m;
    if k == j + 1 {
    } else {
      NextMultiple(j, k - 1, m);
    }
  }

  /** What is wrong with the arguments, if anything; a caller can tell before any fold is built. */
  function ArgumentError(start: Day, initial: Day, end: Day, months: int): Option<FoldError>
    requires ValidDay(initial)
  {
    if months < 1 then Some(NoMonths)
    else if !(Before(start, initial) && Before(initial, end)) then Some(BadOrder)
    else if Before(LastStart(initial, months), end) then Some(DateOutOfRange)
    else None
  }

  lemma {:induction false} StartsGoForward(initial: Day, months: int, j: nat, k: nat)
    requires ValidDay(initial) && months >= 1 && j <= k && Start(initial, months, k).Some?
    ensures Start(initial, months, j).Some? && ValidDay(Start(initial, months, k).value)
    ensures NotAfter(Start(initial, months, j).value, Start(initial, months, k).value)
    decreases k
  {
    if k == 0 {
    } else {
      if j < k {
        StartsGoForward(initial, months, j, k - 1);
      } else {
        StartsGoForward(initial, months, k - 1, k - 1);
      }
    }
  }

  /** Once a start has passed the end of the data, no later one overruns. */
  lemma {:induction false} NoneOverruns(initial: Day, end: Day, months: int, n: nat)
    requires ValidDay(initial) && months >= 1
    requires Start(initial, months, n).Some? && !Before(Start(initial, months, n).value, end)
    requires forall k: nat :: k < n ==> !Overruns(initial, end, months, k)
    ensures !RunsOut(initial, end, months)
  {
    forall k: nat
      ensures !Overruns(initial, end, months, k)
    {
      if k >= n && Start(initial, months, k).Some? {
        StartsGoForward(initial, months, n, k);
      }
    }
  }

  method BuildAnchoredFolds(start: Day, initial: Day, end: Day, months: int) returns (r: Result<seq<Fold>>)
    requires ValidDay(start) && ValidDay(initial) && ValidDay(end)
    ensures r.Err? <==> ArgumentError(start, initial, end, months).Some?
    ensures r.Err? ==> ArgumentError(start, initial, end, months) == Some(r.error)
    ensures r.Ok? ==> Tiles(r.value, initial, end) && Anchored(r.value, start, end, months)
  {
    hide RunsOut, Tiles, Anchored, ValidDay, AddMonths, LastStart;
    if months < 1 {
      return Err(NoMonths);
    }
    if !(Before(start, initial) && Before(initial, end)) {
      return Err(BadOrder);
    }
    RunsOutMeans(initial, end, months);
    var folds: seq<Fold> := [];
    var from := initial;
    var index := 1;
    NoFoldsYet(start, initial, end, months);
    while Before(from, end)
      invariant ValidDay(from) && NotAfter(from, end)
      invariant index == |folds| + 1
      invariant Start(initial, months, |folds|).Some? && from == Earlier(Start(initial, months, |folds|).value, end)
      invariant forall k: nat :: k < |folds| ==> !Overruns(initial, end, months, k)
      invariant Tiles(folds, initial, from) && Anchored(folds, start, end, months)
      decreases MonthIndex(end) - MonthIndex(from) + if Before(from, end) then 1 else 0
    {
      var next := AddMonths(from, months);
      if next.None? {
        SomeOverruns(initial, end, months, |folds|);
        return Err(DateOutOfRange);
      }
      var to := Earlier(next.value, end);
      var fold := Fold(index, start, from, from, to);
      OneMoreFold(folds, fold, initial, start, end, months);
      folds := folds + [fold];
      from := to;
      index := index + 1;
    }
    NoneOverruns(initial, end, months, |folds|);
    r := Ok(folds);
  }

  lemma {:induction false} SomeOverruns(initial: Day, end: Day, months: int, k: nat)
    requires Overruns(initial, end, months, k)
    ensures RunsOut(initial, end, months)
  {
  }

  lemma {:induction false} NoFoldsYet(start: Day, initial: Day, end: Day, months: int)
    ensures Tiles([], initial, initial) && Anchored([], start, end, months)
  {
  }

  lemma {:induction false} OneMoreFold(folds: seq<Fold>, fold: Fold, initial: Day, start: Day, end: Day, months: int)
    requires ValidDay(fold.validationStart) && ValidDay(end) && months >= 1
    requires Tiles(folds, initial, fold.validationStart) && Anchored(folds, start, end, months)
    requires AddMonths(fold.validationStart, months).Some? && Before(fold.validationStart, end)
    requires fold == Fold(|folds| + 1, start, fold.validationStart, fold.validationStart,
                          Earlier(AddMonths(fold.validationStart, months).value, end))
    ensures Tiles(folds + [fold], initial, fold.validationEnd) && Anchored(folds + [fold], start, end, months)
    ensures ValidDay(fold.validationEnd) && NotAfter(fold.validationEnd, end)
    ensures fold.validationEnd == end || MonthIndex(fold.validationEnd) > MonthIndex(fold.validationStart)
    ensures MonthIndex(fold.validationEnd) <= MonthIndex(end) && MonthIndex(fold.validationStart) <= MonthIndex(end)
  {
    assert (folds + [fold])[..|folds|] == folds;
  }

  /** The loop can run off the calendar: here the data end in time, but the last fold's nominal end does not exist. */
  lemma {:induction false} CalendarCanRunOut()
    ensures
      var initial, end := Day(9999, 8, 1), Day(9999, 12, 1);
      ArgumentError(Day(2020, 1, 1), initial, end, 6) == Some(DateOutOfRange)
  {
    SomeOverruns(Day(9999, 8, 1), Day(9999, 12, 1), 6, 0);
    RunsOutMeans(Day(9999, 8, 1), Day(9999, 12, 1), 6);
  }

  // ---- Counting trades fold by fold ----

  /** The day a trade was entered on, and what it made. */
  datatype DatedTrade = DatedTrade(entry: Day, netPnl: real)

  predicate Within(d: Day, from: Day, to: Day) {
    NotAfter(from, d) && Before(d, to)
  }

  function Selected(trades: seq<DatedTrade>, from: Day, to: Day): seq<DatedTrade> {
    if |trades| == 0 then []
    else
      var last := trades[|trades| - 1];
      Selected(trades[..|trades| - 1], from, to) + if Within(last.entry, from, to) then [last] else []
  }

  function Net(trades: seq<DatedTrade>): real {
    if |trades| == 0 then 0.0 else Net(trades[..|trades| - 1]) + trades[|trades| - 1].netPnl
  }

  datatype FoldResult = FoldResult(
    fold: Fold, tradeCount: nat, netPnl: real, profitFactor: Option<real>, maxDrawdown: real, winRate: real)

  function Counts(results: seq<FoldResult>): nat {
    if |results| == 0 then 0 else Counts(results[..|results| - 1]) + results[|results| - 1].tradeCount
  }

  function Nets(results: seq<FoldResult>): real {
    if |results| == 0 then 0.0 else Nets(results[..|results| - 1]) + results[|results| - 1].netPnl
  }

  /** A span takes its first day and leaves its last, as the days are numbered. */
  lemma {:induction false} SelectedByOrdinal(trades: seq<DatedTrade>, from: Day, to: Day, t: DatedTrade)
    requires ValidDay(from) && ValidDay(to) && ValidDay(t.entry)
    ensures t in Selected(trades, from, to) <==>
      t in trades && Ordinal(from) <= Ordinal(t.entry) < Ordinal(to)
    decreases |trades|
  {
    hide Ordinal, Before;
    if |trades| == 0 {
    } else {
      var before, last := trades[..|trades| - 1], trades[|trades| - 1];
      SelectedByOrdinal(before, from, to, t);
      OrdinalsAreTheCalendar(from, t.entry);
      OrdinalsAreTheCalendar(t.entry, to);
      assert trades == before + [last];
    }
  }

  lemma {:induction false} NetAppends(trades: seq<DatedTrade>, more: seq<DatedTrade>)
    requires |more| <= 1
    ensures Net(trades + more) == Net(trades) + Net(more)
  {
    if |more| == 1 {
      assert (trades + more)[..|trades|] == trades;
      assert more[..0] == [];
      assert Net([]) == 0.0;
    } else {
      assert trades + more == trades;
    }
  }

  /** Adjacent spans share nothing and miss nothing. */
  lemma {:induction false} SpansAdd(trades: seq<DatedTrade>, from: Day, mid: Day, to: Day)
    requires NotAfter(from, mid) && NotAfter(mid, to)
    ensures |Selected(trades, from, mid)| + |Selected(trades, mid, to)| == |Selected(trades, from, to)|
    ensures Net(Selected(trades, from, mid)) + Net(Selected(trades, mid, to)) == Net(Selected(trades, from, to))
    decreases |trades|
  {
    hide Within, NotAfter;
    if |trades| == 0 {
    } else {
      var before, last := trades[..|trades| - 1], trades[|trades| - 1];
      SpansAdd(before, from, mid, to);
      SelectionAppends(before, last, from, mid);
      SelectionAppends(before, last, mid, to);
      SelectionAppends(before, last, from, to);
      assert before + [last] == trades;
      OneSpanHolds(last.entry, from, mid, to);
    }
  }

  lemma {:induction false} OneSpanHolds(d: Day, from: Day, mid: Day, to: Day)
    requires NotAfter(from, mid) && NotAfter(mid, to)
    ensures Within(d, from, to) <==> Within(d, from, mid) || Within(d, mid, to)
    ensures !(Within(d, from, mid) && Within(d, mid, to))
  {
  }

  lemma {:induction false} SelectionAppends(trades: seq<DatedTrade>, t: DatedTrade, from: Day, to: Day)
    ensures
      var hit := Within(t.entry, from, to);
      && |Selected(trades + [t], from, to)| == |Selected(trades, from, to)| + (if hit then 1 else 0)
      && Net(Selected(trades + [t], from, to)) == Net(Selected(trades, from, to)) + (if hit then t.netPnl else 0.0)
  {
    hide Within;
    assert (trades + [t])[..|trades|] == trades;
    var more := if Within(t.entry, from, to) then [t] else [];
    NetAppends(Selected(trades, from, to), more);
    assert Net([]) == 0.0;
    assert [t][..0] == [];
  }

  lemma {:induction false} NothingSelected(trades: seq<DatedTrade>, d: Day)
    ensures Selected(trades, d, d) == []
    decreases |trades|
  {
    if |trades| == 0 {
    } else {
      NothingSelected(trades[..|trades| - 1], d);
      assert !Within(trades[|trades| - 1].entry, d, d);
    }
  }

  lemma {:induction false} TilesAreOrdered(folds: seq<Fold>, from: Day, to: Day)
    requires Tiles(folds, from, to)
    ensures NotAfter(from, to)
    decreases |folds|
  {
    if |folds| == 0 {
    } else {
      TilesAreOrdered(folds[..|folds| - 1], from, folds[|folds| - 1].validationStart);
    }
  }

  /** `results` reports each fold's own trades. */
  predicate Reports(results: seq<FoldResult>, folds: seq<Fold>, trades: seq<DatedTrade>) {
    && |results| == |folds|
    && forall k :: 0 <= k < |folds| ==>
         var selected := Selected(trades, folds[k].validationStart, folds[k].validationEnd);
         && results[k].fold == folds[k]
         && results[k].tradeCount == |selected|
         && results[k].netPnl == Net(selected)
  }

  /** Fold by fold, the counts and the money are those of all the trades entered in the span. */
  lemma {:induction false} FoldsConserve(results: seq<FoldResult>, folds: seq<Fold>, trades: seq<DatedTrade>,
                                         from: Day, to: Day)
    requires Tiles(folds, from, to) && Reports(results, folds, trades)
    ensures Counts(results) == |Selected(trades, from, to)|
    ensures Nets(results) == Net(Selected(trades, from, to))
    decreases |folds|
  {
    if |folds| == 0 {
      NothingSelected(trades, from);
    } else {
      var n := |folds| - 1;
      TilesAreOrdered(folds[..n], from, folds[n].validationStart);
      FoldsConserve(results[..n], folds[..n], trades, from, folds[n].validationStart);
      SpansAdd(trades, from, folds[n].validationStart, to);
    }
  }

  method SelectTrades(trades: seq<DatedTrade>, from: Day, to: Day) returns (selected: seq<DatedTrade>)
    ensures selected == Selected(trades, from, to)
  {
    selected := [];
    for n := 0 to |trades|
      invariant selected == Selected(trades[..n], from, to)
    {
      assert trades[..n + 1][..n] == trades[..n];
      if NotAfter(from, trades[n].entry) && Before(trades[n].entry, to) {
        selected := selected + [trades[n]];
      }
    }
    assert trades[..|trades|] == trades;
  }

  function NetPnls(trades: seq<DatedTrade>): (s: seq<real>)
    ensures |s| == |trades|
  {
    seq(|trades|, i requires 0 <= i < |trades| => trades[i].netPnl)
  }

  /** The ratios a fold reports of its trades' results. */
  ghost predicate Rated(r: FoldResult, pnls: seq<real>) {
    var won, lost := Survivability.Total(Survivability.Wins(pnls)), Survivability.Total(Survivability.Losses(pnls));
    && Survivability.IsDrawdown(pnls, |pnls|, r.maxDrawdown)
    && r.winRate * |pnls| as real == |Survivability.Wins(pnls)| as real
    && (|pnls| == 0 ==> r.winRate == 0.0)
    && (r.profitFactor.Some? <==> lost < 0.0)
    && (r.profitFactor.Some? ==> won + lost == -lost * (r.profitFactor.value - 1.0))
  }

  method SummarizeFold(trades: seq<DatedTrade>, fold: Fold) returns (r: FoldResult)
    ensures
      var selected := Selected(trades, fold.validationStart, fold.validationEnd);
      r.fold == fold && r.tradeCount == |selected| && r.netPnl == Net(selected) && Rated(r, NetPnls(selected))
  {
    hide Survivability.IsDrawdown, Survivability.Total, Survivability.Losses, Survivability.Wins;
    var selected := SelectTrades(trades, fold.validationStart, fold.validationEnd);
    var pnls := NetPnls(selected);
    var worst := Survivability.MaxDrawdown(pnls);
    var wins := Survivability.Wins(pnls);
    Survivability.NothingNets(pnls);
    var winRate := Survivability.Mean(|wins| as real, |pnls|);
    var factor := Survivability.ProfitFactor(Survivability.Total(wins),
                                             Survivability.Total(Survivability.Losses(pnls)));
    r := FoldResult(fold, |selected|, Net(selected), factor, worst, winRate);
  }

  method SummarizeWalkForward(trades: seq<DatedTrade>, folds: seq<Fold>) returns (results: seq<FoldResult>)
    ensures Reports(results, folds, trades)
    ensures forall k :: 0 <= k < |results| ==>
      Rated(results[k], NetPnls(Selected(trades, folds[k].validationStart, folds[k].validationEnd)))
  {
    hide Rated;
    results := [];
    for n := 0 to |folds|
      invariant Reports(results, folds[..n], trades)
      invariant forall k :: 0 <= k < n ==>
        Rated(results[k], NetPnls(Selected(trades, folds[k].validationStart, folds[k].validationEnd)))
    {
      var result := SummarizeFold(trades, folds[n]);
      results := results + [result];
    }
    assert folds[..|folds|] == folds;
  }

  function FoldsOf(results: seq<FoldResult>): (folds: seq<Fold>)
    ensures |folds| == |results|
  {
    seq(|results|, i requires 0 <= i < |results| => results[i].fold)
  }

  /** The whole study: build the folds, then report them; nothing in the span is lost or counted twice. */
  method Study(start: Day, initial: Day, end: Day, months: int, trades: seq<DatedTrade>)
    returns (r: Result<seq<FoldResult>>)
    requires ValidDay(start) && ValidDay(initial) && ValidDay(end)
    ensures r.Err? <==> ArgumentError(start, initial, end, months).Some?
    ensures r.Err? ==> ArgumentError(start, initial, end, months) == Some(r.error)
    ensures r.Ok? ==>
      && Tiles(FoldsOf(r.value), initial, end) && Anchored(FoldsOf(r.value), start, end, months)
      && Reports(r.value, FoldsOf(r.value), trades)
      && Counts(r.value) == |Selected(trades, initial, end)|
      && Nets(r.value) == Net(Selected(trades, initial, end))
  {
    var folds := BuildAnchoredFolds(start, initial, end, months);
    if folds.Err? {
      return Err(folds.error);
    }
    var results := SummarizeWalkForward(trades, folds.value);
    FoldsConserve(results, folds.value, trades, initial, end);
    assert FoldsOf(results) == folds.value;
    r := Ok(results);
  }
}
