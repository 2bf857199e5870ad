/** The survivability report: what remains without the best trades, and the worst the curve fell. */
module Survivability {
  import opened Prelude
  import opened Ranking

  /** The side text of a trade result. */
  datatype ResultSide = LongResult | ShortResult | OtherResult(name: string)

  datatype TradeResult = TradeResult(side: ResultSide, pnl: real)

  function Pnls(trades: seq<TradeResult>): (s: seq<real>)
    ensures |s| == |trades| && forall i :: 0 <= i < |s| ==> s[i] == trades[i].pnl
  {
    seq(|trades|, i requires 0 <= i < |trades| => trades[i].pnl)
  }

  function Total(s: seq<real>): real {
    if |s| == 0 then 0.0 else s[0] + Total(s[1..])
  }

  // ---- Removing the best trades ----

  function Wins(s: seq<real>): seq<real> {
    if |s| == 0 then [] else (if s[0] > 0.0 then [s[0]] else []) + Wins(s[1..])
  }

  function TopSum(ranked: seq<real>, k: nat): real {
    Total(if k <= |ranked| then ranked[..k] else ranked)
  }

  function WithoutTop(s: seq<real>, k: nat): real {
    Total(s) - TopSum(Ranked(Wins(s)), k)
  }

  /** What is left when the marked trades are taken out. */
  function Kept(s: seq<real>, removed: seq<bool>): real
    requires |removed| == |s|
  {
    if |s| == 0 then 0.0 else (if removed[0] then 0.0 else s[0]) + Kept(s[1..], removed[1..])
  }

  function Marks(removed: seq<bool>): nat {
    if |removed| == 0 then 0 else (if removed[0] then 1 else 0) + Marks(removed[1..])
  }

  predicate AllPositive(s: seq<real>) {
    forall i :: 0 <= i < |s| ==> s[i] > 0.0
  }

  lemma {:induction false} TopUnfolds(t: seq<real>, k: nat)
    requires k > 0 && |t| > 0
    ensures TopSum(t, k) == t[0] + TopSum(t[1..], k - 1)
  {
    if k <= |t| {
      assert t[..k][1..] == t[1..][..k - 1];
    }
  }

  lemma {:induction false} TopGrows(t: seq<real>, k: nat)
    requires AllPositive(t)
    ensures TopSum(t, k) <= TopSum(t, k + 1)
    decreases |t|
  {
    if |t| == 0 {
    } else {
      TopUnfolds(t, k + 1);
      if k > 0 {
        TopUnfolds(t, k);
        TopGrows(t[1..], k - 1);
      } else {
        assert TopSum(t, 0) == 0.0;
        TopIsNonNegative(t[1..], 0);
      }
    }
  }

  lemma {:induction false} TopIsNonNegative(t: seq<real>, k: nat)
    requires AllPositive(t)
    ensures TopSum(t, k) >= 0.0
    decreases |t|
  {
    if |t| == 0 || k == 0 {
    } else {
      TopUnfolds(t, k);
      TopIsNonNegative(t[1..], k - 1);
    }
  }

  /** One more value to rank: the top `k` is the better of leaving it out and putting it in. */
  lemma {:induction false} TopOfInsert(x: real, t: seq<real>, k: nat)
    requires Descending(t) && x > 0.0 && k > 0
    ensures TopSum(Insert(x, t), k) >= TopSum(t, k)
    ensures TopSum(Insert(x, t), k) >= x + TopSum(t, k - 1)
    ensures TopSum(Insert(x, t), k) == TopSum(t, k) || TopSum(Insert(x, t), k) == x + TopSum(t, k - 1)
    decreases |t|
  {
    var u := Insert(x, t);
    TopUnfolds(u, k);
    if |t| == 0 {
      assert u == [x] && u[1..] == t;
    } else if x >= t[0] {
      assert u[1..] == t;
      TopUnfolds(t, k);
      OneMoreIsBounded(t, k - 1, x);
    } else {
      assert u[1..] == Insert(x, t[1..]);
      TopUnfolds(t, k);
      if k > 1 {
        TopUnfolds(t, k - 1);
        TopOfInsert(x, t[1..], k - 1);
      } else {
        assert TopSum(u[1..], 0) == TopSum(t[1..], 0) == TopSum(t, 0) == 0.0;
      }
    }
  }

  /** The next value in rank is no better than one that outranks them all. */
  lemma {:induction false} OneMoreIsBounded(t: seq<real>, k: nat, x: real)
    requires Descending(t) && |t| > 0 && x > 0.0 && x >= t[0]
    ensures TopSum(t, k + 1) <= x + TopSum(t, k)
    decreases |t|
  {
    TopUnfolds(t, k + 1);
    if k > 0 {
      TopUnfolds(t, k);
      if |t| > 1 {
        OneMoreIsBounded(t[1..], k - 1, x);
      } else {
        assert t[1..] == [];
      }
    } else {
      assert TopSum(t[1..], 0) == TopSum(t, 0) == 0.0;
    }
  }

  lemma {:induction false} RankedWinsArePositive(s: seq<real>)
    ensures AllPositive(Wins(s)) && AllPositive(Ranked(Wins(s)))
  {
    WinsArePositive(s);
    var t := Ranked(Wins(s));
    forall i | 0 <= i < |t|
      ensures t[i] > 0.0
    {
      assert t[i] in multiset(t);
      assert t[i] in Wins(s);
    }
  }

  lemma {:induction false} WinsArePositive(s: seq<real>)
    ensures AllPositive(Wins(s))
  {
    if |s| == 0 {
    } else {
      WinsArePositive(s[1..]);
    }
  }

  lemma {:induction false} RankedWins(s: seq<real>)
    requires |s| > 0
    ensures Ranked(Wins(s)) == if s[0] > 0.0 then Insert(s[0], Ranked(Wins(s[1..]))) else Ranked(Wins(s[1..]))
  {
    if s[0] > 0.0 {
      assert Wins(s) == [s[0]] + Wins(s[1..]);
      assert Wins(s)[1..] == Wins(s[1..]);
    } else {
      assert Wins(s) == Wins(s[1..]);
    }
  }

  lemma {:induction false} MarkedFirst(s: seq<real>, first: bool, rest: seq<bool>)
    requires |s| > 0 && |rest| == |s| - 1
    ensures Marks([first] + rest) == (if first then 1 else 0) + Marks(rest)
    ensures Kept(s, [first] + rest) == (if first then 0.0 else s[0]) + Kept(s[1..], rest)
  {
    assert ([first] + rest)[1..] == rest;
  }

  /** The worst removal of one more trade: the better of leaving that trade in and taking it out. */
  lemma {:induction false} WithoutTopUnfolds(s: seq<real>, k: nat)
    requires |s| > 0
    ensures WithoutTop(s, k) <= s[0] + WithoutTop(s[1..], k)
    ensures k > 0 ==> WithoutTop(s, k) <= WithoutTop(s[1..], k - 1)
    ensures WithoutTop(s, k) == s[0] + WithoutTop(s[1..], k) || (k > 0 && WithoutTop(s, k) == WithoutTop(s[1..], k - 1))
  {
    hide Insert, Ranked, TopSum, Wins;
    var t := Ranked(Wins(s[1..]));
    RankedWins(s);
    RankedWinsArePositive(s[1..]);
    if k == 0 {
      NothingOnTop(t);
      NothingOnTop(Ranked(Wins(s)));
    } else {
      TopGrows(t, k - 1);
      if s[0] > 0.0 {
        TopOfInsert(s[0], t, k);
      }
    }
  }

  lemma {:induction false} WithoutTopOfNothing(k: nat)
    ensures WithoutTop([], k) == 0.0
  {
    assert Wins([]) == [];
    TopOfNothing(k);
  }

  /** No choice of at most `k` trades to remove leaves less. */
  lemma {:induction false} RemovalIsBounded(s: seq<real>, removed: seq<bool>, k: nat)
    requires |removed| == |s| && Marks(removed) <= k
    ensures Kept(s, removed) >= WithoutTop(s, k)
    decreases |s|
  {
    hide WithoutTop;
    if |s| == 0 {
      WithoutTopOfNothing(k);
    } else {
      WithoutTopUnfolds(s, k);
      RemovalIsBounded(s[1..], removed[1..], if removed[0] then k - 1 else k);
    }
  }

  /** And some choice leaves exactly that. */
  lemma {:induction false} SomeRemovalIsWorst(s: seq<real>, k: nat) returns (removed: seq<bool>)
    ensures |removed| == |s| && Marks(removed) <= k
    ensures Kept(s, removed) == WithoutTop(s, k)
    decreases |s|
  {
    hide WithoutTop;
    if |s| == 0 {
      WithoutTopOfNothing(k);
      return [];
    }
    WithoutTopUnfolds(s, k);
    if WithoutTop(s, k) == s[0] + WithoutTop(s[1..], k) {
      var rest := SomeRemovalIsWorst(s[1..], k);
      MarkedFirst(s, false, rest);
      removed := [false] + rest;
    } else {
      var rest := SomeRemovalIsWorst(s[1..], k - 1);
      MarkedFirst(s, true, rest);
      removed := [true] + rest;
    }
  }

  lemma {:induction false} NothingOnTop(t: seq<real>)
    ensures TopSum(t, 0) == 0.0
  {
  }

  lemma {:induction false} TopOfNothing(k: nat)
    ensures TopSum(Ranked([]), k) == 0.0
  {
  }

  // ---- The equity curve ----

  /** Equity after the first `k` trades. */
  function Equity(s: seq<real>, k: nat): real
    requires k <= |s|
  {
    if k == 0 then 0.0 else Equity(s, k - 1) + s[k - 1]
  }

  /** `p` is the highest equity among the first `n` trades. */
  ghost predicate IsPeak(s: seq<real>, n: nat, p: real)
    requires n <= |s|
  {
    && (exists i :: 0 <= i <= n && p == Equity(s, i))
    && (forall i :: 0 <= i <= n ==> Equity(s, i) <= p)
  }

  /** `d` is the deepest fall, over the first `n` trades, from any point of the curve to a later one. */
  ghost predicate IsDrawdown(s: seq<real>, n: nat, d: real)
    requires n <= |s|
  {
    && (exists i, j :: 0 <= i <= j <= n && d == Equity(s, j) - Equity(s, i))
    && (forall i, j :: 0 <= i <= j <= n ==> d <= Equity(s, j) - Equity(s, i))
  }

  lemma {:induction false} PeakGrows(s: seq<real>, n: nat, peak: real)
    requires n < |s| && IsPeak(s, n, peak)
    ensures IsPeak(s, n + 1, Max(peak, Equity(s, n + 1)))
  {
    hide Equity;
    var top :| 0 <= top <= n && peak == Equity(s, top);
    assert Max(peak, Equity(s, n + 1)) == Equity(s, if Equity(s, n + 1) >= peak then n + 1 else top);
  }

  lemma {:induction false} DrawdownGrows(s: seq<real>, n: nat, peak: real, d: real)
    requires n < |s| && IsPeak(s, n, peak) && IsDrawdown(s, n, d)
    ensures
      var e := Equity(s, n + 1);
      IsDrawdown(s, n + 1, Min(d, e - Max(peak, e)))
  {
    hide Equity, IsPeak;
    var e := Equity(s, n + 1);
    var next := Min(d, e - Max(peak, e));
    var i0, j0 :| 0 <= i0 <= j0 <= n && d == Equity(s, j0) - Equity(s, i0);
    var top := NewestFall(s, n, peak, d);
    assert next == if d <= e - Max(peak, e) then Equity(s, j0) - Equity(s, i0) else Equity(s, n + 1) - Equity(s, top);
    forall i, j | 0 <= i <= j <= n + 1
      ensures next <= Equity(s, j) - Equity(s, i)
    {
      if j == n + 1 {
        assert Equity(s, i) <= Max(peak, e);
      }
    }
  }

  /** The deepest fall to the newest point starts at the peak. */
  lemma {:induction false} NewestFall(s: seq<real>, n: nat, peak: real, d: real) returns (top: nat)
    requires n < |s| && IsPeak(s, n, peak) && IsDrawdown(s, n, d)
    ensures top <= n && peak == Equity(s, top) && d <= 0.0
    ensures forall i :: 0 <= i <= n + 1 ==> Equity(s, i) <= Max(peak, Equity(s, n + 1))
  {
    hide Equity;
    top :| 0 <= top <= n && peak == Equity(s, top);
    assert d <= Equity(s, 0) - Equity(s, 0);
  }

  lemma {:induction false} CurveStarts(s: seq<real>)
    ensures IsPeak(s, 0, 0.0) && IsDrawdown(s, 0, 0.0)
  {
    assert Equity(s, 0) == 0.0;
    assert 0.0 == Equity(s, 0) - Equity(s, 0);
  }

  /** One pass, keeping the peak: the deepest fall between any two points of the curve. */
  method MaxDrawdown(s: seq<real>) returns (worst: real)
    ensures IsDrawdown(s, |s|, worst)
  {
    hide IsPeak, IsDrawdown;
    var equity, peak := 0.0, 0.0;
    worst := 0.0;
    CurveStarts(s);
    for n := 0 to |s|
      invariant equity == Equity(s, n)
      invariant IsPeak(s, n, peak)
      invariant IsDrawdown(s, n, worst)
    {
      PeakGrows(s, n, peak);
      DrawdownGrows(s, n, peak, worst);
      equity := equity + s[n];
      peak := Max(peak, equity);
      worst := Min(worst, equity - peak);
    }
  }

  // ---- Loss streaks ----

  predicate LossRun(s: seq<real>, i: int, j: int) {
    0 <= i <= j <= |s| && forall k :: i <= k < j ==> s[k] < 0.0
  }

  ghost predicate IsLongestLossRun(s: seq<real>, length: nat) {
    && (exists i, j :: LossRun(s, i, j) && length == j - i)
    && (forall i, j :: LossRun(s, i, j) ==> j - i <= length)
  }

  /** The longest unbroken run of losing trades. */
  method MaxLossStreak(s: seq<real>) returns (longest: nat)
    ensures IsLongestLossRun(s, longest)
  {
    var current := 0;
    longest := 0;
    ghost var from, to := 0, 0;
    assert LossRun(s, 0, 0);
    for n := 0 to |s|
      invariant 0 <= current <= n && LossRun(s, n - current, n)
      invariant current == n || !(s[n - current - 1] < 0.0)
      invariant LossRun(s, from, to) && longest == to - from
      invariant forall i, j :: LossRun(s, i, j) && j <= n ==> j - i <= longest
    {
      if s[n] < 0.0 {
        current := current + 1;
        if current > longest {
          longest := current;
          from, to := n + 1 - current, n + 1;
        }
      } else {
        current := 0;
      }
      forall i, j | LossRun(s, i, j) && j == n + 1
        ensures j - i <= longest
      {
        assert current <= n ==> !(s[n - current] < 0.0) && i > n - current;
      }
    }
  }

  // ---- The report ----

  datatype Report = Report(
    tradeCount: nat,
    netPnl: real,
    maxDrawdown: real,
    maxLossStreak: nat,
    withoutBest: real,
    longPnl: real,
    shortPnl: real,
    winRate: real,
    expectancy: real,
    profitFactor: Option<real>,
    withoutTop3: real,
    withoutTop5: real,
    withoutTop10: real)

  function SidePnl(trades: seq<TradeResult>, side: ResultSide): real {
    if |trades| == 0 then 0.0
    else
      var last := trades[|trades| - 1];
      SidePnl(trades[..|trades| - 1], side) + if last.side == side then last.pnl else 0.0
  }

  /** Every trade on a proper side. */
  predicate Sided(trades: seq<TradeResult>) {
    forall i :: 0 <= i < |trades| ==> !trades[i].side.OtherResult?
  }

  method SplitBySide(trades: seq<TradeResult>) returns (long: real, short: real)
    ensures long == SidePnl(trades, LongResult) && short == SidePnl(trades, ShortResult)
  {
    long, short := 0.0, 0.0;
    for n := 0 to |trades|
      invariant long == SidePnl(trades[..n], LongResult) && short == SidePnl(trades[..n], ShortResult)
    {
      assert trades[..n + 1][..n] == trades[..n];
      if trades[n].side.LongResult? {
        long := long + trades[n].pnl;
      } else if trades[n].side.ShortResult? {
        short := short + trades[n].pnl;
      }
    }
    assert trades[..|trades|] == trades;
  }

  lemma {:induction false} TotalAppends(s: seq<real>, x: real)
    ensures Total(s + [x]) == Total(s) + x
    decreases |s|
  {
    if |s| == 0 {
    } else {
      assert (s + [x])[1..] == s[1..] + [x];
      TotalAppends(s[1..], x);
    }
  }

  /** Between them the two sides hold the whole net result. */
  lemma {:induction false} SidesMakeTheNet(trades: seq<TradeResult>)
    requires Sided(trades)
    ensures SidePnl(trades, LongResult) + SidePnl(trades, ShortResult) == Total(Pnls(trades))
  {
    if |trades| == 0 {
    } else {
      var before, last := trades[..|trades| - 1], trades[|trades| - 1];
      SidesMakeTheNet(before);
      assert Pnls(trades) == Pnls(before) + [last.pnl];
      TotalAppends(Pnls(before), last.pnl);
    }
  }

  function Losses(s: seq<real>): seq<real> {
    if |s| == 0 then [] else (if s[0] < 0.0 then [s[0]] else []) + Losses(s[1..])
  }

  /** What winners made and losers lost is the whole net result. */
  lemma {:induction false} WinsAndLossesMakeTheNet(s: seq<real>)
    ensures Total(Wins(s)) + Total(Losses(s)) == Total(s)
  {
    if |s| == 0 {
    } else {
      WinsAndLossesMakeTheNet(s[1..]);
      assert s[0] > 0.0 ==> Wins(s)[1..] == Wins(s[1..]);
      assert !(s[0] > 0.0) ==> Wins(s) == Wins(s[1..]);
      assert s[0] < 0.0 ==> Losses(s)[1..] == Losses(s[1..]);
      assert !(s[0] < 0.0) ==> Losses(s) == Losses(s[1..]);
    }
  }

  /** The worst net over every way of taking at most `k` trades out. */
  ghost predicate IsWorstWithout(s: seq<real>, k: nat, net: real) {
    && (exists removed: seq<bool> :: |removed| == |s| && Marks(removed) <= k && Kept(s, removed) == net)
    && (forall removed: seq<bool> :: |removed| == |s| && Marks(removed) <= k ==> net <= Kept(s, removed))
  }

  lemma {:induction false} WithoutTopIsWorst(s: seq<real>, k: nat)
    ensures IsWorstWithout(s, k, WithoutTop(s, k))
  {
    hide WithoutTop;
    var removed := SomeRemovalIsWorst(s, k);
    forall other: seq<bool> | |other| == |s| && Marks(other) <= k
      ensures WithoutTop(s, k) <= Kept(s, other)
    {
      RemovalIsBounded(s, other, k);
    }
  }

  method BuildReport(trades: seq<TradeResult>) returns (r: Report)
    ensures var s := Pnls(trades);
      && r.tradeCount == |trades|
      && r.netPnl == Total(s)
      && IsDrawdown(s, |s|, r.maxDrawdown)
      && IsLongestLossRun(s, r.maxLossStreak)
      && IsWorstWithout(s, 3, r.withoutTop3)
      && IsWorstWithout(s, 5, r.withoutTop5)
      && IsWorstWithout(s, 10, r.withoutTop10)
      && (|s| == 0 ==> r.withoutBest == 0.0)
      && (|s| > 0 ==> r.netPnl - r.withoutBest in s && forall i :: 0 <= i < |s| ==> r.withoutBest <= r.netPnl - s[i])
    ensures r.longPnl == SidePnl(trades, LongResult) && r.shortPnl == SidePnl(trades, ShortResult)
    ensures Sided(trades) ==> r.longPnl + r.shortPnl == r.netPnl
    ensures r.winRate * r.tradeCount as real == |Wins(Pnls(trades))| as real
    ensures r.tradeCount > 0 ==> r.expectancy * r.tradeCount as real == r.netPnl
    ensures r.tradeCount == 0 ==> r.winRate == 0.0 && r.expectancy == 0.0
    ensures r.profitFactor.Some? <==> Total(Losses(Pnls(trades))) < 0.0
    ensures r.profitFactor.Some? ==>
      r.netPnl == -Total(Losses(Pnls(trades))) * (r.profitFactor.value - 1.0)
  {
    hide WithoutTop, IsWorstWithout, IsDrawdown, IsLongestLossRun, Wins, Losses, SidePnl, Total;
    var s := Pnls(trades);
    var drawdown := MaxDrawdown(s);
    var streak := MaxLossStreak(s);
    var long, short := SplitBySide(trades);
    var best := Largest(s);
    var net := Total(s);
    var wins, losses := Wins(s), Losses(s);
    WithoutTopIsWorst(s, 3);
    WithoutTopIsWorst(s, 5);
    WithoutTopIsWorst(s, 10);
    WinsAndLossesMakeTheNet(s);
    NothingNets(s);
    if Sided(trades) {
      SidesMakeTheNet(trades);
    }
    var expectancy := Mean(net, |trades|);
    var winRate := Mean(|wins| as real, |trades|);
    var factor := ProfitFactor(Total(wins), Total(losses));
    r := Report(|trades|, net, drawdown, streak, net - best, long, short, winRate, expectancy, factor,
                WithoutTop(s, 3), WithoutTop(s, 5), WithoutTop(s, 10));
  }

  method Mean(total: real, count: nat) returns (mean: real)
    ensures count > 0 ==> mean * count as real == total
    ensures count == 0 ==> mean == 0.0
  {
    if count == 0 { return 0.0; }
    mean := total / count as real;
    QuotientTimes(total, count as real, mean);
  }

  /** What was won for each unit lost, when anything was. */
  method ProfitFactor(won: real, lost: real) returns (factor: Option<real>)
    ensures factor.Some? <==> lost < 0.0
    ensures factor.Some? ==> won + lost == -lost * (factor.value - 1.0)
  {
    var grossLoss := -lost;
    factor := None;
    if grossLoss > 0.0 {
      factor := Some(won / grossLoss);
      FactorMeans(won, grossLoss);
    }
  }

  lemma {:induction false} NothingNets(s: seq<real>)
    ensures |s| == 0 ==> Total(s) == 0.0 && |Wins(s)| == 0
  {
  }

  lemma {:induction false} FactorMeans(wins: real, loss: real)
    requires loss > 0.0
    ensures wins - loss == loss * (wins / loss - 1.0)
  {
    var q := wins / loss;
    assert q * loss == wins;
    assert loss * (q - 1.0) == loss * q - loss;
  }
}
