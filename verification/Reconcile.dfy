/** Trade-by-trade reconciliation: a greedy, maximal, conserving matching. */
module Reconcile {
  import opened Prelude

  /** Instants are seconds. */
  datatype TvTrade = TvTrade(
    number: string, side: string, entryTime: int, entryPrice: real, entrySignal: string,
    exitTime: Option<int>, exitPrice: Option<real>, exitSignal: string, quantity: real, netPnl: Option<real>)

  datatype SimTrade = SimTrade(
    side: string, entryTime: int, entryPrice: real, exitTime: int, exitPrice: real, exitReason: string,
    quantity: real, netPnl: Option<real>)

  datatype Match = Match(tv: TvTrade, sim: SimTrade)

  datatype Reconciliation = Reconciliation(matches: seq<Match>, missing: seq<TvTrade>, extra: seq<SimTrade>)

  function Minutes(seconds: int): real {
    Abs(seconds as real / 60.0)
  }

  function Delta(tv: TvTrade, sim: SimTrade): real {
    Minutes(sim.entryTime - tv.entryTime)
  }

  /** The same side, within the tolerance. */
  predicate Compatible(tv: TvTrade, sim: SimTrade, tolerance: real): (c: bool)
    ensures c <==>
      && sim.side == tv.side
      && -60.0 * tolerance <= (sim.entryTime - tv.entryTime) as real <= 60.0 * tolerance
  {
    sim.side == tv.side && Delta(tv, sim) <= tolerance
  }

  // ---- The scan ----

  /** `i` is the first of the nearest compatible trades. */
  predicate IsNearest(tv: TvTrade, sims: seq<SimTrade>, tolerance: real, i: int) {
    && 0 <= i < |sims|
    && Compatible(tv, sims[i], tolerance)
    && (forall k :: 0 <= k < |sims| && Compatible(tv, sims[k], tolerance) ==>
          Delta(tv, sims[i]) <= Delta(tv, sims[k]) && (k < i ==> Delta(tv, sims[i]) < Delta(tv, sims[k])))
  }

  method FindNearest(tv: TvTrade, sims: seq<SimTrade>, tolerance: real) returns (best: Option<SimTrade>)
    ensures best.None? ==> forall k :: 0 <= k < |sims| ==> !Compatible(tv, sims[k], tolerance)
    ensures best.Some? ==> exists i :: IsNearest(tv, sims, tolerance, i) && best.value == sims[i]
  {
    best := None;
    var bestDelta: Option<real> := None;
    ghost var at := 0;
    for n := 0 to |sims|
      invariant best.None? <==> bestDelta.None?
      invariant best.None? ==> forall k :: 0 <= k < n ==> !Compatible(tv, sims[k], tolerance)
      invariant best.Some? ==>
        IsNearest(tv, sims[..n], tolerance, at) && best.value == sims[at] && bestDelta.value == Delta(tv, sims[at])
    {
      var sim := sims[n];
      if sim.side == tv.side {
        var delta := Delta(tv, sim);
        if delta <= tolerance && (bestDelta.None? || delta < bestDelta.value) {
          best, bestDelta := Some(sim), Some(delta);
          at := n;
        }
      }
    }
    assert sims[..|sims|] == sims;
  }

  /** The list without its first item equal to `x`. */
  method RemoveFirst<T(==)>(s: seq<T>, x: T) returns (rest: seq<T>)
    requires x in s
    ensures exists i :: 0 <= i < |s| && s[i] == x && x !in s[..i] && rest == s[..i] + s[i + 1..]
  {
    var i := 0;
    while s[i] != x
      invariant 0 <= i < |s| && x !in s[..i] && x in s[i..]
      decreases |s| - i
    {
      assert s[i..] == [s[i]] + s[i + 1..];
      i := i + 1;
    }
    rest := s[..i] + s[i + 1..];
  }

  /** The first item equal to the nearest trade is the nearest trade itself. */
  lemma {:induction false} NearestIsItsOwnFirst(tv: TvTrade, sims: seq<SimTrade>, tolerance: real, at: nat, i: nat)
    requires IsNearest(tv, sims, tolerance, at)
    requires i < |sims| && sims[i] == sims[at] && sims[at] !in sims[..i]
    ensures i == at
  {
    forall k | 0 <= k < i
      ensures sims[k] != sims[at]
    {
      assert sims[k] in sims[..i];
    }
  }

  // ---- What the loop leaves ----

  predicate GoodMatch(m: Match, tolerance: real) {
    Compatible(m.tv, m.sim, tolerance)
  }

  function TvOf(matches: seq<Match>): (s: seq<TvTrade>)
    ensures |s| == |matches|
  {
    if |matches| == 0 then [] else TvOf(matches[..|matches| - 1]) + [matches[|matches| - 1].tv]
  }

  function SimOf(matches: seq<Match>): (s: seq<SimTrade>)
    ensures |s| == |matches|
  {
    if |matches| == 0 then [] else SimOf(matches[..|matches| - 1]) + [matches[|matches| - 1].sim]
  }

  /** Every trade of both lists is accounted for, once. */
  ghost predicate Conserves(r: Reconciliation, tvs: seq<TvTrade>, sims: seq<SimTrade>) {
    && multiset(TvOf(r.matches)) + multiset(r.missing) == multiset(tvs)
    && multiset(SimOf(r.matches)) + multiset(r.extra) == multiset(sims)
  }

  /** Nothing left over could have been matched, and no pair passed over a nearer leftover. */
  predicate Maximal(r: Reconciliation, tolerance: real) {
    && (forall tv, sim :: tv in r.missing && sim in r.extra ==> !Compatible(tv, sim, tolerance))
    && (forall m, sim :: m in r.matches && sim in r.extra && Compatible(m.tv, sim, tolerance) ==>
          Delta(m.tv, m.sim) <= Delta(m.tv, sim))
  }

  predicate AllGood(matches: seq<Match>, tolerance: real) {
    forall i :: 0 <= i < |matches| ==> GoodMatch(matches[i], tolerance)
  }

  lemma {:induction false} FewerLeftoversStayMaximal(r: Reconciliation, extra: seq<SimTrade>, tolerance: real)
    requires Maximal(r, tolerance) && forall x :: x in extra ==> x in r.extra
    ensures Maximal(r.(extra := extra), tolerance)
  {
  }

  lemma {:induction false} RemovalConserves(sims: seq<SimTrade>, at: nat)
    requires at < |sims|
    ensures multiset(sims[..at] + sims[at + 1..]) + multiset{sims[at]} == multiset(sims)
    ensures forall x :: x in sims[..at] + sims[at + 1..] ==> x in sims
  {
    assert sims == sims[..at] + [sims[at]] + sims[at + 1..];
  }

  lemma {:induction false} OneMoreMatch(matches: seq<Match>, m: Match)
    ensures TvOf(matches + [m]) == TvOf(matches) + [m.tv]
    ensures SimOf(matches + [m]) == SimOf(matches) + [m.sim]
  {
    assert (matches + [m])[..|matches|] == matches;
  }

  /** What the loop keeps, for the trades taken so far. */
  ghost predicate Sound(r: Reconciliation, tvs: seq<TvTrade>, sims: seq<SimTrade>, tolerance: real) {
    Conserves(r, tvs, sims) && Maximal(r, tolerance) && AllGood(r.matches, tolerance)
  }

  lemma {:induction false} MissKeeps(r: Reconciliation, tv: TvTrade, tvs: seq<TvTrade>, sims: seq<SimTrade>,
                                     tolerance: real)
    requires Sound(r, tvs, sims, tolerance)
    requires forall k :: 0 <= k < |r.extra| ==> !Compatible(tv, r.extra[k], tolerance)
    ensures Sound(r.(missing := r.missing + [tv]), tvs + [tv], sims, tolerance)
  {
  }

  lemma {:induction false} MatchConserves(r: Reconciliation, tv: TvTrade, tvs: seq<TvTrade>, sims: seq<SimTrade>,
                                          at: nat)
    requires Conserves(r, tvs, sims) && at < |r.extra|
    ensures Conserves(Reconciliation(r.matches + [Match(tv, r.extra[at])], r.missing,
                                     r.extra[..at] + r.extra[at + 1..]),
                      tvs + [tv], sims)
  {
    RemovalConserves(r.extra, at);
    OneMoreMatch(r.matches, Match(tv, r.extra[at]));
  }

  lemma {:induction false} MatchKeeps(r: Reconciliation, tv: TvTrade, tvs: seq<TvTrade>, sims: seq<SimTrade>,
                                      tolerance: real, at: nat)
    requires Sound(r, tvs, sims, tolerance) && IsNearest(tv, r.extra, tolerance, at)
    ensures Sound(Reconciliation(r.matches + [Match(tv, r.extra[at])], r.missing, r.extra[..at] + r.extra[at + 1..]),
                  tvs + [tv], sims, tolerance)
  {
    hide Conserves;
    var rest := r.extra[..at] + r.extra[at + 1..];
    MatchConserves(r, tv, tvs, sims, at);
    RemovalConserves(r.extra, at);
    FewerLeftoversStayMaximal(r, rest, tolerance);
  }

  method TakeTrade(r: Reconciliation, tv: TvTrade, tolerance: real, ghost tvs: seq<TvTrade>, ghost sims: seq<SimTrade>)
    returns (next: Reconciliation)
    requires Sound(r, tvs, sims, tolerance)
    ensures Sound(next, tvs + [tv], sims, tolerance)
  {
    hide Sound;
    var best := FindNearest(tv, r.extra, tolerance);
    if best.None? {
      next := r.(missing := r.missing + [tv]);
      MissKeeps(r, tv, tvs, sims, tolerance);
    } else {
      ghost var at :| IsNearest(tv, r.extra, tolerance, at) && best.value == r.extra[at];
      var rest := RemoveFirst(r.extra, best.value);
      ghost var i :| 0 <= i < |r.extra| && r.extra[i] == best.value && best.value !in r.extra[..i]
                     && rest == r.extra[..i] + r.extra[i + 1..];
      NearestIsItsOwnFirst(tv, r.extra, tolerance, at, i);
      MatchKeeps(r, tv, tvs, sims, tolerance, at);
      next := Reconciliation(r.matches + [Match(tv, best.value)], r.missing, rest);
    }
  }

  /**
   * The matching: every pair on one side and within the tolerance, every trade of either list used
   * exactly once, and nothing left on both sides that could still be paired.
   */
  method Run(tvs: seq<TvTrade>, sims: seq<SimTrade>, tolerance: real) returns (r: Reconciliation)
    ensures AllGood(r.matches, tolerance)
    ensures Conserves(r, tvs, sims)
    ensures Maximal(r, tolerance)
    ensures |r.matches| + |r.missing| == |tvs| && |r.matches| + |r.extra| == |sims|
  {
    hide Sound;
    r := Reconciliation([], [], sims);
    StartsSound(sims, tolerance);
    for n := 0 to |tvs|
      invariant Sound(r, tvs[..n], sims, tolerance)
    {
      assert tvs[..n + 1] == tvs[..n] + [tvs[n]];
      r := TakeTrade(r, tvs[n], tolerance, tvs[..n], sims);
    }
    assert tvs[..|tvs|] == tvs;
    SoundMeans(r, tvs, sims, tolerance);
  }

  lemma {:induction false} StartsSound(sims: seq<SimTrade>, tolerance: real)
    ensures var r := Reconciliation([], [], sims);
      Sound(r, [], sims, tolerance)
  {
  }

  lemma {:induction false} SoundMeans(r: Reconciliation, tvs: seq<TvTrade>, sims: seq<SimTrade>, tolerance: real)
    requires Sound(r, tvs, sims, tolerance)
    ensures Conserves(r, tvs, sims) && Maximal(r, tolerance) && AllGood(r.matches, tolerance)
    ensures |r.matches| + |r.missing| == |tvs| && |r.matches| + |r.extra| == |sims|
  {
    assert |multiset(TvOf(r.matches)) + multiset(r.missing)| == |TvOf(r.matches)| + |r.missing|;
    assert |multiset(SimOf(r.matches)) + multiset(r.extra)| == |SimOf(r.matches)| + |r.extra|;
    assert |multiset(tvs)| == |tvs| && |multiset(sims)| == |sims|;
  }
}
