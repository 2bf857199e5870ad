/**
 * When the retest strategy enters, told from the session's bars alone: the level, the first bar to touch it, the
 * bars after, and the one that confirms.
 */
module EntryRules {
  import opened Prelude
  import opened Market
  import opened RetestModel
  import opened RetestInvariants
  import opened RetestHistory
  import Story = RetestStory

  /** What the session is traded for: the level, the daily range, and the direction. */
  datatype Terms = Terms(level: real, range: real, long: bool)

  function TermsOf(s: SessionState): Terms
    requires Tradable(s) && Complete(s)
  {
    Terms(s.classification.value.referencePrice.value, s.features.value.dtr20.value,
          s.classification.value.side == Some(Long))
  }

  // ---- One bar ----

  /** A bar of the regular hours once the observation is over. */
  predicate Acts(cfg: RetestConfig, t: Tick) {
    t.session.isRth && t.session.minute >= cfg.observationStart + cfg.observationMinutes
  }

  predicate Touches(cfg: RetestConfig, t: Terms, bar: Bar) {
    if t.long then bar.low - t.level <= cfg.retestToleranceDtr * t.range
    else t.level - bar.high <= cfg.retestToleranceDtr * t.range
  }

  /** Closes far enough beyond the level, and far enough up, or down, its own range. */
  predicate Keeps(cfg: RetestConfig, t: Terms, bar: Bar) {
    && bar.high > bar.low
    && if t.long then
         && bar.close - t.level >= cfg.retestHoldMarginDtr * t.range
         && bar.close - bar.low >= cfg.retestCloseLocationMin * (bar.high - bar.low)
       else
         && t.level - bar.close >= cfg.retestHoldMarginDtr * t.range
         && bar.high - bar.close >= cfg.retestCloseLocationMin * (bar.high - bar.low)
  }

  /** Closes too far back through the level. */
  predicate Loses(cfg: RetestConfig, t: Terms, bar: Bar) {
    if t.long then t.level - bar.close > cfg.invalidationMarginDtr * t.range
    else bar.close - t.level > cfg.invalidationMarginDtr * t.range
  }

  /** Closes beyond the retest bar, the level and the day's average price, each by its margin. */
  predicate Confirms(cfg: RetestConfig, t: Terms, retest: Bar, bar: Bar, rth: seq<Tick>) {
    && Volume(rth) > 0.0
    && if t.long then
         && bar.close - retest.high >= cfg.tickSize && bar.close - t.level >= cfg.confirmationMarginDtr * t.range
         && bar.close * Volume(rth) > Turnover(rth)
       else
         && retest.low - bar.close >= cfg.tickSize && t.level - bar.close >= cfg.confirmationMarginDtr * t.range
         && bar.close * Volume(rth) < Turnover(rth)
  }

  // ---- The bars from the classification on ----

  function Acting(cfg: RetestConfig, ticks: seq<Tick>): seq<Tick>
    decreases |ticks|
  {
    if |ticks| == 0 then []
    else
      var last := ticks[|ticks| - 1];
      Acting(cfg, ticks[..|ticks| - 1]) + if Acts(cfg, last) then [last] else []
  }

  /** The bar does not end the wait for a first touch. */
  predicate PassesBy(cfg: RetestConfig, t: Terms, tick: Tick) {
    Acts(cfg, tick) ==> tick.session.minute < cfg.entryEnd - 1 && !Touches(cfg, t, tick.bar)
  }

  predicate Arms(cfg: RetestConfig, t: Terms, tick: Tick) {
    && Acts(cfg, tick) && tick.session.minute < cfg.entryEnd - 1
    && Touches(cfg, t, tick.bar) && Keeps(cfg, t, tick.bar)
  }

  predicate StillWaits(cfg: RetestConfig, t: Terms, all: seq<Tick>, base: nat) {
    forall i :: base <= i < |all| ==> PassesBy(cfg, t, all[i])
  }

  /** Bar i confirms the retest of bar k. */
  predicate ConfirmsAt(cfg: RetestConfig, t: Terms, all: seq<Tick>, k: nat, i: nat)
    requires k < i < |all|
  {
    Confirms(cfg, t, all[k].bar, all[i].bar, Rth(Today(all[..i + 1])))
  }

  /** Bar i leaves the retest of bar k standing: in time, not lost, not confirmed, and not one bar too many. */
  predicate Leaves(cfg: RetestConfig, t: Terms, all: seq<Tick>, k: nat, i: nat)
    requires k < i < |all|
  {
    Acts(cfg, all[i]) ==>
      && all[i].session.minute < cfg.entryEnd && !Loses(cfg, t, all[i].bar) && !ConfirmsAt(cfg, t, all, k, i)
      && |Acting(cfg, all[k + 1..i + 1])| < cfg.confirmationMaxBars
  }

  /** Bar k is the first to touch, it held, and nothing since has settled the matter. */
  predicate Stands(cfg: RetestConfig, t: Terms, all: seq<Tick>, base: nat, k: int) {
    && base <= k < |all|
    && StillWaits(cfg, t, all[..k], base) && Arms(cfg, t, all[k])
    && forall i :: k < i < |all| ==> Leaves(cfg, t, all, k, i)
  }

  // ---- One more bar ----

  lemma {:induction false} WaitsNext(cfg: RetestConfig, t: Terms, all: seq<Tick>, base: nat, tick: Tick)
    requires base <= |all|
    ensures StillWaits(cfg, t, all + [tick], base) <==> StillWaits(cfg, t, all, base) && PassesBy(cfg, t, tick)
  {
    hide PassesBy;
    var more := all + [tick];
    assert more[|all|] == tick;
    assert forall i :: base <= i < |all| ==> more[i] == all[i];
    if StillWaits(cfg, t, more, base) {
      forall i | base <= i < |all|
        ensures PassesBy(cfg, t, all[i])
      {
        assert PassesBy(cfg, t, more[i]);
      }
    }
  }

  lemma {:induction false} LeavesAlike(cfg: RetestConfig, t: Terms, all: seq<Tick>, tick: Tick, k: nat, i: nat)
    requires k < i < |all|
    ensures Leaves(cfg, t, all + [tick], k, i) == Leaves(cfg, t, all, k, i)
  {
    hide Confirms, Loses, Acts, Acting, Rth, Today;
    var more := all + [tick];
    assert more[..i + 1] == all[..i + 1] && more[k + 1..i + 1] == all[k + 1..i + 1];
  }

  lemma {:induction false} StandsNext(cfg: RetestConfig, t: Terms, all: seq<Tick>, base: nat, tick: Tick, k: nat)
    requires k < |all|
    ensures Stands(cfg, t, all + [tick], base, k)
            <==> Stands(cfg, t, all, base, k) && Leaves(cfg, t, all + [tick], k, |all|)
  {
    hide Leaves, Arms, StillWaits;
    var more := all + [tick];
    assert more[..k] == all[..k];
    forall i | k < i < |all|
      ensures Leaves(cfg, t, more, k, i) == Leaves(cfg, t, all, k, i)
    {
      LeavesAlike(cfg, t, all, tick, k, i);
    }
  }

  lemma {:induction false} StandsNow(cfg: RetestConfig, t: Terms, all: seq<Tick>, base: nat, tick: Tick)
    requires base <= |all|
    ensures Stands(cfg, t, all + [tick], base, |all|) <==> StillWaits(cfg, t, all, base) && Arms(cfg, t, tick)
  {
    hide Leaves, Arms, StillWaits;
    assert (all + [tick])[..|all|] == all;
  }

  /** A touch ends the wait, so only one bar can be the first. */
  lemma {:induction false} TouchEndsTheWait(cfg: RetestConfig, t: Terms, all: seq<Tick>, base: nat, j: int, k: int)
    requires base <= j < k < |all| && Arms(cfg, t, all[j])
    ensures !StillWaits(cfg, t, all[..k], base)
  {
    hide Touches, Keeps, Acts;
    assert all[..k][j] == all[j];
  }

  lemma {:induction false} OneStands(cfg: RetestConfig, t: Terms, all: seq<Tick>, base: nat, j: int, k: int)
    requires Stands(cfg, t, all, base, j) && Stands(cfg, t, all, base, k)
    ensures j == k
  {
    hide Leaves, StillWaits, Arms;
    if j < k {
      TouchEndsTheWait(cfg, t, all, base, j, k);
    } else if k < j {
      TouchEndsTheWait(cfg, t, all, base, k, j);
    }
  }

  lemma {:induction false} ActingNext(cfg: RetestConfig, ticks: seq<Tick>, tick: Tick)
    ensures Acting(cfg, ticks + [tick]) == Acting(cfg, ticks) + if Acts(cfg, tick) then [tick] else []
  {
    assert (ticks + [tick])[..|ticks|] == ticks;
  }

  // ---- The strategy's tests are the rules ----

  lemma {:induction false} ShareAtLeast(part: real, whole: real, share: real)
    requires whole > 0.0
    ensures part / whole >= share <==> part >= share * whole
    ensures part / whole > share <==> part > share * whole
  {
    var q := part / whole;
    assert q * whole == part;
    if q >= share {
      Story.Scaled(share, q, whole);
    } else {
      Story.Scaled(q, share, whole);
    }
  }

  /** The terms as the strategy holds them. */
  function Held(t: Terms): Setup {
    Setup(t.level, t.range, if t.long then Long else Short)
  }

  lemma {:induction false} SetupIsHeld(s: SessionState)
    requires Tradable(s) && Complete(s)
    ensures SetupOf(s) == Held(TermsOf(s))
  {
  }

  lemma {:induction false} HeldTouch(cfg: RetestConfig, t: Terms, bar: Bar)
    ensures Contact(cfg, Held(t), bar) <==> Touches(cfg, t, bar)
  {
    var tolerance := cfg.retestToleranceDtr * t.range;
    assert Contact(cfg, Held(t), bar)
        <==> if t.long then bar.low <= t.level + tolerance else bar.high >= t.level - tolerance;
  }

  lemma {:induction false} TouchIsContact(cfg: RetestConfig, s: SessionState, bar: Bar)
    requires Tradable(s) && Complete(s)
    ensures Contact(cfg, SetupOf(s), bar) <==> Touches(cfg, TermsOf(s), bar)
  {
    hide Contact, Touches;
    SetupIsHeld(s);
    HeldTouch(cfg, TermsOf(s), bar);
  }

  lemma {:induction false} HeldKeeping(cfg: RetestConfig, t: Terms, bar: Bar)
    ensures Holds(cfg, Held(t), bar) <==> Keeps(cfg, t, bar)
  {
    var width, margin := bar.high - bar.low, cfg.retestHoldMarginDtr * t.range;
    assert Holds(cfg, Held(t), bar)
        <==> width > 0.0 && if t.long then bar.close >= t.level + margin
                                           && (bar.close - bar.low) / width >= cfg.retestCloseLocationMin
                            else bar.close <= t.level - margin
                                 && (bar.close - bar.low) / width <= 1.0 - cfg.retestCloseLocationMin;
    if width > 0.0 {
      ShareAtLeast(bar.close - bar.low, width, cfg.retestCloseLocationMin);
      ShareAtLeast(bar.close - bar.low, width, 1.0 - cfg.retestCloseLocationMin);
      Complement(bar.close - bar.low, width, cfg.retestCloseLocationMin);
    }
  }

  lemma {:induction false} KeepingIsHolding(cfg: RetestConfig, s: SessionState, bar: Bar)
    requires Tradable(s) && Complete(s)
    ensures Holds(cfg, SetupOf(s), bar) <==> Keeps(cfg, TermsOf(s), bar)
  {
    hide Holds, Keeps;
    SetupIsHeld(s);
    HeldKeeping(cfg, TermsOf(s), bar);
  }

  lemma {:induction false} Complement(part: real, whole: real, share: real)
    ensures part <= (1.0 - share) * whole <==> whole - part >= share * whole
  {
  }

  lemma {:induction false} HeldLoss(cfg: RetestConfig, t: Terms, bar: Bar)
    ensures Invalidated(cfg, Held(t), bar) <==> Loses(cfg, t, bar)
  {
    var margin := cfg.invalidationMarginDtr * t.range;
    assert Invalidated(cfg, Held(t), bar)
        <==> if t.long then bar.close < t.level - margin else bar.close > t.level + margin;
  }

  lemma {:induction false} LossIsInvalidation(cfg: RetestConfig, s: SessionState, bar: Bar)
    requires Tradable(s) && Complete(s)
    ensures Invalidated(cfg, SetupOf(s), bar) <==> Loses(cfg, TermsOf(s), bar)
  {
    hide Invalidated, Loses;
    SetupIsHeld(s);
    HeldLoss(cfg, TermsOf(s), bar);
  }

  /** The average the strategy holds is that of the day's regular hours. */
  predicate Averages(s: SessionState, rth: seq<Tick>) {
    s.currentVwap == if Volume(rth) > 0.0 then Some(Turnover(rth) / Volume(rth)) else None
  }

  lemma {:induction false} HeldConfirming(cfg: RetestConfig, t: Terms, s: SessionState, retest: Bar, bar: Bar,
                                          rth: seq<Tick>)
    requires Averages(s, rth) && s.retestHigh == Some(retest.high) && s.retestLow == Some(retest.low)
    ensures Confirmed(cfg, Held(t), s, bar) <==> Confirms(cfg, t, retest, bar, rth)
  {
    hide Volume, Turnover;
    var margin := cfg.confirmationMarginDtr * t.range;
    if Volume(rth) > 0.0 {
      var average := Turnover(rth) / Volume(rth);
      ShareAtLeast(Turnover(rth), Volume(rth), bar.close);
      assert Confirmed(cfg, Held(t), s, bar)
          <==> if t.long then bar.close >= retest.high + cfg.tickSize && bar.close >= t.level + margin
                              && bar.close > average
               else bar.close <= retest.low - cfg.tickSize && bar.close <= t.level - margin && bar.close < average;
    }
  }

  lemma {:induction false} ConfirmingIsConfirming(cfg: RetestConfig, s: SessionState, retest: Bar, bar: Bar,
                                                  rth: seq<Tick>)
    requires Tradable(s) && Complete(s) && Averages(s, rth)
    requires s.retestHigh == Some(retest.high) && s.retestLow == Some(retest.low)
    ensures Confirmed(cfg, SetupOf(s), s, bar) <==> Confirms(cfg, TermsOf(s), retest, bar, rth)
  {
    hide Confirmed, Confirms, Averages;
    SetupIsHeld(s);
    HeldConfirming(cfg, TermsOf(s), s, retest, bar, rth);
  }

  // ---- The entry state follows the rules ----

  /** What an armed setup has on record. */
  predicate OnRecord(cfg: RetestConfig, t: Terms, all: seq<Tick>, k: int, s: SessionState) {
    && 0 <= k < |all|
    && s.retestHigh == Some(all[k].bar.high) && s.retestLow == Some(all[k].bar.low)
    && s.structuralExtreme.Some?
    && (if t.long then IsLow(Acting(cfg, all[k..]), s.structuralExtreme)
        else IsHigh(Acting(cfg, all[k..]), s.structuralExtreme))
    && s.confirmationBars == |Acting(cfg, all[k + 1..])|
  }

  /** The state of the entry logic is what the bars from the classification on make of it. */
  ghost predicate Follows(cfg: RetestConfig, all: seq<Tick>, base: nat, s: SessionState)
    requires Tradable(s) && Complete(s)
  {
    var t := TermsOf(s);
    && (s.entryState.WaitFirstRetest? <==> StillWaits(cfg, t, all, base))
    && (s.entryState.Armed? <==> exists k :: Stands(cfg, t, all, base, k))
    && (forall k :: Stands(cfg, t, all, base, k) ==> OnRecord(cfg, t, all, k, s))
  }

  /** The entry states agree, in so far as they seek anything. */
  predicate SeeksAlike(s: SessionState, n: SessionState) {
    && n.classification == s.classification && n.features == s.features
    && (Seeking(s.entryState) || Seeking(n.entryState) ==> SameEntry(s, n))
  }

  lemma {:induction false} AlikeFollows(cfg: RetestConfig, all: seq<Tick>, base: nat, s: SessionState, n: SessionState)
    requires Tradable(s) && Complete(s) && SeeksAlike(s, n) && Follows(cfg, all, base, s)
    ensures Tradable(n) && Complete(n) && TermsOf(n) == TermsOf(s) && Follows(cfg, all, base, n)
  {
    hide StillWaits, Stands;
    var t := TermsOf(s);
    if !Seeking(n.entryState) {
      assert forall k :: !Stands(cfg, t, all, base, k);
    } else {
      forall k | Stands(cfg, t, all, base, k)
        ensures OnRecord(cfg, t, all, k, n)
      {
        assert OnRecord(cfg, t, all, k, s);
        RecordAlike(cfg, t, all, k, s, n);
      }
    }
  }

  lemma {:induction false} RecordAlike(cfg: RetestConfig, t: Terms, all: seq<Tick>, k: int, s: SessionState,
                                       n: SessionState)
    requires 0 <= k < |all| && OnRecord(cfg, t, all, k, s) && SameEntry(s, n)
    ensures OnRecord(cfg, t, all, k, n)
  {
    hide IsLow, IsHigh, Acting;
  }

  /** An idle bar: outside the hours or before the window, it changes nothing. */
  lemma {:induction false} IdleBarFollows(cfg: RetestConfig, all: seq<Tick>, base: nat, s: SessionState, tick: Tick)
    requires Tradable(s) && Complete(s) && base <= |all| && Follows(cfg, all, base, s) && !Acts(cfg, tick)
    ensures Follows(cfg, all + [tick], base, s)
  {
    hide StillWaits, Stands, IsLow, IsHigh, Acting, Leaves;
    var t, more := TermsOf(s), all + [tick];
    WaitsNext(cfg, t, all, base, tick);
    StandsNow(cfg, t, all, base, tick);
    forall k: int
      ensures Stands(cfg, t, more, base, k) <==> Stands(cfg, t, all, base, k)
    {
      StandsOnlyWithin(cfg, t, all, base, k);
      StandsOnlyWithin(cfg, t, more, base, k);
      if 0 <= k < |all| {
        StandsNext(cfg, t, all, base, tick, k);
        assert Leaves(cfg, t, more, k, |all|) by { IdleLeaves(cfg, t, all, tick, k); }
      }
    }
    forall k | Stands(cfg, t, more, base, k)
      ensures OnRecord(cfg, t, more, k, s)
    {
      StandsOnlyWithin(cfg, t, all, base, k);
      assert OnRecord(cfg, t, all, k, s);
      RecordIdles(cfg, t, all, tick, k, s);
    }
  }

  lemma {:induction false} StandsOnlyWithin(cfg: RetestConfig, t: Terms, all: seq<Tick>, base: nat, k: int)
    ensures Stands(cfg, t, all, base, k) ==> base <= k < |all|
  {
  }

  lemma {:induction false} IdleLeaves(cfg: RetestConfig, t: Terms, all: seq<Tick>, tick: Tick, k: nat)
    requires k < |all| && !Acts(cfg, tick)
    ensures Leaves(cfg, t, all + [tick], k, |all|)
  {
  }

  lemma {:induction false} RecordIdles(cfg: RetestConfig, t: Terms, all: seq<Tick>, tick: Tick, k: nat, s: SessionState)
    requires k < |all| && OnRecord(cfg, t, all, k, s) && !Acts(cfg, tick)
    ensures OnRecord(cfg, t, all + [tick], k, s)
  {
    hide IsLow, IsHigh, Acting;
    var more := all + [tick];
    assert more[k..] == all[k..] + [tick] && more[k + 1..] == all[k + 1..] + [tick];
    ActingNext(cfg, all[k..], tick);
    ActingNext(cfg, all[k + 1..], tick);
    assert Acting(cfg, all[k..]) + [] == Acting(cfg, all[k..]);
  }

  // ---- An acting bar ----

  /** What an acting bar may leave of the entry state. */
  lemma {:induction false} WaitingBar(cfg: RetestConfig, m: Memory, bar: Bar, minute: int)
    requires cfg.tickSize > 0.0 && Ready(m) && m.session.entryState.WaitFirstRetest? && m.positionSide.None?
    requires ObservationEnd(cfg) <= minute
    ensures
      var (next, order) := SeekEntry(cfg, m, bar, minute);
      var u := SetupOf(m.session);
      && order.None?
      && if minute >= cfg.entryEnd - 1 || (Contact(cfg, u, bar) && !Holds(cfg, u, bar)) then
           !Seeking(next.session.entryState)
         else if !Contact(cfg, u, bar) then next == m
         else next.session == ArmedBy(m, bar).session
  {
    hide Contact, Holds, ArmedBy, SetupOf;
  }

  lemma {:induction false} ArmedBar(cfg: RetestConfig, m: Memory, bar: Bar, minute: int)
    requires cfg.tickSize > 0.0 && Ready(m) && m.session.entryState.Armed?
    requires ObservationEnd(cfg) <= minute && ObservationEnd(cfg) <= cfg.entryEnd
    ensures
      var (next, order) := SeekEntry(cfg, m, bar, minute);
      var u, seen := SetupOf(m.session), Extended(m, bar);
      var live := minute < cfg.entryEnd && !Invalidated(cfg, u, bar);
      && (live && Confirmed(cfg, u, seen.session, bar) ==> (next, order) == (Place(cfg, seen, bar).0,
                                                                           Some(Place(cfg, seen, bar).1)))
      && (!(live && Confirmed(cfg, u, seen.session, bar)) ==> order.None?)
      && (live && !Confirmed(cfg, u, seen.session, bar) && seen.session.confirmationBars < cfg.confirmationMaxBars
          ==> next == seen)
      && (!live || Confirmed(cfg, u, seen.session, bar) || seen.session.confirmationBars >= cfg.confirmationMaxBars
          ==> !Seeking(next.session.entryState))
  {
    hide Invalidated, Confirmed, Place, Extended, SetupOf;
    Story.PlacedSteps(cfg, Extended(m, bar), bar);
  }

  lemma {:induction false} IdleSeek(cfg: RetestConfig, m: Memory, bar: Bar, minute: int)
    requires cfg.tickSize > 0.0 && minute < ObservationEnd(cfg) <= cfg.entryEnd
    ensures SeekEntry(cfg, m, bar, minute) == (m, None)
  {
  }

  lemma {:induction false} RestSeek(cfg: RetestConfig, m: Memory, bar: Bar, minute: int)
    requires cfg.tickSize > 0.0 && !Seeking(m.session.entryState)
    ensures SeekEntry(cfg, m, bar, minute) == (m, None)
  {
  }

  lemma {:induction false} WaitingFollows(cfg: RetestConfig, all: seq<Tick>, base: nat, m: Memory, tick: Tick)
    requires cfg.tickSize > 0.0 && Ready(m) && m.session.entryState.WaitFirstRetest? && m.positionSide.None?
    requires base <= |all| && Acts(cfg, tick) && Tradable(m.session) && Complete(m.session)
    requires Follows(cfg, all, base, m.session)
    ensures
      var next := SeekEntry(cfg, m, tick.bar, tick.session.minute).0;
      && Tradable(next.session) && Complete(next.session) && TermsOf(next.session) == TermsOf(m.session)
      && Follows(cfg, all + [tick], base, next.session)
  {
    hide StillWaits, Stands, Contact, Holds, Touches, Keeps, SeekEntry, Ready, Leaves;
    var t, more, minute := TermsOf(m.session), all + [tick], tick.session.minute;
    var next := SeekEntry(cfg, m, tick.bar, minute).0;
    SeekingKeeps(cfg, m, tick.bar, minute);
    SameTerms(m, next);
    WaitingBar(cfg, m, tick.bar, minute);
    TouchIsContact(cfg, m.session, tick.bar);
    KeepingIsHolding(cfg, m.session, tick.bar);
    WaitsNext(cfg, t, all, base, tick);
    StandsNow(cfg, t, all, base, tick);
    forall k: int | k != |all|
      ensures !Stands(cfg, t, more, base, k)
    {
      StandsOnlyWithin(cfg, t, more, base, k);
      if base <= k < |all| {
        StandsNext(cfg, t, all, base, tick, k);
      }
    }
    if !Touches(cfg, t, tick.bar) || !Keeps(cfg, t, tick.bar) || minute >= cfg.entryEnd - 1 {
      assert forall k :: !Stands(cfg, t, more, base, k);
    } else {
      FreshRecord(cfg, t, all, tick, m, next.session);
    }
  }

  lemma {:induction false} SameTerms(m: Memory, n: Memory)
    requires Untouched(m, n) && Tradable(m.session) && Complete(m.session)
    ensures Tradable(n.session) && Complete(n.session) && TermsOf(n.session) == TermsOf(m.session)
  {
  }

  /** The bar that arms puts itself on record. */
  lemma {:induction false} FreshRecord(cfg: RetestConfig, t: Terms, all: seq<Tick>, tick: Tick, m: Memory,
                                       s: SessionState)
    requires Tradable(m.session) && Complete(m.session) && t == TermsOf(m.session) && Acts(cfg, tick)
    requires s == ArmedBy(m, tick.bar).session
    ensures OnRecord(cfg, t, all + [tick], |all|, s) && s.entryState.Armed?
  {
    var more := all + [tick];
    assert more[|all|..] == [tick] && more[|all| + 1..] == [];
    assert [tick][..0] == [];
    assert Acting(cfg, []) == [];
    assert Acting(cfg, [tick]) == [tick];
  }

  lemma {:induction false} ArmedFollows(cfg: RetestConfig, all: seq<Tick>, base: nat, m: Memory, tick: Tick)
    requires cfg.tickSize > 0.0 && Ready(m) && m.session.entryState.Armed?
    requires base <= |all| && Acts(cfg, tick) && ObservationEnd(cfg) <= cfg.entryEnd
    requires Tradable(m.session) && Complete(m.session) && Follows(cfg, all, base, m.session)
    requires Averages(m.session, Rth(Today(all + [tick])))
    ensures
      var next := SeekEntry(cfg, m, tick.bar, tick.session.minute).0;
      && Tradable(next.session) && Complete(next.session) && TermsOf(next.session) == TermsOf(m.session)
      && Follows(cfg, all + [tick], base, next.session)
  {
    hide StillWaits, Stands, SeekEntry, Ready, Leaves, Rth, Today, Arms, OnRecord, Extended, Averages;
    var t, more, minute := TermsOf(m.session), all + [tick], tick.session.minute;
    var next := SeekEntry(cfg, m, tick.bar, minute).0;
    SeekingKeeps(cfg, m, tick.bar, minute);
    SameTerms(m, next);
    var k :| Stands(cfg, t, all, base, k);
    StandsOnlyWithin(cfg, t, all, base, k);
    WaitsNext(cfg, t, all, base, tick);
    StandsNow(cfg, t, all, base, tick);
    StandsNext(cfg, t, all, base, tick, k);
    forall j: int | j != k
      ensures !Stands(cfg, t, more, base, j)
    {
      StandsOnlyWithin(cfg, t, more, base, j);
      if base <= j < |all| {
        StandsNext(cfg, t, all, base, tick, j);
        if Stands(cfg, t, all, base, j) {
          OneStands(cfg, t, all, base, j, k);
        }
      }
    }
    StandingLeft(cfg, t, all, m, tick, k);
    if Leaves(cfg, t, more, k, |all|) {
      ExtendedRecord(cfg, t, all, m, tick, k);
    }
  }

  /** The armed setup outlives the bar if and only if the rules leave it standing. */
  lemma {:induction false} StandingLeft(cfg: RetestConfig, t: Terms, all: seq<Tick>, m: Memory, tick: Tick, k: nat)
    requires cfg.tickSize > 0.0 && Ready(m) && m.session.entryState.Armed? && k < |all| && Acts(cfg, tick)
    requires ObservationEnd(cfg) <= cfg.entryEnd
    requires Tradable(m.session) && Complete(m.session) && t == TermsOf(m.session)
    requires OnRecord(cfg, t, all, k, m.session) && Averages(m.session, Rth(Today(all + [tick])))
    ensures
      var next := SeekEntry(cfg, m, tick.bar, tick.session.minute).0;
      if Leaves(cfg, t, all + [tick], k, |all|) then next == Extended(m, tick.bar)
      else !Seeking(next.session.entryState)
  {
    hide SeekEntry, Ready, Confirmed, Invalidated, Loses, Confirms, Acting, IsLow, IsHigh, Averages, Rth, Today;
    var more, seen := all + [tick], Extended(m, tick.bar);
    ArmedBar(cfg, m, tick.bar, tick.session.minute);
    LossIsInvalidation(cfg, m.session, tick.bar);
    ExtendedAlike(m, tick.bar, Rth(Today(more)));
    ConfirmingIsConfirming(cfg, seen.session, all[k].bar, tick.bar, Rth(Today(more)));
    assert more[..|all| + 1] == more && more[k + 1..|all| + 1] == all[k + 1..] + [tick];
    ActingNext(cfg, all[k + 1..], tick);
  }

  lemma {:induction false} ExtendedAlike(m: Memory, bar: Bar, rth: seq<Tick>)
    requires Tradable(m.session) && Complete(m.session)
    ensures
      var s := Extended(m, bar).session;
      && Tradable(s) && Complete(s) && TermsOf(s) == TermsOf(m.session) && SetupOf(s) == SetupOf(m.session)
      && s.classification == m.session.classification
      && s.retestHigh == m.session.retestHigh && s.retestLow == m.session.retestLow
      && s.confirmationBars == m.session.confirmationBars + 1 && s.entryState == m.session.entryState
      && Averages(s, rth) == Averages(m.session, rth)
  {
    hide Volume, Turnover, Sink, Raise;
  }

  /** Another acting bar on record: the extreme and the count. */
  lemma {:induction false} ExtendedRecord(cfg: RetestConfig, t: Terms, all: seq<Tick>, m: Memory, tick: Tick, k: nat)
    requires k < |all| && Acts(cfg, tick) && Tradable(m.session) && Complete(m.session) && t == TermsOf(m.session)
    requires OnRecord(cfg, t, all, k, m.session) && m.session.entryState.Armed?
    ensures OnRecord(cfg, t, all + [tick], k, Extended(m, tick.bar).session)
    ensures Extended(m, tick.bar).session.entryState.Armed?
  {
    hide IsLow, IsHigh, Acting;
    var more := all + [tick];
    assert more[k..] == all[k..] + [tick] && more[k + 1..] == all[k + 1..] + [tick];
    ActingNext(cfg, all[k..], tick);
    ActingNext(cfg, all[k + 1..], tick);
    if t.long {
      LowGrows(Acting(cfg, all[k..]), m.session.structuralExtreme, tick);
    } else {
      HighGrows(Acting(cfg, all[k..]), m.session.structuralExtreme, tick);
    }
  }

  lemma {:induction false} SettledFollows(cfg: RetestConfig, all: seq<Tick>, base: nat, s: SessionState, tick: Tick)
    requires Tradable(s) && Complete(s) && base <= |all| && Follows(cfg, all, base, s) && !Seeking(s.entryState)
    ensures Follows(cfg, all + [tick], base, s)
  {
    hide StillWaits, Stands, Leaves, Arms, OnRecord;
    var t, more := TermsOf(s), all + [tick];
    WaitsNext(cfg, t, all, base, tick);
    StandsNow(cfg, t, all, base, tick);
    forall k: int
      ensures !Stands(cfg, t, more, base, k)
    {
      StandsOnlyWithin(cfg, t, more, base, k);
      if base <= k < |all| {
        StandsNext(cfg, t, all, base, tick, k);
      }
    }
  }

  /** Any bar of the regular hours: the entry logic does what the rules say. */
  lemma {:induction false} SeekFollows(cfg: RetestConfig, all: seq<Tick>, base: nat, m: Memory, tick: Tick)
    requires cfg.tickSize > 0.0 && Ready(m) && m.positionSide.None? && tick.session.isRth && base <= |all|
    requires ObservationEnd(cfg) <= cfg.entryEnd
    requires Tradable(m.session) && Complete(m.session) && Follows(cfg, all, base, m.session)
    requires Averages(m.session, Rth(Today(all + [tick])))
    ensures
      var next := SeekEntry(cfg, m, tick.bar, tick.session.minute).0;
      && Tradable(next.session) && Complete(next.session) && TermsOf(next.session) == TermsOf(m.session)
      && Follows(cfg, all + [tick], base, next.session)
  {
    hide Follows, SeekEntry, Ready, Averages, Rth, Today, Tradable, Complete;
    if !Seeking(m.session.entryState) {
      RestSeek(cfg, m, tick.bar, tick.session.minute);
      SettledFollows(cfg, all, base, m.session, tick);
    } else if !Acts(cfg, tick) {
      IdleSeek(cfg, m, tick.bar, tick.session.minute);
      IdleBarFollows(cfg, all, base, m.session, tick);
    } else if m.session.entryState.WaitFirstRetest? {
      WaitingFollows(cfg, all, base, m, tick);
    } else {
      ArmedFollows(cfg, all, base, m, tick);
    }
  }
}
