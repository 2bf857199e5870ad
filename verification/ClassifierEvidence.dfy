/** What the classifier decides, in terms of the evidence for and against each broken level. */
module ClassifierEvidence {
  import opened Prelude
  import opened Market
  import opened RetestModel

  /** The opening can be judged at all. */
  predicate Ready(cfg: RetestConfig, f: Features) {
    && f.completeObservation && !f.rollTransition && f.completeOvernight
    && HasHistory(f)
    && |f.openingCloses| == cfg.observationMinutes
    && f.dtr20.value > 0.0
  }

  // ---- The evidence, as distances from a level ----

  /** How far a lies above b on the high side, and below it on the low side. */
  function Beyond(side: RefSide, a: real, b: real): real {
    if side.High? then a - b else b - a
  }

  /** The side's two external levels. */
  function Levels(f: Features, side: RefSide): seq<real>
    requires HasHistory(f)
  {
    if side.High? then [f.overnightHigh.value, f.priorRthHigh.value]
    else [f.overnightLow.value, f.priorRthLow.value]
  }

  function Extreme(f: Features, side: RefSide): real
    requires HasHistory(f)
  {
    if side.High? then f.openingHigh.value else f.openingLow.value
  }

  /** The session opened inside the level, and the opening went through it by the crossing distance. */
  predicate TradedThrough(cfg: RetestConfig, f: Features, side: RefSide, level: real)
    requires HasHistory(f)
  {
    && Beyond(side, level, f.rthOpen.value) > 0.0
    && Beyond(side, Extreme(f, side), level) >= cfg.referenceCrossDtr * f.dtr20.value
  }

  /** The outermost of the side's levels that the opening traded through. */
  predicate Broken(cfg: RetestConfig, f: Features, side: RefSide, level: real)
    requires HasHistory(f)
  {
    && level in Levels(f, side)
    && TradedThrough(cfg, f, side, level)
    && forall other | other in Levels(f, side) ::
         TradedThrough(cfg, f, side, other) ==> Beyond(side, other, level) <= 0.0
  }

  /** The places of the last n closes that lie beyond the level on that side. */
  function PlacesBeyond(side: RefSide, closes: seq<real>, n: nat, level: real): set<nat> {
    set i: nat | |closes| - n <= i < |closes| && Beyond(side, closes[i], level) > 0.0
  }

  /** The opening closed beyond the level, enough of its last closes are there, and it traded mostly there. */
  predicate Accepts(cfg: RetestConfig, f: Features, side: RefSide, level: real)
    requires HasHistory(f)
  {
    && Broken(cfg, f, side, level)
    && Beyond(side, f.openingClose.value, level) >= cfg.acceptanceMarginDtr * f.dtr20.value
    && |PlacesBeyond(side, f.openingCloses, cfg.acceptanceLookback, level)| >= cfg.acceptanceClosesRequired
    && Beyond(side, f.openingVwap.value, level) > 0.0
  }

  /** The opening closed back inside the level, every one of its last closes is inside, and so is its mean. */
  predicate Rejects(cfg: RetestConfig, f: Features, side: RefSide, level: real)
    requires HasHistory(f)
  {
    && Broken(cfg, f, side, level)
    && Beyond(side, level, f.openingClose.value) >= cfg.rejectionMarginDtr * f.dtr20.value
    && (forall i: nat | |f.openingCloses| - cfg.rejectionLookback <= i < |f.openingCloses| ::
          Beyond(side, level, f.openingCloses[i]) > 0.0)
    && Beyond(side, level, f.openingVwap.value) > 0.0
  }

  predicate Supports(cfg: RetestConfig, f: Features, side: RefSide, accepted: bool, level: real)
    requires HasHistory(f)
  {
    if accepted then Accepts(cfg, f, side, level) else Rejects(cfg, f, side, level)
  }

  /** Trade with an accepted break and against a rejected one; the level is named for what made it. */
  predicate IsVerdict(cfg: RetestConfig, f: Features, side: RefSide, accepted: bool, level: real, c: Classification)
    requires HasHistory(f)
  {
    var levels := Levels(f, side);
    && c.regime == (if accepted then AcceptedBreak else RejectedBreak)
    && c.side == Some(if accepted == side.High? then Long else Short)
    && c.reason == External(side, accepted)
    && c.referenceSide == Some(side) && c.referencePrice == Some(level)
    && c.referenceType == Some(if levels == [level, level] then OvernightAndPriorRth(side)
                               else if levels[0] == level then Overnight(side) else PriorRth(side))
  }

  // ---- The classifier's own terms ----

  function Chosen(cfg: RetestConfig, f: Features, side: RefSide): Option<Reference>
    requires HasHistory(f)
  {
    if side.High? then
      ChosenCrossedReference(cfg, High, f.dtr20.value, f.rthOpen.value, f.openingHigh.value,
                             f.overnightHigh.value, f.priorRthHigh.value)
    else
      ChosenCrossedReference(cfg, Low, f.dtr20.value, f.rthOpen.value, f.openingLow.value,
                             f.overnightLow.value, f.priorRthLow.value)
  }

  lemma {:induction false} ChosenIsBroken(cfg: RetestConfig, f: Features, side: RefSide, level: real)
    requires HasHistory(f)
    ensures Broken(cfg, f, side, level) <==> Chosen(cfg, f, side).Some? && Chosen(cfg, f, side).value.price == level
  {
    var levels := Levels(f, side);
    assert levels[0] in levels && levels[1] in levels;
    assert forall other | other in levels :: other == levels[0] || other == levels[1];
  }

  lemma {:induction false} ChosenIsNamed(cfg: RetestConfig, f: Features, side: RefSide)
    requires HasHistory(f) && Chosen(cfg, f, side).Some?
    ensures
      var r, levels := Chosen(cfg, f, side).value, Levels(f, side);
      r.kind == (if levels == [r.price, r.price] then OvernightAndPriorRth(side)
                 else if levels[0] == r.price then Overnight(side) else PriorRth(side))
  {
  }

  lemma {:induction false} CountLast(side: RefSide, closes: seq<real>, n: nat, level: real)
    requires n > 0 && |closes| > 0
    ensures CountBeyond(side, LastOf(closes, n), level)
      == CountBeyond(side, LastOf(closes[..|closes| - 1], n - 1), level)
         + if Beyond(side, closes[|closes| - 1], level) > 0.0 then 1 else 0
  {
    var last := LastOf(closes, n);
    assert last[..|last| - 1] == LastOf(closes[..|closes| - 1], n - 1);
  }

  lemma {:induction false} PlacesLast(side: RefSide, closes: seq<real>, n: nat, level: real)
    requires n > 0 && |closes| > 0
    ensures |PlacesBeyond(side, closes, n, level)|
      == |PlacesBeyond(side, closes[..|closes| - 1], n - 1, level)|
         + if Beyond(side, closes[|closes| - 1], level) > 0.0 then 1 else 0
  {
    hide Beyond;
    var end: nat := |closes| - 1;
    var before := PlacesBeyond(side, closes[..end], n - 1, level);
    assert end !in before;
    assert PlacesBeyond(side, closes, n, level)
      == before + if Beyond(side, closes[end], level) > 0.0 then {end} else {};
  }

  /** Counting the last closes counts their places. */
  lemma {:induction false} CountsPlaces(side: RefSide, closes: seq<real>, n: nat, level: real)
    ensures CountBeyond(side, LastOf(closes, n), level) == |PlacesBeyond(side, closes, n, level)|
    decreases n
  {
    if n == 0 || |closes| == 0 {
      assert PlacesBeyond(side, closes, n, level) == {};
    } else {
      hide CountBeyond, PlacesBeyond, LastOf;
      CountLast(side, closes, n, level);
      PlacesLast(side, closes, n, level);
      CountsPlaces(side, closes[..|closes| - 1], n - 1, level);
    }
  }

  lemma {:induction false} AllBeyond(side: RefSide, closes: seq<real>, level: real)
    ensures CountBeyond(side, closes, level) <= |closes|
    ensures CountBeyond(side, closes, level) == |closes| <==>
      forall i :: 0 <= i < |closes| ==> Beyond(side, closes[i], level) > 0.0
    decreases |closes|
  {
    if |closes| == 0 {
    } else {
      AllBeyond(side, closes[..|closes| - 1], level);
    }
  }

  lemma {:induction false} AllLastBeyond(side: RefSide, closes: seq<real>, n: nat, level: real)
    ensures CountBeyond(OtherSide(side), LastOf(closes, n), level) == |LastOf(closes, n)| <==>
      forall i: nat | |closes| - n <= i < |closes| :: Beyond(side, level, closes[i]) > 0.0
  {
    var last := LastOf(closes, n);
    var from := |closes| - |last|;
    AllBeyond(OtherSide(side), last, level);
    assert forall i: nat | from <= i < |closes| :: closes[i] == last[i - from];
    assert forall k | 0 <= k < |last| :: last[k] == closes[k + from];
  }

  function CandidatesOn(cfg: RetestConfig, f: Features, side: RefSide): seq<Classification>
    requires HasHistory(f)
  {
    CandidatesAt(cfg, side, Chosen(cfg, f, side), f.dtr20.value, f.openingClose.value, f.openingVwap.value,
                 f.openingCloses)
  }

  /** The candidate, if any, that one piece of evidence gives. */
  function PieceOn(cfg: RetestConfig, f: Features, side: RefSide, accepted: bool): seq<Classification>
    requires HasHistory(f)
  {
    var ref, dtr, close, vwap := Chosen(cfg, f, side), f.dtr20.value, f.openingClose.value, f.openingVwap.value;
    if ref.None? then []
    else if accepted then AcceptedAt(cfg, side, ref.value, dtr, close, vwap, f.openingCloses)
    else RejectedAt(cfg, side, ref.value, dtr, close, vwap, f.openingCloses)
  }

  lemma {:induction false} PiecesAreTheCandidates(cfg: RetestConfig, f: Features)
    requires HasHistory(f)
    ensures Candidates(cfg, f)
      == PieceOn(cfg, f, High, true) + PieceOn(cfg, f, High, false)
         + (PieceOn(cfg, f, Low, true) + PieceOn(cfg, f, Low, false))
  {
    hide ChosenCrossedReference, AcceptedAt, RejectedAt;
    assert Candidates(cfg, f) == CandidatesOn(cfg, f, High) + CandidatesOn(cfg, f, Low);
  }

  // ---- What is decided ----

  /** Some level is evidence for trading so. */
  ghost predicate Supported(cfg: RetestConfig, f: Features, side: RefSide, accepted: bool)
    requires HasHistory(f)
  {
    exists level :: Supports(cfg, f, side, accepted, level)
  }

  /** The chosen level, with what its piece asks for put as distances. */
  lemma {:induction false} PieceAtTheLevel(cfg: RetestConfig, f: Features, side: RefSide, accepted: bool)
    requires HasHistory(f) && Chosen(cfg, f, side).Some?
    ensures
      var level := Chosen(cfg, f, side).value.price;
      |PieceOn(cfg, f, side, accepted)| == (if Supports(cfg, f, side, accepted, level) then 1 else 0)
  {
    var level := Chosen(cfg, f, side).value.price;
    ChosenIsBroken(cfg, f, side, level);
    hide Chosen, Broken, CountBeyond, LastOf, PlacesBeyond, HasHistory;
    if accepted {
      CountsPlaces(side, f.openingCloses, cfg.acceptanceLookback, level);
    } else {
      AllLastBeyond(side, f.openingCloses, cfg.rejectionLookback, level);
    }
  }

  lemma {:induction false} PieceIsTheVerdict(cfg: RetestConfig, f: Features, side: RefSide, accepted: bool)
    requires HasHistory(f) && |PieceOn(cfg, f, side, accepted)| == 1
    ensures Chosen(cfg, f, side).Some?
    ensures IsVerdict(cfg, f, side, accepted, Chosen(cfg, f, side).value.price, PieceOn(cfg, f, side, accepted)[0])
  {
    ChosenIsNamed(cfg, f, side);
    hide Chosen, CountBeyond, LastOf, Levels, HasHistory, Past, Outside;
  }

  lemma {:induction false} PieceMeans(cfg: RetestConfig, f: Features, side: RefSide, accepted: bool)
    requires HasHistory(f)
    ensures |PieceOn(cfg, f, side, accepted)| == (if Supported(cfg, f, side, accepted) then 1 else 0)
    ensures forall level | Supports(cfg, f, side, accepted, level) ::
      |PieceOn(cfg, f, side, accepted)| == 1
      && IsVerdict(cfg, f, side, accepted, level, PieceOn(cfg, f, side, accepted)[0])
    ensures |PieceOn(cfg, f, side, accepted)| == 1 ==>
      PieceOn(cfg, f, side, accepted)[0].reason == External(side, accepted)
  {
    var ref := Chosen(cfg, f, side);
    forall level | Supports(cfg, f, side, accepted, level)
      ensures ref.Some? && ref.value.price == level
    {
      ChosenIsBroken(cfg, f, side, level);
    }
    if ref.Some? {
      hide Chosen, PieceOn, Supports, HasHistory;
      PieceAtTheLevel(cfg, f, side, accepted);
      if |PieceOn(cfg, f, side, accepted)| == 1 {
        PieceIsTheVerdict(cfg, f, side, accepted);
      }
    }
  }

  /**
   * An opening that can be judged is traded if and only if exactly one of the four pieces of evidence
   * holds, and then as that one says; with none, or with more than one, it is refused for that reason.
   */
  lemma {:induction false} TheOnlyEvidenceDecides(cfg: RetestConfig, f: Features, side: RefSide, accepted: bool)
    requires Ready(cfg, f)
    ensures
      var c := Classify(cfg, f);
      && (c.reason == External(side, accepted) <==>
            && Supported(cfg, f, side, accepted)
            && forall s, a :: Supported(cfg, f, s, a) ==> s == side && a == accepted)
      && (c.reason == External(side, accepted) ==>
            forall level :: Supports(cfg, f, side, accepted, level) ==>
              IsVerdict(cfg, f, side, accepted, level, c))
      && (c == Refuse(NoAcceptedOrRejectedLevel) <==> forall s, a :: !Supported(cfg, f, s, a))
      && (c == Refuse(ConflictingEvidence) <==>
            exists s, a, t, b :: Supported(cfg, f, s, a) && Supported(cfg, f, t, b) && (s != t || a != b))
  {
    hide PieceOn, Candidates, Supports, Supported, IsVerdict, HasHistory;
    PieceMeans(cfg, f, High, true);
    PieceMeans(cfg, f, High, false);
    PieceMeans(cfg, f, Low, true);
    PieceMeans(cfg, f, Low, false);
    PiecesAreTheCandidates(cfg, f);
    assert forall s | Supported(cfg, f, s, true) || Supported(cfg, f, s, false) :: s == High || s == Low;
  }

  lemma {:induction false} CandidatesAreExternal(cfg: RetestConfig, f: Features)
    requires HasHistory(f)
    ensures forall c | c in Candidates(cfg, f) :: c.reason.External?
  {
    hide ChosenCrossedReference, CountBeyond, LastOf;
  }

  /**
   * Whatever cannot be judged is not traded, and the reason is the first thing amiss: the observation,
   * the roll, the overnight session, the history, the closes, the scale.
   */
  lemma {:induction false} UnreadyIsRefused(cfg: RetestConfig, f: Features)
    ensures
      var reason := Classify(cfg, f).reason;
      var seen := f.completeObservation && !f.rollTransition;
      var whole := seen && f.completeOvernight;
      var known := whole && HasHistory(f);
      var measured := known && |f.openingCloses| == cfg.observationMinutes;
      && (!Ready(cfg, f) ==> Classify(cfg, f) == Refuse(reason))
      && (reason == IncompleteOpeningObservation <==> !f.completeObservation)
      && (reason == ContinuousContractRoll <==> f.completeObservation && f.rollTransition)
      && (reason == IncompleteOvernightCoverage <==> seen && !f.completeOvernight)
      && (reason == MissingReferenceHistory <==> whole && !HasHistory(f))
      && (reason == IncompleteOpeningCloses <==> known && |f.openingCloses| != cfg.observationMinutes)
      && (reason == InvalidDailyRangeScale <==> measured && f.dtr20.value <= 0.0)
  {
    hide Candidates;
    if Ready(cfg, f) {
      CandidatesAreExternal(cfg, f);
    }
  }
}
