/** The classifier is mirrored: reflected features give the reflected classification. */
module ClassifierReflection {
  import opened Prelude
  import opened Market
  import opened Mirror
  import opened RetestModel
  import opened RetestMirror

  lemma {:induction false} ChosenMirrors(cfg: RetestConfig, side: RefSide, dtr: real, open: real, extreme: real,
                                         overnight: real, prior: real)
    ensures ChosenCrossedReference(cfg, MirrorRef(side), dtr, -open, -extreme, -overnight, -prior)
            == MirrorReferenceOption(ChosenCrossedReference(cfg, side, dtr, open, extreme, overnight, prior))
  {
  }

  lemma {:induction false} LastMirrors(closes: seq<real>, n: nat)
    ensures LastOf(Map(Negate, closes), n) == Map(Negate, LastOf(closes, n))
  {
  }

  lemma {:induction false} CountMirrors(side: RefSide, closes: seq<real>, level: real)
    ensures CountBeyond(MirrorRef(side), Map(Negate, closes), -level) == CountBeyond(side, closes, level)
    decreases |closes|
  {
    if |closes| == 0 {
    } else {
      MapInit(Negate, closes);
      CountMirrors(side, closes[..|closes| - 1], level);
    }
  }

  lemma {:induction false} AcceptedMirrors(cfg: RetestConfig, side: RefSide, ref: Reference, dtr: real, close: real,
                                           vwap: real, closes: seq<real>)
    ensures AcceptedAt(cfg, MirrorRef(side), MirrorReference(ref), dtr, -close, -vwap, Map(Negate, closes))
            == Map(MirrorClassification, AcceptedAt(cfg, side, ref, dtr, close, vwap, closes))
  {
    hide LastOf, CountBeyond;
    LastMirrors(closes, cfg.acceptanceLookback);
    CountMirrors(side, LastOf(closes, cfg.acceptanceLookback), ref.price);
  }

  lemma {:induction false} RejectedMirrors(cfg: RetestConfig, side: RefSide, ref: Reference, dtr: real, close: real,
                                           vwap: real, closes: seq<real>)
    ensures RejectedAt(cfg, MirrorRef(side), MirrorReference(ref), dtr, -close, -vwap, Map(Negate, closes))
            == Map(MirrorClassification, RejectedAt(cfg, side, ref, dtr, close, vwap, closes))
  {
    hide LastOf, CountBeyond;
    LastMirrors(closes, cfg.rejectionLookback);
    CountMirrors(OtherSide(side), LastOf(closes, cfg.rejectionLookback), ref.price);
    assert MirrorRef(OtherSide(side)) == OtherSide(MirrorRef(side));
  }

  lemma {:induction false} CandidatesAtMirror(cfg: RetestConfig, side: RefSide, ref: Option<Reference>, dtr: real,
                                              close: real, vwap: real, closes: seq<real>)
    ensures CandidatesAt(cfg, MirrorRef(side), MirrorReferenceOption(ref), dtr, -close, -vwap, Map(Negate, closes))
            == Map(MirrorClassification, CandidatesAt(cfg, side, ref, dtr, close, vwap, closes))
  {
    hide AcceptedAt, RejectedAt, MirrorClassification;
    if ref.Some? {
      AcceptedMirrors(cfg, side, ref.value, dtr, close, vwap, closes);
      RejectedMirrors(cfg, side, ref.value, dtr, close, vwap, closes);
    }
  }

  function HighCandidates(cfg: RetestConfig, f: Features): seq<Classification>
    requires HasHistory(f)
  {
    var dtr := f.dtr20.value;
    CandidatesAt(cfg, High,
                 ChosenCrossedReference(cfg, High, dtr, f.rthOpen.value, f.openingHigh.value,
                                        f.overnightHigh.value, f.priorRthHigh.value),
                 dtr, f.openingClose.value, f.openingVwap.value, f.openingCloses)
  }

  function LowCandidates(cfg: RetestConfig, f: Features): seq<Classification>
    requires HasHistory(f)
  {
    var dtr := f.dtr20.value;
    CandidatesAt(cfg, Low,
                 ChosenCrossedReference(cfg, Low, dtr, f.rthOpen.value, f.openingLow.value,
                                        f.overnightLow.value, f.priorRthLow.value),
                 dtr, f.openingClose.value, f.openingVwap.value, f.openingCloses)
  }

  /** Reflection exchanges the evidence at the highs with the evidence at the lows. */
  lemma {:induction false} CandidatesMirror(cfg: RetestConfig, f: Features)
    requires HasHistory(f)
    ensures HasHistory(MirrorFeatures(f))
    ensures Candidates(cfg, f) == HighCandidates(cfg, f) + LowCandidates(cfg, f)
    ensures Candidates(cfg, MirrorFeatures(f))
            == Map(MirrorClassification, LowCandidates(cfg, f)) + Map(MirrorClassification, HighCandidates(cfg, f))
  {
    hide CandidatesAt, ChosenCrossedReference, MirrorClassification;
    var dtr := f.dtr20.value;
    var open, close, vwap := f.rthOpen.value, f.openingClose.value, f.openingVwap.value;
    ChosenMirrors(cfg, High, dtr, open, f.openingHigh.value, f.overnightHigh.value, f.priorRthHigh.value);
    ChosenMirrors(cfg, Low, dtr, open, f.openingLow.value, f.overnightLow.value, f.priorRthLow.value);
    CandidatesAtMirror(cfg, High, ChosenCrossedReference(cfg, High, dtr, open, f.openingHigh.value,
                                                         f.overnightHigh.value, f.priorRthHigh.value),
                       dtr, close, vwap, f.openingCloses);
    CandidatesAtMirror(cfg, Low, ChosenCrossedReference(cfg, Low, dtr, open, f.openingLow.value,
                                                        f.overnightLow.value, f.priorRthLow.value),
                       dtr, close, vwap, f.openingCloses);
  }

  lemma {:induction false} ClassifyMirrors(cfg: RetestConfig, f: Features)
    ensures Classify(cfg, MirrorFeatures(f)) == MirrorClassification(Classify(cfg, f))
  {
    hide Candidates, HighCandidates, LowCandidates;
    if HasHistory(f) {
      CandidatesMirror(cfg, f);
      var high, low := HighCandidates(cfg, f), LowCandidates(cfg, f);
      if |high + low| == 1 {
        assert (high + low)[0] == if |high| == 1 then high[0] else low[0];
      }
    }
  }
}
