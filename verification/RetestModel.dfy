/** The opening-auction level-retest strategy: its classifier and its session state machine. */
module RetestModel {
  import opened Prelude
  import opened Market
  import Ranking

  datatype RetestConfig = RetestConfig(
    tickSize: real,
    contracts: int,
    observationStart: int,
    observationMinutes: int,
    entryEnd: int,
    hardExitFill: int,
    dailyRangeLookback: nat,
    openingVolumeLookback: nat,
    overnightStartTolerance: int,
    overnightPreopenTolerance: int,
    overnightMaxGap: int,
    referenceCrossDtr: real,
    acceptanceMarginDtr: real,
    acceptanceLookback: nat,
    acceptanceClosesRequired: int,
    rejectionMarginDtr: real,
    rejectionLookback: nat,
    retestToleranceDtr: real,
    retestHoldMarginDtr: real,
    retestCloseLocationMin: real,
    confirmationMaxBars: int,
    confirmationMarginDtr: real,
    invalidationMarginDtr: real,
    stopBufferDtr: real,
    minRiskDtr: real,
    maxRiskDtr: real,
    rewardR: real,
    frontContract: int -> string)

  /** The configuration's own checks, as far as the model relies on them. */
  predicate ValidRetestConfig(cfg: RetestConfig) {
    && cfg.tickSize > 0.0
    && cfg.contracts >= 1
    && cfg.observationMinutes >= 5
    && cfg.dailyRangeLookback >= 2 && cfg.openingVolumeLookback >= 2
    && 1 <= cfg.acceptanceLookback <= cfg.observationMinutes
    && 1 <= cfg.rejectionLookback <= cfg.observationMinutes
    && 0.0 < cfg.minRiskDtr < cfg.maxRiskDtr
  }

  function ObservationEnd(cfg: RetestConfig): int {
    cfg.observationStart + cfg.observationMinutes
  }

  datatype EntryState = Observe | WaitFirstRetest | Armed | EntryPending | InPosition | Done

  datatype VwapSide = AboveVwap | BelowVwap | AtVwap

  datatype Features = Features(
    sessionDate: Option<int>,
    classificationTimestamp: Timestamp,
    completeObservation: bool,
    rollTransition: bool,
    completeOvernight: bool,
    overnightBarCount: nat,
    overnightMaxGap: Option<int>,
    openingMinutes: seq<int>,
    openingCloses: seq<real>,
    dtr20: Option<real>,
    openingVolumeRatio: Option<real>,
    rthOpen: Option<real>,
    openingHigh: Option<real>,
    openingLow: Option<real>,
    openingClose: Option<real>,
    openingWidth: Option<real>,
    openingMidpoint: Option<real>,
    displacementDtr: Option<real>,
    efficiencyRatio: Option<real>,
    closeLocation: Option<real>,
    openingVwap: Option<real>,
    closesAboveVwap: nat,
    closesBelowVwap: nat,
    overnightHigh: Option<real>,
    overnightLow: Option<real>,
    priorRthHigh: Option<real>,
    priorRthLow: Option<real>,
    priorRthClose: Option<real>)

  datatype Classification = Classification(
    regime: Regime,
    side: Option<PositionSide>,
    reason: ClassReason,
    referenceSide: Option<RefSide>,
    referenceType: Option<RefType>,
    referencePrice: Option<real>)

  function Refuse(reason: ClassReason): Classification {
    Classification(NoTrade, None, reason, None, None, None)
  }

  // ---- The classifier ----

  datatype Reference = Reference(kind: RefType, price: real)

  /** Beyond the session's open, and traded through by the opening by the crossing margin. */
  predicate Crosses(side: RefSide, level: real, open: real, extreme: real, margin: real) {
    if side.High? then level > open && extreme >= level + margin
    else level < open && extreme <= level - margin
  }

  predicate Outside(side: RefSide, a: real, b: real) {
    if side.High? then a > b else a < b
  }

  /** Which of the two levels gave the price. */
  function LabelOf(side: RefSide, overnight: bool, prior: bool): RefType {
    if overnight && prior then OvernightAndPriorRth(side) else if overnight then Overnight(side) else PriorRth(side)
  }

  /** The outermost external level the opening actually crossed. */
  function ChosenCrossedReference(cfg: RetestConfig, side: RefSide, dtr: real, open: real, extreme: real,
                                  overnight: real, prior: real): (r: Option<Reference>)
    ensures r.Some? ==>
      && (r.value.price == overnight || r.value.price == prior)
      && Crosses(side, r.value.price, open, extreme, cfg.referenceCrossDtr * dtr)
    ensures r.Some? ==> r.value.kind == LabelOf(side,
      overnight == r.value.price && Crosses(side, overnight, open, extreme, cfg.referenceCrossDtr * dtr),
      prior == r.value.price && Crosses(side, prior, open, extreme, cfg.referenceCrossDtr * dtr))
    ensures forall level | level == overnight || level == prior ::
      Crosses(side, level, open, extreme, cfg.referenceCrossDtr * dtr) ==>
        r.Some? && !Outside(side, level, r.value.price)
  {
    var margin := cfg.referenceCrossDtr * dtr;
    var o := Crosses(side, overnight, open, extreme, margin);
    var p := Crosses(side, prior, open, extreme, margin);
    if !o && !p then None
    else if o && p && overnight == prior then Some(Reference(OvernightAndPriorRth(side), overnight))
    else if o && (!p || Outside(side, overnight, prior)) then Some(Reference(Overnight(side), overnight))
    else Some(Reference(PriorRth(side), prior))
  }

  function CountBeyond(side: RefSide, closes: seq<real>, level: real): nat
    decreases |closes|
  {
    if |closes| == 0 then 0
    else
      CountBeyond(side, closes[..|closes| - 1], level)
      + if Outside(side, closes[|closes| - 1], level) then 1 else 0
  }

  /** Far enough beyond the level, in the level's own direction. */
  predicate Past(side: RefSide, price: real, level: real, margin: real) {
    if side.High? then price >= level + margin else price <= level - margin
  }

  function OtherSide(side: RefSide): RefSide {
    if side.High? then Low else High
  }

  function SideBeyond(side: RefSide): PositionSide {
    if side.High? then Long else Short
  }

  function AcceptedAt(cfg: RetestConfig, side: RefSide, ref: Reference, dtr: real, close: real, vwap: real,
                      closes: seq<real>): seq<Classification>
  {
    if Past(side, close, ref.price, cfg.acceptanceMarginDtr * dtr)
       && CountBeyond(side, LastOf(closes, cfg.acceptanceLookback), ref.price) >= cfg.acceptanceClosesRequired
       && Outside(side, vwap, ref.price)
    then [Classification(AcceptedBreak, Some(SideBeyond(side)), External(side, true),
                         Some(side), Some(ref.kind), Some(ref.price))]
    else []
  }

  /** Back inside the level: the opposite direction, on every one of the last closes. */
  function RejectedAt(cfg: RetestConfig, side: RefSide, ref: Reference, dtr: real, close: real, vwap: real,
                      closes: seq<real>): seq<Classification>
  {
    var last := LastOf(closes, cfg.rejectionLookback);
    if Past(OtherSide(side), close, ref.price, cfg.rejectionMarginDtr * dtr)
       && CountBeyond(OtherSide(side), last, ref.price) == |last|
       && Outside(OtherSide(side), vwap, ref.price)
    then [Classification(RejectedBreak, Some(SideBeyond(OtherSide(side))), External(side, false),
                         Some(side), Some(ref.kind), Some(ref.price))]
    else []
  }

  function CandidatesAt(cfg: RetestConfig, side: RefSide, ref: Option<Reference>, dtr: real, close: real, vwap: real,
                        closes: seq<real>): seq<Classification>
  {
    if ref.None? then []
    else AcceptedAt(cfg, side, ref.value, dtr, close, vwap, closes)
         + RejectedAt(cfg, side, ref.value, dtr, close, vwap, closes)
  }

  predicate HasHistory(f: Features) {
    && f.dtr20.Some? && f.rthOpen.Some? && f.openingHigh.Some? && f.openingLow.Some?
    && f.openingClose.Some? && f.openingVwap.Some? && f.overnightHigh.Some? && f.overnightLow.Some?
    && f.priorRthHigh.Some? && f.priorRthLow.Some? && f.priorRthClose.Some?
  }

  function Candidates(cfg: RetestConfig, f: Features): seq<Classification>
    requires HasHistory(f)
  {
    var dtr := f.dtr20.value;
    var high := ChosenCrossedReference(cfg, High, dtr, f.rthOpen.value, f.openingHigh.value,
                                       f.overnightHigh.value, f.priorRthHigh.value);
    var low := ChosenCrossedReference(cfg, Low, dtr, f.rthOpen.value, f.openingLow.value,
                                      f.overnightLow.value, f.priorRthLow.value);
    CandidatesAt(cfg, High, high, dtr, f.openingClose.value, f.openingVwap.value, f.openingCloses)
    + CandidatesAt(cfg, Low, low, dtr, f.openingClose.value, f.openingVwap.value, f.openingCloses)
  }

  function Classify(cfg: RetestConfig, f: Features): (c: Classification)
    ensures !c.regime.NoTrade? ==> HasHistory(f) && f.dtr20.value > 0.0 && c.referencePrice.Some? && c.side.Some?
  {
    if !f.completeObservation then Refuse(IncompleteOpeningObservation)
    else if f.rollTransition then Refuse(ContinuousContractRoll)
    else if !f.completeOvernight then Refuse(IncompleteOvernightCoverage)
    else if !HasHistory(f) then Refuse(MissingReferenceHistory)
    else if |f.openingCloses| != cfg.observationMinutes then Refuse(IncompleteOpeningCloses)
    else if f.dtr20.value <= 0.0 then Refuse(InvalidDailyRangeScale)
    else
      var candidates := Candidates(cfg, f);
      if |candidates| == 1 then candidates[0]
      else if |candidates| > 1 then Refuse(ConflictingEvidence)
      else Refuse(NoAcceptedOrRejectedLevel)
  }

  // ---- Session state ----

  datatype Snapshot = Snapshot(features: Features, classification: Classification)

  datatype Note =
    | Classified(why: ClassReason, referenceSide: Option<RefSide>, referenceType: Option<RefType>,
                 referencePrice: Option<real>)
    | Filled(price: real, quantity: int, reason: Reason)
    | TradeClosed(netPnl: real, exitReason: Reason, mfe: real, mae: real)
    | Cancelled(what: CancelReason, level: Option<real>, closeLocation: Option<real>, bars: Option<nat>)
    | EntryRejected(riskPoints: real, riskDtr: real)
    | EntryConfirmed(reason: Reason, metadata: Metadata)
    | FirstRetestArmed(armedAt: real, high: real, low: real, closeLocation: Option<real>)
    | TimeExitSignalled
    | EntryPendingExpired

  datatype CancelReason =
    | FirstRetestFailedHold | ArmedReferenceInvalidated | ConfirmationExpired
    | FirstRetestWindowExpired | EntryWindowExpired

  datatype Diagnostic = Diagnostic(
    sessionDate: Option<int>, timestamp: Timestamp, regime: Regime, side: Option<PositionSide>,
    state: EntryState, note: Note)

  /** What a session change resets. */
  datatype SessionState = SessionState(
    rollTransition: bool,
    overnightHigh: Option<real>,
    overnightLow: Option<real>,
    overnightOffsets: seq<int>,
    rthStarted: bool,
    rthHigh: Option<real>,
    rthLow: Option<real>,
    rthClose: Option<real>,
    lastTimestamp: Timestamp,
    vwapPv: real,
    vwapVolume: real,
    currentVwap: Option<real>,
    openingMinutes: seq<int>,
    openingMinuteSet: set<int>,
    openingCloses: seq<real>,
    vwapSides: seq<VwapSide>,
    openingVolume: real,
    rthOpen: Option<real>,
    openingHigh: Option<real>,
    openingLow: Option<real>,
    openingClose: Option<real>,
    classification: Option<Classification>,
    features: Option<Features>,
    entryState: EntryState,
    entryAttempted: bool,
    retestHigh: Option<real>,
    retestLow: Option<real>,
    structuralExtreme: Option<real>,
    confirmationBars: nat)

  const FRESH_SESSION: SessionState := SessionState(
    false, None, None, [], false, None, None, None, Blank, 0.0, 0.0, None, [], {}, [], [], 0.0,
    None, None, None, None, None, None, Observe, false, None, None, None, 0)

  /** The whole strategy. */
  datatype Memory = Memory(
    dtrHistory: seq<real>,
    volumeHistory: seq<real>,
    sessionDate: Option<int>,
    currentContract: Option<string>,
    previousRthContract: Option<string>,
    priorRthHigh: Option<real>,
    priorRthLow: Option<real>,
    priorRthClose: Option<real>,
    snapshots: seq<Snapshot>,
    diagnostics: seq<Diagnostic>,
    positionSide: Option<PositionSide>,
    positionBranch: Option<Regime>,
    entryPending: bool,
    entryPendingAge: nat,
    exitPending: bool,
    session: SessionState)

  const NEW_MEMORY: Memory := Memory(
    [], [], None, None, None, None, None, None, [], [], None, None, false, 0, false, FRESH_SESSION)

  function Noted(m: Memory, timestamp: Timestamp, note: Note): Memory {
    var c := m.session.classification;
    m.(diagnostics := m.diagnostics + [Diagnostic(
      m.sessionDate, timestamp,
      if c.Some? then c.value.regime else NoTrade,
      if c.Some? then c.value.side else None,
      m.session.entryState, note)])
  }

  // ---- Broker feedback ----

  function Unpended(m: Memory): Memory {
    m.(entryPending := false, entryPendingAge := 0)
  }

  function Entered(m: Memory, fill: Fill): Memory {
    Unpended(m).(
      positionSide := Some(SideOfEntry(fill.side)),
      positionBranch := Some(if fill.reason.AcceptedBreakRetest? then AcceptedBreak else RejectedBreak),
      session := m.session.(entryState := InPosition))
  }

  function OnFill(m: Memory, fill: Fill): Memory {
    if !EntryReason(fill.reason) then m
    else Noted(Entered(m, fill), fill.timestamp, Filled(fill.price, fill.quantity, fill.reason))
  }

  function Exited(m: Memory): Memory {
    Unpended(m).(positionSide := None, positionBranch := None, exitPending := false,
                 session := m.session.(entryState := Done))
  }

  function OnTradeClosed(m: Memory, trade: Trade): Memory {
    Exited(Noted(m, trade.exitTimestamp, TradeClosed(trade.netPnl, trade.exitReason, trade.mfePoints, trade.maePoints)))
  }

  // ---- Features ----

  function Range(lo: int, hi: int): seq<int>
    decreases hi - lo
  {
    if hi <= lo then [] else Range(lo, hi - 1) + [hi - 1]
  }

  predicate CompleteOpening(cfg: RetestConfig, s: SessionState) {
    s.openingMinutes == Range(cfg.observationStart, ObservationEnd(cfg))
  }

  /** The absolute distance walked through the closes. */
  function PathLength(start: real, closes: seq<real>): real
    decreases |closes|
  {
    if |closes| == 0 then 0.0
    else
      var n := |closes| - 1;
      PathLength(start, closes[..n]) + Abs(closes[n] - (if n == 0 then start else closes[n - 1]))
  }

  function MaxGap(offsets: seq<int>): Option<int>
    decreases |offsets|
  {
    if |offsets| < 2 then None
    else
      var n := |offsets| - 1;
      var last := offsets[n] - offsets[n - 1];
      match MaxGap(offsets[..n])
      case None => Some(last)
      case Some(gap) => Some(if gap >= last then gap else last)
  }

  function CountSides(sides: seq<VwapSide>, side: VwapSide): nat
    decreases |sides|
  {
    if |sides| == 0 then 0
    else CountSides(sides[..|sides| - 1], side) + if sides[|sides| - 1] == side then 1 else 0
  }

  function FullMedian(history: seq<real>, lookback: nat): Option<real> {
    if |history| == lookback && lookback > 0 then Some(Ranking.Median(history)) else None
  }

  predicate CompleteOvernight(cfg: RetestConfig, offsets: seq<int>) {
    && |offsets| > 0
    && offsets[0] <= cfg.overnightStartTolerance
    && offsets[|offsets| - 1] >= 929 - cfg.overnightPreopenTolerance
    && MaxGap(offsets).Some?
    && MaxGap(offsets).value <= cfg.overnightMaxGap
  }

  function OpeningWidth(s: SessionState): Option<real> {
    if s.openingHigh.Some? && s.openingLow.Some? then Some(s.openingHigh.value - s.openingLow.value) else None
  }

  function OpeningMidpoint(s: SessionState): Option<real> {
    if s.openingHigh.Some? && s.openingLow.Some? then Some((s.openingHigh.value + s.openingLow.value) / 2.0) else None
  }

  function OpeningLocation(s: SessionState): Option<real> {
    var width := OpeningWidth(s);
    if width.Some? && width.value > 0.0 && s.openingClose.Some?
    then Some((s.openingClose.value - s.openingLow.value) / width.value) else None
  }

  function Efficiency(s: SessionState): Option<real> {
    if s.rthOpen.None? || s.openingClose.None? then None
    else
      var path := PathLength(s.rthOpen.value, s.openingCloses);
      if path > 0.0 then Some(Abs(s.openingClose.value - s.rthOpen.value) / path) else None
  }

  function Displacement(s: SessionState, dtr20: Option<real>): Option<real> {
    if dtr20.Some? && dtr20.value != 0.0 && s.rthOpen.Some? && s.openingClose.Some?
    then Some((s.openingClose.value - s.rthOpen.value) / dtr20.value) else None
  }

  function VolumeRatio(volume: real, typical: Option<real>): Option<real> {
    if typical.Some? && typical.value > 0.0 then Some(volume / typical.value) else None
  }

  function BuildFeatures(cfg: RetestConfig, m: Memory, timestamp: Timestamp): Features {
    var s := m.session;
    var dtr20 := FullMedian(m.dtrHistory, cfg.dailyRangeLookback);
    Features(
      m.sessionDate, timestamp, CompleteOpening(cfg, s), s.rollTransition,
      CompleteOvernight(cfg, s.overnightOffsets), |s.overnightOffsets|, MaxGap(s.overnightOffsets),
      s.openingMinutes, s.openingCloses, dtr20,
      VolumeRatio(s.openingVolume, FullMedian(m.volumeHistory, cfg.openingVolumeLookback)),
      s.rthOpen, s.openingHigh, s.openingLow, s.openingClose,
      OpeningWidth(s), OpeningMidpoint(s), Displacement(s, dtr20), Efficiency(s), OpeningLocation(s), s.currentVwap,
      CountSides(s.vwapSides, AboveVwap), CountSides(s.vwapSides, BelowVwap),
      s.overnightHigh, s.overnightLow, m.priorRthHigh, m.priorRthLow, m.priorRthClose)
  }

  function Frozen(m: Memory, features: Features, c: Classification): Memory {
    m.(snapshots := m.snapshots + [Snapshot(features, c)],
       session := m.session.(
         features := Some(features),
         classification := Some(c),
         entryState := if c.regime.NoTrade? then Done else WaitFirstRetest))
  }

  function FreezeClassification(cfg: RetestConfig, m: Memory, timestamp: Timestamp): Memory {
    if m.session.classification.Some? then m
    else
      var features := BuildFeatures(cfg, m, timestamp);
      var c := Classify(cfg, features);
      Noted(Frozen(m, features, c), timestamp,
            Classified(c.reason, c.referenceSide, c.referenceType, c.referencePrice))
  }

  // ---- Session changes ----

  /** A bounded queue: the oldest value makes room. */
  function Push(history: seq<real>, x: real, limit: nat): seq<real> {
    LastOf(history + [x], limit)
  }

  function TrueRange(high: real, low: real, close: real): real {
    Max(high - low, Max(Abs(high - close), Abs(low - close)))
  }

  function RecordVolume(cfg: RetestConfig, m: Memory): Memory {
    if CompleteOpening(cfg, m.session) && m.session.openingVolume > 0.0
    then m.(volumeHistory := Push(m.volumeHistory, m.session.openingVolume, cfg.openingVolumeLookback))
    else m
  }

  /** The session's regular hours become the next one's prior levels, and feed the daily range. */
  function RecordRange(cfg: RetestConfig, m: Memory): Memory {
    var s := m.session;
    if s.rthHigh.None? || s.rthLow.None? || s.rthClose.None? then m
    else
      var range := if m.priorRthClose.Some?
                   then TrueRange(s.rthHigh.value, s.rthLow.value, m.priorRthClose.value) else 0.0;
      m.(dtrHistory := if m.priorRthClose.Some? && !s.rollTransition && range > 0.0
                       then Push(m.dtrHistory, range, cfg.dailyRangeLookback) else m.dtrHistory,
         priorRthHigh := s.rthHigh,
         priorRthLow := s.rthLow,
         priorRthClose := s.rthClose,
         previousRthContract := m.currentContract)
  }

  function FinalizeSession(cfg: RetestConfig, m: Memory): Memory {
    if m.sessionDate.None? then m
    else
      var frozen := if m.session.rthStarted then FreezeClassification(cfg, m, m.session.lastTimestamp) else m;
      RecordRange(cfg, RecordVolume(cfg, frozen))
  }

  function Restarted(cfg: RetestConfig, m: Memory, date: int): Memory {
    var contract := cfg.frontContract(date);
    Unpended(m).(
      sessionDate := Some(date),
      currentContract := Some(contract),
      session := FRESH_SESSION.(rollTransition :=
        m.previousRthContract.Some? && m.previousRthContract.value != contract),
      exitPending := false)
  }

  function StartSession(cfg: RetestConfig, m: Memory, date: int): Memory {
    Restarted(cfg, FinalizeSession(cfg, m), date)
  }

  // ---- One bar ----

  function Raise(a: Option<real>, b: real): Option<real> {
    Some(if a.None? then b else Max(a.value, b))
  }

  function Sink(a: Option<real>, b: real): Option<real> {
    Some(if a.None? then b else Min(a.value, b))
  }

  /** Price times volume at the bar's typical price. */
  function Notional(bar: Bar): real {
    (bar.high + bar.low + bar.close) / 3.0 * Max(0.0, bar.volume)
  }

  function Averaged(s: SessionState, notional: real, volume: real): SessionState {
    var pv, total := s.vwapPv + notional, s.vwapVolume + volume;
    s.(vwapPv := pv, vwapVolume := total, currentVwap := if total > 0.0 then Some(pv / total) else s.currentVwap)
  }

  function UpdateVwap(s: SessionState, bar: Bar): SessionState {
    Averaged(s, Notional(bar), Max(0.0, bar.volume))
  }

  function VwapSideOf(vwap: Option<real>, close: real): VwapSide {
    if vwap.None? || close == vwap.value then AtVwap else if close > vwap.value then AboveVwap else BelowVwap
  }

  function RecordOpeningBar(cfg: RetestConfig, s: SessionState, bar: Bar, minute: int): SessionState {
    if minute in s.openingMinuteSet then s
    else
      s.(openingMinuteSet := s.openingMinuteSet + {minute},
         openingMinutes := s.openingMinutes + [minute],
         rthOpen := if minute == cfg.observationStart then Some(bar.open) else s.rthOpen,
         openingHigh := Raise(s.openingHigh, bar.high),
         openingLow := Sink(s.openingLow, bar.low),
         openingClose := Some(bar.close),
         openingCloses := s.openingCloses + [bar.close],
         openingVolume := s.openingVolume + Max(0.0, bar.volume),
         vwapSides := s.vwapSides + [VwapSideOf(s.currentVwap, bar.close)])
  }

  function TrackOvernight(s: SessionState, bar: Bar, minute: int): SessionState {
    if s.rthStarted then s
    else
      var offset := if minute >= 18 * 60 then minute - 18 * 60 else 6 * 60 + minute;
      s.(overnightHigh := Raise(s.overnightHigh, bar.high),
         overnightLow := Sink(s.overnightLow, bar.low),
         overnightOffsets := if |s.overnightOffsets| == 0 || offset > s.overnightOffsets[|s.overnightOffsets| - 1]
                             then s.overnightOffsets + [offset] else s.overnightOffsets)
  }

  function Started(s: SessionState, bar: Bar): SessionState {
    s.(rthStarted := true, rthHigh := Raise(s.rthHigh, bar.high), rthLow := Sink(s.rthLow, bar.low),
       rthClose := Some(bar.close))
  }

  function TrackRth(cfg: RetestConfig, s: SessionState, bar: Bar, minute: int): SessionState {
    var priced := UpdateVwap(Started(s, bar), bar);
    if cfg.observationStart <= minute < ObservationEnd(cfg) then RecordOpeningBar(cfg, priced, bar, minute) else priced
  }

  function Expired(m: Memory): Memory {
    Unpended(m).(session := m.session.(entryState := Done))
  }

  function Aged(m: Memory): Memory {
    m.(entryPendingAge := m.entryPendingAge + 1)
  }

  /** An entry that has waited more than two bars is given up. */
  function ExpirePending(m: Memory, timestamp: Timestamp): Memory {
    if !m.entryPending then m
    else if m.entryPendingAge + 1 > 2 then Noted(Expired(m), timestamp, EntryPendingExpired)
    else Aged(m)
  }

  function TimeExitReason(branch: Option<Regime>): Reason {
    match branch
    case Some(AcceptedBreak) => AcceptedBreakTimeExit
    case Some(RejectedBreak) => RejectedBreakTimeExit
    case _ => RetestTimeExit
  }

  predicate TimeExitDue(cfg: RetestConfig, m: Memory, minute: int) {
    m.positionSide.Some? && !m.exitPending && cfg.hardExitFill - 1 <= minute < 18 * 60
  }

  function Leaving(m: Memory): Memory {
    m.(exitPending := true)
  }

  function HardExit(cfg: RetestConfig, m: Memory, bar: Bar, minute: int): (Memory, seq<ExitDecision>) {
    if !TimeExitDue(cfg, m, minute) then (m, [])
    else
      (Noted(Leaving(m), bar.timestamp, TimeExitSignalled),
       [ExitDecision(bar.timestamp, bar.symbol, TimeExitReason(m.positionBranch))])
  }

  function Finished(m: Memory): Memory {
    m.(session := m.session.(entryState := Done))
  }

  function Cancel(m: Memory, bar: Bar, what: CancelReason, level: Option<real>, location: Option<real>,
                  bars: Option<nat>): Memory {
    Noted(Finished(m), bar.timestamp, Cancelled(what, level, location, bars))
  }

  /** The reference, daily range and side the frozen classification fixed. */
  datatype Setup = Setup(reference: real, dtr: real, side: PositionSide)

  function SetupOf(s: SessionState): Setup {
    Setup(
      if s.classification.Some? && s.classification.value.referencePrice.Some?
      then s.classification.value.referencePrice.value else 0.0,
      if s.features.Some? && s.features.value.dtr20.Some? then s.features.value.dtr20.value else 0.0,
      if s.classification.Some? && s.classification.value.side == Some(Long) then Long else Short)
  }

  predicate Contact(cfg: RetestConfig, u: Setup, bar: Bar) {
    var tolerance := cfg.retestToleranceDtr * u.dtr;
    if u.side.Long? then bar.low <= u.reference + tolerance else bar.high >= u.reference - tolerance
  }

  function CloseLocation(bar: Bar): Option<real> {
    if bar.high - bar.low > 0.0 then Some((bar.close - bar.low) / (bar.high - bar.low)) else None
  }

  predicate Holds(cfg: RetestConfig, u: Setup, bar: Bar) {
    var margin := cfg.retestHoldMarginDtr * u.dtr;
    && CloseLocation(bar).Some?
    && if u.side.Long?
       then bar.close >= u.reference + margin && CloseLocation(bar).value >= cfg.retestCloseLocationMin
       else bar.close <= u.reference - margin && CloseLocation(bar).value <= 1.0 - cfg.retestCloseLocationMin
  }

  function ArmedBy(m: Memory, bar: Bar): Memory {
    m.(session := m.session.(
      retestHigh := Some(bar.high),
      retestLow := Some(bar.low),
      structuralExtreme := Some(if SetupOf(m.session).side.Long? then bar.low else bar.high),
      confirmationBars := 0,
      entryState := Armed))
  }

  function FirstRetest(cfg: RetestConfig, m: Memory, bar: Bar): Memory {
    var u := SetupOf(m.session);
    if !Contact(cfg, u, bar) then m
    else if !Holds(cfg, u, bar) then
      Cancel(m, bar, FirstRetestFailedHold, Some(u.reference), CloseLocation(bar), None)
    else
      Noted(ArmedBy(m, bar), bar.timestamp, FirstRetestArmed(u.reference, bar.high, bar.low, CloseLocation(bar)))
  }

  const EPSILON: real := 0.000000000001

  function RoundDown(cfg: RetestConfig, price: real): real
    requires cfg.tickSize > 0.0
  {
    ((price + EPSILON) / cfg.tickSize).Floor as real * cfg.tickSize
  }

  function Ceiling(x: real): int {
    -((-x).Floor)
  }

  function RoundUp(cfg: RetestConfig, price: real): real
    requires cfg.tickSize > 0.0
  {
    Ceiling((price - EPSILON) / cfg.tickSize) as real * cfg.tickSize
  }

  predicate Invalidated(cfg: RetestConfig, u: Setup, bar: Bar) {
    var margin := cfg.invalidationMarginDtr * u.dtr;
    if u.side.Long? then bar.close < u.reference - margin else bar.close > u.reference + margin
  }

  predicate Confirmed(cfg: RetestConfig, u: Setup, s: SessionState, bar: Bar) {
    var margin := cfg.confirmationMarginDtr * u.dtr;
    && s.currentVwap.Some?
    && s.retestHigh.Some? && s.retestLow.Some?
    && if u.side.Long?
       then bar.close >= s.retestHigh.value + cfg.tickSize && bar.close >= u.reference + margin
            && bar.close > s.currentVwap.value
       else bar.close <= s.retestLow.value - cfg.tickSize && bar.close <= u.reference - margin
            && bar.close < s.currentVwap.value
  }

  /** Stop, risk and target of a confirmed entry. */
  datatype Plan = Plan(stop: real, risk: real, target: real)

  function Share(rate: real, base: real): real {
    rate * base
  }

  function Above(price: real, distance: real): real {
    price + distance
  }

  function Below(price: real, distance: real): real {
    price - distance
  }

  /** The stop, a buffer past the structural extreme and rounded away from the price. */
  function StopFrom(cfg: RetestConfig, u: Setup, extreme: real): real
    requires cfg.tickSize > 0.0
  {
    var buffer := Share(cfg.stopBufferDtr, u.dtr);
    if u.side.Long? then RoundDown(cfg, Below(extreme, buffer)) else RoundUp(cfg, Above(extreme, buffer))
  }

  function TargetFrom(cfg: RetestConfig, side: PositionSide, close: real, risk: real): real
    requires cfg.tickSize > 0.0
  {
    var reward := Share(cfg.rewardR, risk);
    if side.Long? then RoundDown(cfg, Above(close, reward)) else RoundUp(cfg, Below(close, reward))
  }

  function PlanOf(cfg: RetestConfig, u: Setup, extreme: real, close: real): Plan
    requires cfg.tickSize > 0.0
  {
    var stop := StopFrom(cfg, u, extreme);
    var risk := if u.side.Long? then close - stop else stop - close;
    Plan(stop, risk, TargetFrom(cfg, u.side, close, risk))
  }

  /** Division as the code uses it: a zero divisor never reaches it. */
  function Over(a: real, b: real): real {
    if b == 0.0 then 0.0 else a / b
  }

  function Attempted(m: Memory, state: EntryState): Memory {
    m.(session := m.session.(entryAttempted := true, entryState := state))
  }

  function Waiting(m: Memory): Memory {
    m.(entryPending := true, entryPendingAge := 0)
  }

  function Reject(m: Memory, bar: Bar, risk: real, riskDtr: real): (Memory, StrategyResult) {
    var c := m.session.classification;
    (Noted(Attempted(m, Done), bar.timestamp, EntryRejected(risk, riskDtr)),
     StrategyResult(
       Some(SignalDecision(bar.timestamp, bar.symbol, Rejected, if c.Some? then c.value.side else None, RiskGeometry,
                           NO_METADATA.(geometry := Some(Geometry(risk, riskDtr, None, None, None, None))))),
       [], [], [], []))
  }

  function OrderMetadata(u: Setup, s: SessionState, bar: Bar, plan: Plan): Metadata {
    var c := s.classification;
    var reward := Abs(plan.target - bar.close);
    Metadata(Some(bar.close), Some(plan.stop), Some(plan.target),
             if c.Some? then c.value.referenceSide else None,
             if c.Some? then c.value.referenceType else None,
             Some(u.reference),
             Some(Geometry(plan.risk, Over(plan.risk, u.dtr), Some(reward), Some(Over(reward, plan.risk)),
                           Some(u.dtr), Some(s.confirmationBars))),
             if c.Some? then Some(c.value.regime) else None,
             if c.Some? then Some(c.value.reason) else None)
  }

  function BranchReason(s: SessionState): Reason {
    if s.classification.Some? && s.classification.value.regime.AcceptedBreak? then AcceptedBreakRetest
    else RejectedBreakRetest
  }

  function AcceptedOrder(cfg: RetestConfig, m: Memory, bar: Bar, plan: Plan): (Memory, StrategyResult) {
    var s := m.session;
    var u := SetupOf(s);
    var reason := BranchReason(s);
    var metadata := OrderMetadata(u, s, bar, plan);
    (Noted(Waiting(Attempted(m, EntryPending)), bar.timestamp, EntryConfirmed(reason, metadata)),
     StrategyResult(
       Some(SignalDecision(bar.timestamp, bar.symbol, Accepted, Some(u.side), reason, metadata)),
       [OrderIntent(bar.timestamp, bar.symbol, if u.side.Long? then Buy else Sell, cfg.contracts, reason, metadata)],
       [], [], []))
  }

  /** Another bar of waiting: the count, and the extreme the stop will hang on. */
  function Extended(m: Memory, bar: Bar): Memory {
    m.(session := m.session.(
      confirmationBars := m.session.confirmationBars + 1,
      structuralExtreme := if SetupOf(m.session).side.Long? then Sink(m.session.structuralExtreme, bar.low)
                           else Raise(m.session.structuralExtreme, bar.high)))
  }

  /** A confirmed entry, if its risk is within the band. */
  function Place(cfg: RetestConfig, m: Memory, bar: Bar): (Memory, StrategyResult)
    requires cfg.tickSize > 0.0
  {
    var u := SetupOf(m.session);
    var extreme := m.session.structuralExtreme;
    var plan := PlanOf(cfg, u, if extreme.Some? then extreme.value else 0.0, bar.close);
    var riskDtr := if u.dtr > 0.0 then plan.risk / u.dtr else 0.0;
    if cfg.minRiskDtr <= riskDtr <= cfg.maxRiskDtr then AcceptedOrder(cfg, m, bar, plan)
    else Reject(m, bar, plan.risk, riskDtr)
  }

  function Confirmation(cfg: RetestConfig, m: Memory, bar: Bar): (Memory, Option<StrategyResult>)
    requires cfg.tickSize > 0.0
  {
    var u := SetupOf(m.session);
    var seen := Extended(m, bar);
    if Invalidated(cfg, u, bar) then
      (Cancel(seen, bar, ArmedReferenceInvalidated, Some(u.reference), None, None), None)
    else if Confirmed(cfg, u, seen.session, bar) then
      var (next, result) := Place(cfg, seen, bar);
      (next, Some(result))
    else if seen.session.confirmationBars >= cfg.confirmationMaxBars then
      (Cancel(seen, bar, ConfirmationExpired, None, None, Some(seen.session.confirmationBars)), None)
    else (seen, None)
  }

  predicate Available(m: Memory) {
    && m.session.classification.Some?
    && !m.session.classification.value.regime.NoTrade?
    && m.positionSide.None?
    && !m.entryPending
    && !m.session.entryAttempted
  }

  /** The entry logic of a regular-hours bar. */
  function SeekEntry(cfg: RetestConfig, m: Memory, bar: Bar, minute: int): (Memory, Option<StrategyResult>)
    requires cfg.tickSize > 0.0
  {
    if !Available(m) then (m, None)
    else if ObservationEnd(cfg) <= minute < cfg.entryEnd then
      match m.session.entryState
      case WaitFirstRetest =>
        if minute >= cfg.entryEnd - 1 then (Cancel(m, bar, FirstRetestWindowExpired, None, None, None), None)
        else (FirstRetest(cfg, m, bar), None)
      case Armed => Confirmation(cfg, m, bar)
      case _ => (m, None)
    else if minute >= cfg.entryEnd && (m.session.entryState.WaitFirstRetest? || m.session.entryState.Armed?) then
      (Cancel(m, bar, EntryWindowExpired, None, None, None), None)
    else (m, None)
  }

  /** The bar's preamble: session change, time stamp, expiry and the time exit. */
  function OpenBar(cfg: RetestConfig, m: Memory, tick: Tick): (Memory, seq<ExitDecision>) {
    var started := if m.sessionDate != Some(tick.session.date) then StartSession(cfg, m, tick.session.date) else m;
    var stamped := started.(session := started.session.(lastTimestamp := tick.bar.timestamp));
    HardExit(cfg, ExpirePending(stamped, tick.bar.timestamp), tick.bar, tick.session.minute)
  }

  /** A regular-hours bar up to the entry logic: tracking, then the frozen classification. */
  function ObserveRth(cfg: RetestConfig, m: Memory, tick: Tick): Memory {
    var tracked := m.(session := TrackRth(cfg, m.session, tick.bar, tick.session.minute));
    if tracked.session.classification.None? && tick.session.minute >= ObservationEnd(cfg) - 1
    then FreezeClassification(cfg, tracked, tick.bar.timestamp) else tracked
  }

  function OnBar(cfg: RetestConfig, m: Memory, tick: Tick): (Memory, StrategyResult)
    requires cfg.tickSize > 0.0
  {
    var (awake, exits) := OpenBar(cfg, m, tick);
    if !tick.session.isRth then
      (awake.(session := TrackOvernight(awake.session, tick.bar, tick.session.minute)), NO_RESULT.(exits := exits))
    else
      var (next, order) := SeekEntry(cfg, ObserveRth(cfg, awake, tick), tick.bar, tick.session.minute);
      (next, if order.None? then NO_RESULT.(exits := exits)
             else StrategyResult(order.value.signal, order.value.orderIntents, [], [], exits))
  }

  /** The strategy as the drivers see it; it has no use for the session context. */
  function RetestStrategy(cfg: RetestConfig): Strategy<Memory>
    requires cfg.tickSize > 0.0
  {
    Strategy((m, fill) => OnFill(m, fill),
             (m, trade) => OnTradeClosed(m, trade),
             (m: Memory, pnl: real, hit: bool) => m,
             (m, tick) => OnBar(cfg, m, tick))
  }
}
