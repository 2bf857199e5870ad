/** The retest strategy's memory, reflected. */
module RetestMirror {
  import opened Prelude
  import opened Market
  import opened Mirror
  import opened RetestModel

  function Negate(x: real): real {
    -x
  }

  /** Where in its range a bar closed, seen upside down. */
  function Flip(location: Option<real>): Option<real> {
    if location.None? then None else Some(1.0 - location.value)
  }

  function MirrorRefOption(s: Option<RefSide>): Option<RefSide> {
    if s.None? then None else Some(MirrorRef(s.value))
  }

  function MirrorTypeOption(t: Option<RefType>): Option<RefType> {
    if t.None? then None else Some(MirrorRefType(t.value))
  }

  function MirrorClassification(c: Classification): Classification {
    Classification(c.regime, MirrorSideOption(c.side), MirrorWhy(c.reason), MirrorRefOption(c.referenceSide),
                   MirrorTypeOption(c.referenceType), Neg(c.referencePrice))
  }

  function MirrorReference(r: Reference): Reference {
    Reference(MirrorRefType(r.kind), -r.price)
  }

  function MirrorReferenceOption(r: Option<Reference>): Option<Reference> {
    if r.None? then None else Some(MirrorReference(r.value))
  }

  function MirrorVwapSide(s: VwapSide): VwapSide {
    match s
    case AboveVwap => BelowVwap
    case BelowVwap => AboveVwap
    case AtVwap => AtVwap
  }

  function MirrorFeatures(f: Features): Features {
    f.(openingCloses := Map(Negate, f.openingCloses),
       rthOpen := Neg(f.rthOpen),
       openingHigh := Neg(f.openingLow),
       openingLow := Neg(f.openingHigh),
       openingClose := Neg(f.openingClose),
       openingMidpoint := Neg(f.openingMidpoint),
       displacementDtr := Neg(f.displacementDtr),
       closeLocation := Flip(f.closeLocation),
       openingVwap := Neg(f.openingVwap),
       closesAboveVwap := f.closesBelowVwap,
       closesBelowVwap := f.closesAboveVwap,
       overnightHigh := Neg(f.overnightLow),
       overnightLow := Neg(f.overnightHigh),
       priorRthHigh := Neg(f.priorRthLow),
       priorRthLow := Neg(f.priorRthHigh),
       priorRthClose := Neg(f.priorRthClose))
  }

  function MirrorSnapshot(s: Snapshot): Snapshot {
    Snapshot(MirrorFeatures(s.features), MirrorClassification(s.classification))
  }

  function MirrorNote(n: Note): Note {
    match n
    case Classified(why, side, kind, price) =>
      Classified(MirrorWhy(why), MirrorRefOption(side), MirrorTypeOption(kind), Neg(price))
    case Filled(price, quantity, reason) => Filled(-price, quantity, reason)
    case TradeClosed(_, _, _, _) => n
    case Cancelled(what, level, location, bars) => Cancelled(what, Neg(level), Flip(location), bars)
    case EntryRejected(_, _) => n
    case EntryConfirmed(reason, metadata) => EntryConfirmed(reason, MirrorMetadata(metadata))
    case FirstRetestArmed(at, high, low, location) => FirstRetestArmed(-at, -low, -high, Flip(location))
    case TimeExitSignalled => n
    case EntryPendingExpired => n
  }

  function MirrorDiagnostic(d: Diagnostic): Diagnostic {
    d.(side := MirrorSideOption(d.side), note := MirrorNote(d.note))
  }

  function MirrorSession(s: SessionState): SessionState {
    s.(overnightHigh := Neg(s.overnightLow),
       overnightLow := Neg(s.overnightHigh),
       rthHigh := Neg(s.rthLow),
       rthLow := Neg(s.rthHigh),
       rthClose := Neg(s.rthClose),
       vwapPv := -s.vwapPv,
       currentVwap := Neg(s.currentVwap),
       openingCloses := Map(Negate, s.openingCloses),
       vwapSides := Map(MirrorVwapSide, s.vwapSides),
       rthOpen := Neg(s.rthOpen),
       openingHigh := Neg(s.openingLow),
       openingLow := Neg(s.openingHigh),
       openingClose := Neg(s.openingClose),
       classification := if s.classification.None? then None else Some(MirrorClassification(s.classification.value)),
       features := if s.features.None? then None else Some(MirrorFeatures(s.features.value)),
       retestHigh := Neg(s.retestLow),
       retestLow := Neg(s.retestHigh),
       structuralExtreme := Neg(s.structuralExtreme))
  }

  function MirrorMemory(m: Memory): Memory {
    m.(priorRthHigh := Neg(m.priorRthLow),
       priorRthLow := Neg(m.priorRthHigh),
       priorRthClose := Neg(m.priorRthClose),
       snapshots := Map(MirrorSnapshot, m.snapshots),
       diagnostics := Map(MirrorDiagnostic, m.diagnostics),
       positionSide := MirrorSideOption(m.positionSide),
       session := MirrorSession(m.session))
  }
}
