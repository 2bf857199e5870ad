/** Parsing the ledger back: every trade is paired with the very intent that opened it. */
module Attribution {
  import opened Prelude
  import opened Market
  import opened Events
  import opened MicroSteps

  datatype RetestEntry = RetestEntry(
    entryTimestamp: Timestamp,
    symbol: Symbol,
    side: PositionSide,
    quantity: int,
    fillPrice: real,
    entryReason: Reason,
    signalTimestamp: Timestamp,
    signalPrice: real,
    stopPrice: real,
    targetPrice: real,
    referenceSide: Option<RefSide>,
    referenceType: Option<RefType>,
    referencePrice: real)

  datatype AttributedTrade = AttributedTrade(trade: Trade, entry: RetestEntry)

  datatype AttributionError =
    | OverlappingIntents | MissingMetadata | FillWithoutIntent | FillMismatch | FillQuantityMismatch
    | DuplicateEntry | TradeWithoutEntry | TradeQuantityMismatch | EntryPriceMismatch | StopMismatch
    | EntriesWithoutTrades

  datatype Result<+T> = Ok(value: T) | Err(error: AttributionError)

  /** The metadata the parser converts to numbers; a missing one raises. */
  predicate FullMetadata(m: Metadata) {
    m.signalPrice.Some? && m.stopPrice.Some? && m.targetPrice.Some? && m.referencePrice.Some?
  }

  /** An intent that waits for its fill, with the time of the record that holds it. */
  datatype Signalled = Signalled(timestamp: Timestamp, intent: OrderIntent)

  function EntryOf(signalled: Signalled, timestamp: Timestamp, fill: Fill): RetestEntry
    requires FullMetadata(signalled.intent.metadata)
  {
    var m := signalled.intent.metadata;
    RetestEntry(timestamp, fill.symbol, SideOfEntry(fill.side), fill.quantity, fill.price, fill.reason,
                signalled.timestamp, m.signalPrice.value, m.stopPrice.value, m.targetPrice.value,
                m.referenceSide, m.referenceType, m.referencePrice.value)
  }

  /** The parser's loop variables. */
  datatype Parse = Parse(pending: Option<Signalled>, entries: seq<RetestEntry>)

  predicate ParseSound(p: Parse) {
    p.pending.Some? ==> FullMetadata(p.pending.value.intent.metadata)
  }

  function ParseRecord(p: Parse, record: EventRecord): (r: Result<Parse>)
    requires ParseSound(p)
    ensures r.Ok? ==> ParseSound(r.value)
  {
    match record
    case IntentRecord(timestamp, intent) =>
      if !EntryReason(intent.reason) then Ok(p)
      else if p.pending.Some? then Err(OverlappingIntents)
      else if !FullMetadata(intent.metadata) then Err(MissingMetadata)
      else Ok(p.(pending := Some(Signalled(timestamp, intent))))
    case TransitionRecord(_, t) =>
      if p.pending.Some? && (t.EntryInvalidated? || t.EntryMissed? || t.PendingOrdersCancelled?)
      then Ok(p.(pending := None))
      else Ok(p)
    case FillRecord(timestamp, fill) =>
      if !EntryReason(fill.reason) then Ok(p)
      else if p.pending.None? then Err(FillWithoutIntent)
      else if SideOfEntry(fill.side) != SideOfEntry(p.pending.value.intent.side)
              || fill.symbol != p.pending.value.intent.symbol
      then Err(FillMismatch)
      else if fill.quantity != p.pending.value.intent.quantity then Err(FillQuantityMismatch)
      else Ok(Parse(None, p.entries + [EntryOf(p.pending.value, timestamp, fill)]))
    case _ => Ok(p)
  }

  function ParseLedger(ledger: seq<EventRecord>): (r: Result<Parse>)
    ensures r.Ok? ==> ParseSound(r.value)
    decreases |ledger|
  {
    if |ledger| == 0 then Ok(Parse(None, []))
    else
      var before := ParseLedger(ledger[..|ledger| - 1]);
      if before.Err? then before else ParseRecord(before.value, ledger[|ledger| - 1])
  }

  type Key = (Timestamp, Symbol, PositionSide)

  function EntryKey(e: RetestEntry): Key {
    (e.entryTimestamp, e.symbol, e.side)
  }

  function TradeKey(t: Trade): Key {
    (t.entryTimestamp, t.symbol, t.side)
  }

  /** The parser's loop over the ledger. */
  method EntryAttributions(ledger: seq<EventRecord>) returns (r: Result<seq<RetestEntry>>)
    ensures r == (match ParseLedger(ledger) case Ok(p) => Ok(p.entries) case Err(e) => Err(e))
  {
    var parse := Parse(None, []);
    for i := 0 to |ledger|
      invariant ParseSound(parse)
      invariant ParseLedger(ledger[..i]) == Ok(parse)
    {
      assert ledger[..i + 1][..i] == ledger[..i];
      match ParseRecord(parse, ledger[i])
      case Ok(next) => parse := next;
      case Err(e) =>
        ParseErrorSticks(ledger, i + 1);
        return Err(e);
    }
    assert ledger[..|ledger|] == ledger;
    return Ok(parse.entries);
  }

  lemma {:induction false} ParseErrorSticks(ledger: seq<EventRecord>, k: nat)
    requires k <= |ledger|
    requires ParseLedger(ledger[..k]).Err?
    ensures ParseLedger(ledger) == ParseLedger(ledger[..k])
    decreases |ledger|
  {
    if k == |ledger| {
      assert ledger[..k] == ledger;
    } else {
      var shorter := ledger[..|ledger| - 1];
      assert shorter[..k] == ledger[..k];
      ParseErrorSticks(shorter, k);
    }
  }

  /** Trades and entries pair off one to one, in order, field by field. */
  predicate PairsOff(trades: seq<Trade>, entries: seq<RetestEntry>) {
    && |trades| == |entries|
    && (forall i :: 0 <= i < |trades| ==>
          && TradeKey(trades[i]) == EntryKey(entries[i])
          && trades[i].quantity == entries[i].quantity
          && trades[i].entryPrice == entries[i].fillPrice
          && trades[i].stopPrice == entries[i].stopPrice)
  }

  predicate DistinctEntries(trades: seq<Trade>) {
    forall i, j :: 0 <= i < j < |trades| ==> trades[i].entryTimestamp != trades[j].entryTimestamp
  }

  function Paired(trades: seq<Trade>, entries: seq<RetestEntry>): seq<AttributedTrade>
    requires |trades| == |entries|
  {
    seq(|trades|, i requires 0 <= i < |trades| => AttributedTrade(trades[i], entries[i]))
  }

  /** No two entries have a key in common. */
  predicate DistinctEntryKeys(entries: seq<RetestEntry>) {
    forall i, j :: 0 <= i < j < |entries| ==> EntryKey(entries[i]) != EntryKey(entries[j])
  }

  /** Every entry is under its own key, and nothing else is there. */
  predicate Indexes(index: map<Key, RetestEntry>, entries: seq<RetestEntry>) {
    && DistinctEntryKeys(entries)
    && (forall i :: 0 <= i < |entries| ==> EntryKey(entries[i]) in index && index[EntryKey(entries[i])] == entries[i])
    && (forall k :: k in index ==> exists i :: 0 <= i < |entries| && EntryKey(entries[i]) == k)
  }

  /** The keyed dictionary built from entries, or the duplicate that stops it. */
  method IndexEntries(entries: seq<RetestEntry>) returns (r: Result<map<Key, RetestEntry>>)
    ensures r.Ok? <==> DistinctEntryKeys(entries)
    ensures r.Err? ==> r.error == DuplicateEntry
    ensures r.Ok? ==> Indexes(r.value, entries)
  {
    var index: map<Key, RetestEntry> := map[];
    for n := 0 to |entries|
      invariant forall i, j :: 0 <= i < j < n ==> EntryKey(entries[i]) != EntryKey(entries[j])
      invariant forall i :: 0 <= i < n ==> EntryKey(entries[i]) in index && index[EntryKey(entries[i])] == entries[i]
      invariant forall k :: k in index ==> exists i :: 0 <= i < n && EntryKey(entries[i]) == k
    {
      if EntryKey(entries[n]) in index {
        return Err(DuplicateEntry);
      }
      index := index[EntryKey(entries[n]) := entries[n]];
    }
    return Ok(index);
  }

  /** One trade's checks against the entry under its key, in the order the parser makes them. */
  function CheckTrade(trade: Trade, open: map<Key, RetestEntry>): (r: Result<AttributedTrade>)
    ensures r.Ok? ==> TradeKey(trade) in open && r.value == AttributedTrade(trade, open[TradeKey(trade)])
    ensures r.Ok? && EntryKey(open[TradeKey(trade)]) == TradeKey(trade) ==> Matches(trade, open[TradeKey(trade)])
    ensures TradeKey(trade) in open && Matches(trade, open[TradeKey(trade)]) ==> r.Ok?
  {
    var key := TradeKey(trade);
    if key !in open then Err(TradeWithoutEntry)
    else if trade.quantity != open[key].quantity then Err(TradeQuantityMismatch)
    else if trade.entryPrice != open[key].fillPrice then Err(EntryPriceMismatch)
    else if trade.stopPrice != open[key].stopPrice then Err(StopMismatch)
    else Ok(AttributedTrade(trade, open[key]))
  }

  /** Popping the entries trade by trade. */
  function PopAll(trades: seq<Trade>,
                  index: map<Key, RetestEntry>): Result<(seq<AttributedTrade>, map<Key, RetestEntry>)>
    decreases |trades|
  {
    if |trades| == 0 then Ok(([], index))
    else
      match PopAll(trades[..|trades| - 1], index)
      case Err(e) => Err(e)
      case Ok((attributed, open)) =>
        match CheckTrade(trades[|trades| - 1], open)
        case Err(e) => Err(e)
        case Ok(a) => Ok((attributed + [a], open - {TradeKey(trades[|trades| - 1])}))
  }

  /** No two trades have a key in common. */
  predicate DistinctTradeKeys(trades: seq<Trade>) {
    forall i, j :: 0 <= i < j < |trades| ==> TradeKey(trades[i]) != TradeKey(trades[j])
  }

  predicate Owned(trade: Trade, entries: seq<RetestEntry>) {
    exists e :: e in entries && Matches(trade, e)
  }

  /** Every trade can pop an entry of its own. */
  predicate Poppable(trades: seq<Trade>, entries: seq<RetestEntry>) {
    DistinctTradeKeys(trades) && forall i :: 0 <= i < |trades| ==> Owned(trades[i], entries)
  }

  /** As many trades as entries, each key once on either side, and a matching entry under each trade's key. */
  predicate Attributable(trades: seq<Trade>, entries: seq<RetestEntry>) {
    |trades| == |entries| && DistinctEntryKeys(entries) && Poppable(trades, entries)
  }

  /** Trade by trade, in the order of the trades, the entry that matches it. */
  predicate Attributed(trades: seq<Trade>, entries: seq<RetestEntry>, attributed: seq<AttributedTrade>) {
    && |attributed| == |trades|
    && (forall i :: 0 <= i < |trades| ==>
          attributed[i].trade == trades[i] && attributed[i].entry in entries && Matches(trades[i], attributed[i].entry))
  }

  /** The attribution: parse the ledger, index the entries, pop one per trade, and leave none over. */
  method AttributeRetestTrades(trades: seq<Trade>, ledger: seq<EventRecord>) returns (r: Result<seq<AttributedTrade>>)
    ensures r.Ok? <==> ParseLedger(ledger).Ok? && Attributable(trades, ParseLedger(ledger).value.entries)
    ensures r.Ok? ==> Attributed(trades, ParseLedger(ledger).value.entries, r.value)
    ensures ParseLedger(ledger).Err? ==> r == Err(ParseLedger(ledger).error)
    ensures ParseLedger(ledger).Ok? ==>
      var entries := ParseLedger(ledger).value.entries;
      && (!DistinctEntryKeys(entries) ==> r == Err(DuplicateEntry))
      && (DistinctEntryKeys(entries) && Poppable(trades, entries) && |trades| != |entries|
          ==> r == Err(EntriesWithoutTrades))
  {
    hide Poppable, Attributed, ParseLedger, DistinctEntryKeys, PopAll, KeysOf;
    var parsed := EntryAttributions(ledger);
    if parsed.Err? {
      return Err(parsed.error);
    }
    var entries := parsed.value;
    var indexed := IndexEntries(entries);
    if indexed.Err? {
      return Err(indexed.error);
    }
    var popped := PopEntries(trades, indexed.value);
    Pops(trades, entries, indexed.value);
    IndexSize(entries, indexed.value);
    match popped
    case Err(e) => return Err(e);
    case Ok((attributed, open)) =>
      if open != map[] {
        return Err(EntriesWithoutTrades);
      }
      return Ok(attributed);
  }

  /** The loop over the trades. */
  method PopEntries(trades: seq<Trade>, index: map<Key, RetestEntry>)
    returns (r: Result<(seq<AttributedTrade>, map<Key, RetestEntry>)>)
    ensures r == PopAll(trades, index)
  {
    hide CheckTrade;
    var open := index;
    var attributed: seq<AttributedTrade> := [];
    for n := 0 to |trades|
      invariant PopAll(trades[..n], index) == Ok((attributed, open))
    {
      assert trades[..n + 1][..n] == trades[..n];
      match CheckTrade(trades[n], open)
      case Err(e) =>
        PopErrorSticks(trades, index, n + 1);
        return Err(e);
      case Ok(a) =>
        attributed := attributed + [a];
        open := open - {TradeKey(trades[n])};
    }
    assert trades[..|trades|] == trades;
    return Ok((attributed, open));
  }

  /** Trades that pair off with the entries in order are attributed in that order. */
  lemma {:induction false} PairsOffInOrder(trades: seq<Trade>, entries: seq<RetestEntry>)
    requires PairsOff(trades, entries) && DistinctEntries(trades)
    ensures Attributable(trades, entries)
    ensures forall attributed: seq<AttributedTrade> ::
      Attributed(trades, entries, attributed) ==> attributed == Paired(trades, entries)
  {
    assert forall i :: 0 <= i < |trades| ==> entries[i] in entries && Matches(trades[i], entries[i]);
    forall i, j | 0 <= i < j < |entries|
      ensures EntryKey(entries[i]) != EntryKey(entries[j])
    {
      assert TradeKey(trades[i]) == EntryKey(entries[i]) && TradeKey(trades[j]) == EntryKey(entries[j]);
    }
    forall attributed: seq<AttributedTrade> | Attributed(trades, entries, attributed)
      ensures attributed == Paired(trades, entries)
    {
      forall i | 0 <= i < |trades|
        ensures attributed[i] == Paired(trades, entries)[i]
      {
        var j :| 0 <= j < |entries| && entries[j] == attributed[i].entry;
        assert EntryKey(entries[j]) == TradeKey(trades[i]) == EntryKey(entries[i]);
      }
    }
  }

  lemma {:induction false} PopErrorSticks(trades: seq<Trade>, index: map<Key, RetestEntry>, k: nat)
    requires k <= |trades|
    requires PopAll(trades[..k], index).Err?
    ensures PopAll(trades, index) == PopAll(trades[..k], index)
    decreases |trades|
  {
    if k == |trades| {
      assert trades[..k] == trades;
    } else {
      var shorter := trades[..|trades| - 1];
      assert shorter[..k] == trades[..k];
      PopErrorSticks(shorter, index, k);
    }
  }

  function KeysOf(trades: seq<Trade>): set<Key> {
    set i | 0 <= i < |trades| :: TradeKey(trades[i])
  }

  /**
   * Popping succeeds if and only if every trade has an entry of its own, and then takes just those entries out.
   */
  lemma {:induction false} Pops(trades: seq<Trade>, entries: seq<RetestEntry>, index: map<Key, RetestEntry>)
    requires Indexes(index, entries)
    ensures PopAll(trades, index).Ok? <==> Poppable(trades, entries)
    ensures PopAll(trades, index).Ok? ==>
      var (attributed, open) := PopAll(trades, index).value;
      && Attributed(trades, entries, attributed)
      && open == index - KeysOf(trades)
      && |open| + |trades| == |index|
    decreases |trades|
  {
    hide CheckTrade, Indexes, Attributed, Poppable, KeysOf;
    if |trades| == 0 {
      NothingPopped(entries, index);
    } else {
      var before, last := trades[..|trades| - 1], trades[|trades| - 1];
      Pops(before, entries, index);
      assert trades == before + [last];
      PoppableNext(before, last, entries);
      if PopAll(before, index).Ok? {
        ChecksIffOwned(before, last, entries, index);
        if CheckTrade(last, index - KeysOf(before)).Ok? {
          PopsNext(before, last, entries, index);
        }
      }
    }
  }

  lemma {:induction false} NothingPopped(entries: seq<RetestEntry>, index: map<Key, RetestEntry>)
    ensures Poppable([], entries) && Attributed([], entries, []) && index == index - KeysOf([])
  {
  }

  lemma {:induction false} PoppableNext(trades: seq<Trade>, trade: Trade, entries: seq<RetestEntry>)
    ensures Poppable(trades + [trade], entries) <==>
      Poppable(trades, entries) && TradeKey(trade) !in KeysOf(trades) && Owned(trade, entries)
  {
    hide Owned, TradeKey;
    var more := trades + [trade];
    assert more[|trades|] == trade && forall i :: 0 <= i < |trades| ==> more[i] == trades[i];
    if Poppable(more, entries) {
      assert forall i :: 0 <= i < |trades| ==> TradeKey(trades[i]) == TradeKey(more[i]) != TradeKey(more[|trades|]);
    }
    if TradeKey(trade) !in KeysOf(trades) {
      assert forall i :: 0 <= i < |trades| ==> TradeKey(more[i]) in KeysOf(trades);
    }
  }

  lemma {:induction false} ChecksIffOwned(trades: seq<Trade>, trade: Trade, entries: seq<RetestEntry>,
                                          index: map<Key, RetestEntry>)
    requires Indexes(index, entries)
    ensures
      CheckTrade(trade, index - KeysOf(trades)).Ok? <==> TradeKey(trade) !in KeysOf(trades) && Owned(trade, entries)
  {
    hide KeysOf;
    var key := TradeKey(trade);
    IndexedUnderOwnKey(entries, index, key);
    if Owned(trade, entries) {
      var e :| e in entries && Matches(trade, e);
      assert index[key] == e;
    }
  }

  lemma {:induction false} PopsNext(trades: seq<Trade>, trade: Trade, entries: seq<RetestEntry>,
                                    index: map<Key, RetestEntry>)
    requires Indexes(index, entries)
    requires PopAll(trades, index).Ok? && PopAll(trades, index).value.1 == index - KeysOf(trades)
    requires |index - KeysOf(trades)| + |trades| == |index|
    requires Attributed(trades, entries, PopAll(trades, index).value.0)
    requires CheckTrade(trade, index - KeysOf(trades)).Ok?
    ensures
      var next := PopAll(trades + [trade], index);
      && next.Ok?
      && Attributed(trades + [trade], entries, next.value.0)
      && next.value.1 == index - KeysOf(trades + [trade])
      && |next.value.1| + |trades| + 1 == |index|
  {
    hide CheckTrade, TradeKey, EntryKey, Indexes, KeysOf, Matches, PopAll;
    PopOne(trades, trade, index);
    IndexedUnderOwnKey(entries, index, TradeKey(trade));
    RemovalShrinks(index - KeysOf(trades), TradeKey(trade));
    RemovalsAdd(index, KeysOf(trades), TradeKey(trade));
    KeysGrow(trades, trade);
  }

  lemma {:induction false} PopOne(trades: seq<Trade>, trade: Trade, index: map<Key, RetestEntry>)
    requires PopAll(trades, index).Ok?
    requires CheckTrade(trade, PopAll(trades, index).value.1).Ok?
    ensures
      var (attributed, open) := PopAll(trades, index).value;
      var next := PopAll(trades + [trade], index);
      && next.Ok?
      && next.value.0 == attributed + [CheckTrade(trade, open).value]
      && next.value.1 == open - {TradeKey(trade)}
  {
    hide CheckTrade, TradeKey;
    assert (trades + [trade])[..|trades|] == trades;
  }

  lemma {:induction false} KeysGrow(trades: seq<Trade>, trade: Trade)
    ensures KeysOf(trades + [trade]) == KeysOf(trades) + {TradeKey(trade)}
  {
    hide TradeKey;
    var more := trades + [trade];
    assert more[|trades|] == trade && forall i :: 0 <= i < |trades| ==> more[i] == trades[i];
    forall k | k in KeysOf(more)
      ensures k in KeysOf(trades) + {TradeKey(trade)}
    {
      var i :| 0 <= i < |more| && TradeKey(more[i]) == k;
      if i < |trades| {
        assert TradeKey(trades[i]) == k;
      }
    }
    forall k | k in KeysOf(trades)
      ensures k in KeysOf(more)
    {
      var i :| 0 <= i < |trades| && TradeKey(trades[i]) == k;
      assert TradeKey(more[i]) == k;
    }
  }

  lemma {:induction false} IndexedUnderOwnKey(entries: seq<RetestEntry>, index: map<Key, RetestEntry>, k: Key)
    requires Indexes(index, entries)
    ensures k in index ==> index[k] in entries && EntryKey(index[k]) == k
  {
    if k in index {
      var i :| 0 <= i < |entries| && EntryKey(entries[i]) == k;
    }
  }

  lemma {:induction false} RemovalsAdd<K, V>(m: map<K, V>, ks: set<K>, k: K)
    ensures (m - ks) - {k} == m - (ks + {k})
  {
    assert ((m - ks) - {k}).Keys == (m - (ks + {k})).Keys;
  }

  lemma {:induction false} RemovalShrinks<K, V>(m: map<K, V>, k: K)
    requires k in m
    ensures |m - {k}| == |m| - 1
  {
    assert (m - {k}).Keys == m.Keys - {k};
    assert |m.Keys| == |m| && |(m - {k}).Keys| == |m - {k}|;
  }

  lemma {:induction false} IndexSize(entries: seq<RetestEntry>, index: map<Key, RetestEntry>)
    requires Indexes(index, entries)
    ensures |index| == |entries|
    decreases |entries|
  {
    if |entries| == 0 {
      assert forall k :: k !in index;
    } else {
      var last := EntryKey(entries[|entries| - 1]);
      var shorter := entries[..|entries| - 1];
      var rest := index - {last};
      forall k | k in rest
        ensures exists i :: 0 <= i < |shorter| && EntryKey(shorter[i]) == k
      {
        var i :| 0 <= i < |entries| && EntryKey(entries[i]) == k;
        assert shorter[i] == entries[i];
      }
      IndexSize(shorter, rest);
      RemovalShrinks(index, last);
    }
  }

  // ---- What engine runs write ----

  /** Intents carry the retest reasons and metadata, and no exit borrows an entry's reason. */
  predicate RetestResult(result: StrategyResult) {
    && (forall i :: 0 <= i < |result.orderIntents| ==>
          EntryReason(result.orderIntents[i].reason) && FullMetadata(result.orderIntents[i].metadata))
    && (forall i :: 0 <= i < |result.exits| ==> !EntryReason(result.exits[i].reason))
  }

  /** The same demands on one micro-step. */
  predicate RetestStep(m: Micro) {
    match m
    case Accept(intent) => EntryReason(intent.reason) && FullMetadata(intent.metadata)
    case CloseAt(exit, _) => !EntryReason(exit.reason)
    case _ => true
  }

  /** The entry the engine's own history implies for a filled intent and the position it opened. */
  predicate Opens(intent: OrderIntent, entry: RetestEntry) {
    && FullMetadata(intent.metadata)
    && entry.symbol == intent.symbol
    && entry.side == SideOfEntry(intent.side)
    && entry.quantity == intent.quantity
    && entry.entryReason == intent.reason
    && entry.signalTimestamp == intent.timestamp
    && Some(entry.signalPrice) == intent.metadata.signalPrice
    && Some(entry.stopPrice) == intent.metadata.stopPrice
    && Some(entry.targetPrice) == intent.metadata.targetPrice
    && entry.referenceSide == intent.metadata.referenceSide
    && entry.referenceType == intent.metadata.referenceType
    && Some(entry.referencePrice) == intent.metadata.referencePrice
  }

  predicate Matches(trade: Trade, entry: RetestEntry) {
    && TradeKey(trade) == EntryKey(entry)
    && trade.quantity == entry.quantity
    && trade.entryPrice == entry.fillPrice
    && trade.stopPrice == entry.stopPrice
  }

  predicate Exposes(e: Exposure, entry: RetestEntry) {
    && (e.entryTimestamp, e.symbol, e.side) == EntryKey(entry)
    && e.quantity == entry.quantity
    && e.entryPrice == entry.fillPrice
    && e.stopPrice == entry.stopPrice
  }

  /** The engine logs an intent at the intent's own time. */
  function SignalledAtIts(pending: Option<OrderIntent>): Option<Signalled> {
    if pending.None? then None else Some(Signalled(pending.value.timestamp, pending.value))
  }

  /** The parse so far mirrors the engine: one entry per fill, one trade per entry, save an open one. */
  predicate Mirrors(v: View) {
    var parsed := ParseLedger(v.ledger);
    && parsed.Ok?
    && parsed.value.pending == SignalledAtIts(v.pending)
    && (v.pending.Some? ==> EntryReason(v.pending.value.reason))
    && |parsed.value.entries| == |v.filled|
    && |v.filled| == |v.trades| + (if v.exposure.Some? then 1 else 0)
    && (forall i :: 0 <= i < |v.filled| ==> Opens(v.filled[i], parsed.value.entries[i]))
    && (forall i :: 0 <= i < |v.trades| ==> Matches(v.trades[i], parsed.value.entries[i]))
    && (v.exposure.Some? ==> Exposes(v.exposure.value, parsed.value.entries[|v.trades|]))
  }

  lemma {:induction false} ParseOne(ledger: seq<EventRecord>, record: EventRecord)
    ensures ParseLedger(ledger + [record]) ==
      if ParseLedger(ledger).Err? then ParseLedger(ledger) else ParseRecord(ParseLedger(ledger).value, record)
  {
    assert (ledger + [record])[..|ledger|] == ledger;
  }

  lemma {:induction false} QuietMirrors(v: View, record: EventRecord, w: View)
    requires Mirrors(v)
    requires !record.IntentRecord? && !record.FillRecord?
    requires w == v.(ledger := v.ledger + [record], pending := w.pending)
    requires record.TransitionRecord? && (record.transition.EntryInvalidated? || record.transition.EntryMissed?
                                          || record.transition.PendingOrdersCancelled?)
             ==> w.pending.None?
    requires !(record.TransitionRecord? && (record.transition.EntryInvalidated? || record.transition.EntryMissed?
                                            || record.transition.PendingOrdersCancelled?))
             ==> w.pending == v.pending
    ensures Mirrors(w)
  {
    hide ParseLedger;
    ParseOne(v.ledger, record);
  }

  lemma {:induction false} AcceptMirrors(v: View, m: Micro)
    requires Mirrors(v) && Enabled(v, m) && RetestStep(m) && m.Accept?
    ensures Mirrors(Take(v, m))
  {
    hide ParseLedger;
    ParseOne(v.ledger, IntentRecord(m.intent.timestamp, m.intent));
  }

  lemma {:induction false} OpenMirrors(v: View, m: Micro)
    requires Mirrors(v) && Enabled(v, m) && m.OpenAt?
    ensures Mirrors(Take(v, m))
  {
    hide ParseLedger;
    var fill := FillRecord(m.entry.timestamp, m.entry);
    ParseOne(v.ledger, fill);
    ParseOne(v.ledger + [fill], StopRecord(m.entry.timestamp, m.entry.symbol, m.stop, "initial_stop", true));
  }

  lemma {:induction false} CloseMirrors(v: View, m: Micro)
    requires Mirrors(v) && Enabled(v, m) && RetestStep(m) && m.CloseAt?
    ensures Mirrors(Take(v, m))
  {
    hide ParseLedger;
    var fill := FillRecord(m.exit.timestamp, m.exit);
    ParseOne(v.ledger, fill);
    ParseOne(v.ledger + [fill], TradeRecord(m.exit.timestamp, m.trade));
  }

  lemma {:induction false} StepMirrors(v: View, m: Micro)
    requires Mirrors(v) && Enabled(v, m) && RetestStep(m)
    ensures Mirrors(Take(v, m))
  {
    hide Mirrors;
    match m
    case LogNeutral(record) => QuietMirrors(v, record, Take(v, m));
    case CancelOrders(timestamp, reason) =>
      QuietMirrors(v, TransitionRecord(timestamp, PendingOrdersCancelled(reason)), Take(v, m));
    case Drop(timestamp, t) => QuietMirrors(v, TransitionRecord(timestamp, t), Take(v, m));
    case Accept(_) => AcceptMirrors(v, m);
    case OpenAt(_, _, _) => OpenMirrors(v, m);
    case CloseAt(_, _) => CloseMirrors(v, m);
  }

  lemma {:induction false} StepsMirror(v: View, ms: seq<Micro>)
    requires Mirrors(v) && AllEnabled(v, ms)
    requires forall i :: 0 <= i < |ms| ==> RetestStep(ms[i])
    ensures Mirrors(TakeAll(v, ms))
    decreases |ms|
  {
    if |ms| == 0 {
    } else {
      StepsMirror(v, ms[..|ms| - 1]);
      StepMirrors(TakeAll(v, ms[..|ms| - 1]), ms[|ms| - 1]);
    }
  }
}
