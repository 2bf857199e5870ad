/** Which ledgers the attribution can parse, told record by record, and what it reads out of them. */
module LedgerParsing {
  import opened Prelude
  import opened Market
  import opened Events
  import opened Attribution

  predicate RetestIntent(record: EventRecord) {
    record.IntentRecord? && (record.intent.reason.AcceptedBreakRetest? || record.intent.reason.RejectedBreakRetest?)
  }

  predicate RetestFill(record: EventRecord) {
    record.FillRecord? && (record.fill.reason.AcceptedBreakRetest? || record.fill.reason.RejectedBreakRetest?)
  }

  /** A record after which no earlier intent waits any longer. */
  predicate Drops(record: EventRecord) {
    record.TransitionRecord?
    && (record.transition.EntryInvalidated? || record.transition.EntryMissed?
        || record.transition.PendingOrdersCancelled?)
  }

  /** Intent j still waits when record i comes. */
  predicate WaitsAt(ledger: seq<EventRecord>, j: int, i: int) {
    && 0 <= j < i <= |ledger| && RetestIntent(ledger[j])
    && forall k :: j < k < i ==> !RetestFill(ledger[k]) && !Drops(ledger[k])
  }

  /** The fill is of that intent: its symbol, its direction, its size. */
  predicate Fits(asked: EventRecord, done: EventRecord) {
    && asked.IntentRecord? && done.FillRecord?
    && done.fill.symbol == asked.intent.symbol && done.fill.quantity == asked.intent.quantity
    && (done.fill.side.Buy? <==> asked.intent.side.Buy?)
  }

  predicate Priced(m: Metadata) {
    m.signalPrice.Some? && m.stopPrice.Some? && m.targetPrice.Some? && m.referencePrice.Some?
  }

  /** Record i can be read: an intent only when none waits, a fill only for the one that does. */
  predicate Readable(ledger: seq<EventRecord>, i: int)
    requires 0 <= i < |ledger|
  {
    && (RetestIntent(ledger[i]) ==>
          Priced(ledger[i].intent.metadata) && forall j :: 0 <= j < i ==> !WaitsAt(ledger, j, i))
    && (RetestFill(ledger[i]) ==>
          exists j :: 0 <= j < i && WaitsAt(ledger, j, i) && Fits(ledger[j], ledger[i]))
  }

  predicate AllReadable(ledger: seq<EventRecord>) {
    forall i :: 0 <= i < |ledger| ==> Readable(ledger, i)
  }

  /** The entry made by intent record j and fill record i. */
  predicate EntryFrom(ledger: seq<EventRecord>, j: int, i: int, e: RetestEntry) {
    && 0 <= j < |ledger| && 0 <= i < |ledger| && ledger[j].IntentRecord? && ledger[i].FillRecord?
    && var fill, m := ledger[i].fill, ledger[j].intent.metadata;
    && e.entryTimestamp == ledger[i].timestamp && e.symbol == fill.symbol && e.quantity == fill.quantity
    && e.side == (if fill.side.Buy? then Long else Short)
    && e.fillPrice == fill.price && e.entryReason == fill.reason && e.signalTimestamp == ledger[j].timestamp
    && m.signalPrice == Some(e.signalPrice) && m.stopPrice == Some(e.stopPrice)
    && m.targetPrice == Some(e.targetPrice) && m.referencePrice == Some(e.referencePrice)
    && e.referenceSide == m.referenceSide && e.referenceType == m.referenceType
  }

  /** The fills of the ledger, as the positions of their records. */
  function FillsAt(ledger: seq<EventRecord>): (at: seq<int>)
    ensures forall n :: 0 <= n < |at| ==> 0 <= at[n] < |ledger| && RetestFill(ledger[at[n]])
    decreases |ledger|
  {
    if |ledger| == 0 then []
    else
      var n := |ledger| - 1;
      FillsAt(ledger[..n]) + if RetestFill(ledger[n]) then [n] else []
  }

  /** The entry is that of fill record i and the intent that waited for it. */
  ghost predicate ReadAt(ledger: seq<EventRecord>, i: int, e: RetestEntry) {
    exists j :: WaitsAt(ledger, j, i) && EntryFrom(ledger, j, i, e)
  }

  /** One entry for each fill, in order. */
  ghost predicate Reads(ledger: seq<EventRecord>, entries: seq<RetestEntry>) {
    && |entries| == |FillsAt(ledger)|
    && forall n :: 0 <= n < |entries| ==> ReadAt(ledger, FillsAt(ledger)[n], entries[n])
  }

  /** What the parser has pending is the one intent that waits. */
  predicate Pends(ledger: seq<EventRecord>, p: Parse) {
    match p.pending
    case None => forall j :: 0 <= j < |ledger| ==> !WaitsAt(ledger, j, |ledger|)
    case Some(s) =>
      exists j :: 0 <= j < |ledger| && WaitsAt(ledger, j, |ledger|) && ledger[j] == IntentRecord(s.timestamp, s.intent)
                  && forall k :: 0 <= k < |ledger| && WaitsAt(ledger, k, |ledger|) ==> k == j
  }

  lemma {:induction false} WaitsOn(ledger: seq<EventRecord>, record: EventRecord, j: int)
    requires 0 <= j < |ledger|
    ensures forall i :: i <= |ledger| ==> WaitsAt(ledger + [record], j, i) == WaitsAt(ledger, j, i)
    ensures WaitsAt(ledger + [record], j, |ledger + [record]|)
            <==> WaitsAt(ledger, j, |ledger|) && !RetestFill(record) && !Drops(record)
  {
    hide RetestIntent, RetestFill, Drops;
    var more := ledger + [record];
    assert more[|ledger|] == record;
    assert forall k :: 0 <= k < |ledger| ==> more[k] == ledger[k];
  }

  lemma {:induction false} WaitsFromNow(ledger: seq<EventRecord>, record: EventRecord)
    ensures WaitsAt(ledger + [record], |ledger|, |ledger + [record]|) <==> RetestIntent(record)
  {
    assert (ledger + [record])[|ledger|] == record;
  }

  lemma {:induction false} ReadableAlike(ledger: seq<EventRecord>, record: EventRecord, i: int)
    requires 0 <= i < |ledger|
    ensures Readable(ledger + [record], i) == Readable(ledger, i)
  {
    hide RetestIntent, RetestFill, Drops, WaitsAt;
    var more := ledger + [record];
    assert more[i] == ledger[i];
    forall j | 0 <= j < i
      ensures WaitsAt(more, j, i) == WaitsAt(ledger, j, i) && more[j] == ledger[j]
    {
      WaitsOn(ledger, record, j);
    }
    if RetestFill(ledger[i]) && Readable(ledger, i) {
      var j :| 0 <= j < i && WaitsAt(ledger, j, i) && Fits(ledger[j], ledger[i]);
      assert WaitsAt(more, j, i) && Fits(more[j], more[i]);
    }
  }

  lemma {:induction false} AllReadableNext(ledger: seq<EventRecord>, record: EventRecord)
    ensures AllReadable(ledger + [record]) <==> AllReadable(ledger) && Readable(ledger + [record], |ledger|)
  {
    hide Readable;
    var more := ledger + [record];
    forall i | 0 <= i < |ledger|
      ensures Readable(more, i) == Readable(ledger, i)
    {
      ReadableAlike(ledger, record, i);
    }
  }

  /** The parser takes the next record exactly when it can be read. */
  lemma {:induction false} TakenIffReadable(ledger: seq<EventRecord>, record: EventRecord, p: Parse)
    requires ParseSound(p) && Pends(ledger, p)
    ensures ParseRecord(p, record).Ok? <==> Readable(ledger + [record], |ledger|)
  {
    hide Drops, WaitsAt;
    var more, n := ledger + [record], |ledger|;
    assert more[n] == record;
    forall j | 0 <= j < n
      ensures WaitsAt(more, j, n) == WaitsAt(ledger, j, n) && more[j] == ledger[j]
    {
      WaitsOn(ledger, record, j);
    }
    if p.pending.Some? {
      var j :| 0 <= j < n && WaitsAt(ledger, j, n)
               && ledger[j] == IntentRecord(p.pending.value.timestamp, p.pending.value.intent)
               && forall k :: 0 <= k < n && WaitsAt(ledger, k, n) ==> k == j;
      assert WaitsAt(more, j, n) && more[j] == ledger[j];
    }
  }

  lemma {:induction false} PendingNext(ledger: seq<EventRecord>, record: EventRecord, p: Parse)
    requires ParseSound(p) && Pends(ledger, p) && ParseRecord(p, record).Ok?
    ensures Pends(ledger + [record], ParseRecord(p, record).value)
  {
    hide WaitsAt, EntryOf;
    var more, n := ledger + [record], |ledger|;
    assert more[n] == record;
    WaitsFromNow(ledger, record);
    forall j | 0 <= j < n
      ensures WaitsAt(more, j, |more|) <==> WaitsAt(ledger, j, n) && !RetestFill(record) && !Drops(record)
      ensures more[j] == ledger[j]
    {
      WaitsOn(ledger, record, j);
    }
    if RetestIntent(record) {
      assert WaitsAt(more, n, |more|) && more[n] == IntentRecord(record.timestamp, record.intent);
    } else if p.pending.Some? && !RetestFill(record) && !Drops(record) {
      var j :| 0 <= j < n && WaitsAt(ledger, j, n)
               && ledger[j] == IntentRecord(p.pending.value.timestamp, p.pending.value.intent)
               && forall k :: 0 <= k < n && WaitsAt(ledger, k, n) ==> k == j;
      assert WaitsAt(more, j, |more|) && more[j] == ledger[j];
    }
  }

  lemma {:induction false} OldReads(ledger: seq<EventRecord>, record: EventRecord, entries: seq<RetestEntry>, n: nat)
    requires Reads(ledger, entries) && n < |entries|
    ensures n < |FillsAt(ledger)| <= |FillsAt(ledger + [record])|
    ensures ReadAt(ledger + [record], FillsAt(ledger + [record])[n], entries[n])
  {
    hide WaitsAt, EntryFrom, RetestFill;
    var more := ledger + [record];
    assert more[..|ledger|] == ledger;
    var i := FillsAt(ledger)[n];
    var j :| WaitsAt(ledger, j, i) && EntryFrom(ledger, j, i, entries[n]);
    SameEntry(ledger, record, j, i, entries[n]);
    WaitsOn(ledger, record, j);
    FillsNext(ledger, record);
    assert FillsAt(more)[n] == i;
    assert WaitsAt(more, j, i) && EntryFrom(more, j, i, entries[n]);
  }

  lemma {:induction false} SameEntry(ledger: seq<EventRecord>, record: EventRecord, j: int, i: int, e: RetestEntry)
    requires EntryFrom(ledger, j, i, e)
    ensures EntryFrom(ledger + [record], j, i, e) && 0 <= j < |ledger|
  {
    assert (ledger + [record])[j] == ledger[j] && (ledger + [record])[i] == ledger[i];
  }

  lemma {:induction false} FillsNext(ledger: seq<EventRecord>, record: EventRecord)
    ensures FillsAt(ledger + [record]) == FillsAt(ledger) + if RetestFill(record) then [|ledger|] else []
  {
    hide RetestFill;
    assert (ledger + [record])[..|ledger|] == ledger;
  }

  lemma {:induction false} NewEntry(ledger: seq<EventRecord>, record: EventRecord, p: Parse)
    requires ParseSound(p) && Pends(ledger, p) && RetestFill(record) && ParseRecord(p, record).Ok?
    ensures p.pending.Some?
    ensures ReadAt(ledger + [record], |ledger|, EntryOf(p.pending.value, record.timestamp, record.fill))
  {
    hide WaitsAt;
    var more, n := ledger + [record], |ledger|;
    assert more[n] == record;
    var j :| 0 <= j < n && WaitsAt(ledger, j, n)
             && ledger[j] == IntentRecord(p.pending.value.timestamp, p.pending.value.intent);
    WaitsOn(ledger, record, j);
    assert more[j] == ledger[j];
    assert WaitsAt(more, j, n) && EntryFrom(more, j, n, EntryOf(p.pending.value, record.timestamp, record.fill));
  }

  lemma {:induction false} ReadsNext(ledger: seq<EventRecord>, record: EventRecord, p: Parse)
    requires ParseSound(p) && Pends(ledger, p) && Reads(ledger, p.entries) && ParseRecord(p, record).Ok?
    ensures Reads(ledger + [record], ParseRecord(p, record).value.entries)
  {
    hide ReadAt, EntryOf, Pends;
    var more, next := ledger + [record], ParseRecord(p, record).value;
    FillsNext(ledger, record);
    if RetestFill(record) {
      NewEntry(ledger, record, p);
    } else {
      assert next.entries == p.entries by { NoEntry(p, record); }
    }
    forall n | 0 <= n < |next.entries|
      ensures ReadAt(more, FillsAt(more)[n], next.entries[n])
    {
      if n < |p.entries| {
        OldReads(ledger, record, p.entries, n);
        assert next.entries[n] == p.entries[n];
      } else {
        assert FillsAt(more)[n] == |ledger|;
      }
    }
  }

  lemma {:induction false} NoEntry(p: Parse, record: EventRecord)
    requires ParseSound(p) && !RetestFill(record) && ParseRecord(p, record).Ok?
    ensures ParseRecord(p, record).value.entries == p.entries
  {
  }

  /**
   * Exactly which ledgers parse: every intent comes fully priced while none waits, and every entry fill while one
   * waits that it fits; and then each fill is read with the intent that waited for it.
   */
  lemma {:induction false} ParsesIffReadable(ledger: seq<EventRecord>)
    ensures ParseLedger(ledger).Ok? <==> AllReadable(ledger)
    ensures ParseLedger(ledger).Ok? ==>
      Reads(ledger, ParseLedger(ledger).value.entries) && Pends(ledger, ParseLedger(ledger).value)
    decreases |ledger|
  {
    hide AllReadable, Readable, Pends, Reads, ParseRecord;
    if |ledger| == 0 {
      NothingRead();
    } else {
      var before, record := ledger[..|ledger| - 1], ledger[|ledger| - 1];
      ParsesIffReadable(before);
      assert ledger == before + [record];
      AllReadableNext(before, record);
      if ParseLedger(before).Ok? {
        var p := ParseLedger(before).value;
        TakenIffReadable(before, record, p);
        if ParseRecord(p, record).Ok? {
          PendingNext(before, record, p);
          ReadsNext(before, record, p);
        }
      }
    }
  }

  lemma {:induction false} NothingRead()
    ensures AllReadable([]) && Reads([], []) && Pends([], Parse(None, []))
  {
  }
}
