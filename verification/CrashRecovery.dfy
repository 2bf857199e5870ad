/** A crash leaves a byte prefix; reopening it gives back the writer as it was at a whole record. */
module CrashRecovery {
  import opened Prelude
  import opened Journal

  /** The records validate one by one, as a reload checks them. */
  predicate ValidLog(p: Platform, runId: string, records: seq<IntentRecord>)
    decreases |records|
  {
    |records| > 0 ==>
      && ValidLog(p, runId, records[..|records| - 1])
      && Validate(p, runId, records[..|records| - 1], LatestOf(records[..|records| - 1]),
                  records[|records| - 1], |records|).None?
  }

  function Concat(lines: seq<seq<byte>>): seq<byte> {
    if |lines| == 0 then [] else lines[0] + Concat(lines[1..])
  }

  /** How many whole lines the first n bytes hold. */
  function Whole(lines: seq<seq<byte>>, n: nat): (k: nat)
    ensures k <= |lines|
  {
    if |lines| == 0 || n < |lines[0]| then 0
    else 1 + Whole(lines[1..], n - |lines[0]|)
  }

  // ---- Lines ----

  /** A complete line, whether it ends in LF or in CR LF. */
  predicate OneLine(line: seq<byte>) {
    Ended(line) && FirstLine(line) == |line|
  }

  predicate AllLines(lines: seq<seq<byte>>) {
    forall i :: 0 <= i < |lines| ==> OneLine(lines[i])
  }

  lemma {:induction false} FirstLineStays(line: seq<byte>, rest: seq<byte>)
    requires OneLine(line)
    ensures FirstLine(line + rest) == |line|
    decreases |line|
  {
    if |line| == 1 || line[0] == CR {
    } else {
      assert (line + rest)[1..] == line[1..] + rest;
      FirstLineStays(line[1..], rest);
    }
  }

  lemma {:induction false} SplitWhole(line: seq<byte>, rest: seq<byte>)
    requires OneLine(line)
    ensures SplitLines(line + rest) == [line] + SplitLines(rest)
  {
    FirstLineStays(line, rest);
    assert (line + rest)[..|line|] == line && (line + rest)[|line|..] == rest;
  }

  lemma {:induction false} FirstLineTorn(line: seq<byte>, n: nat)
    requires OneLine(line) && 0 < n < |line|
    ensures FirstLine(line[..n]) == n && line[n - 1] != LF
    decreases n
  {
    if n == 1 {
    } else {
      assert line[..n][1..] == line[1..][..n - 1];
      FirstLineTorn(line[1..], n - 1);
    }
  }

  function TornLine(tail: seq<byte>): seq<seq<byte>> {
    if tail == [] then [] else [tail]
  }

  /** What a line leaves when it is cut short is one unfinished line, or nothing. */
  lemma {:induction false} SplitTorn(line: seq<byte>, n: nat)
    requires OneLine(line) && n < |line|
    ensures SplitLines(line[..n]) == TornLine(line[..n]) && !Ended(line[..n])
  {
    if n > 0 {
      FirstLineTorn(line, n);
      assert line[..n][n..] == [] && line[..n][..n] == line[..n];
      assert SplitLines([]) == [];
    }
  }

  lemma {:induction false} FirstLineIsALine(s: seq<byte>)
    requires |s| > 0
    ensures FirstLine(s[..FirstLine(s)]) == FirstLine(s)
    decreases |s|
  {
    if s[0] == LF || s[0] == CR || |s| == 1 {
    } else {
      FirstLineIsALine(s[1..]);
      assert s[..FirstLine(s)][1..] == s[1..][..FirstLine(s[1..])];
    }
  }

  /** Splitting loses nothing, and its finished lines are lines. */
  lemma {:induction false} SplitConcat(s: seq<byte>)
    ensures Concat(SplitLines(s)) == s
    ensures forall i :: 0 <= i < |SplitLines(s)| && Ended(SplitLines(s)[i]) ==> OneLine(SplitLines(s)[i])
    decreases |s|
  {
    if |s| == 0 {
    } else {
      var n := FirstLine(s);
      FirstLineIsALine(s);
      SplitConcat(s[n..]);
      var lines := SplitLines(s);
      assert lines[0] == s[..n] && lines[1..] == SplitLines(s[n..]);
      assert s == s[..n] + s[n..];
    }
  }

  /** Lines written one after the other split back into themselves. */
  lemma {:induction false} SplitsBack(lines: seq<seq<byte>>)
    requires AllLines(lines)
    ensures SplitLines(Concat(lines)) == lines
    decreases |lines|
  {
    if |lines| == 0 {
    } else {
      SplitsBack(lines[1..]);
      SplitWhole(lines[0], Concat(lines[1..]));
    }
  }

  lemma {:induction false} ConcatAppend(lines: seq<seq<byte>>, line: seq<byte>)
    ensures Concat(lines + [line]) == Concat(lines) + line
    decreases |lines|
  {
    if |lines| == 0 {
      assert lines + [line] == [line];
      assert Concat([line][1..]) == [];
    } else {
      assert (lines + [line])[1..] == lines[1..] + [line];
      ConcatAppend(lines[1..], line);
    }
  }

  lemma {:induction false} ConcatPrefix(lines: seq<seq<byte>>, k: nat)
    requires k <= |lines|
    ensures |Concat(lines[..k])| <= |Concat(lines)|
    ensures Concat(lines)[..|Concat(lines[..k])|] == Concat(lines[..k])
    decreases |lines|
  {
    if k == 0 {
    } else {
      ConcatPrefix(lines[1..], k - 1);
      assert lines[..k][1..] == lines[1..][..k - 1];
      assert lines[..k][0] == lines[0];
    }
  }

  /** The torn tail after the whole lines. */
  function Tail(lines: seq<seq<byte>>, n: nat): seq<byte>
    requires n <= |Concat(lines)|
  {
    if |lines| == 0 then []
    else if n < |lines[0]| then lines[0][..n]
    else Tail(lines[1..], n - |lines[0]|)
  }

  /** A byte prefix splits into the whole lines and the torn tail. */
  predicate SplitsAt(lines: seq<seq<byte>>, n: nat)
    requires n <= |Concat(lines)|
  {
    && !Ended(Tail(lines, n))
    && SplitLines(Concat(lines)[..n]) == lines[..Whole(lines, n)] + TornLine(Tail(lines, n))
    && Concat(lines)[..n] == Concat(lines[..Whole(lines, n)]) + Tail(lines, n)
  }

  lemma {:induction false} SplitPrefix(lines: seq<seq<byte>>, n: nat)
    requires AllLines(lines) && n <= |Concat(lines)|
    ensures SplitsAt(lines, n)
    decreases |lines|
  {
    hide SplitLines, SplitsAt, OneLine;
    if |lines| == 0 {
      NothingSplits();
    } else if n < |lines[0]| {
      SplitInFirst(lines, n);
    } else {
      SplitPrefix(lines[1..], n - |lines[0]|);
      SplitPastFirst(lines, n);
    }
  }

  lemma {:induction false} NothingSplits()
    ensures SplitsAt([], 0)
  {
  }

  lemma {:induction false} SplitInFirst(lines: seq<seq<byte>>, n: nat)
    requires |lines| > 0 && OneLine(lines[0]) && n < |lines[0]| && n <= |Concat(lines)|
    ensures SplitsAt(lines, n)
  {
    hide SplitLines;
    assert Concat(lines)[..n] == lines[0][..n];
    SplitTorn(lines[0], n);
    assert lines[..0] == [];
  }

  lemma {:induction false} SplitPastFirst(lines: seq<seq<byte>>, n: nat)
    requires |lines| > 0 && OneLine(lines[0]) && |lines[0]| <= n <= |Concat(lines)|
    requires SplitsAt(lines[1..], n - |lines[0]|)
    ensures SplitsAt(lines, n)
  {
    hide SplitLines, TornLine, OneLine;
    var rest, m := lines[1..], n - |lines[0]|;
    var k := Whole(rest, m);
    assert Concat(lines)[..n] == lines[0] + Concat(rest)[..m];
    SplitWhole(lines[0], Concat(rest)[..m]);
    assert lines[..k + 1] == [lines[0]] + rest[..k];
    assert lines[..k + 1][1..] == rest[..k];
    assert Concat(lines[..k + 1]) == lines[0] + Concat(rest[..k]);
  }

  /** The whole lines are the longest run that fits. */
  lemma {:induction false} WholeIsLongest(lines: seq<seq<byte>>, n: nat, j: nat)
    requires j <= |lines|
    ensures |Concat(lines[..j])| <= n <==> j <= Whole(lines, n)
    decreases |lines|
  {
    if j == 0 {
    } else {
      assert lines[..j][1..] == lines[1..][..j - 1];
      if n >= |lines[0]| {
        WholeIsLongest(lines[1..], n - |lines[0]|, j - 1);
      }
    }
  }

  // ---- Loading a prefix ----

  lemma {:induction false} ValidPrefix(p: Platform, runId: string, records: seq<IntentRecord>, k: nat)
    requires ValidLog(p, runId, records) && k <= |records|
    ensures ValidLog(p, runId, records[..k])
    decreases |records|
  {
    if k == |records| {
      assert records[..k] == records;
    } else {
      ValidPrefix(p, runId, records[..|records| - 1], k);
      assert records[..|records| - 1][..k] == records[..k];
    }
  }

  /** The lines are complete, and each decodes to its record. */
  predicate Spells(p: Platform, lines: seq<seq<byte>>, records: seq<IntentRecord>) {
    && |lines| == |records|
    && AllLines(lines)
    && forall i :: 0 <= i < |lines| ==> p.decode(lines[i]) == Some(records[i])
  }

  lemma {:induction false} LoadsOne(p: Platform, runId: string, so: Loaded, line: seq<byte>, r: IntentRecord,
                                    index: nat, isLast: bool)
    requires OneLine(line) && p.decode(line) == Some(r)
    requires Validate(p, runId, so.records, so.latest, r, index).None?
    ensures LoadLine(p, runId, so, line, index, isLast)
            == Ok(Loaded(so.records + [r], so.latest[r.body.intentId := r], so.verified + |line|))
  {
    hide Validate;
  }

  lemma {:induction false} NothingYet(lines: seq<seq<byte>>, records: seq<IntentRecord>)
    ensures LatestOf(records[..0]) == map[] && Concat(lines[..0]) == []
  {
  }

  /** The first `j` lines of a file that starts with the lines of a valid log load as its first `j` records. */
  lemma {:induction false} LoadsWhole(p: Platform, runId: string, lines: seq<seq<byte>>, records: seq<IntentRecord>,
                                      all: seq<seq<byte>>, j: nat)
    requires Spells(p, lines, records) && ValidLog(p, runId, records)
    requires lines <= all && j <= |lines|
    ensures LoadLines(p, runId, all, j)
            == Ok(Loaded(records[..j], LatestOf(records[..j]), |Concat(lines[..j])|))
    decreases j
  {
    hide Validate, LoadLine, OneLine, LatestOf, Concat;
    if j == 0 {
      NothingYet(lines, records);
    } else {
      LoadsWhole(p, runId, lines, records, all, j - 1);
      ValidPrefix(p, runId, records, j);
      var line, r := lines[j - 1], records[j - 1];
      assert records[..j][..j - 1] == records[..j - 1];
      assert records[..j] == records[..j - 1] + [r] && lines[..j] == lines[..j - 1] + [line];
      ConcatAppend(lines[..j - 1], line);
      LatestAppend(records[..j - 1], r);
      var so := Loaded(records[..j - 1], LatestOf(records[..j - 1]), |Concat(lines[..j - 1])|);
      LoadsOne(p, runId, so, line, r, j, j == |all|);
    }
  }

  lemma {:induction false} LoadsTorn(p: Platform, runId: string, lines: seq<seq<byte>>, so: Loaded, tail: seq<byte>,
                                     k: nat)
    requires !Ended(tail)
    requires |lines| == k + |TornLine(tail)| && (tail != [] ==> lines[k] == tail)
    requires LoadLines(p, runId, lines, k) == Ok(so)
    ensures LoadLines(p, runId, lines, |lines|) == Ok(so)
  {
  }

  // ---- The writer's books ----

  /** The file's lines spell the records, the latest records are indexed, and the whole would reload. */
  predicate Kept(p: Platform, runId: string, st: JournalState) {
    && Spells(p, SplitLines(st.file), st.records)
    && st.latest == LatestOf(st.records)
    && ValidLog(p, runId, st.records)
  }

  /** The journal cut down to its first k records. */
  function Cut(st: JournalState, k: nat): JournalState
    requires k <= |SplitLines(st.file)| && k <= |st.records|
  {
    var kept := st.records[..k];
    JournalState(Concat(SplitLines(st.file)[..k]), kept, LatestOf(kept), Begun(kept) + 1)
  }

  /**
   * Crash recovery: whatever prefix of the file survives, reopening does not raise, cuts the file to
   * its whole records, and rebuilds the records, the latest record of each intent and the next number.
   */
  lemma {:induction false} EveryPrefixRecovers(p: Platform, runId: string, st: JournalState, n: nat)
    requires Kept(p, runId, st) && n <= |st.file|
    ensures Recover(p, runId, st.file[..n]) == Ok(Cut(st, Whole(SplitLines(st.file), n)))
  {
    hide LoadLine, LoadLines, ValidLog, SplitLines, Tail, Whole, Concat, LatestOf, Begun, OneLine;
    var lines := SplitLines(st.file);
    SplitConcat(st.file);
    SplitPrefix(lines, n);
    var k, tail := Whole(lines, n), Tail(lines, n);
    var file, kept := st.file[..n], st.records[..k];
    ValidPrefix(p, runId, st.records, k);
    LoadsWhole(p, runId, lines[..k], kept, SplitLines(file), k);
    assert kept[..k] == kept && lines[..k][..k] == lines[..k];
    LoadsTorn(p, runId, SplitLines(file), Loaded(kept, LatestOf(kept), |Concat(lines[..k])|), tail, k);
    assert file[..|Concat(lines[..k])|] == Concat(lines[..k]);
  }

  lemma {:induction false} WholeFileRecovers(p: Platform, runId: string, st: JournalState)
    requires Kept(p, runId, st)
    ensures Recover(p, runId, st.file) == Ok(st.(next := Begun(st.records) + 1))
  {
    hide Recover, ValidLog, SplitLines, Concat, LatestOf, Begun, AllLines;
    var n, lines := |st.file|, SplitLines(st.file);
    EveryPrefixRecovers(p, runId, st, n);
    SplitConcat(st.file);
    WholeIsLongest(lines, n, |lines|);
    assert st.records[..|lines|] == st.records && lines[..|lines|] == lines;
    assert st.file[..n] == st.file;
  }

  // ---- Histories ----

  /** No record has taken a number the counter has still to give out. */
  ghost predicate UnusedAhead(runId: string, st: JournalState) {
    forall m: nat :: m >= st.next ==> IntentId(runId, m) !in st.latest
  }

  lemma {:induction false} LatestAppend(records: seq<IntentRecord>, r: IntentRecord)
    ensures LatestOf(records + [r]) == LatestOf(records)[r.body.intentId := r]
    ensures Begun(records + [r]) == Begun(records) + if r.body.state.SubmissionPending? then 1 else 0
  {
    assert (records + [r])[..|records|] == records;
  }

  /** The latest record of an intent was written by a validated log, so it carries that intent's id. */
  lemma {:induction false} LatestIsOwn(p: Platform, runId: string, records: seq<IntentRecord>, id: string)
    requires ValidLog(p, runId, records)
    ensures id in LatestOf(records) ==>
      && LatestOf(records)[id].body.intentId == id
      && GoodClientOperationId(p, LatestOf(records)[id].body.identity.clientOperationId)
    decreases |records|
  {
    if |records| == 0 {
    } else {
      LatestIsOwn(p, runId, records[..|records| - 1], id);
    }
  }

  lemma {:induction false} FirstLineOf(body: seq<byte>)
    requires NoBreaks(body)
    ensures OneLine(body + [LF])
    decreases |body|
  {
    if |body| == 0 {
    } else {
      FirstLineOf(body[1..]);
      assert (body + [LF])[1..] == body[1..] + [LF];
    }
  }

  lemma {:induction false} SplitAppend(file: seq<byte>, line: seq<byte>)
    requires AllLines(SplitLines(file)) && OneLine(line)
    ensures SplitLines(file + line) == SplitLines(file) + [line]
  {
    hide SplitLines, OneLine;
    SplitConcat(file);
    ConcatAppend(SplitLines(file), line);
    SplitsBack(SplitLines(file) + [line]);
  }

  /** A written record is one line, and its line is read back as the record. */
  lemma {:induction false} WritingAddsALine(p: Platform, runId: string, st: JournalState, op: Op)
    requires Lawful(p) && Kept(p, runId, st) && Attempt(p, runId, st, op).Ok?
    ensures
      var line := Line(p, Attempt(p, runId, st, op).value);
      && OneLine(line) && p.decode(line) == Some(Attempt(p, runId, st, op).value)
      && Perform(p, runId, st, op).file == st.file + line
      && SplitLines(Perform(p, runId, st, op).file) == SplitLines(st.file) + [line]
  {
    hide Blank, IntentId, SplitLines, OneLine, ValidLog, LatestOf, HashedFields, PreviousHash, GoodClientOperationId;
    var r := Attempt(p, runId, st, op).value;
    FirstLineOf(p.encode(r));
    SplitAppend(st.file, Line(p, r));
  }

  lemma {:induction false} LinesOnlyGrow(p: Platform, runId: string, st: JournalState, op: Op)
    requires Lawful(p) && Kept(p, runId, st)
    ensures SplitLines(st.file) <= SplitLines(Perform(p, runId, st, op).file)
  {
    hide Attempt, Kept, SplitLines;
    if Attempt(p, runId, st, op).Ok? {
      WritingAddsALine(p, runId, st, op);
    }
  }

  /** A performed operation keeps the books exactly when it does not reuse an intent id. */
  lemma {:induction false} AppendKeeps(p: Platform, runId: string, st: JournalState, op: Op)
    requires Lawful(p) && Kept(p, runId, st)
    ensures Attempt(p, runId, st, op).Ok? ==>
      (Kept(p, runId, Perform(p, runId, st, op)) <==> (op.Begin? ==> IntentId(runId, st.next) !in st.latest))
    ensures Attempt(p, runId, st, op).Err? ==> Kept(p, runId, Perform(p, runId, st, op))
  {
    hide Lawful, Attempt, Validate, SplitLines, OneLine, IntentId;
    var attempt := Attempt(p, runId, st, op);
    if attempt.Ok? {
      WritingAddsALine(p, runId, st, op);
      LatestAppend(st.records, attempt.value);
      assert (st.records + [attempt.value])[..|st.records|] == st.records;
      NewRecordValidates(p, runId, st, op);
    }
  }

  lemma {:induction false} NewRecordValidates(p: Platform, runId: string, st: JournalState, op: Op)
    requires Kept(p, runId, st) && Attempt(p, runId, st, op).Ok?
    ensures Validate(p, runId, st.records, st.latest, Attempt(p, runId, st, op).value, |st.records| + 1).None?
      <==> (op.Begin? ==> IntentId(runId, st.next) !in st.latest)
  {
    hide Blank, IntentId, ValidLog, SplitLines, Spells, LatestOf;
    if op.Advance? {
      LatestIsOwn(p, runId, st.records, op.intentId);
    }
  }

  // ---- Fresh ids ----

  function ValueOf(s: string): nat
    requires forall i :: 0 <= i < |s| ==> '0' <= s[i] <= '9'
    decreases |s|
  {
    if |s| == 0 then 0 else ValueOf(s[..|s| - 1]) * 10 + (s[|s| - 1] as int - '0' as int)
  }

  lemma {:induction false} DecimalReads(n: nat)
    ensures forall i :: 0 <= i < |Decimal(n)| ==> '0' <= Decimal(n)[i] <= '9'
    ensures ValueOf(Decimal(n)) == n
  {
    if n < 10 {
      assert Decimal(n)[..0] == [];
    } else {
      DecimalReads(n / 10);
      var s := Decimal(n);
      assert s[..|s| - 1] == Decimal(n / 10);
    }
  }

  lemma {:induction false} LeadingZeros(k: nat, s: string)
    requires forall i :: 0 <= i < |s| ==> '0' <= s[i] <= '9'
    ensures forall i :: 0 <= i < |Zeros(k) + s| ==> '0' <= (Zeros(k) + s)[i] <= '9'
    ensures ValueOf(Zeros(k) + s) == ValueOf(s)
    decreases |s| + k
  {
    var t := Zeros(k) + s;
    if |s| > 0 {
      assert t[..|t| - 1] == Zeros(k) + s[..|s| - 1];
      LeadingZeros(k, s[..|s| - 1]);
    } else if k > 0 {
      assert t[..|t| - 1] == Zeros(k - 1) + s;
      LeadingZeros(k - 1, s);
    }
  }

  lemma {:induction false} PaddedReads(n: nat)
    ensures forall i :: 0 <= i < |Padded(n)| ==> '0' <= Padded(n)[i] <= '9'
    ensures ValueOf(Padded(n)) == n
  {
    DecimalReads(n);
    if |Decimal(n)| < 8 {
      LeadingZeros(8 - |Decimal(n)|, Decimal(n));
    }
  }

  /** Different intent numbers give different ids, past eight digits too. */
  lemma {:induction false} IntentIdsAreDistinct(runId: string, m: nat, n: nat)
    requires IntentId(runId, m) == IntentId(runId, n)
    ensures m == n
  {
    var prefix := runId + ":intent:";
    assert IntentId(runId, m) == prefix + Padded(m) && IntentId(runId, n) == prefix + Padded(n);
    assert IntentId(runId, m)[|prefix|..] == Padded(m);
    assert IntentId(runId, n)[|prefix|..] == Padded(n);
    PaddedReads(m);
    PaddedReads(n);
  }

  /** What a performed operation does to the numbering. */
  lemma {:induction false} PerformNumbers(p: Platform, runId: string, st: JournalState, op: Op)
    ensures
      var attempt, after := Attempt(p, runId, st, op), Perform(p, runId, st, op);
      && (attempt.Err? ==> after.records == st.records)
      && (attempt.Ok? ==>
            && after.records == st.records + [attempt.value]
            && attempt.value.body.state.SubmissionPending? == op.Begin?
            && (op.Begin? ==> attempt.value.body.intentId == IntentId(runId, st.next)))
      && after.next == st.next + if TakesNumber(attempt, op) then 1 else 0
  {
    hide Blank, IntentId, GoodClientOperationId, Bounded, NamesOrder, HashedFields;
  }

  lemma {:induction false} LatestKeys(p: Platform, runId: string, st: JournalState, op: Op)
    requires Kept(p, runId, st)
    ensures
      Perform(p, runId, st, op).latest.Keys
        == st.latest.Keys + if op.Begin? && Attempt(p, runId, st, op).Ok? then {IntentId(runId, st.next)} else {}
  {
    hide Blank, IntentId, GoodClientOperationId, Bounded, NamesOrder, HashedFields, ValidLog, LatestOf, Spells;
    if op.Advance? {
      LatestIsOwn(p, runId, st.records, op.intentId);
    }
  }

  lemma {:induction false} OpKeeps(p: Platform, runId: string, st: JournalState, op: Op)
    requires Lawful(p) && Kept(p, runId, st) && UnusedAhead(runId, st)
    ensures
      var after := Perform(p, runId, st, op);
      Kept(p, runId, after) && UnusedAhead(runId, after)
  {
    hide Attempt, Perform, IntentId, Kept;
    AppendKeeps(p, runId, st, op);
    PerformNumbers(p, runId, st, op);
    LatestKeys(p, runId, st, op);
    var after := Perform(p, runId, st, op);
    forall m: nat | m >= after.next
      ensures IntentId(runId, m) !in after.latest
    {
      if IntentId(runId, m) == IntentId(runId, st.next) {
        IntentIdsAreDistinct(runId, m, st.next);
      }
    }
  }

  /** Whatever is asked of it, failed digests included, such a writer's books stay in order. */
  lemma {:induction false} HistoriesKeep(p: Platform, runId: string, st: JournalState, ops: seq<Op>)
    requires Lawful(p) && Kept(p, runId, st) && UnusedAhead(runId, st)
    ensures
      var after := Play(p, runId, st, ops);
      Kept(p, runId, after) && UnusedAhead(runId, after)
    decreases |ops|
  {
    hide Perform, Kept, UnusedAhead;
    if |ops| == 0 {
    } else {
      HistoriesKeep(p, runId, st, ops[..|ops| - 1]);
      OpKeeps(p, runId, Play(p, runId, st, ops[..|ops| - 1]), ops[|ops| - 1]);
    }
  }

  /** A new journal is such a writer. */
  lemma {:induction false} EmptyIsKept(p: Platform, runId: string)
    ensures Kept(p, runId, EMPTY) && UnusedAhead(runId, EMPTY) && EMPTY.next == Begun(EMPTY.records) + 1
  {
  }

  lemma {:induction false} LinesGrow(p: Platform, runId: string, st: JournalState, ops: seq<Op>, m: nat)
    requires Lawful(p) && Kept(p, runId, st) && UnusedAhead(runId, st)
    requires m <= |ops|
    ensures SplitLines(Play(p, runId, st, ops[..m]).file) <= SplitLines(Play(p, runId, st, ops).file)
    decreases |ops|
  {
    hide Perform, Kept, UnusedAhead, SplitLines;
    if m == |ops| {
      assert ops[..m] == ops;
    } else {
      var before := ops[..|ops| - 1];
      LinesGrow(p, runId, st, before, m);
      assert before[..m] == ops[..m];
      HistoriesKeep(p, runId, st, before);
      LinesOnlyGrow(p, runId, Play(p, runId, st, before), ops[|ops| - 1]);
    }
  }

  lemma {:induction false} OnlyBeginsCanFailToDigest(p: Platform, runId: string, st: JournalState, op: Op)
    ensures Attempt(p, runId, st, op) == Err(NotCanonical) ==> op.Begin? && op.digest.None?
  {
    hide Blank, IntentId;
  }

  /** How much of a history had been performed when its k-th record was written. */
  function OpsFor(p: Platform, runId: string, st: JournalState, ops: seq<Op>, k: nat): (m: nat)
    ensures m <= |ops|
    decreases |ops|
  {
    if |ops| == 0 || |Play(p, runId, st, ops[..|ops| - 1]).records| < k then |ops|
    else OpsFor(p, runId, st, ops[..|ops| - 1], k)
  }

  lemma {:induction false} OpsForReaches(p: Platform, runId: string, st: JournalState, ops: seq<Op>, k: nat)
    requires |st.records| <= k <= |Play(p, runId, st, ops).records|
    ensures Play(p, runId, st, ops[..OpsFor(p, runId, st, ops, k)]).records == Play(p, runId, st, ops).records[..k]
    decreases |ops|
  {
    hide Attempt;
    if |ops| == 0 {
      assert ops[..0] == [];
    } else {
      var before := ops[..|ops| - 1];
      if |Play(p, runId, st, before).records| < k {
        assert ops[..|ops|] == ops;
      } else {
        OpsForReaches(p, runId, st, before, k);
        assert before[..OpsFor(p, runId, st, before, k)] == ops[..OpsFor(p, runId, st, before, k)];
      }
    }
  }

  /** After digest failures the writer's counter is ahead of its records, by exactly the failures. */
  function FailedDigests(p: Platform, runId: string, st: JournalState, ops: seq<Op>): nat
    decreases |ops|
  {
    if |ops| == 0 then 0
    else
      var before := Play(p, runId, st, ops[..|ops| - 1]);
      FailedDigests(p, runId, st, ops[..|ops| - 1])
      + if Attempt(p, runId, before, ops[|ops| - 1]) == Err(NotCanonical) then 1 else 0
  }

  lemma {:induction false} NumbersOutrunRecords(p: Platform, runId: string, st: JournalState, ops: seq<Op>)
    requires st.next == Begun(st.records) + 1
    ensures
      var after := Play(p, runId, st, ops);
      after.next == Begun(after.records) + 1 + FailedDigests(p, runId, st, ops)
    decreases |ops|
  {
    hide Attempt, Perform, IntentId;
    if |ops| == 0 {
    } else {
      NumbersOutrunRecords(p, runId, st, ops[..|ops| - 1]);
      var before := Play(p, runId, st, ops[..|ops| - 1]);
      var attempt := Attempt(p, runId, before, ops[|ops| - 1]);
      PerformNumbers(p, runId, before, ops[|ops| - 1]);
      OnlyBeginsCanFailToDigest(p, runId, before, ops[|ops| - 1]);
      if attempt.Ok? {
        LatestAppend(before.records, attempt.value);
      }
    }
  }

  /** The part of a history after which its writer had written just the records that `n` bytes hold. */
  function Survived(p: Platform, runId: string, st: JournalState, ops: seq<Op>, n: nat): seq<Op> {
    ops[..OpsFor(p, runId, st, ops, Whole(SplitLines(Play(p, runId, st, ops).file), n))]
  }

  lemma {:induction false} SurvivedWriter(p: Platform, runId: string, st: JournalState, ops: seq<Op>, n: nat)
    requires Lawful(p) && Kept(p, runId, st) && UnusedAhead(runId, st)
    requires |st.file| <= n <= |Play(p, runId, st, ops).file|
    ensures
      var written, earlier := Play(p, runId, st, ops), Play(p, runId, st, Survived(p, runId, st, ops, n));
      && Kept(p, runId, written) && Kept(p, runId, earlier)
      && Cut(written, Whole(SplitLines(written.file), n)) == earlier.(next := Begun(earlier.records) + 1)
  {
    hide Play, Perform, ValidLog, LatestOf, Lawful, Whole, Begun, UnusedAhead, SplitLines, AllLines, Concat;
    var written, past := Play(p, runId, st, ops), Survived(p, runId, st, ops, n);
    var lines := SplitLines(written.file);
    HistoriesKeep(p, runId, st, ops);
    HistoriesKeep(p, runId, st, past);
    LinesGrow(p, runId, st, ops, 0);
    PlayNothing(p, runId, st, ops[..0]);
    SplitConcat(st.file);
    WholeIsLongest(lines, n, |st.records|);
    assert lines[..|st.records|] == SplitLines(st.file);
    var k := Whole(lines, n);
    OpsForReaches(p, runId, st, ops, k);
    LinesGrow(p, runId, st, ops, |past|);
    assert ops[..|past|] == past;
    SplitConcat(Play(p, runId, st, past).file);
    assert lines[..k] == SplitLines(Play(p, runId, st, past).file);
  }

  lemma {:induction false} PlayNothing(p: Platform, runId: string, st: JournalState, ops: seq<Op>)
    requires ops == []
    ensures Play(p, runId, st, ops) == st
  {
  }

  /**
   * The refinement: after any history of a writer in order and any crash in what it has written,
   * reopening does not raise and gives the state the writer was in when it had written the surviving
   * records, file, records and latest records alike; only its counter falls back, by exactly the digest
   * failures up to then.
   */
  lemma {:induction false} CrashRefinesAnEarlierWriter(p: Platform, runId: string, st: JournalState, ops: seq<Op>,
                                                       n: nat)
    requires Lawful(p) && Kept(p, runId, st) && UnusedAhead(runId, st) && st.next == Begun(st.records) + 1
    requires |st.file| <= n <= |Play(p, runId, st, ops).file|
    ensures
      var written, past := Play(p, runId, st, ops), Survived(p, runId, st, ops, n);
      var earlier := Play(p, runId, st, past);
      && earlier.next >= FailedDigests(p, runId, st, past)
      && Recover(p, runId, written.file[..n]) == Ok(earlier.(next := earlier.next - FailedDigests(p, runId, st, past)))
  {
    hide Play, Recover, Lawful, Whole, Begun, UnusedAhead, FailedDigests, Survived, Kept, Cut, SplitLines;
    var past := Survived(p, runId, st, ops, n);
    SurvivedWriter(p, runId, st, ops, n);
    EveryPrefixRecovers(p, runId, Play(p, runId, st, ops), n);
    NumbersOutrunRecords(p, runId, st, past);
  }

  lemma {:induction false} PlayConcat(p: Platform, runId: string, st: JournalState, ops: seq<Op>, more: seq<Op>)
    ensures Play(p, runId, Play(p, runId, st, ops), more) == Play(p, runId, st, ops + more)
    decreases |more|
  {
    hide Perform;
    if |more| == 0 {
      assert ops + more == ops;
    } else {
      PlayConcat(p, runId, st, ops, more[..|more| - 1]);
      assert (ops + more)[..|ops + more| - 1] == ops + more[..|more| - 1];
    }
  }

  /**
   * Without a digest failure before the crash, the reopened journal is the earlier writer itself, and
   * whatever is then appended recovers again.
   */
  lemma {:induction false} AppendingAfterACrashRecovers(p: Platform, runId: string, st: JournalState, ops: seq<Op>,
                                                        n: nat, more: seq<Op>)
    requires Lawful(p) && Kept(p, runId, st) && UnusedAhead(runId, st) && st.next == Begun(st.records) + 1
    requires |st.file| <= n <= |Play(p, runId, st, ops).file|
    requires FailedDigests(p, runId, st, Survived(p, runId, st, ops, n)) == 0
    ensures
      var earlier := Play(p, runId, st, Survived(p, runId, st, ops, n));
      var later := Play(p, runId, earlier, more);
      && Recover(p, runId, Play(p, runId, st, ops).file[..n]) == Ok(earlier)
      && Recover(p, runId, later.file) == Ok(later.(next := Begun(later.records) + 1))
  {
    hide Play, Recover, Lawful, Begun, UnusedAhead, FailedDigests, Survived, Kept;
    CrashRefinesAnEarlierWriter(p, runId, st, ops, n);
    var past := Survived(p, runId, st, ops, n);
    PlayConcat(p, runId, st, past, more);
    HistoriesKeep(p, runId, st, past + more);
    WholeFileRecovers(p, runId, Play(p, runId, st, past + more));
  }

  // ---- Reopening when a digest had failed ----

  /**
   * On any reopened journal the next begin leaves a file that reloads if and only if its id is not
   * already in use, which the caller can look up before the call.
   */
  lemma {:induction false} BeginReloadsIffIdIsFresh(p: Platform, runId: string, st: JournalState, op: Op)
    requires Lawful(p) && Kept(p, runId, st)
    requires op.Begin? && Attempt(p, runId, st, op).Ok?
    ensures Recover(p, runId, Perform(p, runId, st, op).file).Ok? <==> IntentId(runId, st.next) !in st.latest
  {
    hide IntentId, Validate, Recover, Attempt, Lawful, Kept, Line, SplitLines, Perform, OneLine;
    AppendKeeps(p, runId, st, op);
    if IntentId(runId, st.next) !in st.latest {
      WholeFileRecovers(p, runId, Perform(p, runId, st, op));
    } else {
      NewRecordValidates(p, runId, st, op);
      WritingAddsALine(p, runId, st, op);
      var r := Attempt(p, runId, st, op).value;
      BadLastRecordFails(p, runId, st, Line(p, r), r);
    }
  }

  /** A file whose last whole record does not validate is refused. */
  lemma {:induction false} BadLastRecordFails(p: Platform, runId: string, st: JournalState, line: seq<byte>,
                                              r: IntentRecord)
    requires Kept(p, runId, st)
    requires OneLine(line) && p.decode(line) == Some(r)
    requires Validate(p, runId, st.records, st.latest, r, |st.records| + 1).Some?
    ensures Recover(p, runId, st.file + line).Err?
  {
    hide Validate, ValidLog, SplitLines, OneLine, LatestOf, LoadLines, LoadLine, Concat;
    var lines := SplitLines(st.file);
    SplitAppend(st.file, line);
    LoadsWhole(p, runId, lines, st.records, lines + [line], |lines|);
    assert st.records[..|lines|] == st.records && lines[..|lines|] == lines;
    LoadsBadLast(p, runId, lines + [line], Loaded(st.records, st.latest, |Concat(lines)|), r, |lines|);
  }

  lemma {:induction false} LoadsBadLast(p: Platform, runId: string, lines: seq<seq<byte>>, so: Loaded,
                                        r: IntentRecord, k: nat)
    requires |lines| == k + 1 && LoadLines(p, runId, lines, k) == Ok(so)
    requires OneLine(lines[k]) && p.decode(lines[k]) == Some(r)
    requires Validate(p, runId, so.records, so.latest, r, k + 1).Some?
    ensures LoadLines(p, runId, lines, |lines|).Err?
  {
    hide Validate;
  }

  /** `k` begins whose bodies cannot be digested. */
  function Failures(role: string, account: int, contract: int, k: nat): seq<Op> {
    seq(k, _ => Begin(role, account, contract, None, None))
  }

  lemma {:induction false} FailuresOnlyCount(p: Platform, runId: string, st: JournalState, role: string, account: int,
                                             contract: int, k: nat)
    requires !Blank(p, role) && account > 0 && contract > 0
    ensures Play(p, runId, st, Failures(role, account, contract, k)) == st.(next := st.next + k)
  {
    hide Blank, IntentId;
    var ops := Failures(role, account, contract, k);
    if k == 0 {
    } else {
      FailuresOnlyCount(p, runId, st, role, account, contract, k - 1);
      assert ops[..k - 1] == Failures(role, account, contract, k - 1);
    }
  }

  /** Some history ends in the begin that takes number `m`. */
  lemma {:induction false} NumberIsReached(p: Platform, runId: string, st: JournalState, role: string, account: int,
                                           contract: int, m: nat) returns (ops: seq<Op>)
    requires Lawful(p) && Kept(p, runId, st)
    requires !Blank(p, role) && account > 0 && contract > 0 && m >= st.next
    ensures Recover(p, runId, Play(p, runId, st, ops).file).Ok? <==> IntentId(runId, m) !in st.latest
  {
    hide Blank, IntentId, Recover, Kept, Lawful, Failures;
    var failures := Failures(role, account, contract, m - st.next);
    var good := Begin(role, account, contract, None, Some(""));
    FailuresOnlyCount(p, runId, st, role, account, contract, m - st.next);
    ops := failures + [good];
    assert ops[..|ops| - 1] == failures;
    var there := st.(next := m);
    KeptWithAnyNumber(p, runId, st, m);
    BeginReloadsIffIdIsFresh(p, runId, there, good);
  }

  /**
   * Exactly when a journal is safe to go on with: every later history leaves a file that reloads if and
   * only if no record carries a number at or above the counter. Any nonblank role will do to go on with.
   */
  lemma {:induction false} FutureReloadsIffNumbersAreUnused(p: Platform, runId: string, st: JournalState, role: string)
    requires Lawful(p) && Kept(p, runId, st) && !Blank(p, role)
    ensures (forall ops :: Recover(p, runId, Play(p, runId, st, ops).file).Ok?) <==> UnusedAhead(runId, st)
  {
    hide Blank, IntentId, Recover, Kept, Lawful, Play;
    if UnusedAhead(runId, st) {
      forall ops
        ensures Recover(p, runId, Play(p, runId, st, ops).file).Ok?
      {
        HistoriesKeep(p, runId, st, ops);
        WholeFileRecovers(p, runId, Play(p, runId, st, ops));
      }
    } else {
      var m: nat :| m >= st.next && IntentId(runId, m) in st.latest;
      var ops := NumberIsReached(p, runId, st, role, 1, 1, m);
      assert !Recover(p, runId, Play(p, runId, st, ops).file).Ok?;
    }
  }

  lemma {:induction false} KeptWithAnyNumber(p: Platform, runId: string, st: JournalState, next: nat)
    requires Kept(p, runId, st)
    ensures Kept(p, runId, st.(next := next))
  {
  }

  /**
   * A begin whose body cannot be digested, then a good one: reopened, the journal hands the good one's
   * id out again, and the file that results no longer loads.
   */
  lemma {:induction false} FailedDigestThenReopenReusesAnId(p: Platform, runId: string, role: string, account: int,
        contract: int, digest: string)
    requires Lawful(p) && !Blank(p, role) && account > 0 && contract > 0
    ensures
      var good := Begin(role, account, contract, None, Some(digest));
      var st := Play(p, runId, EMPTY, [Begin(role, account, contract, None, None), good]);
      && Recover(p, runId, st.file).Ok?
      && Recover(p, runId, Perform(p, runId, Recover(p, runId, st.file).value, good).file).Err?
  {
    hide Blank, IntentId, Recover, Play, Perform, Kept, Attempt, Lawful, UnusedAhead;
    var bad, good := Begin(role, account, contract, None, None), Begin(role, account, contract, None, Some(digest));
    var st := Play(p, runId, EMPTY, [bad, good]);
    EmptyIsKept(p, runId);
    HistoriesKeep(p, runId, EMPTY, [bad, good]);
    WholeFileRecovers(p, runId, st);
    BadThenGood(p, runId, role, account, contract, digest);
    var reopened := st.(next := Begun(st.records) + 1);
    KeptWithAnyNumber(p, runId, st, reopened.next);
    BeginReloadsIffIdIsFresh(p, runId, reopened, good);
  }

  /** One record, numbered two, and a counter of begun intents that says one. */
  lemma {:induction false} BadThenGood(p: Platform, runId: string, role: string, account: int, contract: int,
                                       digest: string)
    requires !Blank(p, role) && account > 0 && contract > 0
    ensures
      var good := Begin(role, account, contract, None, Some(digest));
      var st := Play(p, runId, EMPTY, [Begin(role, account, contract, None, None), good]);
      && Begun(st.records) == 1
      && IntentId(runId, 2) in st.latest
      && Attempt(p, runId, st.(next := 2), good).Ok?
  {
    hide Blank, IntentId;
    var bad, good := Begin(role, account, contract, None, None), Begin(role, account, contract, None, Some(digest));
    assert [bad, good][..1] == [bad] && [bad][..0] == [];
    var first := Perform(p, runId, EMPTY, bad);
    assert Play(p, runId, EMPTY, [bad, good][..1]) == first by {
      assert Play(p, runId, EMPTY, [bad][..0]) == EMPTY;
    }
    assert first == EMPTY.(next := 2);
    var r := Attempt(p, runId, first, good).value;
    LatestAppend([], r);
    assert [] + [r] == [r];
  }
}
