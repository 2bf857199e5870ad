/** What a reader may rely on in any file the journal accepts, whoever wrote it. */
module JournalSoundness {
  import opened Prelude
  import opened Journal
  import opened CrashRecovery

  // ---- Accepted files hold valid logs ----

  /** What the loading loop has established after k lines, r of which were whole records. */
  predicate LoadedFrom(p: Platform, runId: string, lines: seq<seq<byte>>, so: Loaded) {
    && |so.records| <= |lines|
    && ValidLog(p, runId, so.records)
    && so.latest == LatestOf(so.records)
    && so.verified == |Concat(lines[..|so.records|])|
    && (forall i :: 0 <= i < |so.records| ==> Ended(lines[i]) && p.decode(lines[i]) == Some(so.records[i]))
  }

  lemma {:induction false} LoadsAreValid(p: Platform, runId: string, lines: seq<seq<byte>>, k: nat)
    requires k <= |lines| && LoadLines(p, runId, lines, k).Ok?
    ensures
      var so := LoadLines(p, runId, lines, k).value;
      && LoadedFrom(p, runId, lines, so)
      && (|so.records| == k || (k == |lines| && |so.records| == k - 1 && !Ended(lines[k - 1])))
    decreases k
  {
    hide LoadLine, LoadedFrom;
    if k > 0 {
      LoadsAreValid(p, runId, lines, k - 1);
      LineKeepsLoaded(p, runId, lines, LoadLines(p, runId, lines, k - 1).value, k);
    } else {
      NothingLoaded(p, runId, lines);
    }
  }

  lemma {:induction false} NothingLoaded(p: Platform, runId: string, lines: seq<seq<byte>>)
    ensures LoadedFrom(p, runId, lines, Loaded([], map[], 0))
  {
  }

  lemma {:induction false} LineKeepsLoaded(p: Platform, runId: string, lines: seq<seq<byte>>, so: Loaded, k: nat)
    requires 0 < k <= |lines| && |so.records| == k - 1 && LoadedFrom(p, runId, lines, so)
    requires LoadLine(p, runId, so, lines[k - 1], k, k == |lines|).Ok?
    ensures
      var next := LoadLine(p, runId, so, lines[k - 1], k, k == |lines|).value;
      && LoadedFrom(p, runId, lines, next)
      && (|next.records| == k || (k == |lines| && |next.records| == k - 1 && !Ended(lines[k - 1])))
  {
    hide Validate, LatestOf, Concat;
    if Ended(lines[k - 1]) {
      var r := p.decode(lines[k - 1]).value;
      LatestAppend(so.records, r);
      ValidAppend(p, runId, so.records, r);
      assert lines[..k] == lines[..k - 1] + [lines[k - 1]];
      ConcatAppend(lines[..k - 1], lines[k - 1]);
    }
  }

  lemma {:induction false} ValidAppend(p: Platform, runId: string, records: seq<IntentRecord>, r: IntentRecord)
    requires ValidLog(p, runId, records)
    requires Validate(p, runId, records, LatestOf(records), r, |records| + 1).None?
    ensures ValidLog(p, runId, records + [r])
  {
    hide Validate, LatestOf;
    assert (records + [r])[..|records|] == records;
  }

  /**
   * Any accepted file, whoever wrote it: what recovery keeps is a prefix of it made of its own lines, and
   * its books are in order, ready to be written on.
   */
  lemma {:induction false} AcceptedFilesAreValid(p: Platform, runId: string, file: seq<byte>)
    requires Recover(p, runId, file).Ok?
    ensures
      var st := Recover(p, runId, file).value;
      && Kept(p, runId, st)
      && st.next == Begun(st.records) + 1
      && |st.records| <= |SplitLines(file)|
      && st.file == Concat(SplitLines(file)[..|st.records|])
      && st.file <= file
  {
    hide Validate, ValidLog, LatestOf, Begun, SplitLines, LoadLines, OneLine, Concat;
    var lines := SplitLines(file);
    LoadsAreValid(p, runId, lines, |lines|);
    SplitConcat(file);
    var k := |LoadLines(p, runId, lines, |lines|).value.records|;
    ConcatPrefix(lines, k);
    assert forall i :: 0 <= i < k ==> lines[..k][i] == lines[i];
    SplitsBack(lines[..k]);
  }

  /** The file a recovery leaves recovers to the same journal. */
  lemma {:induction false} RecoveryIsIdempotent(p: Platform, runId: string, file: seq<byte>)
    requires Recover(p, runId, file).Ok?
    ensures Recover(p, runId, Recover(p, runId, file).value.file) == Recover(p, runId, file)
  {
    hide Recover, Kept, Begun;
    AcceptedFilesAreValid(p, runId, file);
    WholeFileRecovers(p, runId, Recover(p, runId, file).value);
  }

  /** Going on from any accepted file, old versions included: when nothing that follows can spoil it. */
  lemma {:induction false} GoingOnIsSafeIffNumbersAreUnused(p: Platform, runId: string, file: seq<byte>, role: string)
    requires Lawful(p) && !Blank(p, role) && Recover(p, runId, file).Ok?
    ensures
      var st := Recover(p, runId, file).value;
      (forall ops :: Recover(p, runId, Play(p, runId, st, ops).file).Ok?) <==> UnusedAhead(runId, st)
  {
    hide Recover, Kept, Begun, Lawful, Blank, Play, UnusedAhead;
    AcceptedFilesAreValid(p, runId, file);
    FutureReloadsIffNumbersAreUnused(p, runId, Recover(p, runId, file).value, role);
  }

  // ---- Valid logs are sound ----

  /** Contiguous sequence numbers, an unbroken hash chain, and the run's own id throughout. */
  predicate Chained(p: Platform, runId: string, records: seq<IntentRecord>) {
    forall i :: 0 <= i < |records| ==> ChainedAt(p, runId, records, i)
  }

  predicate ChainedAt(p: Platform, runId: string, records: seq<IntentRecord>, i: nat)
    requires i < |records|
  {
    && records[i].body.sequence == i + 1
    && records[i].body.runId == runId
    && records[i].recordHash == p.hash(HashedFields(records[i].body))
    && records[i].body.previousHash == (if i == 0 then GENESIS_HASH else records[i - 1].recordHash)
  }

  lemma {:induction false} ValidLogsAreChained(p: Platform, runId: string, records: seq<IntentRecord>)
    requires ValidLog(p, runId, records)
    ensures Chained(p, runId, records)
  {
    hide Validate, ValidLog, HashedFields;
    forall i | 0 <= i < |records|
      ensures ChainedAt(p, runId, records, i)
    {
      ValidPrefix(p, runId, records, i + 1);
      assert records[..i + 1][..i] == records[..i];
      LastIsChained(p, runId, records[..i + 1]);
    }
  }

  lemma {:induction false} LastIsChained(p: Platform, runId: string, records: seq<IntentRecord>)
    requires ValidLog(p, runId, records) && |records| > 0
    ensures
      var r := records[|records| - 1];
      && r.body.sequence == |records|
      && r.body.runId == runId
      && r.recordHash == p.hash(HashedFields(r.body))
      && r.body.previousHash == PreviousHash(records[..|records| - 1])
  {
    hide LatestOf, HashedFields, GoodClientOperationId, PreviousHash;
  }

  /** How far an intent still has to go. */
  function Rank(s: IntentState): nat {
    match s
    case SubmissionPending => 3
    case RequestAccepted => 2
    case SubmissionUnknown => 1
    case Acknowledged => 1
    case Rejected => 0
    case Confirmed => 0
    case Reconciled => 0
  }

  lemma {:induction false} TransitionsDescend(s: IntentState, t: IntentState)
    requires t in Allowed(s)
    ensures Rank(t) < Rank(s)
  {
  }

  function CountOf(records: seq<IntentRecord>, id: string): nat
    decreases |records|
  {
    if |records| == 0 then 0
    else CountOf(records[..|records| - 1], id) + if records[|records| - 1].body.intentId == id then 1 else 0
  }

  /** The records of one intent: they begin with its submission, and each later one is a legal successor. */
  predicate OneLife(records: seq<IntentRecord>, id: string) {
    forall j :: 0 <= j < |records| && records[j].body.intentId == id ==>
      if id in LatestOf(records[..j]) then
        && records[j].body.state in Allowed(LatestOf(records[..j])[id].body.state)
        && records[j].body.identity == LatestOf(records[..j])[id].body.identity
        && (records[j].body.state.Acknowledged? ==> NamesOrder(records[j].body.brokerOrderId))
      else records[j].body.state.SubmissionPending?
  }

  lemma {:induction false} ValidStep(p: Platform, runId: string, records: seq<IntentRecord>)
    requires ValidLog(p, runId, records) && |records| > 0
    ensures
      var before, r := LatestOf(records[..|records| - 1]), records[|records| - 1];
      if r.body.intentId in before then
        && r.body.state in Allowed(before[r.body.intentId].body.state)
        && r.body.identity == before[r.body.intentId].body.identity
        && (r.body.state.Acknowledged? ==> NamesOrder(r.body.brokerOrderId))
      else r.body.state.SubmissionPending?
  {
    hide LatestOf, HashedFields, GoodClientOperationId;
  }

  lemma {:induction false} EveryIntentLivesOnce(p: Platform, runId: string, records: seq<IntentRecord>, id: string)
    requires ValidLog(p, runId, records)
    ensures OneLife(records, id)
  {
    hide Validate;
    forall j | 0 <= j < |records| && records[j].body.intentId == id
      ensures
        if id in LatestOf(records[..j]) then
          && records[j].body.state in Allowed(LatestOf(records[..j])[id].body.state)
          && records[j].body.identity == LatestOf(records[..j])[id].body.identity
          && (records[j].body.state.Acknowledged? ==> NamesOrder(records[j].body.brokerOrderId))
        else records[j].body.state.SubmissionPending?
    {
      ValidPrefix(p, runId, records, j + 1);
      assert records[..j + 1][..j] == records[..j];
      ValidStep(p, runId, records[..j + 1]);
    }
  }

  /** The latest record carries the identity of every record of its intent. */
  lemma {:induction false} IdentityIsConstant(p: Platform, runId: string, records: seq<IntentRecord>, i: nat)
    requires ValidLog(p, runId, records) && i < |records|
    ensures
      var id := records[i].body.intentId;
      id in LatestOf(records) && LatestOf(records)[id].body.identity == records[i].body.identity
    decreases |records|
  {
    hide Validate;
    var before := records[..|records| - 1];
    if i < |before| {
      IdentityIsConstant(p, runId, before, i);
      ValidStep(p, runId, records);
    }
  }

  /** An intent has at most four records: each uses up at least one unit of rank. */
  lemma {:induction false} FourRecordsAtMost(p: Platform, runId: string, records: seq<IntentRecord>, id: string)
    requires ValidLog(p, runId, records)
    ensures id !in LatestOf(records) ==> CountOf(records, id) == 0
    ensures id in LatestOf(records) ==> CountOf(records, id) + Rank(LatestOf(records)[id].body.state) <= 4
    decreases |records|
  {
    hide Validate;
    if |records| == 0 {
    } else {
      var before, r := records[..|records| - 1], records[|records| - 1];
      FourRecordsAtMost(p, runId, before, id);
      ValidStep(p, runId, records);
      if r.body.intentId == id && id in LatestOf(before) {
        TransitionsDescend(LatestOf(before)[id].body.state, r.body.state);
      }
    }
  }

  // ---- Counting all records ----

  ghost function PickId(ids: set<string>): string
    requires ids != {}
  {
    var id :| id in ids; id
  }

  ghost function CountAll(records: seq<IntentRecord>, ids: set<string>): nat
    decreases |ids|
  {
    if ids == {} then 0
    else CountOf(records, PickId(ids)) + CountAll(records, ids - {PickId(ids)})
  }

  /** The order in which the ids are taken does not matter. */
  lemma {:induction false} CountAllBut(records: seq<IntentRecord>, ids: set<string>, id: string)
    requires id in ids
    ensures CountAll(records, ids) == CountOf(records, id) + CountAll(records, ids - {id})
    decreases |ids|
  {
    var pick := PickId(ids);
    if pick == id {
    } else {
      CountAllBut(records, ids - {pick}, id);
      CountAllBut(records, ids - {id}, pick);
      assert ids - {pick} - {id} == ids - {id} - {pick};
    }
  }

  lemma {:induction false} CountAllAppend(records: seq<IntentRecord>, r: IntentRecord, ids: set<string>)
    ensures CountAll(records + [r], ids) == CountAll(records, ids) + if r.body.intentId in ids then 1 else 0
    decreases |ids|
  {
    if ids == {} {
    } else {
      var pick := PickId(ids);
      assert (records + [r])[..|records|] == records;
      CountAllAppend(records, r, ids - {pick});
    }
  }

  lemma {:induction false} CountAllBound(records: seq<IntentRecord>, ids: set<string>, most: nat)
    requires forall id :: id in ids ==> CountOf(records, id) <= most
    ensures CountAll(records, ids) <= most * |ids|
    decreases |ids|
  {
    hide CountOf;
    if ids == {} {
    } else {
      var pick := PickId(ids);
      CountAllBound(records, ids - {pick}, most);
      var rest := |ids - {pick}|;
      assert |ids| == rest + 1;
      assert most * (rest + 1) == most * rest + most;
    }
  }

  lemma {:induction false} EveryRecordIsCounted(p: Platform, runId: string, records: seq<IntentRecord>)
    requires ValidLog(p, runId, records)
    ensures CountAll(records, LatestOf(records).Keys) == |records|
    decreases |records|
  {
    hide Validate, ValidLog, CountAll, CountOf;
    if |records| > 0 {
      var before, r := records[..|records| - 1], records[|records| - 1];
      ValidPrefix(p, runId, records, |before|);
      EveryRecordIsCounted(p, runId, before);
      assert records == before + [r];
      assert LatestOf(records).Keys == LatestOf(before).Keys + {r.body.intentId};
      KeysCounted(p, runId, before, r, LatestOf(before).Keys);
    } else {
      assert LatestOf(records).Keys == {};
      NothingCounts(records);
    }
  }

  lemma {:induction false} KeysCounted(p: Platform, runId: string, before: seq<IntentRecord>, r: IntentRecord,
                                       keys: set<string>)
    requires ValidLog(p, runId, before) && keys == LatestOf(before).Keys
    ensures CountAll(before + [r], keys + {r.body.intentId}) == CountAll(before, keys) + 1
  {
    hide ValidLog, CountAll, CountOf, LatestOf;
    var id := r.body.intentId;
    CountAllAppend(before, r, keys + {id});
    if id !in keys {
      FourRecordsAtMost(p, runId, before, id);
      CountAllBut(before, keys + {id}, id);
      assert keys + {id} - {id} == keys;
    } else {
      assert keys + {id} == keys;
    }
  }

  lemma {:induction false} NothingCounts(records: seq<IntentRecord>)
    ensures CountAll(records, {}) == 0
  {
  }

  /**
   * Soundness of acceptance: sequence numbers and hash chain are unbroken, every intent lives one legal
   * life under one identity with at most four records, and so records number at most four per intent.
   */
  lemma {:induction false} AcceptedFilesAreSound(p: Platform, runId: string, file: seq<byte>)
    requires Recover(p, runId, file).Ok?
    ensures
      var st := Recover(p, runId, file).value;
      && Chained(p, runId, st.records)
      && (forall id :: OneLife(st.records, id) && CountOf(st.records, id) <= 4)
      && (forall i :: 0 <= i < |st.records| ==>
            && st.records[i].body.intentId in st.latest
            && st.latest[st.records[i].body.intentId].body.identity == st.records[i].body.identity)
      && |st.records| <= 4 * |st.latest|
  {
    hide Recover, Validate, ValidLog, CountOf, LatestOf, OneLife, Chained;
    AcceptedFilesAreValid(p, runId, file);
    var records := Recover(p, runId, file).value.records;
    ValidLogsAreChained(p, runId, records);
    forall id
      ensures OneLife(records, id) && CountOf(records, id) <= 4
    {
      EveryIntentLivesOnce(p, runId, records, id);
      FourRecordsAtMost(p, runId, records, id);
    }
    forall i | 0 <= i < |records|
      ensures records[i].body.intentId in LatestOf(records)
      ensures LatestOf(records)[records[i].body.intentId].body.identity == records[i].body.identity
    {
      IdentityIsConstant(p, runId, records, i);
    }
    EveryRecordIsCounted(p, runId, records);
    CountAllBound(records, LatestOf(records).Keys, 4);
  }
}
