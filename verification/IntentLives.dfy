/** The twelve lives an intent can have, and that journals accept and extend exactly those. */
module IntentLives {
  import opened Prelude
  import opened Journal
  import opened CrashRecovery
  import opened JournalSoundness

  /** Every course an intent can take, from its submission on. */
  const LIVES: seq<seq<IntentState>> := [
    [SubmissionPending],
    [SubmissionPending, Acknowledged],
    [SubmissionPending, Acknowledged, Reconciled],
    [SubmissionPending, RequestAccepted],
    [SubmissionPending, RequestAccepted, Confirmed],
    [SubmissionPending, RequestAccepted, SubmissionUnknown],
    [SubmissionPending, RequestAccepted, SubmissionUnknown, Reconciled],
    [SubmissionPending, RequestAccepted, Reconciled],
    [SubmissionPending, Rejected],
    [SubmissionPending, SubmissionUnknown],
    [SubmissionPending, SubmissionUnknown, Reconciled],
    [SubmissionPending, Reconciled]]

  predicate IsLife(life: seq<IntentState>) {
    exists i :: 0 <= i < |LIVES| && LIVES[i] == life
  }

  /** The states an intent has gone through. */
  function StatesOf(records: seq<IntentRecord>, id: string): seq<IntentState>
    decreases |records|
  {
    if |records| == 0 then []
    else
      var last := records[|records| - 1].body;
      StatesOf(records[..|records| - 1], id) + if last.intentId == id then [last.state] else []
  }

  // ---- Lives and the transition table ----

  /** Life number i, spelled out. */
  predicate Spelled(life: seq<IntentState>) {
    && 1 <= |life| <= 4 && life[0].SubmissionPending?
    && (|life| == 2 ==> life[1].Acknowledged? || life[1].RequestAccepted? || life[1].Rejected?
                        || life[1].SubmissionUnknown? || life[1].Reconciled?)
    && (|life| == 3 ==>
          || (life[1].Acknowledged? && life[2].Reconciled?)
          || (life[1].RequestAccepted? && (life[2].Confirmed? || life[2].SubmissionUnknown? || life[2].Reconciled?))
          || (life[1].SubmissionUnknown? && life[2].Reconciled?))
    && (|life| == 4 ==> life[1].RequestAccepted? && life[2].SubmissionUnknown? && life[3].Reconciled?)
  }

  lemma {:induction false} LivesAreSpelled(life: seq<IntentState>)
    ensures IsLife(life) <==> Spelled(life)
  {
    if Spelled(life) {
      SpelledIsListed(life);
    }
    if i :| 0 <= i < |LIVES| && LIVES[i] == life {
      assert Spelled(LIVES[i]);
    }
  }

  lemma {:induction false} Listed(life: seq<IntentState>, i: nat)
    requires i < |LIVES| && LIVES[i] == life
    ensures IsLife(life)
  {
  }

  lemma {:induction false} SpelledIsListed(life: seq<IntentState>)
    requires Spelled(life)
    ensures IsLife(life)
  {
    hide IsLife;
    if |life| == 1 {
      Listed(life, 0);
    } else if |life| == 2 {
      match life[1]
      case Acknowledged => Listed(life, 1);
      case RequestAccepted => Listed(life, 3);
      case Rejected => Listed(life, 8);
      case SubmissionUnknown => Listed(life, 9);
      case Reconciled => Listed(life, 11);
      case _ =>
    } else if |life| == 3 {
      if life[1].Acknowledged? {
        Listed(life, 2);
      } else if life[1].SubmissionUnknown? {
        Listed(life, 10);
      } else if life[2].Confirmed? {
        Listed(life, 4);
      } else if life[2].SubmissionUnknown? {
        Listed(life, 5);
      } else {
        Listed(life, 7);
      }
    } else {
      Listed(life, 6);
    }
  }

  /** A life goes on by a state if and only if the transition table allows it. */
  lemma {:induction false} LivesGoOn(life: seq<IntentState>, s: IntentState)
    requires IsLife(life)
    ensures IsLife(life + [s]) <==> s in Allowed(life[|life| - 1])
  {
    LivesAreSpelled(life);
    LivesAreSpelled(life + [s]);
    hide IsLife, LIVES;
    var more := life + [s];
    assert more[|life|] == s && more[0] == life[0];
    if |life| > 1 {
      assert more[1] == life[1];
    }
    if |life| > 2 {
      assert more[2] == life[2];
    }
  }

  lemma {:induction false} LivesBegin(s: IntentState)
    ensures IsLife([s]) <==> s.SubmissionPending?
  {
    LivesAreSpelled([s]);
    hide IsLife, LIVES;
  }

  // ---- The journal's own books ----

  lemma {:induction false} OneMoreState(records: seq<IntentRecord>, r: IntentRecord, id: string)
    ensures StatesOf(records + [r], id) == StatesOf(records, id) + if r.body.intentId == id then [r.body.state] else []
    ensures LatestOf(records + [r]) == LatestOf(records)[r.body.intentId := r]
  {
    assert (records + [r])[..|records|] == records;
  }

  /** The latest record of an intent carries its last state; an unknown intent has none. */
  lemma {:induction false} LatestIsLast(records: seq<IntentRecord>, id: string)
    ensures id in LatestOf(records) <==> StatesOf(records, id) != []
    ensures id in LatestOf(records) ==>
      LatestOf(records)[id].body.state == StatesOf(records, id)[|StatesOf(records, id)| - 1]
      && LatestOf(records)[id].body.intentId == id
    decreases |records|
  {
    if |records| == 0 {
    } else {
      LatestIsLast(records[..|records| - 1], id);
    }
  }

  lemma {:induction false} LatestIsARecord(records: seq<IntentRecord>, id: string) returns (i: nat)
    requires id in LatestOf(records)
    ensures i < |records| && records[i] == LatestOf(records)[id] && records[i].body.intentId == id
    decreases |records|
  {
    var n := |records| - 1;
    if records[n].body.intentId == id {
      i := n;
    } else {
      i := LatestIsARecord(records[..n], id);
    }
  }

  // ---- What recovery accepts ----

  predicate GoodId(p: Platform, id: Option<string>) {
    id.Some? ==> |id.value| <= 64 && exists i :: 0 <= i < |id.value| && !p.space(id.value[i])
  }

  /** The hash covers all of the body, but for the id the first schema did not have. */
  function Covered(b: Body): Body {
    if b.schemaVersion == 1 then
      Body(1, b.runId, b.sequence, b.intentId,
           Identity(b.identity.role, b.identity.accountId, b.identity.contractId, None, b.identity.bodyDigest),
           b.state, b.previousHash, b.brokerOrderId, b.detail)
    else b
  }

  /** Record i is in order: version, id, chain, the intent's life and identity, and an acknowledgment's order. */
  predicate SoundAt(p: Platform, runId: string, records: seq<IntentRecord>, i: nat)
    requires i < |records|
  {
    var b := records[i].body;
    && (b.schemaVersion == 1 || b.schemaVersion == 2) && GoodId(p, b.identity.clientOperationId)
    && b.runId == runId && b.sequence == i + 1
    && b.previousHash == (if i == 0 then GENESIS_HASH else records[i - 1].recordHash)
    && records[i].recordHash == p.hash(Covered(b))
    && IsLife(StatesOf(records[..i + 1], b.intentId))
    && (forall j :: 0 <= j < i && records[j].body.intentId == b.intentId ==> records[j].body.identity == b.identity)
    && (b.state.Acknowledged? ==> b.brokerOrderId.Some? && b.brokerOrderId.value != "")
  }

  predicate Sound(p: Platform, runId: string, records: seq<IntentRecord>) {
    forall i :: 0 <= i < |records| ==> SoundAt(p, runId, records, i)
  }

  lemma {:induction false} SoundNext(p: Platform, runId: string, records: seq<IntentRecord>, r: IntentRecord)
    ensures Sound(p, runId, records + [r]) <==> Sound(p, runId, records) && SoundAt(p, runId, records + [r], |records|)
  {
    hide IsLife, StatesOf, GoodId;
    var more := records + [r];
    forall i | 0 <= i < |records|
      ensures SoundAt(p, runId, more, i) == SoundAt(p, runId, records, i)
    {
      assert more[..i + 1] == records[..i + 1];
    }
  }

  /** In a sound log an intent's identity is that of its latest record. */
  lemma {:induction false} SameIdentity(p: Platform, runId: string, records: seq<IntentRecord>, id: string, j: nat)
    requires ValidLog(p, runId, records) && j < |records| && records[j].body.intentId == id
    ensures id in LatestOf(records) && LatestOf(records)[id].body.identity == records[j].body.identity
  {
    hide ValidLog, LatestOf;
    IdentityIsConstant(p, runId, records, j);
  }

  lemma {:induction false} GoodIdIsGood(p: Platform, id: Option<string>)
    ensures GoodId(p, id) <==> GoodClientOperationId(p, id)
  {
  }

  lemma {:induction false} CoveredIsHashed(b: Body)
    ensures Covered(b) == HashedFields(b)
  {
  }

  /** One record passes the validation if and only if it is in order after those before. */
  lemma {:induction false} PassesIffSound(p: Platform, runId: string, records: seq<IntentRecord>, r: IntentRecord)
    requires ValidLog(p, runId, records) && Sound(p, runId, records)
    ensures Validate(p, runId, records, LatestOf(records), r, |records| + 1).None?
            <==> SoundAt(p, runId, records + [r], |records|)
  {
    hide ValidLog, LatestOf, IsLife, StatesOf, GoodId, GoodClientOperationId, HashedFields, Covered, Sound;
    var more, id, b := records + [r], r.body.intentId, r.body;
    assert more[..|records| + 1] == more;
    GoodIdIsGood(p, b.identity.clientOperationId);
    CoveredIsHashed(b);
    OneMoreState(records, r, id);
    LatestIsLast(records, id);
    if id in LatestOf(records) {
      LivesSoFar(p, runId, records, id);
      LivesGoOn(StatesOf(records, id), b.state);
      var k := LatestIsARecord(records, id);
      forall j | 0 <= j < |records| && more[j].body.intentId == id
        ensures more[j].body.identity == LatestOf(records)[id].body.identity
      {
        SameIdentity(p, runId, records, id, j);
      }
      assert more[k] == records[k];
      PendingNeverFollows(StatesOf(records, id), b.state);
    } else {
      assert StatesOf(records, id) + [b.state] == [b.state];
      LivesBegin(b.state);
      forall j | 0 <= j < |records|
        ensures more[j].body.intentId != id
      {
        if records[j].body.intentId == id {
          SameIdentity(p, runId, records, id, j);
        }
      }
    }
  }

  lemma {:induction false} PendingNeverFollows(life: seq<IntentState>, s: IntentState)
    requires IsLife(life)
    ensures s.SubmissionPending? ==> !IsLife(life + [s])
  {
    LivesGoOn(life, s);
    hide IsLife, LIVES;
  }

  lemma {:induction false} LivesSoFar(p: Platform, runId: string, records: seq<IntentRecord>, id: string)
    requires Sound(p, runId, records) && StatesOf(records, id) != []
    ensures IsLife(StatesOf(records, id))
    decreases |records|
  {
    hide IsLife, SoundAt;
    var n := |records| - 1;
    if records[n].body.intentId == id {
      assert SoundAt(p, runId, records, n);
      LastLife(p, runId, records);
    } else {
      assert records == records[..n] + [records[n]];
      SoundNext(p, runId, records[..n], records[n]);
      LivesSoFar(p, runId, records[..n], id);
      assert StatesOf(records[..n], id) + [] == StatesOf(records[..n], id);
    }
  }

  lemma {:induction false} LastLife(p: Platform, runId: string, records: seq<IntentRecord>)
    requires |records| > 0 && SoundAt(p, runId, records, |records| - 1)
    ensures IsLife(StatesOf(records, records[|records| - 1].body.intentId))
  {
    assert records[..|records|] == records;
  }

  /**
   * Exactly what the validation lets pass: a log is valid if and only if every record is in order, and so every
   * intent in it is somewhere in one of the twelve lives, with one identity throughout.
   */
  lemma {:induction false} ValidIffSound(p: Platform, runId: string, records: seq<IntentRecord>)
    ensures ValidLog(p, runId, records) <==> Sound(p, runId, records)
    ensures ValidLog(p, runId, records) ==>
      forall id :: StatesOf(records, id) == [] || IsLife(StatesOf(records, id))
    decreases |records|
  {
    hide Validate, SoundAt, IsLife, Sound, StatesOf;
    if |records| == 0 {
      assert Sound(p, runId, records) by { NothingUnsound(p, runId); }
    } else {
      var n := |records| - 1;
      var before, last := records[..n], records[n];
      ValidIffSound(p, runId, before);
      assert records == before + [last];
      SoundNext(p, runId, before, last);
      if Sound(p, runId, before) {
        PassesIffSound(p, runId, before, last);
      }
    }
    forall id | Sound(p, runId, records) && StatesOf(records, id) != []
      ensures IsLife(StatesOf(records, id))
    {
      LivesSoFar(p, runId, records, id);
    }
  }

  lemma {:induction false} NothingUnsound(p: Platform, runId: string)
    ensures Sound(p, runId, [])
  {
  }

  // ---- What the writer may do ----

  /**
   * A transition is accepted if and only if it takes the intent one step on in one of its lives, and an
   * acknowledgment names its order; the record then carries the intent's identity and at most 256 characters
   * of the detail.
   */
  lemma {:induction false} AdvancesIffALife(p: Platform, runId: string, st: JournalState, id: string,
                                            state: IntentState,
                                            order: Option<string>, detail: Option<string>)
    requires ValidLog(p, runId, st.records) && st.latest == LatestOf(st.records)
    ensures
      var attempt := Attempt(p, runId, st, Advance(id, state, order, detail));
      && (attempt.Ok? <==>
            && StatesOf(st.records, id) != [] && IsLife(StatesOf(st.records, id) + [state])
            && (state.Acknowledged? ==> order.Some? && order.value != ""))
      && (attempt.Ok? ==>
            var b := attempt.value.body;
            && b.intentId == id && b.state == state && b.brokerOrderId == order && b.sequence == |st.records| + 1
            && (forall j :: 0 <= j < |st.records| && st.records[j].body.intentId == id ==>
                  st.records[j].body.identity == b.identity)
            && (b.detail.Some? <==> detail.Some?)
            && (detail.Some? ==> b.detail.value <= detail.value && |b.detail.value| == if |detail.value| <= 256
                                                                                       then |detail.value| else 256))
  {
    hide ValidLog, LatestOf, IsLife, StatesOf, HashedFields;
    ValidIffSound(p, runId, st.records);
    LatestIsLast(st.records, id);
    if id in st.latest {
      LivesGoOn(StatesOf(st.records, id), state);
      forall j | 0 <= j < |st.records| && st.records[j].body.intentId == id
        ensures st.records[j].body.identity == st.latest[id].body.identity
      {
        SameIdentity(p, runId, st.records, id, j);
      }
    }
  }

  /** A new intent is accepted if and only if its arguments are good and its body can be digested. */
  lemma {:induction false} BeginsIffGood(p: Platform, runId: string, st: JournalState, role: string, account: int,
                                         contract: int, cid: Option<string>, digest: Option<string>)
    ensures
      var attempt := Attempt(p, runId, st, Begin(role, account, contract, cid, digest));
      && (attempt.Ok? <==>
            && (exists i :: 0 <= i < |role| && !p.space(role[i])) && account >= 1 && contract >= 1
            && GoodId(p, cid) && digest.Some?)
      && (attempt.Ok? ==>
            var b := attempt.value.body;
            && b.identity == Identity(role, account, contract, cid, digest.value)
            && b.state.SubmissionPending? && b.brokerOrderId.None? && b.detail.None?)
  {
    hide IntentId, HashedFields;
    GoodIdIsGood(p, cid);
  }

  // ---- Intent numbers ----

  /** What a string of digits is worth. */
  function Worth(s: string): nat
    decreases |s|
  {
    if |s| == 0 then 0 else 10 * Worth(s[..|s| - 1]) + DigitWorth(s[|s| - 1])
  }

  function DigitWorth(c: char): nat {
    if '0' <= c <= '9' then (c - '0') as int else 0
  }

  lemma {:induction false} DecimalReads(n: nat)
    ensures Worth(Decimal(n)) == n
    ensures n > 0 ==> Decimal(n)[0] != '0'
  {
    if n < 10 {
      assert Decimal(n)[..0] == [];
      DigitReads(n);
    } else {
      DecimalReads(n / 10);
      var before := Decimal(n / 10);
      assert Decimal(n)[..|before|] == before;
      DigitReads(n % 10);
    }
  }

  lemma {:induction false} DigitReads(d: nat)
    requires d < 10
    ensures DigitWorth(Digit(d)) == d && (d > 0 ==> Digit(d) != '0')
  {
    assert "0123456789"[0] == '0' && "0123456789"[1] == '1' && "0123456789"[2] == '2' && "0123456789"[3] == '3';
    assert "0123456789"[4] == '4' && "0123456789"[5] == '5' && "0123456789"[6] == '6' && "0123456789"[7] == '7';
    assert "0123456789"[8] == '8' && "0123456789"[9] == '9';
  }

  lemma {:induction false} ZerosAreWorthNothing(k: nat, s: string)
    ensures Worth(Zeros(k) + s) == Worth(s)
    decreases |s|, k
  {
    if |s| == 0 {
      if k > 0 {
        assert (Zeros(k) + s)[..k - 1] == Zeros(k - 1) + s;
        ZerosAreWorthNothing(k - 1, s);
      } else {
        assert Zeros(0) + s == s;
      }
    } else {
      assert (Zeros(k) + s)[..k + |s| - 1] == Zeros(k) + s[..|s| - 1];
      ZerosAreWorthNothing(k, s[..|s| - 1]);
    }
  }

  /** An intent's number reads back from its digits, of which there are at least eight and no more than needed. */
  lemma {:induction false} NumbersReadBack(n: nat)
    ensures Worth(Padded(n)) == n && |Padded(n)| >= 8
    ensures |Padded(n)| > 8 ==> Padded(n)[0] != '0'
  {
    DecimalReads(n);
    var digits := Decimal(n);
    if |digits| < 8 {
      ZerosAreWorthNothing(8 - |digits|, digits);
    }
  }
}
