/** The append-only, hash-linked journal of broker-mutating intents. */
module Journal {
  import opened Prelude

  newtype byte = b: int | 0 <= b < 256

  const LF: byte := 10
  const CR: byte := 13
  const SCHEMA_VERSION := 2
  const GENESIS_HASH: string := "0000000000000000000000000000000000000000000000000000000000000000"

  datatype IntentState =
    | SubmissionPending | Acknowledged | RequestAccepted | Rejected
    | SubmissionUnknown | Confirmed | Reconciled

  function Allowed(s: IntentState): set<IntentState> {
    match s
    case SubmissionPending => {Acknowledged, RequestAccepted, Rejected, SubmissionUnknown, Reconciled}
    case RequestAccepted => {Confirmed, SubmissionUnknown, Reconciled}
    case SubmissionUnknown => {Reconciled}
    case Acknowledged => {Reconciled}
    case Rejected => {}
    case Confirmed => {}
    case Reconciled => {}
  }

  /** What an intent is about; the same in all of its records. */
  datatype Identity = Identity(
    role: string, accountId: int, contractId: int, clientOperationId: Option<string>, bodyDigest: string)

  /** A record without its own hash. */
  datatype Body = Body(
    schemaVersion: int,
    runId: string,
    sequence: int,
    intentId: string,
    identity: Identity,
    state: IntentState,
    previousHash: string,
    brokerOrderId: Option<string>,
    detail: Option<string>)

  datatype IntentRecord = IntentRecord(body: Body, recordHash: string)

  /** The parts of the platform the journal rests on: JSON lines, SHA-256 and what counts as a blank. */
  datatype Platform = Platform(
    encode: IntentRecord -> seq<byte>,
    decode: seq<byte> -> Option<IntentRecord>,
    hash: Body -> string,
    space: char -> bool)

  predicate NoBreaks(s: seq<byte>) {
    forall i :: 0 <= i < |s| ==> s[i] != LF && s[i] != CR
  }

  /** An encoded record is one line, and decoding that line gives it back. */
  ghost predicate Lawful(p: Platform) {
    forall r: IntentRecord :: r.body.schemaVersion == SCHEMA_VERSION ==>
      NoBreaks(p.encode(r)) && p.decode(p.encode(r) + [LF]) == Some(r)
  }

  datatype JournalError =
    | BlankRunId | BlankRole | NonPositiveId | BadClientOperationId | NotCanonical
    | UnknownIntent | IllegalTransition | MissingBrokerOrderId
    | Torn(index: nat) | Invalid(index: nat) | UnsupportedSchema(index: nat) | ForeignRun(index: nat)
    | BrokenSequence(index: nat) | BrokenChain(index: nat) | HashMismatch(index: nat)
    | DuplicateIntent(index: nat) | OrphanTransition(index: nat) | IllegalLoadedTransition(index: nat)
    | IdentityChanged(index: nat) | AcknowledgedWithoutOrder(index: nat)

  datatype Result<+T> = Ok(value: T) | Err(error: JournalError)

  /** The journal object: its file, its records, and what it keeps beside them. */
  datatype JournalState = JournalState(
    file: seq<byte>,
    records: seq<IntentRecord>,
    latest: map<string, IntentRecord>,
    next: nat)

  const EMPTY: JournalState := JournalState([], [], map[], 1)

  predicate Blank(p: Platform, s: string) {
    forall i :: 0 <= i < |s| ==> p.space(s[i])
  }

  predicate GoodClientOperationId(p: Platform, id: Option<string>) {
    id.None? || (!Blank(p, id.value) && |id.value| <= 64)
  }

  function Bounded(detail: Option<string>): Option<string> {
    if detail.Some? && |detail.value| > 256 then Some(detail.value[..256]) else detail
  }

  predicate NamesOrder(id: Option<string>) {
    id.Some? && id.value != ""
  }

  // ---- Intent ids ----

  function Digit(d: nat): char
    requires d < 10
  {
    "0123456789"[d]
  }

  function Decimal(n: nat): (s: string)
    ensures |s| > 0
  {
    if n < 10 then [Digit(n)] else Decimal(n / 10) + [Digit(n % 10)]
  }

  function Zeros(n: nat): (s: string)
    ensures |s| == n
  {
    seq(n, _ => '0')
  }

  /** Zero-padded to at least eight digits. */
  function Padded(n: nat): string {
    var digits := Decimal(n);
    if |digits| < 8 then Zeros(8 - |digits|) + digits else digits
  }

  function IntentId(runId: string, n: nat): string {
    runId + ":intent:" + Padded(n)
  }

  // ---- Writing ----

  function PreviousHash(records: seq<IntentRecord>): string {
    if |records| == 0 then GENESIS_HASH else records[|records| - 1].recordHash
  }

  /** The dictionary that is hashed: version 1 leaves the client operation id out. */
  function HashedFields(b: Body): Body {
    if b.schemaVersion == 1 then b.(identity := b.identity.(clientOperationId := None)) else b
  }

  function NewRecord(p: Platform, runId: string, records: seq<IntentRecord>, intentId: string, identity: Identity,
                     state: IntentState, brokerOrderId: Option<string>, detail: Option<string>): IntentRecord
  {
    var body := Body(SCHEMA_VERSION, runId, |records| + 1, intentId, identity, state,
                     PreviousHash(records), brokerOrderId, detail);
    IntentRecord(body, p.hash(HashedFields(body)))
  }

  function Line(p: Platform, r: IntentRecord): seq<byte> {
    p.encode(r) + [LF]
  }

  function Append(p: Platform, st: JournalState, r: IntentRecord): JournalState {
    JournalState(st.file + Line(p, r), st.records + [r], st.latest[r.body.intentId := r], st.next)
  }

  /** `digest` is the hash of the request body, absent when the body is not canonical JSON. */
  datatype Op =
    | Begin(role: string, accountId: int, contractId: int, clientOperationId: Option<string>, digest: Option<string>)
    | Advance(intentId: string, state: IntentState, brokerOrderId: Option<string>, detail: Option<string>)

  /** The record an operation would append, or why it raises. */
  function Attempt(p: Platform, runId: string, st: JournalState, op: Op): Result<IntentRecord> {
    match op
    case Begin(role, account, contract, cid, digest) =>
      if Blank(p, role) then Err(BlankRole)
      else if account <= 0 || contract <= 0 then Err(NonPositiveId)
      else if !GoodClientOperationId(p, cid) then Err(BadClientOperationId)
      else if digest.None? then Err(NotCanonical)
      else Ok(NewRecord(p, runId, st.records, IntentId(runId, st.next),
                        Identity(role, account, contract, cid, digest.value), SubmissionPending, None, None))
    case Advance(id, state, order, detail) =>
      if id !in st.latest then Err(UnknownIntent)
      else if state !in Allowed(st.latest[id].body.state) then Err(IllegalTransition)
      else if state.Acknowledged? && !NamesOrder(order) then Err(MissingBrokerOrderId)
      else Ok(NewRecord(p, runId, st.records, st.latest[id].body.intentId, st.latest[id].body.identity,
                        state, order, Bounded(detail)))
  }

  /** The intent number moves as soon as the arguments pass, before the body is digested. */
  predicate TakesNumber(attempt: Result<IntentRecord>, op: Op) {
    op.Begin? && (attempt.Ok? || attempt.error == NotCanonical)
  }

  function Perform(p: Platform, runId: string, st: JournalState, op: Op): JournalState {
    var attempt := Attempt(p, runId, st, op);
    var numbered := if TakesNumber(attempt, op) then st.(next := st.next + 1) else st;
    if attempt.Ok? then Append(p, numbered, attempt.value) else numbered
  }

  function Play(p: Platform, runId: string, st: JournalState, ops: seq<Op>): JournalState
    decreases |ops|
  {
    if |ops| == 0 then st
    else Perform(p, runId, Play(p, runId, st, ops[..|ops| - 1]), ops[|ops| - 1])
  }

  // ---- Loading ----

  /** How long the first line is, its terminator included; CR, LF and CR LF all end a line. */
  function FirstLine(s: seq<byte>): (n: nat)
    requires |s| > 0
    ensures 0 < n <= |s|
  {
    if s[0] == LF then 1
    else if s[0] == CR then (if |s| > 1 && s[1] == LF then 2 else 1)
    else if |s| == 1 then 1
    else 1 + FirstLine(s[1..])
  }

  function SplitLines(s: seq<byte>): seq<seq<byte>>
    decreases |s|
  {
    if |s| == 0 then [] else [s[..FirstLine(s)]] + SplitLines(s[FirstLine(s)..])
  }

  predicate Ended(line: seq<byte>) {
    |line| > 0 && line[|line| - 1] == LF
  }

  function LatestOf(records: seq<IntentRecord>): map<string, IntentRecord>
    decreases |records|
  {
    if |records| == 0 then map[]
    else
      var last := records[|records| - 1];
      LatestOf(records[..|records| - 1])[last.body.intentId := last]
  }

  /** Full revalidation of one loaded record, in the order of the checks. */
  function Validate(p: Platform, runId: string, records: seq<IntentRecord>, latest: map<string, IntentRecord>,
                    r: IntentRecord, index: nat): Option<JournalError>
  {
    var b := r.body;
    if b.schemaVersion != 1 && b.schemaVersion != SCHEMA_VERSION then Some(UnsupportedSchema(index))
    else if !GoodClientOperationId(p, b.identity.clientOperationId) then Some(BadClientOperationId)
    else if b.runId != runId then Some(ForeignRun(index))
    else if b.sequence != index then Some(BrokenSequence(index))
    else if b.previousHash != PreviousHash(records) then Some(BrokenChain(index))
    else if r.recordHash != p.hash(HashedFields(b)) then Some(HashMismatch(index))
    else if b.state.SubmissionPending? then
      if b.intentId in latest then Some(DuplicateIntent(index)) else None
    else if b.intentId !in latest then Some(OrphanTransition(index))
    else
      var previous := latest[b.intentId].body;
      if b.state !in Allowed(previous.state) then Some(IllegalLoadedTransition(index))
      else if b.identity != previous.identity then Some(IdentityChanged(index))
      else if b.state.Acknowledged? && !NamesOrder(b.brokerOrderId) then Some(AcknowledgedWithoutOrder(index))
      else None
  }

  datatype Loaded = Loaded(records: seq<IntentRecord>, latest: map<string, IntentRecord>, verified: nat)

  /** Line k of the file: a torn last line is dropped, a torn inner line raises. */
  function LoadLine(p: Platform, runId: string, so: Loaded, line: seq<byte>, index: nat, isLast: bool): Result<Loaded> {
    if !Ended(line) then (if isLast then Ok(so) else Err(Torn(index)))
    else
      match p.decode(line)
      case None => Err(Invalid(index))
      case Some(r) =>
        match Validate(p, runId, so.records, so.latest, r, index)
        case Some(e) => Err(e)
        case None => Ok(Loaded(so.records + [r], so.latest[r.body.intentId := r], so.verified + |line|))
  }

  function LoadLines(p: Platform, runId: string, lines: seq<seq<byte>>, k: nat): Result<Loaded>
    requires k <= |lines|
  {
    if k == 0 then Ok(Loaded([], map[], 0))
    else
      match LoadLines(p, runId, lines, k - 1)
      case Err(e) => Err(e)
      case Ok(so) => LoadLine(p, runId, so, lines[k - 1], k, k == |lines|)
  }

  /** How many intents the records begin. */
  function Begun(records: seq<IntentRecord>): nat
    decreases |records|
  {
    if |records| == 0 then 0
    else Begun(records[..|records| - 1]) + if records[|records| - 1].body.state.SubmissionPending? then 1 else 0
  }

  function Recover(p: Platform, runId: string, file: seq<byte>): Result<JournalState> {
    var lines := SplitLines(file);
    match LoadLines(p, runId, lines, |lines|)
    case Err(e) => Err(e)
    case Ok(so) =>
      Ok(JournalState(if so.verified <= |file| then file[..so.verified] else file,
                      so.records, so.latest, Begun(so.records) + 1))
  }

  class OrderIntentJournal {
    const platform: Platform
    const runId: string
    var file: seq<byte>
    var records: seq<IntentRecord>
    var latestByIntent: map<string, IntentRecord>
    var nextIntentNumber: nat

    ghost function State(): JournalState
      reads this
    {
      JournalState(file, records, latestByIntent, nextIntentNumber)
    }

    /** A journal on a new, empty file. */
    constructor (platform: Platform, runId: string)
      ensures this.platform == platform && this.runId == runId && State() == EMPTY
    {
      this.platform := platform;
      this.runId := runId;
      file, records, latestByIntent, nextIntentNumber := [], [], map[], 1;
    }

    /** Open a journal; an existing file is revalidated and its torn tail cut off. */
    static method Open(platform: Platform, runId: string, existing: Option<seq<byte>>)
      returns (r: Result<OrderIntentJournal>)
      ensures r.Ok? ==> fresh(r.value) && r.value.platform == platform && r.value.runId == runId
      ensures
        if Blank(platform, runId) then r == Err(BlankRunId)
        else if existing.None? then r.Ok? && r.value.State() == EMPTY
        else match Recover(platform, runId, existing.value)
             case Err(e) => r == Err(e)
             case Ok(st) => r.Ok? && r.value.State() == st
    {
      if Blank(platform, runId) {
        return Err(BlankRunId);
      }
      var journal := new OrderIntentJournal(platform, runId);
      if existing.Some? {
        journal.file := existing.value;
        var error := journal.Reload();
        if error.Some? {
          return Err(error.value);
        }
      }
      return Ok(journal);
    }

    method Reload() returns (error: Option<JournalError>)
      requires records == [] && latestByIntent == map[]
      modifies this
      ensures (match Recover(platform, runId, old(file))
               case Err(e) => error == Some(e)
               case Ok(st) => error == None && State() == st)
    {
      hide LoadLine, SplitLines, Begun;
      var lines := SplitLines(file);
      var verified: nat := 0;
      ghost var raw := file;
      for index := 0 to |lines|
        invariant file == raw && nextIntentNumber == old(nextIntentNumber)
        invariant LoadLines(platform, runId, lines, index) == Ok(Loaded(records, latestByIntent, verified))
      {
        verified, error := TakeLine(lines[index], index + 1, index + 1 == |lines|, verified);
        if error.Some? {
          LoadErrorSticks(platform, runId, lines, index + 1);
          return;
        }
      }
      if verified <= |file| {
        file := file[..verified];
      }
      var begun := CountBegun();
      nextIntentNumber := begun + 1;
      return None;
    }

    /** One line of the recovery loop; a torn last line adds nothing. */
    method TakeLine(line: seq<byte>, index: nat, isLast: bool, verified: nat)
      returns (verified': nat, error: Option<JournalError>)
      modifies this`records, this`latestByIntent
      ensures LoadLine(platform, runId, Loaded(old(records), old(latestByIntent), verified), line, index, isLast)
              == (if error.Some? then Err(error.value) else Ok(Loaded(records, latestByIntent, verified')))
    {
      hide Validate;
      verified' := verified;
      if !Ended(line) {
        return verified, if isLast then None else Some(Torn(index));
      }
      var decoded := platform.decode(line);
      if decoded.None? {
        return verified, Some(Invalid(index));
      }
      var record := decoded.value;
      error := Validate(platform, runId, records, latestByIntent, record, index);
      if error.None? {
        records := records + [record];
        latestByIntent := latestByIntent[record.body.intentId := record];
        verified' := verified + |line|;
      }
    }

    method CountBegun() returns (n: nat)
      ensures n == Begun(records)
    {
      n := 0;
      for i := 0 to |records|
        invariant n == Begun(records[..i])
      {
        assert records[..i + 1][..i] == records[..i];
        if records[i].body.state.SubmissionPending? {
          n := n + 1;
        }
      }
      assert records[..|records|] == records;
    }

    method BeginIntent(role: string, accountId: int, contractId: int, clientOperationId: Option<string>,
                       digest: Option<string>)
      returns (r: Result<IntentRecord>)
      modifies this
      ensures var op := Begin(role, accountId, contractId, clientOperationId, digest);
              && r == Attempt(platform, runId, old(State()), op)
              && State() == Perform(platform, runId, old(State()), op)
    {
      if Blank(platform, role) {
        return Err(BlankRole);
      }
      if accountId <= 0 || contractId <= 0 {
        return Err(NonPositiveId);
      }
      if !GoodClientOperationId(platform, clientOperationId) {
        return Err(BadClientOperationId);
      }
      var intentId := IntentId(runId, nextIntentNumber);
      nextIntentNumber := nextIntentNumber + 1;
      if digest.None? {
        return Err(NotCanonical);
      }
      var record := NewRecord(platform, runId, records, intentId,
                              Identity(role, accountId, contractId, clientOperationId, digest.value),
                              SubmissionPending, None, None);
      Write(record);
      return Ok(record);
    }

    method Transition(intentId: string, state: IntentState, brokerOrderId: Option<string>, detail: Option<string>)
      returns (r: Result<IntentRecord>)
      modifies this
      ensures var op := Advance(intentId, state, brokerOrderId, detail);
              && r == Attempt(platform, runId, old(State()), op)
              && State() == Perform(platform, runId, old(State()), op)
    {
      if intentId !in latestByIntent {
        return Err(UnknownIntent);
      }
      var previous := latestByIntent[intentId].body;
      if state !in Allowed(previous.state) {
        return Err(IllegalTransition);
      }
      if state.Acknowledged? && !NamesOrder(brokerOrderId) {
        return Err(MissingBrokerOrderId);
      }
      var record := NewRecord(platform, runId, records, previous.intentId, previous.identity, state,
                              brokerOrderId, Bounded(detail));
      Write(record);
      return Ok(record);
    }

    method Write(record: IntentRecord)
      modifies this
      ensures State() == Append(platform, old(State()), record)
    {
      file := file + Line(platform, record);
      records := records + [record];
      latestByIntent := latestByIntent[record.body.intentId := record];
    }
  }

  lemma {:induction false} LoadErrorSticks(p: Platform, runId: string, lines: seq<seq<byte>>, k: nat)
    requires k <= |lines|
    requires LoadLines(p, runId, lines, k).Err?
    ensures LoadLines(p, runId, lines, |lines|) == LoadLines(p, runId, lines, k)
  {
    for i := k to |lines|
      invariant LoadLines(p, runId, lines, i) == LoadLines(p, runId, lines, k)
    {
    }
  }
}
