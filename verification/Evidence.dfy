/** Evidence records and the single statements the store issues
    (crates/ackplane-server/src/evidence_store.rs). */
module Evidence {
  import opened Common

  const MAX_TASK_ID_BYTES: nat := 256
  const MAX_SOURCE_REF_BYTES: nat := 512
  const MAX_IDENTITY_BYTES: nat := 256
  const MAX_KEY_BYTES: nat := 256
  const MAX_CONSTITUTION_BYTES: nat := 256
  const DIGEST_BYTES: nat := 32

  datatype EvidenceKind = Commit | Execution | Receipt | Conformance | Review

  /** What a caller asserts, apart from the idempotency key. */
  datatype Content = Content(taskId: string, kind: EvidenceKind, sourceRef: string, digest: bytes, observedAt: int,
                             sessionId: string, recordedBy: string, constitution: Option<string>)

  datatype RecordRequest = RecordRequest(scope: Scope, content: Content, key: string)

  datatype EvidenceRecord = EvidenceRecord(evidenceId: string, scope: Scope, content: Content, key: string,
                                           recordedAt: int)

  datatype RecordOutcome = RecordOutcome(record: EvidenceRecord, idempotentReplay: bool)

  datatype EvidenceError =
    | DatabaseError | InvalidTaskId | InvalidSourceRef | InvalidDigest | InvalidIdentity
    | InvalidConstitutionVersion | InvalidIdempotencyKey | IdempotencyConflict
    | Unauthenticated | ReplayedNonce | InvalidArgument

  function Normalized(r: RecordRequest): RecordRequest {
    r.(content := r.content.(observedAt := NormalizeTimestamp(r.content.observedAt)))
  }

  // -------------------------------------------------------------- validation

  function Prefix(kind: EvidenceKind): string {
    match kind
    case Commit => "commit:"
    case Execution => "execution:"
    case Receipt => "receipt:"
    case Conformance => "conformance:"
    case Review => "review:"
  }

  predicate ReferenceChar(c: char) {
    || 'a' <= c <= 'z' || 'A' <= c <= 'Z' || '0' <= c <= '9'
    || c == '-' || c == '_' || c == '.' || c == ':' || c == '/'
  }

  predicate ValidSourceRef(kind: EvidenceKind, ref: string) {
    && Prefix(kind) <= ref
    && Bounded(ref, MAX_SOURCE_REF_BYTES)
    && |ref| > |Prefix(kind)|
    && forall i :: |Prefix(kind)| <= i < |ref| ==> ReferenceChar(ref[i])
  }

  function ValidateRequest(r: RecordRequest): Outcome<EvidenceError> {
    var c := r.content;
    if !Bounded(c.taskId, MAX_TASK_ID_BYTES) then Fail(InvalidTaskId)
    else if !ValidSourceRef(c.kind, c.sourceRef) then Fail(InvalidSourceRef)
    else if |c.digest| != DIGEST_BYTES then Fail(InvalidDigest)
    else if !Bounded(c.sessionId, MAX_IDENTITY_BYTES) || !Bounded(c.recordedBy, MAX_IDENTITY_BYTES)
    then Fail(InvalidIdentity)
    else if r.key != "" && !Bounded(r.key, MAX_KEY_BYTES) then Fail(InvalidIdempotencyKey)
    else if c.constitution.Some? && !Bounded(c.constitution.value, MAX_CONSTITUTION_BYTES)
    then Fail(InvalidConstitutionVersion)
    else Pass
  }

  /** A record names one kind of source: no reference is valid for two kinds. */
  lemma SourceRefFixesKind(a: EvidenceKind, b: EvidenceKind, ref: string)
    requires ValidSourceRef(a, ref) && ValidSourceRef(b, ref)
    ensures a == b
  {
    assert ref[0] == Prefix(a)[0] == Prefix(b)[0];
    assert ref[2] == Prefix(a)[2] == Prefix(b)[2];
  }

  // -------------------------------------------------------------- statements

  predicate UnderKey(row: EvidenceRecord, scope: Scope, key: string) { row.scope == scope && row.key == key }

  /** The row under the partial unique index on (tenant, repository, key). */
  function Find(rows: seq<EvidenceRecord>, scope: Scope, key: string): Option<EvidenceRecord> {
    if rows == [] then None
    else if UnderKey(rows[0], scope, key) then Some(rows[0])
    else Find(rows[1..], scope, key)
  }

  /** `find_evidence_by_idempotency`. */
  function FindByIdempotency(rows: seq<EvidenceRecord>, scope: Scope, key: string)
    : Result<Option<EvidenceRecord>, EvidenceError>
  {
    if !Bounded(key, MAX_KEY_BYTES) then Err(InvalidIdempotencyKey) else Ok(Find(rows, scope, key))
  }

  /** `evidence_outcome_for_existing`. */
  function OutcomeForExisting(existing: EvidenceRecord, r: RecordRequest): Result<RecordOutcome, EvidenceError> {
    if existing.content != r.content then Err(IdempotencyConflict) else Ok(RecordOutcome(existing, true))
  }

  function RowFor(r: RecordRequest, id: string, recordedAt: int): EvidenceRecord {
    EvidenceRecord(id, r.scope, r.content, r.key, recordedAt)
  }

  predicate IdTaken(rows: seq<EvidenceRecord>, scope: Scope, id: string) {
    exists i :: 0 <= i < |rows| && rows[i].scope == scope && rows[i].evidenceId == id
  }

  datatype Inserted = Row(row: EvidenceRecord) | Skipped | IdCollision

  /** `INSERT … ON CONFLICT (tenant, repository, key) DO NOTHING`: the key's
      index arbitrates; a clash of drawn ids is an error. An empty key is stored
      as NULL and never conflicts. */
  function Insert(rows: seq<EvidenceRecord>, r: RecordRequest, id: string, recordedAt: int): Inserted {
    if r.key != "" && Find(rows, r.scope, r.key).Some? then Skipped
    else if IdTaken(rows, r.scope, id) then IdCollision
    else Row(RowFor(r, id, recordedAt))
  }

  lemma {:induction false} FindMeaning(rows: seq<EvidenceRecord>, scope: Scope, key: string)
    ensures Find(rows, scope, key).None? <==> forall i :: 0 <= i < |rows| ==> !UnderKey(rows[i], scope, key)
    ensures Find(rows, scope, key).Some? ==>
              exists i :: 0 <= i < |rows| && rows[i] == Find(rows, scope, key).value && UnderKey(rows[i], scope, key)
  {
    if rows != [] {
      var rest := rows[1..];
      FindMeaning(rest, scope, key);
      if !UnderKey(rows[0], scope, key) {
        if Find(rest, scope, key).Some? {
          var i :| 0 <= i < |rest| && rest[i] == Find(rest, scope, key).value && UnderKey(rest[i], scope, key);
          assert rows[i + 1] == rest[i];
        } else {
          forall i | 0 <= i < |rows| ensures !UnderKey(rows[i], scope, key) {
            if i > 0 { assert rows[i] == rest[i - 1]; }
          }
        }
      } else {
        assert rows[0] == Find(rows, scope, key).value;
      }
    }
  }

  // ---------------------------------------------------------- one caller

  /** What `record` does when other callers commit the rows `meanwhile` between
      its lookup and its insert. */
  function RecordAmid(rows: seq<EvidenceRecord>, raw: RecordRequest, meanwhile: seq<EvidenceRecord>, id: string,
                      recordedAt: int): (seq<EvidenceRecord>, Result<RecordOutcome, EvidenceError>)
  {
    var r := Normalized(raw);
    var found: Result<Option<EvidenceRecord>, EvidenceError> :=
      if r.key == "" then Ok(None) else FindByIdempotency(rows, r.scope, r.key);
    match found
    case Err(e) => (rows, Err(e))
    case Ok(Some(existing)) => (rows, OutcomeForExisting(existing, r))
    case Ok(None) =>
      match ValidateRequest(r)
      case Fail(e) => (rows, Err(e))
      case Pass =>
        var now := rows + meanwhile;
        match Insert(now, r, id, recordedAt)
        case IdCollision => (now, Err(DatabaseError))
        case Row(row) => (now + [row], Ok(RecordOutcome(row, false)))
        case Skipped => (now, OutcomeForExisting(Find(now, r.scope, r.key).value, r))
  }

  lemma {:induction false} FindConcat(a: seq<EvidenceRecord>, b: seq<EvidenceRecord>, scope: Scope, key: string)
    ensures Find(a + b, scope, key) == if Find(a, scope, key).Some? then Find(a, scope, key) else Find(b, scope, key)
  {
    if a == [] {
      assert a + b == b;
    } else {
      assert (a + b)[1..] == a[1..] + b;
      FindConcat(a[1..], b, scope, key);
    }
  }

  /** What a keyed success leaves under its key is the very record it returns,
      and that record says what was asked. */
  lemma RecordIsFound(rows: seq<EvidenceRecord>, raw: RecordRequest, meanwhile: seq<EvidenceRecord>, id: string,
                      recordedAt: int)
    requires raw.key != "" && RecordAmid(rows, raw, meanwhile, id, recordedAt).1.Ok?
    ensures var (rows', result) := RecordAmid(rows, raw, meanwhile, id, recordedAt);
            && Bounded(raw.key, MAX_KEY_BYTES)
            && Find(rows', raw.scope, raw.key) == Some(result.value.record)
            && result.value.record.content == Normalized(raw).content
  {
    var r := Normalized(raw);
    if Find(rows, r.scope, r.key).None? {
      var now := rows + meanwhile;
      if Insert(now, r, id, recordedAt).Row? { FindConcat(now, [RowFor(r, id, recordedAt)], r.scope, r.key); }
    }
  }

  /** A keyed record retried later, whatever was written since, returns the same
      record as a replay and writes nothing. */
  lemma RecordRetry(rows: seq<EvidenceRecord>, raw: RecordRequest, meanwhile: seq<EvidenceRecord>, id: string,
                    recordedAt: int, since: seq<EvidenceRecord>, meanwhile': seq<EvidenceRecord>, id': string,
                    recordedAt': int)
    requires raw.key != "" && RecordAmid(rows, raw, meanwhile, id, recordedAt).1.Ok?
    ensures var (rows', result) := RecordAmid(rows, raw, meanwhile, id, recordedAt);
            RecordAmid(rows' + since, raw, meanwhile', id', recordedAt') ==
            (rows' + since, Ok(RecordOutcome(result.value.record, true)))
  {
    var (rows', result) := RecordAmid(rows, raw, meanwhile, id, recordedAt);
    RecordIsFound(rows, raw, meanwhile, id, recordedAt);
    FindConcat(rows', since, raw.scope, raw.key);
  }

  class EvidenceStore {
    var rows: seq<EvidenceRecord>
    var nonces: set<(string, bytes)>

    constructor ()
      ensures rows == [] && nonces == {}
    {
      rows, nonces := [], {};
    }

    /** True exactly for the first use of this key and nonce. */
    method ConsumeNonce(keyId: string, nonce: bytes) returns (first: bool)
      modifies `nonces
      ensures first <==> (keyId, nonce) !in old(nonces)
      ensures nonces == old(nonces) + {(keyId, nonce)}
    {
      first := (keyId, nonce) !in nonces;
      nonces := nonces + {(keyId, nonce)};
    }

    method InsertEvidence(r: RecordRequest, id: string, recordedAt: int) returns (outcome: Inserted)
      modifies `rows
      ensures outcome == Insert(old(rows), r, id, recordedAt)
      ensures rows == if outcome.Row? then old(rows) + [outcome.row] else old(rows)
      ensures r.key != "" && !outcome.IdCollision? ==> Find(rows, r.scope, r.key).Some?
      ensures r.key != "" && outcome.Row? ==> Find(rows, r.scope, r.key) == Some(outcome.row)
    {
      outcome := Insert(rows, r, id, recordedAt);
      if outcome.Row? {
        FindConcat(rows, [outcome.row], r.scope, r.key);
        rows := rows + [outcome.row];
      }
    }

    /** Find, validate, insert or nothing, find again; other callers commit
        `meanwhile` before the insert. */
    method Record(raw: RecordRequest, meanwhile: seq<EvidenceRecord>, id: string, recordedAt: int)
      returns (r: Result<RecordOutcome, EvidenceError>)
      modifies `rows
      ensures (rows, r) == RecordAmid(old(rows), raw, meanwhile, id, recordedAt)
    {
      var request := Normalized(raw);
      if request.key != "" {
        var found := FindByIdempotency(rows, request.scope, request.key);
        if found.Err? { return Err(found.error); }
        if found.value.Some? { return OutcomeForExisting(found.value.value, request); }
      }
      var valid := ValidateRequest(request);
      if valid.Fail? { return Err(valid.error); }
      rows := rows + meanwhile;
      var outcome := InsertEvidence(request, id, recordedAt);
      match outcome {
        case IdCollision => return Err(DatabaseError);
        case Row(row) => return Ok(RecordOutcome(row, false));
        case Skipped =>
          match FindByIdempotency(rows, request.scope, request.key) {
            case Err(e) => return Err(e);
            case Ok(None) => return Err(IdempotencyConflict);
            case Ok(Some(existing)) => return OutcomeForExisting(existing, request);
          }
      }
    }
  }
}
