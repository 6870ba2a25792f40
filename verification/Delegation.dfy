/** Bounded human delegation: requests, events, projections and what each
    transaction of the store does
    (crates/ackplane-server/src/delegation_store.rs and delegation_store/).
    Instants are nanoseconds since the Unix epoch. SHA-256 is ideal, so a
    digest is represented by the canonical content it is taken over. */
module Delegation {
  import opened Common
  import Sorting = StableSort
  import opened Projections

  const MAX_IDENTIFIER_BYTES: nat := 256
  const MAX_REASON_BYTES: nat := 512
  const MAX_ACTIONS: nat := 16
  const DIGEST_BYTES: nat := 32
  const I16_MAX: nat := 0x7FFF
  const I32_MAX: nat := 0x7FFF_FFFF

  // ----------------------------------------------------------------- actions

  datatype Action =
    | RetrieveContext | Analyze | ClaimTask | WorkTask | CreateCandidateKnowledge | RunValidation | ReportEvidence

  function Code(a: Action): nat {
    match a
    case RetrieveContext => 1
    case Analyze => 2
    case ClaimTask => 3
    case WorkTask => 4
    case CreateCandidateKnowledge => 5
    case RunValidation => 6
    case ReportEvidence => 7
  }

  predicate CodeOrder(a: Action, b: Action) { Code(a) <= Code(b) }

  predicate Distinct(actions: seq<Action>) {
    forall i, j :: 0 <= i < j < |actions| ==> actions[i] != actions[j]
  }

  /** Between one and sixteen, none twice. */
  predicate ValidActions(actions: seq<Action>) {
    1 <= |actions| <= MAX_ACTIONS && Distinct(actions)
  }

  /** The actions in code order, which is how the tables hold them. */
  function Stored(actions: seq<Action>): seq<Action> { Sorting.Sort(actions, CodeOrder) }

  predicate AtMost(a: nat, b: nat) { a <= b }

  /** `action_codes`: the codes of an accepted list, sorted. */
  function ActionCodes(actions: seq<Action>): Option<seq<nat>> {
    if ValidActions(actions) then Some(Sorting.Sort(Project(actions, Code), AtMost)) else None
  }

  function FromCode(code: nat): Option<Action> {
    if code == 1 then Some(RetrieveContext)
    else if code == 2 then Some(Analyze)
    else if code == 3 then Some(ClaimTask)
    else if code == 4 then Some(WorkTask)
    else if code == 5 then Some(CreateCandidateKnowledge)
    else if code == 6 then Some(RunValidation)
    else if code == 7 then Some(ReportEvidence)
    else None
  }

  function FromCodes(codes: seq<nat>): Option<seq<Action>> {
    if codes == [] then Some([])
    else match FromCode(codes[0])
      case None => None
      case Some(a) =>
        match FromCodes(codes[1..])
        case None => None
        case Some(rest) => Some([a] + rest)
  }

  /** `actions_from_codes`: known codes, none twice, between one and sixteen. */
  function ActionsFromCodes(codes: seq<nat>): Option<seq<Action>> {
    match FromCodes(codes)
    case None => None
    case Some(actions) => if ValidActions(actions) then Some(actions) else None
  }

  lemma CodeOrderIsTotal()
    ensures Sorting.TotalPreorder(CodeOrder)
  {}

  lemma DistinctIsMultiplicity(a: seq<Action>)
    ensures Distinct(a) <==> forall x :: x in multiset(a) ==> multiset(a)[x] == 1
  {
    assert Distinct(a) <==> AllNew({}, a);
    AllNewIsMultiplicity(a);
  }

  lemma StoredActions(actions: seq<Action>)
    ensures multiset(Stored(actions)) == multiset(actions) && |Stored(actions)| == |actions|
    ensures Sorting.Sorted(Stored(actions), CodeOrder)
    ensures ValidActions(actions) <==> ValidActions(Stored(actions))
  {
    Sorting.SortPermutes(actions, CodeOrder);
    CodeOrderIsTotal();
    Sorting.SortSorts(actions, CodeOrder);
    assert |Stored(actions)| == |multiset(Stored(actions))| == |multiset(actions)| == |actions|;
    DistinctIsMultiplicity(actions);
    DistinctIsMultiplicity(Stored(actions));
  }

  lemma {:induction false} DecodesProjected(actions: seq<Action>)
    ensures FromCodes(Project(actions, Code)) == Some(actions)
  {
    if actions != [] {
      assert Project(actions, Code)[1..] == Project(actions[1..], Code);
      DecodesProjected(actions[1..]);
      assert actions == [actions[0]] + actions[1..];
    }
  }

  /** Sorting the codes is coding the sorted actions. */
  lemma CodesAreStored(actions: seq<Action>)
    ensures Sorting.Sort(Project(actions, Code), AtMost) == Project(Stored(actions), Code)
  {
    var codes, stored := Project(actions, Code), Project(Stored(actions), Code);
    Sorting.SortPermutes(actions, CodeOrder);
    ProjectPermutes(Stored(actions), actions, Code);
    Sorting.SortPermutes(codes, AtMost);
    Sorting.SortSorts(codes, AtMost);
    CodeOrderIsTotal();
    Sorting.SortSorts(actions, CodeOrder);
    assert Sorting.Sorted(stored, AtMost);
    Sorting.OneSortedArrangement(Sorting.Sort(codes, AtMost), stored, AtMost);
  }

  /** What is written as codes reads back as the same actions in code order;
      both directions refuse exactly the invalid lists. */
  lemma ActionCodesReadBack(actions: seq<Action>)
    ensures ActionCodes(actions).Some? <==> ValidActions(actions)
    ensures ValidActions(actions) ==> ActionsFromCodes(ActionCodes(actions).value) == Some(Stored(actions))
  {
    CodesAreStored(actions);
    DecodesProjected(Stored(actions));
    StoredActions(actions);
  }

  lemma CodesDistinguish(x: Action, y: Action)
    requires CodeOrder(x, y) && CodeOrder(y, x)
    ensures x == y
  {}

  lemma SortedSame(a: seq<Action>, b: seq<Action>)
    requires multiset(a) == multiset(b)
    ensures Stored(a) == Stored(b)
  {
    CodeOrderIsTotal();
    forall x, y | x in a && y in a && CodeOrder(x, y) && CodeOrder(y, x) ensures x == y { CodesDistinguish(x, y); }
    Sorting.SortIgnoresOrder(a, b, CodeOrder);
  }

  /** The order in which a caller lists the actions is immaterial. */
  lemma StoredIgnoresOrder(a: seq<Action>, b: seq<Action>)
    ensures Stored(a) == Stored(b) <==> multiset(a) == multiset(b)
  {
    Sorting.SortPermutes(a, CodeOrder);
    Sorting.SortPermutes(b, CodeOrder);
    if multiset(a) == multiset(b) { SortedSame(a, b); }
  }

  /** The loop of `action_codes`: one pass with a set of codes seen. */
  method CheckActions(actions: seq<Action>) returns (ok: bool)
    ensures ok <==> ValidActions(actions)
  {
    if |actions| == 0 || |actions| > MAX_ACTIONS { return false; }
    var seen: set<Action> := {};
    var i := 0;
    while i < |actions|
      invariant 0 <= i <= |actions|
      invariant seen == set j | 0 <= j < i :: actions[j]
      invariant Distinct(actions[..i])
    {
      if actions[i] in seen {
        var j :| 0 <= j < i && actions[j] == actions[i];
        return false;
      }
      seen := seen + {actions[i]};
      i := i + 1;
    }
    assert actions[..i] == actions;
    return true;
  }

  // ------------------------------------------------------------------ values

  datatype Grant = Grant(
    delegateeSessionId: string, projectId: Option<string>, taskId: Option<string>,
    goalId: string, goalDigest: bytes, policyVersion: string, policyDigest: bytes,
    constitutionVersion: string, constitutionDigest: bytes, allowedActions: seq<Action>,
    maxTokenBudget: u32, maxActionsPerSession: u32, sourceProtocolVersion: u16,
    effectiveAt: int, expiresAt: int)

  datatype GrantRequest = GrantRequest(scope: Scope, issuer: string, grant: Grant, key: string)

  datatype RevocationRequest = RevocationRequest(
    scope: Scope, delegationId: string, revoker: string, reason: string, expectedVersion: u32, key: string)

  datatype Payload = Granted(grant: Grant) | Revoked(reason: string)

  /** Domain-separated canonical content of an event. */
  datatype Digest =
    | GrantDigest(scope: Scope, issuer: string, project: string, task: string, grant: Grant)
    | RevocationDigest(scope: Scope, delegationId: string, revoker: string, reason: string, expectedVersion: u32)

  datatype Event = Event(
    delegationId: string, position: int, actor: string, expectedPriorVersion: u32, resultingVersion: u32,
    key: string, digest: Digest, recordedAt: int, payload: Payload)

  datatype Status = Active | Ended(at: int, revoker: string, reason: string)

  datatype Projection = Projection(
    delegationId: string, issuer: string, grant: Grant, issuedAt: int,
    status: Status, version: u32, sourceEventPosition: int)

  datatype DelegationOutcome = DelegationOutcome(projection: Projection, event: Event, idempotentReplay: bool)

  datatype FieldName =
    | TenantId | RepositoryId | IssuerId | DelegateeId | GoalId | PolicyVersion | ConstitutionVersion
    | IdempotencyKey | ProjectId | TaskId | GoalDigest | PolicyDigest | ConstitutionDigest
    | DelegationId | RevokerId | Reason

  datatype StoreError =
    | DatabaseError | InvalidIdentifier(field: FieldName) | InvalidOptionalIdentifier(field: FieldName)
    | InvalidDigest(field: FieldName) | InvalidActions | InvalidBudget | InvalidProtocolVersion
    | InvalidTimeWindow | InvalidExpectedVersion | InvalidVersion | StreamPositionExhausted
    | IdempotencyConflict | NotFound | VersionConflict | AlreadyRevoked | InvalidStoredPayload

  // -------------------------------------------------------------- validation

  predicate Identifier(s: string) { Bounded(s, MAX_IDENTIFIER_BYTES) }

  predicate OptionalIdentifier(s: Option<string>) { s.Some? ==> Identifier(s.value) }

  function ValidateGrant(r: GrantRequest, now: int): Outcome<StoreError> {
    var g := r.grant;
    if !Identifier(r.scope.tenantId) then Fail(InvalidIdentifier(TenantId))
    else if !Identifier(r.scope.repositoryId) then Fail(InvalidIdentifier(RepositoryId))
    else if !Identifier(r.issuer) then Fail(InvalidIdentifier(IssuerId))
    else if !Identifier(g.delegateeSessionId) then Fail(InvalidIdentifier(DelegateeId))
    else if !Identifier(g.goalId) then Fail(InvalidIdentifier(GoalId))
    else if !Identifier(g.policyVersion) then Fail(InvalidIdentifier(PolicyVersion))
    else if !Identifier(g.constitutionVersion) then Fail(InvalidIdentifier(ConstitutionVersion))
    else if !Identifier(r.key) then Fail(InvalidIdentifier(IdempotencyKey))
    else if !OptionalIdentifier(g.projectId) then Fail(InvalidOptionalIdentifier(ProjectId))
    else if !OptionalIdentifier(g.taskId) then Fail(InvalidOptionalIdentifier(TaskId))
    else if |g.goalDigest| != DIGEST_BYTES then Fail(InvalidDigest(GoalDigest))
    else if |g.policyDigest| != DIGEST_BYTES then Fail(InvalidDigest(PolicyDigest))
    else if |g.constitutionDigest| != DIGEST_BYTES then Fail(InvalidDigest(ConstitutionDigest))
    else if !ValidActions(g.allowedActions) then Fail(InvalidActions)
    else if g.maxTokenBudget == 0 || g.maxActionsPerSession == 0 then Fail(InvalidBudget)
    else if g.sourceProtocolVersion == 0 || g.sourceProtocolVersion > I16_MAX then Fail(InvalidProtocolVersion)
    else if g.effectiveAt < 0 || g.expiresAt <= g.effectiveAt || g.expiresAt <= now then Fail(InvalidTimeWindow)
    else Pass
  }

  function ValidateRevocation(r: RevocationRequest): Outcome<StoreError> {
    if !Identifier(r.scope.tenantId) then Fail(InvalidIdentifier(TenantId))
    else if !Identifier(r.scope.repositoryId) then Fail(InvalidIdentifier(RepositoryId))
    else if !Identifier(r.delegationId) then Fail(InvalidIdentifier(DelegationId))
    else if !Identifier(r.revoker) then Fail(InvalidIdentifier(RevokerId))
    else if !Identifier(r.key) then Fail(InvalidIdentifier(IdempotencyKey))
    else if !Bounded(r.reason, MAX_REASON_BYTES) then Fail(InvalidIdentifier(Reason))
    else if r.expectedVersion == 0 then Fail(InvalidExpectedVersion)
    else if r.expectedVersion >= I32_MAX then Fail(InvalidVersion)
    else Pass
  }

  /** The read side's own check of a stored grant payload. */
  predicate StoredGrantOk(g: Grant) {
    && Identifier(g.delegateeSessionId) && Identifier(g.goalId) && Identifier(g.policyVersion)
    && Identifier(g.constitutionVersion) && OptionalIdentifier(g.projectId) && OptionalIdentifier(g.taskId)
    && |g.goalDigest| == DIGEST_BYTES && |g.policyDigest| == DIGEST_BYTES && |g.constitutionDigest| == DIGEST_BYTES
    && ValidActions(g.allowedActions)
    && g.maxTokenBudget > 0 && g.maxActionsPerSession > 0 && g.sourceProtocolVersion > 0
    && g.effectiveAt >= 0 && g.expiresAt > g.effectiveAt
  }

  predicate StoredPayloadOk(p: Payload) {
    match p
    case Granted(g) => StoredGrantOk(g)
    case Revoked(reason) => Bounded(reason, MAX_REASON_BYTES)
  }

  /** The grant as the tables hold it. */
  function StoredGrant(g: Grant): Grant { g.(allowedActions := Stored(g.allowedActions)) }

  /** Timestamps floored before anything else looks at them. */
  function Normalized(r: GrantRequest): GrantRequest {
    var g := r.grant;
    r.(grant := g.(effectiveAt := NormalizeTimestamp(g.effectiveAt), expiresAt := NormalizeTimestamp(g.expiresAt)))
  }

  function TextOf(o: Option<string>): string { if o.Some? then o.value else "" }

  /** Absent and empty optional ids hash alike; validation admits no empty one. */
  function GrantDigestOf(scope: Scope, issuer: string, g: Grant): Digest {
    GrantDigest(scope, issuer, TextOf(g.projectId), TextOf(g.taskId),
                StoredGrant(g).(projectId := None, taskId := None))
  }

  function RevocationDigestOf(r: RevocationRequest): Digest {
    RevocationDigest(r.scope, r.delegationId, r.revoker, r.reason, r.expectedVersion)
  }

  /** Among accepted grants the digest identifies the content, up to the order
      in which actions are listed. */
  lemma GrantDigestIdentifies(scope: Scope, issuer: string, g: Grant, scope': Scope, issuer': string, g': Grant)
    requires OptionalIdentifier(g.projectId) && OptionalIdentifier(g.taskId)
    requires OptionalIdentifier(g'.projectId) && OptionalIdentifier(g'.taskId)
    ensures GrantDigestOf(scope, issuer, g) == GrantDigestOf(scope', issuer', g') <==>
            && scope == scope' && issuer == issuer'
            && multiset(g.allowedActions) == multiset(g'.allowedActions)
            && g == g'.(allowedActions := g.allowedActions)
  {
    StoredIgnoresOrder(g.allowedActions, g'.allowedActions);
    assert !Identifier("");
    if GrantDigestOf(scope, issuer, g) == GrantDigestOf(scope', issuer', g') {
      assert g.projectId == g'.projectId && g.taskId == g'.taskId;
      assert StoredGrant(g) == StoredGrant(g');
    }
  }

  // ------------------------------------------------------------------ tables

  datatype UseReceipt = UseReceipt(request: UseRequest, delegationVersion: u32, refusal: Option<UseRefusal>,
                                   recordedAt: int)

  /** The rows of one tenant and repository. Every statement names both, so
      scopes never meet. */
  datatype Stream = Stream(head: int, events: seq<Event>, projections: map<string, Projection>,
                           receipts: map<string, seq<UseReceipt>>)

  const EMPTY: Stream := Stream(0, [], map[], map[])

  type Store = map<Scope, Stream>

  function StreamOf(s: Store, scope: Scope): Stream { if scope in s then s[scope] else EMPTY }

  /** The row under the unique (tenant, repository, key) index. */
  function FindKey(events: seq<Event>, key: string): Option<Event> {
    if events == [] then None
    else if events[0].key == key then Some(events[0])
    else FindKey(events[1..], key)
  }

  /** The earliest grant of one delegation. */
  function FindGrant(events: seq<Event>, id: string): Option<Event> {
    if events == [] then None
    else if events[0].delegationId == id && events[0].payload.Granted? then Some(events[0])
    else FindGrant(events[1..], id)
  }

  /** Reading it back re-checks its payload. */
  function ReadGrant(events: seq<Event>, id: string): Result<Event, StoreError> {
    match FindGrant(events, id)
    case None => Err(InvalidStoredPayload)
    case Some(e) => if StoredPayloadOk(e.payload) then Ok(e) else Err(InvalidStoredPayload)
  }

  function NextPosition(current: int): Option<int> {
    if current >= I64_MAX || current + 1 <= 0 then None else Some(current + 1)
  }

  /** `projection_at_event`. */
  function ProjectionAtEvent(grantEvent: Event, event: Event): Result<Projection, StoreError> {
    if !grantEvent.payload.Granted? || grantEvent.delegationId != event.delegationId then Err(InvalidStoredPayload)
    else
      var p := Projection(grantEvent.delegationId, grantEvent.actor, grantEvent.payload.grant, grantEvent.recordedAt,
                          Active, grantEvent.resultingVersion, grantEvent.position);
      match event.payload
      case Granted(_) => Ok(p)
      case Revoked(reason) =>
        Ok(p.(status := Ended(event.recordedAt, event.actor, reason),
              version := event.resultingVersion, sourceEventPosition := event.position))
  }

  /** `row_to_event` fails on a payload the read side would not accept. */
  function IdempotentOutcome(events: seq<Event>, key: string, grants: bool, digest: Digest)
    : Result<Option<DelegationOutcome>, StoreError>
  {
    match FindKey(events, key)
    case None => Ok(None)
    case Some(event) =>
      if !StoredPayloadOk(event.payload) then Err(InvalidStoredPayload)
      else if event.payload.Granted? != grants || event.digest != digest then Err(IdempotencyConflict)
      else
        match (if event.payload.Granted? then Ok(event) else ReadGrant(events, event.delegationId))
        case Err(e) => Err(e)
        case Ok(grantEvent) =>
          match ProjectionAtEvent(grantEvent, event)
          case Err(e) => Err(e)
          case Ok(p) => Ok(Some(DelegationOutcome(p, event, true)))
  }

  /** The primary key on position and the unique index on the key. */
  predicate EventInsertable(events: seq<Event>, e: Event) {
    forall i :: 0 <= i < |events| ==> events[i].position != e.position && events[i].key != e.key
  }

  // ------------------------------------------------------------ transactions

  function GrantEventFor(r: GrantRequest, id: string, position: int, recordedAt: int): Event {
    Event(id, position, r.issuer, 0, 1, r.key, GrantDigestOf(r.scope, r.issuer, r.grant), recordedAt,
          Granted(StoredGrant(r.grant)))
  }

  /** The projection row is built from the request, not from the event. */
  function GrantRow(r: GrantRequest, id: string, position: int, recordedAt: int): Projection {
    Projection(id, r.issuer, StoredGrant(r.grant), recordedAt, Active, 1, position)
  }

  /** The grant transaction. The drawn id, both clocks and the outcome of the
      draw are the environment's. A failed transaction leaves no trace. */
  function GrantStep(st: Stream, raw: GrantRequest, now: int, recordedAt: int, id: string)
    : (Stream, Result<DelegationOutcome, StoreError>)
  {
    var r := Normalized(raw);
    match ValidateGrant(r, NormalizeTimestamp(now))
    case Fail(e) => (st, Err(e))
    case Pass =>
      match IdempotentOutcome(st.events, r.key, true, GrantDigestOf(r.scope, r.issuer, r.grant))
      case Err(e) => (st, Err(e))
      case Ok(Some(outcome)) => (st, Ok(outcome))
      case Ok(None) =>
        match NextPosition(st.head)
        case None => (st, Err(StreamPositionExhausted))
        case Some(position) => AppendGrant(st, r, id, position, recordedAt)
  }

  function AppendGrant(st: Stream, r: GrantRequest, id: string, position: int, recordedAt: int)
    : (Stream, Result<DelegationOutcome, StoreError>)
  {
    var event := GrantEventFor(r, id, position, recordedAt);
    if !EventInsertable(st.events, event) then (st, Err(DatabaseError))
    else if !StoredPayloadOk(event.payload) then (st, Err(InvalidStoredPayload))
    else if id in st.projections then (st, Err(DatabaseError))
    else
      match ProjectionAtEvent(event, event)
      case Err(e) => (st, Err(e))
      case Ok(p) =>
        (st.(head := position, events := st.events + [event],
             projections := st.projections[id := GrantRow(r, id, position, recordedAt)]),
         Ok(DelegationOutcome(p, event, false)))
  }

  function RevocationEventFor(r: RevocationRequest, position: int, recordedAt: int): Event
    requires r.expectedVersion < I32_MAX
  {
    Event(r.delegationId, position, r.revoker, r.expectedVersion, r.expectedVersion + 1, r.key,
          RevocationDigestOf(r), recordedAt, Revoked(r.reason))
  }

  function RevokeStep(st: Stream, r: RevocationRequest, recordedAt: int)
    : (Stream, Result<DelegationOutcome, StoreError>)
  {
    match ValidateRevocation(r)
    case Fail(e) => (st, Err(e))
    case Pass =>
      match IdempotentOutcome(st.events, r.key, false, RevocationDigestOf(r))
      case Err(e) => (st, Err(e))
      case Ok(Some(outcome)) => (st, Ok(outcome))
      case Ok(None) =>
        if r.delegationId !in st.projections then (st, Err(NotFound))
        else
          var current := st.projections[r.delegationId];
          if current.status.Ended? then (st, Err(AlreadyRevoked))
          else if current.version != r.expectedVersion then (st, Err(VersionConflict))
          else
            match NextPosition(st.head)
            case None => (st, Err(StreamPositionExhausted))
            case Some(position) => AppendRevocation(st, r, position, recordedAt)
  }

  function AppendRevocation(st: Stream, r: RevocationRequest, position: int, recordedAt: int)
    : (Stream, Result<DelegationOutcome, StoreError>)
    requires r.expectedVersion < I32_MAX && r.delegationId in st.projections
  {
    var event := RevocationEventFor(r, position, recordedAt);
    if !EventInsertable(st.events, event) then (st, Err(DatabaseError))
    else if !StoredPayloadOk(event.payload) then (st, Err(InvalidStoredPayload))
    else
      var events := st.events + [event];
      match ReadGrant(events, r.delegationId)
      case Err(e) => (st, Err(e))
      case Ok(grantEvent) =>
        match ProjectionAtEvent(grantEvent, event)
        case Err(e) => (st, Err(e))
        case Ok(p) =>
          var row := st.projections[r.delegationId].(
            status := Ended(recordedAt, r.revoker, r.reason),
            version := r.expectedVersion + 1, sourceEventPosition := position);
          (st.(head := position, events := events, projections := st.projections[r.delegationId := row]),
           Ok(DelegationOutcome(p, event, false)))
  }

  // ------------------------------------------------------- live authorization

  datatype UseRequest = UseRequest(
    scope: Scope, delegationId: string, delegateeSessionId: string, projectId: Option<string>,
    taskId: Option<string>, goalId: string, policyVersion: string, policyDigest: bytes,
    constitutionVersion: string, constitutionDigest: bytes, action: Action, reservedTokenBudget: u32, key: string)

  datatype UseRefusal =
    | DelegateeSessionMismatch | ScopeMismatch | PolicyBasisMismatch | ConstitutionBasisMismatch
    | NotYetEffective | Expired | DelegationRevoked | ActionNotAllowed | ActionLimitExceeded | TokenBudgetExceeded

  datatype UseOutcome = UseOutcome(receipt: UseReceipt, idempotentReplay: bool)

  function ValidateUse(r: UseRequest): Outcome<StoreError> {
    if !Identifier(r.scope.tenantId) then Fail(InvalidIdentifier(TenantId))
    else if !Identifier(r.scope.repositoryId) then Fail(InvalidIdentifier(RepositoryId))
    else if !Identifier(r.delegationId) then Fail(InvalidIdentifier(DelegationId))
    else if !Identifier(r.delegateeSessionId) then Fail(InvalidIdentifier(DelegateeId))
    else if !Identifier(r.goalId) then Fail(InvalidIdentifier(GoalId))
    else if !Identifier(r.policyVersion) then Fail(InvalidIdentifier(PolicyVersion))
    else if !Identifier(r.constitutionVersion) then Fail(InvalidIdentifier(ConstitutionVersion))
    else if !Identifier(r.key) then Fail(InvalidIdentifier(IdempotencyKey))
    else if !OptionalIdentifier(r.projectId) then Fail(InvalidOptionalIdentifier(ProjectId))
    else if !OptionalIdentifier(r.taskId) then Fail(InvalidOptionalIdentifier(TaskId))
    else if |r.policyDigest| != DIGEST_BYTES then Fail(InvalidDigest(PolicyDigest))
    else if |r.constitutionDigest| != DIGEST_BYTES then Fail(InvalidDigest(ConstitutionDigest))
    else Pass
  }

  function ReceiptsOf(st: Stream, id: string): seq<UseReceipt> { if id in st.receipts then st.receipts[id] else [] }

  function FindReceipt(receipts: seq<UseReceipt>, key: string): Option<UseReceipt> {
    if receipts == [] then None
    else if receipts[0].request.key == key then Some(receipts[0])
    else FindReceipt(receipts[1..], key)
  }

  /** `COUNT(*) FILTER (WHERE outcome = 1)`. */
  function AuthorizedCount(receipts: seq<UseReceipt>): nat {
    if receipts == [] then 0
    else AuthorizedCount(receipts[..|receipts| - 1]) + (if receipts[|receipts| - 1].refusal.None? then 1 else 0)
  }

  /** `SUM(reserved_token_budget) FILTER (WHERE outcome = 1)`. */
  function ReservedTokens(receipts: seq<UseReceipt>): nat {
    if receipts == [] then 0
    else
      var last := receipts[|receipts| - 1];
      ReservedTokens(receipts[..|receipts| - 1]) + (if last.refusal.None? then last.request.reservedTokenBudget else 0)
  }

  predicate BoundScopeMatches(expected: Option<string>, actual: Option<string>) {
    expected.None? || actual == expected
  }

  function RefusalFor(p: Projection, r: UseRequest, now: int, actions: nat, tokens: nat): Option<UseRefusal> {
    var g := p.grant;
    if p.status.Ended? then Some(DelegationRevoked)
    else if now < g.effectiveAt then Some(NotYetEffective)
    else if now >= g.expiresAt then Some(Expired)
    else if g.delegateeSessionId != r.delegateeSessionId then Some(DelegateeSessionMismatch)
    else if g.goalId != r.goalId || !BoundScopeMatches(g.projectId, r.projectId)
            || !BoundScopeMatches(g.taskId, r.taskId) then Some(ScopeMismatch)
    else if g.policyVersion != r.policyVersion || g.policyDigest != r.policyDigest then Some(PolicyBasisMismatch)
    else if g.constitutionVersion != r.constitutionVersion || g.constitutionDigest != r.constitutionDigest
    then Some(ConstitutionBasisMismatch)
    else if r.action !in g.allowedActions then Some(ActionNotAllowed)
    else if actions >= g.maxActionsPerSession then Some(ActionLimitExceeded)
    else if tokens + r.reservedTokenBudget > U64_MAX || tokens + r.reservedTokenBudget > g.maxTokenBudget
    then Some(TokenBudgetExceeded)
    else None
  }

  /** The use transaction locks the projection row, so it is atomic with
      respect to a revocation of the same delegation. The use digest covers the
      whole request, key included. */
  function UseStep(st: Stream, r: UseRequest, now: int, recordedAt: int): (Stream, Result<UseOutcome, StoreError>) {
    match ValidateUse(r)
    case Fail(e) => (st, Err(e))
    case Pass =>
      if r.delegationId !in st.projections then (st, Err(NotFound))
      else
        var receipts := ReceiptsOf(st, r.delegationId);
        match FindReceipt(receipts, r.key)
        case Some(existing) =>
          if existing.request != r then (st, Err(IdempotencyConflict)) else (st, Ok(UseOutcome(existing, true)))
        case None =>
          var p := st.projections[r.delegationId];
          var refusal := RefusalFor(p, r, NormalizeTimestamp(now), AuthorizedCount(receipts), ReservedTokens(receipts));
          var receipt := UseReceipt(r, p.version, refusal, recordedAt);
          (st.(receipts := st.receipts[r.delegationId := receipts + [receipt]]), Ok(UseOutcome(receipt, false)))
  }

  // ----------------------------------------------------------------- the runs

  datatype Operation =
    | DoGrant(grant: GrantRequest, now: int, recordedAt: int, id: string)
    | DoRevoke(revocation: RevocationRequest, recordedAt: int)
    | DoUse(use: UseRequest, now: int, recordedAt: int)

  datatype Reply =
    | Delegated(result: Result<DelegationOutcome, StoreError>)
    | Used(use: Result<UseOutcome, StoreError>)

  function ScopeOf(op: Operation): Scope {
    match op
    case DoGrant(r, _, _, _) => r.scope
    case DoRevoke(r, _) => r.scope
    case DoUse(r, _, _) => r.scope
  }

  function StreamStep(st: Stream, op: Operation): (Stream, Reply) {
    match op
    case DoGrant(r, now, at, id) => var (st', result) := GrantStep(st, r, now, at, id); (st', Delegated(result))
    case DoRevoke(r, at) => var (st', result) := RevokeStep(st, r, at); (st', Delegated(result))
    case DoUse(r, now, at) => var (st', result) := UseStep(st, r, now, at); (st', Used(result))
  }

  predicate Failed(reply: Reply) {
    match reply
    case Delegated(result) => result.Err?
    case Used(use) => use.Err?
  }

  /** An error or a replay commits nothing, so it does not create the scope's
      head row either. */
  function Step(s: Store, op: Operation): (Store, Reply) {
    var scope := ScopeOf(op);
    var (st', reply) := StreamStep(StreamOf(s, scope), op);
    (if Failed(reply) then s else s[scope := st'], reply)
  }

  function Run(s: Store, ops: seq<Operation>): Store
    decreases |ops|
  {
    if ops == [] then s else Run(Step(s, ops[0]).0, ops[1..])
  }
}
