/** What every run of grants, revocations and uses keeps. */
module DelegationTheorems {
  import opened Common
  import opened Delegation

  // ------------------------------------------------- reference: replaying

  /** The part of a history one event contributes. */
  function Own(e: Event, id: string): seq<Event> { if e.delegationId == id then [e] else [] }

  /** One delegation's events, in stream order. */
  function History(events: seq<Event>, id: string): seq<Event> {
    if events == [] then []
    else Own(events[0], id) + History(events[1..], id)
  }

  function Fold(p: Option<Projection>, e: Event): Option<Projection> {
    match e.payload
    case Granted(g) =>
      if p.Some? then None
      else Some(Projection(e.delegationId, e.actor, g, e.recordedAt, Active, e.resultingVersion, e.position))
    case Revoked(reason) =>
      if p.None? then None
      else Some(p.value.(status := Ended(e.recordedAt, e.actor, reason), version := e.resultingVersion,
                         sourceEventPosition := e.position))
  }

  /** The projection recomputed from a history alone. */
  function Replay(h: seq<Event>): Option<Projection> {
    if h == [] then None else Fold(Replay(h[..|h| - 1]), h[|h| - 1])
  }

  /** Granted at version 1, or that and then revoked at version 2. */
  predicate Lifecycle(h: seq<Event>) {
    && 1 <= |h| <= 2
    && h[0].payload.Granted? && h[0].resultingVersion == 1 && h[0].expectedPriorVersion == 0
    && (|h| == 2 ==> h[1].payload.Revoked? && h[1].resultingVersion == 2 && h[1].expectedPriorVersion == 1)
  }

  // --------------------------------------------------------- the invariant

  predicate Gapless(st: Stream) {
    && st.head == |st.events| <= I64_MAX
    && forall i :: 0 <= i < |st.events| ==> st.events[i].position == i + 1
  }

  predicate KeysUnique(events: seq<Event>) {
    forall i, j :: 0 <= i < j < |events| ==> events[i].key != events[j].key
  }

  /** What the read side will accept, under the digest of that very content. */
  predicate EventOk(scope: Scope, e: Event) {
    && StoredPayloadOk(e.payload)
    && match e.payload
       case Granted(g) => e.digest == GrantDigestOf(scope, e.actor, g)
       case Revoked(reason) =>
         e.digest == RevocationDigest(scope, e.delegationId, e.actor, reason, e.expectedPriorVersion)
  }

  predicate EventsOk(scope: Scope, events: seq<Event>) {
    forall i :: 0 <= i < |events| ==> EventOk(scope, events[i])
  }

  predicate ProjectedOk(st: Stream, id: string) {
    var h := History(st.events, id);
    if id in st.projections then Lifecycle(h) && Replay(h) == Some(st.projections[id]) else h == []
  }

  ghost predicate Projected(st: Stream) {
    forall id :: ProjectedOk(st, id)
  }

  /** An authorized use named this delegatee, the grant's whole scope and
      basis, an allowed action and the grant's own version. */
  predicate UseOk(p: Projection, r: UseReceipt) {
    var g, u := p.grant, r.request;
    r.refusal.None? ==>
      && u.delegateeSessionId == g.delegateeSessionId
      && u.goalId == g.goalId && BoundScopeMatches(g.projectId, u.projectId) && BoundScopeMatches(g.taskId, u.taskId)
      && u.policyVersion == g.policyVersion && u.policyDigest == g.policyDigest
      && u.constitutionVersion == g.constitutionVersion && u.constitutionDigest == g.constitutionDigest
      && u.action in g.allowedActions
      && r.delegationVersion == 1
  }

  predicate UsesOk(p: Projection, receipts: seq<UseReceipt>) {
    && AuthorizedCount(receipts) <= p.grant.maxActionsPerSession
    && ReservedTokens(receipts) <= p.grant.maxTokenBudget
    && (forall i :: 0 <= i < |receipts| ==> UseOk(p, receipts[i]))
    && (forall i, j :: 0 <= i < j < |receipts| ==> receipts[i].request.key != receipts[j].request.key)
  }

  predicate WithinEnvelope(st: Stream) {
    forall id :: id in st.receipts ==> id in st.projections && UsesOk(st.projections[id], st.receipts[id])
  }

  ghost predicate StreamOk(scope: Scope, st: Stream) {
    Gapless(st) && KeysUnique(st.events) && EventsOk(scope, st.events) && Projected(st) && WithinEnvelope(st)
  }

  ghost predicate StoreOk(s: Store) {
    forall scope :: scope in s ==> StreamOk(scope, s[scope])
  }

  // -------------------------------------------------------- lookups on logs

  lemma Assoc(a: seq<Event>, b: seq<Event>, c: seq<Event>)
    ensures a + (b + c) == a + b + c && a + [] == a && [] + a == a
  {}

  lemma HistoryCons(e: Event, rest: seq<Event>, id: string)
    ensures History([e] + rest, id) == Own(e, id) + History(rest, id)
  {
    assert ([e] + rest)[1..] == rest;
  }

  lemma {:induction false} HistorySnoc(events: seq<Event>, e: Event, id: string)
    ensures History(events + [e], id) == History(events, id) + Own(e, id)
  {
    if events == [] {
      HistoryCons(e, [], id);
      assert [e] + [] == [e] && events + [e] == [e];
      Assoc(Own(e, id), [], []);
    } else {
      var x, rest := events[0], events[1..];
      HistorySnoc(rest, e, id);
      assert events == [x] + rest && events + [e] == [x] + (rest + [e]);
      HistoryCons(x, rest, id);
      HistoryCons(x, rest + [e], id);
      Assoc(Own(x, id), History(rest, id), Own(e, id));
    }
  }

  lemma {:induction false} FindKeyMeaning(events: seq<Event>, key: string)
    ensures FindKey(events, key).None? <==> forall i :: 0 <= i < |events| ==> events[i].key != key
    ensures FindKey(events, key).Some? ==> FindKey(events, key).value in events
                                           && FindKey(events, key).value.key == key
  {
    if events != [] {
      FindKeyMeaning(events[1..], key);
      if FindKey(events, key).None? {
        forall i | 0 <= i < |events| ensures events[i].key != key {
          if i > 0 { assert events[i] == events[1..][i - 1]; }
        }
      } else if events[0].key != key {
        assert FindKey(events, key).value in events[1..];
      }
    }
  }

  lemma {:induction false} FindKeyAt(events: seq<Event>, i: nat)
    requires i < |events| && KeysUnique(events)
    ensures FindKey(events, events[i].key) == Some(events[i])
  {
    FindKeyMeaning(events, events[i].key);
    var e := FindKey(events, events[i].key).value;
    var j :| 0 <= j < |events| && events[j] == e;
  }

  lemma {:induction false} FindGrantMeaning(events: seq<Event>, id: string)
    requires History(events, id) != [] && History(events, id)[0].payload.Granted?
    ensures FindGrant(events, id) == Some(History(events, id)[0])
  {
    if events[0].delegationId != id {
      assert History(events, id) == History(events[1..], id);
      FindGrantMeaning(events[1..], id);
    }
  }

  lemma {:induction false} HistoryMember(events: seq<Event>, i: nat)
    requires i < |events|
    ensures events[i] in History(events, events[i].delegationId)
  {
    if i > 0 {
      assert events[i] == events[1..][i - 1];
      HistoryMember(events[1..], i - 1);
    }
  }

  lemma ReplayLifecycle(h: seq<Event>)
    requires Lifecycle(h)
    ensures Replay([h[0]]) == Fold(None, h[0])
    ensures |h| == 1 ==> h == [h[0]] && Replay(h) == Fold(None, h[0])
    ensures |h| == 2 ==> h[..1] == [h[0]] && Replay(h) == Fold(Fold(None, h[0]), h[1])
  {
    assert [h[0]][..0] == [];
    if |h| == 2 { assert h[..1] == [h[0]]; }
  }

  // --------------------------------------------------- what a step appends

  /** The log, the head and one projection row move together. */
  function Appended(st: Stream, e: Event, row: Projection): Stream {
    st.(head := e.position, events := st.events + [e], projections := st.projections[e.delegationId := row])
  }

  lemma GrantCases(st: Stream, raw: GrantRequest, now: int, at: int, id: string)
    ensures var (st', result) := GrantStep(st, raw, now, at, id);
            var r := Normalized(raw);
            && (result.Err? ==> st' == st)
            && (result.Ok? && result.value.idempotentReplay ==> st' == st)
            && (result.Ok? && !result.value.idempotentReplay ==>
                  && ValidateGrant(r, NormalizeTimestamp(now)).Pass?
                  && FindKey(st.events, r.key).None?
                  && 0 < st.head + 1 <= I64_MAX
                  && id !in st.projections
                  && result.value.event == GrantEventFor(r, id, st.head + 1, at)
                  && StoredPayloadOk(result.value.event.payload)
                  && st' == Appended(st, result.value.event, GrantRow(r, id, st.head + 1, at)))
  {}

  lemma RevokeCases(st: Stream, r: RevocationRequest, at: int)
    ensures var (st', result) := RevokeStep(st, r, at);
            && (result.Err? ==> st' == st)
            && (result.Ok? && result.value.idempotentReplay ==> st' == st)
            && (result.Ok? && !result.value.idempotentReplay ==>
                  && ValidateRevocation(r).Pass?
                  && FindKey(st.events, r.key).None?
                  && 0 < st.head + 1 <= I64_MAX
                  && r.delegationId in st.projections
                  && st.projections[r.delegationId].status.Active?
                  && st.projections[r.delegationId].version == r.expectedVersion
                  && result.value.event == RevocationEventFor(r, st.head + 1, at)
                  && st' == Appended(st, result.value.event,
                                     st.projections[r.delegationId].(
                                       status := Ended(at, r.revoker, r.reason),
                                       version := r.expectedVersion + 1, sourceEventPosition := st.head + 1)))
  {}

  // --------------------------------------------- each part of the invariant

  lemma AppendKeepsLog(scope: Scope, st: Stream, e: Event, row: Projection)
    requires Gapless(st) && KeysUnique(st.events) && EventsOk(scope, st.events)
    requires e.position == st.head + 1 <= I64_MAX && FindKey(st.events, e.key).None? && EventOk(scope, e)
    ensures var st' := Appended(st, e, row);
            Gapless(st') && KeysUnique(st'.events) && EventsOk(scope, st'.events)
  {
    FindKeyMeaning(st.events, e.key);
  }

  lemma AppendKeepsProjection(st: Stream, e: Event, row: Projection, id: string)
    requires ProjectedOk(st, id)
    requires var h := History(st.events, e.delegationId) + [e];
             id == e.delegationId ==> Lifecycle(h) && Replay(h) == Some(row)
    ensures ProjectedOk(Appended(st, e, row), id)
  {
    HistorySnoc(st.events, e, id);
    if id == e.delegationId {
      assert Appended(st, e, row).projections[id] == row;
    } else {
      assert History(st.events, id) + [] == History(st.events, id);
    }
  }

  lemma AppendKeepsProjections(st: Stream, e: Event, row: Projection)
    requires Projected(st)
    requires var h := History(st.events, e.delegationId) + [e];
             Lifecycle(h) && Replay(h) == Some(row)
    ensures Projected(Appended(st, e, row))
  {
    forall id ensures ProjectedOk(Appended(st, e, row), id) {
      assert ProjectedOk(st, id);
      AppendKeepsProjection(st, e, row, id);
    }
  }

  lemma StoredGrantIsOk(r: GrantRequest, now: int)
    requires ValidateGrant(r, now).Pass?
    ensures StoredGrantOk(StoredGrant(r.grant))
  {
    StoredActions(r.grant.allowedActions);
  }

  lemma StoringTwice(scope: Scope, issuer: string, g: Grant)
    ensures GrantDigestOf(scope, issuer, StoredGrant(g)) == GrantDigestOf(scope, issuer, g)
  {
    StoredActions(g.allowedActions);
    StoredIgnoresOrder(Stored(g.allowedActions), g.allowedActions);
  }

  /** A new grant is a one-event history whose replay is the row it inserts. */
  lemma GrantReplays(st: Stream, r: GrantRequest, id: string, at: int)
    requires Projected(st) && id !in st.projections
    ensures var h := History(st.events, id) + [GrantEventFor(r, id, st.head + 1, at)];
            Lifecycle(h) && Replay(h) == Some(GrantRow(r, id, st.head + 1, at))
  {
    var e := GrantEventFor(r, id, st.head + 1, at);
    assert ProjectedOk(st, id);
    assert History(st.events, id) + [e] == [e];
    ReplayLifecycle([e]);
  }

  lemma GrantKeepsUses(st: Stream, e: Event, row: Projection)
    requires WithinEnvelope(st) && e.delegationId !in st.projections
    ensures WithinEnvelope(Appended(st, e, row))
  {
    var st' := Appended(st, e, row);
    forall id | id in st'.receipts ensures id in st'.projections && UsesOk(st'.projections[id], st'.receipts[id]) {
      assert id in st.projections && st'.projections[id] == st.projections[id];
    }
  }

  lemma GrantKeeps(st: Stream, raw: GrantRequest, now: int, at: int, id: string)
    requires StreamOk(raw.scope, st)
    ensures StreamOk(raw.scope, GrantStep(st, raw, now, at, id).0)
  {
    GrantCases(st, raw, now, at, id);
    var (st', result) := GrantStep(st, raw, now, at, id);
    if result.Ok? && !result.value.idempotentReplay {
      var r, e := Normalized(raw), result.value.event;
      var row := GrantRow(r, id, st.head + 1, at);
      StoringTwice(r.scope, r.issuer, r.grant);
      AppendKeepsLog(r.scope, st, e, row);
      GrantReplays(st, r, id, at);
      AppendKeepsProjections(st, e, row);
      GrantKeepsUses(st, e, row);
    }
  }

  lemma RevokedReplay(h: seq<Event>, e: Event, p: Projection)
    requires Lifecycle(h) && Replay(h) == Some(p) && p.status.Active?
    requires e.payload.Revoked? && e.expectedPriorVersion == p.version && e.resultingVersion == p.version + 1
    ensures |h| == 1 && p.version == 1 && Lifecycle(h + [e])
    ensures Replay(h + [e]) == Some(p.(status := Ended(e.recordedAt, e.actor, e.payload.reason),
                                       version := e.resultingVersion, sourceEventPosition := e.position))
  {
    ReplayLifecycle(h);
    assert (h + [e])[..|h|] == h;
  }

  lemma RevokeKeepsUses(st: Stream, e: Event, row: Projection)
    requires WithinEnvelope(st) && e.delegationId in st.projections
    requires row.grant == st.projections[e.delegationId].grant
    ensures WithinEnvelope(Appended(st, e, row))
  {
    var st' := Appended(st, e, row);
    forall id | id in st'.receipts ensures id in st'.projections && UsesOk(st'.projections[id], st'.receipts[id]) {
      assert UsesOk(st.projections[id], st.receipts[id]);
      var receipts := st.receipts[id];
      forall i | 0 <= i < |receipts| ensures UseOk(st'.projections[id], receipts[i]) {
        assert UseOk(st.projections[id], receipts[i]);
      }
    }
  }

  lemma RevokeKeeps(st: Stream, r: RevocationRequest, at: int)
    requires StreamOk(r.scope, st)
    ensures StreamOk(r.scope, RevokeStep(st, r, at).0)
    ensures var (st', result) := RevokeStep(st, r, at);
            var h := History(st.events, r.delegationId);
            result.Ok? && !result.value.idempotentReplay ==>
              |h| == 1 && History(st'.events, r.delegationId) == h + [result.value.event]
  {
    RevokeCases(st, r, at);
    var (st', result) := RevokeStep(st, r, at);
    if result.Ok? && !result.value.idempotentReplay {
      var e, p := result.value.event, st.projections[r.delegationId];
      var row := st'.projections[r.delegationId];
      AppendKeepsLog(r.scope, st, e, row);
      assert ProjectedOk(st, r.delegationId);
      RevokedReplay(History(st.events, r.delegationId), e, p);
      HistorySnoc(st.events, e, r.delegationId);
      AppendKeepsProjections(st, e, row);
      RevokeKeepsUses(st, e, row);
    }
  }

  lemma {:induction false} FindReceiptMeaning(receipts: seq<UseReceipt>, key: string)
    ensures FindReceipt(receipts, key).None? <==> forall i :: 0 <= i < |receipts| ==> receipts[i].request.key != key
  {
    if receipts != [] {
      FindReceiptMeaning(receipts[1..], key);
      if FindReceipt(receipts, key).None? {
        forall i | 0 <= i < |receipts| ensures receipts[i].request.key != key {
          if i > 0 { assert receipts[i] == receipts[1..][i - 1]; }
        }
      }
    }
  }

  /** What an authorization means, at the moment it is given. */
  lemma AuthorizedMeans(p: Projection, r: UseRequest, now: int, actions: nat, tokens: nat, at: int)
    requires RefusalFor(p, r, now, actions, tokens).None? && (p.status.Active? ==> p.version == 1)
    ensures UseOk(p, UseReceipt(r, p.version, None, at))
    ensures actions < p.grant.maxActionsPerSession && tokens + r.reservedTokenBudget <= p.grant.maxTokenBudget
  {}

  lemma TotalsSnoc(receipts: seq<UseReceipt>, receipt: UseReceipt)
    ensures AuthorizedCount(receipts + [receipt]) ==
            AuthorizedCount(receipts) + (if receipt.refusal.None? then 1 else 0)
    ensures ReservedTokens(receipts + [receipt]) ==
            ReservedTokens(receipts) + (if receipt.refusal.None? then receipt.request.reservedTokenBudget else 0)
  {
    assert (receipts + [receipt])[..|receipts|] == receipts;
  }

  lemma UsesSnoc(p: Projection, receipts: seq<UseReceipt>, receipt: UseReceipt)
    requires UsesOk(p, receipts) && FindReceipt(receipts, receipt.request.key).None? && UseOk(p, receipt)
    requires AuthorizedCount(receipts + [receipt]) <= p.grant.maxActionsPerSession
    requires ReservedTokens(receipts + [receipt]) <= p.grant.maxTokenBudget
    ensures UsesOk(p, receipts + [receipt])
  {
    FindReceiptMeaning(receipts, receipt.request.key);
  }

  lemma UseAppendKeeps(p: Projection, receipts: seq<UseReceipt>, r: UseRequest, now: int, at: int)
    requires UsesOk(p, receipts) && FindReceipt(receipts, r.key).None?
    requires p.status.Active? ==> p.version == 1
    ensures var refusal := RefusalFor(p, r, now, AuthorizedCount(receipts), ReservedTokens(receipts));
            UsesOk(p, receipts + [UseReceipt(r, p.version, refusal, at)])
  {
    var refusal := RefusalFor(p, r, now, AuthorizedCount(receipts), ReservedTokens(receipts));
    var receipt := UseReceipt(r, p.version, refusal, at);
    if refusal.None? { AuthorizedMeans(p, r, now, AuthorizedCount(receipts), ReservedTokens(receipts), at); }
    TotalsSnoc(receipts, receipt);
    UsesSnoc(p, receipts, receipt);
  }

  lemma VersionFollowsStatus(st: Stream, id: string)
    requires ProjectedOk(st, id) && id in st.projections
    ensures st.projections[id].version == (if st.projections[id].status.Active? then 1 else 2)
  {
    ReplayLifecycle(History(st.events, id));
  }

  function WithReceipt(st: Stream, id: string, receipt: UseReceipt): Stream {
    st.(receipts := st.receipts[id := ReceiptsOf(st, id) + [receipt]])
  }

  lemma UseCases(st: Stream, r: UseRequest, now: int, at: int)
    ensures var (st', result) := UseStep(st, r, now, at);
            && (result.Err? || result.value.idempotentReplay ==> st' == st)
            && (result.Ok? && !result.value.idempotentReplay ==>
                  && r.delegationId in st.projections
                  && (var p, receipts := st.projections[r.delegationId], ReceiptsOf(st, r.delegationId);
                      && FindReceipt(receipts, r.key).None?
                      && result.value.receipt ==
                         UseReceipt(r, p.version,
                                    RefusalFor(p, r, NormalizeTimestamp(now), AuthorizedCount(receipts),
                                               ReservedTokens(receipts)), at)
                      && st' == WithReceipt(st, r.delegationId, result.value.receipt)))
  {}

  lemma ReceiptKeepsEnvelope(st: Stream, id: string, receipt: UseReceipt)
    requires WithinEnvelope(st) && id in st.projections
    requires UsesOk(st.projections[id], ReceiptsOf(st, id) + [receipt])
    ensures WithinEnvelope(WithReceipt(st, id, receipt))
  {}

  lemma ReceiptKeepsProjections(st: Stream, id: string, receipt: UseReceipt)
    requires Projected(st)
    ensures Projected(WithReceipt(st, id, receipt))
  {
    var st' := WithReceipt(st, id, receipt);
    forall x ensures ProjectedOk(st', x) { assert ProjectedOk(st, x); }
  }

  lemma StandingUses(st: Stream, id: string)
    requires Projected(st) && WithinEnvelope(st) && id in st.projections
    ensures UsesOk(st.projections[id], ReceiptsOf(st, id))
    ensures st.projections[id].status.Active? ==> st.projections[id].version == 1
  {
    assert ProjectedOk(st, id);
    VersionFollowsStatus(st, id);
  }

  lemma UseKeeps(st: Stream, r: UseRequest, now: int, at: int)
    requires StreamOk(r.scope, st)
    ensures StreamOk(r.scope, UseStep(st, r, now, at).0)
  {
    UseCases(st, r, now, at);
    var result := UseStep(st, r, now, at).1;
    if result.Ok? && !result.value.idempotentReplay {
      var id, receipt := r.delegationId, result.value.receipt;
      StandingUses(st, id);
      UseAppendKeeps(st.projections[id], ReceiptsOf(st, id), r, NormalizeTimestamp(now), at);
      ReceiptKeepsEnvelope(st, id, receipt);
      ReceiptKeepsProjections(st, id, receipt);
    }
  }

  lemma StepKeeps(s: Store, op: Operation)
    requires StoreOk(s)
    ensures StoreOk(Step(s, op).0)
  {
    var scope := ScopeOf(op);
    var st := StreamOf(s, scope);
    assert StreamOk(scope, st) by { EmptyOk(scope); }
    match op
    case DoGrant(r, now, at, id) => GrantKeeps(st, r, now, at, id);
    case DoRevoke(r, at) => RevokeKeeps(st, r, at);
    case DoUse(r, now, at) => UseKeeps(st, r, now, at);
  }

  lemma EmptyOk(scope: Scope)
    ensures StreamOk(scope, EMPTY)
  {}

  lemma {:induction false} RunKeeps(s: Store, ops: seq<Operation>)
    requires StoreOk(s)
    ensures StoreOk(Run(s, ops))
    decreases |ops|
  {
    if ops != [] {
      StepKeeps(s, ops[0]);
      RunKeeps(Step(s, ops[0]).0, ops[1..]);
    }
  }

  /** Every reachable state of every run: gapless positions, unique keys,
      histories of one of two shapes, projections equal to their replay, and
      every authorized use within the granted envelope. */
  lemma EveryRunIsConsistent(ops: seq<Operation>, scope: Scope, id: string)
    ensures var st := StreamOf(Run(map[], ops), scope);
            && (forall i :: 0 <= i < |st.events| ==> st.events[i].position == i + 1)
            && st.head == |st.events|
            && KeysUnique(st.events)
            && (id in st.projections <==> History(st.events, id) != [])
            && (id in st.projections ==>
                  && Lifecycle(History(st.events, id))
                  && Replay(History(st.events, id)) == Some(st.projections[id])
                  && AuthorizedCount(ReceiptsOf(st, id)) <= st.projections[id].grant.maxActionsPerSession
                  && ReservedTokens(ReceiptsOf(st, id)) <= st.projections[id].grant.maxTokenBudget
                  && (forall i :: 0 <= i < |ReceiptsOf(st, id)| ==>
                        UseOk(st.projections[id], ReceiptsOf(st, id)[i])))
  {
    RunKeeps(map[], ops);
    EmptyOk(scope);
    var st := StreamOf(Run(map[], ops), scope);
    assert StreamOk(scope, st) && ProjectedOk(st, id);
    if id in st.receipts { assert UsesOk(st.projections[id], st.receipts[id]); }
  }
}
