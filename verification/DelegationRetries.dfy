/** Idempotent retries, conflicting keys, terminal revocation and exactly when
    a transaction succeeds. */
module DelegationRetries {
  import opened Common
  import opened Delegation
  import opened DelegationTheorems

  // -------------------------------------------------- the log only grows

  lemma StepAppends(s: Store, op: Operation, scope: Scope)
    ensures StreamOf(s, scope).events <= StreamOf(Step(s, op).0, scope).events
  {
    var st := StreamOf(s, ScopeOf(op));
    match op
    case DoGrant(r, now, at, id) => GrantCases(st, r, now, at, id);
    case DoRevoke(r, at) => RevokeCases(st, r, at);
    case DoUse(r, now, at) => UseCases(st, r, now, at);
  }

  lemma {:induction false} RunAppends(s: Store, ops: seq<Operation>, scope: Scope)
    ensures StreamOf(s, scope).events <= StreamOf(Run(s, ops), scope).events
    decreases |ops|
  {
    if ops != [] {
      StepAppends(s, ops[0], scope);
      RunAppends(Step(s, ops[0]).0, ops[1..], scope);
    }
  }

  lemma {:induction false} FindKeyConcat(a: seq<Event>, b: seq<Event>, key: string)
    ensures FindKey(a + b, key) == if FindKey(a, key).Some? then FindKey(a, key) else FindKey(b, key)
  {
    if a == [] {
      assert a + b == b;
    } else {
      assert (a + b)[1..] == a[1..] + b;
      FindKeyConcat(a[1..], b, key);
    }
  }

  lemma {:induction false} FindGrantConcat(a: seq<Event>, b: seq<Event>, id: string)
    ensures FindGrant(a + b, id) == if FindGrant(a, id).Some? then FindGrant(a, id) else FindGrant(b, id)
  {
    if a == [] {
      assert a + b == b;
    } else {
      assert (a + b)[1..] == a[1..] + b;
      FindGrantConcat(a[1..], b, id);
    }
  }

  /** An outcome once found is found again in every extension of the log. */
  lemma OutcomeIsStable(a: seq<Event>, b: seq<Event>, key: string, grants: bool, digest: Digest)
    requires a <= b && IdempotentOutcome(a, key, grants, digest).Ok?
    requires IdempotentOutcome(a, key, grants, digest).value.Some?
    ensures IdempotentOutcome(b, key, grants, digest) == IdempotentOutcome(a, key, grants, digest)
  {
    var rest := b[|a|..];
    assert b == a + rest;
    FindKeyConcat(a, rest, key);
    FindGrantConcat(a, rest, FindKey(a, key).value.delegationId);
  }

  // ---------------------------------------------------------------- retries

  /** What a successful grant or revocation leaves behind is what a retry will
      find. */
  lemma GrantIsRecorded(st: Stream, raw: GrantRequest, now: int, at: int, id: string)
    requires GrantStep(st, raw, now, at, id).1.Ok?
    ensures var (st', result) := GrantStep(st, raw, now, at, id);
            var r := Normalized(raw);
            IdempotentOutcome(st'.events, r.key, true, GrantDigestOf(r.scope, r.issuer, r.grant))
            == Ok(Some(result.value.(idempotentReplay := true)))
  {
    GrantCases(st, raw, now, at, id);
    var result := GrantStep(st, raw, now, at, id).1;
    if !result.value.idempotentReplay {
      FindKeyConcat(st.events, [result.value.event], raw.key);
    }
  }

  lemma RevokeIsRecorded(st: Stream, r: RevocationRequest, at: int)
    requires RevokeStep(st, r, at).1.Ok?
    ensures var (st', result) := RevokeStep(st, r, at);
            IdempotentOutcome(st'.events, r.key, false, RevocationDigestOf(r))
            == Ok(Some(result.value.(idempotentReplay := true)))
  {
    RevokeCases(st, r, at);
    var result := RevokeStep(st, r, at).1;
    if !result.value.idempotentReplay {
      FindKeyConcat(st.events, [result.value.event], r.key);
    }
  }

  /** The same request, up to the order of its actions and to fractions of a
      microsecond. */
  ghost predicate SameGrant(a: GrantRequest, b: GrantRequest) {
    && a.scope == b.scope && a.issuer == b.issuer && a.key == b.key
    && SameEnvelope(Normalized(a).grant, Normalized(b).grant)
  }

  ghost predicate SameEnvelope(g: Grant, g': Grant) {
    && multiset(g.allowedActions) == multiset(g'.allowedActions)
    && g == g'.(allowedActions := g.allowedActions)
  }

  lemma SameGrantValidates(a: GrantRequest, b: GrantRequest, now: int, now': int)
    requires SameGrant(a, b) && ValidateGrant(Normalized(a), now).Pass?
    ensures ValidateGrant(Normalized(b), now') ==
            if Normalized(b).grant.expiresAt <= now' then Fail(InvalidTimeWindow) else Pass
  {
    var x, y := Normalized(a).grant.allowedActions, Normalized(b).grant.allowedActions;
    assert |x| == |multiset(x)| == |multiset(y)| == |y|;
    DistinctIsMultiplicity(x);
    DistinctIsMultiplicity(y);
  }

  lemma SameGrantHashes(a: GrantRequest, b: GrantRequest, now: int)
    requires SameGrant(a, b) && ValidateGrant(Normalized(a), now).Pass?
    ensures var x, y := Normalized(a), Normalized(b);
            GrantDigestOf(x.scope, x.issuer, x.grant) == GrantDigestOf(y.scope, y.issuer, y.grant)
  {
    var x, y := Normalized(a), Normalized(b);
    GrantDigestIdentifies(x.scope, x.issuer, x.grant, y.scope, y.issuer, y.grant);
  }

  lemma GrantFromOutcome(st: Stream, raw: GrantRequest, now: int, at: int, id: string, o: DelegationOutcome)
    requires var r := Normalized(raw);
             IdempotentOutcome(st.events, r.key, true, GrantDigestOf(r.scope, r.issuer, r.grant)) == Ok(Some(o))
    ensures GrantStep(st, raw, now, at, id) ==
            (st, match ValidateGrant(Normalized(raw), NormalizeTimestamp(now))
                 case Fail(e) => Err(e)
                 case Pass => Ok(o))
  {}

  lemma GrantAccepted(st: Stream, raw: GrantRequest, now: int, at: int, id: string)
    requires GrantStep(st, raw, now, at, id).1.Ok?
    ensures ValidateGrant(Normalized(raw), NormalizeTimestamp(now)).Pass?
  {}

  /** Writing an unchanged stream back writes nothing. */
  lemma Unchanged(s: Store, scope: Scope)
    requires StreamOf(s, scope).events != []
    ensures scope in s && s[scope := StreamOf(s, scope)] == s
  {}

  /** A grant retried after any further operations answers with the original
      event and the projection as of that event, and changes nothing; the one
      thing that can stop it is its own expiry, which is checked first. */
  lemma GrantRetry(s: Store, first: GrantRequest, now: int, at: int, id: string, ops: seq<Operation>,
                   again: GrantRequest, now': int, at': int, id': string)
    requires Step(s, DoGrant(first, now, at, id)).1.result.Ok? && SameGrant(first, again)
    ensures var (s1, reply) := Step(s, DoGrant(first, now, at, id));
            var s2 := Run(s1, ops);
            Step(s2, DoGrant(again, now', at', id')) ==
            (s2, Delegated(if NormalizeTimestamp(again.grant.expiresAt) <= NormalizeTimestamp(now')
                           then Err(InvalidTimeWindow)
                           else Ok(reply.result.value.(idempotentReplay := true))))
  {
    var scope := first.scope;
    var (s1, reply) := Step(s, DoGrant(first, now, at, id));
    var s2, st, st1 := Run(s1, ops), StreamOf(s, scope), StreamOf(s1, scope);
    var st2 := StreamOf(s2, scope);
    GrantIsRecorded(st, first, now, at, id);
    GrantAccepted(st, first, now, at, id);
    RunAppends(s1, ops, scope);
    var x, y := Normalized(first), Normalized(again);
    OutcomeIsStable(st1.events, st2.events, x.key, true, GrantDigestOf(x.scope, x.issuer, x.grant));
    SameGrantHashes(first, again, NormalizeTimestamp(now));
    SameGrantValidates(first, again, NormalizeTimestamp(now), NormalizeTimestamp(now'));
    GrantFromOutcome(st2, again, now', at', id', reply.result.value.(idempotentReplay := true));
    Unchanged(s2, scope);
  }

  /** A revocation retried after any further operations always answers with
      the original outcome. */
  lemma RevokeRetry(s: Store, r: RevocationRequest, at: int, ops: seq<Operation>, at': int)
    requires Step(s, DoRevoke(r, at)).1.result.Ok?
    ensures var (s1, reply) := Step(s, DoRevoke(r, at));
            var s2 := Run(s1, ops);
            Step(s2, DoRevoke(r, at')) == (s2, Delegated(Ok(reply.result.value.(idempotentReplay := true))))
  {
    var scope := r.scope;
    var (s1, reply) := Step(s, DoRevoke(r, at));
    var s2, st1 := Run(s1, ops), StreamOf(s1, scope);
    RevokeIsRecorded(StreamOf(s, scope), r, at);
    RunAppends(s1, ops, scope);
    OutcomeIsStable(st1.events, StreamOf(s2, scope).events, r.key, false, RevocationDigestOf(r));
    Unchanged(s2, scope);
  }

  // ----------------------------------------------------- keys already used

  lemma GrantUnderKey(st: Stream, raw: GrantRequest, now: int, at: int, id: string, e: Event)
    requires FindKey(st.events, raw.key) == Some(e) && StoredPayloadOk(e.payload)
    requires ValidateGrant(Normalized(raw), NormalizeTimestamp(now)).Pass?
    ensures var r := Normalized(raw);
            GrantStep(st, raw, now, at, id) ==
            (st, if e.payload.Granted? && e.digest == GrantDigestOf(r.scope, r.issuer, r.grant)
                 then Ok(DelegationOutcome(ProjectionAtEvent(e, e).value, e, true))
                 else Err(IdempotencyConflict))
  {}

  /** A valid grant under a used key: a replay exactly when the stored event is
      this very grant, otherwise a conflict; the state never changes. */
  lemma GrantUnderUsedKey(st: Stream, raw: GrantRequest, now: int, at: int, id: string, i: nat)
    requires StreamOk(raw.scope, st) && i < |st.events| && st.events[i].key == raw.key
    requires ValidateGrant(Normalized(raw), NormalizeTimestamp(now)).Pass?
    ensures var e := st.events[i];
            var (st', result) := GrantStep(st, raw, now, at, id);
            && st' == st
            && if e.payload.Granted? && e.actor == raw.issuer && SameEnvelope(e.payload.grant, Normalized(raw).grant)
               then result.Ok? && result.value.event == e && result.value.idempotentReplay
                    && Replay([e]) == Some(result.value.projection)
               else result == Err(IdempotencyConflict)
  {
    var e, r := st.events[i], Normalized(raw);
    FindKeyAt(st.events, i);
    assert EventOk(raw.scope, e);
    GrantUnderKey(st, raw, now, at, id, e);
    if e.payload.Granted? {
      GrantDigestIdentifies(raw.scope, e.actor, e.payload.grant, r.scope, r.issuer, r.grant);
      assert [e][..0] == [];
    }
  }

  lemma RevokeUnderUsedKey(st: Stream, r: RevocationRequest, at: int, i: nat)
    requires StreamOk(r.scope, st) && i < |st.events| && st.events[i].key == r.key && ValidateRevocation(r).Pass?
    ensures var e := st.events[i];
            var (st', result) := RevokeStep(st, r, at);
            && st' == st
            && if e.payload == Revoked(r.reason) && e.delegationId == r.delegationId && e.actor == r.revoker
                  && e.expectedPriorVersion == r.expectedVersion
               then result.Ok? && result.value.event == e && result.value.idempotentReplay
                    && Replay(History(st.events, e.delegationId)) == Some(result.value.projection)
               else result == Err(IdempotencyConflict)
  {
    var e := st.events[i];
    FindKeyAt(st.events, i);
    assert EventOk(r.scope, e);
    if e.payload.Revoked? && e.digest == RevocationDigestOf(r) {
      RevocationOnRecord(r.scope, st, i);
    }
  }

  lemma {:induction false} FindGrantIsOk(scope: Scope, events: seq<Event>, id: string)
    requires EventsOk(scope, events) && FindGrant(events, id).Some?
    ensures StoredPayloadOk(FindGrant(events, id).value.payload)
  {
    assert EventOk(scope, events[0]);
    if FindGrant(events, id) != Some(events[0]) { FindGrantIsOk(scope, events[1..], id); }
  }

  /** A stored revocation is the second half of its delegation's history. */
  lemma RevocationOnRecord(scope: Scope, st: Stream, i: nat)
    requires Projected(st) && EventsOk(scope, st.events) && i < |st.events| && st.events[i].payload.Revoked?
    ensures var e := st.events[i];
            var h := History(st.events, e.delegationId);
            && |h| == 2 && h[1] == e && h[0].payload.Granted? && h[0].delegationId == e.delegationId
            && ReadGrant(st.events, e.delegationId) == Ok(h[0])
            && ProjectionAtEvent(h[0], e).Ok? && Replay(h) == Some(ProjectionAtEvent(h[0], e).value)
  {
    var e := st.events[i];
    var h := History(st.events, e.delegationId);
    HistoryMember(st.events, i);
    assert ProjectedOk(st, e.delegationId);
    FindGrantMeaning(st.events, e.delegationId);
    ReplayLifecycle(h);
    HistoryIds(st.events, e.delegationId);
    FindGrantIsOk(scope, st.events, e.delegationId);
  }

  lemma {:induction false} HistoryIds(events: seq<Event>, id: string)
    ensures forall i :: 0 <= i < |History(events, id)| ==> History(events, id)[i].delegationId == id
  {
    if events != [] { HistoryIds(events[1..], id); }
  }

  // ----------------------------------------------------- exactly when it works

  /** A grant under a new key is stored exactly when it validates, the drawn id
      is new and a position is left; the reply's projection is the committed
      row. No other database error and no integrity error is reachable. */
  lemma GrantSucceedsExactlyWhen(st: Stream, raw: GrantRequest, now: int, at: int, id: string)
    requires StreamOk(raw.scope, st) && FindKey(st.events, raw.key).None?
    ensures var (st', result) := GrantStep(st, raw, now, at, id);
            var valid := ValidateGrant(Normalized(raw), NormalizeTimestamp(now));
            && (result.Ok? <==> valid.Pass? && st.head < I64_MAX && id !in st.projections)
            && (result.Ok? ==> !result.value.idempotentReplay && id in st'.projections
                               && result.value.projection == st'.projections[id])
            && (valid.Pass? && result.Err? ==>
                  result.error == if st.head == I64_MAX then StreamPositionExhausted else DatabaseError)
  {
    FindKeyMeaning(st.events, raw.key);
    var r := Normalized(raw);
    if ValidateGrant(r, NormalizeTimestamp(now)).Pass? {
      StoredGrantIsOk(r, NormalizeTimestamp(now));
    }
  }

  /** The reply is the committed row. */
  predicate Committed(st: Stream, result: Result<DelegationOutcome, StoreError>, id: string) {
    result.Ok? && id in st.projections && result.value.projection == st.projections[id]
  }

  lemma NextIsInsertable(st: Stream, e: Event)
    requires Gapless(st) && e.position == st.head + 1 && FindKey(st.events, e.key).None?
    ensures EventInsertable(st.events, e)
  {
    FindKeyMeaning(st.events, e.key);
  }

  lemma RevocationFromFacts(st: Stream, r: RevocationRequest, at: int, g: Event)
    requires ValidateRevocation(r).Pass? && r.delegationId in st.projections
    requires var e := RevocationEventFor(r, st.head + 1, at);
             EventInsertable(st.events, e) && FindGrant(st.events + [e], r.delegationId) == Some(g)
    requires g.payload.Granted? && g.delegationId == r.delegationId && StoredPayloadOk(g.payload)
    requires Fold(None, g) == Some(st.projections[r.delegationId])
    ensures var (st', result) := AppendRevocation(st, r, st.head + 1, at);
            Committed(st', result, r.delegationId)
  {}

  /** An active delegation's whole history is its grant. */
  lemma ActiveHistory(st: Stream, id: string)
    requires ProjectedOk(st, id) && id in st.projections && st.projections[id].status.Active?
    ensures var h := History(st.events, id);
            && |h| == 1 && h[0].payload.Granted? && h[0].delegationId == id
            && FindGrant(st.events, id) == Some(h[0]) && Fold(None, h[0]) == Some(st.projections[id])
  {
    FindGrantMeaning(st.events, id);
    HistoryIds(st.events, id);
    ReplayLifecycle(History(st.events, id));
  }

  lemma RevocationAppends(st: Stream, r: RevocationRequest, at: int)
    requires Gapless(st) && EventsOk(r.scope, st.events) && ProjectedOk(st, r.delegationId)
    requires FindKey(st.events, r.key).None? && Revocable(st, r)
    ensures var (st', result) := AppendRevocation(st, r, st.head + 1, at);
            Committed(st', result, r.delegationId)
  {
    var e := RevocationEventFor(r, st.head + 1, at);
    NextIsInsertable(st, e);
    ActiveHistory(st, r.delegationId);
    FindGrantIsOk(r.scope, st.events, r.delegationId);
    FindGrantConcat(st.events, [e], r.delegationId);
    RevocationFromFacts(st, r, at, History(st.events, r.delegationId)[0]);
  }

  predicate Revocable(st: Stream, r: RevocationRequest) {
    && ValidateRevocation(r).Pass? && r.expectedVersion == 1 && st.head < I64_MAX
    && r.delegationId in st.projections && st.projections[r.delegationId].status.Active?
  }

  lemma RevokeFromFacts(st: Stream, r: RevocationRequest, at: int)
    requires FindKey(st.events, r.key).None? && 0 <= st.head <= I64_MAX
    requires r.delegationId in st.projections ==>
               var p := st.projections[r.delegationId];
               p.version == if p.status.Active? then 1 else 2
    requires Revocable(st, r) ==> var (st', result) := AppendRevocation(st, r, st.head + 1, at);
                                  Committed(st', result, r.delegationId)
    ensures var (st', result) := RevokeStep(st, r, at);
            && (result.Ok? <==> Revocable(st, r))
            && (result.Ok? ==> Committed(st', result, r.delegationId))
            && (result.Err? ==> result.error != DatabaseError && result.error != InvalidStoredPayload)
  {}

  /** A revocation under a new key goes through exactly for an active
      delegation at version 1 with a position left; no database error and no
      integrity error is reachable. */
  lemma RevokeSucceedsExactlyWhen(st: Stream, r: RevocationRequest, at: int)
    requires StreamOk(r.scope, st) && FindKey(st.events, r.key).None?
    ensures var (st', result) := RevokeStep(st, r, at);
            && (result.Ok? <==> Revocable(st, r))
            && (result.Ok? ==> Committed(st', result, r.delegationId))
            && (result.Err? ==> result.error != DatabaseError && result.error != InvalidStoredPayload)
  {
    if r.delegationId in st.projections {
      assert ProjectedOk(st, r.delegationId);
      VersionFollowsStatus(st, r.delegationId);
    }
    if Revocable(st, r) { RevocationAppends(st, r, at); }
    RevokeFromFacts(st, r, at);
  }

  // -------------------------------------------------------------- terminality

  ghost predicate IsEnded(st: Stream, id: string) { id in st.projections && st.projections[id].status.Ended? }

  /** What a step may not change about a delegation that has ended. */
  ghost predicate SameEnding(st: Stream, st': Stream, id: string) {
    && IsEnded(st', id) && id in st.projections && st'.projections[id] == st.projections[id]
    && History(st'.events, id) == History(st.events, id)
    && AuthorizedCount(ReceiptsOf(st', id)) == AuthorizedCount(ReceiptsOf(st, id))
    && ReservedTokens(ReceiptsOf(st', id)) == ReservedTokens(ReceiptsOf(st, id))
  }

  lemma AppendTerminal(st: Stream, e: Event, row: Projection, id: string)
    requires IsEnded(st, id) && e.delegationId != id
    ensures SameEnding(st, Appended(st, e, row), id)
  {
    HistorySnoc(st.events, e, id);
  }

  lemma RefusedUseTerminal(st: Stream, receipt: UseReceipt, id: string)
    requires IsEnded(st, id) && receipt.refusal.Some?
    ensures SameEnding(st, WithReceipt(st, id, receipt), id)
  {
    var was := ReceiptsOf(st, id);
    assert (was + [receipt])[..|was|] == was;
  }

  lemma StreamStepTerminal(st: Stream, op: Operation, id: string)
    requires IsEnded(st, id)
    ensures SameEnding(st, StreamStep(st, op).0, id)
  {
    match op {
      case DoGrant(r, now, at, drawn) =>
        GrantCases(st, r, now, at, drawn);
        var result := GrantStep(st, r, now, at, drawn).1;
        if result.Ok? && !result.value.idempotentReplay {
          AppendTerminal(st, result.value.event, GrantRow(Normalized(r), drawn, st.head + 1, at), id);
        }
      case DoRevoke(r, at) =>
        RevokeCases(st, r, at);
        var (st', result) := RevokeStep(st, r, at);
        if result.Ok? && !result.value.idempotentReplay {
          AppendTerminal(st, result.value.event, st'.projections[r.delegationId], id);
        }
      case DoUse(r, now, at) =>
        UseCases(st, r, now, at);
        var result := UseStep(st, r, now, at).1;
        if result.Ok? && !result.value.idempotentReplay && r.delegationId == id {
          RefusedUseTerminal(st, result.value.receipt, id);
        }
    }
  }

  /** Revocation is terminal: whatever runs afterwards, the projection and the
      history stay as they are and no further use is authorized. */
  lemma {:induction false} RevokedIsTerminal(s: Store, ops: seq<Operation>, scope: Scope, id: string)
    requires IsEnded(StreamOf(s, scope), id)
    ensures SameEnding(StreamOf(s, scope), StreamOf(Run(s, ops), scope), id)
    decreases |ops|
  {
    if ops != [] {
      var s1 := Step(s, ops[0]).0;
      if ScopeOf(ops[0]) == scope {
        StreamStepTerminal(StreamOf(s, scope), ops[0], id);
      }
      assert SameEnding(StreamOf(s, scope), StreamOf(s1, scope), id);
      RevokedIsTerminal(s1, ops[1..], scope, id);
    }
  }

  // ------------------------------------------------------ retried uses

  /** Projections are never deleted and receipts only accumulate. */
  ghost predicate Accumulates(st: Stream, st': Stream, id: string) {
    id in st.projections ==> id in st'.projections && ReceiptsOf(st, id) <= ReceiptsOf(st', id)
  }

  lemma {:induction false} RunAccumulates(s: Store, ops: seq<Operation>, scope: Scope, id: string)
    ensures Accumulates(StreamOf(s, scope), StreamOf(Run(s, ops), scope), id)
    decreases |ops|
  {
    if ops != [] {
      var s1 := Step(s, ops[0]).0;
      var st := StreamOf(s, ScopeOf(ops[0]));
      assert Accumulates(StreamOf(s, scope), StreamOf(s1, scope), id) by {
        match ops[0]
        case DoGrant(r, now, at, drawn) => GrantCases(st, r, now, at, drawn);
        case DoRevoke(r, at) => RevokeCases(st, r, at);
        case DoUse(r, now, at) => UseCases(st, r, now, at);
      }
      RunAccumulates(s1, ops[1..], scope, id);
    }
  }

  lemma {:induction false} FindReceiptConcat(a: seq<UseReceipt>, b: seq<UseReceipt>, key: string)
    ensures FindReceipt(a + b, key) == if FindReceipt(a, key).Some? then FindReceipt(a, key) else FindReceipt(b, key)
  {
    if a == [] {
      assert a + b == b;
    } else {
      assert (a + b)[1..] == a[1..] + b;
      FindReceiptConcat(a[1..], b, key);
    }
  }

  lemma UseIsRecorded(st: Stream, r: UseRequest, now: int, at: int)
    requires UseStep(st, r, now, at).1.Ok?
    ensures var (st', result) := UseStep(st, r, now, at);
            && ValidateUse(r).Pass? && r.delegationId in st'.projections && result.value.receipt.request == r
            && FindReceipt(ReceiptsOf(st', r.delegationId), r.key) == Some(result.value.receipt)
  {
    UseCases(st, r, now, at);
    var result := UseStep(st, r, now, at).1;
    if !result.value.idempotentReplay {
      FindReceiptConcat(ReceiptsOf(st, r.delegationId), [result.value.receipt], r.key);
    }
  }

  lemma UseFromReceipt(st: Stream, r: UseRequest, now: int, at: int, receipt: UseReceipt)
    requires ValidateUse(r).Pass? && r.delegationId in st.projections && receipt.request == r
    requires FindReceipt(ReceiptsOf(st, r.delegationId), r.key) == Some(receipt)
    ensures UseStep(st, r, now, at) == (st, Ok(UseOutcome(receipt, true)))
  {}

  /** A decision, authorized or refused, is given once: repeating the request
      later, under whatever clock and budget, returns the same receipt. */
  lemma UseRetry(s: Store, r: UseRequest, now: int, at: int, ops: seq<Operation>, now': int, at': int)
    requires Step(s, DoUse(r, now, at)).1.use.Ok?
    ensures var (s1, reply) := Step(s, DoUse(r, now, at));
            var s2 := Run(s1, ops);
            Step(s2, DoUse(r, now', at')) == (s2, Used(Ok(UseOutcome(reply.use.value.receipt, true))))
  {
    var (s1, reply) := Step(s, DoUse(r, now, at));
    assert s1 == s[r.scope := UseStep(StreamOf(s, r.scope), r, now, at).0];
    var s2 := Run(s1, ops);
    UseIsRecorded(StreamOf(s, r.scope), r, now, at);
    RunAccumulates(s1, ops, r.scope, r.delegationId);
    var a, b := ReceiptsOf(StreamOf(s1, r.scope), r.delegationId), ReceiptsOf(StreamOf(s2, r.scope), r.delegationId);
    assert b == a + b[|a|..];
    FindReceiptConcat(a, b[|a|..], r.key);
    UseFromReceipt(StreamOf(s2, r.scope), r, now', at', reply.use.value.receipt);
    assert r.scope in s2 && s2[r.scope := StreamOf(s2, r.scope)] == s2;
  }
}
