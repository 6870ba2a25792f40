/** `DelegationStore`: each method is one locked transaction. Locals hold what
    the transaction has written so far; only a commit assigns the field. */
module DelegationStore {
  import opened Common
  import opened Delegation
  import opened DelegationTheorems

  class DelegationStore {
    var streams: Store

    ghost predicate Valid()
      reads this
    {
      StoreOk(streams)
    }

    constructor ()
      ensures Valid() && streams == map[]
    {
      streams := map[];
    }

    /** Records a bounded grant: validate, lock, look the key up, append,
        project, advance. */
    method Grant(raw: GrantRequest, now: int, recordedAt: int, id: string)
      returns (r: Result<DelegationOutcome, StoreError>)
      requires Valid()
      modifies this
      ensures Valid()
      ensures (streams, Delegated(r)) == Step(old(streams), DoGrant(raw, now, recordedAt, id))
      ensures r.Err? ==> streams == old(streams)
    {
      StepKeeps(streams, DoGrant(raw, now, recordedAt, id));
      var request := Normalized(raw);
      var valid := ValidateGrant(request, NormalizeTimestamp(now));
      if valid.Fail? { return Err(valid.error); }
      var digest := GrantDigestOf(request.scope, request.issuer, request.grant);
      var st := StreamOf(streams, request.scope);
      var replay := IdempotentOutcome(st.events, request.key, true, digest);
      if replay.Err? { return Err(replay.error); }
      if replay.value.Some? {
        streams := streams[request.scope := st];
        return Ok(replay.value.value);
      }
      var position := NextPosition(st.head);
      if position.None? { return Err(StreamPositionExhausted); }

      var event := Event(id, position.value, request.issuer, 0, 1, request.key, digest, recordedAt,
                         Granted(StoredGrant(request.grant)));
      if !EventInsertable(st.events, event) { return Err(DatabaseError); }
      var events := st.events + [event];
      if !StoredPayloadOk(event.payload) { return Err(InvalidStoredPayload); }
      if id in st.projections { return Err(DatabaseError); }
      var row := Projection(id, request.issuer, StoredGrant(request.grant), event.recordedAt, Active, 1,
                            position.value);
      var projections := st.projections[id := row];
      var projection := ProjectionAtEvent(event, event);
      if projection.Err? { return Err(projection.error); }
      streams := streams[request.scope := Stream(position.value, events, projections, st.receipts)];
      return Ok(DelegationOutcome(projection.value, event, false));
    }

    /** Records a revocation against the version the caller saw. */
    method Revoke(request: RevocationRequest, recordedAt: int) returns (r: Result<DelegationOutcome, StoreError>)
      requires Valid()
      modifies this
      ensures Valid()
      ensures (streams, Delegated(r)) == Step(old(streams), DoRevoke(request, recordedAt))
      ensures r.Err? ==> streams == old(streams)
    {
      StepKeeps(streams, DoRevoke(request, recordedAt));
      var valid := ValidateRevocation(request);
      if valid.Fail? { return Err(valid.error); }
      var digest := RevocationDigestOf(request);
      var st := StreamOf(streams, request.scope);
      var replay := IdempotentOutcome(st.events, request.key, false, digest);
      if replay.Err? { return Err(replay.error); }
      if replay.value.Some? {
        streams := streams[request.scope := st];
        return Ok(replay.value.value);
      }
      if request.delegationId !in st.projections { return Err(NotFound); }
      var current := st.projections[request.delegationId];
      if current.status.Ended? { return Err(AlreadyRevoked); }
      if current.version != request.expectedVersion { return Err(VersionConflict); }
      var position := NextPosition(st.head);
      if position.None? { return Err(StreamPositionExhausted); }
      var resulting := request.expectedVersion + 1;

      var event := Event(request.delegationId, position.value, request.revoker, request.expectedVersion, resulting,
                         request.key, digest, recordedAt, Revoked(request.reason));
      if !EventInsertable(st.events, event) { return Err(DatabaseError); }
      var events := st.events + [event];
      if !StoredPayloadOk(event.payload) { return Err(InvalidStoredPayload); }
      var row := current.(status := Ended(event.recordedAt, request.revoker, request.reason), version := resulting,
                          sourceEventPosition := position.value);
      var projections := st.projections[request.delegationId := row];
      var grantEvent := ReadGrant(events, request.delegationId);
      if grantEvent.Err? { return Err(grantEvent.error); }
      var projection := ProjectionAtEvent(grantEvent.value, event);
      if projection.Err? { return Err(projection.error); }
      streams := streams[request.scope := Stream(position.value, events, projections, st.receipts)];
      return Ok(DelegationOutcome(projection.value, event, false));
    }

    /** Re-checks a delegation at use time and records the decision. */
    method AuthorizeUse(request: UseRequest, now: int, recordedAt: int) returns (r: Result<UseOutcome, StoreError>)
      requires Valid()
      modifies this
      ensures Valid()
      ensures (streams, Used(r)) == Step(old(streams), DoUse(request, now, recordedAt))
      ensures r.Err? ==> streams == old(streams)
    {
      StepKeeps(streams, DoUse(request, now, recordedAt));
      var valid := ValidateUse(request);
      if valid.Fail? { return Err(valid.error); }
      var st := StreamOf(streams, request.scope);
      if request.delegationId !in st.projections { return Err(NotFound); }
      var projection := st.projections[request.delegationId];
      var receipts := ReceiptsOf(st, request.delegationId);
      var existing := FindReceipt(receipts, request.key);
      if existing.Some? {
        if existing.value.request != request { return Err(IdempotencyConflict); }
        streams := streams[request.scope := st];
        return Ok(UseOutcome(existing.value, true));
      }
      var refusal := RefusalFor(projection, request, NormalizeTimestamp(now), AuthorizedCount(receipts),
                                ReservedTokens(receipts));
      var receipt := UseReceipt(request, projection.version, refusal, recordedAt);
      var written := st.receipts[request.delegationId := receipts + [receipt]];
      streams := streams[request.scope := Stream(st.head, st.events, st.projections, written)];
      return Ok(UseOutcome(receipt, false));
    }
  }
}
