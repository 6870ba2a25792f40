/** The builders for requests scoped to one tenant and repository
    (crates/ackplane-protocol/src/evidence_auth.rs, knowledge_auth.rs and
    purge_confirmation_auth.rs). An absent optional text is signed as an empty
    one, so each encoding is injective exactly up to that identification. */
module SignedOperations {
  import opened Common
  import opened SigningBytes
  import opened SignedRequests

  datatype SignedScope = SignedScope(tenantId: bytes, repositoryId: bytes)

  function ScopedIdentity(s: SignedScope, a: Auth): seq<bytes> {
    [a.signingKeyId, a.nodeId, a.signedAt, a.nonce, s.tenantId, s.repositoryId]
  }

  lemma ScopedInjective(d: Domain, s: SignedScope, a: Auth, t: bytes, p: seq<Part>,
                        s': SignedScope, a': Auth, t': bytes, p': seq<Part>)
    requires ShortMessage(ScopedIdentity(s, a), t, p) && ShortMessage(ScopedIdentity(s', a'), t', p')
    requires t == t' ==> Kinds(p) == Kinds(p')
    requires MessageBytes(d, ScopedIdentity(s, a), t, p) == MessageBytes(d, ScopedIdentity(s', a'), t', p')
    ensures s == s' && a == a'.(signature := a.signature) && t == t' && p == p'
  {
    var i, i' := ScopedIdentity(s, a), ScopedIdentity(s', a');
    MessageInjective(d, i, t, p, i', t', p');
    assert i[0] == i'[0] && i[1] == i'[1] && i[2] == i'[2] && i[3] == i'[3] && i[4] == i'[4] && i[5] == i'[5];
  }

  /** `unwrap_or("")`. */
  function TextOf(o: Option<bytes>): bytes { if o.Some? then o.value else [] }

  /** The two requests differ at most in how an empty optional text is spelled. */
  function Spelled(o: Option<bytes>): Option<bytes> { Some(TextOf(o)) }

  lemma OneAt(a: seq<Part>, b: seq<Part>, i: nat)
    requires a == b && i < |a| && a[i].One? && b[i].One?
    ensures a[i].field == b[i].field
  {}

  // ---------------------------------------------------------------- evidence

  datatype EvidenceOperation =
    | RecordEvidence(taskId: bytes, evidenceKind: i32, sourceRef: bytes, contentDigest: bytes, observedAt: bytes,
                     sessionId: bytes, idempotencyKey: bytes, constitution: bytes)
    | ListEvidence(taskId: bytes, limit: u32, beforeRecordedAt: Option<bytes>, beforeId: Option<bytes>)
    | RecordConformance(taskId: bytes, evidenceId: bytes, verdict: i32, findingCount: u32, findingsDigest: bytes,
                        findingCodes: seq<i32>, checkedAt: bytes, idempotencyKey: bytes, constitution: bytes)
    | ListConformance(taskId: bytes, limit: u32, beforeRecordedAt: Option<bytes>, beforeId: Option<bytes>)

  function EvidenceTag(op: EvidenceOperation): bytes {
    match op
    case RecordEvidence(_, _, _, _, _, _, _, _) => Ascii("record")
    case ListEvidence(_, _, _, _) => Ascii("list")
    case RecordConformance(_, _, _, _, _, _, _, _, _) => Ascii("record_conformance")
    case ListConformance(_, _, _, _) => Ascii("list_conformance")
  }

  function EvidenceParts(op: EvidenceOperation): seq<Part> {
    match op
    case RecordEvidence(task, kind, source, digest, observed, session, key, constitution) =>
      [One(task), One(BeI32(kind)), One(source), One(digest), One(observed), One(session), One(key),
       One(constitution)]
    case ListEvidence(task, limit, before, id) =>
      [One(task), One(Be32(limit)), One(TextOf(before)), One(TextOf(id))]
    case RecordConformance(task, evidence, verdict, count, digest, codes, checked, key, constitution) =>
      [One(task), One(evidence), One(BeI32(verdict)), One(Be32(count)), One(digest), Counted4(I32Items(codes)),
       One(checked), One(key), One(constitution)]
    case ListConformance(task, limit, before, id) =>
      [One(task), One(Be32(limit)), One(TextOf(before)), One(TextOf(id))]
  }

  function NormalEvidence(op: EvidenceOperation): EvidenceOperation {
    match op
    case ListEvidence(task, limit, before, id) => ListEvidence(task, limit, Spelled(before), Spelled(id))
    case ListConformance(task, limit, before, id) => ListConformance(task, limit, Spelled(before), Spelled(id))
    case other => other
  }

  function EvidenceBytes(s: SignedScope, op: EvidenceOperation, a: Auth): bytes {
    MessageBytes(EvidenceDomain, ScopedIdentity(s, a), EvidenceTag(op), EvidenceParts(op))
  }

  ghost predicate ShortEvidence(s: SignedScope, op: EvidenceOperation, a: Auth) {
    ShortMessage(ScopedIdentity(s, a), EvidenceTag(op), EvidenceParts(op))
  }

  method PushRecordEvidence(buffer: Buffer, op: EvidenceOperation)
    requires buffer.Valid() && op.RecordEvidence?
    modifies buffer
    ensures buffer.Valid() && buffer.parts == old(buffer.parts) + EvidenceParts(op)
  {
    buffer.PushThree(op.taskId, BeI32(op.evidenceKind), op.sourceRef);
    buffer.PushThree(op.contentDigest, op.observedAt, op.sessionId);
    buffer.PushField(op.idempotencyKey);
    buffer.PushField(op.constitution);
  }

  method PushRecordConformance(buffer: Buffer, op: EvidenceOperation)
    requires buffer.Valid() && op.RecordConformance?
    modifies buffer
    ensures buffer.Valid() && buffer.parts == old(buffer.parts) + EvidenceParts(op)
  {
    buffer.PushThree(op.taskId, op.evidenceId, BeI32(op.verdict));
    buffer.PushField(Be32(op.findingCount));
    buffer.PushField(op.findingsDigest);
    buffer.PushI32List(op.findingCodes);
    buffer.PushThree(op.checkedAt, op.idempotencyKey, op.constitution);
  }

  method PushPage(buffer: Buffer, op: EvidenceOperation)
    requires buffer.Valid() && (op.ListEvidence? || op.ListConformance?)
    modifies buffer
    ensures buffer.Valid() && buffer.parts == old(buffer.parts) + EvidenceParts(op)
  {
    buffer.PushField(op.taskId);
    buffer.PushField(Be32(op.limit));
    buffer.PushField(TextOf(op.beforeRecordedAt));
    buffer.PushField(TextOf(op.beforeId));
  }

  method PushEvidenceOperation(buffer: Buffer, op: EvidenceOperation)
    requires buffer.Valid()
    modifies buffer
    ensures buffer.Valid() && buffer.parts == old(buffer.parts) + [One(EvidenceTag(op))] + EvidenceParts(op)
  {
    buffer.PushField(EvidenceTag(op));
    match op {
      case RecordEvidence(_, _, _, _, _, _, _, _) => PushRecordEvidence(buffer, op);
      case ListEvidence(_, _, _, _) => PushPage(buffer, op);
      case RecordConformance(_, _, _, _, _, _, _, _, _) => PushRecordConformance(buffer, op);
      case ListConformance(_, _, _, _) => PushPage(buffer, op);
    }
  }

  method EvidenceSigningBytes(s: SignedScope, op: EvidenceOperation, a: Auth) returns (b: bytes)
    ensures b == EvidenceBytes(s, op, a)
  {
    var buffer := new Buffer(DomainBytes(EvidenceDomain));
    buffer.PushFields(ScopedIdentity(s, a));
    PushEvidenceOperation(buffer, op);
    assert buffer.parts == MessageParts(ScopedIdentity(s, a), EvidenceTag(op), EvidenceParts(op));
    b := buffer.bytes;
  }

  lemma EvidenceTagsDistinct(x: EvidenceOperation, y: EvidenceOperation)
    requires EvidenceTag(x) == EvidenceTag(y)
    ensures Kinds(EvidenceParts(x)) == Kinds(EvidenceParts(y))
    ensures x.RecordEvidence? == y.RecordEvidence? && x.ListEvidence? == y.ListEvidence?
    ensures x.RecordConformance? == y.RecordConformance? && x.ListConformance? == y.ListConformance?
  {}

  lemma EvidencePartsInjective(x: EvidenceOperation, y: EvidenceOperation)
    requires EvidenceTag(x) == EvidenceTag(y) && EvidenceParts(x) == EvidenceParts(y)
    ensures NormalEvidence(x) == NormalEvidence(y)
  {
    EvidenceTagsDistinct(x, y);
    var a, b := EvidenceParts(x), EvidenceParts(y);
    OneAt(a, b, 0);
    OneAt(a, b, 1);
    OneAt(a, b, 2);
    OneAt(a, b, 3);
    match x {
      case RecordEvidence(_, _, _, _, _, _, _, _) =>
        OneAt(a, b, 4);
        OneAt(a, b, 5);
        OneAt(a, b, 6);
        OneAt(a, b, 7);
        BeI32Injective(x.evidenceKind, y.evidenceKind);
      case RecordConformance(_, _, _, _, _, _, _, _, _) =>
        OneAt(a, b, 4);
        assert a[5] == b[5];
        I32ItemsInjective(x.findingCodes, y.findingCodes);
        OneAt(a, b, 6);
        OneAt(a, b, 7);
        OneAt(a, b, 8);
        BeI32Injective(x.verdict, y.verdict);
        Be32Inverts(x.findingCount);
        Be32Inverts(y.findingCount);
      case _ =>
        Be32Inverts(x.limit);
        Be32Inverts(y.limit);
    }
  }

  lemma NormalEvidenceSigned(op: EvidenceOperation)
    ensures EvidenceTag(NormalEvidence(op)) == EvidenceTag(op)
    ensures EvidenceParts(NormalEvidence(op)) == EvidenceParts(op)
  {}

  /** Two evidence requests have the same signed bytes exactly when they agree
      on everything but the spelling of an empty optional text. */
  lemma EvidenceBytesIdentify(s: SignedScope, op: EvidenceOperation, a: Auth,
                              s': SignedScope, op': EvidenceOperation, a': Auth)
    requires ShortEvidence(s, op, a) && ShortEvidence(s', op', a')
    ensures EvidenceBytes(s, op, a) == EvidenceBytes(s', op', a') <==>
            s == s' && NormalEvidence(op) == NormalEvidence(op') && a == a'.(signature := a.signature)
  {
    if EvidenceBytes(s, op, a) == EvidenceBytes(s', op', a') {
      if EvidenceTag(op) == EvidenceTag(op') { EvidenceTagsDistinct(op, op'); }
      ScopedInjective(EvidenceDomain, s, a, EvidenceTag(op), EvidenceParts(op),
                      s', a', EvidenceTag(op'), EvidenceParts(op'));
      EvidencePartsInjective(op, op');
    }
    NormalEvidenceSigned(op);
    NormalEvidenceSigned(op');
  }

  // --------------------------------------------------------------- knowledge

  datatype KnowledgeOperation =
    | RecordKnowledge(content: bytes, sourceRef: Option<bytes>, reachNodeIds: seq<bytes>, reachGoalId: Option<bytes>,
                      halfLifeBits: u64, embeddingModel: Option<bytes>)
    | Recall(queryEmbeddingPresent: bool, limit: u32)
    | History(limit: u32)
    | Reconfirm(knowledgeId: bytes, evidenceRef: bytes)
    | Retire(knowledgeId: bytes, reason: bytes)

  function KnowledgeTag(op: KnowledgeOperation): bytes {
    match op
    case RecordKnowledge(_, _, _, _, _, _) => Ascii("record")
    case Recall(_, _) => Ascii("recall")
    case History(_) => Ascii("history")
    case Reconfirm(_, _) => Ascii("reconfirm")
    case Retire(_, _) => Ascii("retire")
  }

  /** `bool as u8`. */
  function Flag(b: bool): bytes { if b then [1] else [0] }

  function KnowledgeParts(op: KnowledgeOperation): seq<Part> {
    match op
    case RecordKnowledge(content, source, reach, goal, halfLife, model) =>
      [One(content), One(TextOf(source)), Counted8(reach), One(TextOf(goal)), One(Be64(halfLife)),
       One(TextOf(model))]
    case Recall(present, limit) => [One(Flag(present)), One(Be32(limit))]
    case History(limit) => [One(Be32(limit))]
    case Reconfirm(id, evidence) => [One(id), One(evidence)]
    case Retire(id, reason) => [One(id), One(reason)]
  }

  function NormalKnowledge(op: KnowledgeOperation): KnowledgeOperation {
    match op
    case RecordKnowledge(content, source, reach, goal, halfLife, model) =>
      RecordKnowledge(content, Spelled(source), reach, Spelled(goal), halfLife, Spelled(model))
    case other => other
  }

  function KnowledgeBytes(s: SignedScope, op: KnowledgeOperation, a: Auth): bytes {
    MessageBytes(KnowledgeDomain, ScopedIdentity(s, a), KnowledgeTag(op), KnowledgeParts(op))
  }

  ghost predicate ShortKnowledge(s: SignedScope, op: KnowledgeOperation, a: Auth) {
    ShortMessage(ScopedIdentity(s, a), KnowledgeTag(op), KnowledgeParts(op))
  }

  method PushRecordKnowledge(buffer: Buffer, op: KnowledgeOperation)
    requires buffer.Valid() && op.RecordKnowledge?
    modifies buffer
    ensures buffer.Valid() && buffer.parts == old(buffer.parts) + KnowledgeParts(op)
  {
    buffer.PushField(op.content);
    buffer.PushField(TextOf(op.sourceRef));
    buffer.PushCounted8(op.reachNodeIds);
    buffer.PushThree(TextOf(op.reachGoalId), Be64(op.halfLifeBits), TextOf(op.embeddingModel));
  }

  method PushKnowledgeOperation(buffer: Buffer, op: KnowledgeOperation)
    requires buffer.Valid()
    modifies buffer
    ensures buffer.Valid() && buffer.parts == old(buffer.parts) + [One(KnowledgeTag(op))] + KnowledgeParts(op)
  {
    buffer.PushField(KnowledgeTag(op));
    match op {
      case RecordKnowledge(_, _, _, _, _, _) => PushRecordKnowledge(buffer, op);
      case Recall(present, limit) =>
        buffer.PushField(Flag(present));
        buffer.PushField(Be32(limit));
      case History(limit) => buffer.PushField(Be32(limit));
      case Reconfirm(id, evidence) =>
        buffer.PushField(id);
        buffer.PushField(evidence);
      case Retire(id, reason) =>
        buffer.PushField(id);
        buffer.PushField(reason);
    }
  }

  method KnowledgeSigningBytes(s: SignedScope, op: KnowledgeOperation, a: Auth) returns (b: bytes)
    ensures b == KnowledgeBytes(s, op, a)
  {
    var buffer := new Buffer(DomainBytes(KnowledgeDomain));
    buffer.PushFields(ScopedIdentity(s, a));
    PushKnowledgeOperation(buffer, op);
    assert buffer.parts == MessageParts(ScopedIdentity(s, a), KnowledgeTag(op), KnowledgeParts(op));
    b := buffer.bytes;
  }

  lemma KnowledgeTagsDistinct(x: KnowledgeOperation, y: KnowledgeOperation)
    requires KnowledgeTag(x) == KnowledgeTag(y)
    ensures Kinds(KnowledgeParts(x)) == Kinds(KnowledgeParts(y))
    ensures x.RecordKnowledge? == y.RecordKnowledge? && x.Recall? == y.Recall? && x.History? == y.History?
    ensures x.Reconfirm? == y.Reconfirm? && x.Retire? == y.Retire?
  {
    TagsDiffer("record", "recall", 3);
    TagsDiffer("record", "retire", 2);
    TagsDiffer("recall", "retire", 2);
  }

  lemma KnowledgePartsInjective(x: KnowledgeOperation, y: KnowledgeOperation)
    requires KnowledgeTag(x) == KnowledgeTag(y) && KnowledgeParts(x) == KnowledgeParts(y)
    ensures NormalKnowledge(x) == NormalKnowledge(y)
  {
    KnowledgeTagsDistinct(x, y);
    var a, b := KnowledgeParts(x), KnowledgeParts(y);
    OneAt(a, b, 0);
    match x {
      case RecordKnowledge(_, _, _, _, _, _) =>
        OneAt(a, b, 1);
        assert a[2] == b[2];
        OneAt(a, b, 3);
        OneAt(a, b, 4);
        OneAt(a, b, 5);
        Be64Inverts(x.halfLifeBits);
        Be64Inverts(y.halfLifeBits);
      case Recall(_, _) =>
        OneAt(a, b, 1);
        assert Flag(x.queryEmbeddingPresent)[0] == Flag(y.queryEmbeddingPresent)[0];
        Be32Inverts(x.limit);
        Be32Inverts(y.limit);
      case History(_) =>
        Be32Inverts(x.limit);
        Be32Inverts(y.limit);
      case _ => OneAt(a, b, 1);
    }
  }

  lemma NormalKnowledgeSigned(op: KnowledgeOperation)
    ensures KnowledgeTag(NormalKnowledge(op)) == KnowledgeTag(op)
    ensures KnowledgeParts(NormalKnowledge(op)) == KnowledgeParts(op)
  {}

  lemma KnowledgeBytesIdentify(s: SignedScope, op: KnowledgeOperation, a: Auth,
                               s': SignedScope, op': KnowledgeOperation, a': Auth)
    requires ShortKnowledge(s, op, a) && ShortKnowledge(s', op', a')
    ensures KnowledgeBytes(s, op, a) == KnowledgeBytes(s', op', a') <==>
            s == s' && NormalKnowledge(op) == NormalKnowledge(op') && a == a'.(signature := a.signature)
  {
    if KnowledgeBytes(s, op, a) == KnowledgeBytes(s', op', a') {
      if KnowledgeTag(op) == KnowledgeTag(op') { KnowledgeTagsDistinct(op, op'); }
      ScopedInjective(KnowledgeDomain, s, a, KnowledgeTag(op), KnowledgeParts(op),
                      s', a', KnowledgeTag(op'), KnowledgeParts(op'));
      KnowledgePartsInjective(op, op');
    }
    NormalKnowledgeSigned(op);
    NormalKnowledgeSigned(op');
  }

  // ------------------------------------- lifecycle purge, recovery execution

  datatype PurgeOperation =
    | PreviewPurge(policyId: bytes, dataCategory: bytes, olderThanSeconds: u64, windowSeconds: u64,
                   idempotencyKey: bytes)
    | ConfirmPurge(requestId: bytes)

  datatype RecoveryOperation =
    | PreviewRecovery(artifactRequestId: bytes, manifestDigest: bytes, snapshotKey: bytes, rehearsalId: bytes,
                      windowSeconds: u64, idempotencyKey: bytes)
    | ConfirmRecovery(requestId: bytes)

  function PurgeTag(op: PurgeOperation): bytes {
    if op.PreviewPurge? then Ascii("preview") else Ascii("confirm")
  }

  function PurgeParts(op: PurgeOperation): seq<Part> {
    match op
    case PreviewPurge(policy, category, older, window, key) =>
      [One(policy), One(category), One(Be64(older)), One(Be64(window)), One(key)]
    case ConfirmPurge(request) => [One(request)]
  }

  function RecoveryTag(op: RecoveryOperation): bytes {
    if op.PreviewRecovery? then Ascii("preview") else Ascii("confirm")
  }

  function RecoveryParts(op: RecoveryOperation): seq<Part> {
    match op
    case PreviewRecovery(artifact, digest, snapshot, rehearsal, window, key) =>
      [One(artifact), One(digest), One(snapshot), One(rehearsal), One(Be64(window)), One(key)]
    case ConfirmRecovery(request) => [One(request)]
  }

  function PurgeBytes(s: SignedScope, op: PurgeOperation, a: Auth): bytes {
    MessageBytes(LifecyclePurgeDomain, ScopedIdentity(s, a), PurgeTag(op), PurgeParts(op))
  }

  function RecoveryBytes(s: SignedScope, op: RecoveryOperation, a: Auth): bytes {
    MessageBytes(RecoveryExecutionDomain, ScopedIdentity(s, a), RecoveryTag(op), RecoveryParts(op))
  }

  ghost predicate ShortPurge(s: SignedScope, op: PurgeOperation, a: Auth) {
    ShortMessage(ScopedIdentity(s, a), PurgeTag(op), PurgeParts(op))
  }

  ghost predicate ShortRecovery(s: SignedScope, op: RecoveryOperation, a: Auth) {
    ShortMessage(ScopedIdentity(s, a), RecoveryTag(op), RecoveryParts(op))
  }

  method PushPurgeOperation(buffer: Buffer, op: PurgeOperation)
    requires buffer.Valid()
    modifies buffer
    ensures buffer.Valid() && buffer.parts == old(buffer.parts) + [One(PurgeTag(op))] + PurgeParts(op)
  {
    buffer.PushField(PurgeTag(op));
    match op {
      case PreviewPurge(policy, category, older, window, key) =>
        buffer.PushThree(policy, category, Be64(older));
        buffer.PushField(Be64(window));
        buffer.PushField(key);
      case ConfirmPurge(request) => buffer.PushField(request);
    }
  }

  method LifecyclePurgeSigningBytes(s: SignedScope, op: PurgeOperation, a: Auth) returns (b: bytes)
    ensures b == PurgeBytes(s, op, a)
  {
    var buffer := new Buffer(DomainBytes(LifecyclePurgeDomain));
    buffer.PushFields(ScopedIdentity(s, a));
    PushPurgeOperation(buffer, op);
    assert buffer.parts == MessageParts(ScopedIdentity(s, a), PurgeTag(op), PurgeParts(op));
    b := buffer.bytes;
  }

  method PushRecoveryOperation(buffer: Buffer, op: RecoveryOperation)
    requires buffer.Valid()
    modifies buffer
    ensures buffer.Valid() && buffer.parts == old(buffer.parts) + [One(RecoveryTag(op))] + RecoveryParts(op)
  {
    buffer.PushField(RecoveryTag(op));
    match op {
      case PreviewRecovery(artifact, digest, snapshot, rehearsal, window, key) =>
        buffer.PushThree(artifact, digest, snapshot);
        buffer.PushThree(rehearsal, Be64(window), key);
      case ConfirmRecovery(request) => buffer.PushField(request);
    }
  }

  method RecoveryExecutionSigningBytes(s: SignedScope, op: RecoveryOperation, a: Auth) returns (b: bytes)
    ensures b == RecoveryBytes(s, op, a)
  {
    var buffer := new Buffer(DomainBytes(RecoveryExecutionDomain));
    buffer.PushFields(ScopedIdentity(s, a));
    PushRecoveryOperation(buffer, op);
    assert buffer.parts == MessageParts(ScopedIdentity(s, a), RecoveryTag(op), RecoveryParts(op));
    b := buffer.bytes;
  }

  lemma PurgePartsInjective(x: PurgeOperation, y: PurgeOperation)
    requires PurgeTag(x) == PurgeTag(y) && PurgeParts(x) == PurgeParts(y)
    ensures x == y
  {
    TagsDiffer("preview", "confirm", 0);
    var a, b := PurgeParts(x), PurgeParts(y);
    OneAt(a, b, 0);
    if x.PreviewPurge? {
      OneAt(a, b, 1);
      OneAt(a, b, 2);
      OneAt(a, b, 3);
      OneAt(a, b, 4);
      Be64Inverts(x.olderThanSeconds);
      Be64Inverts(y.olderThanSeconds);
      Be64Inverts(x.windowSeconds);
      Be64Inverts(y.windowSeconds);
    }
  }

  lemma RecoveryPartsInjective(x: RecoveryOperation, y: RecoveryOperation)
    requires RecoveryTag(x) == RecoveryTag(y) && RecoveryParts(x) == RecoveryParts(y)
    ensures x == y
  {
    TagsDiffer("preview", "confirm", 0);
    var a, b := RecoveryParts(x), RecoveryParts(y);
    OneAt(a, b, 0);
    if x.PreviewRecovery? {
      OneAt(a, b, 1);
      OneAt(a, b, 2);
      OneAt(a, b, 3);
      OneAt(a, b, 4);
      OneAt(a, b, 5);
      Be64Inverts(x.windowSeconds);
      Be64Inverts(y.windowSeconds);
    }
  }

  lemma PurgeBytesInjective(s: SignedScope, op: PurgeOperation, a: Auth, s': SignedScope, op': PurgeOperation, a': Auth)
    requires ShortPurge(s, op, a) && ShortPurge(s', op', a') && PurgeBytes(s, op, a) == PurgeBytes(s', op', a')
    ensures s == s' && op == op' && a == a'.(signature := a.signature)
  {
    TagsDiffer("preview", "confirm", 0);
    ScopedInjective(LifecyclePurgeDomain, s, a, PurgeTag(op), PurgeParts(op), s', a', PurgeTag(op'), PurgeParts(op'));
    PurgePartsInjective(op, op');
  }

  lemma RecoveryBytesInjective(s: SignedScope, op: RecoveryOperation, a: Auth,
                               s': SignedScope, op': RecoveryOperation, a': Auth)
    requires ShortRecovery(s, op, a) && ShortRecovery(s', op', a')
    requires RecoveryBytes(s, op, a) == RecoveryBytes(s', op', a')
    ensures s == s' && op == op' && a == a'.(signature := a.signature)
  {
    TagsDiffer("preview", "confirm", 0);
    ScopedInjective(RecoveryExecutionDomain, s, a, RecoveryTag(op), RecoveryParts(op),
                    s', a', RecoveryTag(op'), RecoveryParts(op'));
    RecoveryPartsInjective(op, op');
  }

  // ---------------------------------------------------- across all domains

  /** Everything the modelled builders can produce. */
  datatype Signable =
    | SignedClaim(claim: ClaimRequest)
    | SignedEvidence(scope: SignedScope, evidence: EvidenceOperation)
    | SignedKnowledge(scope: SignedScope, knowledge: KnowledgeOperation)
    | SignedPurge(scope: SignedScope, purge: PurgeOperation)
    | SignedRecovery(scope: SignedScope, recovery: RecoveryOperation)

  function SignableBytes(r: Signable, a: Auth): bytes {
    match r
    case SignedClaim(c) => ClaimBytes(c, a)
    case SignedEvidence(s, op) => EvidenceBytes(s, op, a)
    case SignedKnowledge(s, op) => KnowledgeBytes(s, op, a)
    case SignedPurge(s, op) => PurgeBytes(s, op, a)
    case SignedRecovery(s, op) => RecoveryBytes(s, op, a)
  }

  ghost predicate ShortSignable(r: Signable, a: Auth) {
    match r
    case SignedClaim(c) => ShortClaim(c, a)
    case SignedEvidence(s, op) => ShortEvidence(s, op, a)
    case SignedKnowledge(s, op) => ShortKnowledge(s, op, a)
    case SignedPurge(s, op) => ShortPurge(s, op, a)
    case SignedRecovery(s, op) => ShortRecovery(s, op, a)
  }

  function NormalSignable(r: Signable): Signable {
    match r
    case SignedEvidence(s, op) => SignedEvidence(s, NormalEvidence(op))
    case SignedKnowledge(s, op) => SignedKnowledge(s, NormalKnowledge(op))
    case other => other
  }

  function DomainOf(r: Signable): Domain {
    match r
    case SignedClaim(_) => ClaimDomain
    case SignedEvidence(_, _) => EvidenceDomain
    case SignedKnowledge(_, _) => KnowledgeDomain
    case SignedPurge(_, _) => LifecyclePurgeDomain
    case SignedRecovery(_, _) => RecoveryExecutionDomain
  }

  function Payload(r: Signable, a: Auth): (p: bytes)
    ensures SignableBytes(r, a) == DomainBytes(DomainOf(r)) + p
  {
    match r
    case SignedClaim(c) => Encode(MessageParts(ClaimIdentity(c, a), ClaimTag(c.operation), ClaimParts(c.operation)))
    case SignedEvidence(s, op) => Encode(MessageParts(ScopedIdentity(s, a), EvidenceTag(op), EvidenceParts(op)))
    case SignedKnowledge(s, op) => Encode(MessageParts(ScopedIdentity(s, a), KnowledgeTag(op), KnowledgeParts(op)))
    case SignedPurge(s, op) => Encode(MessageParts(ScopedIdentity(s, a), PurgeTag(op), PurgeParts(op)))
    case SignedRecovery(s, op) => Encode(MessageParts(ScopedIdentity(s, a), RecoveryTag(op), RecoveryParts(op)))
  }

  /** Across all five builders: the same bytes mean the same domain, the same
      operation up to absent-or-empty texts, and the same authentication. */
  lemma SignedBytesIdentify(r: Signable, a: Auth, r': Signable, a': Auth)
    requires ShortSignable(r, a) && ShortSignable(r', a')
    ensures SignableBytes(r, a) == SignableBytes(r', a') <==>
            NormalSignable(r) == NormalSignable(r') && a == a'.(signature := a.signature)
  {
    if SignableBytes(r, a) == SignableBytes(r', a') {
      DomainsAreDisjoint(DomainOf(r), Payload(r, a), DomainOf(r'), Payload(r', a'));
    }
    if DomainOf(r) == DomainOf(r') {
      SameDomainIdentify(r, a, r', a');
    }
  }

  lemma SameDomainIdentify(r: Signable, a: Auth, r': Signable, a': Auth)
    requires ShortSignable(r, a) && ShortSignable(r', a') && DomainOf(r) == DomainOf(r')
    ensures SignableBytes(r, a) == SignableBytes(r', a') <==>
            NormalSignable(r) == NormalSignable(r') && a == a'.(signature := a.signature)
  {
    match r {
      case SignedClaim(c) =>
        if ClaimBytes(c, a) == ClaimBytes(r'.claim, a') { ClaimBytesInjective(c, a, r'.claim, a'); }
      case SignedEvidence(s, op) => EvidenceBytesIdentify(s, op, a, r'.scope, r'.evidence, a');
      case SignedKnowledge(s, op) => KnowledgeBytesIdentify(s, op, a, r'.scope, r'.knowledge, a');
      case SignedPurge(s, op) =>
        if PurgeBytes(s, op, a) == PurgeBytes(r'.scope, r'.purge, a') {
          PurgeBytesInjective(s, op, a, r'.scope, r'.purge, a');
        }
      case SignedRecovery(s, op) =>
        if RecoveryBytes(s, op, a) == RecoveryBytes(r'.scope, r'.recovery, a') {
          RecoveryBytesInjective(s, op, a, r'.scope, r'.recovery, a');
        }
    }
  }
}
