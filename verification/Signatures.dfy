/** What acceptance of a signature means
    (crates/ackplane-server/src/claim_signature.rs, with the evidence and
    knowledge verifiers that make the same checks, over the key registry of
    signing_keys.rs). Ed25519 is ideal: a signature verifies for at most one
    message under a key. Instants are nanoseconds. */
module Signatures {
  import opened Common
  import opened SigningBytes
  import opened SignedRequests
  import opened SignedOperations

  const MAX_SKEW: nat := 300_000_000_000

  // ------------------------------------------------------------ key registry

  datatype KeyRecord = KeyRecord(tenantId: bytes, repositoryId: bytes, nodeId: bytes, publicKey: bytes,
                                 activatedAt: int, expiresAt: Option<int>)

  datatype KeyLifecycle = KeyLifecycle(record: KeyRecord, retiredAt: Option<int>, revokedAt: Option<int>)

  datatype KeyResolution =
    | Resolved(record: KeyRecord) | Unknown | BindingMismatch | NotYetActive | Expired | Revoked | Retired

  type Registry = map<bytes, KeyLifecycle>

  predicate Reached(deadline: Option<int>, at: int) { deadline.Some? && at >= deadline.value }

  function Judge(k: KeyLifecycle, s: SignedScope, nodeId: bytes, acceptedAt: int): KeyResolution {
    var r := k.record;
    if r.tenantId != s.tenantId || r.repositoryId != s.repositoryId || r.nodeId != nodeId then BindingMismatch
    else if acceptedAt < r.activatedAt then NotYetActive
    else if Reached(k.revokedAt, acceptedAt) then Revoked
    else if Reached(r.expiresAt, acceptedAt) then Expired
    else if Reached(k.retiredAt, acceptedAt) then Retired
    else Resolved(r)
  }

  function Resolve(registry: Registry, keyId: bytes, s: SignedScope, nodeId: bytes, acceptedAt: int): KeyResolution {
    if keyId in registry then Judge(registry[keyId], s, nodeId, acceptedAt) else Unknown
  }

  datatype RegistryStep =
    | RegisterKey(id: bytes, record: KeyRecord)
    | RetireKey(id: bytes, at: int)
    | RevokeKey(id: bytes, at: int)

  /** Registering keeps an existing row; retiring overwrites; the first
      revocation wins. */
  function Apply(registry: Registry, step: RegistryStep): Registry {
    match step
    case RegisterKey(id, record) =>
      if id in registry then registry else registry[id := KeyLifecycle(record, None, None)]
    case RetireKey(id, at) =>
      if id in registry then registry[id := registry[id].(retiredAt := Some(at))] else registry
    case RevokeKey(id, at) =>
      if id in registry && registry[id].revokedAt.None?
      then registry[id := registry[id].(revokedAt := Some(at))] else registry
  }

  function ApplyAll(registry: Registry, steps: seq<RegistryStep>): Registry
    decreases |steps|
  {
    if steps == [] then registry else ApplyAll(Apply(registry, steps[0]), steps[1..])
  }

  /** A registered key keeps its identity, binding and bytes for good, and its
      first revocation instant too. */
  lemma {:induction false} KeysAreImmutable(registry: Registry, steps: seq<RegistryStep>, id: bytes)
    requires id in registry
    ensures var after := ApplyAll(registry, steps);
            && id in after
            && after[id].record == registry[id].record
            && (registry[id].revokedAt.Some? ==> after[id].revokedAt == registry[id].revokedAt)
    decreases |steps|
  {
    if steps != [] {
      KeysAreImmutable(Apply(registry, steps[0]), steps[1..], id);
    }
  }

  /** No later registration, retirement or second revocation resurrects a key
      past its first revocation. */
  lemma RevocationIsPermanent(registry: Registry, steps: seq<RegistryStep>, id: bytes, s: SignedScope, node: bytes,
                              at: int)
    requires id in registry && Reached(registry[id].revokedAt, at)
    ensures !Resolve(ApplyAll(registry, steps), id, s, node, at).Resolved?
  {
    KeysAreImmutable(registry, steps, id);
  }

  // -------------------------------------------- the registry as its history

  /** The first registration of an id. */
  function FirstRecord(steps: seq<RegistryStep>, id: bytes): Option<KeyRecord> {
    if steps == [] then None
    else if steps[0].RegisterKey? && steps[0].id == id then Some(steps[0].record)
    else FirstRecord(steps[1..], id)
  }

  /** What follows that registration. */
  function SinceRegistration(steps: seq<RegistryStep>, id: bytes): seq<RegistryStep> {
    if steps == [] then []
    else if steps[0].RegisterKey? && steps[0].id == id then steps[1..]
    else SinceRegistration(steps[1..], id)
  }

  function FirstRevocation(steps: seq<RegistryStep>, id: bytes): Option<int> {
    if steps == [] then None
    else if steps[0].RevokeKey? && steps[0].id == id then Some(steps[0].at)
    else FirstRevocation(steps[1..], id)
  }

  function LastRetirement(steps: seq<RegistryStep>, id: bytes): Option<int> {
    if steps == [] then None
    else if LastRetirement(steps[1..], id).Some? then LastRetirement(steps[1..], id)
    else if steps[0].RetireKey? && steps[0].id == id then Some(steps[0].at)
    else None
  }

  /** From a registered key on: the last retirement and the first revocation
      count, an earlier revocation before both. */
  lemma {:induction false} RowFollowsHistory(registry: Registry, steps: seq<RegistryStep>, id: bytes)
    requires id in registry
    ensures var after, k := ApplyAll(registry, steps), registry[id];
            && id in after
            && after[id] == KeyLifecycle(
                 k.record,
                 if LastRetirement(steps, id).Some? then LastRetirement(steps, id) else k.retiredAt,
                 if k.revokedAt.Some? then k.revokedAt else FirstRevocation(steps, id))
    decreases |steps|
  {
    if steps != [] { RowFollowsHistory(Apply(registry, steps[0]), steps[1..], id); }
  }

  /** The registry holds of a key exactly its first registration, the last
      retirement since and the first revocation since. */
  lemma {:induction false} RegistryIsItsHistory(registry: Registry, steps: seq<RegistryStep>, id: bytes)
    requires id !in registry
    ensures var after, since := ApplyAll(registry, steps), SinceRegistration(steps, id);
            && (id in after <==> FirstRecord(steps, id).Some?)
            && (id in after ==> after[id] == KeyLifecycle(FirstRecord(steps, id).value, LastRetirement(since, id),
                                                          FirstRevocation(since, id)))
    decreases |steps|
  {
    if steps != [] {
      var next := Apply(registry, steps[0]);
      if steps[0].RegisterKey? && steps[0].id == id {
        RowFollowsHistory(next, steps[1..], id);
      } else {
        RegistryIsItsHistory(next, steps[1..], id);
      }
    }
  }

  /** Steps dated after `at`. Registrations carry no date: they add only ids
      that are not there yet. */
  predicate Later(steps: seq<RegistryStep>, at: int) {
    forall i :: 0 <= i < |steps| && !steps[i].RegisterKey? ==> at < steps[i].at
  }

  /** Ending a key's authority later never disowns what it already signed. */
  lemma {:induction false} AcceptanceIsNotRevokedLater(registry: Registry, steps: seq<RegistryStep>, id: bytes,
                                                       s: SignedScope, node: bytes, at: int)
    requires Resolve(registry, id, s, node, at).Resolved? && Later(steps, at)
    ensures Resolve(ApplyAll(registry, steps), id, s, node, at) == Resolve(registry, id, s, node, at)
    decreases |steps|
  {
    if steps != [] {
      assert steps[0].RegisterKey? || at < steps[0].at;
      assert Resolve(Apply(registry, steps[0]), id, s, node, at) == Resolve(registry, id, s, node, at);
      assert Later(steps[1..], at) by {
        forall i | 0 <= i < |steps[1..]| && !steps[1..][i].RegisterKey? ensures at < steps[1..][i].at {
          assert steps[1..][i] == steps[i + 1];
        }
      }
      AcceptanceIsNotRevokedLater(Apply(registry, steps[0]), steps[1..], id, s, node, at);
    }
  }

  // ------------------------------------------------------------ verification

  datatype Refusal =
    | Unsigned | Unidentified | UnknownKey | KeyBoundElsewhere | KeyNotInForce | KeyRevoked | BadSignature
    | MalformedTimestamp | StaleTimestamp

  /** The cryptography and the timestamp parser, as given functions. */
  datatype Oracle = Oracle(isKey: bytes -> bool, verifies: (bytes, bytes, bytes) -> bool,
                           parse: bytes -> Option<int>)

  /** One signature vouches for one message under one key. */
  ghost predicate Ideal(o: Oracle) {
    forall key, sig, m, m' :: o.verifies(key, m, sig) && o.verifies(key, m', sig) ==> m == m'
  }

  /** `trim().is_empty()` on UTF-8 bytes: the White_Space encodings only. */
  predicate BlankUtf8(b: bytes) {
    if b == [] then true
    else if 0x09 <= b[0] <= 0x0D || b[0] == 0x20 then BlankUtf8(b[1..])
    else if |b| >= 2 && b[0] == 0xC2 && (b[1] == 0x85 || b[1] == 0xA0) then BlankUtf8(b[2..])
    else if |b| >= 3 && WideSpace(b[0], b[1], b[2]) then BlankUtf8(b[3..])
    else false
  }

  predicate WideSpace(x: u8, y: u8, z: u8) {
    || (x == 0xE1 && y == 0x9A && z == 0x80)
    || (x == 0xE2 && y == 0x80 && (0x80 <= z <= 0x8A || z == 0xA8 || z == 0xA9 || z == 0xAF))
    || (x == 0xE2 && y == 0x81 && z == 0x9F)
    || (x == 0xE3 && y == 0x80 && z == 0x80)
  }

  function CheckFreshness(o: Oracle, signedAt: bytes, now: int): Outcome<Refusal> {
    match o.parse(signedAt)
    case None => Fail(MalformedTimestamp)
    case Some(at) =>
      var skew := if at - now < 0 then now - at else at - now;
      if skew > MAX_SKEW then Fail(StaleTimestamp) else Pass
  }

  function VerifySignedBytes(o: Oracle, a: Auth, resolution: KeyResolution, message: bytes, now: int)
    : Outcome<Refusal>
  {
    if BlankUtf8(a.signingKeyId) then Fail(Unidentified)
    else if a.signature == [] then Fail(Unsigned)
    else match CheckFreshness(o, a.signedAt, now)
      case Fail(e) => Fail(e)
      case Pass =>
        match resolution
        case Unknown => Fail(UnknownKey)
        case BindingMismatch => Fail(KeyBoundElsewhere)
        case Revoked => Fail(KeyRevoked)
        case NotYetActive | Expired | Retired => Fail(KeyNotInForce)
        case Resolved(record) =>
          if |record.publicKey| != 32 || !o.isKey(record.publicKey) then Fail(BadSignature)
          else if |a.signature| != 64 then Fail(BadSignature)
          else if o.verifies(record.publicKey, message, a.signature) then Pass
          else Fail(BadSignature)
  }

  function ScopeOf(r: Signable): SignedScope {
    match r
    case SignedClaim(c) => SignedScope(c.tenantId, c.repositoryId)
    case SignedEvidence(s, _) => s
    case SignedKnowledge(s, _) => s
    case SignedPurge(s, _) => s
    case SignedRecovery(s, _) => s
  }

  /** The service boundary: resolve the named key at `acceptedAt`, then verify
      at `now`. */
  function Authenticate(o: Oracle, registry: Registry, r: Signable, authentication: Option<Auth>, acceptedAt: int,
                        now: int): Outcome<Refusal>
  {
    match authentication
    case None => Fail(Unsigned)
    case Some(a) =>
      var resolution := Resolve(registry, a.signingKeyId, ScopeOf(r), a.nodeId, acceptedAt);
      VerifySignedBytes(o, a, resolution, SignableBytes(r, a), now)
  }

  predicate Fresh(o: Oracle, a: Auth, now: int) {
    && o.parse(a.signedAt).Some?
    && now - MAX_SKEW <= o.parse(a.signedAt).value <= now + MAX_SKEW
  }

  /** Acceptance, read off the request, the registry and the clock alone. */
  lemma AcceptedExactlyWhen(o: Oracle, registry: Registry, r: Signable, a: Auth, at: int, now: int)
    ensures Authenticate(o, registry, r, Some(a), at, now).Pass? <==>
            && !BlankUtf8(a.signingKeyId) && |a.signature| == 64 && Fresh(o, a, now)
            && a.signingKeyId in registry
            && (var k := registry[a.signingKeyId];
                && SignedScope(k.record.tenantId, k.record.repositoryId) == ScopeOf(r) && k.record.nodeId == a.nodeId
                && k.record.activatedAt <= at && !Reached(k.record.expiresAt, at)
                && !Reached(k.revokedAt, at) && !Reached(k.retiredAt, at)
                && |k.record.publicKey| == 32 && o.isKey(k.record.publicKey)
                && o.verifies(k.record.publicKey, SignableBytes(r, a), a.signature))
  {}

  /** Acceptance over a whole registry history: the key's first registration
      binds it to this scope and node and is in force, its first later
      revocation and its last later retirement lie ahead, and the signature is
      fresh and verifies. */
  lemma AcceptedOverHistoryExactlyWhen(o: Oracle, steps: seq<RegistryStep>, r: Signable, a: Auth, at: int, now: int)
    ensures var first, since := FirstRecord(steps, a.signingKeyId), SinceRegistration(steps, a.signingKeyId);
            Authenticate(o, ApplyAll(map[], steps), r, Some(a), at, now).Pass? <==>
            && !BlankUtf8(a.signingKeyId) && |a.signature| == 64 && Fresh(o, a, now)
            && first.Some?
            && SignedScope(first.value.tenantId, first.value.repositoryId) == ScopeOf(r)
            && first.value.nodeId == a.nodeId
            && first.value.activatedAt <= at && !Reached(first.value.expiresAt, at)
            && !Reached(FirstRevocation(since, a.signingKeyId), at)
            && !Reached(LastRetirement(since, a.signingKeyId), at)
            && |first.value.publicKey| == 32 && o.isKey(first.value.publicKey)
            && o.verifies(first.value.publicKey, SignableBytes(r, a), a.signature)
  {
    RegistryIsItsHistory(map[], steps, a.signingKeyId);
    AcceptedExactlyWhen(o, ApplyAll(map[], steps), r, a, at, now);
  }

  /** An unidentified, unsigned or stale request is refused the same way
      whatever keys the registry holds and whatever was signed. */
  lemma StaleRequestsLearnNothing(o: Oracle, registry: Registry, registry': Registry, r: Signable, r': Signable,
                                  a: Auth, at: int, now: int)
    requires BlankUtf8(a.signingKeyId) || a.signature == [] || !Fresh(o, a, now)
    ensures Authenticate(o, registry, r, Some(a), at, now) == Authenticate(o, registry', r', Some(a), at, now)
    ensures Authenticate(o, registry, r, Some(a), at, now).Fail?
  {}

  lemma AcceptedVerifies(o: Oracle, registry: Registry, r: Signable, a: Auth, at: int, now: int)
    requires Authenticate(o, registry, r, Some(a), at, now).Pass?
    ensures a.signingKeyId in registry
    ensures o.verifies(registry[a.signingKeyId].record.publicKey, SignableBytes(r, a), a.signature)
  {}

  /** One authentication is good for one operation: accepted now for one
      request and, after any registry history, for another, both say the same
      thing. Claims are then literally equal. */
  lemma OneAuthenticationOneRequest(o: Oracle, registry: Registry, steps: seq<RegistryStep>, a: Auth,
                                    r: Signable, at: int, now: int, r': Signable, at': int, now': int)
    requires Ideal(o) && ShortSignable(r, a) && ShortSignable(r', a)
    requires Authenticate(o, registry, r, Some(a), at, now).Pass?
    requires Authenticate(o, ApplyAll(registry, steps), r', Some(a), at', now').Pass?
    ensures NormalSignable(r) == NormalSignable(r')
    ensures r.SignedClaim? ==> r == r'
  {
    AcceptedVerifies(o, registry, r, a, at, now);
    AcceptedVerifies(o, ApplyAll(registry, steps), r', a, at', now');
    KeysAreImmutable(registry, steps, a.signingKeyId);
    SignedBytesIdentify(r, a, r', a);
  }

  /** And it stops being usable: two acceptances lie at most ten minutes
      apart. */
  lemma AcceptancesAreClose(o: Oracle, registry: Registry, registry': Registry, a: Auth, r: Signable, at: int,
                            now: int, r': Signable, at': int, now': int)
    requires Authenticate(o, registry, r, Some(a), at, now).Pass?
    requires Authenticate(o, registry', r', Some(a), at', now').Pass?
    ensures now' - now <= 2 * MAX_SKEW && now - now' <= 2 * MAX_SKEW
  {
    AcceptedExactlyWhen(o, registry, r, a, at, now);
    AcceptedExactlyWhen(o, registry', r', a, at', now');
  }
}
