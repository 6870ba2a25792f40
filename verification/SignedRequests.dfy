/** The signed-byte builders of each request domain: claims, evidence,
    knowledge, lifecycle purge and recovery execution. Text fields are their
    UTF-8 bytes. */
module SignedRequests {
  import opened Common
  import opened SigningBytes

  // ----------------------------------------------------------------- domains

  datatype Domain =
    | ClaimDomain | EvidenceDomain | KnowledgeDomain | LifecyclePurgeDomain | RecoveryExecutionDomain
    | ConstitutionDomain | TelemetryDomain | ProjectionEmbeddingDomain | ConnectionDomain
    | EnrollmentStatusDomain | ActivationDomain | KeyRotationDomain | EnvelopeDomain

  function Name(d: Domain): string {
    match d
    case ClaimDomain => "claim"
    case EvidenceDomain => "evidence"
    case KnowledgeDomain => "knowledge"
    case LifecyclePurgeDomain => "lifecycle-purge"
    case RecoveryExecutionDomain => "recovery-execution"
    case ConstitutionDomain => "constitution"
    case TelemetryDomain => "telemetry"
    case ProjectionEmbeddingDomain => "projection-embedding"
    case ConnectionDomain => "node_sync.connection"
    case EnrollmentStatusDomain => "enrollment_status"
    case ActivationDomain => "enrollment.activation"
    case KeyRotationDomain => "enrollment.key_rotation"
    case EnvelopeDomain => "envelope"
  }

  const PREFIX := "mindleak.ackplane.v1."

  /** A byte-string literal. Every literal here is printable ASCII. */
  function Ascii(s: string): (b: bytes)
    ensures |b| == |s|
    ensures forall i :: 0 <= i < |b| ==> b[i] != 0
  {
    seq(|s|, i requires 0 <= i < |s| => if 0 < s[i] as int < 0x80 then s[i] as int else 0x3F)
  }

  function DomainBytes(d: Domain): bytes {
    Ascii(PREFIX) + Ascii(Name(d)) + [0]
  }

  lemma TagsDiffer(a: string, b: string, i: nat)
    requires i < |a| && i < |b| && a[i] != b[i] && 0 < a[i] as int < 0x80 && 0 < b[i] as int < 0x80
    ensures Ascii(a) != Ascii(b)
  {
    assert Ascii(a)[i] != Ascii(b)[i];
  }

  lemma NamesDistinct(d: Domain, e: Domain)
    requires Ascii(Name(d)) == Ascii(Name(e))
    ensures d == e
  {
    assert |Name(d)| == |Name(e)|;
    TagsDiffer("evidence", "envelope", 1);
    TagsDiffer("knowledge", "telemetry", 0);
    TagsDiffer("projection-embedding", "node_sync.connection", 0);
  }

  /** The terminating NUL is the first NUL. */
  lemma DomainEndsAtItsOnlyNul(d: Domain)
    ensures var b := DomainBytes(d);
            |b| > 0 && b[|b| - 1] == 0 && forall i :: 0 <= i < |b| - 1 ==> b[i] != 0
  {}

  lemma SameDomainLength(d: Domain, x: bytes, e: Domain, y: bytes)
    requires DomainBytes(d) + x == DomainBytes(e) + y
    ensures |DomainBytes(d)| == |DomainBytes(e)|
  {
    var a, b := DomainBytes(d), DomainBytes(e);
    DomainEndsAtItsOnlyNul(d);
    DomainEndsAtItsOnlyNul(e);
    assert (a + x)[|a| - 1] == 0 && (b + y)[|b| - 1] == 0;
  }

  lemma SplitEqually(a: bytes, x: bytes, b: bytes, y: bytes)
    requires a + x == b + y && |a| == |b|
    ensures a == b && x == y
  {
    assert a == (a + x)[..|a|] && b == (b + y)[..|b|];
    assert x == (a + x)[|a|..] && y == (b + y)[|b|..];
  }

  lemma DomainNames(d: Domain, e: Domain)
    requires DomainBytes(d) == DomainBytes(e)
    ensures d == e
  {
    var a, b, n := DomainBytes(d), DomainBytes(e), |PREFIX|;
    assert Ascii(Name(d)) == a[n..|a| - 1] && Ascii(Name(e)) == b[n..|b| - 1];
    NamesDistinct(d, e);
  }

  /** No byte string belongs to two domains, whatever follows the prefix. */
  lemma DomainsAreDisjoint(d: Domain, x: bytes, e: Domain, y: bytes)
    requires DomainBytes(d) + x == DomainBytes(e) + y
    ensures d == e && x == y
  {
    SameDomainLength(d, x, e, y);
    SplitEqually(DomainBytes(d), x, DomainBytes(e), y);
    DomainNames(d, e);
  }

  // ------------------------------------------------------ generic messages

  datatype Auth = Auth(signingKeyId: bytes, nodeId: bytes, signedAt: bytes, nonce: bytes, signature: bytes)

  /** Domain, identity fields, operation tag, operation parts. */
  function MessageParts(identity: seq<bytes>, tag: bytes, ps: seq<Part>): seq<Part> {
    Ones(identity) + [One(tag)] + ps
  }

  function MessageBytes(d: Domain, identity: seq<bytes>, tag: bytes, ps: seq<Part>): bytes {
    DomainBytes(d) + Encode(MessageParts(identity, tag, ps))
  }

  ghost predicate ShortMessage(identity: seq<bytes>, tag: bytes, ps: seq<Part>) {
    Short(identity) && |tag| < TWO32 && ShortParts(ps)
  }

  lemma MessageSplit(identity: seq<bytes>, tag: bytes, ps: seq<Part>)
    ensures Encode(MessageParts(identity, tag, ps)) == Encode(Ones(identity) + [One(tag)]) + Encode(ps)
  {
    EncodeConcat(Ones(identity) + [One(tag)], ps);
  }

  lemma OnesInjective(a: seq<bytes>, b: seq<bytes>)
    requires Ones(a) == Ones(b)
    ensures a == b
  {
    assert |a| == |Ones(a)| == |b|;
    forall i | 0 <= i < |a| ensures a[i] == b[i] {
      assert Ones(a)[i] == Ones(b)[i];
    }
  }

  /** Equal bytes force equal identity, tag and parts, provided the tag fixes
      the shape of what follows it. */
  lemma MessageInjective(d: Domain, i1: seq<bytes>, t1: bytes, p1: seq<Part>, i2: seq<bytes>, t2: bytes, p2: seq<Part>)
    requires |i1| == |i2| && ShortMessage(i1, t1, p1) && ShortMessage(i2, t2, p2)
    requires t1 == t2 ==> Kinds(p1) == Kinds(p2)
    requires MessageBytes(d, i1, t1, p1) == MessageBytes(d, i2, t2, p2)
    ensures i1 == i2 && t1 == t2 && p1 == p2
  {
    DomainsAreDisjoint(d, Encode(MessageParts(i1, t1, p1)), d, Encode(MessageParts(i2, t2, p2)));
    MessageSplit(i1, t1, p1);
    MessageSplit(i2, t2, p2);
    HeadsInjective(i1, t1, Encode(p1), i2, t2, Encode(p2));
    assert Encode(p1) + [] == Encode(p1) && Encode(p2) + [] == Encode(p2);
    SameShapeSameParts(p1, [], p2, []);
  }

  /** Identity and tag are read back whatever follows them. */
  lemma HeadsInjective(i1: seq<bytes>, t1: bytes, r1: bytes, i2: seq<bytes>, t2: bytes, r2: bytes)
    requires |i1| == |i2| && Short(i1) && Short(i2) && |t1| < TWO32 && |t2| < TWO32
    requires Encode(Ones(i1) + [One(t1)]) + r1 == Encode(Ones(i2) + [One(t2)]) + r2
    ensures i1 == i2 && t1 == t2 && r1 == r2
  {
    var h1, h2 := Ones(i1) + [One(t1)], Ones(i2) + [One(t2)];
    assert Kinds(h1) == Kinds(h2);
    SameShapeSameParts(h1, r1, h2, r2);
    assert h1[|i1|] == h2[|i2|];
    assert Ones(i1) == h1[..|i1|] && Ones(i2) == h2[..|i2|];
    OnesInjective(i1, i2);
  }

  // ------------------------------------------------------------------ claims

  datatype ClaimOperation =
    | Delegate(branch: bytes, leaseSeconds: u64, paths: seq<bytes>, symbols: seq<bytes>)
    | Renew(leaseSeconds: u64)
    | Release
    | Recover(expectedOwner: bytes, branch: bytes, leaseSeconds: u64, paths: seq<bytes>, symbols: seq<bytes>,
              reason: bytes)
    | Park
    | Answer(leaseSeconds: u64)

  /** What a claim signature covers besides the authentication's own fields. */
  datatype ClaimRequest = ClaimRequest(tenantId: bytes, repositoryId: bytes, taskId: bytes, ownerId: bytes,
                                       operation: ClaimOperation)

  function ClaimTag(op: ClaimOperation): bytes {
    match op
    case Delegate(_, _, _, _) => Ascii("delegate")
    case Renew(_) => Ascii("renew")
    case Release => Ascii("release")
    case Recover(_, _, _, _, _, _) => Ascii("recover")
    case Park => Ascii("park")
    case Answer(_) => Ascii("answer")
  }

  function ClaimParts(op: ClaimOperation): seq<Part> {
    match op
    case Delegate(branch, lease, paths, symbols) =>
      [One(branch), One(Be64(lease)), RawList(paths), RawList(symbols)]
    case Renew(lease) => [One(Be64(lease))]
    case Release => []
    case Recover(expectedOwner, branch, lease, paths, symbols, reason) =>
      [One(expectedOwner), One(branch), One(Be64(lease)), RawList(paths), RawList(symbols), One(reason)]
    case Park => []
    case Answer(lease) => [One(Be64(lease))]
  }

  function ClaimIdentity(c: ClaimRequest, a: Auth): seq<bytes> {
    [a.signingKeyId, a.nodeId, a.signedAt, a.nonce, c.tenantId, c.repositoryId, c.taskId, c.ownerId]
  }

  function ClaimBytes(c: ClaimRequest, a: Auth): bytes {
    MessageBytes(ClaimDomain, ClaimIdentity(c, a), ClaimTag(c.operation), ClaimParts(c.operation))
  }

  ghost predicate ShortClaim(c: ClaimRequest, a: Auth) {
    ShortMessage(ClaimIdentity(c, a), ClaimTag(c.operation), ClaimParts(c.operation))
  }

  method PushClaimOperation(buffer: Buffer, op: ClaimOperation)
    requires buffer.Valid()
    modifies buffer
    ensures buffer.Valid() && buffer.parts == old(buffer.parts) + [One(ClaimTag(op))] + ClaimParts(op)
  {
    buffer.PushField(ClaimTag(op));
    match op {
      case Delegate(branch, lease, paths, symbols) =>
        buffer.PushField(branch);
        buffer.PushField(Be64(lease));
        buffer.PushList(paths);
        buffer.PushList(symbols);
      case Renew(lease) => buffer.PushField(Be64(lease));
      case Release =>
      case Recover(expectedOwner, branch, lease, paths, symbols, reason) =>
        buffer.PushThree(expectedOwner, branch, Be64(lease));
        buffer.PushList(paths);
        buffer.PushList(symbols);
        buffer.PushField(reason);
      case Park =>
      case Answer(lease) => buffer.PushField(Be64(lease));
    }
  }

  method ClaimSigningBytes(c: ClaimRequest, a: Auth) returns (b: bytes)
    ensures b == ClaimBytes(c, a)
  {
    var buffer := new Buffer(DomainBytes(ClaimDomain));
    buffer.PushFields(ClaimIdentity(c, a));
    PushClaimOperation(buffer, c.operation);
    assert buffer.parts == MessageParts(ClaimIdentity(c, a), ClaimTag(c.operation), ClaimParts(c.operation));
    b := buffer.bytes;
  }

  lemma ClaimTagsDistinct(x: ClaimOperation, y: ClaimOperation)
    requires ClaimTag(x) == ClaimTag(y)
    ensures Kinds(ClaimParts(x)) == Kinds(ClaimParts(y))
    ensures x.Delegate? == y.Delegate? && x.Renew? == y.Renew? && x.Release? == y.Release?
    ensures x.Recover? == y.Recover? && x.Park? == y.Park? && x.Answer? == y.Answer?
  {
    TagsDiffer("release", "recover", 2);
  }

  lemma ClaimPartsInjective(x: ClaimOperation, y: ClaimOperation)
    requires ClaimTag(x) == ClaimTag(y) && ClaimParts(x) == ClaimParts(y)
    ensures x == y
  {
    ClaimTagsDistinct(x, y);
    if !x.Release? && !x.Park? {
      Be64Inverts(x.leaseSeconds);
      Be64Inverts(y.leaseSeconds);
    }
    match x {
      case Delegate(_, _, _, _) =>
        assert ClaimParts(x)[0] == ClaimParts(y)[0] && ClaimParts(x)[1] == ClaimParts(y)[1];
        assert ClaimParts(x)[2] == ClaimParts(y)[2] && ClaimParts(x)[3] == ClaimParts(y)[3];
      case Recover(_, _, _, _, _, _) =>
        assert ClaimParts(x)[0] == ClaimParts(y)[0] && ClaimParts(x)[1] == ClaimParts(y)[1];
        assert ClaimParts(x)[2] == ClaimParts(y)[2] && ClaimParts(x)[3] == ClaimParts(y)[3];
        assert ClaimParts(x)[4] == ClaimParts(y)[4] && ClaimParts(x)[5] == ClaimParts(y)[5];
      case Renew(_) => assert ClaimParts(x)[0] == ClaimParts(y)[0];
      case Answer(_) => assert ClaimParts(x)[0] == ClaimParts(y)[0];
      case Release =>
      case Park =>
    }
  }

  /** Equal signed bytes mean the same request under the same authentication
      fields. */
  lemma ClaimBytesInjective(c: ClaimRequest, a: Auth, c': ClaimRequest, a': Auth)
    requires ShortClaim(c, a) && ShortClaim(c', a') && ClaimBytes(c, a) == ClaimBytes(c', a')
    ensures c == c' && a == a'.(signature := a.signature)
  {
    var i, i' := ClaimIdentity(c, a), ClaimIdentity(c', a');
    if ClaimTag(c.operation) == ClaimTag(c'.operation) { ClaimTagsDistinct(c.operation, c'.operation); }
    MessageInjective(ClaimDomain, i, ClaimTag(c.operation), ClaimParts(c.operation),
                     i', ClaimTag(c'.operation), ClaimParts(c'.operation));
    ClaimPartsInjective(c.operation, c'.operation);
    assert i[0] == i'[0] && i[1] == i'[1] && i[2] == i'[2] && i[3] == i'[3];
    assert i[4] == i'[4] && i[5] == i'[5] && i[6] == i'[6] && i[7] == i'[7];
  }

  // -------------------------------------------------- a decoder for claims

  function ClaimKinds(tag: bytes): Option<seq<Kind>> {
    if tag == Ascii("delegate") then Some([KOne, KOne, KRawList, KRawList])
    else if tag == Ascii("renew") || tag == Ascii("answer") then Some([KOne])
    else if tag == Ascii("release") || tag == Ascii("park") then Some([])
    else if tag == Ascii("recover") then Some([KOne, KOne, KOne, KRawList, KRawList, KOne])
    else None
  }

  function ClaimFrom(tag: bytes, ps: seq<Part>): Option<ClaimOperation>
    requires ClaimKinds(tag) == Some(Kinds(ps))
  {
    if tag == Ascii("delegate") then
      KindsAt(ps);
      if |ps[1].field| == 8
      then Some(Delegate(ps[0].field, FromBe64(ps[1].field), ps[2].items, ps[3].items)) else None
    else if tag == Ascii("renew") then
      KindsAt(ps);
      if |ps[0].field| == 8 then Some(Renew(FromBe64(ps[0].field))) else None
    else if tag == Ascii("answer") then
      KindsAt(ps);
      if |ps[0].field| == 8 then Some(Answer(FromBe64(ps[0].field))) else None
    else if tag == Ascii("release") then Some(Release)
    else if tag == Ascii("park") then Some(Park)
    else
      KindsAt(ps);
      if |ps[2].field| == 8
      then Some(Recover(ps[0].field, ps[1].field, FromBe64(ps[2].field), ps[3].items, ps[4].items, ps[5].field))
      else None
  }

  lemma KindsAt(ps: seq<Part>)
    ensures |Kinds(ps)| == |ps|
    ensures forall i :: 0 <= i < |ps| ==> Kinds(ps)[i] == KindOf(ps[i])
  {}

  lemma ClaimKindsOf(op: ClaimOperation)
    ensures ClaimKinds(ClaimTag(op)) == Some(Kinds(ClaimParts(op)))
  {
    TagsDiffer("release", "recover", 2);
    match op
    case Delegate(_, _, _, _) => assert Kinds(ClaimParts(op)) == [KOne, KOne, KRawList, KRawList];
    case Renew(_) => assert Kinds(ClaimParts(op)) == [KOne];
    case Release => assert Kinds(ClaimParts(op)) == [];
    case Recover(_, _, _, _, _, _) =>
      assert Kinds(ClaimParts(op)) == [KOne, KOne, KOne, KRawList, KRawList, KOne];
    case Park => assert Kinds(ClaimParts(op)) == [];
    case Answer(_) => assert Kinds(ClaimParts(op)) == [KOne];
  }

  lemma ClaimFromInverts(op: ClaimOperation)
    ensures ClaimKinds(ClaimTag(op)) == Some(Kinds(ClaimParts(op)))
    ensures ClaimFrom(ClaimTag(op), ClaimParts(op)) == Some(op)
  {
    ClaimKindsOf(op);
    TagsDiffer("release", "recover", 2);
    if !op.Release? && !op.Park? { Be64Inverts(op.leaseSeconds); }
  }

  lemma ClaimFromCanonical(tag: bytes, ps: seq<Part>)
    requires ClaimKinds(tag) == Some(Kinds(ps)) && ClaimFrom(tag, ps).Some?
    ensures var op := ClaimFrom(tag, ps).value;
            ClaimTag(op) == tag && ClaimParts(op) == ps
  {
    KindsAt(ps);
    if tag == Ascii("delegate") {
      FromBe64Inverts(ps[1].field);
    } else if tag == Ascii("renew") || tag == Ascii("answer") {
      FromBe64Inverts(ps[0].field);
    } else if tag != Ascii("release") && tag != Ascii("park") {
      FromBe64Inverts(ps[2].field);
    }
  }

  const CLAIM_HEAD: seq<Kind> := [KOne, KOne, KOne, KOne, KOne, KOne, KOne, KOne, KOne]

  lemma HeadFields(head: seq<Part>)
    requires Kinds(head) == CLAIM_HEAD
    ensures |head| == 9 && forall i :: 0 <= i < 9 ==> head[i].One?
  {
    KindsAt(head);
    assert forall i :: 0 <= i < 9 ==> CLAIM_HEAD[i] == KOne;
  }

  /** The eight identity fields and the tag, then whatever follows. */
  function DecodeHead(b: bytes): (r: Option<(seq<Part>, bytes)>)
    ensures r.Some? ==> |r.value.0| == 9 && forall i :: 0 <= i < 9 ==> r.value.0[i].One?
  {
    var d := DomainBytes(ClaimDomain);
    if !(d <= b) then None
    else match Decode(CLAIM_HEAD, b[|d|..])
      case None => None
      case Some((head, rest)) =>
        DecodeCanonical(CLAIM_HEAD, b[|d|..]);
        HeadFields(head);
        Some((head, rest))
  }

  function DecodeTail(tag: bytes, b: bytes): Option<ClaimOperation> {
    match ClaimKinds(tag)
    case None => None
    case Some(kinds) =>
      match Decode(kinds, b)
      case None => None
      case Some((ps, rest)) =>
        DecodeCanonical(kinds, b);
        if rest != [] then None else ClaimFrom(tag, ps)
  }

  function DecodeClaim(b: bytes): Option<(ClaimRequest, Auth)> {
    match DecodeHead(b)
    case None => None
    case Some((head, rest)) =>
      match DecodeTail(head[8].field, rest)
      case None => None
      case Some(op) =>
        Some((ClaimRequest(head[4].field, head[5].field, head[6].field, head[7].field, op),
              Auth(head[0].field, head[1].field, head[2].field, head[3].field, [])))
  }

  lemma DecodeTailInverts(op: ClaimOperation)
    requires ShortParts(ClaimParts(op))
    ensures DecodeTail(ClaimTag(op), Encode(ClaimParts(op))) == Some(op)
  {
    var ps := ClaimParts(op);
    ClaimFromInverts(op);
    assert Encode(ps) + [] == Encode(ps);
    DecodeInverts(ps, []);
  }

  lemma DecodeTailCanonical(tag: bytes, b: bytes)
    requires DecodeTail(tag, b).Some?
    ensures var op := DecodeTail(tag, b).value;
            ClaimTag(op) == tag && ShortParts(ClaimParts(op)) && b == Encode(ClaimParts(op))
  {
    DecodeCanonical(ClaimKinds(tag).value, b);
    var (ps, rest) := Decode(ClaimKinds(tag).value, b).value;
    ClaimFromCanonical(tag, ps);
    assert Encode(ps) + [] == Encode(ps);
  }

  lemma StripPrefix(d: bytes, x: bytes)
    ensures d <= d + x && (d + x)[|d|..] == x
  {}

  function ClaimHead(c: ClaimRequest, a: Auth): seq<Part> {
    [One(a.signingKeyId), One(a.nodeId), One(a.signedAt), One(a.nonce), One(c.tenantId), One(c.repositoryId),
     One(c.taskId), One(c.ownerId), One(ClaimTag(c.operation))]
  }

  lemma ClaimHeadIs(c: ClaimRequest, a: Auth)
    ensures Ones(ClaimIdentity(c, a)) + [One(ClaimTag(c.operation))] == ClaimHead(c, a)
    ensures Kinds(ClaimHead(c, a)) == CLAIM_HEAD
    ensures ShortClaim(c, a) ==> ShortParts(ClaimHead(c, a))
  {
    var identity := ClaimIdentity(c, a);
    assert Ones(identity) + [One(ClaimTag(c.operation))] == ClaimHead(c, a);
    if ShortClaim(c, a) {
      forall i | 0 <= i < 9 ensures ShortPart(ClaimHead(c, a)[i]) {
        if i < 8 { assert ClaimHead(c, a)[i] == One(identity[i]); }
      }
    }
  }

  lemma DecodeHeadInverts(c: ClaimRequest, a: Auth)
    requires ShortClaim(c, a)
    ensures DecodeHead(ClaimBytes(c, a)) == Some((ClaimHead(c, a), Encode(ClaimParts(c.operation))))
  {
    var identity, tag, ps := ClaimIdentity(c, a), ClaimTag(c.operation), ClaimParts(c.operation);
    StripPrefix(DomainBytes(ClaimDomain), Encode(MessageParts(identity, tag, ps)));
    MessageSplit(identity, tag, ps);
    ClaimHeadIs(c, a);
    DecodeInverts(ClaimHead(c, a), Encode(ps));
  }

  /** The decoder inverts the claim encoder (a signature is not signed over). */
  lemma DecodeClaimInverts(c: ClaimRequest, a: Auth)
    requires ShortClaim(c, a)
    ensures DecodeClaim(ClaimBytes(c, a)) == Some((c, a.(signature := [])))
  {
    DecodeHeadInverts(c, a);
    DecodeTailInverts(c.operation);
  }

  lemma DecodeHeadCanonical(b: bytes)
    requires DecodeHead(b).Some?
    ensures var (head, rest) := DecodeHead(b).value;
            ShortParts(head) && b == DomainBytes(ClaimDomain) + (Encode(head) + rest)
  {
    var d := DomainBytes(ClaimDomain);
    DecodeCanonical(CLAIM_HEAD, b[|d|..]);
    assert b == d + b[|d|..];
  }

  /** A head of nine fields is the head of the claim read off it. */
  lemma HeadOfClaim(head: seq<Part>, c: ClaimRequest, a: Auth)
    requires |head| == 9 && forall i :: 0 <= i < 9 ==> head[i].One?
    requires a.signingKeyId == head[0].field && a.nodeId == head[1].field && a.signedAt == head[2].field
    requires a.nonce == head[3].field && c.tenantId == head[4].field && c.repositoryId == head[5].field
    requires c.taskId == head[6].field && c.ownerId == head[7].field && ClaimTag(c.operation) == head[8].field
    ensures head == ClaimHead(c, a)
  {
    var same := ClaimHead(c, a);
    assert head[0] == same[0] && head[1] == same[1] && head[2] == same[2] && head[3] == same[3] && head[4] == same[4];
    assert head[5] == same[5] && head[6] == same[6] && head[7] == same[7] && head[8] == same[8];
  }

  lemma ShortHead(c: ClaimRequest, a: Auth)
    requires ShortParts(ClaimHead(c, a)) && ShortParts(ClaimParts(c.operation))
    ensures ShortClaim(c, a)
  {
    var identity, head := ClaimIdentity(c, a), ClaimHead(c, a);
    assert ShortPart(head[8]);
    forall i | 0 <= i < |identity| ensures |identity[i]| < TWO32 {
      assert head[i] == One(identity[i]) && ShortPart(head[i]);
    }
  }

  lemma ClaimBytesFromHead(c: ClaimRequest, a: Auth)
    ensures ClaimBytes(c, a) == DomainBytes(ClaimDomain) + (Encode(ClaimHead(c, a)) + Encode(ClaimParts(c.operation)))
  {
    ClaimHeadIs(c, a);
    MessageSplit(ClaimIdentity(c, a), ClaimTag(c.operation), ClaimParts(c.operation));
  }

  /** And it accepts only bytes the encoder produces. */
  lemma DecodeClaimCanonical(b: bytes)
    requires DecodeClaim(b).Some?
    ensures var (c, a) := DecodeClaim(b).value;
            ShortClaim(c, a) && ClaimBytes(c, a) == b
  {
    var (c, a) := DecodeClaim(b).value;
    var (head, rest) := DecodeHead(b).value;
    DecodeHeadCanonical(b);
    DecodeTailCanonical(head[8].field, rest);
    HeadOfClaim(head, c, a);
    ShortHead(c, a);
    ClaimBytesFromHead(c, a);
  }
}
