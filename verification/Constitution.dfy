/** The constitution tables: an append-only publication history beside one
    mutable active snapshot per repository
    (crates/ackplane-server/src/constitution_store/mod.rs and
    constitution_store/publication_history.rs). The payload digest is ideal, so
    comparing digests is comparing payloads. */
module Constitution {
  import opened Common

  datatype Clause = Clause(id: string, slug: string, kind: string, title: string, statement: string, status: string,
                           consequence: Option<string>, scope: Option<string>, rationale: Option<string>)

  /** What the digest of a publication covers. */
  datatype Payload = Payload(schemaVersion: string, status: string, clauses: seq<Clause>,
                             sourceReference: Option<string>, sourceDigest: Option<bytes>)

  datatype PublishRequest = PublishRequest(scope: Scope, versionId: string, version: int, payload: Payload)

  datatype Snapshot = Snapshot(versionId: string, version: int, status: string)

  datatype ActiveConstitution = ActiveConstitution(snapshot: Snapshot, clauses: map<string, Clause>)

  datatype ConstitutionError =
    | DatabaseError | EmptyVersionId | EmptySchemaVersion | EmptyStatus | ImmutabilityViolation
    | Unauthenticated | ReplayedNonce

  /** Publications by scope and version; the active snapshot row and its clause
      rows, keyed by clause id. */
  datatype Tables = Tables(publications: map<(Scope, string), Payload>, snapshots: map<Scope, Snapshot>,
                           clauses: map<Scope, map<string, Clause>>)

  const NO_TABLES: Tables := Tables(map[], map[], map[])

  // ------------------------------------------------------------ clause rows

  predicate DistinctIds(clauses: seq<Clause>) {
    forall i, j :: 0 <= i < j < |clauses| ==> clauses[i].id != clauses[j].id
  }

  /** The rows of a clause list, one per id. */
  function Rows(clauses: seq<Clause>): map<string, Clause> {
    if clauses == [] then map[]
    else var last := clauses[|clauses| - 1]; Rows(clauses[..|clauses| - 1])[last.id := last]
  }

  lemma {:induction false} RowsMeaning(clauses: seq<Clause>)
    ensures forall id :: id in Rows(clauses) <==> exists i :: 0 <= i < |clauses| && clauses[i].id == id
    ensures DistinctIds(clauses) ==> forall i :: 0 <= i < |clauses| ==> clauses[i].id in Rows(clauses)
                                                                        && Rows(clauses)[clauses[i].id] == clauses[i]
  {
    if clauses != [] {
      var init, last := clauses[..|clauses| - 1], clauses[|clauses| - 1];
      RowsMeaning(init);
      forall id | id in Rows(clauses) ensures exists i :: 0 <= i < |clauses| && clauses[i].id == id {
        if id == last.id {
          assert clauses[|clauses| - 1].id == id;
        } else {
          assert id in Rows(init);
          var i :| 0 <= i < |init| && init[i].id == id;
          assert clauses[i].id == id;
        }
      }
      forall i | 0 <= i < |clauses| ensures clauses[i].id in Rows(clauses) {
        if i < |init| { assert init[i].id in Rows(init); }
      }
      if DistinctIds(clauses) {
        forall i | 0 <= i < |clauses| ensures Rows(clauses)[clauses[i].id] == clauses[i] {
          if i < |init| { assert Rows(init)[init[i].id] == init[i]; }
        }
      }
    }
  }

  /** One more insert succeeds exactly when its id is new. */
  lemma RowsSnoc(clauses: seq<Clause>, i: nat)
    requires i < |clauses| && DistinctIds(clauses[..i])
    ensures Rows(clauses[..i + 1]) == Rows(clauses[..i])[clauses[i].id := clauses[i]]
    ensures clauses[i].id in Rows(clauses[..i]) ==> !DistinctIds(clauses)
    ensures clauses[i].id !in Rows(clauses[..i]) ==> DistinctIds(clauses[..i + 1])
  {
    var init := clauses[..i];
    assert clauses[..i + 1][..i] == init;
    RowsMeaning(init);
    if clauses[i].id in Rows(init) {
      var j :| 0 <= j < |init| && init[j].id == clauses[i].id;
      assert clauses[j].id == clauses[i].id;
    } else {
      forall j | 0 <= j < i ensures clauses[j].id != clauses[i].id { assert init[j].id in Rows(init); }
    }
  }

  // ------------------------------------------------------------ transactions

  /** `record_publication`'s own checks. */
  function ValidatePublication(r: PublishRequest): Outcome<ConstitutionError> {
    if Blank(r.versionId) then Fail(EmptyVersionId)
    else if Blank(r.payload.schemaVersion) then Fail(EmptySchemaVersion)
    else if Blank(r.payload.status) then Fail(EmptyStatus)
    else Pass
  }

  /** `publish`: replace the snapshot row and every clause row, or nothing. A
      repeated clause id breaks the primary key and rolls everything back. */
  function PublishTx(t: Tables, r: PublishRequest): (Tables, Outcome<ConstitutionError>) {
    if Blank(r.versionId) then (t, Fail(EmptyVersionId))
    else if !DistinctIds(r.payload.clauses) then (t, Fail(DatabaseError))
    else
      (t.(snapshots := t.snapshots[r.scope := Snapshot(r.versionId, r.version, r.payload.status)],
          clauses := t.clauses[r.scope := Rows(r.payload.clauses)]),
       Pass)
  }

  class ConstitutionStore {
    var tables: Tables

    constructor ()
      ensures tables == NO_TABLES
    {
      tables := NO_TABLES;
    }

    /** The clause loop: one insert each, stopping at a repeated id. */
    method InsertClauses(clauses: seq<Clause>) returns (rows: Option<map<string, Clause>>)
      ensures rows == if DistinctIds(clauses) then Some(Rows(clauses)) else None
    {
      var written: map<string, Clause> := map[];
      var i := 0;
      while i < |clauses|
        invariant 0 <= i <= |clauses|
        invariant DistinctIds(clauses[..i]) && written == Rows(clauses[..i])
      {
        RowsSnoc(clauses, i);
        if clauses[i].id in written { return None; }
        written := written[clauses[i].id := clauses[i]];
        i := i + 1;
      }
      assert clauses[..i] == clauses;
      return Some(written);
    }

    /** `publish`, on a transaction that commits or leaves nothing. */
    method Publish(r: PublishRequest) returns (outcome: Outcome<ConstitutionError>)
      modifies this
      ensures (tables, outcome) == PublishTx(old(tables), r)
    {
      if Blank(r.versionId) { return Fail(EmptyVersionId); }
      var snapshots := tables.snapshots[r.scope := Snapshot(r.versionId, r.version, r.payload.status)];
      var rows := InsertClauses(r.payload.clauses);
      if rows.None? { return Fail(DatabaseError); }
      tables := tables.(snapshots := snapshots, clauses := tables.clauses[r.scope := rows.value]);
      return Pass;
    }
  }
}

/** Publishers racing each other
    (crates/ackplane-server/src/constitution_service.rs:39-97 and 174-229): the
    history entry first, the active pointer second, with every statement of
    every publisher free to interleave. */
module ConstitutionPublishing {
  import opened Common
  import opened Constitution

  datatype Pc =
    | Verifying | Consuming | Selecting | Recording | Publishing
    | Done(outcome: Outcome<ConstitutionError>)

  datatype Call = Call(request: PublishRequest, keyId: string, nonce: bytes, pc: Pc, burned: bool, published: bool)

  datatype World = World(tables: Tables, nonces: set<(string, bytes)>, calls: map<nat, Call>)

  const START: World := World(NO_TABLES, {}, map[])

  datatype Event =
    | Begin(call: nat, request: PublishRequest, keyId: string, nonce: bytes)
    | Advance(call: nat, fault: Fault, accepted: bool)

  function With(w: World, n: nat, c: Call): World { w.(calls := w.calls[n := c]) }

  function Finish(c: Call, o: Outcome<ConstitutionError>): Call { c.(pc := Done(o)) }

  /** After the nonce: the publication's own checks, before its transaction. */
  function Authenticated(c: Call): Call {
    match ValidatePublication(c.request)
    case Fail(e) => Finish(c, Fail(e))
    case Pass => c.(pc := Selecting)
  }

  function ConsumeStep(w: World, n: nat, c: Call, lost: bool): World {
    if (c.keyId, c.nonce) in w.nonces then With(w, n, Finish(c, Fail(ReplayedNonce)))
    else
      var burned := c.(burned := true);
      With(w.(nonces := w.nonces + {(c.keyId, c.nonce)}), n,
           if lost then Finish(burned, Fail(DatabaseError)) else Authenticated(burned))
  }

  function Key(r: PublishRequest): (Scope, string) { (r.scope, r.versionId) }

  function SelectStep(t: Tables, c: Call): Call {
    if Key(c.request) !in t.publications then c.(pc := Recording)
    else if t.publications[Key(c.request)] == c.request.payload then c.(pc := Publishing)
    else Finish(c, Fail(ImmutabilityViolation))
  }

  /** The primary key refuses a second entry, even an identical one. */
  function RecordStep(w: World, n: nat, c: Call, lost: bool): World {
    var t := w.tables;
    if Key(c.request) in t.publications then With(w, n, Finish(c, Fail(DatabaseError)))
    else
      With(w.(tables := t.(publications := t.publications[Key(c.request) := c.request.payload])), n,
           if lost then Finish(c, Fail(DatabaseError)) else c.(pc := Publishing))
  }

  function PublishStep(w: World, n: nat, c: Call, lost: bool): World {
    var (t', outcome) := PublishTx(w.tables, c.request);
    if outcome.Fail? then With(w, n, Finish(c, outcome))
    else With(w.(tables := t'), n, c.(published := true, pc := Done(if lost then Fail(DatabaseError) else Pass)))
  }

  function AdvanceCall(w: World, n: nat, fault: Fault, accepted: bool): World
    requires n in w.calls
  {
    var c := w.calls[n];
    var lost := fault == AckLost;
    if c.pc.Done? then w
    else if fault == Failed then With(w, n, Finish(c, Fail(DatabaseError)))
    else match c.pc
      case Verifying => With(w, n, if accepted then c.(pc := Consuming) else Finish(c, Fail(Unauthenticated)))
      case Consuming => ConsumeStep(w, n, c, lost)
      case Selecting => With(w, n, SelectStep(w.tables, c))
      case Recording => RecordStep(w, n, c, lost)
      case Publishing => PublishStep(w, n, c, lost)
      case Done(_) => w
  }

  function Step(w: World, e: Event): World {
    match e
    case Begin(n, request, keyId, nonce) =>
      if n in w.calls then w else With(w, n, Call(request, keyId, nonce, Verifying, false, false))
    case Advance(n, fault, accepted) => if n in w.calls then AdvanceCall(w, n, fault, accepted) else w
  }

  function Run(w: World, events: seq<Event>): World
    decreases |events|
  {
    if events == [] then w else Run(Step(w, events[0]), events[1..])
  }

  // ----------------------------------------------------------- the invariant

  /** The active rows are exactly a recorded publication's clauses and status. */
  predicate ActiveOk(t: Tables, s: Scope) {
    s in t.snapshots ==>
      && (s, t.snapshots[s].versionId) in t.publications
      && s in t.clauses
      && (var p := t.publications[(s, t.snapshots[s].versionId)];
          p.status == t.snapshots[s].status && DistinctIds(p.clauses) && t.clauses[s] == Rows(p.clauses))
  }

  predicate Recorded(t: Tables, r: PublishRequest) {
    Key(r) in t.publications && t.publications[Key(r)] == r.payload
  }

  predicate CallOk(w: World, c: Call) {
    && (c.burned ==> (c.keyId, c.nonce) in w.nonces)
    && (c.published ==> Recorded(w.tables, c.request)
                        && (c.pc == Done(Pass) || c.pc == Done(Fail(DatabaseError))))
    && match c.pc
       case Verifying => !c.burned
       case Consuming => !c.burned
       case Selecting => c.burned
       case Recording => c.burned
       case Publishing => c.burned && Recorded(w.tables, c.request)
       case Done(outcome) => outcome.Pass? ==> c.published && c.burned && Recorded(w.tables, c.request)
  }

  ghost predicate WorldOk(w: World) {
    && (forall s :: ActiveOk(w.tables, s))
    && (forall n :: n in w.calls ==> CallOk(w, w.calls[n]))
    && (forall m, n :: m in w.calls && n in w.calls && m != n && w.calls[m].burned && w.calls[n].burned
                       ==> (w.calls[m].keyId, w.calls[m].nonce) != (w.calls[n].keyId, w.calls[n].nonce))
  }

  lemma ReplyKeeps(w: World, n: nat, c': Call)
    requires WorldOk(w) && n in w.calls && CallOk(w, c')
    requires var c := w.calls[n]; c'.keyId == c.keyId && c'.nonce == c.nonce && c'.burned == c.burned
    ensures WorldOk(With(w, n, c'))
  {
    var w' := With(w, n, c');
    forall s ensures ActiveOk(w'.tables, s) { assert ActiveOk(w.tables, s); }
    forall m | m in w'.calls ensures CallOk(w', w'.calls[m]) {
      if m != n { assert CallOk(w, w.calls[m]); }
    }
  }

  lemma ConsumeKeeps(w: World, n: nat, lost: bool)
    requires WorldOk(w) && n in w.calls && w.calls[n].pc == Consuming
    ensures WorldOk(ConsumeStep(w, n, w.calls[n], lost))
  {
    var c := w.calls[n];
    assert CallOk(w, c);
    if (c.keyId, c.nonce) in w.nonces {
      ReplyKeeps(w, n, Finish(c, Fail(ReplayedNonce)));
    } else {
      var w' := ConsumeStep(w, n, c, lost);
      forall s ensures ActiveOk(w'.tables, s) { assert ActiveOk(w.tables, s); }
      forall m | m in w'.calls ensures CallOk(w', w'.calls[m]) { assert CallOk(w, w.calls[m]); }
      forall m | m in w.calls && m != n && w.calls[m].burned
        ensures (w.calls[m].keyId, w.calls[m].nonce) != (c.keyId, c.nonce)
      {
        assert CallOk(w, w.calls[m]);
      }
    }
  }

  lemma RecordKeeps(w: World, n: nat, lost: bool)
    requires WorldOk(w) && n in w.calls && w.calls[n].pc == Recording
    ensures WorldOk(RecordStep(w, n, w.calls[n], lost))
  {
    var c := w.calls[n];
    assert CallOk(w, c);
    if Key(c.request) in w.tables.publications {
      ReplyKeeps(w, n, Finish(c, Fail(DatabaseError)));
    } else {
      var w' := RecordStep(w, n, c, lost);
      forall s ensures ActiveOk(w'.tables, s) { assert ActiveOk(w.tables, s); }
      forall m | m in w'.calls ensures CallOk(w', w'.calls[m]) { assert CallOk(w, w.calls[m]); }
    }
  }

  lemma PublishKeeps(w: World, n: nat, lost: bool)
    requires WorldOk(w) && n in w.calls && w.calls[n].pc == Publishing
    ensures WorldOk(PublishStep(w, n, w.calls[n], lost))
  {
    var c := w.calls[n];
    assert CallOk(w, c);
    var (t', outcome) := PublishTx(w.tables, c.request);
    if outcome.Fail? {
      ReplyKeeps(w, n, Finish(c, outcome));
    } else {
      var w' := PublishStep(w, n, c, lost);
      forall s ensures ActiveOk(w'.tables, s) { assert ActiveOk(w.tables, s); }
      forall m | m in w'.calls ensures CallOk(w', w'.calls[m]) { assert CallOk(w, w.calls[m]); }
    }
  }

  lemma AdvanceKeeps(w: World, n: nat, fault: Fault, accepted: bool)
    requires WorldOk(w) && n in w.calls
    ensures WorldOk(AdvanceCall(w, n, fault, accepted))
  {
    var c := w.calls[n];
    assert CallOk(w, c);
    if !c.pc.Done? {
      if fault == Failed {
        ReplyKeeps(w, n, Finish(c, Fail(DatabaseError)));
      } else {
        match c.pc {
          case Verifying =>
            ReplyKeeps(w, n, if accepted then c.(pc := Consuming) else Finish(c, Fail(Unauthenticated)));
          case Consuming => ConsumeKeeps(w, n, fault == AckLost);
          case Selecting => ReplyKeeps(w, n, SelectStep(w.tables, c));
          case Recording => RecordKeeps(w, n, fault == AckLost);
          case Publishing => PublishKeeps(w, n, fault == AckLost);
        }
      }
    }
  }

  lemma BeginKeeps(w: World, e: Event)
    requires WorldOk(w) && e.Begin?
    ensures WorldOk(Step(w, e))
  {
    var w' := Step(w, e);
    forall s ensures ActiveOk(w'.tables, s) { assert ActiveOk(w.tables, s); }
    forall m | m in w'.calls ensures CallOk(w', w'.calls[m]) {
      if m in w.calls { assert CallOk(w, w.calls[m]); }
    }
  }

  lemma StepKeeps(w: World, e: Event)
    requires WorldOk(w)
    ensures WorldOk(Step(w, e))
  {
    match e
    case Begin(_, _, _, _) => BeginKeeps(w, e);
    case Advance(n, fault, accepted) => if n in w.calls { AdvanceKeeps(w, n, fault, accepted); }
  }

  lemma {:induction false} EveryInterleavingKeeps(w: World, events: seq<Event>)
    requires WorldOk(w)
    ensures WorldOk(Run(w, events))
    decreases |events|
  {
    if events != [] {
      StepKeeps(w, events[0]);
      EveryInterleavingKeeps(Step(w, events[0]), events[1..]);
    }
  }

  /** At every step of every interleaving the active constitution is the
      immutable publication recorded under its version id. */
  lemma ActiveIsAPublication(events: seq<Event>, s: Scope)
    ensures ActiveOk(Run(START, events).tables, s)
  {
    EveryInterleavingKeeps(START, events);
  }

  /** Each key and nonce authenticates at most one call. */
  lemma NonceAuthenticatesOnce(events: seq<Event>, m: nat, n: nat)
    requires var calls := Run(START, events).calls;
             m in calls && n in calls && calls[m].burned && calls[n].burned
    requires var calls := Run(START, events).calls;
             calls[m].keyId == calls[n].keyId && calls[m].nonce == calls[n].nonce
    ensures m == n
  {
    EveryInterleavingKeeps(START, events);
  }

  lemma StepKeepsHistory(w: World, e: Event, k: (Scope, string))
    requires k in w.tables.publications
    ensures k in Step(w, e).tables.publications
    ensures Step(w, e).tables.publications[k] == w.tables.publications[k]
  {}

  /** What is published under a version id never changes. */
  lemma {:induction false} PublicationsAreImmutable(w: World, events: seq<Event>, k: (Scope, string))
    requires k in w.tables.publications
    ensures k in Run(w, events).tables.publications
    ensures Run(w, events).tables.publications[k] == w.tables.publications[k]
    decreases |events|
  {
    if events != [] {
      StepKeepsHistory(w, events[0], k);
      PublicationsAreImmutable(Step(w, events[0]), events[1..], k);
    }
  }

  /** Once a version is on record, a call with other content under that version
      is never published, through every later run: it cannot succeed, it reads
      as a violation at its lookup, and no step of it moves the active rows. */
  lemma RepublishIsRefused(events: seq<Event>, later: seq<Event>, n: nat, fault: Fault, accepted: bool)
    requires n in Run(Run(START, events), later).calls
    requires var w, r := Run(START, events), Run(Run(START, events), later).calls[n].request;
             Key(r) in w.tables.publications && w.tables.publications[Key(r)] != r.payload
    ensures var w := Run(Run(START, events), later);
            var w' := Step(w, Advance(n, fault, accepted));
            && !w.calls[n].published && w.calls[n].pc != Done(Pass) && w.calls[n].pc != Publishing
            && w'.tables.snapshots == w.tables.snapshots && w'.tables.clauses == w.tables.clauses
            && (w.calls[n].pc == Selecting && fault != Failed ==>
                  n in w'.calls && w'.calls[n].pc == Done(Fail(ImmutabilityViolation)))
  {
    var w0 := Run(START, events);
    var w := Run(w0, later);
    EveryInterleavingKeeps(START, events);
    EveryInterleavingKeeps(w0, later);
    PublicationsAreImmutable(w0, later, Key(w.calls[n].request));
    assert CallOk(w, w.calls[n]);
  }

  /** Only a call whose own content is on record moves the active rows. */
  lemma OnlyRecordedContentPublishes(events: seq<Event>, e: Event)
    ensures var w := Run(START, events);
            var w' := Step(w, e);
            w'.tables.snapshots != w.tables.snapshots || w'.tables.clauses != w.tables.clauses ==>
              && e.Advance? && e.call in w.calls && w.calls[e.call].pc == Publishing
              && Recorded(w.tables, w.calls[e.call].request)
  {
    EveryInterleavingKeeps(START, events);
    if e.Advance? && e.call in Run(START, events).calls {
      assert CallOk(Run(START, events), Run(START, events).calls[e.call]);
    }
  }

  // ------------------------------------------------------------- two readings

  /** `get_active`: the snapshot row first, the clause rows by a second
      statement. */
  function GetActive(first: Tables, second: Tables, s: Scope): Option<ActiveConstitution> {
    if s !in first.snapshots then None
    else Some(ActiveConstitution(first.snapshots[s], if s in second.clauses then second.clauses[s] else map[]))
  }

  /** A reading that agrees with the publication it names. */
  predicate Faithful(t: Tables, s: Scope, a: ActiveConstitution) {
    && (s, a.snapshot.versionId) in t.publications
    && (var p := t.publications[(s, a.snapshot.versionId)];
        a.snapshot.status == p.status && a.clauses == Rows(p.clauses))
  }

  /** The publication on record under the active version id. */
  function ActivePublication(t: Tables, s: Scope): Payload
    requires s in t.snapshots && ActiveOk(t, s)
  {
    t.publications[(s, t.snapshots[s].versionId)]
  }

  /** A scope once active stays active. */
  lemma {:induction false} ScopeStaysActive(w: World, events: seq<Event>, s: Scope)
    requires s in w.tables.snapshots
    ensures s in Run(w, events).tables.snapshots
    decreases |events|
  {
    if events != [] {
      ScopeStaysActive(Step(w, events[0]), events[1..], s);
    }
  }

  /** Over any run and whatever commits between the two statements: a reading
      agrees with the publication it names exactly when the publications active
      at its two statements carry the same clauses. */
  lemma ReadIsFaithfulExactlyWhen(events: seq<Event>, meanwhile: seq<Event>, s: Scope)
    requires s in Run(START, events).tables.snapshots
    ensures var t, t' := Run(START, events).tables, Run(START, events + meanwhile).tables;
            && ActiveOk(t, s) && s in t'.snapshots && ActiveOk(t', s) && GetActive(t, t', s).Some?
            && (Faithful(t, s, GetActive(t, t', s).value) <==>
                Rows(ActivePublication(t', s).clauses) == Rows(ActivePublication(t, s).clauses))
  {
    RunConcat(START, events, meanwhile);
    ScopeStaysActive(Run(START, events), meanwhile, s);
    ActiveIsAPublication(events, s);
    ActiveIsAPublication(events + meanwhile, s);
  }

  /** A reading that straddles one publish is faithful exactly when the two
      publications carry the same clauses. */
  lemma ReadAcrossPublish(w: World, n: nat, accepted: bool)
    requires WorldOk(w) && n in w.calls && w.calls[n].pc == Publishing
    requires var r := w.calls[n].request;
             !Blank(r.versionId) && DistinctIds(r.payload.clauses) && r.scope in w.tables.snapshots
    ensures var s := w.calls[n].request.scope;
            var w' := Step(w, Advance(n, Fine, accepted));
            var was := w.tables.publications;
            && (s, w.tables.snapshots[s].versionId) in was
            && GetActive(w.tables, w'.tables, s).Some?
            && (Faithful(w.tables, s, GetActive(w.tables, w'.tables, s).value) <==>
                Rows(w.calls[n].request.payload.clauses) == Rows(was[(s, w.tables.snapshots[s].versionId)].clauses))
  {
    assert ActiveOk(w.tables, w.calls[n].request.scope);
  }

  lemma {:induction false} RunConcat(w: World, a: seq<Event>, b: seq<Event>)
    ensures Run(w, a + b) == Run(Run(w, a), b)
    decreases |a|
  {
    if a == [] {
      assert a + b == b;
    } else {
      assert (a + b)[1..] == a[1..] + b;
      RunConcat(Step(w, a[0]), a[1..], b);
    }
  }

  function Arrived(w: World, n: nat, r: PublishRequest, keyId: string, nonce: bytes): World {
    World(w.tables.(publications := w.tables.publications[Key(r) := r.payload]), w.nonces + {(keyId, nonce)},
          w.calls[n := Call(r, keyId, nonce, Publishing, true, false)])
  }

  /** A fresh call with fresh content gets as far as publishing. */
  lemma PublisherArrives(w: World, n: nat, r: PublishRequest, keyId: string, nonce: bytes) returns (events: seq<Event>)
    requires n !in w.calls && (keyId, nonce) !in w.nonces && Key(r) !in w.tables.publications
    requires ValidatePublication(r).Pass?
    ensures Run(w, events) == Arrived(w, n, r, keyId, nonce)
  {
    var go := Advance(n, Fine, true);
    var w1 := Step(w, Begin(n, r, keyId, nonce));
    var w2 := Step(w1, go);
    var w3 := Step(w2, go);
    var w4 := Step(w3, go);
    var w5 := Step(w4, go);
    events := [Begin(n, r, keyId, nonce), go, go, go, go];
    assert events[1..] == [go, go, go, go] && [go, go, go, go][1..] == [go, go, go];
    assert [go, go, go][1..] == [go, go] && [go, go][1..] == [go] && [go][1..] == [];
    assert Run(w5, []) == w5 && Run(w4, [go]) == w5 && Run(w3, [go, go]) == w5 && Run(w2, [go, go, go]) == w5;
    assert Run(w1, [go, go, go, go]) == w5;
    assert w5 == Arrived(w, n, r, keyId, nonce);
  }

  function Edition(s: Scope, versionId: string, statement: string): PublishRequest {
    PublishRequest(s, versionId, 1,
                   Payload("1", "active", [Clause("c", "", "", "", statement, "", None, None, None)], None, None))
  }

  /** Two editions, the second about to replace the first. */
  lemma ReadCanTear(s: Scope, keyId: string) returns (events: seq<Event>)
    ensures var w := Run(START, events);
            var w' := Step(w, Advance(1, Fine, true));
            GetActive(w.tables, w'.tables, s).Some? && !Faithful(w.tables, s, GetActive(w.tables, w'.tables, s).value)
  {
    var first, second := Edition(s, "v1", "old"), Edition(s, "v2", "new");
    EditionsDiffer(s);
    var before := PublisherArrives(START, 0, first, keyId, [1]);
    var w1 := Run(START, before);
    var publish := Advance(0, Fine, true);
    var w2 := Step(w1, publish);
    assert Run(w1, [publish]) == w2 by { assert [publish][1..] == []; }
    var after := PublisherArrives(w2, 1, second, keyId, [2]);
    events := before + [publish] + after;
    RunConcat(START, before, [publish]);
    RunConcat(START, before + [publish], after);
    var w := Run(START, events);
    EveryInterleavingKeeps(START, events);
    assert w == Arrived(w2, 1, second, keyId, [2]);
    ReadAcrossPublish(w, 1, true);
  }

  lemma EditionsDiffer(s: Scope)
    ensures var first, second := Edition(s, "v1", "old"), Edition(s, "v2", "new");
            && ValidatePublication(first).Pass? && ValidatePublication(second).Pass? && Key(first) != Key(second)
            && Rows(first.payload.clauses) != Rows(second.payload.clauses)
  {
    var a, b := Edition(s, "v1", "old").payload.clauses, Edition(s, "v2", "new").payload.clauses;
    assert a[..0] == [] && b[..0] == [];
    assert Rows(a)["c"] == a[0] && Rows(b)["c"] == b[0];
    assert a[0].statement[0] != b[0].statement[0];
    assert "v1"[1] != "v2"[1];
    assert !IsWhitespace("v1"[0]) && !IsWhitespace("v2"[0]) && !IsWhitespace("1"[0]) && !IsWhitespace("active"[0]);
  }
}
