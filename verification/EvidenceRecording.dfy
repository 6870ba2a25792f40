/** Any number of `record_evidence` calls at once
    (crates/ackplane-server/src/evidence_service.rs:234-306 over
    evidence_store.rs:193-362). Each statement runs on its own connection, so
    each is its own step; a statement may also fail, or commit and lose its
    acknowledgement. */
module EvidenceRecording {
  import opened Common
  import opened Evidence

  datatype Pc =
    | Verifying | Looking | Consuming | Finding | Inserting | Refinding
    | Done(result: Result<RecordOutcome, EvidenceError>)

  /** A call in flight. The last five fields record what it has done so far;
      `settledAt` is the point a finished call finished at. */
  datatype Call = Call(request: RecordRequest, timestampOk: bool, keyId: string, nonce: bytes, pc: Pc,
                       verified: bool, burned: bool, inserted: Option<nat>, ackLost: bool, settledAt: Pc)

  /** The two tables, who wrote each row, and the calls. */
  datatype World = World(rows: seq<EvidenceRecord>, writers: seq<nat>, nonces: set<(string, bytes)>,
                         calls: map<nat, Call>)

  const START: World := World([], [], {}, map[])

  datatype Event =
    | Begin(call: nat, request: RecordRequest, kindOk: bool, timestampOk: bool, keyId: string, nonce: bytes)
    | Advance(call: nat, fault: Fault, accepted: bool, id: string, recordedAt: int)

  function Finish(c: Call, r: Result<RecordOutcome, EvidenceError>): Call {
    c.(settledAt := c.pc, pc := Done(r))
  }

  /** The lookup by key, at the service and again in the store. */
  function LookUp(rows: seq<EvidenceRecord>, c: Call, next: Pc): Call {
    if c.request.key == "" then c.(pc := next)
    else match FindByIdempotency(rows, c.request.scope, c.request.key)
      case Err(e) => Finish(c, Err(e))
      case Ok(Some(existing)) => Finish(c, OutcomeForExisting(existing, c.request))
      case Ok(None) => c.(pc := next)
  }

  /** Validation follows the store's own lookup, before the insert. */
  function Validated(c: Call): Call {
    if c.pc != Inserting then c
    else match ValidateRequest(c.request)
      case Fail(e) => Finish(c, Err(e))
      case Pass => c
  }

  function Refind(rows: seq<EvidenceRecord>, c: Call): Call {
    match FindByIdempotency(rows, c.request.scope, c.request.key)
    case Err(e) => Finish(c, Err(e))
    case Ok(None) => Finish(c, Err(IdempotencyConflict))
    case Ok(Some(existing)) => Finish(c, OutcomeForExisting(existing, c.request))
  }

  function With(w: World, n: nat, c: Call): World { w.(calls := w.calls[n := c]) }

  function ConsumeStep(w: World, n: nat, c: Call, lost: bool): World {
    if (c.keyId, c.nonce) in w.nonces then With(w, n, Finish(c, Err(ReplayedNonce)))
    else
      With(w.(nonces := w.nonces + {(c.keyId, c.nonce)}), n,
           if lost then Finish(c.(burned := true), Err(DatabaseError)) else c.(burned := true, pc := Finding))
  }

  /** Where the insert leaves its call; `size` is the row's index if one was
      written. */
  function InsertCall(c: Call, outcome: Inserted, size: nat, lost: bool): Call {
    match outcome
    case Skipped => if lost then Finish(c, Err(DatabaseError)) else c.(pc := Refinding)
    case IdCollision => Finish(c, Err(DatabaseError))
    case Row(row) =>
      Finish(c.(inserted := Some(size), ackLost := lost),
             if lost then Err(DatabaseError) else Ok(RecordOutcome(row, false)))
  }

  function InsertStep(w: World, n: nat, c: Call, lost: bool, id: string, recordedAt: int): World {
    var outcome := Insert(w.rows, c.request, id, recordedAt);
    var c' := InsertCall(c, outcome, |w.rows|, lost);
    if outcome.Row? then With(w.(rows := w.rows + [outcome.row], writers := w.writers + [n]), n, c')
    else With(w, n, c')
  }

  function AdvanceCall(w: World, n: nat, fault: Fault, accepted: bool, id: string, recordedAt: int)
    : (w': World)
    requires n in w.calls
    ensures n in w'.calls
  {
    var c := w.calls[n];
    var lost := fault == AckLost;
    if c.pc.Done? then w
    else if fault == Failed then With(w, n, Finish(c, Err(DatabaseError)))
    else match c.pc
      case Verifying =>
        if !accepted then With(w, n, Finish(c, Err(Unauthenticated)))
        else if !c.timestampOk then With(w, n, Finish(c.(verified := true), Err(InvalidArgument)))
        else With(w, n, c.(verified := true, pc := Looking, request := Normalized(c.request)))
      case Looking => With(w, n, LookUp(w.rows, c, Consuming))
      case Consuming => ConsumeStep(w, n, c, lost)
      case Finding => With(w, n, Validated(LookUp(w.rows, c, Inserting)))
      case Inserting => InsertStep(w, n, c, lost, id, recordedAt)
      case Refinding => With(w, n, Refind(w.rows, c))
      case Done(_) => w
  }

  function Step(w: World, e: Event): World {
    match e
    case Begin(n, request, kindOk, timestampOk, keyId, nonce) =>
      if n in w.calls then w
      else With(w, n, Call(request, timestampOk, keyId, nonce,
                           if kindOk then Verifying else Done(Err(InvalidArgument)), false, false, None, false,
                           Verifying))
    case Advance(n, fault, accepted, id, recordedAt) =>
      if n in w.calls then AdvanceCall(w, n, fault, accepted, id, recordedAt) else w
  }

  function Run(w: World, events: seq<Event>): World
    decreases |events|
  {
    if events == [] then w else Run(Step(w, events[0]), events[1..])
  }

  // ----------------------------------------------------------- the invariant

  predicate KeysUnique(rows: seq<EvidenceRecord>) {
    forall i, j :: 0 <= i < j < |rows| && rows[i].key != "" ==> !UnderKey(rows[j], rows[i].scope, rows[i].key)
  }

  predicate IdsUnique(rows: seq<EvidenceRecord>) {
    forall i, j :: 0 <= i < j < |rows| ==> rows[i].scope != rows[j].scope || rows[i].evidenceId != rows[j].evidenceId
  }

  /** The record says what this request says. */
  predicate Matches(record: EvidenceRecord, r: RecordRequest) {
    record.scope == r.scope && record.key == r.key && record.content == r.content
  }

  predicate PcOk(rows: seq<EvidenceRecord>, c: Call) {
    match c.pc
    case Verifying => !c.verified && !c.burned && c.inserted.None?
    case Looking => c.verified && !c.burned && c.inserted.None?
    case Consuming => c.verified && !c.burned && c.inserted.None?
    case Finding => c.verified && c.burned && c.inserted.None?
    case Inserting => c.verified && c.burned && c.inserted.None?
    case Refinding =>
      && c.verified && c.burned && c.inserted.None?
      && c.request.key != "" && Find(rows, c.request.scope, c.request.key).Some?
    case Done(Ok(o)) =>
      && c.verified && o.record in rows && Matches(o.record, c.request)
      && (o.idempotentReplay <==> c.inserted.None?)
      && (o.idempotentReplay ==> c.request.key != "")
    case Done(Err(_)) => true
  }

  predicate InsertedOk(w: World, n: nat, c: Call) {
    c.inserted.Some? ==>
      && c.inserted.value < |w.rows| == |w.writers| && w.writers[c.inserted.value] == n
      && c.burned && Matches(w.rows[c.inserted.value], c.request)
      && c.pc == Done(if c.ackLost then Err(DatabaseError)
                      else Ok(RecordOutcome(w.rows[c.inserted.value], false)))
  }

  predicate CallOk(w: World, n: nat, c: Call) {
    && (c.burned ==> c.verified && (c.keyId, c.nonce) in w.nonces)
    && PcOk(w.rows, c) && InsertedOk(w, n, c)
  }

  predicate CallsOk(w: World) {
    forall n :: n in w.calls ==> CallOk(w, n, w.calls[n])
  }

  predicate WrittenBy(w: World, i: nat)
    requires i < |w.writers|
  {
    w.writers[i] in w.calls && w.calls[w.writers[i]].inserted == Some(i)
  }

  predicate WritersOk(w: World) {
    |w.writers| == |w.rows| && forall i :: 0 <= i < |w.writers| ==> WrittenBy(w, i)
  }

  predicate NoncesDistinct(w: World) {
    forall m, n :: m in w.calls && n in w.calls && m != n && w.calls[m].burned && w.calls[n].burned
                   ==> (w.calls[m].keyId, w.calls[m].nonce) != (w.calls[n].keyId, w.calls[n].nonce)
  }

  predicate WorldOk(w: World) {
    KeysUnique(w.rows) && IdsUnique(w.rows) && CallsOk(w) && WritersOk(w) && NoncesDistinct(w)
  }

  // ----------------------------------------------- steps that only reply

  /** Only this call's own progress changes. */
  predicate Progress(c: Call, c': Call) {
    c'.keyId == c.keyId && c'.nonce == c.nonce && c'.burned == c.burned && c'.inserted == c.inserted && c.inserted.None?
  }

  lemma ReplyKeeps(w: World, n: nat, c': Call)
    requires WorldOk(w) && n in w.calls && Progress(w.calls[n], c') && PcOk(w.rows, c')
    requires c'.burned ==> c'.verified
    ensures WorldOk(With(w, n, c'))
  {
    var w' := With(w, n, c');
    forall m | m in w'.calls ensures CallOk(w', m, w'.calls[m]) {
      assert CallOk(w, m, w.calls[m]);
    }
    forall i | 0 <= i < |w'.writers| ensures WrittenBy(w', i) { assert WrittenBy(w, i); }
  }

  lemma FoundMatches(rows: seq<EvidenceRecord>, scope: Scope, key: string)
    requires Find(rows, scope, key).Some?
    ensures Find(rows, scope, key).value in rows && UnderKey(Find(rows, scope, key).value, scope, key)
  {
    FindMeaning(rows, scope, key);
  }

  lemma LookUpKeeps(rows: seq<EvidenceRecord>, c: Call, next: Pc)
    requires c.verified && c.inserted.None? && PcOk(rows, c.(pc := next))
    ensures var c' := LookUp(rows, c, next);
            Progress(c, c') && PcOk(rows, c') && c'.verified && c'.request == c.request
            && (c'.pc == next || c'.pc.Done?)
  {
    if c.request.key != "" && Find(rows, c.request.scope, c.request.key).Some? {
      FoundMatches(rows, c.request.scope, c.request.key);
    }
  }

  lemma RefindKeeps(rows: seq<EvidenceRecord>, c: Call)
    requires c.pc == Refinding && PcOk(rows, c)
    ensures var c' := Refind(rows, c);
            Progress(c, c') && PcOk(rows, c') && c'.verified
  {
    FoundMatches(rows, c.request.scope, c.request.key);
  }

  // ---------------------------------------------------- steps that write

  lemma ConsumeKeeps(w: World, n: nat, lost: bool)
    requires WorldOk(w) && n in w.calls && w.calls[n].pc == Consuming
    ensures WorldOk(ConsumeStep(w, n, w.calls[n], lost))
  {
    var c := w.calls[n];
    assert CallOk(w, n, c);
    if (c.keyId, c.nonce) in w.nonces {
      ReplyKeeps(w, n, Finish(c, Err(ReplayedNonce)));
    } else {
      var w' := ConsumeStep(w, n, c, lost);
      forall m | m in w'.calls ensures CallOk(w', m, w'.calls[m]) {
        assert CallOk(w, m, w.calls[m]);
      }
      forall i | 0 <= i < |w'.writers| ensures WrittenBy(w', i) { assert WrittenBy(w, i); }
      forall m | m in w.calls && m != n && w.calls[m].burned
        ensures (w.calls[m].keyId, w.calls[m].nonce) != (c.keyId, c.nonce)
      {
        assert CallOk(w, m, w.calls[m]);
      }
    }
  }

  lemma AppendKeepsUnique(rows: seq<EvidenceRecord>, r: RecordRequest, id: string, recordedAt: int)
    requires KeysUnique(rows) && IdsUnique(rows) && Insert(rows, r, id, recordedAt).Row?
    ensures KeysUnique(rows + [RowFor(r, id, recordedAt)]) && IdsUnique(rows + [RowFor(r, id, recordedAt)])
  {
    FindMeaning(rows, r.scope, r.key);
  }

  lemma PcSurvives(rows: seq<EvidenceRecord>, row: EvidenceRecord, c: Call)
    requires PcOk(rows, c)
    ensures PcOk(rows + [row], c)
  {
    FindConcat(rows, [row], c.request.scope, c.request.key);
  }

  lemma InsertKeeps(w: World, n: nat, lost: bool, id: string, recordedAt: int)
    requires WorldOk(w) && n in w.calls && w.calls[n].pc == Inserting
    ensures WorldOk(InsertStep(w, n, w.calls[n], lost, id, recordedAt))
  {
    var c := w.calls[n];
    assert CallOk(w, n, c);
    match Insert(w.rows, c.request, id, recordedAt) {
      case Skipped => ReplyKeeps(w, n, if lost then Finish(c, Err(DatabaseError)) else c.(pc := Refinding));
      case IdCollision => ReplyKeeps(w, n, Finish(c, Err(DatabaseError)));
      case Row(row) => RowKeeps(w, n, lost, id, recordedAt);
    }
  }

  lemma OtherCallKept(w: World, w': World, n: nat, row: EvidenceRecord, m: nat, c: Call)
    requires CallOk(w, m, c) && |w.writers| == |w.rows|
    requires w'.rows == w.rows + [row] && w'.writers == w.writers + [n] && w'.nonces == w.nonces
    ensures CallOk(w', m, c)
  {
    PcSurvives(w.rows, row, c);
  }

  lemma RowKeeps(w: World, n: nat, lost: bool, id: string, recordedAt: int)
    requires WorldOk(w) && n in w.calls && w.calls[n].pc == Inserting
    requires Insert(w.rows, w.calls[n].request, id, recordedAt).Row?
    ensures WorldOk(InsertStep(w, n, w.calls[n], lost, id, recordedAt))
  {
    var c := w.calls[n];
    var row := RowFor(c.request, id, recordedAt);
    var w' := InsertStep(w, n, c, lost, id, recordedAt);
    assert CallOk(w, n, c);
    AppendKeepsUnique(w.rows, c.request, id, recordedAt);
    forall m | m in w'.calls ensures CallOk(w', m, w'.calls[m]) {
      assert CallOk(w, m, w.calls[m]);
      if m != n { OtherCallKept(w, w', n, row, m, w.calls[m]); } else { assert row == w'.rows[|w.rows|]; }
    }
    forall i | 0 <= i < |w'.writers| ensures WrittenBy(w', i) {
      if i < |w.writers| { assert WrittenBy(w, i); }
    }
  }

  // ------------------------------------------------------------- every run

  lemma BeginKeeps(w: World, e: Event)
    requires WorldOk(w) && e.Begin?
    ensures WorldOk(Step(w, e))
  {
    var w' := Step(w, e);
    forall m | m in w'.calls ensures CallOk(w', m, w'.calls[m]) {
      if m in w.calls { assert CallOk(w, m, w.calls[m]); }
    }
    forall i | 0 <= i < |w'.writers| ensures WrittenBy(w', i) { assert WrittenBy(w, i); }
  }

  lemma AdvanceKeeps(w: World, n: nat, fault: Fault, accepted: bool, id: string, recordedAt: int)
    requires WorldOk(w) && n in w.calls
    ensures WorldOk(AdvanceCall(w, n, fault, accepted, id, recordedAt))
  {
    var c := w.calls[n];
    assert CallOk(w, n, c);
    if !c.pc.Done? {
      if fault == Failed {
        ReplyKeeps(w, n, Finish(c, Err(DatabaseError)));
      } else {
        match c.pc {
          case Verifying =>
            if !accepted {
              ReplyKeeps(w, n, Finish(c, Err(Unauthenticated)));
            } else if !c.timestampOk {
              ReplyKeeps(w, n, Finish(c.(verified := true), Err(InvalidArgument)));
            } else {
              ReplyKeeps(w, n, c.(verified := true, pc := Looking, request := Normalized(c.request)));
            }
          case Looking =>
            LookUpKeeps(w.rows, c, Consuming);
            ReplyKeeps(w, n, LookUp(w.rows, c, Consuming));
          case Consuming => ConsumeKeeps(w, n, fault == AckLost);
          case Finding =>
            LookUpKeeps(w.rows, c, Inserting);
            ReplyKeeps(w, n, Validated(LookUp(w.rows, c, Inserting)));
          case Inserting => InsertKeeps(w, n, fault == AckLost, id, recordedAt);
          case Refinding =>
            RefindKeeps(w.rows, c);
            ReplyKeeps(w, n, Refind(w.rows, c));
        }
      }
    }
  }

  lemma {:induction false} EveryInterleavingKeeps(w: World, events: seq<Event>)
    requires WorldOk(w)
    ensures WorldOk(Run(w, events))
    decreases |events|
  {
    if events != [] {
      match events[0] {
        case Begin(_, _, _, _, _, _) => BeginKeeps(w, events[0]);
        case Advance(n, fault, accepted, id, recordedAt) =>
          if n in w.calls { AdvanceKeeps(w, n, fault, accepted, id, recordedAt); }
      }
      EveryInterleavingKeeps(Step(w, events[0]), events[1..]);
    }
  }

  predicate Answered(w: World, n: nat) { n in w.calls && w.calls[n].pc.Done? && w.calls[n].pc.result.Ok? }

  function Answer(w: World, n: nat): RecordOutcome
    requires Answered(w, n)
  {
    w.calls[n].pc.result.value
  }

  /** In every interleaving: at most one row per scope and non-empty key, and
      every successful caller with that key returns that row, which says what
      the caller asked to record. */
  lemma OneRowPerKey(events: seq<Event>, n: nat, i: nat)
    ensures var w := Run(START, events);
            && KeysUnique(w.rows)
            && (Answered(w, n) ==> Matches(Answer(w, n).record, w.calls[n].request))
            && (Answered(w, n) && i < |w.rows| && w.calls[n].request.key != ""
                && UnderKey(w.rows[i], w.calls[n].request.scope, w.calls[n].request.key)
                ==> Answer(w, n).record == w.rows[i])
  {
    EveryInterleavingKeeps(START, events);
    var w := Run(START, events);
    if Answered(w, n) {
      assert CallOk(w, n, w.calls[n]);
      var j :| 0 <= j < |w.rows| && w.rows[j] == Answer(w, n).record;
    }
  }

  /** Each row is reported as new by its one writer, unless that writer's
      acknowledgement was lost, and by nobody else. */
  lemma ExactlyOneReportsItNew(events: seq<Event>, i: nat)
    requires i < |Run(START, events).rows|
    ensures var w := Run(START, events);
            && |w.writers| == |w.rows| && w.writers[i] in w.calls
            && (!w.calls[w.writers[i]].ackLost ==>
                  Answered(w, w.writers[i]) && Answer(w, w.writers[i]) == RecordOutcome(w.rows[i], false))
            && (forall n :: Answered(w, n) && Answer(w, n) == RecordOutcome(w.rows[i], false) ==> n == w.writers[i])
  {
    EveryInterleavingKeeps(START, events);
    var w := Run(START, events);
    assert WrittenBy(w, i);
    assert CallOk(w, w.writers[i], w.calls[w.writers[i]]);
    forall n | Answered(w, n) && Answer(w, n) == RecordOutcome(w.rows[i], false) ensures n == w.writers[i] {
      assert CallOk(w, n, w.calls[n]);
    }
  }

  /** Stored rows map injectively into consumed (key, nonce) pairs, each used
      by a verified call. */
  lemma RowsInjectIntoNonces(events: seq<Event>, i: nat, j: nat)
    requires i < |Run(START, events).rows| && j < |Run(START, events).rows| && i != j
    ensures var w := Run(START, events);
            && |w.writers| == |w.rows| && w.writers[i] in w.calls && w.writers[j] in w.calls
            && (var a, b := w.calls[w.writers[i]], w.calls[w.writers[j]];
                && a.verified && (a.keyId, a.nonce) in w.nonces && (b.keyId, b.nonce) in w.nonces
                && (a.keyId, a.nonce) != (b.keyId, b.nonce))
  {
    EveryInterleavingKeeps(START, events);
    var w := Run(START, events);
    assert WrittenBy(w, i) && WrittenBy(w, j);
    assert CallOk(w, w.writers[i], w.calls[w.writers[i]]) && CallOk(w, w.writers[j], w.calls[w.writers[j]]);
  }

  // ------------------------------------------------ who consumes a nonce

  predicate Burned(c: Call, p: (string, bytes)) { c.burned && (c.keyId, c.nonce) == p }

  /** Someone's call consumed this pair. */
  ghost predicate Consumed(w: World, p: (string, bytes)) {
    exists n :: n in w.calls && Burned(w.calls[n], p)
  }

  /** Up to the service's lookup nothing is consumed or written; a refusal for
      want of authentication is settled before even that. */
  predicate SettledOk(c: Call) {
    && (c.pc == Verifying || c.pc == Looking || c.pc == Consuming ==> !c.burned && c.inserted.None?)
    && (c.pc.Done? && (c.settledAt == Verifying || c.settledAt == Looking) ==> !c.burned && c.inserted.None?)
    && (c.pc == Done(Err(Unauthenticated)) ==> c.settledAt == Verifying)
  }

  ghost predicate SpendingOk(w: World) {
    && (forall p :: p in w.nonces ==> Consumed(w, p))
    && (forall n :: n in w.calls ==> SettledOk(w.calls[n]))
  }

  /** What a step may change about its own call. */
  predicate SameIdentity(c: Call, c': Call) {
    c'.keyId == c.keyId && c'.nonce == c.nonce && (c.burned ==> c'.burned)
  }

  lemma ValidatedSettles(c: Call)
    requires SettledOk(c)
    ensures SettledOk(Validated(c)) && SameIdentity(c, Validated(c))
  {
    if c.pc == Inserting && ValidateRequest(c.request).Fail? { ValidationIsNoRefusal(c.request); }
  }

  lemma ValidationIsNoRefusal(r: RecordRequest)
    ensures ValidateRequest(r) != Fail(Unauthenticated)
  {}

  lemma LookUpSettles(rows: seq<EvidenceRecord>, c: Call, next: Pc)
    requires SettledOk(c) && ((c.pc == Looking && next == Consuming) || (c.pc == Finding && next == Inserting))
    ensures SettledOk(LookUp(rows, c, next)) && SameIdentity(c, LookUp(rows, c, next))
  {}

  lemma RefindSettles(rows: seq<EvidenceRecord>, c: Call)
    requires SettledOk(c) && c.pc == Refinding
    ensures SettledOk(Refind(rows, c)) && SameIdentity(c, Refind(rows, c))
  {}

  lemma ConsumeSettles(w: World, n: nat, c: Call, lost: bool)
    requires SettledOk(c) && c.pc == Consuming
    ensures var w' := ConsumeStep(w, n, c, lost);
            SettledOk(w'.calls[n]) && SameIdentity(c, w'.calls[n]) && w'.calls == w.calls[n := w'.calls[n]]
  {}

  lemma InsertSettles(c: Call, outcome: Inserted, size: nat, lost: bool)
    requires SettledOk(c) && c.pc == Inserting
    ensures SettledOk(InsertCall(c, outcome, size, lost)) && SameIdentity(c, InsertCall(c, outcome, size, lost))
  {}

  lemma AdvanceSettles(w: World, n: nat, fault: Fault, accepted: bool, id: string, recordedAt: int)
    requires n in w.calls && SettledOk(w.calls[n])
    ensures var w' := AdvanceCall(w, n, fault, accepted, id, recordedAt);
            && SettledOk(w'.calls[n]) && SameIdentity(w.calls[n], w'.calls[n])
            && w'.calls == w.calls[n := w'.calls[n]]
            && (w.calls[n].pc.Done? ==> w' == w)
  {
    var c := w.calls[n];
    if !c.pc.Done? && fault != Failed {
      match c.pc {
        case Verifying =>
        case Looking => LookUpSettles(w.rows, c, Consuming);
        case Consuming => ConsumeSettles(w, n, c, fault == AckLost);
        case Finding =>
          LookUpSettles(w.rows, c, Inserting);
          ValidatedSettles(LookUp(w.rows, c, Inserting));
        case Inserting =>
          InsertSettles(c, Insert(w.rows, c.request, id, recordedAt), |w.rows|, fault == AckLost);
        case Refinding => RefindSettles(w.rows, c);
      }
    }
  }

  /** A consumed pair stays its consumer's, and a settled call stays settled. */
  lemma StepKeepsCall(w: World, e: Event, m: nat)
    requires m in w.calls && forall n :: n in w.calls ==> SettledOk(w.calls[n])
    ensures m in Step(w, e).calls && SettledOk(Step(w, e).calls[m]) && SameIdentity(w.calls[m], Step(w, e).calls[m])
    ensures w.calls[m].pc.Done? ==> Step(w, e).calls[m] == w.calls[m]
  {
    if e.Advance? && e.call in w.calls { AdvanceSettles(w, e.call, e.fault, e.accepted, e.id, e.recordedAt); }
  }

  /** Only a consuming step adds to the nonces, and it adds its own pair. */
  lemma StepConsumes(w: World, e: Event, p: (string, bytes))
    requires p in Step(w, e).nonces && p !in w.nonces
    ensures e.call in Step(w, e).calls && Burned(Step(w, e).calls[e.call], p)
  {}

  lemma StepSpends(w: World, e: Event)
    requires SpendingOk(w)
    ensures SpendingOk(Step(w, e))
  {
    var w' := Step(w, e);
    forall p | p in w'.nonces ensures Consumed(w', p) {
      if p in w.nonces {
        var m :| m in w.calls && Burned(w.calls[m], p);
        StepKeepsCall(w, e, m);
        assert Burned(w'.calls[m], p);
      } else {
        StepConsumes(w, e, p);
      }
    }
    forall n | n in w'.calls ensures SettledOk(w'.calls[n]) {
      if n in w.calls { StepKeepsCall(w, e, n); }
    }
  }

  lemma {:induction false} EveryRunSpends(w: World, events: seq<Event>)
    requires SpendingOk(w)
    ensures SpendingOk(Run(w, events))
    decreases |events|
  {
    if events != [] {
      StepSpends(w, events[0]);
      EveryRunSpends(Step(w, events[0]), events[1..]);
    }
  }

  /** Over every run: a consumed pair was consumed by a call that burned it, and
      a call refused for want of authentication, or settled by the service's own
      lookup, has burned none and written no row. */
  lemma RefusedOrLookedUpConsumesNothing(events: seq<Event>, n: nat)
    ensures var w := Run(START, events);
            && (forall p :: p in w.nonces ==> Consumed(w, p))
            && (n in w.calls && w.calls[n].pc.Done?
                && (w.calls[n].pc == Done(Err(Unauthenticated)) || w.calls[n].settledAt == Looking)
                ==> !w.calls[n].burned && w.calls[n].inserted.None? && n !in w.writers)
  {
    EveryRunSpends(START, events);
    EveryInterleavingKeeps(START, events);
    var w := Run(START, events);
    if n in w.calls && n in w.writers {
      var i :| 0 <= i < |w.writers| && w.writers[i] == n;
      assert WrittenBy(w, i);
    }
    if n in w.calls { assert SettledOk(w.calls[n]); }
  }

  lemma {:induction false} SettledIsFinal(w: World, events: seq<Event>, n: nat)
    requires SpendingOk(w) && n in w.calls && w.calls[n].pc.Done?
    ensures n in Run(w, events).calls && Run(w, events).calls[n] == w.calls[n]
    decreases |events|
  {
    if events != [] {
      StepKeepsCall(w, events[0], n);
      StepSpends(w, events[0]);
      SettledIsFinal(Step(w, events[0]), events[1..], n);
    }
  }

  /** A matching retry that reaches the service's lookup is answered there, with
      the stored record, and never consumes anything afterwards. */
  lemma MatchingRetryConsumesNothing(events: seq<Event>, n: nat, existing: EvidenceRecord, e: Event, later: seq<Event>)
    requires var w := Run(START, events);
             && n in w.calls && w.calls[n].pc == Looking && Bounded(w.calls[n].request.key, MAX_KEY_BYTES)
             && Find(w.rows, w.calls[n].request.scope, w.calls[n].request.key) == Some(existing)
             && existing.content == w.calls[n].request.content
    requires e.Advance? && e.call == n && e.fault != Failed
    ensures var w' := Run(Step(Run(START, events), e), later);
            && n in w'.calls && w'.calls[n].pc == Done(Ok(RecordOutcome(existing, true)))
            && !w'.calls[n].burned && w'.calls[n].inserted.None?
  {
    var w := Run(START, events);
    EveryRunSpends(START, events);
    assert SettledOk(w.calls[n]);
    assert w.calls[n].request.key != "";
    StepSpends(w, e);
    SettledIsFinal(Step(w, e), later, n);
  }

  /** The second lookup never comes back empty: whoever held the key first has
      committed its row. */
  lemma RefindAlwaysFinds(events: seq<Event>, n: nat)
    requires n in Run(START, events).calls && Run(START, events).calls[n].pc == Refinding
    ensures var w := Run(START, events);
            Find(w.rows, w.calls[n].request.scope, w.calls[n].request.key).Some?
  {
    EveryInterleavingKeeps(START, events);
    assert CallOk(Run(START, events), n, Run(START, events).calls[n]);
  }

  // ------------------------------------- the steps and the sequential method

  /** From the insert on. */
  function InsertResult(now: seq<EvidenceRecord>, r: RecordRequest, id: string, recordedAt: int)
    : (seq<EvidenceRecord>, Result<RecordOutcome, EvidenceError>)
  {
    match Insert(now, r, id, recordedAt)
    case IdCollision => (now, Err(DatabaseError))
    case Row(row) => (now + [row], Ok(RecordOutcome(row, false)))
    case Skipped => (now, OutcomeForExisting(Find(now, r.scope, r.key).value, r))
  }

  /** The lookup step settles `record` or leaves exactly the insert to do,
      whatever rows land meanwhile. */
  lemma FindStage(rows: seq<EvidenceRecord>, c: Call, meanwhile: seq<EvidenceRecord>, id: string, recordedAt: int)
    requires c.pc == Finding && Normalized(c.request) == c.request
    ensures var c' := Validated(LookUp(rows, c, Inserting));
            var record := RecordAmid(rows, c.request, meanwhile, id, recordedAt);
            && c'.request == c.request
            && (c'.pc == Done(record.1) ||
                (c'.pc == Inserting && record == InsertResult(rows + meanwhile, c.request, id, recordedAt)
                 && (c.request.key != "" ==> Bounded(c.request.key, MAX_KEY_BYTES))))
  {}

  /** The insert step settles it too, or leaves a second lookup that any later
      rows cannot change. */
  lemma InsertStage(w: World, n: nat, id: string, recordedAt: int, more: seq<EvidenceRecord>)
    requires n in w.calls && w.calls[n].pc == Inserting
    requires w.calls[n].request.key != "" ==> Bounded(w.calls[n].request.key, MAX_KEY_BYTES)
    ensures var r := w.calls[n].request;
            var w' := AdvanceCall(w, n, Fine, true, id, recordedAt);
            var record := InsertResult(w.rows, r, id, recordedAt);
            && w'.rows == record.0
            && (w'.calls[n].pc == Done(record.1) ||
                (w'.calls[n].pc == Refinding && Refind(w'.rows + more, w'.calls[n]).pc == Done(record.1)))
  {
    var r := w.calls[n].request;
    FindConcat(w.rows, more, r.scope, r.key);
  }

  /** A call's store steps, with other callers' rows landing in between, add up
      to the sequential `record`. `w2` and `w4` are whatever the world has
      become by the time the call moves on. */
  lemma StepsAddUpToRecord(w: World, n: nat, meanwhile: seq<EvidenceRecord>, w2: World, more: seq<EvidenceRecord>,
                           w4: World, id: string, recordedAt: int)
    requires n in w.calls && w.calls[n].pc == Finding && Normalized(w.calls[n].request) == w.calls[n].request
    requires n in w2.calls && w2.calls[n] == Validated(LookUp(w.rows, w.calls[n], Inserting))
    requires w2.rows == w.rows + meanwhile
    requires var w3 := AdvanceCall(w2, n, Fine, true, id, recordedAt);
             n in w4.calls && w4.calls[n] == w3.calls[n] && w4.rows == w3.rows + more
    ensures var record := RecordAmid(w.rows, w.calls[n].request, meanwhile, id, recordedAt);
            && AdvanceCall(w4, n, Fine, true, id, recordedAt).calls[n].pc == Done(record.1)
            && (w2.calls[n].pc == Inserting ==> AdvanceCall(w2, n, Fine, true, id, recordedAt).rows == record.0)
  {
    FindStage(w.rows, w.calls[n], meanwhile, id, recordedAt);
    if w2.calls[n].pc == Inserting { InsertStage(w2, n, id, recordedAt, more); }
  }
}
