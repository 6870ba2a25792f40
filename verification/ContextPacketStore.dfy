/** Durable packets and use receipts
    (crates/ackplane-server/src/context_packet_store.rs). A packet's payload
    serializes and digests ideally: equal bytes, equal digests and equal packets
    coincide, so the payload column is the packet itself. */
module ContextPacketStore {
  import opened Common
  import opened ContextPackets

  // ---------------------------------------------------------------- codecs

  datatype UseStatus = Received | Accepted | AppliedToPlanning | SupersededUse | Refused | ExpiredUse

  datatype UseReason = SupersededBy | UnsupportedVersion | OutOfScopeUse | IntegrityMismatch | PolicyChanged

  function StatusText(s: UseStatus): string {
    match s
    case Received => "received"
    case Accepted => "accepted"
    case AppliedToPlanning => "applied_to_planning"
    case SupersededUse => "superseded"
    case Refused => "refused"
    case ExpiredUse => "expired"
  }

  function ParseStatus(t: string): Option<UseStatus> {
    if t == "received" then Some(Received)
    else if t == "accepted" then Some(Accepted)
    else if t == "applied_to_planning" then Some(AppliedToPlanning)
    else if t == "superseded" then Some(SupersededUse)
    else if t == "refused" then Some(Refused)
    else if t == "expired" then Some(ExpiredUse)
    else None
  }

  function ReasonText(r: UseReason): string {
    match r
    case SupersededBy => "superseded"
    case UnsupportedVersion => "unsupported_version"
    case OutOfScopeUse => "out_of_scope"
    case IntegrityMismatch => "integrity_mismatch"
    case PolicyChanged => "policy_changed"
  }

  function ParseReason(t: string): Option<UseReason> {
    if t == "superseded" then Some(SupersededBy)
    else if t == "unsupported_version" then Some(UnsupportedVersion)
    else if t == "out_of_scope" then Some(OutOfScopeUse)
    else if t == "integrity_mismatch" then Some(IntegrityMismatch)
    else if t == "policy_changed" then Some(PolicyChanged)
    else None
  }

  lemma StatusRoundTrip(s: UseStatus, t: string)
    ensures ParseStatus(StatusText(s)) == Some(s)
    ensures ParseStatus(t).Some? ==> StatusText(ParseStatus(t).value) == t
  {
    assert "received"[0] != "accepted"[0] && "refused"[0] != "expired"[0];
  }

  lemma ReasonRoundTrip(r: UseReason, t: string)
    ensures ParseReason(ReasonText(r)) == Some(r)
    ensures ParseReason(t).Some? ==> ReasonText(ParseReason(t).value) == t
  {}

  // ---------------------------------------------------------------- tables

  datatype UseReceipt = UseReceipt(packetId: string, scope: PacketScope, occurredAt: i64, status: UseStatus,
                                   reason: Option<UseReason>)

  datatype PacketKey = PacketKey(tenantId: string, repositoryId: string, packetId: string)

  datatype PacketRow = PacketRow(taskId: string, goalId: string, agentSessionId: string, payload: Packet,
                                 payloadDigest: Packet)

  datatype ReceiptRow = ReceiptRow(key: PacketKey, status: string, reason: Option<string>, occurredAt: i64)

  /** Receipt rows stand in `receipt_id` order. */
  datatype Tables = Tables(packets: map<PacketKey, PacketRow>, receipts: seq<ReceiptRow>)

  const EMPTY: Tables := Tables(map[], [])

  datatype StoreError =
    | DatabaseError | Invalid | ImmutabilityViolation | UnknownPacket | ScopeMismatch
    | UnknownUseStatus | UnknownUseReason | CorruptPayload

  function KeyOf(p: Packet): PacketKey { PacketKey(p.scope.tenantId, p.scope.repositoryId, p.packetId) }

  function RowOf(p: Packet): PacketRow { PacketRow(p.scope.taskId, p.scope.goalId, p.scope.agentSessionId, p, p) }

  /** `store_packet`. `raced` is the case where another writer's row appeared
      after this transaction's lookup: the primary key then refuses the insert,
      whatever the content. */
  function StorePacket(hash: PacketHash, t: Tables, p: Packet, raced: bool): (Tables, Outcome<StoreError>) {
    if ValidatePacket(hash, p).Fail? then (t, Fail(Invalid))
    else if KeyOf(p) in t.packets then
      (t, if raced then Fail(DatabaseError)
          else if t.packets[KeyOf(p)].payloadDigest == p then Pass
          else Fail(ImmutabilityViolation))
    else (t.(packets := t.packets[KeyOf(p) := RowOf(p)]), Pass)
  }

  function GetPacket(hash: PacketHash, t: Tables, key: PacketKey): Result<Option<Packet>, StoreError> {
    if key !in t.packets then Ok(None)
    else
      var row := t.packets[key];
      if row.payload != row.payloadDigest then Err(CorruptPayload)
      else if ValidatePacket(hash, row.payload).Fail? then Err(CorruptPayload)
      else if KeyOf(row.payload) != key then Err(CorruptPayload)
      else Ok(Some(row.payload))
  }

  function ReceiptKey(r: UseReceipt): PacketKey { PacketKey(r.scope.tenantId, r.scope.repositoryId, r.packetId) }

  function ReceiptRowOf(r: UseReceipt): ReceiptRow {
    ReceiptRow(ReceiptKey(r), StatusText(r.status),
               if r.reason.Some? then Some(ReasonText(r.reason.value)) else None, r.occurredAt)
  }

  predicate ReceiptValid(r: UseReceipt) { !Blank(r.packetId) && ValidateScope(r.scope).Pass? }

  /** `record_use`: known packet, same scope, and no identical row yet. */
  function RecordUse(t: Tables, r: UseReceipt): (Tables, Outcome<StoreError>) {
    if !ReceiptValid(r) then (t, Fail(Invalid))
    else if ReceiptKey(r) !in t.packets then (t, Fail(UnknownPacket))
    else
      var row := t.packets[ReceiptKey(r)];
      if row.taskId != r.scope.taskId || row.goalId != r.scope.goalId || row.agentSessionId != r.scope.agentSessionId
      then (t, Fail(ScopeMismatch))
      else if ReceiptRowOf(r) in t.receipts then (t, Pass)
      else (t.(receipts := t.receipts + [ReceiptRowOf(r)]), Pass)
  }

  /** One joined row read back. */
  function ReceiptFrom(t: Tables, row: ReceiptRow): Result<UseReceipt, StoreError>
    requires row.key in t.packets
  {
    var p := t.packets[row.key];
    var scope := PacketScope(row.key.tenantId, row.key.repositoryId, p.taskId, p.goalId, p.agentSessionId);
    match ParseStatus(row.status)
    case None => Err(UnknownUseStatus)
    case Some(status) =>
      if row.reason.None? then Ok(UseReceipt(row.key.packetId, scope, row.occurredAt, status, None))
      else match ParseReason(row.reason.value)
        case None => Err(UnknownUseReason)
        case Some(reason) => Ok(UseReceipt(row.key.packetId, scope, row.occurredAt, status, Some(reason)))
  }

  /** `list_use_receipts`: the rows of one packet in order, stopping at the
      first unreadable one. The join drops rows without a packet. */
  function ListReceipts(t: Tables, rows: seq<ReceiptRow>, key: PacketKey): Result<seq<UseReceipt>, StoreError> {
    if rows == [] then Ok([])
    else
      var last := rows[|rows| - 1];
      match ListReceipts(t, rows[..|rows| - 1], key)
      case Err(e) => Err(e)
      case Ok(earlier) =>
        if last.key != key || key !in t.packets then Ok(earlier)
        else match ReceiptFrom(t, last)
          case Err(e) => Err(e)
          case Ok(r) => Ok(earlier + [r])
  }

  class ContextPacketStore {
    var tables: Tables
    const hash: PacketHash

    constructor (hash: PacketHash)
      ensures tables == EMPTY && this.hash == hash
    {
      this.hash, tables := hash, EMPTY;
    }

    method Store(p: Packet, raced: bool) returns (outcome: Outcome<StoreError>)
      modifies this
      ensures (tables, outcome) == StorePacket(hash, old(tables), p, raced)
      ensures outcome.Pass? ==> KeyOf(p) in tables.packets && tables.packets[KeyOf(p)].payloadDigest == p
      ensures forall k :: k in old(tables).packets ==>
                k in tables.packets && tables.packets[k] == old(tables).packets[k]
      ensures outcome.Fail? ==> tables == old(tables)
    {
      if ValidatePacket(hash, p).Fail? { return Fail(Invalid); }
      if KeyOf(p) in tables.packets {
        if raced { return Fail(DatabaseError); }
        if tables.packets[KeyOf(p)].payloadDigest == p { return Pass; }
        return Fail(ImmutabilityViolation);
      }
      tables := tables.(packets := tables.packets[KeyOf(p) := RowOf(p)]);
      return Pass;
    }

    method Record(r: UseReceipt) returns (outcome: Outcome<StoreError>)
      modifies this
      ensures (tables, outcome) == RecordUse(old(tables), r)
      ensures tables.packets == old(tables).packets && old(tables).receipts <= tables.receipts
      ensures outcome.Pass? ==> ReceiptKey(r) in tables.packets && ReceiptRowOf(r) in tables.receipts
      ensures outcome.Fail? ==> tables == old(tables)
    {
      if !ReceiptValid(r) { return Fail(Invalid); }
      if ReceiptKey(r) !in tables.packets { return Fail(UnknownPacket); }
      var row := tables.packets[ReceiptKey(r)];
      if row.taskId != r.scope.taskId || row.goalId != r.scope.goalId || row.agentSessionId != r.scope.agentSessionId {
        return Fail(ScopeMismatch);
      }
      var written := ReceiptRowOf(r);
      if written !in tables.receipts { tables := tables.(receipts := tables.receipts + [written]); }
      return Pass;
    }

    /** The loop over the joined rows. */
    method List(key: PacketKey) returns (r: Result<seq<UseReceipt>, StoreError>)
      ensures r == ListReceipts(tables, tables.receipts, key)
    {
      var rows := tables.receipts;
      var receipts: seq<UseReceipt> := [];
      var i := 0;
      while i < |rows|
        invariant 0 <= i <= |rows|
        invariant ListReceipts(tables, rows[..i], key) == Ok(receipts)
      {
        assert rows[..i + 1][..i] == rows[..i];
        if rows[i].key == key && key in tables.packets {
          var receipt := ReceiptFrom(tables, rows[i]);
          if receipt.Err? {
            ListStops(tables, rows, i + 1, key);
            return Err(receipt.error);
          }
          receipts := receipts + [receipt.value];
        }
        i := i + 1;
      }
      assert rows[..i] == rows;
      return Ok(receipts);
    }
  }

  /** Once a row is unreadable, so is every longer list. */
  lemma {:induction false} ListStops(t: Tables, rows: seq<ReceiptRow>, n: nat, key: PacketKey)
    requires n <= |rows| && ListReceipts(t, rows[..n], key).Err?
    ensures ListReceipts(t, rows, key) == ListReceipts(t, rows[..n], key)
    decreases |rows|
  {
    if n == |rows| {
      assert rows[..n] == rows;
    } else {
      assert rows[..|rows| - 1][..n] == rows[..n];
      ListStops(t, rows[..|rows| - 1], n, key);
    }
  }

  // ----------------------------------------------------------------- the runs

  datatype Operation = DoStore(packet: Packet, raced: bool) | DoRecord(receipt: UseReceipt)

  function Step(hash: PacketHash, t: Tables, op: Operation): (Tables, Outcome<StoreError>) {
    match op
    case DoStore(p, raced) => StorePacket(hash, t, p, raced)
    case DoRecord(r) => RecordUse(t, r)
  }

  function Run(hash: PacketHash, t: Tables, ops: seq<Operation>): Tables
    decreases |ops|
  {
    if ops == [] then t else Run(hash, Step(hash, t, ops[0]).0, ops[1..])
  }

  /** The report this operation adds for one packet, if it is accepted. */
  function Reported(t: Tables, op: Operation, key: PacketKey): seq<UseReceipt> {
    if op.DoRecord? && ReceiptKey(op.receipt) == key && RecordUse(t, op.receipt).1.Pass? then [op.receipt] else []
  }

  /** The reports accepted for one packet, in order, repeats included. */
  function AcceptedReports(hash: PacketHash, t: Tables, ops: seq<Operation>, key: PacketKey): seq<UseReceipt>
    decreases |ops|
  {
    if ops == [] then []
    else Reported(t, ops[0], key) + AcceptedReports(hash, Step(hash, t, ops[0]).0, ops[1..], key)
  }

  /** The reports not already among `seen`, each once, in first-report order. */
  function AddNew(seen: seq<UseReceipt>, reports: seq<UseReceipt>): seq<UseReceipt>
    decreases |reports|
  {
    if reports == [] then seen
    else AddNew(if reports[0] in seen then seen else seen + [reports[0]], reports[1..])
  }

  // ------------------------------------------------------------ the invariant

  predicate RowOk(hash: PacketHash, t: Tables, key: PacketKey)
    requires key in t.packets
  {
    var row := t.packets[key];
    KeyOf(row.payload) == key && row == RowOf(row.payload) && ValidatePacket(hash, row.payload).Pass?
  }

  predicate Consistent(hash: PacketHash, t: Tables) {
    forall key :: key in t.packets ==> RowOk(hash, t, key)
  }

  predicate Readable(t: Tables, row: ReceiptRow) {
    row.key in t.packets && ReceiptFrom(t, row).Ok? && ReceiptRowOf(ReceiptFrom(t, row).value) == row
  }

  predicate ReceiptsOk(t: Tables) {
    forall i :: 0 <= i < |t.receipts| ==> Readable(t, t.receipts[i])
  }

  /** What was accepted reads back as it was. */
  lemma ReceiptReadsBack(t: Tables, r: UseReceipt)
    requires RecordUse(t, r).1.Pass?
    ensures ReceiptKey(r) in t.packets && ReceiptFrom(t, ReceiptRowOf(r)) == Ok(r)
  {
    StatusRoundTrip(r.status, "");
    if r.reason.Some? { ReasonRoundTrip(r.reason.value, ""); }
  }

  lemma StoreKeeps(hash: PacketHash, t: Tables, p: Packet, raced: bool)
    requires Consistent(hash, t) && ReceiptsOk(t)
    ensures Consistent(hash, StorePacket(hash, t, p, raced).0) && ReceiptsOk(StorePacket(hash, t, p, raced).0)
  {
    var t' := StorePacket(hash, t, p, raced).0;
    forall key | key in t'.packets ensures RowOk(hash, t', key) {
      if key in t.packets { assert RowOk(hash, t, key); }
    }
    forall i | 0 <= i < |t'.receipts| ensures Readable(t', t'.receipts[i]) { assert Readable(t, t.receipts[i]); }
  }

  lemma RecordCases(t: Tables, r: UseReceipt)
    ensures var (t', outcome) := RecordUse(t, r);
            && t'.packets == t.packets
            && (t'.receipts == t.receipts || (outcome.Pass? && t'.receipts == t.receipts + [ReceiptRowOf(r)]))
            && (outcome.Fail? ==> t' == t)
  {}

  lemma RecordKeeps(hash: PacketHash, t: Tables, r: UseReceipt)
    requires Consistent(hash, t) && ReceiptsOk(t)
    ensures Consistent(hash, RecordUse(t, r).0) && ReceiptsOk(RecordUse(t, r).0)
  {
    var (t', outcome) := RecordUse(t, r);
    RecordCases(t, r);
    SamePackets(hash, t, t');
    if outcome.Pass? {
      ReceiptReadsBack(t, r);
      assert Readable(t, ReceiptRowOf(r));
    }
    forall i | 0 <= i < |t'.receipts| ensures Readable(t', t'.receipts[i]) {
      if i < |t.receipts| { assert Readable(t, t.receipts[i]); }
      SameReading(t, t', t'.receipts[i]);
    }
  }

  lemma SamePackets(hash: PacketHash, t: Tables, t': Tables)
    requires Consistent(hash, t) && t'.packets == t.packets
    ensures Consistent(hash, t')
  {
    forall key | key in t'.packets ensures RowOk(hash, t', key) { assert RowOk(hash, t, key); }
  }

  lemma SameReading(t: Tables, t': Tables, row: ReceiptRow)
    requires t'.packets == t.packets
    ensures Readable(t', row) == Readable(t, row)
  {}

  lemma StepKeeps(hash: PacketHash, t: Tables, op: Operation)
    requires Consistent(hash, t) && ReceiptsOk(t)
    ensures Consistent(hash, Step(hash, t, op).0) && ReceiptsOk(Step(hash, t, op).0)
  {
    match op
    case DoStore(p, raced) => StoreKeeps(hash, t, p, raced);
    case DoRecord(r) => RecordKeeps(hash, t, r);
  }

  lemma {:induction false} RunKeeps(hash: PacketHash, t: Tables, ops: seq<Operation>)
    requires Consistent(hash, t) && ReceiptsOk(t)
    ensures Consistent(hash, Run(hash, t, ops)) && ReceiptsOk(Run(hash, t, ops))
    decreases |ops|
  {
    if ops != [] {
      StepKeeps(hash, t, ops[0]);
      RunKeeps(hash, Step(hash, t, ops[0]).0, ops[1..]);
    }
  }

  /** Rows stay as they were first written. */
  lemma {:induction false} PacketsAreImmutable(hash: PacketHash, t: Tables, ops: seq<Operation>, key: PacketKey)
    requires key in t.packets
    ensures key in Run(hash, t, ops).packets && Run(hash, t, ops).packets[key] == t.packets[key]
    decreases |ops|
  {
    if ops != [] { PacketsAreImmutable(hash, Step(hash, t, ops[0]).0, ops[1..], key); }
  }

  /** A packet once stored reads back, after any run, as what was first stored,
      never as a corrupt payload. */
  lemma StoredPacketReadsBack(hash: PacketHash, before: seq<Operation>, p: Packet, raced: bool, after: seq<Operation>)
    requires StorePacket(hash, Run(hash, EMPTY, before), p, raced).1.Pass?
    ensures var t := StorePacket(hash, Run(hash, EMPTY, before), p, raced).0;
            GetPacket(hash, Run(hash, t, after), KeyOf(p)) == Ok(Some(p))
  {
    var t0 := Run(hash, EMPTY, before);
    RunKeeps(hash, EMPTY, before);
    StoreKeeps(hash, t0, p, raced);
    var t := StorePacket(hash, t0, p, raced).0;
    assert RowOk(hash, t, KeyOf(p));
    PacketsAreImmutable(hash, t, after, KeyOf(p));
  }

  /** Reading never fails on a reachable state, known key or not. */
  lemma ReadsNeverFail(hash: PacketHash, ops: seq<Operation>, key: PacketKey)
    ensures GetPacket(hash, Run(hash, EMPTY, ops), key).Ok?
  {
    RunKeeps(hash, EMPTY, ops);
    var t := Run(hash, EMPTY, ops);
    if key in t.packets { assert RowOk(hash, t, key); }
  }

  // -------------------------------------------------------- receipt history

  lemma ListOfAppended(t: Tables, rows: seq<ReceiptRow>, row: ReceiptRow, key: PacketKey)
    ensures ListReceipts(t, rows + [row], key) ==
            match ListReceipts(t, rows, key)
            case Err(e) => Err(e)
            case Ok(earlier) =>
              if row.key != key || key !in t.packets then Ok(earlier)
              else match ReceiptFrom(t, row) case Err(e) => Err(e) case Ok(r) => Ok(earlier + [r])
  {
    assert (rows + [row])[..|rows|] == rows;
  }

  /** The list is exactly the readable rows of this packet: every member stems
      from a row, and every row of the packet shows up. */
  lemma {:induction false} ListMeaning(t: Tables, rows: seq<ReceiptRow>, key: PacketKey)
    requires forall i :: 0 <= i < |rows| ==> Readable(t, rows[i])
    ensures ListReceipts(t, rows, key).Ok?
    ensures forall r :: r in ListReceipts(t, rows, key).value <==>
                        ReceiptKey(r) == key && key in t.packets && ReceiptRowOf(r) in rows
                        && ReceiptFrom(t, ReceiptRowOf(r)) == Ok(r)
  {
    if rows != [] {
      var init, last := rows[..|rows| - 1], rows[|rows| - 1];
      ListMeaning(t, init, key);
      assert rows == init + [last];
      assert Readable(t, last);
      var earlier := ListReceipts(t, init, key).value;
      forall r ensures r in ListReceipts(t, rows, key).value <==>
                       ReceiptKey(r) == key && key in t.packets && ReceiptRowOf(r) in rows
                        && ReceiptFrom(t, ReceiptRowOf(r)) == Ok(r)
      {
        assert ReceiptRowOf(r) in rows <==> ReceiptRowOf(r) in init || ReceiptRowOf(r) == last;
      }
    }
  }

  lemma {:induction false} ListIgnoresNewPackets(t: Tables, t': Tables, rows: seq<ReceiptRow>, key: PacketKey)
    requires forall i :: 0 <= i < |rows| ==> Readable(t, rows[i])
    requires forall k :: k in t.packets ==> k in t'.packets && t'.packets[k] == t.packets[k]
    ensures ListReceipts(t', rows, key) == ListReceipts(t, rows, key)
  {
    if rows != [] {
      assert Readable(t, rows[|rows| - 1]);
      ListIgnoresNewPackets(t, t', rows[..|rows| - 1], key);
    }
  }

  function Listed(t: Tables, key: PacketKey): seq<UseReceipt>
  {
    match ListReceipts(t, t.receipts, key)
    case Ok(receipts) => receipts
    case Err(_) => []
  }

  lemma RecordLists(t: Tables, r: UseReceipt, key: PacketKey)
    requires ReceiptsOk(t) && RecordUse(t, r).1.Pass?
    ensures Listed(RecordUse(t, r).0, key) ==
            if ReceiptKey(r) == key && r !in Listed(t, key) then Listed(t, key) + [r] else Listed(t, key)
  {
    var t', row := RecordUse(t, r).0, ReceiptRowOf(r);
    ReceiptReadsBack(t, r);
    ListMeaning(t, t.receipts, key);
    if row !in t.receipts {
      ListIgnoresNewPackets(t, t', t.receipts, key);
      ListOfAppended(t', t.receipts, row, key);
    }
  }

  lemma StepLists(hash: PacketHash, t: Tables, op: Operation, key: PacketKey)
    requires ReceiptsOk(t)
    ensures Listed(Step(hash, t, op).0, key) == AddNew(Listed(t, key), Reported(t, op, key))
  {
    match op {
      case DoStore(p, raced) => ListIgnoresNewPackets(t, StorePacket(hash, t, p, raced).0, t.receipts, key);
      case DoRecord(r) =>
        RecordCases(t, r);
        if RecordUse(t, r).1.Pass? { RecordLists(t, r, key); }
        assert [r][1..] == [];
    }
  }

  lemma {:induction false} AddNewConcat(seen: seq<UseReceipt>, a: seq<UseReceipt>, b: seq<UseReceipt>)
    ensures AddNew(seen, a + b) == AddNew(AddNew(seen, a), b)
    decreases |a|
  {
    if a == [] {
      assert a + b == b;
    } else {
      assert (a + b)[1..] == a[1..] + b;
      AddNewConcat(if a[0] in seen then seen else seen + [a[0]], a[1..], b);
    }
  }

  /** The receipt history of a packet is the accepted reports in first-report
      order, each kept once. */
  lemma {:induction false} HistoryIsFirstReports(hash: PacketHash, t: Tables, ops: seq<Operation>, key: PacketKey)
    requires Consistent(hash, t) && ReceiptsOk(t)
    ensures Listed(Run(hash, t, ops), key) == AddNew(Listed(t, key), AcceptedReports(hash, t, ops, key))
    decreases |ops|
  {
    if ops != [] {
      var t' := Step(hash, t, ops[0]).0;
      StepKeeps(hash, t, ops[0]);
      StepLists(hash, t, ops[0], key);
      HistoryIsFirstReports(hash, t', ops[1..], key);
      AddNewConcat(Listed(t, key), Reported(t, ops[0], key), AcceptedReports(hash, t', ops[1..], key));
    }
  }

  lemma {:induction false} AddNewIsDistinct(seen: seq<UseReceipt>, reports: seq<UseReceipt>)
    requires AllNew({}, seen)
    ensures AllNew({}, AddNew(seen, reports))
    ensures forall r :: r in AddNew(seen, reports) <==> r in seen || r in reports
    decreases |reports|
  {
    if reports != [] {
      AddNewIsDistinct(if reports[0] in seen then seen else seen + [reports[0]], reports[1..]);
    }
  }

  /** Over any run from an empty store: the listing succeeds, it is free of
      duplicates, it holds exactly the accepted reports, and each carries the
      stored packet's own scope. */
  lemma ReceiptHistory(hash: PacketHash, ops: seq<Operation>, key: PacketKey)
    ensures var t := Run(hash, EMPTY, ops);
            var reports := AcceptedReports(hash, EMPTY, ops, key);
            && ListReceipts(t, t.receipts, key) == Ok(AddNew([], reports))
            && AllNew({}, AddNew([], reports))
            && (forall r :: r in AddNew([], reports) <==> r in reports)
            && (forall r :: r in AddNew([], reports) ==>
                  key in t.packets && r.scope == t.packets[key].payload.scope && r.packetId == key.packetId)
  {
    RunKeeps(hash, EMPTY, ops);
    var t := Run(hash, EMPTY, ops);
    ListMeaning(t, t.receipts, key);
    HistoryIsFirstReports(hash, EMPTY, ops, key);
    var reports := AcceptedReports(hash, EMPTY, ops, key);
    AddNewIsDistinct([], reports);
    forall r | r in AddNew([], reports)
      ensures key in t.packets && r.scope == t.packets[key].payload.scope && r.packetId == key.packetId
    {
      assert r in ListReceipts(t, t.receipts, key).value;
      assert RowOk(hash, t, key);
    }
  }
}
