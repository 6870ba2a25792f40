/** Exactly when the order of a request's three lists can be seen in what the
    compiler answers. */
module PacketOrder {
  import opened Common
  import opened ContextPackets
  import opened ContextPacketCompiler
  import opened PacketCompilerTheorems
  import opened ScanOrder
  import StableSort

  // ------------------------------------------------ the three scans as rules

  /** What a mandatory candidate is refused for on its own account. */
  function OwnMandatory(c: Candidate, issuedAt: i64): Option<CompilerError> {
    match ValidateCandidate(c, true, issuedAt)
    case Fail(e) => Some(e)
    case Pass =>
      match CheckEnvelopeSlot(c)
      case Err(e) => Some(e)
      case Ok(_) => None
  }

  function OwnOptional(c: Candidate, issuedAt: i64): Option<CompilerError> {
    match ValidateCandidate(c, false, issuedAt)
    case Fail(e) => Some(e)
    case Pass => None
  }

  function OwnRejected(r: Rejection): Option<CompilerError> {
    match ValidateRejection(r)
    case Fail(e) => Some(InvalidPacket(e))
    case Pass => None
  }

  function Duplicate(id: string): CompilerError { DuplicateCandidate(id) }

  function MandatoryRules(issuedAt: i64): Rules<Candidate, CompilerError> {
    Rules(ById, CandidateId, c => OwnMandatory(c, issuedAt), Duplicate)
  }

  function OptionalRules(issuedAt: i64): Rules<Candidate, CompilerError> {
    Rules(ByRank, CandidateId, c => OwnOptional(c, issuedAt), Duplicate)
  }

  function RejectedRules(): Rules<Rejection, CompilerError> {
    Rules(RejectedById, RejectionId, OwnRejected, Duplicate)
  }

  lemma RulesAreLawful(issuedAt: i64)
    ensures Lawful(MandatoryRules(issuedAt)) && Lawful(OptionalRules(issuedAt)) && Lawful(RejectedRules())
  {
    OrdersAreTotal();
    forall x: Candidate, y: Candidate | TextLe(x.itemId, y.itemId) && TextLe(y.itemId, x.itemId)
      ensures x.itemId == y.itemId
    {
      TextLeAntisymmetric(x.itemId, y.itemId);
    }
    forall x: Rejection, y: Rejection | TextLe(x.itemId, y.itemId) && TextLe(y.itemId, x.itemId)
      ensures x.itemId == y.itemId
    {
      TextLeAntisymmetric(x.itemId, y.itemId);
    }
  }

  lemma {:induction false} MandatoryScanReports(cs: seq<Candidate>, issuedAt: i64, at: Scan)
    ensures var scan, report := ScanMandatory(cs, issuedAt, at), Report(MandatoryRules(issuedAt), cs, at.ids);
            report == if scan.Err? then Some(scan.error) else None
  {
    if cs != [] && cs[0].itemId !in at.ids && OwnMandatory(cs[0], issuedAt).None? {
      var slot := CheckEnvelopeSlot(cs[0]).value;
      MandatoryScanReports(cs[1..], issuedAt, Scan(at.ids + {cs[0].itemId}, at.slots + {slot}));
    }
  }

  lemma {:induction false} OptionalScanReports(cs: seq<Candidate>, issuedAt: i64, seen: set<string>)
    ensures var scan, report := ScanOptional(cs, issuedAt, seen), Report(OptionalRules(issuedAt), cs, seen);
            report == if scan.Err? then Some(scan.error) else None
  {
    if cs != [] && cs[0].itemId !in seen && OwnOptional(cs[0], issuedAt).None? {
      OptionalScanReports(cs[1..], issuedAt, seen + {cs[0].itemId});
    }
  }

  lemma {:induction false} RejectedScanReports(rs: seq<Rejection>, seen: set<string>)
    ensures var scan, report := ScanRejected(rs, seen), Report(RejectedRules(), rs, seen);
            report == if scan.Fail? then Some(scan.error) else None
  {
    if rs != [] && rs[0].itemId !in seen && OwnRejected(rs[0]).None? {
      RejectedScanReports(rs[1..], seen + {rs[0].itemId});
    }
  }

  // -------------------------------------------------------------- the stages

  /** Every mandatory item is in order, none shares an id, every slot is named. */
  ghost predicate MandatoryPasses(m: seq<Candidate>, issuedAt: i64) {
    && (forall c :: c in m ==> MandatoryOk(c, issuedAt))
    && AllNew({}, Ids(m))
    && (forall r: Requirement :: r in NamedSlots(m))
  }

  ghost predicate OptionalPasses(o: seq<Candidate>, seen: set<string>, issuedAt: i64) {
    (forall c :: c in o ==> OptionalOk(c, issuedAt)) && AllNew(seen, Ids(o))
  }

  ghost function IdSet(cs: seq<Candidate>): set<string> { Elements(Ids(cs)) }

  /** The optional list matters once the mandatory list passes, the rejected list
      once both do. Within a list a tie is seen only if its items' own verdicts
      differ and nothing sorted before it, nor an id seen earlier, has already
      decided the answer. */
  ghost predicate OrderIsSettled(req: Request) {
    var seen := IdSet(req.mandatory);
    && Blind(MandatoryRules(req.issuedAt), req.mandatory, {})
    && (MandatoryPasses(req.mandatory, req.issuedAt) ==>
          && Blind(OptionalRules(req.issuedAt), req.optional, seen)
          && (OptionalPasses(req.optional, seen, req.issuedAt) ==>
                Blind(RejectedRules(), req.rejected, seen + IdSet(req.optional))))
  }

  /** The checks stage by stage, each reported by its own rules. */
  lemma VerdictByStages(m: seq<Candidate>, o: seq<Candidate>, r: seq<Rejection>, issuedAt: i64)
    ensures var first := Report(MandatoryRules(issuedAt), m, {});
            var verdict := Verdict(m, o, r, issuedAt);
            && (first.None? <==> (forall c :: c in m ==> MandatoryOk(c, issuedAt)) && AllNew({}, Ids(m)))
            && (first.Some? ==> verdict == Fail(first.value))
            && (first.None? && !MandatoryPasses(m, issuedAt) ==>
                  verdict.Fail? && verdict == Verdict(m, [], [], issuedAt))
  {
    MandatoryScanReports(m, issuedAt, Scan({}, {}));
    ScanMandatoryMeaning(m, issuedAt, Scan({}, {}));
    assert {} + NamedSlots(m) == NamedSlots(m);
    FirstMissingMeaning(ALL_REQUIREMENTS, NamedSlots(m));
    forall q: Requirement ensures q in ALL_REQUIREMENTS { EveryRequirementListed(q); }
  }

  lemma VerdictPastMandatory(m: seq<Candidate>, o: seq<Candidate>, r: seq<Rejection>, issuedAt: i64)
    requires MandatoryPasses(m, issuedAt)
    ensures var second := Report(OptionalRules(issuedAt), o, IdSet(m));
            var third := Report(RejectedRules(), r, IdSet(m) + IdSet(o));
            && (second.None? <==> OptionalPasses(o, IdSet(m), issuedAt))
            && (second.Some? ==> Verdict(m, o, r, issuedAt) == Fail(second.value))
            && (second.None? ==> Verdict(m, o, r, issuedAt) == if third.Some? then Fail(third.value) else Pass)
  {
    ScanMandatoryMeaning(m, issuedAt, Scan({}, {}));
    assert {} + NamedSlots(m) == NamedSlots(m) && {} + IdSet(m) == IdSet(m);
    FirstMissingMeaning(ALL_REQUIREMENTS, NamedSlots(m));
    OptionalScanReports(o, issuedAt, IdSet(m));
    ScanOptionalMeaning(o, issuedAt, IdSet(m));
    RejectedScanReports(r, IdSet(m) + IdSet(o));
  }

  // ------------------------------------------------------------- reorderings

  lemma IdSetPermutes(a: seq<Candidate>, b: seq<Candidate>)
    requires multiset(a) == multiset(b)
    ensures IdSet(a) == IdSet(b)
  {
    IdsPermute(a, b);
    forall x ensures x in IdSet(a) <==> x in IdSet(b) {
      assert x in multiset(Ids(a)) <==> x in multiset(Ids(b));
    }
  }

  lemma DistinctPermutes(a: seq<Candidate>, b: seq<Candidate>, seen: set<string>)
    requires multiset(a) == multiset(b) && AllNew(seen, Ids(a))
    ensures AllNew(seen, Ids(b))
  {
    IdsPermute(a, b);
    AllNewTail({}, seen, Ids(a));
    AllNewIsMultiplicity(Ids(a));
    AllNewIsMultiplicity(Ids(b));
    forall i | 0 <= i < |Ids(b)| ensures Ids(b)[i] !in seen {
      assert Ids(b)[i] in multiset(Ids(a));
    }
  }

  lemma SameMembers<T>(a: seq<T>, b: seq<T>)
    requires multiset(a) == multiset(b)
    ensures forall x :: x in a <==> x in b
  {
    forall x ensures x in a <==> x in b { assert x in multiset(a) <==> x in multiset(b); }
  }

  lemma MandatoryPassesPermutes(a: seq<Candidate>, b: seq<Candidate>, issuedAt: i64)
    requires multiset(a) == multiset(b) && MandatoryPasses(a, issuedAt)
    ensures MandatoryPasses(b, issuedAt)
  {
    SameMembers(a, b);
    DistinctPermutes(a, b, {});
    assert NamedSlots(a) == NamedSlots(b);
  }

  lemma OptionalPassesPermutes(a: seq<Candidate>, b: seq<Candidate>, seen: set<string>, issuedAt: i64)
    requires multiset(a) == multiset(b) && OptionalPasses(a, seen, issuedAt)
    ensures OptionalPasses(b, seen, issuedAt)
  {
    SameMembers(a, b);
    DistinctPermutes(a, b, seen);
  }

  /** Distinct ids leave only one sorted mandatory list. */
  lemma PassedMandatoryIsOneList(a: seq<Candidate>, b: seq<Candidate>)
    requires multiset(a) == multiset(b) && AllNew({}, Ids(SortMandatory(a)))
    ensures SortMandatory(a) == SortMandatory(b)
  {
    StableSort.SortPermutes(a, ById);
    DistinctPermutes(SortMandatory(a), a, {});
    DistinctIdsDistinguish(a);
    SameMandatoryOrder(a, b);
  }

  ghost function SortedVerdict(req: Request): Outcome<CompilerError> {
    Verdict(SortMandatory(req.mandatory), RankOptional(req.optional), SortRejected(req.rejected), req.issuedAt)
  }

  /** A failed check is the compiler's answer. */
  lemma RefusedWhereChecked(hash: PacketHash, req: Request)
    requires SortedVerdict(req).Fail?
    ensures Compile(hash, req) == Err(SortedVerdict(req).error)
  {}

  // --------------------------------------------------------- it is sufficient

  lemma SameMandatoryStage(a: Request, b: Request)
    requires Reordered(a, b) && OrderIsSettled(a)
    ensures var m := SortMandatory(a.mandatory);
            && Report(MandatoryRules(a.issuedAt), SortMandatory(b.mandatory), {}) ==
               Report(MandatoryRules(a.issuedAt), m, {})
            && (Report(MandatoryRules(a.issuedAt), m, {}).None? ==> SortMandatory(b.mandatory) == m)
  {
    RulesAreLawful(a.issuedAt);
    SortedReports(MandatoryRules(a.issuedAt), a.mandatory, b.mandatory, {});
    VerdictByStages(SortMandatory(a.mandatory), [], [], a.issuedAt);
    if Report(MandatoryRules(a.issuedAt), SortMandatory(a.mandatory), {}).None? {
      PassedMandatoryIsOneList(a.mandatory, b.mandatory);
    }
  }

  lemma SameOptionalStage(a: Request, b: Request)
    requires Reordered(a, b) && OrderIsSettled(a) && MandatoryPasses(SortMandatory(a.mandatory), a.issuedAt)
    ensures var seen := IdSet(SortMandatory(a.mandatory));
            && Report(OptionalRules(a.issuedAt), RankOptional(b.optional), seen) ==
               Report(OptionalRules(a.issuedAt), RankOptional(a.optional), seen)
            && IdSet(RankOptional(b.optional)) == IdSet(RankOptional(a.optional))
            && (OptionalPasses(RankOptional(a.optional), seen, a.issuedAt) ==>
                  Report(RejectedRules(), SortRejected(b.rejected), seen + IdSet(RankOptional(a.optional))) ==
                  Report(RejectedRules(), SortRejected(a.rejected), seen + IdSet(RankOptional(a.optional))))
  {
    var seen := IdSet(SortMandatory(a.mandatory));
    RulesAreLawful(a.issuedAt);
    StableSort.SortPermutes(a.mandatory, ById);
    StableSort.SortPermutes(a.optional, ByRank);
    StableSort.SortPermutes(b.optional, ByRank);
    MandatoryPassesPermutes(SortMandatory(a.mandatory), a.mandatory, a.issuedAt);
    IdSetPermutes(SortMandatory(a.mandatory), a.mandatory);
    IdSetPermutes(RankOptional(a.optional), a.optional);
    IdSetPermutes(RankOptional(a.optional), RankOptional(b.optional));
    SortedReports(OptionalRules(a.issuedAt), a.optional, b.optional, seen);
    if OptionalPasses(RankOptional(a.optional), seen, a.issuedAt) {
      OptionalPassesPermutes(RankOptional(a.optional), a.optional, seen, a.issuedAt);
      SortedReports(RejectedRules(), a.rejected, b.rejected, seen + IdSet(a.optional));
    }
  }

  lemma SameVerdict(a: Request, b: Request)
    requires Reordered(a, b) && OrderIsSettled(a)
    ensures SortedVerdict(b) == SortedVerdict(a)
  {
    var m, o, r := SortMandatory(a.mandatory), RankOptional(a.optional), SortRejected(a.rejected);
    var m', o', r' := SortMandatory(b.mandatory), RankOptional(b.optional), SortRejected(b.rejected);
    SameMandatoryStage(a, b);
    VerdictByStages(m, o, r, a.issuedAt);
    VerdictByStages(m', o', r', a.issuedAt);
    if MandatoryPasses(m, a.issuedAt) {
      SameOptionalStage(a, b);
      VerdictPastMandatory(m, o, r, a.issuedAt);
      VerdictPastMandatory(m, o', r', a.issuedAt);
    }
  }

  lemma AcceptedTiesAreEqual(req: Request)
    requires SortedVerdict(req).Pass?
    ensures TiesAreEqual(req)
  {
    SortKeepsCandidatesOk(req);
    VerdictMeaning(SortMandatory(req.mandatory), RankOptional(req.optional), SortRejected(req.rejected), req.issuedAt);
    AcceptedIdsAreDistinct(req);
  }

  lemma SettledOrderIsIrrelevant(hash: PacketHash, a: Request, b: Request)
    requires Reordered(a, b) && OrderIsSettled(a)
    ensures Compile(hash, b) == Compile(hash, a)
  {
    SameVerdict(a, b);
    if SortedVerdict(a).Fail? {
      RefusedWhereChecked(hash, a);
      RefusedWhereChecked(hash, b);
    } else {
      AcceptedTiesAreEqual(a);
      EqualTiesMakeOrderIrrelevant(hash, a, b);
    }
  }

  // ---------------------------------------------------------- it is necessary

  /** Two reorderings the compiler answers differently. */
  ghost predicate Tells(hash: PacketHash, a: Request, b: Request, c: Request) {
    Reordered(a, b) && Reordered(a, c) && Compile(hash, b) != Compile(hash, c)
  }

  lemma MandatoryOrderTells(hash: PacketHash, a: Request) returns (b: Request, c: Request)
    requires !Blind(MandatoryRules(a.issuedAt), a.mandatory, {})
    ensures Tells(hash, a, b, c)
  {
    var k := MandatoryRules(a.issuedAt);
    RulesAreLawful(a.issuedAt);
    var t, u := BlindIsNecessary(k, a.mandatory, {});
    b, c := a.(mandatory := t), a.(mandatory := u);
    VerdictByStages(SortMandatory(t), RankOptional(a.optional), SortRejected(a.rejected), a.issuedAt);
    VerdictByStages(SortMandatory(u), RankOptional(a.optional), SortRejected(a.rejected), a.issuedAt);
    RefusedWhereChecked(hash, b);
    RefusedWhereChecked(hash, c);
  }

  /** The mandatory list as sorted: it passes, under the same ids. */
  lemma SortedMandatoryPasses(a: Request)
    requires MandatoryPasses(a.mandatory, a.issuedAt)
    ensures MandatoryPasses(SortMandatory(a.mandatory), a.issuedAt)
    ensures IdSet(SortMandatory(a.mandatory)) == IdSet(a.mandatory)
  {
    StableSort.SortPermutes(a.mandatory, ById);
    MandatoryPassesPermutes(a.mandatory, SortMandatory(a.mandatory), a.issuedAt);
    IdSetPermutes(a.mandatory, SortMandatory(a.mandatory));
  }

  lemma OptionalOrderTells(hash: PacketHash, a: Request) returns (b: Request, c: Request)
    requires MandatoryPasses(a.mandatory, a.issuedAt)
    requires !Blind(OptionalRules(a.issuedAt), a.optional, IdSet(a.mandatory))
    ensures Tells(hash, a, b, c)
  {
    var m, r := SortMandatory(a.mandatory), SortRejected(a.rejected);
    RulesAreLawful(a.issuedAt);
    var t, u := BlindIsNecessary(OptionalRules(a.issuedAt), a.optional, IdSet(a.mandatory));
    b, c := a.(optional := t), a.(optional := u);
    SortedMandatoryPasses(a);
    VerdictPastMandatory(m, RankOptional(t), r, a.issuedAt);
    VerdictPastMandatory(m, RankOptional(u), r, a.issuedAt);
    RefusedWhereChecked(hash, b);
    RefusedWhereChecked(hash, c);
  }

  lemma RejectedOrderTells(hash: PacketHash, a: Request) returns (b: Request, c: Request)
    requires MandatoryPasses(a.mandatory, a.issuedAt)
    requires OptionalPasses(a.optional, IdSet(a.mandatory), a.issuedAt)
    requires !Blind(RejectedRules(), a.rejected, IdSet(a.mandatory) + IdSet(a.optional))
    ensures Tells(hash, a, b, c)
  {
    var m, o := SortMandatory(a.mandatory), RankOptional(a.optional);
    RulesAreLawful(a.issuedAt);
    var t, u := BlindIsNecessary(RejectedRules(), a.rejected, IdSet(a.mandatory) + IdSet(a.optional));
    b, c := a.(rejected := t), a.(rejected := u);
    SortedMandatoryPasses(a);
    StableSort.SortPermutes(a.optional, ByRank);
    IdSetPermutes(a.optional, o);
    OptionalPassesPermutes(a.optional, o, IdSet(a.mandatory), a.issuedAt);
    VerdictPastMandatory(m, o, SortRejected(t), a.issuedAt);
    VerdictPastMandatory(m, o, SortRejected(u), a.issuedAt);
    RefusedWhereChecked(hash, b);
    RefusedWhereChecked(hash, c);
  }

  /** Every reordering of a request gets the identical answer, packet or error,
      exactly when each tie between items with different verdicts of their own
      is settled before it is reached. */
  lemma OrderIsIrrelevantExactlyWhen(hash: PacketHash, a: Request)
    ensures (forall b | Reordered(a, b) :: Compile(hash, b) == Compile(hash, a)) <==> OrderIsSettled(a)
  {
    if OrderIsSettled(a) {
      forall b | Reordered(a, b) ensures Compile(hash, b) == Compile(hash, a) { SettledOrderIsIrrelevant(hash, a, b); }
    } else {
      var b, c := UnsettledOrderTells(hash, a);
      assert Compile(hash, b) != Compile(hash, a) || Compile(hash, c) != Compile(hash, a);
    }
  }

  lemma UnsettledOrderTells(hash: PacketHash, a: Request) returns (b: Request, c: Request)
    requires !OrderIsSettled(a)
    ensures Tells(hash, a, b, c)
  {
    if !Blind(MandatoryRules(a.issuedAt), a.mandatory, {}) {
      b, c := MandatoryOrderTells(hash, a);
    } else if !Blind(OptionalRules(a.issuedAt), a.optional, IdSet(a.mandatory)) {
      b, c := OptionalOrderTells(hash, a);
    } else {
      b, c := RejectedOrderTells(hash, a);
    }
  }
}
