/** What the packet compiler guarantees, for every request: which requests it
    accepts, what it selects, and that input order is irrelevant. */
module PacketCompilerTheorems {
  import opened Common
  import opened ContextPackets
  import opened ContextPacketCompiler
  import opened Projections
  import StableSort

  // ------------------------------------------- the greedy choice is optimal

  /** `a` beats or equals `b` at the first rank where they differ. */
  predicate LexGe(a: seq<bool>, b: seq<bool>)
    requires |a| == |b|
  {
    a == [] || (a[0] && !b[0]) || (a[0] == b[0] && LexGe(a[1..], b[1..]))
  }

  lemma {:induction false} LexGeAntisymmetric(a: seq<bool>, b: seq<bool>)
    requires |a| == |b| && LexGe(a, b) && LexGe(b, a)
    ensures a == b
  {
    if a != [] {
      LexGeAntisymmetric(a[1..], b[1..]);
      assert a == [a[0]] + a[1..] && b == [b[0]] + b[1..];
    }
  }

  /** Taking the marked candidates on top of `used` stays within the budget. */
  predicate Feasible(ranked: seq<Candidate>, ds: seq<bool>, used: nat, budget: nat) {
    |ds| == |ranked| && used + Tokens(Picked(ranked, ds)) <= budget
  }

  lemma {:induction false} FillIsLexGreatest(ranked: seq<Candidate>, used: u32, budget: u32, ds: seq<bool>)
    requires Fill(ranked, used, budget).Some? && Feasible(ranked, ds, used, budget)
    ensures |Fill(ranked, used, budget).value| == |ds|
    ensures LexGe(Fill(ranked, used, budget).value, ds)
  {
    FillLength(ranked, used, budget);
    if ranked != [] {
      var next := used + ranked[0].estimatedTokens;
      var best := Fill(ranked, used, budget).value;
      PickedCons(ranked, ds);
      TokensCons(ranked[0], Picked(ranked[1..], ds[1..]));
      if best[0] == ds[0] {
        FillIsLexGreatest(ranked[1..], if best[0] then next else used, budget, ds[1..]);
        assert best[1..] == Fill(ranked[1..], if best[0] then next else used, budget).value;
      }
    }
  }

  /** The fill is the one feasible choice that no feasible choice beats. */
  lemma FillIsTheOptimum(ranked: seq<Candidate>, used: u32, budget: u32, ds: seq<bool>)
    requires used <= budget && Fill(ranked, used, budget).Some?
    ensures Fill(ranked, used, budget) == Some(ds) <==>
            && Feasible(ranked, ds, used, budget)
            && forall other | Feasible(ranked, other, used, budget) :: LexGe(ds, other)
  {
    var best := Fill(ranked, used, budget).value;
    FillFits(ranked, used, budget);
    forall other | Feasible(ranked, other, used, budget) ensures LexGe(best, other) {
      FillIsLexGreatest(ranked, used, budget, other);
    }
    if Feasible(ranked, ds, used, budget) && forall other | Feasible(ranked, other, used, budget) :: LexGe(ds, other) {
      assert Feasible(ranked, best, used, budget);
      LexGeAntisymmetric(best, ds);
    }
  }

  // -------------------------------------------------- overflow, exactly

  /** The greedy decisions over unbounded integers. */
  function Greedy(ranked: seq<Candidate>, used: nat, budget: nat): (ds: seq<bool>)
    ensures |ds| == |ranked|
  {
    if ranked == [] then [] else
      var next := used + ranked[0].estimatedTokens;
      [next <= budget] + Greedy(ranked[1..], if next <= budget then next else used, budget)
  }

  /** The total each candidate's addition starts from. */
  function UsedBefore(ranked: seq<Candidate>, used: nat, budget: nat, i: nat): nat
    requires i <= |ranked|
  {
    used + Tokens(Picked(ranked[..i], Greedy(ranked, used, budget)[..i]))
  }

  ghost predicate NoOverflow(ranked: seq<Candidate>, used: nat, budget: nat) {
    forall i :: 0 <= i < |ranked| ==> UsedBefore(ranked, used, budget, i) + ranked[i].estimatedTokens <= U32_MAX
  }

  lemma UsedBeforeShift(ranked: seq<Candidate>, used: nat, budget: nat, i: nat)
    requires 0 < i <= |ranked|
    ensures var next := used + ranked[0].estimatedTokens;
            UsedBefore(ranked, used, budget, i) ==
            UsedBefore(ranked[1..], if next <= budget then next else used, budget, i - 1)
  {
    var ds := Greedy(ranked, used, budget);
    GreedyTail(ranked, used, budget);
    SliceShift(ranked, i);
    SliceShift(ds, i);
    PickedCons(ranked[..i], ds[..i]);
    TokensCons(ranked[0], Picked(ranked[1..][..i - 1], ds[1..][..i - 1]));
  }

  lemma SliceShift<T>(s: seq<T>, i: nat)
    requires 0 < i <= |s|
    ensures s[..i] != [] && s[..i][0] == s[0] && s[..i][1..] == s[1..][..i - 1]
  {}

  lemma GreedyTail(ranked: seq<Candidate>, used: nat, budget: nat)
    requires ranked != []
    ensures var next := used + ranked[0].estimatedTokens;
            var ds := Greedy(ranked, used, budget);
            ds[0] == (next <= budget)
            && ds[1..] == Greedy(ranked[1..], if next <= budget then next else used, budget)
  {}

  lemma NoOverflowCons(ranked: seq<Candidate>, used: nat, budget: nat)
    requires ranked != []
    ensures var next := used + ranked[0].estimatedTokens;
            NoOverflow(ranked, used, budget) <==>
            next <= U32_MAX && NoOverflow(ranked[1..], if next <= budget then next else used, budget)
  {
    var next := used + ranked[0].estimatedTokens;
    var rest := ranked[1..];
    var used' := if next <= budget then next else used;
    assert UsedBefore(ranked, used, budget, 0) == used;
    forall i | 0 < i < |ranked|
      ensures UsedBefore(ranked, used, budget, i) == UsedBefore(rest, used', budget, i - 1)
    {
      UsedBeforeShift(ranked, used, budget, i);
    }
    if next <= U32_MAX && NoOverflow(rest, used', budget) {
      forall i | 0 <= i < |ranked| ensures UsedBefore(ranked, used, budget, i) + ranked[i].estimatedTokens <= U32_MAX {
        if i > 0 { assert rest[i - 1] == ranked[i]; }
      }
    }
    if exists i :: 0 <= i < |rest| && UsedBefore(rest, used', budget, i) + rest[i].estimatedTokens > U32_MAX {
      var i :| 0 <= i < |rest| && UsedBefore(rest, used', budget, i) + rest[i].estimatedTokens > U32_MAX;
      assert UsedBefore(ranked, used, budget, i + 1) == UsedBefore(rest, used', budget, i);
      assert rest[i] == ranked[i + 1];
    }
  }

  lemma {:induction false} FillExactly(ranked: seq<Candidate>, used: u32, budget: u32)
    ensures NoOverflow(ranked, used, budget) ==> Fill(ranked, used, budget) == Some(Greedy(ranked, used, budget))
    ensures !NoOverflow(ranked, used, budget) ==> Fill(ranked, used, budget).None?
  {
    if ranked != [] {
      NoOverflowCons(ranked, used, budget);
      var next := used + ranked[0].estimatedTokens;
      if next <= U32_MAX {
        FillExactly(ranked[1..], if next <= budget then next else used, budget);
      }
    }
  }

  // -------------------------------------------------- accepted candidates

  function CandidateId(c: Candidate): string { c.itemId }
  function RejectionId(r: Rejection): string { r.itemId }

  function Ids(cs: seq<Candidate>): seq<string> {
    seq(|cs|, i requires 0 <= i < |cs| => cs[i].itemId)
  }

  lemma IdsPermute(a: seq<Candidate>, b: seq<Candidate>)
    requires multiset(a) == multiset(b)
    ensures multiset(Ids(a)) == multiset(Ids(b))
  {
    ProjectPermutes(a, b, CandidateId);
    IdsAreProjected(a);
    IdsAreProjected(b);
  }

  lemma IdsAreProjected(cs: seq<Candidate>)
    ensures Ids(cs) == Project(cs, CandidateId)
  {
    var ids, projected := Ids(cs), Project(cs, CandidateId);
    assert |ids| == |cs| == |projected|;
    forall i | 0 <= i < |cs| ensures ids[i] == projected[i] {
      assert ids[i] == cs[i].itemId && projected[i] == CandidateId(cs[i]);
    }
  }

  lemma RejectionIdsPermute(a: seq<Rejection>, b: seq<Rejection>)
    requires multiset(a) == multiset(b)
    ensures multiset(RejectionIds(a)) == multiset(RejectionIds(b))
  {
    ProjectPermutes(a, b, RejectionId);
    RejectionIdsAreProjected(a);
    RejectionIdsAreProjected(b);
  }

  lemma RejectionIdsAreProjected(rs: seq<Rejection>)
    ensures RejectionIds(rs) == Project(rs, RejectionId)
  {
    var ids, projected := RejectionIds(rs), Project(rs, RejectionId);
    assert |ids| == |rs| == |projected|;
    forall i | 0 <= i < |rs| ensures ids[i] == projected[i] {
      assert ids[i] == rs[i].itemId && projected[i] == RejectionId(rs[i]);
    }
  }

  predicate MandatoryOk(c: Candidate, issuedAt: i64) {
    && ValidateCandidate(c, true, issuedAt).Pass?
    && c.reason.MandatoryRequirement().Some?
    && c.reason.MandatoryRequirement().value.Accepts(c.itemKind)
  }

  predicate OptionalOk(c: Candidate, issuedAt: i64) {
    ValidateCandidate(c, false, issuedAt).Pass?
  }

  ghost function NamedSlots(cs: seq<Candidate>): set<Requirement> {
    set c | c in cs && c.reason.MandatoryRequirement().Some? :: c.reason.MandatoryRequirement().value
  }

  /** The condition on the three lists, blind to their order: every item passes
      its own check, every slot is named, and no id appears twice anywhere. */
  ghost predicate CandidatesOk(mandatory: seq<Candidate>, optional: seq<Candidate>, rejected: seq<Rejection>,
                               issuedAt: i64)
  {
    && (forall c :: c in mandatory ==> MandatoryOk(c, issuedAt))
    && (forall r: Requirement :: r in NamedSlots(mandatory))
    && (forall c :: c in optional ==> OptionalOk(c, issuedAt))
    && (forall r :: r in rejected ==> ValidateRejection(r).Pass?)
    && AllNew({}, Ids(mandatory) + Ids(optional) + RejectionIds(rejected))
  }

  lemma NamedSlotsCons(c: Candidate, rest: seq<Candidate>, slots: set<Requirement>)
    requires c.reason.MandatoryRequirement().Some?
    ensures slots + {c.reason.MandatoryRequirement().value} + NamedSlots(rest) == slots + NamedSlots([c] + rest)
  {
    assert forall x :: x in [c] + rest <==> x == c || x in rest;
  }

  lemma IdsCons(c: Candidate, rest: seq<Candidate>, seen: set<string>)
    ensures Ids([c] + rest) == [c.itemId] + Ids(rest)
    ensures seen + {c.itemId} + Elements(Ids(rest)) == seen + Elements(Ids([c] + rest))
    ensures AllNew(seen, Ids([c] + rest)) <==> c.itemId !in seen && AllNew(seen + {c.itemId}, Ids(rest))
  {
    assert Ids([c] + rest) == [c.itemId] + Ids(rest);
    AllNewCons(seen, Ids([c] + rest));
  }

  lemma {:induction false} ScanMandatoryMeaning(cs: seq<Candidate>, issuedAt: i64, at: Scan)
    ensures ScanMandatory(cs, issuedAt, at).Ok? <==>
            (forall c :: c in cs ==> MandatoryOk(c, issuedAt)) && AllNew(at.ids, Ids(cs))
    ensures ScanMandatory(cs, issuedAt, at).Ok? ==>
              ScanMandatory(cs, issuedAt, at).value == Scan(at.ids + Elements(Ids(cs)), at.slots + NamedSlots(cs))
  {
    if cs == [] {
      assert at.ids + Elements(Ids(cs)) == at.ids && at.slots + NamedSlots(cs) == at.slots;
    } else {
      var c, rest := cs[0], cs[1..];
      assert cs == [c] + rest;
      IdsCons(c, rest, at.ids);
      if c.itemId !in at.ids && MandatoryOk(c, issuedAt) {
        var next := Scan(at.ids + {c.itemId}, at.slots + {c.reason.MandatoryRequirement().value});
        assert ScanMandatory(cs, issuedAt, at) == ScanMandatory(rest, issuedAt, next);
        ScanMandatoryMeaning(rest, issuedAt, next);
        NamedSlotsCons(c, rest, at.slots);
      } else {
        assert ScanMandatory(cs, issuedAt, at).Err?;
      }
    }
  }

  lemma {:induction false} ScanOptionalMeaning(cs: seq<Candidate>, issuedAt: i64, seen: set<string>)
    ensures ScanOptional(cs, issuedAt, seen).Ok? <==>
            (forall c :: c in cs ==> OptionalOk(c, issuedAt)) && AllNew(seen, Ids(cs))
    ensures ScanOptional(cs, issuedAt, seen).Ok? ==>
              ScanOptional(cs, issuedAt, seen).value == seen + Elements(Ids(cs))
  {
    if cs == [] {
      assert seen + Elements(Ids(cs)) == seen;
    } else {
      var c, rest := cs[0], cs[1..];
      assert cs == [c] + rest;
      IdsCons(c, rest, seen);
      if c.itemId !in seen && OptionalOk(c, issuedAt) {
        ScanOptionalMeaning(rest, issuedAt, seen + {c.itemId});
      }
    }
  }

  lemma {:induction false} ScanRejectedMeaning(rs: seq<Rejection>, seen: set<string>)
    ensures ScanRejected(rs, seen).Pass? <==>
            (forall r :: r in rs ==> ValidateRejection(r).Pass?) && AllNew(seen, RejectionIds(rs))
  {
    if rs != [] {
      var r, rest := rs[0], rs[1..];
      assert rs == [r] + rest && RejectionIds(rs) == [r.itemId] + RejectionIds(rest);
      AllNewCons(seen, RejectionIds(rs));
      ScanRejectedMeaning(rest, seen + {r.itemId});
    }
  }

  lemma VerdictMeaning(mandatory: seq<Candidate>, optional: seq<Candidate>, rejected: seq<Rejection>, issuedAt: i64)
    ensures Verdict(mandatory, optional, rejected, issuedAt).Pass? <==>
            CandidatesOk(mandatory, optional, rejected, issuedAt)
  {
    var m, o, r := Ids(mandatory), Ids(optional), RejectionIds(rejected);
    AllNewConcat({}, m + o, r);
    AllNewConcat({}, m, o);
    assert {} + Elements(m) == Elements(m) && Elements(m) + Elements(o) == {} + Elements(m + o);
    ScanMandatoryMeaning(mandatory, issuedAt, Scan({}, {}));
    assert {} + NamedSlots(mandatory) == NamedSlots(mandatory);
    FirstMissingMeaning(ALL_REQUIREMENTS, NamedSlots(mandatory));
    forall q: Requirement ensures q in ALL_REQUIREMENTS { EveryRequirementListed(q); }
    ScanOptionalMeaning(optional, issuedAt, Elements(m));
    ScanRejectedMeaning(rejected, Elements(m) + Elements(o));
  }

  /** Reordering the three lists does not change whether they are acceptable. */
  lemma CandidatesOkPermutes(m: seq<Candidate>, o: seq<Candidate>, r: seq<Rejection>,
                             m': seq<Candidate>, o': seq<Candidate>, r': seq<Rejection>, issuedAt: i64)
    requires multiset(m) == multiset(m') && multiset(o) == multiset(o') && multiset(r) == multiset(r')
    requires CandidatesOk(m, o, r, issuedAt)
    ensures CandidatesOk(m', o', r', issuedAt)
  {
    forall c | c in m' ensures c in m { assert c in multiset(m'); }
    forall c | c in m ensures c in m' { assert c in multiset(m); }
    forall c | c in o' ensures c in o { assert c in multiset(o'); }
    forall x | x in r' ensures x in r { assert x in multiset(r'); }
    assert NamedSlots(m) == NamedSlots(m');
    IdsPermute(m, m');
    IdsPermute(o, o');
    RejectionIdsPermute(r, r');
    var a := Ids(m) + Ids(o) + RejectionIds(r);
    var b := Ids(m') + Ids(o') + RejectionIds(r');
    assert multiset(a) == multiset(b);
    AllNewIsMultiplicity(a);
    AllNewIsMultiplicity(b);
  }

  // ------------------------------------------------- sealing what was built

  lemma SelectionsMeaning(cs: seq<Candidate>, mandatory: bool)
    ensures SelectionIds(Selections(cs, mandatory)) == Ids(cs)
    ensures forall s :: s in Selections(cs, mandatory) <==> exists c :: c in cs && s == SelectionFrom(c, mandatory)
  {
    var sel := Selections(cs, mandatory);
    forall s | s in sel ensures exists c :: c in cs && s == SelectionFrom(c, mandatory) {
      var i :| 0 <= i < |sel| && sel[i] == s;
      assert cs[i] in cs;
    }
    forall c | c in cs ensures SelectionFrom(c, mandatory) in sel {
      var i :| 0 <= i < |cs| && cs[i] == c;
      assert sel[i] == SelectionFrom(c, mandatory);
    }
  }

  lemma {:induction false} SelectionTokensOf(a: seq<Candidate>, b: seq<Candidate>)
    ensures SelectionTokens(Selections(a, true) + Selections(b, false)) == Tokens(a) + Tokens(b)
    decreases |a|, |b|
  {
    var all := Selections(a, true) + Selections(b, false);
    if a != [] {
      assert all[1..] == Selections(a[1..], true) + Selections(b, false);
      SelectionTokensOf(a[1..], b);
    } else if b != [] {
      assert all[1..] == Selections([], true) + Selections(b[1..], false);
      SelectionTokensOf([], b[1..]);
    }
  }

  /** Each optional candidate is either selected or budget-excluded, once. */
  lemma {:induction false} PickedAndPassedPartition(ranked: seq<Candidate>, ds: seq<bool>)
    requires |ds| == |ranked|
    ensures multiset(Picked(ranked, ds)) + multiset(Passed(ranked, ds)) == multiset(ranked)
  {
    if ranked != [] {
      assert ranked == [ranked[0]] + ranked[1..];
      PickedCons(ranked, ds);
      PickedAndPassedPartition(ranked[1..], ds[1..]);
    }
  }

  lemma ExclusionsValid(cs: seq<Candidate>, issuedAt: i64)
    requires forall c :: c in cs ==> OptionalOk(c, issuedAt)
    ensures forall x :: x in Exclusions(cs) ==> ValidateExclusion(x).Pass?
    ensures ExclusionIds(Exclusions(cs)) == Ids(cs)
  {
    forall x | x in Exclusions(cs) ensures ValidateExclusion(x).Pass? {
      var i :| 0 <= i < |cs| && Exclusions(cs)[i] == x;
      assert OptionalOk(cs[i], issuedAt);
      assert ValidateSelection(SelectionFrom(cs[i], false)).Pass?;
    }
  }

  lemma AssembledSlots(mandatory: seq<Candidate>, picked: seq<Candidate>)
    ensures NamedSlots(mandatory) <= Slots(Selections(mandatory, true) + Selections(picked, false))
  {
    var sel := Selections(mandatory, true) + Selections(picked, false);
    forall r | r in NamedSlots(mandatory) ensures r in Slots(sel) {
      var c :| c in mandatory && c.reason.MandatoryRequirement() == Some(r);
      var i :| 0 <= i < |mandatory| && mandatory[i] == c;
      assert sel[i] == SelectionFrom(c, true) && r in SlotOf(sel[i]);
    }
  }

  lemma DistinctRegroups(m: seq<string>, o: seq<string>, picked: seq<string>, passed: seq<string>, r: seq<string>)
    requires multiset(o) == multiset(picked) + multiset(passed)
    requires AllNew({}, m + o + r)
    ensures AllNew({}, m + picked + passed + r)
  {
    AllNewIsMultiplicity(m + o + r);
    AllNewIsMultiplicity(m + picked + passed + r);
    assert multiset(m + o + r) == multiset(m + picked + passed + r);
  }

  lemma PickedIds(ranked: seq<Candidate>, ds: seq<bool>)
    requires |ds| == |ranked|
    ensures multiset(Ids(ranked)) == multiset(Ids(Picked(ranked, ds))) + multiset(Ids(Passed(ranked, ds)))
  {
    var picked, passed := Picked(ranked, ds), Passed(ranked, ds);
    PickedAndPassedPartition(ranked, ds);
    IdsPermute(picked + passed, ranked);
    IdsConcat(picked, passed);
  }

  lemma IdsConcat(a: seq<Candidate>, b: seq<Candidate>)
    ensures Ids(a + b) == Ids(a) + Ids(b)
    ensures multiset(Ids(a + b)) == multiset(Ids(a)) + multiset(Ids(b))
  {
    assert Ids(a + b) == Ids(a) + Ids(b);
  }

  lemma AssembledIds(mandatory: seq<Candidate>, ranked: seq<Candidate>, rejected: seq<Rejection>, ds: seq<bool>)
    requires |ds| == |ranked|
    requires AllNew({}, Ids(mandatory) + Ids(ranked) + RejectionIds(rejected))
    ensures AllNew({}, SelectionIds(Selections(mandatory, true) + Selections(Picked(ranked, ds), false))
                       + ExclusionIds(Exclusions(Passed(ranked, ds))) + RejectionIds(rejected))
  {
    var picked, passed := Picked(ranked, ds), Passed(ranked, ds);
    PickedIds(ranked, ds);
    DistinctRegroups(Ids(mandatory), Ids(ranked), Ids(picked), Ids(passed), RejectionIds(rejected));
    AssembledSelectionIds(mandatory, picked);
    AssembledExclusionIds(passed);
  }

  lemma AssembledSelectionIds(mandatory: seq<Candidate>, picked: seq<Candidate>)
    ensures SelectionIds(Selections(mandatory, true) + Selections(picked, false)) == Ids(mandatory) + Ids(picked)
  {}

  lemma AssembledExclusionIds(passed: seq<Candidate>)
    ensures ExclusionIds(Exclusions(passed)) == Ids(passed)
  {}

  lemma PickedMembers(ranked: seq<Candidate>, ds: seq<bool>)
    requires |ds| == |ranked|
    ensures forall c :: c in Picked(ranked, ds) ==> c in ranked
    ensures forall c :: c in Passed(ranked, ds) ==> c in ranked
  {
    PickedAndPassedPartition(ranked, ds);
    forall c | c in Picked(ranked, ds) ensures c in ranked {
      assert c in multiset(Picked(ranked, ds)) && c in multiset(ranked);
    }
    forall c | c in Passed(ranked, ds) ensures c in ranked {
      assert c in multiset(Passed(ranked, ds)) && c in multiset(ranked);
    }
  }

  /** After the compiler's own checks, the packet's checks can only object to a
      foreign tenant among the selected items. */
  lemma AssembledItems(req: Request, mandatory: seq<Candidate>, ranked: seq<Candidate>, rejected: seq<Rejection>,
                       ds: seq<bool>)
    requires |ds| == |ranked| && Tokens(mandatory) + Tokens(Picked(ranked, ds)) <= req.tokenBudget
    requires CandidatesOk(mandatory, ranked, rejected, req.issuedAt)
    ensures ValidateItems(Assemble(req, mandatory, ranked, rejected, ds)).Pass? <==>
            forall c :: c in mandatory || c in Picked(ranked, ds) ==> c.sourceScope.tenantId == req.scope.tenantId
  {
    var p := Assemble(req, mandatory, ranked, rejected, ds);
    var picked, passed := Picked(ranked, ds), Passed(ranked, ds);
    ValidateItemsMeaning(p);
    AssembledSlots(mandatory, picked);
    AssembledIds(mandatory, ranked, rejected, ds);
    SelectionTokensOf(mandatory, picked);
    PickedMembers(ranked, ds);
    ExclusionsValid(passed, req.issuedAt);
    SelectionsMeaning(mandatory, true);
    SelectionsMeaning(picked, false);
    AssembledTenants(mandatory, picked, req.issuedAt, req.scope.tenantId);
  }

  lemma AssembledTenants(mandatory: seq<Candidate>, picked: seq<Candidate>, issuedAt: i64, tenantId: string)
    requires forall c :: c in mandatory ==> MandatoryOk(c, issuedAt)
    requires forall c :: c in picked ==> OptionalOk(c, issuedAt)
    ensures (forall s :: s in Selections(mandatory, true) + Selections(picked, false)
                         ==> SelectionFits(s, tenantId)) <==>
            (forall c :: c in mandatory || c in picked ==> c.sourceScope.tenantId == tenantId)
  {
    SelectionsMeaning(mandatory, true);
    SelectionsMeaning(picked, false);
    var sel := Selections(mandatory, true) + Selections(picked, false);
    if forall s :: s in sel ==> SelectionFits(s, tenantId) {
      forall c | c in mandatory ensures c.sourceScope.tenantId == tenantId {
        assert SelectionFrom(c, true) in sel;
      }
      forall c | c in picked ensures c.sourceScope.tenantId == tenantId {
        assert SelectionFrom(c, false) in sel;
      }
    }
  }

  ghost predicate HeaderOk(req: Request) {
    && !Blank(req.packetId) && !Blank(req.protocolVersion) && !OptionalBlank(req.projectId)
    && !Blank(req.compilerVersion) && ValidateScope(req.scope).Pass? && req.issuedAt < req.expiresAt
  }

  // --------------------------------------------------------- main theorems

  /** The decisions the compiler takes on a request, over plain integers. */
  ghost function Choice(req: Request): seq<bool> {
    Greedy(RankOptional(req.optional), Tokens(req.mandatory), req.tokenBudget)
  }

  ghost function Chosen(req: Request): seq<Candidate> {
    Picked(RankOptional(req.optional), Choice(req))
  }

  /** A condition a caller can check before the call. */
  ghost predicate Compilable(req: Request) {
    && CandidatesOk(req.mandatory, req.optional, req.rejected, req.issuedAt)
    && Tokens(req.mandatory) <= req.tokenBudget
    && NoOverflow(RankOptional(req.optional), Tokens(req.mandatory), req.tokenBudget)
    && HeaderOk(req)
    && (forall c :: c in req.mandatory || c in Chosen(req) ==> c.sourceScope.tenantId == req.scope.tenantId)
  }

  lemma SortKeepsTokens(cs: seq<Candidate>)
    ensures Tokens(SortMandatory(cs)) == Tokens(cs)
    ensures forall c :: c in SortMandatory(cs) <==> c in cs
  {
    StableSort.SortPermutes(cs, ById);
    SumPermutes(SortMandatory(cs), cs, Estimate);
    forall c ensures c in SortMandatory(cs) <==> c in cs {
      assert c in multiset(SortMandatory(cs)) <==> c in multiset(cs);
    }
  }

  lemma SortKeepsCandidatesOk(req: Request)
    ensures CandidatesOk(SortMandatory(req.mandatory), RankOptional(req.optional), SortRejected(req.rejected),
                         req.issuedAt) <==>
            CandidatesOk(req.mandatory, req.optional, req.rejected, req.issuedAt)
  {
    var m, o, r := SortMandatory(req.mandatory), RankOptional(req.optional), SortRejected(req.rejected);
    StableSort.SortPermutes(req.mandatory, ById);
    StableSort.SortPermutes(req.optional, ByRank);
    StableSort.SortPermutes(req.rejected, RejectedById);
    if CandidatesOk(m, o, r, req.issuedAt) {
      CandidatesOkPermutes(m, o, r, req.mandatory, req.optional, req.rejected, req.issuedAt);
    } else if CandidatesOk(req.mandatory, req.optional, req.rejected, req.issuedAt) {
      CandidatesOkPermutes(req.mandatory, req.optional, req.rejected, m, o, r, req.issuedAt);
    }
  }

  /** The compiler gets as far as sealing exactly when the candidates are
      acceptable, the envelope fits and no addition overflows. */
  lemma DecideExactly(req: Request, m: seq<Candidate>, o: seq<Candidate>, r: seq<Rejection>)
    ensures Decide(req, m, o, r).Ok? <==>
            && Verdict(m, o, r, req.issuedAt).Pass?
            && Tokens(m) <= req.tokenBudget
            && NoOverflow(o, Tokens(m), req.tokenBudget)
    ensures Decide(req, m, o, r).Ok? ==> Decide(req, m, o, r).value == Greedy(o, Tokens(m), req.tokenBudget)
  {
    DecideUnfolds(req, m, o, r);
    CheckedSumMeaning(m, 0);
    if Tokens(m) <= req.tokenBudget {
      FillExactly(o, Tokens(m), req.tokenBudget);
    }
  }

  lemma DecideUnfolds(req: Request, m: seq<Candidate>, o: seq<Candidate>, r: seq<Rejection>)
    ensures var decision, needed := Decide(req, m, o, r), CheckedSum(m, 0);
            && (decision.Ok? <==>
                  && Verdict(m, o, r, req.issuedAt).Pass? && needed.Some? && needed.value <= req.tokenBudget
                  && Fill(o, needed.value, req.tokenBudget).Some?)
            && (decision.Ok? ==> Fill(o, needed.value, req.tokenBudget) == Some(decision.value))
  {}

  lemma GreedyFits(o: seq<Candidate>, used: nat, budget: nat)
    requires used <= budget
    ensures used + Tokens(Picked(o, Greedy(o, used, budget))) <= budget
  {
    if o != [] {
      var next := used + o[0].estimatedTokens;
      var ds := Greedy(o, used, budget);
      GreedyFits(o[1..], if next <= budget then next else used, budget);
      assert ds[1..] == Greedy(o[1..], if next <= budget then next else used, budget);
      PickedCons(o, ds);
      TokensCons(o[0], Picked(o[1..], ds[1..]));
    }
  }

  /** Success, exactly. `hash` stands for hex SHA-256, so it is never blank. */
  lemma CompileSucceedsExactlyWhen(hash: PacketHash, req: Request)
    requires forall p :: !Blank(hash(p))
    ensures Compile(hash, req).Ok? <==> Compilable(req)
  {
    var m, o, r := SortMandatory(req.mandatory), RankOptional(req.optional), SortRejected(req.rejected);
    SortKeepsTokens(req.mandatory);
    SortKeepsCandidatesOk(req);
    VerdictMeaning(m, o, r, req.issuedAt);
    DecideExactly(req, m, o, r);
    if CandidatesOk(m, o, r, req.issuedAt) && Tokens(m) <= req.tokenBudget {
      GreedyFits(o, Tokens(m), req.tokenBudget);
      AssembledItems(req, m, o, r, Choice(req));
      SealExactly(hash, req, m, o, r, Choice(req));
    }
  }

  /** A successful compilation got through the fill with the integer choice. */
  lemma CompileReachesFill(hash: PacketHash, req: Request)
    requires Compile(hash, req).Ok?
    ensures Tokens(req.mandatory) <= req.tokenBudget
    ensures NoOverflow(RankOptional(req.optional), Tokens(req.mandatory), req.tokenBudget)
    ensures Decide(req, SortMandatory(req.mandatory), RankOptional(req.optional), SortRejected(req.rejected))
            == Ok(Choice(req))
    ensures Tokens(req.mandatory) + Tokens(Chosen(req)) <= req.tokenBudget
  {
    SortKeepsTokens(req.mandatory);
    DecideExactly(req, SortMandatory(req.mandatory), RankOptional(req.optional), SortRejected(req.rejected));
  }

  lemma SealExactly(hash: PacketHash, req: Request, m: seq<Candidate>, o: seq<Candidate>, r: seq<Rejection>,
                    ds: seq<bool>)
    requires forall p :: !Blank(hash(p))
    requires |ds| == |o| && Tokens(m) + Tokens(Picked(o, ds)) <= req.tokenBudget
    ensures Seal(hash, Assemble(req, m, o, r, ds)).Ok? <==>
            HeaderOk(req) && ValidateItems(Assemble(req, m, o, r, ds)).Pass?
  {
    var p := Assemble(req, m, o, r, ds);
    var sealed := p.(digest := ComputedDigest(hash, p));
    assert sealed.(digest := "") == p.(digest := "");
    ValidateItemsMeaning(p);
    ValidateItemsMeaning(sealed);
  }

  /** The packet a request assembles, before its digest is filled in. */
  ghost function Assembled(req: Request): Packet
    requires Tokens(req.mandatory) + Tokens(Chosen(req)) <= req.tokenBudget
  {
    SortKeepsTokens(req.mandatory);
    Assemble(req, SortMandatory(req.mandatory), RankOptional(req.optional), SortRejected(req.rejected), Choice(req))
  }

  lemma CompiledIsSealed(hash: PacketHash, req: Request)
    requires Compile(hash, req).Ok?
    ensures Tokens(req.mandatory) + Tokens(Chosen(req)) <= req.tokenBudget
    ensures Seal(hash, Assembled(req)) == Ok(Compile(hash, req).value)
  {
    CompileReachesFill(hash, req);
  }

  lemma AssembledContents(req: Request)
    requires Tokens(req.mandatory) + Tokens(Chosen(req)) <= req.tokenBudget
    ensures var p := Assembled(req);
            && p.selected == Selections(SortMandatory(req.mandatory), true) + Selections(Chosen(req), false)
            && p.budgetExcluded == Exclusions(Passed(RankOptional(req.optional), Choice(req)))
            && p.rejected == SortRejected(req.rejected)
            && p.tokenBudget == TokenBudget(req.tokenBudget, Tokens(req.mandatory) + Tokens(Chosen(req)))
            && SelectionTokens(p.selected) == p.tokenBudget.used
            && p.scope == req.scope && p.packetId == req.packetId && p.issuedAt == req.issuedAt
  {
    SortKeepsTokens(req.mandatory);
    SelectionTokensOf(SortMandatory(req.mandatory), Chosen(req));
  }

  /** What a compiled packet holds, in terms of the request alone: mandatory
      items first and in id order, then the chosen optional items in rank
      order; the rest of the optional items excluded; exact accounting; and it
      passes the packet's own validation. */
  lemma CompiledPacketContents(hash: PacketHash, req: Request, p: Packet)
    requires Compile(hash, req) == Ok(p)
    ensures p.selected == Selections(SortMandatory(req.mandatory), true) + Selections(Chosen(req), false)
    ensures p.budgetExcluded == Exclusions(Passed(RankOptional(req.optional), Choice(req)))
    ensures p.rejected == SortRejected(req.rejected)
    ensures p.tokenBudget.used == SelectionTokens(p.selected) == Tokens(req.mandatory) + Tokens(Chosen(req))
    ensures p.tokenBudget.used <= p.tokenBudget.requested == req.tokenBudget
    ensures p.scope == req.scope && p.packetId == req.packetId && p.issuedAt == req.issuedAt
    ensures ValidatePacket(hash, p).Pass?
  {
    CompiledIsSealed(hash, req);
    SealedContents(hash, req, p);
  }

  lemma SealedContents(hash: PacketHash, req: Request, p: Packet)
    requires Tokens(req.mandatory) + Tokens(Chosen(req)) <= req.tokenBudget
    requires Seal(hash, Assembled(req)) == Ok(p)
    ensures p == Assembled(req).(digest := p.digest)
    ensures p.selected == Selections(SortMandatory(req.mandatory), true) + Selections(Chosen(req), false)
    ensures p.budgetExcluded == Exclusions(Passed(RankOptional(req.optional), Choice(req)))
    ensures p.rejected == SortRejected(req.rejected)
    ensures p.tokenBudget == TokenBudget(req.tokenBudget, Tokens(req.mandatory) + Tokens(Chosen(req)))
    ensures SelectionTokens(p.selected) == p.tokenBudget.used
    ensures p.scope == req.scope && p.packetId == req.packetId && p.issuedAt == req.issuedAt
    ensures ValidatePacket(hash, p).Pass?
  {
    AssembledContents(req);
    SealValidates(hash, Assembled(req));
  }

  /** Selected and budget-excluded items together are the optional items. */
  lemma EveryOptionalDisposedOnce(req: Request)
    ensures multiset(Chosen(req)) + multiset(Passed(RankOptional(req.optional), Choice(req))) == multiset(req.optional)
  {
    StableSort.SortPermutes(req.optional, ByRank);
    PickedAndPassedPartition(RankOptional(req.optional), Choice(req));
  }

  /** The selected optional items are the rank-lexicographically greatest set
      that fits beside the mandatory envelope. */
  lemma CompiledSelectionIsOptimal(hash: PacketHash, req: Request, other: seq<bool>)
    requires Compile(hash, req).Ok?
    requires Feasible(RankOptional(req.optional), other, Tokens(req.mandatory), req.tokenBudget)
    ensures Feasible(RankOptional(req.optional), Choice(req), Tokens(req.mandatory), req.tokenBudget)
    ensures LexGe(Choice(req), other)
  {
    CompileReachesFill(hash, req);
    FillExactly(RankOptional(req.optional), Tokens(req.mandatory), req.tokenBudget);
    FillIsLexGreatest(RankOptional(req.optional), Tokens(req.mandatory), req.tokenBudget, other);
  }

  // ----------------------------------------------------- order independence

  lemma OrdersAreTotal()
    ensures StableSort.TotalPreorder(ById)
    ensures StableSort.TotalPreorder(ByRank)
    ensures StableSort.TotalPreorder(RejectedById)
  {
    forall a: string, b: string ensures TextLe(a, b) || TextLe(b, a) { TextLeTotal(a, b); }
    forall a: string, b: string, c: string | TextLe(a, b) && TextLe(b, c) ensures TextLe(a, c) {
      TextLeTransitive(a, b, c);
    }
  }

  /** What "sorted" means here: mandatory items by id, optional items by
      falling relevance and then by id. */
  lemma SortedAsDocumented(mandatory: seq<Candidate>, optional: seq<Candidate>)
    ensures forall i, j :: 0 <= i < j < |SortMandatory(mandatory)| ==>
              TextLe(SortMandatory(mandatory)[i].itemId, SortMandatory(mandatory)[j].itemId)
    ensures forall i, j :: 0 <= i < j < |RankOptional(optional)| ==>
              var a, b := RankOptional(optional)[i], RankOptional(optional)[j];
              a.relevance >= b.relevance && (a.relevance == b.relevance ==> TextLe(a.itemId, b.itemId))
    ensures multiset(SortMandatory(mandatory)) == multiset(mandatory)
    ensures multiset(RankOptional(optional)) == multiset(optional)
  {
    StableSort.SortPermutes(mandatory, ById);
    StableSort.SortPermutes(optional, ByRank);
    OrdersAreTotal();
    StableSort.SortSorts(mandatory, ById);
    StableSort.SortSorts(optional, ByRank);
  }

  lemma DistinctIdsDistinguish(s: seq<Candidate>)
    requires AllNew({}, Ids(s))
    ensures forall x, y :: x in s && y in s && x.itemId == y.itemId ==> x == y
  {
    forall x, y | x in s && y in s && x.itemId == y.itemId ensures x == y {
      var i :| 0 <= i < |s| && s[i] == x;
      var j :| 0 <= j < |s| && s[j] == y;
      assert Ids(s)[i] == Ids(s)[j];
    }
  }

  /** Two requests that list the same items, possibly in other orders. */
  ghost predicate Reordered(a: Request, b: Request) {
    && multiset(a.mandatory) == multiset(b.mandatory)
    && multiset(a.optional) == multiset(b.optional)
    && multiset(a.rejected) == multiset(b.rejected)
    && a == b.(mandatory := a.mandatory, optional := a.optional, rejected := a.rejected)
  }

  /** Items the sort cannot tell apart are the same item. */
  ghost predicate TiesAreEqual(req: Request) {
    && (forall x, y :: x in req.mandatory && y in req.mandatory && x.itemId == y.itemId ==> x == y)
    && (forall x, y :: x in req.optional && y in req.optional && x.itemId == y.itemId && x.relevance == y.relevance
                       ==> x == y)
    && (forall x, y :: x in req.rejected && y in req.rejected && x.itemId == y.itemId ==> x == y)
  }

  /** When tied items are equal, distinct ids or not, the whole outcome, packet
      or error, is independent of the order the caller supplied. */
  lemma EqualTiesMakeOrderIrrelevant(hash: PacketHash, a: Request, b: Request)
    requires Reordered(a, b) && TiesAreEqual(a)
    ensures Compile(hash, a) == Compile(hash, b)
  {
    SameMandatoryOrder(a.mandatory, b.mandatory);
    SameRanking(a.optional, b.optional);
    SameRejectionOrder(a.rejected, b.rejected);
    OnlyTheHeaderMatters(hash, a, b, SortMandatory(a.mandatory), RankOptional(a.optional), SortRejected(a.rejected));
  }

  lemma SameMandatoryOrder(s: seq<Candidate>, t: seq<Candidate>)
    requires multiset(s) == multiset(t)
    requires forall x, y :: x in s && y in s && x.itemId == y.itemId ==> x == y
    ensures SortMandatory(s) == SortMandatory(t)
  {
    OrdersAreTotal();
    forall x, y | x in s && y in s && ById(x, y) && ById(y, x) ensures x == y {
      TextLeAntisymmetric(x.itemId, y.itemId);
    }
    StableSort.SortIgnoresOrder(s, t, ById);
  }

  lemma SameRanking(s: seq<Candidate>, t: seq<Candidate>)
    requires multiset(s) == multiset(t)
    requires forall x, y :: x in s && y in s && x.itemId == y.itemId && x.relevance == y.relevance ==> x == y
    ensures RankOptional(s) == RankOptional(t)
  {
    OrdersAreTotal();
    forall x, y | x in s && y in s && ByRank(x, y) && ByRank(y, x) ensures x == y {
      TextLeAntisymmetric(x.itemId, y.itemId);
    }
    StableSort.SortIgnoresOrder(s, t, ByRank);
  }

  lemma SameRejectionOrder(s: seq<Rejection>, t: seq<Rejection>)
    requires multiset(s) == multiset(t)
    requires forall x, y :: x in s && y in s && x.itemId == y.itemId ==> x == y
    ensures SortRejected(s) == SortRejected(t)
  {
    OrdersAreTotal();
    forall x, y | x in s && y in s && RejectedById(x, y) && RejectedById(y, x) ensures x == y {
      TextLeAntisymmetric(x.itemId, y.itemId);
    }
    StableSort.SortIgnoresOrder(s, t, RejectedById);
  }

  lemma OnlyTheHeaderMatters(hash: PacketHash, a: Request, b: Request, m: seq<Candidate>, o: seq<Candidate>,
                             r: seq<Rejection>)
    requires a == b.(mandatory := a.mandatory, optional := a.optional, rejected := a.rejected)
    ensures CompileSorted(hash, a, m, o, r) == CompileSorted(hash, b, m, o, r)
  {
    SameDecision(a, b, m, o, r);
    var d := Decide(a, m, o, r);
    if d.Ok? {
      assert Assemble(a, m, o, r, d.value) == Assemble(b, m, o, r, d.value);
    }
  }

  lemma SameDecision(a: Request, b: Request, m: seq<Candidate>, o: seq<Candidate>, r: seq<Rejection>)
    requires a.issuedAt == b.issuedAt && a.tokenBudget == b.tokenBudget
    ensures Decide(a, m, o, r) == Decide(b, m, o, r)
  {}

  /** If a request compiles, every reordering of it compiles to the very same
      packet; and a reordering of a refused request is refused. */
  lemma ReorderingPreservesThePacket(hash: PacketHash, a: Request, b: Request)
    requires Reordered(a, b)
    ensures Compile(hash, a).Ok? <==> Compile(hash, b).Ok?
    ensures Compile(hash, a).Ok? ==> Compile(hash, b) == Compile(hash, a)
  {
    if Compile(hash, a).Ok? {
      SuccessForcesDistinctIds(hash, a);
      EqualTiesMakeOrderIrrelevant(hash, a, b);
    } else if Compile(hash, b).Ok? {
      SuccessForcesDistinctIds(hash, b);
      EqualTiesMakeOrderIrrelevant(hash, b, a);
    }
  }

  lemma SuccessForcesDistinctIds(hash: PacketHash, req: Request)
    requires Compile(hash, req).Ok?
    ensures AllNew({}, Ids(req.mandatory)) && AllNew({}, Ids(req.optional)) && AllNew({}, RejectionIds(req.rejected))
    ensures TiesAreEqual(req)
  {
    SortKeepsCandidatesOk(req);
    VerdictMeaning(SortMandatory(req.mandatory), RankOptional(req.optional), SortRejected(req.rejected), req.issuedAt);
    AcceptedIdsAreDistinct(req);
  }

  /** Lists that pass the checks share no id, so their ties are trivial. */
  lemma AcceptedIdsAreDistinct(req: Request)
    requires CandidatesOk(req.mandatory, req.optional, req.rejected, req.issuedAt)
    ensures AllNew({}, Ids(req.mandatory)) && AllNew({}, Ids(req.optional)) && AllNew({}, RejectionIds(req.rejected))
    ensures TiesAreEqual(req)
  {
    var m, o, r := Ids(req.mandatory), Ids(req.optional), RejectionIds(req.rejected);
    AllNewConcat({}, m + o, r);
    AllNewConcat({}, m, o);
    AllNewTail({}, Elements(m), o);
    AllNewTail({}, Elements(m + o), r);
    DistinctIdsDistinguish(req.mandatory);
    DistinctIdsDistinguish(req.optional);
    DistinctRejectionsDistinguish(req.rejected);
  }

  lemma AllNewTail<T>(seen: set<T>, more: set<T>, ids: seq<T>)
    requires AllNew(seen + more, ids)
    ensures AllNew(seen, ids)
  {}

  lemma DistinctRejectionsDistinguish(s: seq<Rejection>)
    requires AllNew({}, RejectionIds(s))
    ensures forall x, y :: x in s && y in s && x.itemId == y.itemId ==> x == y
  {
    forall x, y | x in s && y in s && x.itemId == y.itemId ensures x == y {
      var i :| 0 <= i < |s| && s[i] == x;
      var j :| 0 <= j < |s| && s[j] == y;
      assert RejectionIds(s)[i] == RejectionIds(s)[j];
    }
  }

  lemma SortTied(x: Candidate, y: Candidate)
    requires x.itemId == y.itemId
    ensures SortMandatory([x, y]) == [x, y]
  {
    TextLeTotal(x.itemId, y.itemId);
    assert [x, y][1..] == [y] && [y][1..] == [];
    assert StableSort.Sort([y][1..], ById) == [];
    assert StableSort.Sort([y], ById) == [y];
    assert [x] + [y] == [x, y];
  }

  /** Ties can show: of a zero-token item and a stale item under one id, the one
      that comes first in the input is the one reported. */
  lemma DuplicateIdsMakeOrderVisible(hash: PacketHash, a: Request, b: Request, zero: Candidate, stale: Candidate)
    requires zero.itemId == stale.itemId && zero.estimatedTokens == 0
    requires stale.estimatedTokens == 1 && stale.freshness.expiresAt == Some(a.issuedAt)
    requires a.mandatory == [zero, stale] && b == a.(mandatory := [stale, zero])
    ensures Reordered(a, b) && Compile(hash, a).Err? && Compile(hash, a) != Compile(hash, b)
  {
    TextLeTotal(zero.itemId, stale.itemId);
    assert [zero, stale][1..] == [stale] && [stale, zero][1..] == [zero];
    SortTied(zero, stale);
    SortTied(stale, zero);
    assert multiset([zero, stale]) == multiset([stale, zero]);
    assert ScanMandatory([zero, stale], a.issuedAt, Scan({}, {})) == Err(ZeroTokenEstimate(zero.itemId));
    assert ScanMandatory([stale, zero], a.issuedAt, Scan({}, {})) ==
           Err(StaleCandidate(stale.itemId, a.issuedAt, a.issuedAt));
  }
}
