/** What a different token budget does to a compilation: exactly when it still
    succeeds, exactly which items are selected, and complete requests for each
    way a larger budget can disappoint. */
module PacketBudgets {
  import opened Common
  import opened ContextPackets
  import opened ContextPacketCompiler
  import opened PacketCompilerTheorems
  import opened Projections
  import StableSort

  /** The same request under another budget. */
  function At(req: Request, budget: u32): Request { req.(tokenBudget := budget) }

  predicate InTenant(req: Request, cs: seq<Candidate>) {
    forall c :: c in cs ==> c.sourceScope.tenantId == req.scope.tenantId
  }

  // ------------------------------------------------------- exactly when, what

  /** A request that compiles still compiles under a larger budget exactly when
      no addition overflows there and nothing newly selected is another
      tenant's. */
  lemma LargerBudgetCompilesExactlyWhen(hash: PacketHash, req: Request, large: u32)
    requires (forall p :: !Blank(hash(p))) && Compile(hash, req).Ok? && req.tokenBudget <= large
    ensures Compile(hash, At(req, large)).Ok? <==>
            && NoOverflow(RankOptional(req.optional), Tokens(req.mandatory), large)
            && InTenant(req, Chosen(At(req, large)))
  {
    CompileSucceedsExactlyWhen(hash, req);
    CompileSucceedsExactlyWhen(hash, At(req, large));
  }

  /** How a request with acceptable candidates and an affordable envelope can
      still fail: by overflow exactly when an addition passes u32, and otherwise
      only on the packet's own validation. */
  lemma LateErrors(hash: PacketHash, req: Request)
    requires CandidatesOk(req.mandatory, req.optional, req.rejected, req.issuedAt)
    requires Tokens(req.mandatory) <= req.tokenBudget
    ensures var fits := NoOverflow(RankOptional(req.optional), Tokens(req.mandatory), req.tokenBudget);
            && (!fits <==> Compile(hash, req) == Err(TokenBudgetOverflow))
            && (fits && Compile(hash, req).Err? ==> Compile(hash, req).error.InvalidPacket?)
  {
    var m, o, r := SortMandatory(req.mandatory), RankOptional(req.optional), SortRejected(req.rejected);
    SortKeepsTokens(req.mandatory);
    SortKeepsCandidatesOk(req);
    VerdictMeaning(m, o, r, req.issuedAt);
    LateDecision(req, m, o, r);
    SealingErrors(hash, req, m, o, r);
  }

  lemma LateDecision(req: Request, m: seq<Candidate>, o: seq<Candidate>, r: seq<Rejection>)
    requires Verdict(m, o, r, req.issuedAt).Pass? && Tokens(m) <= req.tokenBudget
    ensures NoOverflow(o, Tokens(m), req.tokenBudget) <==> Decide(req, m, o, r).Ok?
    ensures Decide(req, m, o, r).Err? ==> Decide(req, m, o, r).error == TokenBudgetOverflow
  {
    CheckedSumMeaning(m, 0);
    DecideExactly(req, m, o, r);
    LateDecisionErrors(req, m, o, r);
  }

  lemma LateDecisionErrors(req: Request, m: seq<Candidate>, o: seq<Candidate>, r: seq<Rejection>)
    requires Verdict(m, o, r, req.issuedAt).Pass? && CheckedSum(m, 0).Some?
    requires CheckedSum(m, 0).value <= req.tokenBudget
    ensures Decide(req, m, o, r).Err? ==> Decide(req, m, o, r).error == TokenBudgetOverflow
  {}

  lemma SealingErrors(hash: PacketHash, req: Request, m: seq<Candidate>, o: seq<Candidate>, r: seq<Rejection>)
    ensures var decision, result := Decide(req, m, o, r), CompileSorted(hash, req, m, o, r);
            && (decision.Err? ==> result == Err(decision.error))
            && (decision.Ok? && result.Err? ==> result.error.InvalidPacket?)
  {}

  /** Of two successful compilations the larger budget's selection is never
      worse in rank order. */
  lemma LargerBudgetNeverWorse(hash: PacketHash, req: Request, large: u32)
    requires Compile(hash, req).Ok? && Compile(hash, At(req, large)).Ok? && req.tokenBudget <= large
    ensures LexGe(Choice(At(req, large)), Choice(req))
  {
    CompileReachesFill(hash, req);
    CompiledSelectionIsOptimal(hash, At(req, large), Choice(req));
  }

  /** A ranked item is taken exactly when it fits on top of what was taken
      before it. */
  lemma {:induction false} TakenExactlyWhen(ranked: seq<Candidate>, used: nat, budget: nat, i: nat)
    requires i < |ranked|
    ensures Greedy(ranked, used, budget)[i] <==>
            UsedBefore(ranked, used, budget, i) + ranked[i].estimatedTokens <= budget
    decreases i
  {
    var next := used + ranked[0].estimatedTokens;
    if i == 0 {
      assert UsedBefore(ranked, used, budget, 0) == used;
    } else {
      UsedBeforeShift(ranked, used, budget, i);
      TakenExactlyWhen(ranked[1..], if next <= budget then next else used, budget, i - 1);
    }
  }

  lemma PickedMember(cs: seq<Candidate>, ds: seq<bool>, c: Candidate)
    requires |ds| == |cs| && c in Picked(cs, ds)
    ensures c in cs
  {
    PickedMembers(cs, ds);
  }

  lemma PickedStep(cs: seq<Candidate>, ds: seq<bool>, c: Candidate)
    requires |ds| == |cs| && cs != []
    ensures c in Picked(cs, ds) <==> (ds[0] && c == cs[0]) || c in Picked(cs[1..], ds[1..])
  {}

  lemma FirstIsElsewhereAbsent(cs: seq<Candidate>, i: nat)
    requires 0 < i < |cs| && AllNew({}, Ids(cs))
    ensures cs[i] != cs[0]
  {
    assert Ids(cs)[0] != Ids(cs)[i];
  }

  /** Distinct items are picked one decision each. */
  lemma {:induction false} PickedExactlyWhen(cs: seq<Candidate>, ds: seq<bool>, i: nat)
    requires |ds| == |cs| && i < |cs| && AllNew({}, Ids(cs))
    ensures cs[i] in Picked(cs, ds) <==> ds[i]
  {
    var rest, tail := cs[1..], ds[1..];
    PickedStep(cs, ds, cs[i]);
    if i > 0 {
      FirstIsElsewhereAbsent(cs, i);
      DistinctTail(cs);
      PickedExactlyWhen(rest, tail, i - 1);
    } else if cs[0] in Picked(rest, tail) {
      PickedMember(rest, tail, cs[0]);
      var j :| 0 <= j < |rest| && rest[j] == cs[0];
      FirstIsElsewhereAbsent(cs, j + 1);
      assert false;
    }
  }

  lemma DistinctTail(cs: seq<Candidate>)
    requires cs != [] && AllNew({}, Ids(cs))
    ensures AllNew({}, Ids(cs[1..]))
  {
    assert Ids(cs)[1..] == Ids(cs[1..]);
    AllNewCons({}, Ids(cs));
    AllNewTail({}, {Ids(cs)[0]}, Ids(cs[1..]));
  }

  lemma RankedIdsDistinct(hash: PacketHash, req: Request)
    requires Compile(hash, req).Ok?
    ensures AllNew({}, Ids(RankOptional(req.optional)))
  {
    SuccessForcesDistinctIds(hash, req);
    StableSort.SortPermutes(req.optional, ByRank);
    IdsPermute(RankOptional(req.optional), req.optional);
    AllNewIsMultiplicity(Ids(req.optional));
    AllNewIsMultiplicity(Ids(RankOptional(req.optional)));
  }

  lemma SelectedIsChosen(m: seq<Candidate>, chosen: seq<Candidate>, c: Candidate)
    ensures SelectionFrom(c, false) in Selections(m, true) + Selections(chosen, false) <==> c in chosen
  {
    var sel := Selections(m, true) + Selections(chosen, false);
    SelectionsMeaning(m, true);
    SelectionsMeaning(chosen, false);
    if SelectionFrom(c, false) in sel {
      assert SelectionFrom(c, false) in Selections(chosen, false);
      var d :| d in chosen && SelectionFrom(c, false) == SelectionFrom(d, false);
      assert c == d;
    }
  }

  /** At whatever budget: a packet holds a ranked optional item exactly when the
      item fits on top of the mandatory items and those taken before it. So
      under a larger budget an item is kept exactly when it still fits there,
      and dropped otherwise. */
  lemma SelectedExactlyWhen(hash: PacketHash, req: Request, p: Packet, i: nat)
    requires Compile(hash, req) == Ok(p) && i < |RankOptional(req.optional)|
    ensures var ranked := RankOptional(req.optional);
            SelectionFrom(ranked[i], false) in p.selected <==>
            UsedBefore(ranked, Tokens(req.mandatory), req.tokenBudget, i) + ranked[i].estimatedTokens <= req.tokenBudget
  {
    var ranked := RankOptional(req.optional);
    CompiledPacketContents(hash, req, p);
    SelectedIsChosen(SortMandatory(req.mandatory), Chosen(req), ranked[i]);
    RankedIdsDistinct(hash, req);
    PickedExactlyWhen(ranked, Choice(req), i);
    TakenExactlyWhen(ranked, Tokens(req.mandatory), req.tokenBudget, i);
  }

  // ---------------------------------------------------------- a full envelope

  const TENANT := "t"

  function KindOf(r: Requirement): ItemKind {
    match r
    case TargetIdentity => KTargetIdentity
    case TaskLease => KTaskLease
    case Objective => KObjective
    case Acceptance => KAcceptance
    case Constitution => KConstitution
    case Policy => KPolicy
    case SafetyControl => KSafetyControl
    case EvidenceCondition => KEvidenceCondition
  }

  function ReasonOf(r: Requirement): SelectionReason {
    match r
    case TargetIdentity => RequiredTargetIdentity
    case TaskLease => RequiredTaskLease
    case Objective => RequiredObjective
    case Acceptance => RequiredAcceptance
    case Constitution => RequiredConstitution
    case Policy => RequiredPolicy
    case SafetyControl => RequiredSafetyControl
    case EvidenceCondition => RequiredEvidenceCondition
  }

  function Item(mark: char, kind: ItemKind, reason: SelectionReason, tenantId: string, tokens: u32, relevance: u64)
    : Candidate
  {
    Candidate([mark], kind, "s", ItemScope(tenantId, "r", None, None, None), Provenance("n", 0, None),
              Freshness(0, None), "v", "text", reason, tokens, relevance)
  }

  /** One-token items for every slot, with ids from `a` to `h`. */
  function Slot(i: nat): Candidate
    requires i < |ALL_REQUIREMENTS|
  {
    var r := ALL_REQUIREMENTS[i];
    Item((0x61 + i) as char, KindOf(r), ReasonOf(r), TENANT, 1, 0)
  }

  function Envelope(): seq<Candidate> {
    seq(|ALL_REQUIREMENTS|, i requires 0 <= i < |ALL_REQUIREMENTS| => Slot(i))
  }

  /** An optional item: any mark after the envelope's. */
  function Extra(mark: char, tenantId: string, tokens: u32, relevance: u64): Candidate {
    Item(mark, KKnowledge, GraphReach, tenantId, tokens, relevance)
  }

  function Witness(budget: u32, optional: seq<Candidate>): Request {
    Request("p", "1", PacketScope(TENANT, "r", "k", "g", "s"), None, "c", 0, 1, PacketSource(0, 0), budget,
            Envelope(), optional, [])
  }

  lemma Printable(c: char)
    requires 0x21 <= c as int <= 0x7A
    ensures !Blank([c])
  {
    assert !IsWhitespace([c][0]);
  }

  lemma TextsArePresent()
    ensures !Blank("s") && !Blank("r") && !Blank("n") && !Blank("v") && !Blank("text") && !Blank(TENANT)
    ensures !Blank("p") && !Blank("1") && !Blank("k") && !Blank("g") && !Blank("c")
  {
    assert !IsWhitespace("s"[0]) && !IsWhitespace("r"[0]) && !IsWhitespace("n"[0]) && !IsWhitespace("v"[0]);
    assert !IsWhitespace("text"[0]) && !IsWhitespace(TENANT[0]) && !IsWhitespace("p"[0]) && !IsWhitespace("1"[0]);
    assert !IsWhitespace("k"[0]) && !IsWhitespace("g"[0]) && !IsWhitespace("c"[0]);
  }

  lemma SlotIsOk(i: nat)
    requires i < |ALL_REQUIREMENTS|
    ensures MandatoryOk(Slot(i), 0) && Slot(i).reason.MandatoryRequirement() == Some(ALL_REQUIREMENTS[i])
  {
    TextsArePresent();
    Printable((0x61 + i) as char);
  }

  lemma ExtraIsOk(mark: char, tenantId: string, tokens: u32, relevance: u64)
    requires 0x21 <= mark as int <= 0x7A && !Blank(tenantId) && tokens > 0
    ensures OptionalOk(Extra(mark, tenantId, tokens, relevance), 0)
  {
    TextsArePresent();
    Printable(mark);
  }

  lemma {:induction false} OneTokenEach(cs: seq<Candidate>)
    requires forall i :: 0 <= i < |cs| ==> cs[i].estimatedTokens == 1
    ensures Tokens(cs) == |cs|
  {
    if cs != [] { OneTokenEach(cs[1..]); }
  }

  lemma EnvelopeNamesEverySlot()
    ensures forall r: Requirement :: r in NamedSlots(Envelope())
  {
    forall r: Requirement ensures r in NamedSlots(Envelope()) {
      EveryRequirementListed(r);
      var i :| 0 <= i < |ALL_REQUIREMENTS| && ALL_REQUIREMENTS[i] == r;
      SlotIsOk(i);
      assert Envelope()[i] in Envelope();
    }
  }

  /** One-character ids after the envelope's. */
  predicate Marked(optional: seq<Candidate>) {
    forall i :: 0 <= i < |optional| ==> |optional[i].itemId| == 1 && 0x68 < optional[i].itemId[0] as int
  }

  lemma WitnessIds(optional: seq<Candidate>)
    requires AllNew({}, Ids(optional)) && Marked(optional)
    ensures AllNew({}, Ids(Envelope()) + Ids(optional) + RejectionIds([]))
  {
    var e, all := Envelope(), Ids(Envelope()) + Ids(optional) + RejectionIds([]);
    assert all == Ids(e) + Ids(optional);
    forall i, j | 0 <= i < j < |all| ensures all[i] != all[j] {
      if j < |e| {
        assert all[i] == [(0x61 + i) as char] && all[j] == [(0x61 + j) as char];
        assert all[i][0] != all[j][0];
      } else {
        assert all[j] == Ids(optional)[j - |e|] == optional[j - |e|].itemId;
        if i < |e| {
          assert all[i] == [(0x61 + i) as char] && all[i][0] != all[j][0];
        } else {
          assert all[i] == Ids(optional)[i - |e|];
        }
      }
    }
  }

  lemma ScopeIsPresent()
    ensures ValidateScope(PacketScope(TENANT, "r", "k", "g", "s")).Pass?
  {
    TextsArePresent();
    var fields := [("tenant_id", TENANT), ("repository_id", "r"), ("task_id", "k"), ("goal_id", "g"),
                   ("agent_session_id", "s")];
    assert fields[1..] == [("repository_id", "r"), ("task_id", "k"), ("goal_id", "g"), ("agent_session_id", "s")];
    assert fields[1..][1..] == [("task_id", "k"), ("goal_id", "g"), ("agent_session_id", "s")];
    assert fields[1..][1..][1..] == [("goal_id", "g"), ("agent_session_id", "s")];
    assert fields[1..][1..][1..][1..] == [("agent_session_id", "s")];
    assert fields[1..][1..][1..][1..][1..] == [];
    assert NonEmptyFields(fields[1..][1..][1..][1..]) == Pass;
    assert NonEmptyFields(fields[1..][1..]) == Pass;
  }

  lemma EnvelopeIsOk(c: Candidate)
    requires c in Envelope()
    ensures MandatoryOk(c, 0) && c.sourceScope.tenantId == TENANT
  {
    var i :| 0 <= i < |Envelope()| && Envelope()[i] == c;
    SlotIsOk(i);
  }

  lemma WitnessCandidates(optional: seq<Candidate>)
    requires AllNew({}, Ids(optional)) && Marked(optional)
    requires forall c :: c in optional ==> OptionalOk(c, 0)
    ensures CandidatesOk(Envelope(), optional, [], 0)
    ensures forall c :: c in Envelope() ==> c.sourceScope.tenantId == TENANT
  {
    forall c | c in Envelope() ensures MandatoryOk(c, 0) && c.sourceScope.tenantId == TENANT { EnvelopeIsOk(c); }
    EnvelopeNamesEverySlot();
    WitnessIds(optional);
  }

  lemma WitnessHeader(budget: u32, optional: seq<Candidate>)
    ensures HeaderOk(Witness(budget, optional))
  {
    TextsArePresent();
    ScopeIsPresent();
  }

  /** A witness compiles exactly when its optional items neither overflow nor
      bring a foreign tenant into the selection. */
  lemma WitnessCompilesExactlyWhen(hash: PacketHash, budget: u32, optional: seq<Candidate>)
    requires forall p :: !Blank(hash(p))
    requires budget >= 8 && AllNew({}, Ids(optional)) && Marked(optional)
    requires forall c :: c in optional ==> OptionalOk(c, 0)
    ensures Tokens(Envelope()) == 8
    ensures Compile(hash, Witness(budget, optional)).Ok? <==>
            && NoOverflow(RankOptional(optional), 8, budget)
            && InTenant(Witness(budget, optional), Chosen(Witness(budget, optional)))
  {
    OneTokenEach(Envelope());
    WitnessCandidates(optional);
    WitnessHeader(budget, optional);
    CompileSucceedsExactlyWhen(hash, Witness(budget, optional));
  }

  lemma FillTwo(a: Candidate, b: Candidate, used: u32, budget: u32)
    ensures var next := used + a.estimatedTokens;
            var used' := if next <= budget then next else used;
            var next' := used' + b.estimatedTokens;
            Fill([a, b], used, budget) ==
            if next > U32_MAX || next' > U32_MAX then None else Some([next <= budget, next' <= budget])
  {
    var next := used + a.estimatedTokens;
    if next <= U32_MAX {
      var used' := if next <= budget then next else used;
      var next' := used' + b.estimatedTokens;
      assert [a, b][1..] == [b] && [b][1..] == [];
      assert Fill([], if next' <= budget then next' else used', budget) == Some([]);
      if next' <= U32_MAX {
        assert [next' <= budget] + [] == [next' <= budget];
        assert Fill([b], used', budget) == Some([next' <= budget]);
        assert [next <= budget] + [next' <= budget] == [next <= budget, next' <= budget];
        assert Fill([a, b], used, budget) == Some([next <= budget] + [next' <= budget]);
      } else {
        assert Fill([b], used', budget).None?;
      }
    }
  }

  // ------------------------------------------------------- what can go wrong

  const FIRST: char := 'x'
  const SECOND: char := 'y'

  /** Two optional items of one tenant, the first ranked higher. */
  function Pair(first: u32, second: u32): seq<Candidate> {
    [Extra(FIRST, TENANT, first, 2), Extra(SECOND, TENANT, second, 1)]
  }

  lemma PairIsRanked(first: u32, second: u32)
    requires first > 0 && second > 0
    ensures RankOptional(Pair(first, second)) == Pair(first, second)
    ensures AllNew({}, Ids(Pair(first, second))) && Marked(Pair(first, second))
    ensures forall c :: c in Pair(first, second) ==> OptionalOk(c, 0) && c.sourceScope.tenantId == TENANT
  {
    var pair := Pair(first, second);
    var a, b := pair[0], pair[1];
    assert pair[1..] == [b] && [b][1..] == [];
    assert StableSort.Sort([b], ByRank) == [b];
    assert [a] + [b] == pair;
    TextsArePresent();
    ExtraIsOk(FIRST, TENANT, first, 2);
    ExtraIsOk(SECOND, TENANT, second, 1);
    assert Ids(pair) == [[FIRST], [SECOND]] && [FIRST][0] != [SECOND][0];
  }

  /** What the compiler decides about a pair on top of the envelope. */
  lemma PairCompiles(hash: PacketHash, budget: u32, first: u32, second: u32)
    requires (forall p :: !Blank(hash(p))) && budget >= 8 && first > 0 && second > 0
    ensures var req, ds := Witness(budget, Pair(first, second)), Fill(Pair(first, second), 8, budget);
            && (ds.Some? ==> Compile(hash, req).Ok? && Choice(req) == ds.value)
            && (ds.None? ==> Compile(hash, req) == Err(TokenBudgetOverflow))
  {
    var req, pair := Witness(budget, Pair(first, second)), Pair(first, second);
    PairIsRanked(first, second);
    FillExactly(pair, 8, budget);
    WitnessCompilesExactlyWhen(hash, budget, pair);
    PickedMembers(RankOptional(pair), Choice(req));
    WitnessCandidates(pair);
    LateErrors(hash, req);
  }

  /** A larger budget can drop an item a smaller one kept: with an eight-token
      envelope, 11 selects only the second item and 13 only the first. */
  lemma LargerBudgetMayDropAnItem(hash: PacketHash)
    requires forall p :: !Blank(hash(p))
    ensures var small := Witness(11, Pair(5, 2));
            && Compile(hash, small).Ok? && Choice(small) == [false, true]
            && Compile(hash, At(small, 13)).Ok? && Choice(At(small, 13)) == [true, false]
  {
    var pair := Pair(5, 2);
    FillTwo(pair[0], pair[1], 8, 11);
    FillTwo(pair[0], pair[1], 8, 13);
    assert [pair[0], pair[1]] == pair;
    PairCompiles(hash, 11, 5, 2);
    PairCompiles(hash, 13, 5, 2);
  }

  /** It can make the compilation overflow: once the first item fits, adding the
      second passes u32 before it can be excluded. */
  lemma LargerBudgetMayOverflow(hash: PacketHash)
    requires forall p :: !Blank(hash(p))
    ensures var small := Witness(8, Pair(0x8000_0000, 0x8000_0000));
            Compile(hash, small).Ok? && Compile(hash, At(small, 0x8000_0008)) == Err(TokenBudgetOverflow)
  {
    var pair := Pair(0x8000_0000, 0x8000_0000);
    FillTwo(pair[0], pair[1], 8, 8);
    FillTwo(pair[0], pair[1], 8, 0x8000_0008);
    assert [pair[0], pair[1]] == pair;
    PairCompiles(hash, 8, 0x8000_0000, 0x8000_0000);
    PairCompiles(hash, 0x8000_0008, 0x8000_0000, 0x8000_0000);
  }

  /** And it can make a foreign item affordable, which the packet's own
      validation then refuses. */
  lemma LargerBudgetMayAdmitAForeigner(hash: PacketHash, tenantId: string)
    requires (forall p :: !Blank(hash(p))) && !Blank(tenantId) && tenantId != TENANT
    ensures var small := Witness(8, [Extra(FIRST, tenantId, 1, 1)]);
            && Compile(hash, small).Ok?
            && Compile(hash, At(small, 9)).Err? && Compile(hash, At(small, 9)).error.InvalidPacket?
  {
    var x := Extra(FIRST, tenantId, 1, 1);
    var small := Witness(8, [x]);
    ForeignerIsRanked(tenantId);
    WitnessCompilesExactlyWhen(hash, 8, [x]);
    WitnessCompilesExactlyWhen(hash, 9, [x]);
    LonelyChoice(x, 8);
    LonelyChoice(x, 9);
    assert x in Chosen(At(small, 9));
    WitnessCandidates([x]);
    LateErrors(hash, At(small, 9));
  }

  lemma ForeignerIsRanked(tenantId: string)
    requires !Blank(tenantId)
    ensures var x := Extra(FIRST, tenantId, 1, 1);
            AllNew({}, Ids([x])) && Marked([x]) && OptionalOk(x, 0)
  {
    var x := Extra(FIRST, tenantId, 1, 1);
    ExtraIsOk(FIRST, tenantId, 1, 1);
  }

  lemma LonelyChoice(x: Candidate, budget: u32)
    requires x.estimatedTokens == 1 && budget >= 8
    ensures RankOptional([x]) == [x] && NoOverflow([x], 8, budget)
    ensures Tokens(Envelope()) == 8 ==> Chosen(Witness(budget, [x])) == if budget >= 9 then [x] else []
  {
    assert [x][1..] == [];
    assert StableSort.Sort([x][1..], ByRank) == [];
    NoOverflowCons([x], 8, budget);
    var ds := Greedy([x], 8, budget);
    assert ds[1..] == [] && ds[0] == (9 <= budget);
    assert Picked([], []) == [];
    PickedCons([x], ds);
  }
}
