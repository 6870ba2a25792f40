/** The deterministic packet compiler
    (crates/ackplane-server/src/context_packet_compiler.rs). */
module ContextPacketCompiler {
  import opened Common
  import opened ContextPackets
  import StableSort
  import opened Projections

  datatype Candidate = Candidate(
    itemId: string, itemKind: ItemKind, sourceReference: string, sourceScope: ItemScope,
    provenance: Provenance, freshness: Freshness, sourceVersion: string, rendered: string,
    reason: SelectionReason, estimatedTokens: u32, relevance: u64)

  datatype Request = Request(
    packetId: string, protocolVersion: string, scope: PacketScope, projectId: Option<string>,
    compilerVersion: string, issuedAt: i64, expiresAt: i64, source: PacketSource, tokenBudget: u32,
    mandatory: seq<Candidate>, optional: seq<Candidate>, rejected: seq<Rejection>)

  datatype CompilerError =
    | ZeroTokenEstimate(itemId: string)
    | StaleCandidate(itemId: string, issuedAt: i64, expiresAt: i64)
    | DuplicateCandidate(itemId: string)
    | MandatoryCandidateMissingRequirement(itemId: string)
    | InvalidMandatoryKind(itemId: string, itemKind: ItemKind, requirement: Requirement)
    | MissingMandatoryRequirement(requirement: Requirement)
    | MandatoryBudgetExceeded(requested: u32, required: u32)
    | TokenBudgetOverflow
    | InvalidPacket(error: PacketError)

  // -------------------------------------------------------------- ordering

  predicate ById(a: Candidate, b: Candidate) { TextLe(a.itemId, b.itemId) }

  predicate ByRank(a: Candidate, b: Candidate) {
    a.relevance > b.relevance || (a.relevance == b.relevance && TextLe(a.itemId, b.itemId))
  }

  predicate RejectedById(a: Rejection, b: Rejection) { TextLe(a.itemId, b.itemId) }

  function SortMandatory(cs: seq<Candidate>): seq<Candidate> { StableSort.Sort(cs, ById) }
  function RankOptional(cs: seq<Candidate>): seq<Candidate> { StableSort.Sort(cs, ByRank) }
  function SortRejected(rs: seq<Rejection>): seq<Rejection> { StableSort.Sort(rs, RejectedById) }

  // ------------------------------------------------------------ candidates

  function SelectionFrom(c: Candidate, mandatory: bool): Selection {
    Selection(c.itemId, c.itemKind, c.sourceReference, c.sourceScope, c.provenance, c.freshness,
              c.sourceVersion, c.rendered, c.reason,
              if mandatory then None else Some(c.relevance), c.estimatedTokens, mandatory)
  }

  function ExclusionFrom(c: Candidate): Exclusion {
    Exclusion(c.itemId, c.itemKind, Ranking(c.relevance, c.estimatedTokens, c.itemId))
  }

  function ValidateCandidate(c: Candidate, mandatory: bool, issuedAt: i64): Outcome<CompilerError> {
    if c.estimatedTokens == 0 then Fail(ZeroTokenEstimate(c.itemId))
    else if c.freshness.expiresAt.Some? && c.freshness.expiresAt.value <= issuedAt
    then Fail(StaleCandidate(c.itemId, issuedAt, c.freshness.expiresAt.value))
    else match ValidateSelection(SelectionFrom(c, mandatory))
      case Fail(e) => Fail(InvalidPacket(e))
      case Pass => Pass
  }

  /** The envelope slot a mandatory candidate must name and fit. */
  function CheckEnvelopeSlot(c: Candidate): Result<Requirement, CompilerError> {
    match c.reason.MandatoryRequirement()
    case None => Err(MandatoryCandidateMissingRequirement(c.itemId))
    case Some(requirement) =>
      if requirement.Accepts(c.itemKind) then Ok(requirement)
      else Err(InvalidMandatoryKind(c.itemId, c.itemKind, requirement))
  }

  function ScanMandatory(cs: seq<Candidate>, issuedAt: i64, at: Scan): Result<Scan, CompilerError> {
    if cs == [] then Ok(at)
    else if cs[0].itemId in at.ids then Err(DuplicateCandidate(cs[0].itemId))
    else match ValidateCandidate(cs[0], true, issuedAt)
      case Fail(e) => Err(e)
      case Pass =>
        match CheckEnvelopeSlot(cs[0])
        case Err(e) => Err(e)
        case Ok(r) => ScanMandatory(cs[1..], issuedAt, Scan(at.ids + {cs[0].itemId}, at.slots + {r}))
  }

  function ScanOptional(cs: seq<Candidate>, issuedAt: i64, seen: set<string>): Result<set<string>, CompilerError> {
    if cs == [] then Ok(seen)
    else if cs[0].itemId in seen then Err(DuplicateCandidate(cs[0].itemId))
    else match ValidateCandidate(cs[0], false, issuedAt)
      case Fail(e) => Err(e)
      case Pass => ScanOptional(cs[1..], issuedAt, seen + {cs[0].itemId})
  }

  function ScanRejected(rs: seq<Rejection>, seen: set<string>): Outcome<CompilerError> {
    if rs == [] then Pass
    else if rs[0].itemId in seen then Fail(DuplicateCandidate(rs[0].itemId))
    else match ValidateRejection(rs[0])
      case Fail(e) => Fail(InvalidPacket(e))
      case Pass => ScanRejected(rs[1..], seen + {rs[0].itemId})
  }

  function Verdict(mandatory: seq<Candidate>, optional: seq<Candidate>, rejected: seq<Rejection>, issuedAt: i64)
    : Outcome<CompilerError>
  {
    match ScanMandatory(mandatory, issuedAt, Scan({}, {}))
    case Err(e) => Fail(e)
    case Ok(scan) =>
      match FirstMissing(ALL_REQUIREMENTS, scan.slots)
      case Some(r) => Fail(MissingMandatoryRequirement(r))
      case None =>
        match ScanOptional(optional, issuedAt, scan.ids)
        case Err(e) => Fail(e)
        case Ok(seen) => ScanRejected(rejected, seen)
  }

  method ValidateCandidates(mandatory: seq<Candidate>, optional: seq<Candidate>, rejected: seq<Rejection>,
                            issuedAt: i64)
    returns (r: Outcome<CompilerError>)
    ensures r == Verdict(mandatory, optional, rejected, issuedAt)
  {
    var seen: set<string>, slots: set<Requirement> := {}, {};
    var i := 0;
    while i < |mandatory|
      invariant 0 <= i <= |mandatory|
      invariant ScanMandatory(mandatory, issuedAt, Scan({}, {})) ==
                ScanMandatory(mandatory[i..], issuedAt, Scan(seen, slots))
    {
      var c := mandatory[i];
      if c.itemId in seen { return Fail(DuplicateCandidate(c.itemId)); }
      var v := ValidateCandidate(c, true, issuedAt);
      if v.Fail? { return v; }
      var slot := CheckEnvelopeSlot(c);
      if slot.Err? { return Fail(slot.error); }
      seen, slots, i := seen + {c.itemId}, slots + {slot.value}, i + 1;
    }
    var j := 0;
    while j < |ALL_REQUIREMENTS|
      invariant 0 <= j <= |ALL_REQUIREMENTS|
      invariant FirstMissing(ALL_REQUIREMENTS, slots) == FirstMissing(ALL_REQUIREMENTS[j..], slots)
    {
      if ALL_REQUIREMENTS[j] !in slots { return Fail(MissingMandatoryRequirement(ALL_REQUIREMENTS[j])); }
      j := j + 1;
    }
    i := 0;
    ghost var base := seen;
    while i < |optional|
      invariant 0 <= i <= |optional|
      invariant ScanOptional(optional, issuedAt, base) == ScanOptional(optional[i..], issuedAt, seen)
    {
      var c := optional[i];
      if c.itemId in seen { return Fail(DuplicateCandidate(c.itemId)); }
      var v := ValidateCandidate(c, false, issuedAt);
      if v.Fail? { return v; }
      seen, i := seen + {c.itemId}, i + 1;
    }
    base := seen;
    i := 0;
    while i < |rejected|
      invariant 0 <= i <= |rejected|
      invariant ScanRejected(rejected, base) == ScanRejected(rejected[i..], seen)
    {
      var c := rejected[i];
      if c.itemId in seen { return Fail(DuplicateCandidate(c.itemId)); }
      var v := ValidateRejection(c);
      if v.Fail? { return Fail(InvalidPacket(v.error)); }
      seen, i := seen + {c.itemId}, i + 1;
    }
    r := Pass;
  }

  // ----------------------------------------------------------- greedy fill

  function Estimate(c: Candidate): nat { c.estimatedTokens }

  function Tokens(cs: seq<Candidate>): nat { Sum(cs, Estimate) }

  function CheckedSum(cs: seq<Candidate>, total: u32): Option<u32> {
    if cs == [] then Some(total)
    else if total + cs[0].estimatedTokens > U32_MAX then None
    else CheckedSum(cs[1..], total + cs[0].estimatedTokens)
  }

  /** One decision per ranked candidate, in rank order; `None` when a
      `checked_add` overflows before the last one. */
  function Fill(ranked: seq<Candidate>, used: u32, budget: u32): Option<seq<bool>> {
    if ranked == [] then Some([])
    else
      var next := used + ranked[0].estimatedTokens;
      if next > U32_MAX then None
      else
        var take := next <= budget;
        match Fill(ranked[1..], if take then next else used, budget)
        case None => None
        case Some(rest) => Some([take] + rest)
  }

  function Picked(cs: seq<Candidate>, ds: seq<bool>): seq<Candidate>
    requires |cs| == |ds|
  {
    if cs == [] then [] else (if ds[0] then [cs[0]] else []) + Picked(cs[1..], ds[1..])
  }

  function Passed(cs: seq<Candidate>, ds: seq<bool>): seq<Candidate>
    requires |cs| == |ds|
  {
    if cs == [] then [] else (if ds[0] then [] else [cs[0]]) + Passed(cs[1..], ds[1..])
  }

  function Selections(cs: seq<Candidate>, mandatory: bool): seq<Selection> {
    seq(|cs|, i requires 0 <= i < |cs| => SelectionFrom(cs[i], mandatory))
  }

  function Exclusions(cs: seq<Candidate>): seq<Exclusion> {
    seq(|cs|, i requires 0 <= i < |cs| => ExclusionFrom(cs[i]))
  }

  lemma {:induction false} FillLength(ranked: seq<Candidate>, used: u32, budget: u32)
    ensures Fill(ranked, used, budget).Some? ==> |Fill(ranked, used, budget).value| == |ranked|
  {
    if ranked != [] && used + ranked[0].estimatedTokens <= U32_MAX {
      var next := used + ranked[0].estimatedTokens;
      FillLength(ranked[1..], if next <= budget then next else used, budget);
    }
  }

  /** The optional items never push the total past the budget. */
  lemma {:induction false} FillFits(ranked: seq<Candidate>, used: u32, budget: u32)
    requires used <= budget && Fill(ranked, used, budget).Some?
    ensures |Fill(ranked, used, budget).value| == |ranked|
    ensures used + Tokens(Picked(ranked, Fill(ranked, used, budget).value)) <= budget
  {
    FillLength(ranked, used, budget);
    if ranked != [] {
      var next := used + ranked[0].estimatedTokens;
      var rest := Fill(ranked[1..], if next <= budget then next else used, budget).value;
      assert Fill(ranked, used, budget).value[1..] == rest;
      FillFits(ranked[1..], if next <= budget then next else used, budget);
      SumConcat([ranked[0]], Picked(ranked[1..], rest), Estimate);
      assert [] + Picked(ranked[1..], rest) == Picked(ranked[1..], rest);
      assert Tokens([ranked[0]]) == ranked[0].estimatedTokens;
    }
  }

  function Assemble(req: Request, mandatory: seq<Candidate>, ranked: seq<Candidate>, rejected: seq<Rejection>,
                    ds: seq<bool>): Packet
    requires |ds| == |ranked|
    requires Tokens(mandatory) + Tokens(Picked(ranked, ds)) <= req.tokenBudget
  {
    Packet(req.packetId, "", req.protocolVersion, req.scope, req.projectId, req.compilerVersion,
           req.issuedAt, req.expiresAt, req.source,
           TokenBudget(req.tokenBudget, Tokens(mandatory) + Tokens(Picked(ranked, ds))),
           Selections(mandatory, true) + Selections(Picked(ranked, ds), false),
           Exclusions(Passed(ranked, ds)), rejected)
  }

  lemma {:induction false} CheckedSumMeaning(cs: seq<Candidate>, total: u32)
    ensures CheckedSum(cs, total) ==
            if total + Tokens(cs) <= U32_MAX then Some(total + Tokens(cs)) else None
  {
    if cs != [] && total + cs[0].estimatedTokens <= U32_MAX {
      CheckedSumMeaning(cs[1..], total + cs[0].estimatedTokens);
    }
  }

  /** Everything up to sealing: the checks, the reserved envelope, the fill. */
  function Decide(req: Request, mandatory: seq<Candidate>, ranked: seq<Candidate>, rejected: seq<Rejection>)
    : (r: Result<seq<bool>, CompilerError>)
    ensures r.Ok? ==>
              && |r.value| == |ranked|
              && Tokens(mandatory) + Tokens(Picked(ranked, r.value)) <= req.tokenBudget
  {
    match Verdict(mandatory, ranked, rejected, req.issuedAt)
    case Fail(e) => Err(e)
    case Pass =>
      match CheckedSum(mandatory, 0)
      case None => Err(TokenBudgetOverflow)
      case Some(needed) =>
        if needed > req.tokenBudget then Err(MandatoryBudgetExceeded(req.tokenBudget, needed))
        else match Fill(ranked, needed, req.tokenBudget)
          case None => Err(TokenBudgetOverflow)
          case Some(ds) =>
            CheckedSumMeaning(mandatory, 0);
            FillFits(ranked, needed, req.tokenBudget);
            Ok(ds)
  }

  function CompileSorted(hash: PacketHash, req: Request, mandatory: seq<Candidate>, ranked: seq<Candidate>,
                         rejected: seq<Rejection>): Result<Packet, CompilerError>
  {
    match Decide(req, mandatory, ranked, rejected)
    case Err(e) => Err(e)
    case Ok(ds) =>
      match Seal(hash, Assemble(req, mandatory, ranked, rejected, ds))
      case Err(e) => Err(InvalidPacket(e))
      case Ok(p) => Ok(p)
  }

  function Compile(hash: PacketHash, req: Request): Result<Packet, CompilerError> {
    CompileSorted(hash, req, SortMandatory(req.mandatory), RankOptional(req.optional), SortRejected(req.rejected))
  }

  /** The selection loop's variables. */
  datatype Filling = Filling(used: u32, selected: seq<Selection>, excluded: seq<Exclusion>)

  /** One turn of the selection loop, `None` on overflow. */
  function FillStep(c: Candidate, at: Filling, budget: u32): Option<Filling> {
    var next := at.used + c.estimatedTokens;
    if next > U32_MAX then None
    else if next <= budget
    then Some(Filling(next, at.selected + [SelectionFrom(c, false)], at.excluded))
    else Some(at.(excluded := at.excluded + [ExclusionFrom(c)]))
  }

  function FillFrom(ranked: seq<Candidate>, at: Filling, budget: u32): Option<Filling> {
    if ranked == [] then Some(at)
    else match FillStep(ranked[0], at, budget)
      case None => None
      case Some(next) => FillFrom(ranked[1..], next, budget)
  }

  /** The loop's variables at the end, in terms of the decisions alone. */
  ghost function Extended(at: Filling, picked: seq<Candidate>, passed: seq<Candidate>): Filling
    requires at.used + Tokens(picked) <= U32_MAX
  {
    Filling(at.used + Tokens(picked), at.selected + Selections(picked, false), at.excluded + Exclusions(passed))
  }

  lemma ExtendedEmpty(at: Filling)
    ensures Extended(at, [], []) == at
  {
    assert Selections([], false) == [] && Exclusions([]) == [];
  }

  lemma ExtendedPick(c: Candidate, at: Filling, picked: seq<Candidate>, passed: seq<Candidate>)
    requires at.used + c.estimatedTokens + Tokens(picked) <= U32_MAX
    ensures Tokens([c] + picked) == c.estimatedTokens + Tokens(picked)
    ensures Extended(Filling(at.used + c.estimatedTokens, at.selected + [SelectionFrom(c, false)], at.excluded),
                     picked, passed) == Extended(at, [c] + picked, passed)
  {
    TokensCons(c, picked);
    SelectionsCons(c, picked);
  }

  lemma ExtendedPass(c: Candidate, at: Filling, picked: seq<Candidate>, passed: seq<Candidate>)
    requires at.used + Tokens(picked) <= U32_MAX
    ensures Extended(at.(excluded := at.excluded + [ExclusionFrom(c)]), picked, passed)
            == Extended(at, picked, [c] + passed)
  {
    SelectionsCons(c, passed);
  }

  lemma {:induction false} FillFromMeaning(ranked: seq<Candidate>, at: Filling, budget: u32)
    requires at.used <= budget
    ensures FillFrom(ranked, at, budget).None? <==> Fill(ranked, at.used, budget).None?
    ensures FillFrom(ranked, at, budget).Some? ==>
              var ds := Fill(ranked, at.used, budget).value;
              && |ds| == |ranked|
              && at.used + Tokens(Picked(ranked, ds)) <= budget
              && FillFrom(ranked, at, budget).value == Extended(at, Picked(ranked, ds), Passed(ranked, ds))
  {
    if ranked == [] {
      ExtendedEmpty(at);
    } else if at.used + ranked[0].estimatedTokens <= U32_MAX {
      var c, rest, next := ranked[0], ranked[1..], FillStep(ranked[0], at, budget).value;
      FillFromMeaning(rest, next, budget);
      if Fill(rest, next.used, budget).Some? {
        var tail := Fill(rest, next.used, budget).value;
        var ds := [at.used + c.estimatedTokens <= budget] + tail;
        assert Fill(ranked, at.used, budget) == Some(ds) && ds[1..] == tail;
        PickedCons(ranked, ds);
        if ds[0] {
          ExtendedPick(c, at, Picked(rest, tail), Passed(rest, tail));
        } else {
          ExtendedPass(c, at, Picked(rest, tail), Passed(rest, tail));
        }
      }
    }
  }

  lemma PickedCons(cs: seq<Candidate>, ds: seq<bool>)
    requires |ds| == |cs| > 0
    ensures Picked(cs, ds) == if ds[0] then [cs[0]] + Picked(cs[1..], ds[1..]) else Picked(cs[1..], ds[1..])
    ensures Passed(cs, ds) == if ds[0] then Passed(cs[1..], ds[1..]) else [cs[0]] + Passed(cs[1..], ds[1..])
  {}

  lemma SelectionsCons(c: Candidate, cs: seq<Candidate>)
    ensures Selections([c] + cs, false) == [SelectionFrom(c, false)] + Selections(cs, false)
    ensures Exclusions([c] + cs) == [ExclusionFrom(c)] + Exclusions(cs)
  {}

  lemma TokensCons(c: Candidate, cs: seq<Candidate>)
    ensures Tokens([c] + cs) == c.estimatedTokens + Tokens(cs)
  {
    assert ([c] + cs)[1..] == cs;
  }

  method FillLoop(ranked: seq<Candidate>, mandatory: seq<Selection>, needed: u32, budget: u32)
    returns (r: Option<Filling>)
    ensures r == FillFrom(ranked, Filling(needed, mandatory, []), budget)
  {
    var used: u32, selected, excluded: seq<Exclusion> := needed, mandatory, [];
    var i := 0;
    while i < |ranked|
      invariant 0 <= i <= |ranked|
      invariant FillFrom(ranked, Filling(needed, mandatory, []), budget) ==
                FillFrom(ranked[i..], Filling(used, selected, excluded), budget)
    {
      var c := ranked[i];
      if used + c.estimatedTokens > U32_MAX { return None; }
      if used + c.estimatedTokens <= budget {
        used, selected := used + c.estimatedTokens, selected + [SelectionFrom(c, false)];
      } else {
        excluded := excluded + [ExclusionFrom(c)];
      }
      i := i + 1;
    }
    r := Some(Filling(used, selected, excluded));
  }

  method SumMandatory(mandatory: seq<Candidate>) returns (r: Option<u32>)
    ensures r == CheckedSum(mandatory, 0)
    ensures r == if Tokens(mandatory) <= U32_MAX then Some(Tokens(mandatory)) else None
  {
    CheckedSumMeaning(mandatory, 0);
    var total: u32, i := 0, 0;
    while i < |mandatory|
      invariant 0 <= i <= |mandatory|
      invariant CheckedSum(mandatory, 0) == CheckedSum(mandatory[i..], total)
    {
      if total + mandatory[i].estimatedTokens > U32_MAX { return None; }
      total, i := total + mandatory[i].estimatedTokens, i + 1;
    }
    r := Some(total);
  }

  method CompileContextPacket(hash: PacketHash, req: Request) returns (r: Result<Packet, CompilerError>)
    ensures r == Compile(hash, req)
  {
    var mandatory := SortMandatory(req.mandatory);
    var ranked := RankOptional(req.optional);
    var rejected := SortRejected(req.rejected);
    var verdict := ValidateCandidates(mandatory, ranked, rejected, req.issuedAt);
    if verdict.Fail? { return Err(verdict.error); }

    var total := SumMandatory(mandatory);
    if total.None? { return Err(TokenBudgetOverflow); }
    var needed := total.value;
    if needed > req.tokenBudget { return Err(MandatoryBudgetExceeded(req.tokenBudget, needed)); }
    CheckedSumMeaning(mandatory, 0);

    var filled := FillLoop(ranked, Selections(mandatory, true), needed, req.tokenBudget);
    FillFromMeaning(ranked, Filling(needed, Selections(mandatory, true), []), req.tokenBudget);
    if filled.None? { return Err(TokenBudgetOverflow); }
    var Filling(used, selected, excluded) := filled.value;
    ghost var ds := Fill(ranked, needed, req.tokenBudget).value;
    assert [] + Exclusions(Passed(ranked, ds)) == Exclusions(Passed(ranked, ds));
    var assembled := Packet(req.packetId, "", req.protocolVersion, req.scope, req.projectId, req.compilerVersion,
                            req.issuedAt, req.expiresAt, req.source, TokenBudget(req.tokenBudget, used),
                            selected, excluded, rejected);
    assert assembled == Assemble(req, mandatory, ranked, rejected, ds);
    match Seal(hash, assembled)
    case Err(e) => r := Err(InvalidPacket(e));
    case Ok(p) => r := Ok(p);
  }
}
