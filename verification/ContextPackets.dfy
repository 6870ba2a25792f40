/** The ContextPacket protocol types and their own validation and sealing
    (crates/ackplane-protocol/src/context_packet). */
module ContextPackets {
  import opened Common

  datatype ItemScope = ItemScope(
    tenantId: string, repositoryId: string,
    projectId: Option<string>, taskId: Option<string>, goalId: Option<string>)

  datatype Provenance = Provenance(recordedBy: string, recordedAt: i64, evidenceReference: Option<string>)

  datatype Freshness = Freshness(observedAt: i64, expiresAt: Option<i64>)

  datatype ItemKind =
    | KTargetIdentity | KObjective | KAcceptance | KConstitution | KPolicy | KSafetyControl
    | KEvidenceCondition | KTaskLease | KEvidence | KKnowledge | KOutcome | KStructural

  datatype Requirement =
    | TargetIdentity | TaskLease | Objective | Acceptance
    | Constitution | Policy | SafetyControl | EvidenceCondition
  {
    predicate Accepts(kind: ItemKind) {
      match this
      case TargetIdentity => kind.KTargetIdentity?
      case TaskLease => kind.KTaskLease?
      case Objective => kind.KObjective?
      case Acceptance => kind.KAcceptance?
      case Constitution => kind.KConstitution?
      case Policy => kind.KPolicy?
      case SafetyControl => kind.KSafetyControl?
      case EvidenceCondition => kind.KEvidenceCondition?
    }
  }

  /** Every envelope slot, in the order missing slots are reported. */
  const ALL_REQUIREMENTS: seq<Requirement> :=
    [TargetIdentity, TaskLease, Objective, Acceptance, Constitution, Policy, SafetyControl, EvidenceCondition]

  datatype SelectionReason =
    | RequiredTargetIdentity | RequiredTaskLease | RequiredObjective | RequiredAcceptance
    | RequiredConstitution | RequiredPolicy | RequiredSafetyControl | RequiredEvidenceCondition
    | ExplicitTaskReference | EvidenceLink | GraphReach | SemanticSimilarity | WorkingSet | PriorOutcome
  {
    function MandatoryRequirement(): Option<Requirement> {
      match this
      case RequiredTargetIdentity => Some(TargetIdentity)
      case RequiredTaskLease => Some(TaskLease)
      case RequiredObjective => Some(Objective)
      case RequiredAcceptance => Some(Acceptance)
      case RequiredConstitution => Some(Constitution)
      case RequiredPolicy => Some(Policy)
      case RequiredSafetyControl => Some(SafetyControl)
      case RequiredEvidenceCondition => Some(EvidenceCondition)
      case _ => None
    }
  }

  datatype Selection = Selection(
    itemId: string, itemKind: ItemKind, sourceReference: string, sourceScope: ItemScope,
    provenance: Provenance, freshness: Freshness, sourceVersion: string, rendered: string,
    reason: SelectionReason, effectiveRelevance: Option<u64>, estimatedTokens: u32, mandatory: bool)

  datatype Ranking = Ranking(effectiveRelevance: u64, estimatedTokens: u32, stableTieBreaker: string)

  datatype Exclusion = Exclusion(itemId: string, itemKind: ItemKind, ranking: Ranking)

  datatype RejectionReason = Unauthorized | StaleBeyondPolicy | Retired | OutOfScope | MissingRequiredEvidence

  datatype Rejection = Rejection(
    itemId: string, itemKind: ItemKind, sourceReference: string, sourceVersion: string, reason: RejectionReason)

  datatype PacketScope = PacketScope(
    tenantId: string, repositoryId: string, taskId: string, goalId: string, agentSessionId: string)

  datatype PacketSource = PacketSource(ledgerPosition: u64, projectionPosition: u64)

  datatype TokenBudget = TokenBudget(requested: u32, used: u32)

  datatype Packet = Packet(
    packetId: string, digest: string, protocolVersion: string, scope: PacketScope,
    projectId: Option<string>, compilerVersion: string, issuedAt: i64, expiresAt: i64,
    source: PacketSource, tokenBudget: TokenBudget,
    selected: seq<Selection>, budgetExcluded: seq<Exclusion>, rejected: seq<Rejection>)

  datatype PacketError =
    | EmptyField(field: string)
    | SourceTenantMismatch(itemId: string)
    | ExpiryMustFollowIssuance
    | FreshnessExpiryMustFollowObservation
    | TokenBudgetExceeded(requested: u32, used: u32)
    | TokenBudgetUsageMismatch(declared: u32, selected: u32)
    | TokenBudgetArithmeticOverflow
    | DuplicateSelectedItem(itemId: string)
    | DuplicatePacketItem(itemId: string)
    | ZeroTokens(itemId: string)
    | MandatorySelectionMissingRequirement(itemId: string)
    | MandatorySelectionKindMismatch(itemId: string, itemKind: ItemKind, requirement: Requirement)
    | MissingMandatoryEnvelopeRequirement(requirement: Requirement)
    | MandatorySelectionHasRelevance(itemId: string)
    | OptionalSelectionUsesMandatoryReason(itemId: string)
    | OptionalSelectionMissingRelevance(itemId: string)
    | RankingTieBreakerMismatch(itemId: string, tieBreaker: string)
    | DigestMismatch(expected: string, actual: string)

  // ---------------------------------------------------------------- items

  /** The first blank field of a list of named fields. */
  function NonEmptyFields(fields: seq<(string, string)>): Outcome<PacketError> {
    if fields == [] then Pass
    else if Blank(fields[0].1) then Fail(EmptyField(fields[0].0))
    else NonEmptyFields(fields[1..])
  }

  function ValidateItemScope(s: ItemScope): Outcome<PacketError> {
    if Blank(s.tenantId) then Fail(EmptyField("selected.source_scope.tenant_id"))
    else if Blank(s.repositoryId) then Fail(EmptyField("selected.source_scope.repository_id"))
    else if OptionalBlank(s.projectId) then Fail(EmptyField("selected.source_scope.project_id"))
    else if OptionalBlank(s.taskId) then Fail(EmptyField("selected.source_scope.task_id"))
    else if OptionalBlank(s.goalId) then Fail(EmptyField("selected.source_scope.goal_id"))
    else Pass
  }

  function ValidateProvenance(p: Provenance): Outcome<PacketError> {
    if Blank(p.recordedBy) then Fail(EmptyField("selected.provenance.recorded_by"))
    else if OptionalBlank(p.evidenceReference) then Fail(EmptyField("selected.provenance.evidence_reference"))
    else Pass
  }

  function ValidateFreshness(f: Freshness): Outcome<PacketError> {
    if f.expiresAt.Some? && f.expiresAt.value <= f.observedAt then Fail(FreshnessExpiryMustFollowObservation)
    else Pass
  }

  function ValidateSelectionRole(s: Selection): Outcome<PacketError> {
    match (s.mandatory, s.reason.MandatoryRequirement())
    case (true, Some(_)) =>
      if s.effectiveRelevance.None? then Pass else Fail(MandatorySelectionHasRelevance(s.itemId))
    case (true, None) => Fail(MandatorySelectionMissingRequirement(s.itemId))
    case (false, Some(_)) => Fail(OptionalSelectionUsesMandatoryReason(s.itemId))
    case (false, None) =>
      if s.effectiveRelevance.Some? then Pass else Fail(OptionalSelectionMissingRelevance(s.itemId))
  }

  function ValidateSelection(s: Selection): Outcome<PacketError> {
    if Blank(s.itemId) then Fail(EmptyField("selected.item_id"))
    else if Blank(s.sourceReference) then Fail(EmptyField("selected.source_reference"))
    else if Blank(s.sourceVersion) then Fail(EmptyField("selected.source_version"))
    else if Blank(s.rendered) then Fail(EmptyField("selected.rendered"))
    else if ValidateItemScope(s.sourceScope).Fail? then ValidateItemScope(s.sourceScope)
    else if ValidateProvenance(s.provenance).Fail? then ValidateProvenance(s.provenance)
    else if ValidateFreshness(s.freshness).Fail? then ValidateFreshness(s.freshness)
    else if s.estimatedTokens == 0 then Fail(ZeroTokens(s.itemId))
    else ValidateSelectionRole(s)
  }

  function ValidateExclusion(e: Exclusion): Outcome<PacketError> {
    if Blank(e.itemId) then Fail(EmptyField("budget_excluded.item_id"))
    else if e.ranking.estimatedTokens == 0 then Fail(ZeroTokens(e.itemId))
    else if Blank(e.ranking.stableTieBreaker) then Fail(EmptyField("budget_excluded.ranking.stable_tie_breaker"))
    else if e.ranking.stableTieBreaker != e.itemId
    then Fail(RankingTieBreakerMismatch(e.itemId, e.ranking.stableTieBreaker))
    else Pass
  }

  function ValidateRejection(r: Rejection): Outcome<PacketError> {
    if Blank(r.itemId) then Fail(EmptyField("rejected.item_id"))
    else if Blank(r.sourceReference) then Fail(EmptyField("rejected.source_reference"))
    else if Blank(r.sourceVersion) then Fail(EmptyField("rejected.source_version"))
    else Pass
  }

  function ValidateScope(s: PacketScope): Outcome<PacketError> {
    NonEmptyFields([("tenant_id", s.tenantId), ("repository_id", s.repositoryId), ("task_id", s.taskId),
                    ("goal_id", s.goalId), ("agent_session_id", s.agentSessionId)])
  }

  // --------------------------------------------------------------- packets

  /** One selected item as `validate_content` checks it. */
  function CheckSelectedItem(s: Selection, tenantId: string, ids: set<string>): Outcome<PacketError> {
    if ValidateSelection(s).Fail? then ValidateSelection(s)
    else if s.sourceScope.tenantId != tenantId then Fail(SourceTenantMismatch(s.itemId))
    else if s.itemId in ids then Fail(DuplicateSelectedItem(s.itemId))
    else if !s.mandatory then Pass
    else match s.reason.MandatoryRequirement()
      case None => Fail(MandatorySelectionMissingRequirement(s.itemId))
      case Some(requirement) =>
        if !requirement.Accepts(s.itemKind)
        then Fail(MandatorySelectionKindMismatch(s.itemId, s.itemKind, requirement))
        else Pass
  }

  /** The slot a selection fills, if it is mandatory. */
  function SlotOf(s: Selection): set<Requirement> {
    if s.mandatory && s.reason.MandatoryRequirement().Some?
    then {s.reason.MandatoryRequirement().value} else {}
  }

  datatype Scan = Scan(ids: set<string>, slots: set<Requirement>)

  function CheckSelected(sel: seq<Selection>, tenantId: string, at: Scan): Result<Scan, PacketError> {
    if sel == [] then Ok(at)
    else match CheckSelectedItem(sel[0], tenantId, at.ids)
      case Fail(e) => Err(e)
      case Pass => CheckSelected(sel[1..], tenantId, Scan(at.ids + {sel[0].itemId}, at.slots + SlotOf(sel[0])))
  }

  function CheckExcluded(xs: seq<Exclusion>, ids: set<string>): Result<set<string>, PacketError> {
    if xs == [] then Ok(ids)
    else if ValidateExclusion(xs[0]).Fail? then Err(ValidateExclusion(xs[0]).error)
    else if xs[0].itemId in ids then Err(DuplicatePacketItem(xs[0].itemId))
    else CheckExcluded(xs[1..], ids + {xs[0].itemId})
  }

  function CheckRejected(rs: seq<Rejection>, ids: set<string>): Result<set<string>, PacketError> {
    if rs == [] then Ok(ids)
    else if ValidateRejection(rs[0]).Fail? then Err(ValidateRejection(rs[0]).error)
    else if rs[0].itemId in ids then Err(DuplicatePacketItem(rs[0].itemId))
    else CheckRejected(rs[1..], ids + {rs[0].itemId})
  }

  /** The first slot, in reporting order, that `slots` leaves open. */
  function FirstMissing(all: seq<Requirement>, slots: set<Requirement>): Option<Requirement> {
    if all == [] then None
    else if all[0] !in slots then Some(all[0])
    else FirstMissing(all[1..], slots)
  }

  /** `try_fold` with `checked_add` over the selected estimates. */
  function CheckedTokens(sel: seq<Selection>, total: u32): Option<u32> {
    if sel == [] then Some(total)
    else if total + sel[0].estimatedTokens > U32_MAX then None
    else CheckedTokens(sel[1..], total + sel[0].estimatedTokens)
  }

  function ValidateItems(p: Packet): Outcome<PacketError> {
    match CheckSelected(p.selected, p.scope.tenantId, Scan({}, {}))
    case Err(e) => Fail(e)
    case Ok(scan) =>
      match FirstMissing(ALL_REQUIREMENTS, scan.slots)
      case Some(requirement) => Fail(MissingMandatoryEnvelopeRequirement(requirement))
      case None =>
        match CheckExcluded(p.budgetExcluded, scan.ids)
        case Err(e) => Fail(e)
        case Ok(ids) =>
          match CheckRejected(p.rejected, ids)
          case Err(e) => Fail(e)
          case Ok(_) =>
            match CheckedTokens(p.selected, 0)
            case None => Fail(TokenBudgetArithmeticOverflow)
            case Some(total) =>
              if total != p.tokenBudget.used
              then Fail(TokenBudgetUsageMismatch(p.tokenBudget.used, total))
              else Pass
  }

  function ValidateContent(p: Packet): Outcome<PacketError> {
    if Blank(p.packetId) then Fail(EmptyField("packet_id"))
    else if Blank(p.protocolVersion) then Fail(EmptyField("protocol_version"))
    else if OptionalBlank(p.projectId) then Fail(EmptyField("project_id"))
    else if Blank(p.compilerVersion) then Fail(EmptyField("compiler_version"))
    else if ValidateScope(p.scope).Fail? then ValidateScope(p.scope)
    else if p.expiresAt <= p.issuedAt then Fail(ExpiryMustFollowIssuance)
    else if p.tokenBudget.used > p.tokenBudget.requested
    then Fail(TokenBudgetExceeded(p.tokenBudget.requested, p.tokenBudget.used))
    else ValidateItems(p)
  }

  /** `hash` stands for SHA-256 over the canonical serialization, rendered as
      hex text; it is applied to the packet with its digest field cleared. */
  type PacketHash = Packet -> string

  function ComputedDigest(hash: PacketHash, p: Packet): string {
    hash(p.(digest := ""))
  }

  function ValidatePacket(hash: PacketHash, p: Packet): Outcome<PacketError> {
    if ValidateContent(p).Fail? then ValidateContent(p)
    else if Blank(p.digest) then Fail(EmptyField("digest"))
    else if p.digest != ComputedDigest(hash, p) then Fail(DigestMismatch(ComputedDigest(hash, p), p.digest))
    else Pass
  }

  function Seal(hash: PacketHash, p: Packet): Result<Packet, PacketError> {
    if ValidateContent(p).Fail? then Err(ValidateContent(p).error)
    else
      var sealed := p.(digest := ComputedDigest(hash, p));
      match ValidatePacket(hash, sealed)
      case Fail(e) => Err(e)
      case Pass => Ok(sealed)
  }

  // ------------------------------------------- what the checks amount to

  function SelectionIds(sel: seq<Selection>): seq<string> {
    seq(|sel|, i requires 0 <= i < |sel| => sel[i].itemId)
  }

  function ExclusionIds(xs: seq<Exclusion>): seq<string> {
    seq(|xs|, i requires 0 <= i < |xs| => xs[i].itemId)
  }

  function RejectionIds(rs: seq<Rejection>): seq<string> {
    seq(|rs|, i requires 0 <= i < |rs| => rs[i].itemId)
  }

  function Elements<T>(s: seq<T>): set<T> {
    set x | x in s
  }

  /** Everything `CheckSelectedItem` asks of an item besides a fresh id. */
  predicate SelectionFits(s: Selection, tenantId: string) {
    && ValidateSelection(s).Pass?
    && s.sourceScope.tenantId == tenantId
    && (s.mandatory ==>
          && s.reason.MandatoryRequirement().Some?
          && s.reason.MandatoryRequirement().value.Accepts(s.itemKind))
  }

  ghost function Slots(sel: seq<Selection>): set<Requirement> {
    set i, r | 0 <= i < |sel| && r in SlotOf(sel[i]) :: r
  }

  lemma SlotsCons(sel: seq<Selection>, slots: set<Requirement>)
    requires sel != []
    ensures slots + SlotOf(sel[0]) + Slots(sel[1..]) == slots + Slots(sel)
  {
    var rest := sel[1..];
    forall r | r in Slots(rest) ensures r in Slots(sel) {
      var i :| 0 <= i < |rest| && r in SlotOf(rest[i]);
      assert rest[i] == sel[i + 1];
    }
    forall r | r in Slots(sel) ensures r in SlotOf(sel[0]) || r in Slots(rest) {
      var i :| 0 <= i < |sel| && r in SlotOf(sel[i]);
      if i > 0 { assert rest[i - 1] == sel[i]; }
    }
  }

  lemma ElementsCons<T>(x: T, rest: seq<T>, ids: set<T>)
    ensures ids + {x} + Elements(rest) == ids + Elements([x] + rest)
  {
    assert forall y :: y in [x] + rest <==> y == x || y in rest;
  }

  lemma CheckItemMeaning(s: Selection, tenantId: string, ids: set<string>)
    ensures CheckSelectedItem(s, tenantId, ids).Pass? <==> SelectionFits(s, tenantId) && s.itemId !in ids
  {}

  lemma {:induction false} CheckSelectedMeaning(sel: seq<Selection>, tenantId: string, at: Scan)
    ensures CheckSelected(sel, tenantId, at).Ok? <==>
            (forall s :: s in sel ==> SelectionFits(s, tenantId)) && AllNew(at.ids, SelectionIds(sel))
    ensures CheckSelected(sel, tenantId, at).Ok? ==>
              CheckSelected(sel, tenantId, at).value ==
              Scan(at.ids + Elements(SelectionIds(sel)), at.slots + Slots(sel))
  {
    if sel == [] {
      assert at.ids + Elements(SelectionIds(sel)) == at.ids;
      assert at.slots + Slots(sel) == at.slots;
    } else {
      var rest, ids := sel[1..], SelectionIds(sel);
      var next := Scan(at.ids + {sel[0].itemId}, at.slots + SlotOf(sel[0]));
      CheckSelectedMeaning(rest, tenantId, next);
      AllNewCons(at.ids, ids);
      assert ids[1..] == SelectionIds(rest);
      assert sel == [sel[0]] + rest;
      CheckItemMeaning(sel[0], tenantId, at.ids);
      assert ids == [sel[0].itemId] + SelectionIds(rest);
      ElementsCons(sel[0].itemId, SelectionIds(rest), at.ids);
      SlotsCons(sel, at.slots);
    }
  }

  lemma {:induction false} CheckExcludedMeaning(xs: seq<Exclusion>, ids: set<string>)
    ensures CheckExcluded(xs, ids).Ok? <==>
            (forall x :: x in xs ==> ValidateExclusion(x).Pass?) && AllNew(ids, ExclusionIds(xs))
    ensures CheckExcluded(xs, ids).Ok? ==> CheckExcluded(xs, ids).value == ids + Elements(ExclusionIds(xs))
  {
    if xs == [] {
      assert ids + Elements(ExclusionIds(xs)) == ids;
    } else {
      var rest, all := xs[1..], ExclusionIds(xs);
      CheckExcludedMeaning(rest, ids + {xs[0].itemId});
      AllNewCons(ids, all);
      assert all[1..] == ExclusionIds(rest);
      assert xs == [xs[0]] + rest && all == [xs[0].itemId] + ExclusionIds(rest);
      ElementsCons(xs[0].itemId, ExclusionIds(rest), ids);
    }
  }

  lemma {:induction false} CheckRejectedMeaning(rs: seq<Rejection>, ids: set<string>)
    ensures CheckRejected(rs, ids).Ok? <==>
            (forall r :: r in rs ==> ValidateRejection(r).Pass?) && AllNew(ids, RejectionIds(rs))
  {
    if rs != [] {
      var rest, all := rs[1..], RejectionIds(rs);
      CheckRejectedMeaning(rest, ids + {rs[0].itemId});
      AllNewCons(ids, all);
      assert all[1..] == RejectionIds(rest);
      assert rs == [rs[0]] + rest;
    }
  }

  lemma {:induction false} FirstMissingMeaning(all: seq<Requirement>, slots: set<Requirement>)
    ensures FirstMissing(all, slots).None? <==> forall r :: r in all ==> r in slots
  {
    if all != [] {
      FirstMissingMeaning(all[1..], slots);
      assert all == [all[0]] + all[1..];
    }
  }

  lemma EveryRequirementListed(r: Requirement)
    ensures r in ALL_REQUIREMENTS
  {
    match r
    case TargetIdentity => assert ALL_REQUIREMENTS[0] == r;
    case TaskLease => assert ALL_REQUIREMENTS[1] == r;
    case Objective => assert ALL_REQUIREMENTS[2] == r;
    case Acceptance => assert ALL_REQUIREMENTS[3] == r;
    case Constitution => assert ALL_REQUIREMENTS[4] == r;
    case Policy => assert ALL_REQUIREMENTS[5] == r;
    case SafetyControl => assert ALL_REQUIREMENTS[6] == r;
    case EvidenceCondition => assert ALL_REQUIREMENTS[7] == r;
  }

  function SelectionTokens(sel: seq<Selection>): nat {
    if sel == [] then 0 else sel[0].estimatedTokens + SelectionTokens(sel[1..])
  }

  lemma {:induction false} CheckedTokensMeaning(sel: seq<Selection>, total: u32)
    ensures CheckedTokens(sel, total) ==
            if total + SelectionTokens(sel) <= U32_MAX then Some(total + SelectionTokens(sel)) else None
  {
    if sel != [] && total + sel[0].estimatedTokens <= U32_MAX {
      CheckedTokensMeaning(sel[1..], total + sel[0].estimatedTokens);
    }
  }

  /** What a packet's item checks accept, stated without the scan: every item
      valid on its own and in the packet's tenant, every slot filled, no id in
      two places, and the declared use equal to the sum of the estimates. */
  ghost predicate WellFormedItems(p: Packet) {
    && (forall s :: s in p.selected ==> SelectionFits(s, p.scope.tenantId))
    && (forall r: Requirement :: r in Slots(p.selected))
    && (forall x :: x in p.budgetExcluded ==> ValidateExclusion(x).Pass?)
    && (forall r :: r in p.rejected ==> ValidateRejection(r).Pass?)
    && AllNew({}, SelectionIds(p.selected) + ExclusionIds(p.budgetExcluded) + RejectionIds(p.rejected))
    && SelectionTokens(p.selected) == p.tokenBudget.used
  }

  lemma ValidateItemsMeaning(p: Packet)
    ensures ValidateItems(p).Pass? <==> WellFormedItems(p)
  {
    var sIds, xIds, rIds := SelectionIds(p.selected), ExclusionIds(p.budgetExcluded), RejectionIds(p.rejected);
    var start := Scan({}, {});
    CheckSelectedMeaning(p.selected, p.scope.tenantId, start);
    AllNewConcat({}, sIds + xIds, rIds);
    AllNewConcat({}, sIds, xIds);
    assert {} + Elements(sIds) == Elements(sIds);
    assert Elements(sIds) + Elements(xIds) == {} + Elements(sIds + xIds);
    FirstMissingMeaning(ALL_REQUIREMENTS, Slots(p.selected));
    assert {} + Slots(p.selected) == Slots(p.selected);
    forall r: Requirement ensures r in ALL_REQUIREMENTS { EveryRequirementListed(r); }
    CheckExcludedMeaning(p.budgetExcluded, Elements(sIds));
    CheckRejectedMeaning(p.rejected, Elements(sIds) + Elements(xIds));
    CheckedTokensMeaning(p.selected, 0);
  }

  /** A sealed packet is the assembled one with its digest filled in, it passes
      full validation, and sealing it again changes nothing. */
  lemma SealValidates(hash: PacketHash, p: Packet)
    requires Seal(hash, p).Ok?
    ensures Seal(hash, p).value == p.(digest := ComputedDigest(hash, p))
    ensures ValidatePacket(hash, Seal(hash, p).value).Pass?
    ensures Seal(hash, Seal(hash, p).value) == Seal(hash, p)
  {
    var sealed := Seal(hash, p).value;
    assert sealed.(digest := "") == p.(digest := "");
  }
}
