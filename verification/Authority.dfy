/** Delegated financial authority (src/ap_agent/domain/rules/authority.py). */
module Authority {
  import opened Prelude
  import opened Domain
  import opened Money

  /** The monetary limit of a role. The CEO has no ceiling; Financial Control has no limit of its own. */
  function LimitOf(role: Role): Option<real> {
    match role
    case CostCentreManager => Some(10000.0)
    case DepartmentDirector => Some(50000.0)
    case ExecutiveDirector => Some(250000.0)
    case Cfo => Some(1000000.0)
    case Ceo => None
    case FinancialControl => None
  }

  const LADDER: seq<Role> := [CostCentreManager, DepartmentDirector, ExecutiveDirector, Cfo, Ceo]

  /** May this role, acting alone, approve this amount? */
  predicate Covers(role: Role, amount: real) {
    !role.FinancialControl? && (LimitOf(role).Some? ==> amount <= LimitOf(role).value)
  }

  /** The first rung of the ladder, from the given one up, whose limit covers the amount. */
  function MinimumRoleFrom(amount: real, rung: nat): Role
    requires rung < |LADDER|
    decreases |LADDER| - rung
  {
    if Covers(LADDER[rung], amount) || rung + 1 == |LADDER| then LADDER[rung]
    else MinimumRoleFrom(amount, rung + 1)
  }

  function MinimumRole(amount: real): Role {
    MinimumRoleFrom(amount, 0)
  }

  lemma {:induction false} MinimumRoleFromIsLowest(amount: real, rung: nat)
    requires rung < |LADDER|
    ensures Covers(MinimumRoleFrom(amount, rung), amount)
    ensures exists k :: rung <= k < |LADDER| && LADDER[k] == MinimumRoleFrom(amount, rung) &&
                        forall j :: rung <= j < k ==> !Covers(LADDER[j], amount)
    decreases |LADDER| - rung
  {
    if Covers(LADDER[rung], amount) || rung + 1 == |LADDER| {
      assert LADDER[rung] == MinimumRoleFrom(amount, rung);
    } else {
      MinimumRoleFromIsLowest(amount, rung + 1);
    }
  }

  /** The required role covers the amount and no lower rung does: "maximum approval" is inclusive. */
  lemma MinimumRoleIsLowest(amount: real)
    ensures Covers(MinimumRole(amount), amount)
    ensures exists k :: 0 <= k < |LADDER| && LADDER[k] == MinimumRole(amount) &&
                        forall j :: 0 <= j < k ==> !Covers(LADDER[j], amount)
  {
    MinimumRoleFromIsLowest(amount, 0);
  }

  // ---- the ladder in amounts ----------------------------------------------------------

  /** The policy's matrix, in money. */
  predicate PolicyAllows(role: Role, amount: real) {
    match role
    case CostCentreManager => amount <= 10000.0
    case DepartmentDirector => amount <= 50000.0
    case ExecutiveDirector => amount <= 250000.0
    case Cfo => amount <= 1000000.0
    case Ceo => true
    case FinancialControl => false
  }

  /** A role covers exactly the amounts the policy gives it, and the limit on record is the largest of them. */
  lemma CoversInAmounts(role: Role, amount: real)
    ensures Covers(role, amount) <==> PolicyAllows(role, amount)
    ensures LimitOf(role).None? <==> role.Ceo? || role.FinancialControl?
    ensures LimitOf(role).Some? ==> (amount <= LimitOf(role).value <==> PolicyAllows(role, amount))
  {
  }

  /** Which role a transaction needs, in money: each rung starts where the one below it ends. */
  lemma RequiredRoleInAmounts(amount: real)
    ensures MinimumRole(amount) == CostCentreManager <==> amount <= 10000.0
    ensures MinimumRole(amount) == DepartmentDirector <==> 10000.0 < amount <= 50000.0
    ensures MinimumRole(amount) == ExecutiveDirector <==> 50000.0 < amount <= 250000.0
    ensures MinimumRole(amount) == Cfo <==> 250000.0 < amount <= 1000000.0
    ensures MinimumRole(amount) == Ceo <==> 1000000.0 < amount
    ensures MinimumRole(amount) != FinancialControl
  {
    assert LADDER == [CostCentreManager, DepartmentDirector, ExecutiveDirector, Cfo, Ceo];
    assert MinimumRoleFrom(amount, 4) == Ceo;
    assert MinimumRoleFrom(amount, 3) == if amount <= 1000000.0 then Cfo else Ceo;
    assert MinimumRoleFrom(amount, 2) == if amount <= 250000.0 then ExecutiveDirector else MinimumRoleFrom(amount, 3);
    assert MinimumRoleFrom(amount, 1) == if amount <= 50000.0 then DepartmentDirector else MinimumRoleFrom(amount, 2);
  }

  /** What a transaction needs. The amount is a `Money`, so it has been rounded to cents. */
  datatype Requirement = Requirement(
    amount: real,
    requiredRole: Role,
    applicableLimit: Option<real>,
    requiresSecondApproval: bool)

  function RequiredAuthority(total: real, higherRisk: bool): Requirement {
    var amount := Quantize(total);
    Requirement(amount, MinimumRole(amount), LimitOf(MinimumRole(amount)), higherRisk)
  }

  datatype Validation = Validation(
    sufficient: bool,
    effectiveRole: Option<Role>,
    applicableLimit: Option<real>,
    delegationApplied: Option<string>,
    isFinancialControl: bool,
    exceptions: seq<ExceptionRecord>)

  function Gap(rule: string): seq<ExceptionRecord> {
    [ExceptionRecord(AuthorityGap, rule, true)]
  }

  /** Scope words against case words: no scope word means unrestricted, no known case word means not
      covered. */
  predicate ScopeCovers(scopeTokens: set<string>, caseTokens: set<string>) {
    scopeTokens == {} || scopeTokens * caseTokens != {}
  }

  /** The order in which `max` compares two candidate roles: Financial Control below every limit, the
      CEO above all of them. */
  function Weight(role: Role): int {
    match role
    case FinancialControl => 0
    case CostCentreManager => 1
    case DepartmentDirector => 2
    case ExecutiveDirector => 3
    case Cfo => 4
    case Ceo => 5
  }

  /** What a delegation does to an approver who holds `own`: the role in force, whether the delegation
      was applied, whether a discrepancy was reported, and the exceptions it raised. */
  datatype DelegationEffect = DelegationEffect(
    effective: Role, applied: Option<string>, discrepancy: bool, exceptions: seq<ExceptionRecord>)

  function ApplyDelegation(
      own: Role, approverId: string, delegation: Option<DelegationRecord>, caseTokens: set<string>, today: int)
      : DelegationEffect
  {
    match delegation
    case None => DelegationEffect(own, None, false, [])
    case Some(d) =>
      if d.delegateId != approverId then DelegationEffect(own, None, true, [])
      else if !d.IsValidAt(today) then
        DelegationEffect(own, None, true, Gap("validate_approval.delegation_current"))
      else if !ScopeCovers(d.scopeTokens, caseTokens) then
        DelegationEffect(own, None, true, Gap("validate_approval.delegation_scope_covers_case"))
      else if d.delegateRole.None? then DelegationEffect(own, None, true, [])
      else if Weight(d.delegateRole.value) > Weight(own) then
        DelegationEffect(d.delegateRole.value, Some(d.delegationId), false, [])
      else DelegationEffect(own, None, false, [])
  }

  /** May a named approver approve this transaction? `role` is the parsed role, `None` when it is not in
      the matrix. */
  function ValidateApproval(
      requirement: Requirement,
      approverId: string,
      role: Option<Role>,
      delegation: Option<DelegationRecord>,
      requestedBy: Option<string>,
      caseTokens: set<string>,
      asCoApprover: bool,
      today: int)
      : Validation
  {
    if requestedBy.None? || requestedBy.value == "" then
      Validation(false, None, requirement.applicableLimit, None, false,
        Gap("validate_approval.requester_identified"))
    else if approverId == requestedBy.value then
      Validation(false, None, requirement.applicableLimit, None, false,
        Gap("validate_approval.no_self_approval"))
    else if role.None? then
      Validation(false, None, requirement.applicableLimit, None, false,
        Gap("validate_approval.role_recognised"))
    else
      var effect := ApplyDelegation(role.value, approverId, delegation, caseTokens, today);
      if effect.effective.FinancialControl? && asCoApprover then
        Validation(true, Some(FinancialControl), None, effect.applied, true, effect.exceptions)
      else if effect.effective.FinancialControl? then
        Validation(false, Some(FinancialControl), requirement.applicableLimit, effect.applied, true,
          effect.exceptions + Gap("validate_approval.role_carries_a_monetary_limit"))
      else
        var limit := LimitOf(effect.effective);
        var within := limit.None? || requirement.amount <= limit.value;
        Validation(
          within && !effect.discrepancy, Some(effect.effective), limit, effect.applied,
          role.value.FinancialControl?,
          effect.exceptions + (if within then [] else Gap("validate_approval.within_monetary_limit")))
  }

  /** A delegation can only raise the role in force, and never turns anyone into Financial Control. */
  lemma DelegationNeverRemovesAuthority(
      own: Role, approverId: string, delegation: Option<DelegationRecord>, caseTokens: set<string>, today: int)
    ensures var e := ApplyDelegation(own, approverId, delegation, caseTokens, today);
      Weight(e.effective) >= Weight(own) &&
      (e.effective.FinancialControl? ==> own.FinancialControl?) &&
      (e.effective != own ==>
        delegation.Some? && delegation.value.delegateId == approverId && delegation.value.IsValidAt(today) &&
        delegation.value.delegateRole == Some(e.effective) &&
        (delegation.value.scopeTokens == {} || delegation.value.scopeTokens * caseTokens != {}))
  {
  }

  predicate ShareAWord(a: set<string>, b: set<string>) {
    exists word :: word in a && word in b
  }

  lemma SharedWords(a: set<string>, b: set<string>)
    ensures a * b != {} <==> ShareAWord(a, b)
  {
    if a * b != {} {
      var word :| word in a * b;
      assert word in a && word in b;
    }
    forall word | word in a && word in b ensures a * b != {} {
      assert word in a * b;
    }
  }

  /** A delegation that counts for this signer, case and day. */
  predicate IsUsable(d: DelegationRecord, approverId: string, caseTokens: set<string>, today: int) {
    d.delegateId == approverId && !d.revoked && d.startsOn <= today <= d.endsOn &&
    (d.scopeTokens == {} || ShareAWord(d.scopeTokens, caseTokens)) && d.delegateRole.Some?
  }

  /** Some amount is within the one role and beyond the other. */
  predicate Outranks(role: Role, other: Role) {
    match role
    case FinancialControl => false
    case CostCentreManager => other.FinancialControl?
    case DepartmentDirector => other.FinancialControl? || other.CostCentreManager?
    case ExecutiveDirector => !other.ExecutiveDirector? && !other.Cfo? && !other.Ceo?
    case Cfo => !other.Cfo? && !other.Ceo?
    case Ceo => !other.Ceo?
  }

  lemma OutranksInAmounts(role: Role, other: Role)
    ensures Outranks(role, other) <==> exists amount: real :: PolicyAllows(role, amount) && !PolicyAllows(other, amount)
  {
    if Outranks(role, other) {
      var amount := match other {
        case FinancialControl => 0.0
        case CostCentreManager => 10001.0
        case DepartmentDirector => 50001.0
        case ExecutiveDirector => 250001.0
        case Cfo => 1000001.0
        case Ceo => 0.0
      };
      assert PolicyAllows(role, amount) && !PolicyAllows(other, amount);
    }
  }

  /** The role a signer acts in: the delegated one where the delegation counts and ranks higher. */
  function RoleInForce(
      own: Role, approverId: string, delegation: Option<DelegationRecord>, caseTokens: set<string>, today: int): Role
  {
    if delegation.Some? && IsUsable(delegation.value, approverId, caseTokens, today) &&
       Outranks(delegation.value.delegateRole.value, own)
    then delegation.value.delegateRole.value else own
  }

  lemma DelegationInWords(
      own: Role, approverId: string, delegation: Option<DelegationRecord>, caseTokens: set<string>, today: int)
    ensures var e := ApplyDelegation(own, approverId, delegation, caseTokens, today);
      e.effective == RoleInForce(own, approverId, delegation, caseTokens, today) &&
      (e.discrepancy <==> delegation.Some? && !IsUsable(delegation.value, approverId, caseTokens, today)) &&
      e.applied == if e.effective == own then None else Some(delegation.value.delegationId)
  {
    if delegation.Some? {
      SharedWords(delegation.value.scopeTokens, caseTokens);
    }
  }

  /** Acceptance, declaratively: a named requester who is someone else, a recognised role, and either a
      Financial Control co-signature behind a primary one, or a role in force that the policy allows the
      rounded amount, with no delegation that does not count. */
  lemma AcceptanceCharacterised(
      requirement: Requirement, approverId: string, role: Option<Role>, delegation: Option<DelegationRecord>,
      requestedBy: Option<string>, caseTokens: set<string>, asCoApprover: bool, today: int)
    ensures
      var v := ValidateApproval(
        requirement, approverId, role, delegation, requestedBy, caseTokens, asCoApprover, today);
      v.sufficient <==>
        requestedBy.Some? && requestedBy.value != "" && approverId != requestedBy.value && role.Some? &&
        var acting := RoleInForce(role.value, approverId, delegation, caseTokens, today);
        (acting.FinancialControl? && asCoApprover) ||
        (PolicyAllows(acting, requirement.amount) &&
         (delegation.Some? ==> IsUsable(delegation.value, approverId, caseTokens, today)))
  {
    hide ApplyDelegation, RoleInForce, IsUsable;
    if role.Some? {
      DelegationInWords(role.value, approverId, delegation, caseTokens, today);
      CoversInAmounts(RoleInForce(role.value, approverId, delegation, caseTokens, today), requirement.amount);
    }
  }

  /** What an accepted signature records: the role in force, its limit, the delegation that raised it, and
      whether the signer is from Financial Control. */
  lemma AcceptedSignatureRecords(
      requirement: Requirement, approverId: string, role: Option<Role>, delegation: Option<DelegationRecord>,
      requestedBy: Option<string>, caseTokens: set<string>, asCoApprover: bool, today: int)
    requires ValidateApproval(
      requirement, approverId, role, delegation, requestedBy, caseTokens, asCoApprover, today).sufficient
    ensures
      var v := ValidateApproval(
        requirement, approverId, role, delegation, requestedBy, caseTokens, asCoApprover, today);
      role.Some? &&
      var acting := RoleInForce(role.value, approverId, delegation, caseTokens, today);
      v.effectiveRole == Some(acting) &&
      (v.applicableLimit.None? <==> acting.Ceo? || acting.FinancialControl?) &&
      (forall amount: real :: v.applicableLimit.Some? ==>
        (amount <= v.applicableLimit.value <==> PolicyAllows(acting, amount))) &&
      (v.delegationApplied == if acting == role.value then None else Some(delegation.value.delegationId)) &&
      (v.isFinancialControl <==> role.value.FinancialControl?)
  {
    hide ApplyDelegation, RoleInForce;
    DelegationInWords(role.value, approverId, delegation, caseTokens, today);
    DelegationNeverRemovesAuthority(role.value, approverId, delegation, caseTokens, today);
    var acting := RoleInForce(role.value, approverId, delegation, caseTokens, today);
    forall amount: real
      ensures LimitOf(acting).Some? ==> (amount <= LimitOf(acting).value <==> PolicyAllows(acting, amount))
    {
      CoversInAmounts(acting, amount);
    }
  }

  /** Why a signer was refused: each reason is on record exactly when it holds, the first of the three about
      requester and role alone; nothing else is. */
  lemma RefusalNamesItsReason(
      requirement: Requirement, approverId: string, role: Option<Role>, delegation: Option<DelegationRecord>,
      requestedBy: Option<string>, caseTokens: set<string>, asCoApprover: bool, today: int)
    ensures
      var found := ValidateApproval(
        requirement, approverId, role, delegation, requestedBy, caseTokens, asCoApprover, today).exceptions;
      var named := requestedBy.Some? && requestedBy.value != "";
      if !named then found == [ExceptionRecord(AuthorityGap, "validate_approval.requester_identified", true)]
      else if approverId == requestedBy.value then
        found == [ExceptionRecord(AuthorityGap, "validate_approval.no_self_approval", true)]
      else if role.None? then found == [ExceptionRecord(AuthorityGap, "validate_approval.role_recognised", true)]
      else
        var acting := RoleInForce(role.value, approverId, delegation, caseTokens, today);
        var mine := delegation.Some? && delegation.value.delegateId == approverId;
        var expired := mine &&
          (delegation.value.revoked || !(delegation.value.startsOn <= today <= delegation.value.endsOn));
        var outside := mine && !expired && delegation.value.scopeTokens != {} &&
          !ShareAWord(delegation.value.scopeTokens, caseTokens);
        found ==
          (if expired then [ExceptionRecord(AuthorityGap, "validate_approval.delegation_current", true)] else []) +
          (if outside then [ExceptionRecord(AuthorityGap, "validate_approval.delegation_scope_covers_case", true)]
           else []) +
          (if acting.FinancialControl? then
             if asCoApprover then []
             else [ExceptionRecord(AuthorityGap, "validate_approval.role_carries_a_monetary_limit", true)]
           else if PolicyAllows(acting, requirement.amount) then []
           else [ExceptionRecord(AuthorityGap, "validate_approval.within_monetary_limit", true)])
  {
    hide RoleInForce;
    if delegation.Some? {
      SharedWords(delegation.value.scopeTokens, caseTokens);
    }
    if role.Some? {
      DelegationInWords(role.value, approverId, delegation, caseTokens, today);
      CoversInAmounts(RoleInForce(role.value, approverId, delegation, caseTokens, today), requirement.amount);
    }
  }

  /** Without a delegation an accepted approver acts in their own role, with its limit; Financial Control
      is accepted only as a co-approver, and then without a limit. */
  lemma UndelegatedActsInOwnRole(
      requirement: Requirement, approverId: string, role: Option<Role>, requestedBy: Option<string>,
      caseTokens: set<string>, asCoApprover: bool, today: int)
    requires ValidateApproval(
      requirement, approverId, role, None, requestedBy, caseTokens, asCoApprover, today).sufficient
    ensures var v := ValidateApproval(
        requirement, approverId, role, None, requestedBy, caseTokens, asCoApprover, today);
      role.Some? && v.effectiveRole == role && v.applicableLimit == LimitOf(role.value) &&
      v.isFinancialControl == role.value.FinancialControl? && (role.value.FinancialControl? ==> asCoApprover)
  {
  }

  /** Acting in their own right, the four roles with a limit are accepted up to it after rounding, and not
      beyond; the CEO always; Financial Control only behind a primary signature. */
  lemma UndelegatedAcceptance(
      total: real, higherRisk: bool, approverId: string, role: Role, requestedBy: string, caseTokens: set<string>,
      asCoApprover: bool, today: int)
    requires requestedBy != "" && approverId != requestedBy
    ensures
      var accepted := ValidateApproval(RequiredAuthority(total, higherRisk), approverId, Some(role), None,
        Some(requestedBy), caseTokens, asCoApprover, today).sufficient;
      match role
      case CostCentreManager => accepted <==> Quantize(total) <= 10000.0
      case DepartmentDirector => accepted <==> Quantize(total) <= 50000.0
      case ExecutiveDirector => accepted <==> Quantize(total) <= 250000.0
      case Cfo => accepted <==> Quantize(total) <= 1000000.0
      case Ceo => accepted
      case FinancialControl => accepted <==> asCoApprover
  {
    hide ValidateApproval;
    AcceptanceCharacterised(RequiredAuthority(total, higherRisk), approverId, Some(role), None, Some(requestedBy),
      caseTokens, asCoApprover, today);
  }

  // ---- rounding at the limits ---------------------------------------------------------

  /** An amount that exceeds a limit of the ladder by less than half a cent. */
  predicate InRoundingGap(amount: real) {
    exists role: Role :: LimitOf(role).Some? && LimitOf(role).value < amount < LimitOf(role).value + 0.005
  }

  lemma LimitsAreWholeCents(role: Role)
    requires LimitOf(role).Some?
    ensures WholeCents(LimitOf(role).value) && 10000.0 <= LimitOf(role).value <= 1000000.0
  {
    match role
    case CostCentreManager => WholeCentsOf(10000);
    case DepartmentDirector => WholeCentsOf(50000);
    case ExecutiveDirector => WholeCentsOf(250000);
    case Cfo => WholeCentsOf(1000000);
  }

  lemma CoveredAfterRounding(role: Role, amount: real)
    requires LimitOf(role).Some?
    ensures Covers(role, Quantize(amount)) <==> amount < LimitOf(role).value + 0.005
  {
    LimitsAreWholeCents(role);
    QuantizeAtMost(amount, LimitOf(role).value);
  }

  /** Accepted without reservation, and yet the limit on record is below the amount. */
  predicate SignsBeyondLimit(v: Validation, amount: real) {
    v.sufficient && v.exceptions == [] && v.applicableLimit.Some? && v.applicableLimit.value < amount
  }

  /** Some signer, in some circumstances, is accepted beyond the limit their signature records. */
  ghost predicate SomebodySignsBeyondLimit(amount: real, higherRisk: bool) {
    exists approverId, role, delegation, requestedBy, caseTokens, asCoApprover, today ::
      SignsBeyondLimit(
        ValidateApproval(RequiredAuthority(amount, higherRisk), approverId, role, delegation, requestedBy,
          caseTokens, asCoApprover, today), amount)
  }

  lemma BeyondLimitOnlyInGap(
      amount: real, higherRisk: bool, approverId: string, role: Option<Role>, delegation: Option<DelegationRecord>,
      requestedBy: Option<string>, caseTokens: set<string>, asCoApprover: bool, today: int)
    requires SignsBeyondLimit(
      ValidateApproval(RequiredAuthority(amount, higherRisk), approverId, role, delegation, requestedBy, caseTokens,
        asCoApprover, today), amount)
    ensures InRoundingGap(amount)
  {
    hide Quantize, InRoundingGap;
    var acting := ApplyDelegation(role.value, approverId, delegation, caseTokens, today).effective;
    CoveredAfterRounding(acting, amount);
    GapAbove(acting, amount);
  }

  lemma GapAbove(role: Role, amount: real)
    requires LimitOf(role).Some? && LimitOf(role).value < amount < LimitOf(role).value + 0.005
    ensures InRoundingGap(amount)
  {
  }

  lemma AcceptedInGap(role: Role, amount: real, higherRisk: bool)
    requires LimitOf(role).Some? && LimitOf(role).value < amount < LimitOf(role).value + 0.005
    ensures SignsBeyondLimit(
      ValidateApproval(RequiredAuthority(amount, higherRisk), "signer", Some(role), None, Some("requester"), {}, false,
        0), amount)
  {
    hide Quantize, InRoundingGap;
    CoveredAfterRounding(role, amount);
  }

  /** A signer is judged against the rounded amount. Nobody therefore signs for more than the limit their
      signature records, unless the amount lies in the half-cent gap above a limit; and then somebody does. */
  lemma AcceptedLimitCoversAmount(amount: real, higherRisk: bool)
    ensures (forall role: Role ::
              LimitOf(role).Some? && Covers(role, Quantize(amount)) ==> amount <= LimitOf(role).value)
      <==> !InRoundingGap(amount)
    ensures SomebodySignsBeyondLimit(amount, higherRisk) <==> InRoundingGap(amount)
  {
    hide Quantize, ValidateApproval, RequiredAuthority;
    forall role: Role | LimitOf(role).Some?
      ensures Covers(role, Quantize(amount)) <==> amount < LimitOf(role).value + 0.005
    {
      CoveredAfterRounding(role, amount);
    }
    if InRoundingGap(amount) {
      var role: Role :| LimitOf(role).Some? && LimitOf(role).value < amount < LimitOf(role).value + 0.005;
      AcceptedInGap(role, amount, higherRisk);
    }
    if SomebodySignsBeyondLimit(amount, higherRisk) {
      var approverId, role, delegation, requestedBy, caseTokens, asCoApprover, today :|
        SignsBeyondLimit(
          ValidateApproval(RequiredAuthority(amount, higherRisk), approverId, role, delegation, requestedBy,
            caseTokens, asCoApprover, today), amount);
      BeyondLimitOnlyInGap(amount, higherRisk, approverId, role, delegation, requestedBy, caseTokens, asCoApprover,
        today);
    }
  }

  /** The concrete failing input: a cost centre manager, whose limit is 10,000, may approve 10,000.004. */
  lemma RoundingGapIsReal()
    ensures InRoundingGap(10000.004)
    ensures var v := ValidateApproval(
        RequiredAuthority(10000.004, false), "manager", Some(CostCentreManager), None, Some("requester"), {}, false, 0);
      v.sufficient && v.exceptions == [] && v.effectiveRole == Some(CostCentreManager) &&
      v.applicableLimit == Some(10000.0)
  {
    LimitsAreWholeCents(CostCentreManager);
    QuantizeAtMost(10000.004, 10000.0);
    assert LimitOf(CostCentreManager).value < 10000.004 < LimitOf(CostCentreManager).value + 0.005;
  }

  lemma WholeCentAmountsAvoidTheGap(amount: real)
    requires WholeCents(amount)
    ensures !InRoundingGap(amount)
  {
    forall role: Role | LimitOf(role).Some?
      ensures !(LimitOf(role).value < amount < LimitOf(role).value + 0.005)
    {
      LimitsAreWholeCents(role);
      QuantizeAtMost(amount, LimitOf(role).value);
      QuantizeFixesCents(amount);
    }
  }
}
