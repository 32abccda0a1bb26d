/** What every reachable store satisfies, and how stores may evolve.

    The proof is thread-modular. `StoreOk` is an invariant of the store; `WorkerOk` says what one worker
    may rely on about the store; `Evolves` says how any step of anybody may change the store. Steps keep
    `StoreOk` and obey `Evolves`, and `WorkerOk` survives any change allowed by `Evolves`. */
module Invariant {
  import opened Prelude
  import opened Domain
  import opened Store
  import opened Protocol
  import opened Decimals
  import opened RunState
  import Money
  import Authority
  import Phases
  import Segregation
  import Vendor

  // ---- one run ------------------------------------------------------------------------

  predicate InPlan(phase: Phase) {
    Rank(phase) < |PHASE_ORDER|
  }

  /** The linear part of the plan is over: from here on the case facts are frozen. */
  predicate PastPlan(phase: Phase) {
    Rank(phase) >= |PHASE_ORDER|
  }

  /** How far the completed phases have got, phase by phase. */
  predicate HistoryOk(run: Run) {
    && run.status == StatusFor(run.phase)
    && run.stepsUsed == |run.completedPhases|
    && (InPlan(run.phase) ==> run.completedPhases == PHASE_ORDER[..Rank(run.phase)])
    && (run.phase.AwaitingApproval? || run.phase.ExecuteDecision? || run.phase.Held? ==>
          run.completedPhases == PHASE_ORDER)
    && (run.phase.Completed? ==> run.completedPhases == PHASE_ORDER + [ExecuteDecision])
    && (run.phase.Failed? ==> run.completedPhases <= PHASE_ORDER)
  }

  predicate OutcomeOk(run: Run) {
    && (InPlan(run.phase) ==> run.recommendation.None? && run.approvalId.None?)
    && (run.phase.AwaitingApproval? || run.phase.ExecuteDecision? || run.phase.Completed? ==> run.approvalId.Some?)
    && (run.approvalId.Some? ==>
          run.recommendation.Some? && run.recommendation.value.outcome.IsConsequential())
    && (run.recommendation.Some? ==>
          if run.recommendation.value.outcome.IsConsequential() then run.approvalId.Some? else run.phase.Held?)
    && (run.phase.Completed? <==> run.decision.Some?)
  }

  // ---- what the controls have left in a run -------------------------------------------

  predicate IntakeDone(run: Run) {
    var c, d := CaseOf(run), run.dossier;
    d.invalidReasons == AddNew([], Phases.IntakeReasons(c, d.intakeDay))
  }

  predicate Reconciled(run: Run) {
    IntakeDone(run) && run.gathered.higherRisk == HigherRisk(CaseOf(run), run.dossier.reconciledAt)
  }

  function RecordedBy(run: Run): seq<ExceptionRecord> {
    Phases.Recorded(CaseOf(run), run.dossier.intakeDay, run.dossier.reconciledAt)
  }

  /** The outcome of the run's case at the three moments at which its controls were run. */
  function OutcomeOf(run: Run): Outcome {
    var d := run.dossier;
    Phases.CaseOutcome(CaseOf(run), d.intakeDay, d.reconciledAt, d.recommendedAt, |d.indicators|, d.suggested)
  }

  predicate RecommendedAs(run: Run, r: Recommendation) {
    && r.outcome == OutcomeOf(run)
    && r.requiresApproval == r.outcome.IsConsequential()
    && r.requiresSecond == (run.gathered.higherRisk || HigherVendorRisk(run))
  }

  predicate HigherVendorRisk(run: Run) {
    var g := run.gathered;
    Vendor.StatusCheck(g.vendor, g.sameName, run.dossier.recommendedAt, g.history).higherRisk
  }

  /** Phase by phase, the run carries exactly what its controls gave on its own evidence; once there is a
      recommendation, later records only follow those it was made on. */
  predicate EngineOk(run: Run) {
    && (run.phase.Intake? ==> run.dossier.exceptions == [] && run.dossier.invalidReasons == [])
    && (1 <= Rank(run.phase) <= 3 ==>
          IntakeDone(run) &&
          run.dossier.exceptions == Accumulate([], Phases.IntakeExceptions(CaseOf(run), run.dossier.intakeDay)))
    && (4 <= Rank(run.phase) <= 5 ==> Reconciled(run) && run.dossier.exceptions == RecordedBy(run))
    && (run.recommendation.Some? ==>
          Reconciled(run) && RecordedBy(run) <= run.dossier.exceptions && RecommendedAs(run, run.recommendation.value))
  }

  /** The approval shows exactly what the run carries, and asks for the signatures its risk requires. */
  predicate Presents(a: Approval, run: Run)
    requires run.recommendation.Some?
  {
    && a.runId == run.runId
    && a.caseId == run.request.caseId
    && a.requestedOutcome == run.recommendation.value.outcome
    && a.presentedAmount == run.request.amount
    && a.presentedCurrency == run.request.currency
    && a.presentedVendorId == run.request.MasterVendorId()
    && a.higherRisk == run.gathered.higherRisk
    && a.requiredCount == (if run.recommendation.value.requiresSecond then 2 else 1)
    && a.requiresFinancialControl == run.recommendation.value.requiresSecond
  }

  function ArgsOf(run: Run): DecisionRequest
    requires run.approvalId.Some? && run.recommendation.Some?
  {
    RequestFor(run, run.approvalId.value, run.recommendation.value.outcome)
  }

  /** The run can never record its decision: the step budget ends before the decision phase, or the
      stored vendor fails the check made at decision time. Both are fixed once the plan is over. */
  predicate Doomed(cfg: Settings, run: Run) {
    cfg.maxSteps <= |PHASE_ORDER| || Vendor.VendorBlocks(run.gathered.vendor)
  }

  predicate LinkOk(cfg: Settings, s: Store, run: Run)
    requires run.approvalId.Some? && run.recommendation.Some?
  {
    && run.approvalId.value in s.approvals
    && var a := s.approvals[run.approvalId.value];
    && Presents(a, run)
    && (run.phase.ExecuteDecision? || run.phase.Completed? ==> a.status.Approved?)
    && (run.phase.Held? ==> a.status.Rejected?)
    && (run.phase.Failed? ==> a.status.Approved? && Doomed(cfg, run))
    && (run.phase.Completed? ==>
          run.decision.Some? && KeyFor(ArgsOf(run)) in s.decisions &&
          run.decision.value.(replayed := false) == s.decisions[KeyFor(ArgsOf(run))].receipt &&
          s.decisions[KeyFor(ArgsOf(run))].request == ArgsOf(run))
  }

  predicate RunOk(cfg: Settings, s: Store, run: Run) {
    && HistoryOk(run)
    && OutcomeOk(run)
    && EngineOk(run)
    && run.request.amount == AmountOf(run.written)
    && Distinct(run.dossier.indicators)
    && run.stepsUsed <= cfg.maxSteps && run.toolCallsUsed <= cfg.maxToolCalls
    && (run.approvalId.Some? ==> LinkOk(cfg, s, run))
  }

  // ---- signatures and approvals -------------------------------------------------------

  /** What is known about every stored signature: the signatory is not the requester, did not receipt the
      order of a large invoice, did not create the vendor within five business days of its last change, acts
      in a delegated role only under a named delegation, and either holds a role whose limit covers the
      rounded amount or is Financial Control. */
  predicate SignerOk(run: Run, approverId: string, sig: Signature) {
    && run.request.NamesRequester()
    && approverId != run.request.requestedBy.value
    && (run.request.amount > Segregation.THREE_PARTY_THRESHOLD ==>
          approverId !in Segregation.Receipters(run.gathered.order))
    && Segregation.CooledOff(run.gathered.vendor, approverId, DateOf(sig.signedAt))
    && sig.effectiveRole.Some?
    && (sig.delegationApplied.Some? <==> sig.effectiveRole != sig.approverRole)
    && (sig.isFinancialControl <==> sig.approverRole == Some(FinancialControl))
    && (sig.effectiveRole.value.FinancialControl? ==>
          sig.isFinancialControl && sig.applicableLimit.None?)
    && (!sig.effectiveRole.value.FinancialControl? ==>
          sig.applicableLimit == Authority.LimitOf(sig.effectiveRole.value) &&
          Authority.Covers(sig.effectiveRole.value, Money.Quantize(run.request.amount)))
  }

  /** A Financial Control signature stands behind one that carries the limit. */
  predicate Backed(a: Approval, sig: Signature) {
    sig.effectiveRole == Some(FinancialControl) ==> PrimarySigned(a)
  }

  predicate ApprovalOk(s: Store, id: string, a: Approval) {
    && a.runId in s.runs
    && a.requiredCount >= 1
    && (a.status.Approved? <==> a.RequirementMet())
    && (a.signatures != map[] || !a.status.Pending? ==> s.runs[a.runId].approvalId == Some(id))
    && forall p :: p in a.signatures ==> SignerOk(s.runs[a.runId], p, a.signatures[p]) && Backed(a, a.signatures[p])
  }

  // ---- decisions ----------------------------------------------------------------------

  predicate DecisionOk(cfg: Settings, s: Store, key: string, row: DecisionRow) {
    && row.request.runId in s.runs
    && var run := s.runs[row.request.runId];
    && (run.phase.ExecuteDecision? || run.phase.Completed?)
    && run.approvalId.Some? && run.recommendation.Some?
    && row.request == ArgsOf(run)
    && key == KeyFor(row.request)
    && row == RowFor(row.request, row.receipt.recordedAt)
    && ArgumentsValid(row.request)
    && !Doomed(cfg, run)
  }

  predicate FingerprintsDistinct(s: Store) {
    forall j, k | j in s.decisions && k in s.decisions ::
      s.decisions[j].fingerprint == s.decisions[k].fingerprint != "" ==> j == k
  }

  predicate RunsOk(cfg: Settings, s: Store) {
    forall r :: r in s.runs ==> s.runs[r].runId == r && RunOk(cfg, s, s.runs[r])
  }

  predicate ApprovalsOk(s: Store) {
    forall id :: id in s.approvals ==> ApprovalOk(s, id, s.approvals[id])
  }

  predicate DecisionsOk(cfg: Settings, s: Store) {
    forall k :: k in s.decisions ==> DecisionOk(cfg, s, k, s.decisions[k])
  }

  predicate StoreOk(cfg: Settings, s: Store) {
    RunsOk(cfg, s) && ApprovalsOk(s) && DecisionsOk(cfg, s) && FingerprintsDistinct(s)
  }

  // ---- evolution ----------------------------------------------------------------------

  /** Saved again in the same phase: while it waits, a run may spend tool calls and gain records of refused
      signatures; at the decision it is saved as it is. */
  predicate SavedInPlace(x: Run, y: Run) {
    || (x.phase.AwaitingApproval? && x.dossier.exceptions <= y.dossier.exceptions &&
        y == x.(version := y.version, toolCallsUsed := y.toolCallsUsed,
                dossier := x.dossier.(exceptions := y.dossier.exceptions)))
    || (x.phase.ExecuteDecision? && y == x.(version := y.version))
  }

  /** What never changes once the plan is over: evidence, recommendation, approval, and every record made. */
  predicate FactsFrozen(x: Run, y: Run) {
    && x.gathered == y.gathered && x.recommendation == y.recommendation && x.approvalId == y.approvalId
    && y.dossier == x.dossier.(exceptions := y.dossier.exceptions) && x.dossier.exceptions <= y.dossier.exceptions
  }

  /** Of the request only the hashes of redacted attachments change, and only at intake. */
  predicate RequestKept(x: Run, y: Run) {
    && x.written == y.written
    && y.request == x.request.(attachmentHashes := y.request.attachmentHashes)
    && (!x.phase.Intake? ==> y.request == x.request)
  }

  /** One run later on: the version counts the saves, phases move forward or the run is saved in place,
      terminal runs never change, and past the plan the case facts are frozen. */
  predicate RunEvolves(x: Run, y: Run) {
    && x.runId == y.runId && RequestKept(x, y)
    && x.version <= y.version
    && (x.version == y.version ==> x == y)
    && (x.version < y.version ==> Rank(x.phase) < Rank(y.phase) || SavedInPlace(x, y))
    && (PastPlan(x.phase) ==> FactsFrozen(x, y))
    && x.toolCallsUsed <= y.toolCallsUsed && x.stepsUsed <= y.stepsUsed
  }

  predicate SignaturesGrow(x: map<string, Signature>, y: map<string, Signature>) {
    forall p :: p in x ==> p in y && y[p] == x[p]
  }

  /** One approval later on: what was presented and required never changes, signatures are only added,
      and a settled status is final. */
  predicate ApprovalEvolves(x: Approval, y: Approval) {
    && y == x.(status := y.status, signatures := y.signatures)
    && SignaturesGrow(x.signatures, y.signatures)
    && (!x.status.Pending? ==> y.status == x.status)
  }

  predicate Evolves(s: Store, t: Store) {
    && (forall r :: r in s.runs ==> r in t.runs && RunEvolves(s.runs[r], t.runs[r]))
    && (forall id :: id in s.approvals ==> id in t.approvals && ApprovalEvolves(s.approvals[id], t.approvals[id]))
    && (forall k :: k in s.decisions ==> k in t.decisions && t.decisions[k] == s.decisions[k])
  }

  lemma RunEvolvesTransitive(x: Run, y: Run, z: Run)
    requires RunEvolves(x, y) && RunEvolves(y, z)
    ensures RunEvolves(x, z)
  {
  }

  lemma ApprovalEvolvesTransitive(x: Approval, y: Approval, z: Approval)
    requires ApprovalEvolves(x, y) && ApprovalEvolves(y, z)
    ensures ApprovalEvolves(x, z)
  {
  }

  lemma EvolvesReflexive(s: Store)
    ensures Evolves(s, s)
  {
  }

  lemma EvolvesTransitive(s: Store, t: Store, u: Store)
    requires Evolves(s, t) && Evolves(t, u)
    ensures Evolves(s, u)
  {
    forall r | r in s.runs ensures r in u.runs && RunEvolves(s.runs[r], u.runs[r]) {
      RunEvolvesTransitive(s.runs[r], t.runs[r], u.runs[r]);
    }
    forall id | id in s.approvals
      ensures id in u.approvals && ApprovalEvolves(s.approvals[id], u.approvals[id])
    {
      ApprovalEvolvesTransitive(s.approvals[id], t.approvals[id], u.approvals[id]);
    }
  }

  // ---- one part of the store at a time ------------------------------------------------

  lemma RunsCarryOver(cfg: Settings, s: Store, t: Store)
    requires Evolves(s, t) && t.runs == s.runs && RunsOk(cfg, s)
    ensures RunsOk(cfg, t)
  {
    forall r | r in t.runs ensures t.runs[r].runId == r && RunOk(cfg, t, t.runs[r]) {
      RunOkStable(cfg, s, t, s.runs[r]);
    }
  }

  lemma ApprovalsCarryOver(s: Store, t: Store)
    requires t.runs == s.runs && t.approvals == s.approvals && ApprovalsOk(s)
    ensures ApprovalsOk(t)
  {
    forall id | id in t.approvals ensures ApprovalOk(t, id, t.approvals[id]) {
      assert ApprovalOk(s, id, s.approvals[id]);
    }
  }

  lemma DecisionsCarryOver(cfg: Settings, s: Store, t: Store)
    requires t.runs == s.runs && t.decisions == s.decisions && DecisionsOk(cfg, s)
    ensures DecisionsOk(cfg, t)
  {
    forall k | k in t.decisions ensures DecisionOk(cfg, t, k, t.decisions[k]) {
      assert DecisionOk(cfg, s, k, s.decisions[k]);
    }
  }

  /** A run that was fine stays fine, as an old copy, however the store evolves. */
  lemma RunOkStable(cfg: Settings, s: Store, t: Store, run: Run)
    requires Evolves(s, t) && RunOk(cfg, s, run)
    ensures RunOk(cfg, t, run)
  {
    if run.approvalId.Some? {
      var id := run.approvalId.value;
      assert ApprovalEvolves(s.approvals[id], t.approvals[id]);
    }
  }

  // ---- workers ------------------------------------------------------------------------

  /** `base` is an earlier version of the stored run, and was fine. */
  predicate Behind(cfg: Settings, s: Store, base: Run) {
    base.runId in s.runs && RunEvolves(base, s.runs[base.runId]) && RunOk(cfg, s, base)
  }

  predicate SaveOk(cfg: Settings, s: Store, base: Run, next: Run) {
    && Behind(cfg, s, base)
    && !base.phase.IsTerminal()
    && next.version == base.version
    && RunEvolves(base, next.(version := base.version + 1))
    && RunOk(cfg, s, next)
  }

  predicate SignOk(cfg: Settings, s: Store, base: Run, next: Run) {
    && SaveOk(cfg, s, base, next)
    && base.phase.AwaitingApproval?
    && next == base.(toolCallsUsed := next.toolCallsUsed)
  }

  predicate RecordOk(cfg: Settings, s: Store, base: Run, args: DecisionRequest) {
    && Behind(cfg, s, base)
    && base.phase.ExecuteDecision?
    && base.approvalId.Some? && base.recommendation.Some?
    && args == ArgsOf(base)
    && ArgumentsValid(args)
    && !Doomed(cfg, base)
  }

  predicate WorkerOk(cfg: Settings, s: Store, w: Worker) {
    match w
    case Driving(base) => Behind(cfg, s, base)
    case CreatingApproval(base, next) =>
      && Behind(cfg, s, base) && base.phase.Recommend?
      && base.stepsUsed < cfg.maxSteps
      && next == Recommended(base, next.dossier.recommendedAt, next.dossier.suggested)
      && next.recommendation.value.outcome.IsConsequential()
    case Submitting(base, args) => RecordOk(cfg, s, base, args)
    case Recording(base, args) => RecordOk(cfg, s, base, args)
    case Saving(base, next, _) => SaveOk(cfg, s, base, next)
    case Resolving(base, d) => Behind(cfg, s, base) && base.approvalId == Some(d.approvalId)
    case Signing(base, next, approverId, sig) =>
      && SignOk(cfg, s, base, next)
      && base.approvalId.Some? && base.approvalId.value in s.approvals
      && SignerOk(base, approverId, sig)
      && Backed(s.approvals[base.approvalId.value], sig)
    case Rejecting(base, next) => SignOk(cfg, s, base, next)
    case Reloading(base, approve, met) =>
      && Behind(cfg, s, base) && base.phase.AwaitingApproval?
      && base.approvalId.Some? && base.approvalId.value in s.approvals
      && (approve && met ==> s.approvals[base.approvalId.value].status.Approved?)
      && (!approve ==> s.approvals[base.approvalId.value].status.Rejected?)
    case Returned(_) => true
    case Raised => true
  }

  lemma BehindStable(cfg: Settings, s: Store, t: Store, base: Run)
    requires Evolves(s, t) && Behind(cfg, s, base)
    ensures Behind(cfg, t, base)
  {
    RunEvolvesTransitive(base, s.runs[base.runId], t.runs[base.runId]);
    RunOkStable(cfg, s, t, base);
  }

  lemma PrimarySignedStable(x: Approval, y: Approval)
    requires ApprovalEvolves(x, y) && PrimarySigned(x)
    ensures PrimarySigned(y)
  {
    var p :| p in x.signatures && IsPrimary(x.signatures[p], x.presentedAmount);
    assert p in y.signatures && IsPrimary(y.signatures[p], y.presentedAmount);
  }

  /** What a worker relies on survives every step of every other worker. */
  lemma WorkerOkStable(cfg: Settings, s: Store, t: Store, w: Worker)
    requires Evolves(s, t) && WorkerOk(cfg, s, w)
    ensures WorkerOk(cfg, t, w)
  {
    hide RunOk, RunEvolves, SignerOk, Doomed, ArgumentsValid;
    if !w.Returned? && !w.Raised? {
      BehindStable(cfg, s, t, w.base);
    }
    if w.Saving? || w.Signing? || w.Rejecting? {
      RunOkStable(cfg, s, t, w.next);
    }
    if w.Signing? && Backed(s.approvals[w.base.approvalId.value], w.signature) {
      var id := w.base.approvalId.value;
      assert ApprovalEvolves(s.approvals[id], t.approvals[id]);
      if w.signature.effectiveRole == Some(FinancialControl) {
        PrimarySignedStable(s.approvals[id], t.approvals[id]);
      }
    }
    if w.Reloading? {
      var id := w.base.approvalId.value;
      assert ApprovalEvolves(s.approvals[id], t.approvals[id]);
    }
  }
}
