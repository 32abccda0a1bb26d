/** What the two gates let through (src/ap_agent/orchestration/gates.py, src/ap_agent/tools/contracts.py).

    A run that reached its decision passes. These laws say what else would: nothing that differs from what
    was approved. */
module GateChecks {
  import opened Prelude
  import opened Domain
  import opened Store
  import opened Protocol
  import opened Invariant
  import opened Decimals
  import opened RunState
  import Fingerprint
  import Preservation
  import Segregation
  import Vendor

  /** The figures an approver was shown, the currency but for the case of its letters. */
  predicate SameFigures(amount: real, currency: string, vendorId: string, base: Run) {
    base.request.MasterVendorId() != "" ==>
      amount == base.request.amount && Fingerprint.SameWord(currency, base.request.currency) &&
      vendorId == base.request.MasterVendorId()
  }

  lemma FiguresArePresented(a: Approval, amount: real, currency: string, vendorId: string, base: Run)
    requires base.recommendation.Some? && Presents(a, base)
    ensures PresentsFacts(a, amount, currency, vendorId) <==> SameFigures(amount, currency, vendorId, base)
  {
    hide Fingerprint.SameWord;
    Fingerprint.UpperMeans(a.presentedCurrency, currency);
    Fingerprint.UpperMeans(currency, a.presentedCurrency);
  }

  /** With the approval of a run at its decision, the first gate permits exactly the runs that are that run, carry
      its recommendation and the figures that were approved, and have recorded nothing yet: altering any of
      them closes the gate. */
  lemma FirstGatePermitsExactly(cfg: Settings, s: Store, base: Run, run: Run)
    requires StoreOk(cfg, s) && Behind(cfg, s, base) && base.phase.ExecuteDecision?
    ensures base.approvalId.Some? && base.approvalId.value in s.approvals && base.recommendation.Some?
    ensures AuthoriseDecision(run, Some(s.approvals[base.approvalId.value])) <==>
      run.runId == base.runId && run.recommendation.Some? &&
      run.recommendation.value.outcome == base.recommendation.value.outcome && run.decision.None? &&
      SameFigures(run.request.amount, run.request.currency, run.request.MasterVendorId(), base)
  {
    hide StoreOk, RunOk, RunEvolves, PresentsFacts, SameFigures;
    Preservation.FirstGateOpens(cfg, s, base);
    PresentedAtDecision(cfg, s, base);
    FiguresArePresented(s.approvals[base.approvalId.value], run.request.amount, run.request.currency,
      run.request.MasterVendorId(), base);
  }

  lemma PresentedAtDecision(cfg: Settings, s: Store, base: Run)
    requires Behind(cfg, s, base) && base.phase.ExecuteDecision?
    ensures base.approvalId.Some? && base.approvalId.value in s.approvals && base.recommendation.Some?
    ensures Presents(s.approvals[base.approvalId.value], base)
  {
    hide EngineOk, HistoryOk, KeyFor, Doomed;
    assert LinkOk(cfg, s, base);
  }

  /** And for a run at its decision, the gate permits exactly the approvals that are the run's, approved, fully
      signed, and present its outcome and figures; no approval at all never suffices. */
  lemma FirstGateAccepts(run: Run, a: Approval)
    requires run.recommendation.Some? && run.decision.None?
    ensures !AuthoriseDecision(run, None)
    ensures AuthoriseDecision(run, Some(a)) ==>
      run.recommendation.value.outcome in {ApproveForPosting, RejectDuplicate, RejectInvalid} &&
      a.runId == run.runId && a.status == Approved && |a.signatures| >= a.requiredCount &&
      (a.requiresFinancialControl ==> exists p :: p in a.signatures && a.signatures[p].isFinancialControl) &&
      a.requestedOutcome == run.recommendation.value.outcome &&
      (a.presentedVendorId != "" ==>
        a.presentedAmount == run.request.amount && a.presentedVendorId == run.request.MasterVendorId() &&
        Fingerprint.SameWord(a.presentedCurrency, run.request.currency))
  {
    hide Fingerprint.SameWord;
    Fingerprint.UpperMeans(a.presentedCurrency, run.request.currency);
  }

  /** The gate inside the tool permits exactly the arguments that name that run, its outcome and its figures,
      whatever else they say. */
  lemma ToolPermitsExactly(cfg: Settings, s: Store, base: Run, args: DecisionRequest)
    requires StoreOk(cfg, s) && Behind(cfg, s, base) && base.phase.ExecuteDecision?
    ensures base.approvalId.Some? && base.approvalId.value in s.approvals && base.recommendation.Some?
    ensures ToolPermits(args, Some(s.approvals[base.approvalId.value])) <==>
      args.runId == base.runId && args.outcome == base.recommendation.value.outcome &&
      SameFigures(args.amount, args.currency, args.vendorId, base)
    ensures !ToolPermits(args, None)
  {
    hide StoreOk, RunOk, RunEvolves, PresentsFacts, SameFigures;
    Preservation.FirstGateOpens(cfg, s, base);
    PresentedAtDecision(cfg, s, base);
    FiguresArePresented(s.approvals[base.approvalId.value], args.amount, args.currency, args.vendorId, base);
  }

  lemma ToolAccepts(args: DecisionRequest, a: Approval)
    ensures ToolPermits(args, Some(a)) ==>
      a.runId == args.runId && a.status == Approved && a.requestedOutcome == args.outcome &&
      |a.signatures| >= a.requiredCount &&
      (a.requiresFinancialControl ==> exists p :: p in a.signatures && a.signatures[p].isFinancialControl)
  {
  }

  // ---- what is left on record ---------------------------------------------------------

  /** A refused signature changes nothing but the record, which keeps what it held and gains every reason. */
  lemma RefusalIsOnRecord(cfg: Settings, base: Run, a: Approval, d: Delivery, i: Input)
    requires d.approve && !AuthoriseSignature(a, d, base, if d.namesDelegation then i.delegation else None, i.moment)
    ensures var delegation := if d.namesDelegation then i.delegation else None;
      var reasons := ValidateSigner(a, d, base, delegation, i.moment).exceptions +
        Segregation.CheckApprovalTime(base.gathered.vendor, base.gathered.order, base.request.amount,
          base.request.requestedBy, d.approverId, DateOf(i.moment));
      var w := Judged(cfg, base, a, d, i);
      w.Saving? && w.base == base && w.andThen == Raise && w.next.phase == base.phase &&
      base.dossier.exceptions <= w.next.dossier.exceptions &&
      forall k :: 0 <= k < |reasons| ==> HasKey(w.next.dossier.exceptions, KeyOf(reasons[k]))
  {
    hide ValidateSigner, AuthoriseSignature, Segregation.CheckApprovalTime, Accumulate;
    var delegation := if d.namesDelegation then i.delegation else None;
    AccumulateKeeps(base.dossier.exceptions, Refusals(a, d, base, delegation, i.moment));
  }

  lemma {:induction false} StopsHold(found: seq<ExceptionRecord>)
    ensures forall k :: 0 <= k < |found| && Vendor.StopsDecision(found[k]) ==> found[k] in Stops(found)
  {
    if found != [] {
      var front := found[..|found| - 1];
      StopsHold(front);
      assert forall k :: 0 <= k < |front| ==> front[k] == found[k];
    }
  }

  /** A decision stopped by the vendor check fails the run with the stopping rules on record. */
  lemma StoppedDecisionIsOnRecord(s: Store, base: Run, i: Input, k: int)
    requires base.approvalId.Some? && base.approvalId.value in s.approvals
    requires AuthoriseDecision(base, Some(s.approvals[base.approvalId.value]))
    requires 0 <= k < |VendorCheckNow(base, i.moment)| && Vendor.StopsDecision(VendorCheckNow(base, i.moment)[k])
    ensures var w := StepExecute(s, base, i);
      w.Saving? && w.next.phase == Failed &&
      HasKey(w.next.dossier.exceptions, KeyOf(VendorCheckNow(base, i.moment)[k]))
  {
    hide AuthoriseDecision, VendorCheckNow, Accumulate, Stops;
    var found := VendorCheckNow(base, i.moment);
    StopsHold(found);
    AccumulateKeeps(base.dossier.exceptions, Stops(found));
    var j :| 0 <= j < |Stops(found)| && Stops(found)[j] == found[k];
  }

  // ---- what changes nothing -----------------------------------------------------------

  /** A callback from somebody who has signed already is answered with the stored run, whatever the status of the
      approval, and so is a repeated rejection; a callback against a settled approval raises otherwise. None
      of them is judged, stored or paid for. */
  lemma RedeliveryIsInert(cfg: Settings, s: Store, base: Run, d: Delivery, i: Input)
    requires d.approvalId in s.approvals && base.runId in s.runs
    ensures var a := s.approvals[d.approvalId];
      var w := StepResolving(cfg, s, base, d, i);
      (d.approve && d.approverId in a.signatures ==> w == Returned(s.runs[base.runId])) &&
      (!d.approve && a.status == Rejected ==> w == Returned(s.runs[base.runId])) &&
      (d.approve && d.approverId !in a.signatures && a.status != Pending ==> w == Raised) &&
      (!d.approve && a.status == Approved ==> w == Raised) &&
      (a.status == Pending && !(d.approve && d.approverId in a.signatures) ==> w == Judged(cfg, base, a, d, i))
  {
    hide Judged;
  }

  /** A delegation is read, and paid for, only when the callback names one. */
  lemma OnlyNamedDelegationsCost(cfg: Settings, base: Run, a: Approval, d: Delivery, i: Input)
    requires base.toolCallsUsed <= cfg.maxToolCalls
    ensures var w := Judged(cfg, base, a, d, i);
      (w.Rejecting? || w.Saving? || w.Signing?) &&
      w.next.toolCallsUsed ==
        if !d.namesDelegation then base.toolCallsUsed
        else if base.toolCallsUsed + i.toolCalls > cfg.maxToolCalls then cfg.maxToolCalls
        else base.toolCallsUsed + i.toolCalls
    ensures !d.namesDelegation ==> Judged(cfg, base, a, d, i) == Judged(cfg, base, a, d, i.(delegation := None))
  {
    hide ValidateSigner, AuthoriseSignature, Segregation.CheckApprovalTime, Accumulate;
  }

  /** A phase that asks the model fails the run when the model does; what it had found by then stays. */
  lemma ModelFailureFailsTheRun(cfg: Settings, s: Store, base: Run, i: Input)
    requires base.phase in {AssessRisk, Recommend} && base.stepsUsed < cfg.maxSteps && i.modelFails
    ensures var w := StepDriving(cfg, s, base, i);
      w.Saving? && w.base == base && w.next.phase == Failed && w.next.status == StatusFailed &&
      w.next.recommendation == base.recommendation && w.andThen == Return &&
      forall code :: base.phase == AssessRisk && code in i.indicators ==> code in w.next.dossier.indicators
  {
    hide AddNew, HandleEvidencePhase, Recommended;
    AddNewKeeps(base.dossier.indicators, i.indicators);
  }

  /** A run whose steps are used up fails before its phase is looked at. */
  lemma NoStepsLeftFailsTheRun(cfg: Settings, s: Store, base: Run, i: Input)
    requires !base.phase.IsTerminal() && base.phase != AwaitingApproval && base.stepsUsed >= cfg.maxSteps
    ensures StepDriving(cfg, s, base, i) == Saving(base, base.(phase := Failed, status := StatusFailed), Return)
  {
  }
}
