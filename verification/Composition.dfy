/** The control engine and the protocol together: what stands behind every decision that was ever recorded.

    The machine carries each run's evidence and what its controls made of it, so the invariants of the protocol
    and the laws of the engine meet in one statement about whole histories. */
module Composition {
  import opened Prelude
  import opened Domain
  import opened Store
  import opened Protocol
  import opened Fingerprint
  import opened Invariant
  import opened RunState
  import Controls
  import Duplicates
  import Matching
  import MatchingBounds
  import Money
  import OutcomeSoundness
  import OutcomeTable
  import Phases
  import Theorems
  import Vendor

  /** Every control of the run's case was clean when it was run, at intake and at reconciliation, and nothing
      else stood against posting when it was recommended. */
  predicate EveryControlPassed(run: Run) {
    var c, d := CaseOf(run), run.dossier;
    && !OutcomeSoundness.SomeControlBlocks(c, d.intakeDay, d.reconciledAt)
    && !(c.vendor.Some? && c.vendor.value.hasRiskFlags)
    && |d.indicators| < 2
    && (d.suggested.None? || d.suggested.value == ApproveForPosting)
    && (c.request.invoiceDate.None? ==>
          !Duplicates.HasProbableDuplicate(c.InvoiceOn(DateOf(d.recommendedAt)), c.history))
  }

  /** The run behind a recorded decision, and its recommendation. */
  lemma DecidedRun(cfg: Settings, events: seq<Event>, k: string)
    requires k in After(cfg, INITIAL, events).store.decisions
    ensures var s := After(cfg, INITIAL, events).store;
      var row := s.decisions[k];
      row.request.runId in s.runs && row.receipt.runId == row.request.runId &&
      var run := s.runs[row.request.runId];
      run.recommendation.Some? && RecommendedAs(run, run.recommendation.value) &&
      run.gathered.higherRisk == HigherRisk(CaseOf(run), run.dossier.reconciledAt) &&
      row.receipt.outcome == row.request.outcome == run.recommendation.value.outcome &&
      row.receipt.amount == run.request.amount && !Vendor.VendorBlocks(run.gathered.vendor)
  {
    Theorems.ReachableOk(cfg, events);
    var s := After(cfg, INITIAL, events).store;
    assert DecisionOk(cfg, s, k, s.decisions[k]);
    hide Doomed, HistoryOk, LinkOk, RecommendedAs, HigherRisk, KeyFor, FingerprintFor, ArgumentsValid;
    assert RunOk(cfg, s, s.runs[s.decisions[k].request.runId]);
  }

  /** Every recorded posting is of a run all of whose controls passed, on the evidence the run carries; and
      nothing with a failed control is ever posted. */
  lemma PostedRunsPassedEveryControl(cfg: Settings, events: seq<Event>, k: string)
    requires k in After(cfg, INITIAL, events).store.decisions
    ensures var s := After(cfg, INITIAL, events).store;
      var row := s.decisions[k];
      row.request.runId in s.runs &&
      (row.receipt.outcome == ApproveForPosting <==> EveryControlPassed(s.runs[row.request.runId]))
  {
    hide After, RecommendedAs;
    DecidedRun(cfg, events, k);
    var s := After(cfg, INITIAL, events).store;
    var run := s.runs[s.decisions[k].request.runId];
    OutcomeMeans(run);
  }

  lemma OutcomeMeans(run: Run)
    requires run.recommendation.Some? && RecommendedAs(run, run.recommendation.value)
    ensures run.recommendation.value.outcome == ApproveForPosting <==> EveryControlPassed(run)
  {
    var c, d := CaseOf(run), run.dossier;
    hide OutcomeSoundness.SomeControlBlocks, Phases.CaseOutcome, Duplicates.HasProbableDuplicate, CaseOf;
    OutcomeSoundness.ApprovedExactlyWhen(
      c, d.intakeDay, d.reconciledAt, d.recommendedAt, |d.indicators|, d.suggested);
  }

  // ---- what a posting means -----------------------------------------------------------

  lemma NothingBlocked(c: Phases.CaseFile, intakeDay: int, moment: int, k: nat)
    requires !OutcomeSoundness.SomeControlBlocks(c, intakeDay, moment) && k < 8
    ensures !Any(Phases.ControlResults(c, moment)[k], IsBlocking)
  {
    hide Any, Phases.ControlResults;
  }

  /** No account other than the vendor's own was asserted in the texts of the case. */
  predicate AccountsAgree(asserted: seq<string>, master: Option<string>) {
    forall i :: 0 <= i < |asserted| ==> master == Some(asserted[i])
  }

  lemma ForeignAccountBlocks(asserted: seq<string>, master: Option<string>)
    requires !AccountsAgree(asserted, master)
    ensures Any(Controls.InstructionExceptions(asserted, master), IsBlocking)
  {
    assert IsBlocking(Controls.InstructionExceptions(asserted, master)[0]);
  }

  /** What a clean case shows: an order that the invoice matches by every rule of the policy, no exact or
      probable duplicate among the prior records, and no foreign account. */
  lemma CleanCaseShows(c: Phases.CaseFile, intakeDay: int, moment: int)
    requires !OutcomeSoundness.SomeControlBlocks(c, intakeDay, moment)
    ensures var invoice := c.InvoiceOn(DateOf(moment));
      c.order.Some? && MatchingBounds.CleanMatch(invoice, c.order.value) &&
      !Duplicates.HasProbableDuplicate(invoice, c.history) && AccountsAgree(c.assertedTails, c.masterTail)
  {
    hide OutcomeSoundness.SomeControlBlocks, MatchingBounds.CleanMatch, Any, Matching.MatchExceptions,
      Duplicates.HasProbableDuplicate, Duplicates.HasSettledDuplicate, Controls.InstructionExceptions;
    var invoice := c.InvoiceOn(DateOf(moment));
    NothingBlocked(c, intakeDay, moment, 0);
    NothingBlocked(c, intakeDay, moment, 1);
    NothingBlocked(c, intakeDay, moment, 3);
    MatchingBounds.MatchIsCleanExactlyWhen(invoice, c.order);
    OutcomeSoundness.DuplicatesBlock(invoice, c.history);
    if !AccountsAgree(c.assertedTails, c.masterTail) {
      ForeignAccountBlocks(c.assertedTails, c.masterTail);
    }
  }

  /** Behind every recorded posting: an approved order matched by every rule of the policy, an active vendor
      that is not on hold, no duplicate among the records gathered, and no account but the vendor's own. */
  lemma PostedMeans(cfg: Settings, events: seq<Event>, k: string)
    requires k in After(cfg, INITIAL, events).store.decisions
    requires After(cfg, INITIAL, events).store.decisions[k].receipt.outcome == ApproveForPosting
    ensures var s := After(cfg, INITIAL, events).store;
      var r := s.decisions[k].request.runId;
      r in s.runs &&
      var c, moment := CaseOf(s.runs[r]), s.runs[r].dossier.reconciledAt;
      var invoice := c.InvoiceOn(DateOf(moment));
      c.order.Some? && MatchingBounds.CleanMatch(invoice, c.order.value) &&
      c.vendor.Some? && c.vendor.value.status.Active? && !c.vendor.value.onPaymentHold &&
      !Duplicates.HasProbableDuplicate(invoice, c.history) && AccountsAgree(c.assertedTails, c.masterTail)
  {
    hide After, RecommendedAs, OutcomeSoundness.SomeControlBlocks, MatchingBounds.CleanMatch,
      Duplicates.HasProbableDuplicate, AccountsAgree, HigherRisk;
    DecidedRun(cfg, events, k);
    PostedRunsPassedEveryControl(cfg, events, k);
    var s := After(cfg, INITIAL, events).store;
    var run := s.runs[s.decisions[k].request.runId];
    CleanCaseShows(CaseOf(run), run.dossier.intakeDay, run.dossier.reconciledAt);
  }

  // ---- what is paid -------------------------------------------------------------------

  /** What a request is checked for before it becomes a run: supplied components add up to the amount, and no
      line has a negative quantity. */
  predicate PassedItsChecks(r: Request) {
    (r.netAmount.Some? && r.taxAmount.Some? ==> r.netAmount.value + r.taxAmount.value == r.amount) &&
    MatchingBounds.NonNegativeInvoiced(r.lines)
  }

  /** The most the controls let through before tax: at line level what the receipts of the cited order lines are
      worth, otherwise the order's total; 100.00 in either case, and what rounding may hide. */
  function PayableNet(invoice: Invoice, order: PurchaseOrder): real {
    if invoice.lines == [] then order.totalValue + 100.0 + 0.01
    else MatchingBounds.CitedValue(order, invoice.lines) + 100.0 + MatchingBounds.RoundingRoom(invoice)
  }

  lemma CleanNetIsPayable(invoice: Invoice, order: PurchaseOrder)
    requires MatchingBounds.CleanMatch(invoice, order) && invoice.currency == order.currency
    requires MatchingBounds.NonNegativeInvoiced(invoice.lines)
    ensures invoice.netAmount <= PayableNet(invoice, order)
  {
    hide Money.Quantize, MatchingBounds.CitedValue, MatchingBounds.RoundingRoom, Matching.MatchExceptions;
    MatchingBounds.MatchIsCleanExactlyWhen(invoice, Some(order));
    if invoice.lines != [] {
      MatchingBounds.OverpaymentBound(invoice, order);
    } else {
      MatchingBounds.DocumentLimitAtMost100(order);
      Money.QuantizeError(order.totalValue);
      Money.QuantizeError(invoice.netAmount - Matching.ExpectedNet(invoice, order));
    }
  }

  /** Every posted amount in the order's currency is covered by evidence: the gross amount recorded is at most
      what the controls let through for the run's own order, and the tax the invoice states. A posting in
      another currency is one the order permits, and then no amounts are compared. */
  lemma PostedAmountIsEvidenced(cfg: Settings, events: seq<Event>, k: string)
    requires var s := After(cfg, INITIAL, events).store;
      k in s.decisions && s.decisions[k].receipt.outcome == ApproveForPosting &&
      s.decisions[k].request.runId in s.runs && PassedItsChecks(s.runs[s.decisions[k].request.runId].request)
    ensures var s := After(cfg, INITIAL, events).store;
      var run := s.runs[s.decisions[k].request.runId];
      var invoice := CaseOf(run).InvoiceOn(DateOf(run.dossier.reconciledAt));
      run.gathered.order.Some? &&
      var order := run.gathered.order.value;
      if run.request.currency == order.currency
      then s.decisions[k].receipt.amount <= PayableNet(invoice, order) + invoice.taxAmount
      else order.permitsCurrencyConversion
  {
    hide After, RecommendedAs, PayableNet, HigherRisk, Duplicates.HasProbableDuplicate, Any,
      MatchingBounds.LineOk, Matching.TotalWithin;
    DecidedRun(cfg, events, k);
    PostedMeans(cfg, events, k);
    var s := After(cfg, INITIAL, events).store;
    var run := s.runs[s.decisions[k].request.runId];
    var today := DateOf(run.dossier.reconciledAt);
    InvoiceComponentsAgree(run.request, today);
    if run.request.currency == run.gathered.order.value.currency {
      CleanNetIsPayable(CaseOf(run).InvoiceOn(today), run.gathered.order.value);
    }
  }

  // ---- every recommendation -----------------------------------------------------------

  /** Whatever a run was recommended, its own case gives that outcome by the table, at the moments its controls
      were run; the three outcomes with consequences wait for an approval that shows the run, and the two
      without end the run at once, held, with nothing to sign and nothing recorded. */
  lemma RecommendationsFollowTheTable(cfg: Settings, events: seq<Event>, r: string)
    requires r in After(cfg, INITIAL, events).store.runs
    requires After(cfg, INITIAL, events).store.runs[r].recommendation.Some?
    ensures var run := After(cfg, INITIAL, events).store.runs[r];
      var c, d := CaseOf(run), run.dossier;
      var escalates, duplicate, invalid, held :=
        OutcomeTable.Escalates(c, |d.indicators|, d.suggested), OutcomeTable.IsDuplicate(c, d.suggested),
        OutcomeTable.IsInvalid(c, d.intakeDay, d.suggested),
        OutcomeTable.IsHeld(c, d.intakeDay, d.reconciledAt, d.recommendedAt, d.suggested);
      run.recommendation.value.outcome ==
        if escalates then EscalateControlReview
        else if duplicate then RejectDuplicate
        else if invalid then RejectInvalid
        else if held then HoldForInformation
        else ApproveForPosting
    ensures var s := After(cfg, INITIAL, events).store;
      var run := s.runs[r];
      var outcome := run.recommendation.value.outcome;
      (outcome in {HoldForInformation, EscalateControlReview} ==>
        run.phase == Held && run.approvalId.None? && !RunHasDecision(s, r)) &&
      (outcome in {ApproveForPosting, RejectDuplicate, RejectInvalid} ==>
        run.approvalId.Some? && run.approvalId.value in s.approvals &&
        Presents(s.approvals[run.approvalId.value], run))
  {
    hide After, HigherRisk, HigherVendorRisk, OutcomeTable.Escalates, OutcomeTable.IsDuplicate, OutcomeTable.IsInvalid,
      OutcomeTable.IsHeld, Presents, Phases.CaseOutcome, AddNew;
    Theorems.ReachableOk(cfg, events);
    var s := After(cfg, INITIAL, events).store;
    RecommendedRun(cfg, s, r);
    Theorems.DecisionsAgreeWithPhases(cfg, events, r);
    var c, d := CaseOf(s.runs[r]), s.runs[r].dossier;
    OutcomeTable.OutcomeExactlyWhen(
      c, d.intakeDay, d.reconciledAt, d.recommendedAt, |d.indicators|, d.suggested);
  }

  lemma RecommendedRun(cfg: Settings, s: Store, r: string)
    requires StoreOk(cfg, s) && r in s.runs && s.runs[r].recommendation.Some?
    ensures RecommendedAs(s.runs[r], s.runs[r].recommendation.value)
    ensures if s.runs[r].recommendation.value.outcome.IsConsequential()
      then s.runs[r].approvalId.Some? && s.runs[r].approvalId.value in s.approvals &&
        Presents(s.approvals[s.runs[r].approvalId.value], s.runs[r])
      else s.runs[r].phase.Held? && s.runs[r].approvalId.None?
  {
    hide HistoryOk, KeyFor, Doomed, DecisionsOk, ApprovalsOk, FingerprintsDistinct, Presents, RecommendedAs, HigherRisk,
      RecordedBy, IntakeDone;
    assert RunOk(cfg, s, s.runs[r]);
    assert EngineOk(s.runs[r]) && OutcomeOk(s.runs[r]);
  }

  // ---- who signed for risk ------------------------------------------------------------

  /** Higher risk at a moment: the vendor record, or an account asserted that is not the vendor's own. */
  predicate IsRisky(c: Phases.CaseFile, moment: int) {
    VendorIsRisky(c, moment) || OutcomeTable.ForeignAccount(c)
  }

  predicate VendorIsRisky(c: Phases.CaseFile, moment: int) {
    c.vendor.Some? && Vendor.RiskyVendor(c.vendor.value, moment, c.history)
  }

  lemma RiskInFields(c: Phases.CaseFile, moment: int)
    ensures HigherRisk(c, moment) <==> IsRisky(c, moment)
  {
    hide Vendor.RiskyVendor, Vendor.StatusCheck, Controls.InstructionExceptions;
    Vendor.RiskInFields(c.vendor, c.sameName, moment, c.history);
    Controls.InstructionsObjectExactlyWhen(c.assertedTails, c.masterTail);
    if OutcomeTable.ForeignAccount(c) {
      var i :| 0 <= i < |c.assertedTails| && c.masterTail != Some(c.assertedTails[i]);
      assert c.assertedTails[i] in c.assertedTails;
    }
  }

  /** Two signatures are asked for exactly when the transaction is of higher risk, at reconciliation or by the
      vendor record when it was recommended. */
  lemma RiskAsksForTwo(run: Run)
    requires run.recommendation.Some? && RecommendedAs(run, run.recommendation.value)
    requires run.gathered.higherRisk == HigherRisk(CaseOf(run), run.dossier.reconciledAt)
    ensures run.recommendation.value.requiresSecond <==>
      IsRisky(CaseOf(run), run.dossier.reconciledAt) || VendorIsRisky(CaseOf(run), run.dossier.recommendedAt)
  {
    hide HigherRisk, OutcomeOf, IsRisky, Vendor.RiskyVendor, Vendor.StatusCheck;
    RiskInFields(CaseOf(run), run.dossier.reconciledAt);
    var g := run.gathered;
    Vendor.RiskInFields(g.vendor, g.sameName, run.dossier.recommendedAt, g.history);
  }

  /** Every decision on a transaction of higher risk carries two people's signatures, one of them from Financial
      Control; higher risk is a vendor paid overseas, flagged, under sanctions review, less than thirty days
      old or unpaid since a bank change, or an account asserted that is not the vendor's. Otherwise one
      signature was asked for. */
  lemma RiskyDecisionsAreCountersigned(cfg: Settings, events: seq<Event>, k: string)
    requires k in After(cfg, INITIAL, events).store.decisions
    ensures var s := After(cfg, INITIAL, events).store;
      var row := s.decisions[k];
      row.request.runId in s.runs && row.approvalId in s.approvals &&
      var run, a := s.runs[row.request.runId], s.approvals[row.approvalId];
      if IsRisky(CaseOf(run), run.dossier.reconciledAt) || VendorIsRisky(CaseOf(run), run.dossier.recommendedAt)
      then
        a.requiredCount == 2 && a.requiresFinancialControl && |a.signatures| >= 2 &&
        exists p :: p in a.signatures && a.signatures[p].approverRole == Some(FinancialControl)
      else a.requiredCount == 1 && !a.requiresFinancialControl
  {
    hide After, HigherRisk, HigherVendorRisk, RecommendedAs, IsRisky, VendorIsRisky, Theorems.ActsWithin,
      Theorems.SeparateDuties, EngineOk, HistoryOk;
    DecidedRun(cfg, events, k);
    Theorems.DecisionsAreAuthorised(cfg, events, k);
    Theorems.ReachableOk(cfg, events);
    var s := After(cfg, INITIAL, events).store;
    var run := s.runs[s.decisions[k].request.runId];
    RiskAsksForTwo(run);
    Theorems.OpenedGateIsAuthorised(cfg, events, s.decisions[k].approvalId);
    RecommendedRun(cfg, s, s.decisions[k].request.runId);
    DecidedUnderItsApproval(cfg, s, k);
  }

  lemma DecidedUnderItsApproval(cfg: Settings, s: Store, k: string)
    requires StoreOk(cfg, s) && k in s.decisions
    ensures s.decisions[k].request.runId in s.runs
    ensures s.runs[s.decisions[k].request.runId].approvalId == Some(s.decisions[k].approvalId)
  {
    hide KeyMaterial, InvoiceMaterial, Doomed, ArgumentsValid, RunsOk, ApprovalsOk, FingerprintsDistinct;
    assert DecisionOk(cfg, s, k, s.decisions[k]);
  }
}
