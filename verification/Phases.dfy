/** The phases that feed the controls into the run and read them back
    (src/ap_agent/orchestration/phases/intake.py, reconcile.py, assess_risk.py, recommend.py). */
module Phases {
  import opened Prelude
  import opened Domain
  import opened RunState
  import Controls
  import Duplicates
  import Matching
  import Outcome
  import PaymentTerms
  import Segregation
  import Validity
  import Vendor

  /** The case: what was submitted, what its texts say, and the evidence that was gathered. */
  datatype CaseFile = CaseFile(
    request: Request,
    creditWording: bool,
    assertedTails: seq<string>,
    masterTail: Option<string>,
    sameName: bool,
    vendor: Option<VendorRecord>,
    order: Option<PurchaseOrder>,
    history: seq<HistoryMatch>)
  {
    function InvoiceOn(day: int): Invoice {
      request.ToInvoice(day)
    }
  }

  function IntakeReasons(c: CaseFile, day: int): seq<string> {
    Validity.InvalidReasons(c.InvoiceOn(day), c.request.invoiceDate.Some?, c.request.TaxSeparated(), day)
  }

  function IntakeExceptions(c: CaseFile, day: int): seq<ExceptionRecord> {
    Validity.ValidityExceptions(
      c.InvoiceOn(day), c.request.invoiceDate.Some?, c.request.TaxSeparated(), c.creditWording, day)
  }

  function Flat(results: seq<seq<ExceptionRecord>>, n: nat): seq<ExceptionRecord>
    requires n <= |results|
  {
    if n == 0 then [] else Flat(results, n - 1) + results[n - 1]
  }

  /** What the eight controls of reconciliation raise, in the order they are recorded. */
  function ControlResults(c: CaseFile, moment: int): (results: seq<seq<ExceptionRecord>>)
    ensures |results| == 8
  {
    var invoice := c.InvoiceOn(DateOf(moment));
    [ Matching.MatchExceptions(invoice, c.order),
      Duplicates.DuplicateExceptions(invoice, c.history),
      Vendor.StatusCheck(c.vendor, c.sameName, moment, c.history).exceptions,
      Controls.InstructionExceptions(c.assertedTails, c.masterTail),
      Segregation.CheckReconciliationTime(c.order, invoice.grossAmount, c.request.requestedBy),
      Controls.TaxExceptions(invoice, c.request.TaxSeparated(), c.order),
      PaymentTerms.TermsExceptions(invoice, c.order, c.request.paymentTermsDays, DateOf(moment)),
      Controls.NonPoExceptions(invoice, c.history) ]
  }

  function ReconcileExceptions(c: CaseFile, moment: int): seq<ExceptionRecord> {
    Flat(ControlResults(c, moment), 8)
  }

  // ---- the phases ---------------------------------------------------------------------

  method RunIntake(state: RunState, c: CaseFile, day: int)
    modifies state
    ensures state.exceptions == Accumulate(old(state.exceptions), IntakeExceptions(c, day))
    ensures state.indicators == old(state.indicators)
    ensures state.invalidReasons == AddNew(old(state.invalidReasons), IntakeReasons(c, day))
  {
    var reasons, exceptions := Validity.CheckInvoiceValidity(
      c.InvoiceOn(day), c.request.invoiceDate.Some?, c.request.TaxSeparated(), c.creditWording, day);
    state.AddExceptions(exceptions);
    state.AddInvalidReasons(reasons);
  }

  method RunReconcile(state: RunState, c: CaseFile, moment: int)
    modifies state
    ensures state.exceptions == Accumulate(old(state.exceptions), ReconcileExceptions(c, moment))
    ensures state.invalidReasons == old(state.invalidReasons) && state.indicators == old(state.indicators)
  {
    hide Matching.MatchExceptions, Duplicates.DuplicateExceptions, Vendor.StatusCheck;
    hide Controls.InstructionExceptions, Controls.TaxExceptions, Controls.NonPoExceptions;
    hide Segregation.CheckReconciliationTime, PaymentTerms.TermsExceptions;
    var invoice := c.InvoiceOn(DateOf(moment));
    var matched := Matching.ThreeWayMatch(invoice, c.order);
    var _, _, _, duplicates := Duplicates.DuplicateCheck(invoice, c.history);
    var vendor := Vendor.StatusCheck(c.vendor, c.sameName, moment, c.history);
    var terms := PaymentTerms.AssessPaymentTerms(invoice, c.order, c.request.paymentTermsDays, DateOf(moment));
    var results := [
      matched.exceptions, duplicates, vendor.exceptions,
      Controls.InstructionExceptions(c.assertedTails, c.masterTail),
      Segregation.CheckReconciliationTime(c.order, invoice.grossAmount, c.request.requestedBy),
      Controls.TaxExceptions(invoice, c.request.TaxSeparated(), c.order), terms.exceptions,
      Controls.NonPoExceptions(invoice, c.history)];
    assert results == ControlResults(c, moment);
    for k := 0 to |results|
      invariant state.exceptions == Accumulate(old(state.exceptions), Flat(results, k))
      invariant state.invalidReasons == old(state.invalidReasons) && state.indicators == old(state.indicators)
    {
      AccumulateJoins(old(state.exceptions), Flat(results, k), results[k]);
      state.AddExceptions(results[k]);
    }
  }

  /** What the outcome is decided on: three controls computed again, and everything the run recorded. */
  function EvidenceOf(
      recorded: seq<ExceptionRecord>, invalid: bool, indicators: nat, c: CaseFile, moment: int): Outcome.Evidence
  {
    var invoice := c.InvoiceOn(DateOf(moment));
    var vendor := Vendor.StatusCheck(c.vendor, c.sameName, moment, c.history);
    Outcome.Evidence(
      indicators, vendor.requiresControlEscalation, Duplicates.HasSettledDuplicate(invoice, c.history), invalid,
      Any(Matching.MatchExceptions(invoice, c.order) + Duplicates.DuplicateExceptions(invoice, c.history) +
          vendor.exceptions + recorded, IsBlocking))
  }

  /** The recommended outcome: what the evidence decides, or the model's suggestion where it is stricter. */
  function OutcomeOn(
      recorded: seq<ExceptionRecord>, invalid: bool, indicators: nat, c: CaseFile, moment: int,
      suggested: Option<Outcome.Outcome>) : Outcome.Outcome
  {
    Outcome.Final(Outcome.Decide(EvidenceOf(recorded, invalid, indicators, c, moment)), suggested)
  }

  /** Everything recorded by the end of reconciliation. */
  function Recorded(c: CaseFile, intakeDay: int, reconciledAt: int): seq<ExceptionRecord> {
    Accumulate(Accumulate([], IntakeExceptions(c, intakeDay)), ReconcileExceptions(c, reconciledAt))
  }

  /** The outcome of a whole case, through the accumulators, at three moments of the clock. */
  function CaseOutcome(
      c: CaseFile, intakeDay: int, reconciledAt: int, recommendedAt: int, indicators: nat,
      suggested: Option<Outcome.Outcome>) : Outcome.Outcome
  {
    OutcomeOn(Recorded(c, intakeDay, reconciledAt), IntakeReasons(c, intakeDay) != [], indicators, c,
      recommendedAt, suggested)
  }

  method RunRecommend(state: RunState, c: CaseFile, moment: int, suggested: Option<Outcome.Outcome>)
    returns (outcome: Outcome.Outcome)
    ensures outcome ==
      OutcomeOn(state.exceptions, state.invalidReasons != [], |state.indicators|, c, moment, suggested)
  {
    var invoice := c.InvoiceOn(DateOf(moment));
    var matched := Matching.ThreeWayMatch(invoice, c.order);
    var _, _, settled, duplicates := Duplicates.DuplicateCheck(invoice, c.history);
    var vendor := Vendor.StatusCheck(c.vendor, c.sameName, moment, c.history);
    var exceptions := matched.exceptions + duplicates + vendor.exceptions + state.exceptions;
    var computed := Outcome.Decide(Outcome.Evidence(
      |state.indicators|, vendor.requiresControlEscalation, settled.Some?, state.invalidReasons != [],
      Any(exceptions, IsBlocking)));
    outcome := computed;
    if suggested.Some? && Outcome.Tightens(suggested.value, computed) {
      outcome := suggested.value;
    }
  }
}
