/** The outcome of a case, decided by what the case says (src/ap_agent/domain/rules/outcome.py:85-229).

    Nothing here mentions how the program computes it: the conditions are over the request, its texts, the order,
    the vendor record and the history. */
module OutcomeTable {
  import opened Prelude
  import opened Domain
  import opened Money
  import opened RunState
  import opened Phases
  import Controls
  import Duplicates
  import Fingerprint
  import Matching
  import MatchingLaws
  import Outcome
  import OutcomeSoundness
  import PaymentTerms
  import Segregation
  import Validity
  import Vendor

  // ---- what may be wrong --------------------------------------------------------------

  /** The stated net differs from its own lines by more than a cent a line. */
  predicate WrongTotal(r: Request) {
    r.lines != [] && (r.netAmount.Some? || r.taxAmount.Some?) &&
    var difference := Quantize(r.Net() - Quantize(Validity.LineSum(r.lines)));
    difference > 0.01 * |r.lines| as real || -difference > 0.01 * |r.lines| as real
  }

  predicate FutureDate(r: Request, day: int) {
    r.invoiceDate.Some? && day < r.invoiceDate.value
  }

  /** The record may be of the same invoice: the same vendor, and the same number and gross in one currency, or
      a shared attachment, or the same number not rejected, or nearly the amount on the same order or within
      two weeks. */
  predicate MayBeTheSame(invoice: Invoice, record: HistoryMatch) {
    invoice.vendorId == record.vendorId &&
    ((Fingerprint.Alike(invoice.reference, record.reference) && invoice.currency == record.currency &&
      invoice.grossAmount == record.grossAmount) ||
     invoice.attachmentHashes * record.attachmentHashes != {} ||
     (Fingerprint.Alike(invoice.reference, record.reference) && record.status != WasRejected) ||
     (Duplicates.AmountIsNear(invoice.grossAmount, record.grossAmount) &&
      (-14 <= invoice.invoiceDate - record.invoiceDate <= 14 ||
       (invoice.poReference == record.poReference && invoice.poReference.Some? &&
        invoice.poReference.value != ""))))
  }

  predicate LooksSeen(invoice: Invoice, history: seq<HistoryMatch>) {
    exists i :: 0 <= i < |history| && MayBeTheSame(invoice, history[i])
  }

  /** The record shows exactly this invoice, paid or posted. */
  predicate Settled(r: Request, record: HistoryMatch) {
    r.MasterVendorId() == record.vendorId && Fingerprint.Alike(r.invoiceReference, record.reference) &&
    r.currency == record.currency && r.amount == record.grossAmount && record.status in {Paid, Posted}
  }

  predicate AlreadySettled(r: Request, history: seq<HistoryMatch>) {
    exists i :: 0 <= i < |history| && Settled(r, history[i])
  }

  predicate VendorUnusable(vendor: Option<VendorRecord>, history: seq<HistoryMatch>) {
    vendor.None? || vendor.value.status != Active || vendor.value.onPaymentHold ||
    Vendor.UnpaidSinceBankChange(vendor.value, history)
  }

  predicate ForeignAccount(c: CaseFile) {
    exists i :: 0 <= i < |c.assertedTails| && c.masterTail != Some(c.assertedTails[i])
  }

  /** Above 25,000 the requester receipted the order. */
  predicate RequesterReceipted(c: CaseFile) {
    c.request.amount > 25000.0 && c.request.requestedBy.Some? && c.request.requestedBy.value != "" &&
    Segregation.Receipted(c.order, c.request.requestedBy.value)
  }

  /** Something stands against posting the case. */
  predicate SomethingIsWrong(c: CaseFile, intakeDay: int, reconciledAt: int) {
    var invoice := c.InvoiceOn(DateOf(reconciledAt));
    c.creditWording || WrongTotal(c.request) || FutureDate(c.request, intakeDay) ||
    !(c.order.Some? && MatchingLaws.Agrees(invoice, c.order.value)) || LooksSeen(invoice, c.history) ||
    VendorUnusable(c.vendor, c.history) || ForeignAccount(c) || RequesterReceipted(c)
  }

  // ---- the controls see exactly that --------------------------------------------------

  lemma SeenMeans(invoice: Invoice, history: seq<HistoryMatch>)
    ensures Duplicates.HasProbableDuplicate(invoice, history) <==> LooksSeen(invoice, history)
  {
    hide Duplicates.IsExact, Duplicates.FuzzyReasons, MayBeTheSame;
    forall i | 0 <= i < |history|
      ensures Duplicates.IsExact(invoice, history[i]) || Duplicates.IsProbable(invoice, history[i]) <==>
        MayBeTheSame(invoice, history[i])
    {
      SameMeans(invoice, history[i]);
    }
  }

  lemma SameMeans(invoice: Invoice, record: HistoryMatch)
    ensures Duplicates.IsExact(invoice, record) || Duplicates.IsProbable(invoice, record) <==>
      MayBeTheSame(invoice, record)
  {
    hide Duplicates.IsExact, Duplicates.FuzzyReasons, Fingerprint.Alike, Duplicates.AmountIsNear;
    Duplicates.ExactMeans(invoice, record);
    Duplicates.ProbableMeans(invoice, record);
  }

  lemma SettledMeans(r: Request, day: int, history: seq<HistoryMatch>)
    ensures Duplicates.HasSettledDuplicate(r.ToInvoice(day), history) <==> AlreadySettled(r, history)
  {
    hide Duplicates.IsExact, Fingerprint.Alike;
    forall i | 0 <= i < |history|
      ensures Duplicates.IsExact(r.ToInvoice(day), history[i]) && history[i].IsSettled() <==> Settled(r, history[i])
    {
      Duplicates.ExactMeans(r.ToInvoice(day), history[i]);
    }
  }

  lemma InvalidMeans(c: CaseFile, day: int)
    ensures IntakeReasons(c, day) != [] <==> WrongTotal(c.request) || FutureDate(c.request, day)
    ensures Any(IntakeExceptions(c, day), IsBlocking) <==>
      c.creditWording || WrongTotal(c.request) || FutureDate(c.request, day)
  {
    hide Quantize;
    var found := IntakeExceptions(c, day);
    if found != [] {
      assert IsBlocking(found[0]);
    }
  }

  lemma VendorBlocksMeans(c: CaseFile, moment: int)
    ensures Any(Vendor.StatusCheck(c.vendor, c.sameName, moment, c.history).exceptions, IsBlocking) <==>
      VendorUnusable(c.vendor, c.history)
  {
    hide Vendor.StatusCheck, Vendor.UnpaidSinceBankChange;
    Vendor.VendorRecordsExactly(c.vendor, c.sameName, moment, c.history);
    var found := Vendor.StatusCheck(c.vendor, c.sameName, moment, c.history).exceptions;
    if VendorUnusable(c.vendor, c.history) {
      assert IsBlocking(found[0]);
    }
  }

  lemma InstructionsBlockMeans(c: CaseFile)
    ensures Any(Controls.InstructionExceptions(c.assertedTails, c.masterTail), IsBlocking) <==> ForeignAccount(c)
  {
    hide Controls.InstructionExceptions;
    Controls.InstructionsObjectExactlyWhen(c.assertedTails, c.masterTail);
    var found := Controls.InstructionExceptions(c.assertedTails, c.masterTail);
    if ForeignAccount(c) {
      var i :| 0 <= i < |c.assertedTails| && c.masterTail != Some(c.assertedTails[i]);
      assert c.assertedTails[i] in c.assertedTails;
      assert IsBlocking(found[0]);
    }
  }

  lemma SegregationBlocksMeans(c: CaseFile, day: int)
    ensures var found :=
        Segregation.CheckReconciliationTime(c.order, c.InvoiceOn(day).grossAmount, c.request.requestedBy);
      Any(found, IsBlocking) <==> RequesterReceipted(c)
  {
    hide Segregation.CheckReconciliationTime, Segregation.Receipted;
    Segregation.ReconciliationObjectsExactlyWhen(c.order, c.InvoiceOn(day).grossAmount, c.request.requestedBy);
    var found := Segregation.CheckReconciliationTime(c.order, c.InvoiceOn(day).grossAmount, c.request.requestedBy);
    if RequesterReceipted(c) {
      assert IsBlocking(found[0]);
    }
  }

  lemma SoftControls(c: CaseFile, invoice: Invoice, day: int)
    ensures !Any(Controls.TaxExceptions(invoice, c.request.TaxSeparated(), c.order), IsBlocking)
    ensures !Any(PaymentTerms.TermsExceptions(invoice, c.order, c.request.paymentTermsDays, day), IsBlocking)
    ensures !Any(Controls.NonPoExceptions(invoice, c.history), IsBlocking)
  {
    hide Quantize, PaymentTerms.RunAvailable;
  }

  lemma DuplicatesBlockMeans(invoice: Invoice, history: seq<HistoryMatch>)
    ensures Any(Duplicates.DuplicateExceptions(invoice, history), IsBlocking) <==> LooksSeen(invoice, history)
  {
    hide Duplicates.DuplicateExceptions, LooksSeen, Duplicates.HasProbableDuplicate, Any;
    OutcomeSoundness.DuplicatesBlock(invoice, history);
    SeenMeans(invoice, history);
  }

  /** Some control of intake or reconciliation blocks exactly when something is wrong with the case. */
  lemma BlocksExactlyWhen(c: CaseFile, intakeDay: int, reconciledAt: int)
    ensures OutcomeSoundness.SomeControlBlocks(c, intakeDay, reconciledAt) <==>
      SomethingIsWrong(c, intakeDay, reconciledAt)
  {
    hide Any, IntakeExceptions, Matching.MatchExceptions, Duplicates.DuplicateExceptions, Vendor.StatusCheck,
      Controls.InstructionExceptions, Segregation.CheckReconciliationTime, Controls.TaxExceptions,
      PaymentTerms.TermsExceptions, Controls.NonPoExceptions, MatchingLaws.Agrees, LooksSeen, VendorUnusable,
      ForeignAccount, RequesterReceipted, WrongTotal, FutureDate;
    var invoice := c.InvoiceOn(DateOf(reconciledAt));
    var results := ControlResults(c, reconciledAt);
    InvalidMeans(c, intakeDay);
    MatchingLaws.MatchAgreesExactlyWhen(invoice, c.order);
    DuplicatesBlockMeans(invoice, c.history);
    VendorBlocksMeans(c, reconciledAt);
    InstructionsBlockMeans(c);
    SegregationBlocksMeans(c, DateOf(reconciledAt));
    SoftControls(c, invoice, DateOf(reconciledAt));
    assert Any(results[0], IsBlocking) ==> OutcomeSoundness.SomeControlBlocks(c, intakeDay, reconciledAt);
    assert Any(results[1], IsBlocking) ==> OutcomeSoundness.SomeControlBlocks(c, intakeDay, reconciledAt);
    assert Any(results[2], IsBlocking) ==> OutcomeSoundness.SomeControlBlocks(c, intakeDay, reconciledAt);
    assert Any(results[3], IsBlocking) ==> OutcomeSoundness.SomeControlBlocks(c, intakeDay, reconciledAt);
    assert Any(results[4], IsBlocking) ==> OutcomeSoundness.SomeControlBlocks(c, intakeDay, reconciledAt);
  }

  // ---- the table ----------------------------------------------------------------------

  predicate Escalates(c: CaseFile, indicators: nat, suggested: Option<Outcome.Outcome>) {
    indicators >= 2 ||
    (c.vendor.Some? && (c.vendor.value.hasRiskFlags || c.vendor.value.status == SanctionsReview)) ||
    suggested == Some(EscalateControlReview)
  }

  predicate IsDuplicate(c: CaseFile, suggested: Option<Outcome.Outcome>) {
    AlreadySettled(c.request, c.history) || suggested == Some(RejectDuplicate)
  }

  predicate IsInvalid(c: CaseFile, intakeDay: int, suggested: Option<Outcome.Outcome>) {
    WrongTotal(c.request) || FutureDate(c.request, intakeDay) || suggested == Some(RejectInvalid)
  }

  /** Something is wrong, or an invoice without a date, dated on the day of the recommendation, looks seen. */
  predicate IsHeld(
      c: CaseFile, intakeDay: int, reconciledAt: int, recommendedAt: int, suggested: Option<Outcome.Outcome>)
  {
    SomethingIsWrong(c, intakeDay, reconciledAt) ||
    (c.request.invoiceDate.None? && LooksSeen(c.InvoiceOn(DateOf(recommendedAt)), c.history)) ||
    suggested == Some(HoldForInformation)
  }

  /** The outcome in terms of the five pieces of evidence. */
  lemma EvidenceTable(e: Outcome.Evidence, suggested: Option<Outcome.Outcome>)
    ensures var outcome := Outcome.Final(Outcome.Decide(e), suggested);
      var escalates := e.indicators >= 2 || e.vendorEscalates || suggested == Some(EscalateControlReview);
      var duplicate := e.settledDuplicate || suggested == Some(RejectDuplicate);
      var invalid := e.invalid || suggested == Some(RejectInvalid);
      var held := e.blocked || suggested == Some(HoldForInformation);
      (outcome == EscalateControlReview <==> escalates) &&
      (outcome == RejectDuplicate <==> !escalates && duplicate) &&
      (outcome == RejectInvalid <==> !escalates && !duplicate && invalid) &&
      (outcome == HoldForInformation <==> !escalates && !duplicate && !invalid && held) &&
      (outcome == ApproveForPosting <==> !escalates && !duplicate && !invalid && !held)
  {
  }

  /** The evidence, in terms of the case. */
  lemma EvidenceMeans(c: CaseFile, intakeDay: int, reconciledAt: int, recommendedAt: int, indicators: nat)
    ensures var e := EvidenceOf(Recorded(c, intakeDay, reconciledAt), IntakeReasons(c, intakeDay) != [], indicators, c,
        recommendedAt);
      e.indicators == indicators &&
      (e.vendorEscalates <==>
        c.vendor.Some? && (c.vendor.value.hasRiskFlags || c.vendor.value.status == SanctionsReview)) &&
      (e.settledDuplicate <==> AlreadySettled(c.request, c.history)) &&
      (e.invalid <==> WrongTotal(c.request) || FutureDate(c.request, intakeDay)) &&
      (e.blocked <==>
        SomethingIsWrong(c, intakeDay, reconciledAt) ||
        (c.request.invoiceDate.None? && LooksSeen(c.InvoiceOn(DateOf(recommendedAt)), c.history)))
  {
    hide OutcomeSoundness.SomeControlBlocks, Recorded, Duplicates.HasProbableDuplicate, Vendor.StatusCheck,
      Duplicates.HasSettledDuplicate, IntakeReasons, Any, SomethingIsWrong, LooksSeen, AlreadySettled, WrongTotal,
      FutureDate, Matching.MatchExceptions, Duplicates.DuplicateExceptions;
    OutcomeSoundness.BlockedEvidence(c, intakeDay, reconciledAt, recommendedAt, IntakeReasons(c, intakeDay) != [],
      indicators);
    BlocksExactlyWhen(c, intakeDay, reconciledAt);
    SeenMeans(c.InvoiceOn(DateOf(recommendedAt)), c.history);
    SettledMeans(c.request, DateOf(recommendedAt), c.history);
    InvalidMeans(c, intakeDay);
    Vendor.RiskInFields(c.vendor, c.sameName, recommendedAt, c.history);
    if c.request.invoiceDate.Some? && LooksSeen(c.InvoiceOn(DateOf(recommendedAt)), c.history) {
      assert c.InvoiceOn(DateOf(recommendedAt)) == c.InvoiceOn(DateOf(reconciledAt));
      SeenIsWrong(c, intakeDay, reconciledAt);
    }
  }

  lemma SeenIsWrong(c: CaseFile, intakeDay: int, reconciledAt: int)
    requires LooksSeen(c.InvoiceOn(DateOf(reconciledAt)), c.history)
    ensures SomethingIsWrong(c, intakeDay, reconciledAt)
  {
  }

  /** The five outcomes, each exactly when its reason is there and no graver one is: escalation for two
      indicators, a flagged vendor or one under sanctions review; rejection as a duplicate of a settled record;
      rejection as invalid for a wrong total or a future date; a hold for anything else that is wrong. The
      model's suggestion counts as a reason of its own, and so can only tighten. */
  lemma OutcomeExactlyWhen(
      c: CaseFile, intakeDay: int, reconciledAt: int, recommendedAt: int, indicators: nat,
      suggested: Option<Outcome.Outcome>)
    ensures var outcome := CaseOutcome(c, intakeDay, reconciledAt, recommendedAt, indicators, suggested);
      var escalates, duplicate, invalid, held :=
        Escalates(c, indicators, suggested), IsDuplicate(c, suggested), IsInvalid(c, intakeDay, suggested),
        IsHeld(c, intakeDay, reconciledAt, recommendedAt, suggested);
      (outcome == EscalateControlReview <==> escalates) &&
      (outcome == RejectDuplicate <==> !escalates && duplicate) &&
      (outcome == RejectInvalid <==> !escalates && !duplicate && invalid) &&
      (outcome == HoldForInformation <==> !escalates && !duplicate && !invalid && held) &&
      (outcome == ApproveForPosting <==> !escalates && !duplicate && !invalid && !held)
  {
    hide Recorded, IntakeReasons, EvidenceOf, SomethingIsWrong, LooksSeen, AlreadySettled, WrongTotal, FutureDate,
      Outcome.Final, Outcome.Decide;
    EvidenceMeans(c, intakeDay, reconciledAt, recommendedAt, indicators);
    EvidenceTable(
      EvidenceOf(Recorded(c, intakeDay, reconciledAt), IntakeReasons(c, intakeDay) != [], indicators, c,
        recommendedAt), suggested);
  }

  // ---- the record ---------------------------------------------------------------------

  /** What intake puts on record, rule by rule. */
  lemma IntakeRecords(c: CaseFile, day: int)
    ensures IntakeExceptions(c, day) ==
      (if c.creditWording
       then [ExceptionRecord(OtherControlRisk, "validity.document_is_an_invoice_not_a_credit_note", true)] else []) +
      (if WrongTotal(c.request)
       then [ExceptionRecord(OtherControlRisk, "validity.document_total_agrees_with_lines", true)] else []) +
      (if FutureDate(c.request, day)
       then [ExceptionRecord(OtherControlRisk, "validity.invoice_date_not_in_the_future", true)] else [])
  {
    hide Quantize;
  }

  /** What the duplicate check puts on record. */
  lemma DuplicateRecords(c: CaseFile, day: int)
    ensures Duplicates.DuplicateExceptions(c.InvoiceOn(day), c.history) ==
      if AlreadySettled(c.request, c.history)
      then [ExceptionRecord(DuplicateRisk, "duplicate_check.exact_match_to_settled_record", true)]
      else if LooksSeen(c.InvoiceOn(day), c.history)
      then [ExceptionRecord(DuplicateRisk, "duplicate_check.probable_match", true)]
      else []
  {
    hide AlreadySettled, LooksSeen, Duplicates.HasSettledDuplicate, Duplicates.HasProbableDuplicate;
    SettledMeans(c.request, day, c.history);
    SeenMeans(c.InvoiceOn(day), c.history);
  }

  lemma KeysJoin(xs: seq<ExceptionRecord>, ys: seq<ExceptionRecord>, key: Key)
    ensures HasKey(xs + ys, key) <==> HasKey(xs, key) || HasKey(ys, key)
  {
    if HasKey(xs, key) {
      var i :| 0 <= i < |xs| && KeyOf(xs[i]) == key;
      assert KeyOf((xs + ys)[i]) == key;
    }
    if HasKey(ys, key) {
      var i :| 0 <= i < |ys| && KeyOf(ys[i]) == key;
      assert KeyOf((xs + ys)[|xs| + i]) == key;
    }
  }

  lemma AccumulatedKeys(given: seq<ExceptionRecord>, key: Key)
    ensures HasKey(Accumulate([], given), key) <==> HasKey(given, key)
  {
    AccumulateKeeps([], given);
    var kept := Accumulate([], given);
    if HasKey(kept, key) {
      var i :| 0 <= i < |kept| && KeyOf(kept[i]) == key;
      assert kept[i] in given;
    }
    if HasKey(given, key) {
      var i :| 0 <= i < |given| && KeyOf(given[i]) == key;
    }
  }

  /** The run's record holds exactly the rules that some control of intake or reconciliation reported: validity,
      matching, duplicates, the vendor, payment instructions, segregation, tax, terms, and purchasing without
      an order; none is left out and nothing else gets in. */
  lemma RecordedExactly(c: CaseFile, intakeDay: int, reconciledAt: int, key: Key)
    ensures var today := DateOf(reconciledAt);
      var invoice := c.InvoiceOn(today);
      HasKey(Recorded(c, intakeDay, reconciledAt), key) <==>
        HasKey(IntakeExceptions(c, intakeDay), key) ||
        HasKey(Matching.MatchExceptions(invoice, c.order), key) ||
        HasKey(Duplicates.DuplicateExceptions(invoice, c.history), key) ||
        HasKey(Vendor.StatusCheck(c.vendor, c.sameName, reconciledAt, c.history).exceptions, key) ||
        HasKey(Controls.InstructionExceptions(c.assertedTails, c.masterTail), key) ||
        HasKey(Segregation.CheckReconciliationTime(c.order, c.request.amount, c.request.requestedBy), key) ||
        HasKey(Controls.TaxExceptions(invoice, c.request.TaxSeparated(), c.order), key) ||
        HasKey(PaymentTerms.TermsExceptions(invoice, c.order, c.request.paymentTermsDays, today), key) ||
        HasKey(Controls.NonPoExceptions(invoice, c.history), key)
  {
    hide HasKey, IntakeExceptions, Matching.MatchExceptions, Duplicates.DuplicateExceptions, Vendor.StatusCheck,
      Controls.InstructionExceptions, Segregation.CheckReconciliationTime, Controls.TaxExceptions,
      PaymentTerms.TermsExceptions, Controls.NonPoExceptions, Accumulate;
    var results := ControlResults(c, reconciledAt);
    AccumulateJoins([], IntakeExceptions(c, intakeDay), Flat(results, 8));
    AccumulatedKeys(IntakeExceptions(c, intakeDay) + Flat(results, 8), key);
    KeysJoin(IntakeExceptions(c, intakeDay), Flat(results, 8), key);
    NoKeys(key);
    for k := 0 to 8
      invariant HasKey(Flat(results, k), key) <==> exists j :: 0 <= j < k && HasKey(results[j], key)
    {
      KeysJoin(Flat(results, k), results[k], key);
    }
    assert results[0] == Matching.MatchExceptions(c.InvoiceOn(DateOf(reconciledAt)), c.order);
    assert results[1] == Duplicates.DuplicateExceptions(c.InvoiceOn(DateOf(reconciledAt)), c.history);
    assert results[2] == Vendor.StatusCheck(c.vendor, c.sameName, reconciledAt, c.history).exceptions;
    assert results[3] == Controls.InstructionExceptions(c.assertedTails, c.masterTail);
    assert results[4] == Segregation.CheckReconciliationTime(c.order, c.request.amount, c.request.requestedBy);
    assert results[5] ==
      Controls.TaxExceptions(c.InvoiceOn(DateOf(reconciledAt)), c.request.TaxSeparated(), c.order);
    assert results[6] == PaymentTerms.TermsExceptions(
      c.InvoiceOn(DateOf(reconciledAt)), c.order, c.request.paymentTermsDays, DateOf(reconciledAt));
    assert results[7] == Controls.NonPoExceptions(c.InvoiceOn(DateOf(reconciledAt)), c.history);
  }

  lemma NoKeys(key: Key)
    ensures !HasKey([], key)
  {
  }
}
