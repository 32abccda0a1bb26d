/** When exactly a case is recommended for posting: from the controls of intake and reconciliation, through
    the de-duplicating accumulators, to the outcome. */
module OutcomeSoundness {
  import opened Prelude
  import opened Domain
  import opened RunState
  import opened Phases
  import Controls
  import Duplicates
  import Matching
  import MatchingBounds
  import Outcome
  import PaymentTerms
  import Segregation
  import Validity
  import Vendor

  // ---- the flag of a rule -------------------------------------------------------------

  /** The rules whose records inform and never block. */
  const INFORMATION_RULES: set<string> := {
    "vendor_status_check.legal_name_agreement",
    "payment_terms.printed_terms_match_agreed_terms",
    "payment_terms.standard_run_available_before_due_date",
    "non_po.repeated_use_within_window" }

  /** Whether the records of a rule block. Only the currency rule asks the order. */
  predicate RuleBlocks(order: Option<PurchaseOrder>, key: Key) {
    !key.0.TaxQuery? && key.1 !in INFORMATION_RULES &&
    (key.1 == "three_way_match.currency_agreement" ==> !(order.Some? && order.value.permitsCurrencyConversion))
  }

  predicate FollowsRules(order: Option<PurchaseOrder>, given: seq<ExceptionRecord>) {
    forall i :: 0 <= i < |given| ==> given[i].blocking == RuleBlocks(order, KeyOf(given[i]))
  }

  lemma FollowsRulesJoins(order: Option<PurchaseOrder>, xs: seq<ExceptionRecord>, ys: seq<ExceptionRecord>)
    requires FollowsRules(order, xs) && FollowsRules(order, ys)
    ensures FollowsRules(order, xs + ys)
  {
    hide RuleBlocks;
  }

  lemma RulesDetermineFlags(order: Option<PurchaseOrder>, given: seq<ExceptionRecord>)
    requires FollowsRules(order, given)
    ensures FlagsAgree(given)
  {
    hide RuleBlocks;
  }

  // ---- every control follows them -----------------------------------------------------

  lemma OrderFollows(invoice: Invoice, order: PurchaseOrder)
    ensures FollowsRules(Some(order), Matching.OrderExceptions(invoice, order))
  {
  }

  lemma {:induction false} LinesFollow(order: PurchaseOrder, lines: seq<InvoiceLine>)
    ensures FollowsRules(Some(order), Matching.LineExceptions(order, lines))
  {
    hide RuleBlocks;
    if lines != [] {
      LinesFollow(order, lines[..|lines| - 1]);
      LineFollows(order, lines[|lines| - 1]);
      FollowsRulesJoins(Some(order), Matching.LineExceptions(order, lines[..|lines| - 1]),
        Matching.LineResult(order, lines[|lines| - 1]).1);
    }
  }

  lemma LineFollows(order: PurchaseOrder, line: InvoiceLine)
    ensures FollowsRules(Some(order), Matching.LineResult(order, line).1)
  {
    hide Matching.PriceWithin;
  }

  lemma MatchFollows(invoice: Invoice, order: Option<PurchaseOrder>)
    ensures FollowsRules(order, Matching.MatchExceptions(invoice, order))
  {
    if order.Some? {
      hide RuleBlocks, Matching.OrderExceptions, Matching.LineExceptions, Matching.TotalExceptions;
      var po := order.value;
      var lines := if Matching.LineLevel(invoice, po) then Matching.LineExceptions(po, invoice.lines) else [];
      OrderFollows(invoice, po);
      LinesFollow(po, invoice.lines);
      TotalFollows(invoice, po);
      FollowsRulesJoins(order, Matching.OrderExceptions(invoice, po), lines);
      FollowsRulesJoins(order, Matching.OrderExceptions(invoice, po) + lines, Matching.TotalExceptions(invoice, po));
    }
  }

  lemma TotalFollows(invoice: Invoice, order: PurchaseOrder)
    ensures FollowsRules(Some(order), Matching.TotalExceptions(invoice, order))
  {
    hide Matching.TotalWithin;
  }

  lemma VendorFollows(c: CaseFile, moment: int)
    ensures FollowsRules(c.order, Vendor.StatusCheck(c.vendor, c.sameName, moment, c.history).exceptions)
  {
    hide Vendor.AwaitingFirstPayment;
  }

  lemma SmallControlsFollow(c: CaseFile, invoice: Invoice, today: int)
    ensures FollowsRules(c.order, Duplicates.DuplicateExceptions(invoice, c.history))
    ensures FollowsRules(c.order, Controls.InstructionExceptions(c.assertedTails, c.masterTail))
    ensures FollowsRules(c.order, Controls.TaxExceptions(invoice, c.request.TaxSeparated(), c.order))
    ensures FollowsRules(c.order, Controls.NonPoExceptions(invoice, c.history))
    ensures FollowsRules(c.order, PaymentTerms.TermsExceptions(invoice, c.order, c.request.paymentTermsDays, today))
  {
    hide Duplicates.HasSettledDuplicate, Duplicates.HasProbableDuplicate, PaymentTerms.RunAvailable;
  }

  lemma SegregationFollows(c: CaseFile, grossAmount: real)
    ensures FollowsRules(c.order, Segregation.CheckReconciliationTime(c.order, grossAmount, c.request.requestedBy))
  {
    hide Segregation.Receipters;
  }

  lemma ValidityFollows(c: CaseFile, day: int)
    ensures FollowsRules(c.order, IntakeExceptions(c, day))
  {
    hide Validity.TotalAgrees;
  }

  lemma {:induction false} FlatFollows(order: Option<PurchaseOrder>, results: seq<seq<ExceptionRecord>>, n: nat)
    requires n <= |results|
    requires forall k :: 0 <= k < |results| ==> FollowsRules(order, results[k])
    ensures FollowsRules(order, Flat(results, n))
  {
    hide FollowsRules;
    if n > 0 {
      FlatFollows(order, results, n - 1);
      FollowsRulesJoins(order, Flat(results, n - 1), results[n - 1]);
    } else {
      NothingFollows(order);
    }
  }

  lemma NothingFollows(order: Option<PurchaseOrder>)
    ensures FollowsRules(order, [])
  {
  }

  lemma ControlsFollow(c: CaseFile, moment: int)
    ensures forall k :: 0 <= k < 8 ==> FollowsRules(c.order, ControlResults(c, moment)[k])
  {
    hide FollowsRules, Matching.MatchExceptions, Vendor.StatusCheck, Controls.InstructionExceptions,
      Controls.TaxExceptions, Controls.NonPoExceptions, Segregation.CheckReconciliationTime,
      PaymentTerms.TermsExceptions, Duplicates.DuplicateExceptions;
    var invoice := c.InvoiceOn(DateOf(moment));
    MatchFollows(invoice, c.order);
    VendorFollows(c, moment);
    SegregationFollows(c, invoice.grossAmount);
    SmallControlsFollow(c, invoice, DateOf(moment));
  }

  // ---- from the controls to the outcome -----------------------------------------------

  /** Some control of intake or reconciliation raised a blocking exception. */
  predicate SomeControlBlocks(c: CaseFile, intakeDay: int, reconciledAt: int) {
    Any(IntakeExceptions(c, intakeDay), IsBlocking) ||
    exists k :: 0 <= k < 8 && Any(ControlResults(c, reconciledAt)[k], IsBlocking)
  }

  lemma {:induction false} AnyFlat(results: seq<seq<ExceptionRecord>>, n: nat)
    requires n <= |results|
    ensures Any(Flat(results, n), IsBlocking) <==> exists k :: 0 <= k < n && Any(results[k], IsBlocking)
  {
    hide Any;
    if n > 0 {
      AnyFlat(results, n - 1);
      MatchingBounds.AnyJoins(Flat(results, n - 1), results[n - 1], IsBlocking);
    } else {
      assert !Any(Flat(results, 0), IsBlocking) by { NothingBlocks(); }
    }
  }

  lemma NothingBlocks()
    ensures !Any<ExceptionRecord>([], IsBlocking)
  {
  }

  /** The accumulators lose no blocking record of any control. */
  lemma RecordedBlocksExactlyWhenAControlDoes(c: CaseFile, intakeDay: int, reconciledAt: int)
    ensures Any(Recorded(c, intakeDay, reconciledAt), IsBlocking) <==> SomeControlBlocks(c, intakeDay, reconciledAt)
  {
    hide Any, FollowsRules, IntakeExceptions, FlagsAgree;
    var results := ControlResults(c, reconciledAt);
    var given := IntakeExceptions(c, intakeDay) + Flat(results, 8);
    AccumulateJoins([], IntakeExceptions(c, intakeDay), Flat(results, 8));
    ValidityFollows(c, intakeDay);
    ControlsFollow(c, reconciledAt);
    FlatFollows(c.order, results, 8);
    FollowsRulesJoins(c.order, IntakeExceptions(c, intakeDay), Flat(results, 8));
    RulesDetermineFlags(c.order, given);
    NoBlockingRecordIsLost(given);
    AnyFlat(results, 8);
    MatchingBounds.AnyJoins(IntakeExceptions(c, intakeDay), Flat(results, 8), IsBlocking);
  }

  // ---- computing the same controls again ----------------------------------------------

  /** Matching does not look at the invoice date, nor the vendor's exceptions at the clock. */
  lemma RecomputedControlsAgree(c: CaseFile, m: int, n: int)
    ensures Matching.MatchExceptions(c.InvoiceOn(DateOf(m)), c.order) ==
      Matching.MatchExceptions(c.InvoiceOn(DateOf(n)), c.order)
    ensures Vendor.StatusCheck(c.vendor, c.sameName, m, c.history).exceptions ==
      Vendor.StatusCheck(c.vendor, c.sameName, n, c.history).exceptions
    ensures Duplicates.HasSettledDuplicate(c.InvoiceOn(DateOf(m)), c.history) ==
      Duplicates.HasSettledDuplicate(c.InvoiceOn(DateOf(n)), c.history)
    ensures c.request.invoiceDate.Some? ==> c.InvoiceOn(DateOf(m)) == c.InvoiceOn(DateOf(n))
  {
    hide Matching.LineExceptions, Matching.DocumentLimit, Matching.ExpectedTotal, Vendor.AwaitingFirstPayment;
    var x, y := c.InvoiceOn(DateOf(m)), c.InvoiceOn(DateOf(n));
    assert y == x.(invoiceDate := y.invoiceDate);
    if c.order.Some? {
      assert Matching.OrderExceptions(x, c.order.value) == Matching.OrderExceptions(y, c.order.value);
      assert Matching.TotalExceptions(x, c.order.value) == Matching.TotalExceptions(y, c.order.value);
    }
    forall i | 0 <= i < |c.history| ensures Duplicates.IsExact(x, c.history[i]) == Duplicates.IsExact(y, c.history[i]) {
    }
  }

  lemma DuplicatesBlock(invoice: Invoice, history: seq<HistoryMatch>)
    ensures Any(Duplicates.DuplicateExceptions(invoice, history), IsBlocking) <==>
      Duplicates.HasProbableDuplicate(invoice, history)
    ensures Duplicates.HasSettledDuplicate(invoice, history) ==> Duplicates.HasProbableDuplicate(invoice, history)
  {
    hide Duplicates.IsExact, Duplicates.IsProbable;
    var found := Duplicates.DuplicateExceptions(invoice, history);
    if found != [] {
      assert IsBlocking(found[0]);
    }
  }

  /** Is anything blocking in what the outcome is decided on? Exactly when some control of intake or
      reconciliation blocked, or the invoice, dated today for want of a date, now looks like a duplicate. */
  lemma BlockedEvidence(c: CaseFile, intakeDay: int, reconciledAt: int, recommendedAt: int, invalid: bool, n: nat)
    ensures EvidenceOf(Recorded(c, intakeDay, reconciledAt), invalid, n, c, recommendedAt).blocked <==>
      SomeControlBlocks(c, intakeDay, reconciledAt) ||
      Duplicates.HasProbableDuplicate(c.InvoiceOn(DateOf(recommendedAt)), c.history)
  {
    hide Any, Matching.MatchExceptions, Duplicates.DuplicateExceptions, Vendor.StatusCheck, Recorded,
      IntakeExceptions,
      Controls.InstructionExceptions, Controls.TaxExceptions, Controls.NonPoExceptions,
      Segregation.CheckReconciliationTime, PaymentTerms.TermsExceptions, Duplicates.HasProbableDuplicate;
    var invoice := c.InvoiceOn(DateOf(recommendedAt));
    var matched, duplicates, vendor := Matching.MatchExceptions(invoice, c.order),
      Duplicates.DuplicateExceptions(invoice, c.history),
      Vendor.StatusCheck(c.vendor, c.sameName, recommendedAt, c.history).exceptions;
    var recorded := Recorded(c, intakeDay, reconciledAt);
    MatchingBounds.AnyJoins(matched, duplicates, IsBlocking);
    MatchingBounds.AnyJoins(matched + duplicates, vendor, IsBlocking);
    MatchingBounds.AnyJoins(matched + duplicates + vendor, recorded, IsBlocking);
    RecordedBlocksExactlyWhenAControlDoes(c, intakeDay, reconciledAt);
    RecomputedControlsAgree(c, reconciledAt, recommendedAt);
    DuplicatesBlock(invoice, c.history);
    assert matched == ControlResults(c, reconciledAt)[0] && vendor == ControlResults(c, reconciledAt)[2];
  }

  lemma InvalidBlocks(c: CaseFile, intakeDay: int)
    requires IntakeReasons(c, intakeDay) != []
    ensures Any(IntakeExceptions(c, intakeDay), IsBlocking)
  {
    hide Validity.TotalAgrees;
    var found := IntakeExceptions(c, intakeDay);
    assert IsBlocking(found[|found| - 1]);
  }

  lemma SettledOrEscalatedStatusBlocks(c: CaseFile, intakeDay: int, reconciledAt: int)
    requires Duplicates.HasSettledDuplicate(c.InvoiceOn(DateOf(reconciledAt)), c.history) ||
      (c.vendor.Some? && c.vendor.value.status.SanctionsReview?)
    ensures SomeControlBlocks(c, intakeDay, reconciledAt)
  {
    hide Matching.MatchExceptions, Controls.InstructionExceptions, Controls.TaxExceptions, Controls.NonPoExceptions,
      Segregation.CheckReconciliationTime, PaymentTerms.TermsExceptions, IntakeExceptions, Duplicates.IsExact,
      Vendor.AwaitingFirstPayment;
    var results := ControlResults(c, reconciledAt);
    DuplicatesBlock(c.InvoiceOn(DateOf(reconciledAt)), c.history);
    if c.vendor.Some? && c.vendor.value.status.SanctionsReview? {
      assert IsBlocking(results[2][0]);
      assert Any(results[2], IsBlocking);
    } else {
      assert Any(results[1], IsBlocking);
    }
  }

  /** A case is recommended for posting exactly when no control run at intake or reconciliation raised a
      blocking exception, the vendor carries no risk flag, fewer than two fraud indicators were found, the
      model suggests nothing stricter, and, where the request gave no invoice date, the date used when the
      outcome was computed does not make it a duplicate after all. */
  lemma ApprovedExactlyWhen(
      c: CaseFile, intakeDay: int, reconciledAt: int, recommendedAt: int, indicators: nat,
      suggested: Option<Outcome.Outcome>)
    ensures CaseOutcome(c, intakeDay, reconciledAt, recommendedAt, indicators, suggested) == ApproveForPosting <==>
      !SomeControlBlocks(c, intakeDay, reconciledAt) &&
      !(c.vendor.Some? && c.vendor.value.hasRiskFlags) &&
      indicators < 2 &&
      (suggested.None? || suggested.value == ApproveForPosting) &&
      (c.request.invoiceDate.None? ==>
        !Duplicates.HasProbableDuplicate(c.InvoiceOn(DateOf(recommendedAt)), c.history))
  {
    hide SomeControlBlocks, Recorded, Duplicates.HasProbableDuplicate, Duplicates.HasSettledDuplicate,
      Matching.MatchExceptions, Duplicates.DuplicateExceptions, Any, IntakeReasons,
      Vendor.AwaitingFirstPayment;
    var reasons := IntakeReasons(c, intakeDay);
    BlockedEvidence(c, intakeDay, reconciledAt, recommendedAt, reasons != [], indicators);
    RecomputedControlsAgree(c, reconciledAt, recommendedAt);
    if reasons != [] {
      InvalidBlocks(c, intakeDay);
      IntakeBlocks(c, intakeDay, reconciledAt);
    }
    if Duplicates.HasSettledDuplicate(c.InvoiceOn(DateOf(reconciledAt)), c.history) ||
       (c.vendor.Some? && c.vendor.value.status.SanctionsReview?) {
      SettledOrEscalatedStatusBlocks(c, intakeDay, reconciledAt);
    }
    if c.request.invoiceDate.Some? && Duplicates.HasProbableDuplicate(c.InvoiceOn(DateOf(reconciledAt)), c.history) {
      ProbableBlocks(c, intakeDay, reconciledAt);
    }
  }

  lemma IntakeBlocks(c: CaseFile, intakeDay: int, reconciledAt: int)
    requires Any(IntakeExceptions(c, intakeDay), IsBlocking)
    ensures SomeControlBlocks(c, intakeDay, reconciledAt)
  {
  }

  lemma ProbableBlocks(c: CaseFile, intakeDay: int, reconciledAt: int)
    requires Duplicates.HasProbableDuplicate(c.InvoiceOn(DateOf(reconciledAt)), c.history)
    ensures SomeControlBlocks(c, intakeDay, reconciledAt)
  {
    hide Matching.MatchExceptions, Controls.InstructionExceptions, Controls.TaxExceptions, Controls.NonPoExceptions,
      Segregation.CheckReconciliationTime, PaymentTerms.TermsExceptions, IntakeExceptions, Vendor.StatusCheck;
    DuplicatesBlock(c.InvoiceOn(DateOf(reconciledAt)), c.history);
    assert Any(ControlResults(c, reconciledAt)[1], IsBlocking);
  }

  /** The phases, run one after another on a fresh run, compute that outcome. */
  method Assess(
      c: CaseFile, indicators: seq<string>, intakeDay: int, reconciledAt: int, recommendedAt: int,
      suggested: Option<Outcome.Outcome>) returns (outcome: Outcome.Outcome)
    ensures outcome == CaseOutcome(c, intakeDay, reconciledAt, recommendedAt, |AddNew([], indicators)|, suggested)
  {
    hide IntakeExceptions, ReconcileExceptions, Accumulate, EvidenceOf, IntakeReasons;
    var state := new RunState([], [], []);
    RunIntake(state, c, intakeDay);
    RunReconcile(state, c, reconciledAt);
    state.AddIndicators(indicators);
    NewOnesOrNone(IntakeReasons(c, intakeDay));
    outcome := RunRecommend(state, c, recommendedAt, suggested);
  }

  // ---- more adverse evidence ----------------------------------------------------------

  /** One list of records holds all of another's. */
  predicate Within(g: seq<ExceptionRecord>, h: seq<ExceptionRecord>) {
    forall i :: 0 <= i < |g| ==> g[i] in h
  }

  lemma WithinBlocks(g: seq<ExceptionRecord>, h: seq<ExceptionRecord>)
    requires Within(g, h) && Any(g, IsBlocking)
    ensures Any(h, IsBlocking)
  {
    var i :| 0 <= i < |g| && IsBlocking(g[i]);
    var j :| 0 <= j < |h| && h[j] == g[i];
    assert IsBlocking(h[j]);
  }

  lemma WithinFlags(g: seq<ExceptionRecord>, h: seq<ExceptionRecord>)
    requires Within(g, h) && FlagsAgree(h)
    ensures FlagsAgree(g)
  {
    forall i, j | 0 <= i < |g| && 0 <= j < |g| && KeyOf(g[i]) == KeyOf(g[j]) ensures g[i].blocking == g[j].blocking {
      var x :| 0 <= x < |h| && h[x] == g[i];
      var y :| 0 <= y < |h| && h[y] == g[j];
      assert KeyOf(h[x]) == KeyOf(h[y]);
    }
  }

  /** Recording more never lowers the outcome: through the de-duplicating list, whatever else the case
      holds and whatever the model suggests. */
  lemma MoreRecordsNeverLower(
      c: CaseFile, moment: int, g: seq<ExceptionRecord>, h: seq<ExceptionRecord>, invalid: bool, invalid': bool,
      n: nat, n': nat, suggested: Option<Outcome.Outcome>)
    requires Within(g, h) && FlagsAgree(h) && (invalid ==> invalid') && n <= n'
    ensures
      Outcome.Severity(OutcomeOn(Accumulate([], g), invalid, n, c, moment, suggested)) <=
      Outcome.Severity(OutcomeOn(Accumulate([], h), invalid', n', c, moment, suggested))
  {
    var invoice := c.InvoiceOn(DateOf(moment));
    var computed := Matching.MatchExceptions(invoice, c.order) + Duplicates.DuplicateExceptions(invoice, c.history) +
      Vendor.StatusCheck(c.vendor, c.sameName, moment, c.history).exceptions;
    MatchingBounds.AnyJoins(computed, Accumulate([], g), IsBlocking);
    MatchingBounds.AnyJoins(computed, Accumulate([], h), IsBlocking);
    WithinFlags(g, h);
    NoBlockingRecordIsLost(g);
    NoBlockingRecordIsLost(h);
    if Any(g, IsBlocking) {
      WithinBlocks(g, h);
    }
    Outcome.FinalIsTheStricter(
      EvidenceOf(Accumulate([], g), invalid, n, c, moment),
      EvidenceOf(Accumulate([], h), invalid', n', c, moment), suggested);
  }

  /** Without one flag to a key it could: a soft record first makes an otherwise clean case approvable. */
  lemma MoreRecordsCouldLower(c: CaseFile, moment: int)
    requires EvidenceOf([], false, 0, c, moment) == Outcome.Evidence(0, false, false, false, false)
    ensures
      var hard := ExceptionRecord(OtherControlRisk, "r", true);
      var soft := ExceptionRecord(OtherControlRisk, "r", false);
      Outcome.Decide(EvidenceOf(Accumulate([], [hard]), false, 0, c, moment)) == HoldForInformation &&
      Outcome.Decide(EvidenceOf(Accumulate([], [soft, hard]), false, 0, c, moment)) == ApproveForPosting
  {
    var hard, soft := ExceptionRecord(OtherControlRisk, "r", true), ExceptionRecord(OtherControlRisk, "r", false);
    ConflictingFlagsLoseABlock();
    assert [hard][..0] == [] && Accumulate([], [hard]) == [hard] && IsBlocking([hard][0]);
    var invoice := c.InvoiceOn(DateOf(moment));
    var computed := Matching.MatchExceptions(invoice, c.order) + Duplicates.DuplicateExceptions(invoice, c.history) +
      Vendor.StatusCheck(c.vendor, c.sameName, moment, c.history).exceptions;
    MatchingBounds.AnyJoins(computed, [], IsBlocking);
    MatchingBounds.AnyJoins(computed, [hard], IsBlocking);
    MatchingBounds.AnyJoins(computed, Accumulate([], [soft, hard]), IsBlocking);
  }

  /** Case `d` is at least as adverse as case `c`: every control says at least as much against it. */
  predicate AtLeastAsAdverse(c: CaseFile, d: CaseFile, intakeDay: int, reconciledAt: int, recommendedAt: int) {
    && Within(IntakeExceptions(c, intakeDay), IntakeExceptions(d, intakeDay))
    && (forall k :: 0 <= k < 8 ==> Within(ControlResults(c, reconciledAt)[k], ControlResults(d, reconciledAt)[k]))
    && (IntakeReasons(c, intakeDay) != [] ==> IntakeReasons(d, intakeDay) != [])
    && (Vendor.StatusCheck(c.vendor, c.sameName, recommendedAt, c.history).requiresControlEscalation ==>
          Vendor.StatusCheck(d.vendor, d.sameName, recommendedAt, d.history).requiresControlEscalation)
    && (Duplicates.HasSettledDuplicate(c.InvoiceOn(DateOf(recommendedAt)), c.history) ==>
          Duplicates.HasSettledDuplicate(d.InvoiceOn(DateOf(recommendedAt)), d.history))
    && (Duplicates.HasProbableDuplicate(c.InvoiceOn(DateOf(recommendedAt)), c.history) ==>
          Duplicates.HasProbableDuplicate(d.InvoiceOn(DateOf(recommendedAt)), d.history))
  }

  /** A case at least as adverse never ends with a lighter outcome, through all the phases. */
  lemma MoreAdverseCaseIsNoLighter(
      c: CaseFile, d: CaseFile, intakeDay: int, reconciledAt: int, recommendedAt: int, n: nat, n': nat,
      suggested: Option<Outcome.Outcome>)
    requires AtLeastAsAdverse(c, d, intakeDay, reconciledAt, recommendedAt) && n <= n'
    ensures
      Outcome.Severity(CaseOutcome(c, intakeDay, reconciledAt, recommendedAt, n, suggested)) <=
      Outcome.Severity(CaseOutcome(d, intakeDay, reconciledAt, recommendedAt, n', suggested))
  {
    hide Any, Matching.MatchExceptions, Duplicates.DuplicateExceptions, Recorded, IntakeExceptions, Within,
      Duplicates.HasProbableDuplicate, Duplicates.HasSettledDuplicate, Vendor.StatusCheck, Outcome.Severity,
      Outcome.Decide, Outcome.Final, ControlResults;
    var x, y := IntakeReasons(c, intakeDay) != [], IntakeReasons(d, intakeDay) != [];
    BlockedEvidence(c, intakeDay, reconciledAt, recommendedAt, x, n);
    BlockedEvidence(d, intakeDay, reconciledAt, recommendedAt, y, n');
    if SomeControlBlocks(c, intakeDay, reconciledAt) {
      AdverseBlocks(c, d, intakeDay, reconciledAt, recommendedAt);
    }
    Outcome.FinalIsTheStricter(
      EvidenceOf(Recorded(c, intakeDay, reconciledAt), x, n, c, recommendedAt),
      EvidenceOf(Recorded(d, intakeDay, reconciledAt), y, n', d, recommendedAt), suggested);
  }

  lemma AdverseBlocks(c: CaseFile, d: CaseFile, intakeDay: int, reconciledAt: int, recommendedAt: int)
    requires AtLeastAsAdverse(c, d, intakeDay, reconciledAt, recommendedAt)
    requires SomeControlBlocks(c, intakeDay, reconciledAt)
    ensures SomeControlBlocks(d, intakeDay, reconciledAt)
  {
    hide Any, IntakeExceptions, ControlResults, Within;
    if Any(IntakeExceptions(c, intakeDay), IsBlocking) {
      WithinBlocks(IntakeExceptions(c, intakeDay), IntakeExceptions(d, intakeDay));
    } else {
      var k :| 0 <= k < 8 && Any(ControlResults(c, reconciledAt)[k], IsBlocking);
      WithinBlocks(ControlResults(c, reconciledAt)[k], ControlResults(d, reconciledAt)[k]);
    }
  }
}
