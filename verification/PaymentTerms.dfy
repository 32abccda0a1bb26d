/** Agreed payment terms and the proposed payment run (src/ap_agent/domain/rules/payment_terms.py). */
module PaymentTerms {
  import opened Prelude
  import opened Domain
  import opened BusinessDays

  const DEFAULT_TERMS_DAYS: int := 30
  const PRIORITY_WINDOW_BUSINESS_DAYS: int := 2

  /** Standard runs are on Tuesdays and Thursdays. */
  predicate IsRunDay(day: int) {
    Weekday(day) == 1 || Weekday(day) == 3
  }

  /** The second and the fourth day of every week. */
  lemma RunDaysAre(day: int, week: int)
    requires 7 * week <= day < 7 * week + 7
    ensures IsRunDay(day) <==> day == 7 * week + 1 || day == 7 * week + 3
  {
    assert day % 7 == day - 7 * week;
  }

  datatype Terms = Terms(
    agreedDays: int,
    dueDate: int,
    payableOn: int,
    proposedRun: Option<int>,
    dueOnNonBusinessDay: bool,
    printedTermsConflict: bool,
    meetsAgreedTerms: bool,
    alreadyDue: bool,
    mayBePrioritised: bool,
    exceptions: seq<ExceptionRecord>)

  function AgreedDays(order: Option<PurchaseOrder>): int {
    if order.Some? && order.value.paymentTermsDays.Some? then order.value.paymentTermsDays.value
    else DEFAULT_TERMS_DAYS
  }

  /** A due date off a business day is paid on the preceding one. */
  function PayableOn(invoice: Invoice, order: Option<PurchaseOrder>): int {
    LatestBusinessDay(invoice.invoiceDate + AgreedDays(order))
  }

  predicate RunAvailable(first: int, last: int) {
    exists d :: first <= d <= last && IsRunDay(d)
  }

  function TermsExceptions(
      invoice: Invoice, order: Option<PurchaseOrder>, printedTermsDays: Option<int>, today: int)
      : seq<ExceptionRecord>
  {
    (if printedTermsDays.Some? && printedTermsDays.value != AgreedDays(order)
     then [ExceptionRecord(OtherControlRisk, PRINTED_TERMS_RULE, false)] else []) +
    (if RunAvailable(today, PayableOn(invoice, order)) then []
     else [ExceptionRecord(OtherControlRisk, STANDARD_RUN_RULE, false)])
  }

  method LatestRunBy(payableOn: int, notBefore: int) returns (run: Option<int>)
    ensures run.Some? ==>
      notBefore <= run.value <= payableOn && IsRunDay(run.value) &&
      forall d :: run.value < d <= payableOn ==> !IsRunDay(d)
    ensures run.None? ==> forall d :: notBefore <= d <= payableOn ==> !IsRunDay(d)
    ensures run.Some? <==> RunAvailable(notBefore, payableOn)
  {
    var candidate := payableOn;
    while candidate >= notBefore
      invariant candidate <= payableOn
      invariant forall d :: candidate < d <= payableOn ==> !IsRunDay(d)
      decreases candidate - notBefore
    {
      if IsRunDay(candidate) {
        return Some(candidate);
      }
      candidate := candidate - 1;
    }
    run := None;
  }

  method FirstRunAfter(moment: int) returns (run: int)
    ensures moment < run && IsRunDay(run)
    ensures forall d :: moment < d < run ==> !IsRunDay(d)
  {
    run := moment + 1;
    while !IsRunDay(run)
      invariant moment < run
      invariant forall d :: moment < d < run ==> !IsRunDay(d)
      decreases (3 - Weekday(run)) % 7
    {
      run := run + 1;
    }
  }

  const PRINTED_TERMS_RULE: string := "payment_terms.printed_terms_match_agreed_terms"
  const STANDARD_RUN_RULE: string := "payment_terms.standard_run_available_before_due_date"

  /** For every date and every term: no run is proposed exactly when the payable day has passed;
      otherwise the proposal is the greatest run day that is neither past nor late, and when none
      exists the least run day after the payable day, which is one day late, or four after a Friday. */
  method AssessPaymentTerms(
      invoice: Invoice, order: Option<PurchaseOrder>, printedTermsDays: Option<int>, today: int)
      returns (terms: Terms)
    ensures terms.agreedDays ==
      if order.Some? && order.value.paymentTermsDays.Some? then order.value.paymentTermsDays.value else 30
    ensures terms.dueDate == invoice.invoiceDate + terms.agreedDays
    ensures terms.payableOn == PayableOn(invoice, order)
    ensures terms.payableOn <= terms.dueDate && IsBusinessDay(terms.payableOn)
    ensures forall d :: terms.payableOn < d <= terms.dueDate ==> !IsBusinessDay(d)
    ensures terms.dueOnNonBusinessDay <==> terms.payableOn < terms.dueDate
    ensures terms.printedTermsConflict <==> printedTermsDays.Some? && printedTermsDays.value != terms.agreedDays
    ensures terms.alreadyDue <==> terms.payableOn < today
    ensures terms.proposedRun.None? <==> terms.payableOn < today
    ensures terms.proposedRun.Some? ==> IsRunDay(terms.proposedRun.value) && today <= terms.proposedRun.value
    ensures terms.meetsAgreedTerms <==> RunAvailable(today, terms.payableOn)
    ensures terms.meetsAgreedTerms ==>
      terms.proposedRun.Some? && terms.proposedRun.value <= terms.payableOn &&
      forall d :: terms.proposedRun.value < d <= terms.payableOn ==> !IsRunDay(d)
    ensures !terms.meetsAgreedTerms && today <= terms.payableOn ==>
      terms.proposedRun.Some? && terms.payableOn < terms.proposedRun.value &&
      forall d :: terms.payableOn < d < terms.proposedRun.value ==> !IsRunDay(d)
    ensures !terms.meetsAgreedTerms && today <= terms.payableOn ==>
      Weekday(terms.payableOn) in {0, 2, 4} &&
      terms.proposedRun == Some(terms.payableOn + (if Weekday(terms.payableOn) == 4 then 4 else 1))
    ensures terms.mayBePrioritised <==> terms.payableOn <= Advance(today, 2)
    ensures terms.exceptions == TermsExceptions(invoice, order, printedTermsDays, today)
    ensures terms.exceptions ==
      (if terms.printedTermsConflict
       then [ExceptionRecord(OtherControlRisk, "payment_terms.printed_terms_match_agreed_terms", false)] else []) +
      (if terms.meetsAgreedTerms then []
       else [ExceptionRecord(OtherControlRisk, "payment_terms.standard_run_available_before_due_date", false)])
  {
    hide Advance, IsRunDay;
    var exceptions: seq<ExceptionRecord> := [];
    var agreed := DEFAULT_TERMS_DAYS;
    if order.Some? && order.value.paymentTermsDays.Some? {
      agreed := order.value.paymentTermsDays.value;
    }
    var conflict := printedTermsDays.Some? && printedTermsDays.value != agreed;
    if conflict {
      exceptions := exceptions + [ExceptionRecord(OtherControlRisk, PRINTED_TERMS_RULE, false)];
    }
    var due := invoice.invoiceDate + agreed;
    var onNonBusinessDay := Weekday(due) >= 5;
    var payableOn := due;
    if onNonBusinessDay {
      payableOn := PreviousBusinessDay(due);
    }
    var cutoff := AddBusinessDays(today, PRIORITY_WINDOW_BUSINESS_DAYS);
    var mayBePrioritised := payableOn <= cutoff.value;

    var pastDue := payableOn < today;
    var proposed: Option<int> := None;
    if !pastDue {
      proposed := LatestRunBy(payableOn, today);
    }
    var meets := proposed.Some?;
    if !meets {
      exceptions := exceptions + [ExceptionRecord(OtherControlRisk, STANDARD_RUN_RULE, false)];
      if !pastDue {
        var late := FirstRunAfter(payableOn);
        LatenessIsOneOrFourDays(payableOn, today, late);
        proposed := Some(late);
      }
    }
    terms := Terms(agreed, due, payableOn, proposed, onNonBusinessDay, conflict, meets, pastDue,
      mayBePrioritised, exceptions);
  }

  lemma DaysAround(day: int, after: int, before: int)
    requires (Weekday(day) == 0 && after == 1 && before == -4) ||
             (Weekday(day) == 2 && after == 1 && before == -1) ||
             (Weekday(day) == 4 && after == 4 && before == -1)
    ensures IsRunDay(day + after) && IsRunDay(day + before)
    ensures forall d :: day < d < day + after ==> !IsRunDay(d)
  {
  }

  /** When the payable day is still ahead but no run falls before it, it is a Monday, Wednesday or
      Friday, and the least run day after it is one day late, or four days late for the Friday. */
  lemma LatenessIsOneOrFourDays(payableOn: int, today: int, run: int)
    requires IsBusinessDay(payableOn) && today <= payableOn
    requires forall d :: today <= d <= payableOn ==> !IsRunDay(d)
    requires payableOn < run && IsRunDay(run)
    requires forall d :: payableOn < d < run ==> !IsRunDay(d)
    ensures Weekday(payableOn) == 0 || Weekday(payableOn) == 2 || Weekday(payableOn) == 4
    ensures run - payableOn == if Weekday(payableOn) == 4 then 4 else 1
    ensures payableOn - today <= if Weekday(payableOn) == 0 then 3 else 0
  {
    assert !IsRunDay(payableOn);
    if Weekday(payableOn) == 0 {
      DaysAround(payableOn, 1, -4);
    } else if Weekday(payableOn) == 2 {
      DaysAround(payableOn, 1, -1);
    } else {
      DaysAround(payableOn, 4, -1);
    }
  }
}
