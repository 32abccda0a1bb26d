/** Duplicate invoice detection (src/ap_agent/domain/rules/duplicates.py). */
module Duplicates {
  import opened Prelude
  import opened Domain
  import opened Decimals
  import opened Fingerprint
  import Money

  const VARIANCE_PERCENT: real := 0.5
  const DATE_WINDOW_DAYS: int := 14

  const SETTLED_RULE: string := "duplicate_check.exact_match_to_settled_record"
  const PROBABLE_RULE: string := "duplicate_check.probable_match"

  /** Absolute variance as a percentage of the prior amount, unrounded. */
  function VariancePercent(candidate: real, prior: real): real {
    if prior == 0.0 then 100.0 else Money.Abs(candidate - prior) / prior * 100.0
  }

  /** Vendor, normalised number, currency and gross amount all match. */
  predicate IsExact(invoice: Invoice, record: HistoryMatch) {
    invoice.vendorId == record.vendorId &&
    NormaliseReference(invoice.reference) == NormaliseReference(record.reference) &&
    invoice.currency == record.currency && invoice.grossAmount == record.grossAmount
  }

  /** An exact match: the same vendor, the same number but for punctuation and case, the same currency and the
      same gross amount. */
  lemma ExactMeans(invoice: Invoice, record: HistoryMatch)
    ensures IsExact(invoice, record) <==>
      invoice.vendorId == record.vendorId && Alike(invoice.reference, record.reference) &&
      invoice.currency == record.currency && invoice.grossAmount == record.grossAmount
  {
    hide NormaliseReference, Alike;
    NormalFormMeans(invoice.reference, record.reference);
  }

  datatype FuzzyReason = SharedAttachment | SameNumber | NearAmountInWindow | NearAmountSameOrder

  predicate SameOrder(invoice: Invoice, record: HistoryMatch) {
    invoice.poReference.Some? && invoice.poReference.value != "" && invoice.poReference == record.poReference
  }

  /** The fuzzy signals between the invoice and one prior record; none means no probable duplicate. */
  function FuzzyReasons(invoice: Invoice, record: HistoryMatch): seq<FuzzyReason> {
    if invoice.vendorId != record.vendorId then []
    else if invoice.attachmentHashes * record.attachmentHashes != {} then [SharedAttachment]
    else if NormaliseReference(invoice.reference) == NormaliseReference(record.reference) &&
            !record.status.WasRejected? then [SameNumber]
    else if VariancePercent(invoice.grossAmount, record.grossAmount) >= VARIANCE_PERCENT then []
    else
      var apart := invoice.invoiceDate - record.invoiceDate;
      (if -DATE_WINDOW_DAYS <= apart <= DATE_WINDOW_DAYS then [NearAmountInWindow] else []) +
      (if SameOrder(invoice, record) then [NearAmountSameOrder] else [])
  }

  /** Is the amount within half a percent of the prior one? */
  predicate AmountIsNear(candidate: real, prior: real) {
    prior < 0.0 || (prior > 0.0 && 200.0 * Money.Abs(candidate - prior) < prior)
  }

  lemma NearMeansUnderHalfAPercent(candidate: real, prior: real)
    ensures VariancePercent(candidate, prior) < VARIANCE_PERCENT <==> AmountIsNear(candidate, prior)
  {
    var distance := Money.Abs(candidate - prior);
    if prior > 0.0 {
      assert distance / prior * 100.0 * prior == distance * 100.0;
      if 200.0 * distance < prior {
        assert distance / prior < 0.005 by { QuotientBelow(distance, prior, 0.005); }
      } else {
        assert distance / prior >= 0.005 by { QuotientBelow(distance, prior, 0.005); }
      }
    } else if prior < 0.0 {
      NegativeQuotient(distance, prior);
    }
  }

  lemma QuotientBelow(x: real, y: real, bound: real)
    requires y > 0.0
    ensures x / y < bound <==> x < bound * y
  {
    assert x == x / y * y;
    if x / y < bound {
      assert (bound - x / y) * y > 0.0;
    } else {
      assert (x / y - bound) * y >= 0.0;
    }
  }

  lemma NegativeQuotient(x: real, y: real)
    requires x >= 0.0 && y < 0.0
    ensures x / y <= 0.0
  {
    assert x == x / y * y;
  }

  /** What a probable duplicate is: the same vendor, and the same attachment, or a reused number against a
      record that was not rejected, or an amount within half a percent inside the date window or on the
      same order. A negative prior amount counts as near to everything, a zero one to nothing. */
  lemma ProbableMeans(invoice: Invoice, record: HistoryMatch)
    ensures FuzzyReasons(invoice, record) != [] <==>
      invoice.vendorId == record.vendorId &&
      (invoice.attachmentHashes * record.attachmentHashes != {} ||
       (Alike(invoice.reference, record.reference) && !record.status.WasRejected?) ||
       (AmountIsNear(invoice.grossAmount, record.grossAmount) &&
        (-14 <= invoice.invoiceDate - record.invoiceDate <= 14 ||
         (invoice.poReference == record.poReference && invoice.poReference.Some? &&
          invoice.poReference.value != ""))))
  {
    hide VariancePercent, AmountIsNear, NormaliseReference, Alike;
    NormalFormMeans(invoice.reference, record.reference);
    NearMeansUnderHalfAPercent(invoice.grossAmount, record.grossAmount);
  }

  predicate IsProbable(invoice: Invoice, record: HistoryMatch) {
    !IsExact(invoice, record) && FuzzyReasons(invoice, record) != []
  }

  function Exact(invoice: Invoice, history: seq<HistoryMatch>): seq<HistoryMatch> {
    if history == [] then []
    else
      var last := history[|history| - 1];
      Exact(invoice, history[..|history| - 1]) + (if IsExact(invoice, last) then [last] else [])
  }

  function Probable(invoice: Invoice, history: seq<HistoryMatch>): seq<HistoryMatch> {
    if history == [] then []
    else
      var last := history[|history| - 1];
      Probable(invoice, history[..|history| - 1]) + (if IsProbable(invoice, last) then [last] else [])
  }

  /** Somewhere in the history the same invoice was already paid or posted. */
  predicate HasSettledDuplicate(invoice: Invoice, history: seq<HistoryMatch>) {
    exists i :: 0 <= i < |history| && IsExact(invoice, history[i]) && history[i].IsSettled()
  }

  predicate HasProbableDuplicate(invoice: Invoice, history: seq<HistoryMatch>) {
    exists i :: 0 <= i < |history| && (IsExact(invoice, history[i]) || IsProbable(invoice, history[i]))
  }

  function DuplicateExceptions(invoice: Invoice, history: seq<HistoryMatch>): seq<ExceptionRecord> {
    if HasSettledDuplicate(invoice, history) then [ExceptionRecord(DuplicateRisk, SETTLED_RULE, true)]
    else if HasProbableDuplicate(invoice, history) then [ExceptionRecord(DuplicateRisk, PROBABLE_RULE, true)]
    else []
  }

  /** Every record is classified once, in order: an exact match is never also a fuzzy one. */
  method DuplicateCheck(invoice: Invoice, history: seq<HistoryMatch>)
    returns (exact: seq<HistoryMatch>, fuzzy: seq<HistoryMatch>, settled: Option<HistoryMatch>,
             exceptions: seq<ExceptionRecord>)
    ensures exact == Exact(invoice, history)
    ensures fuzzy == Probable(invoice, history)
    ensures settled.Some? <==> HasSettledDuplicate(invoice, history)
    ensures settled.Some? ==> settled.value in history && IsExact(invoice, settled.value) && settled.value.IsSettled()
    ensures exceptions == DuplicateExceptions(invoice, history)
  {
    hide FuzzyReasons, IsExact;
    exact, fuzzy := [], [];
    var i := 0;
    while i < |history|
      invariant 0 <= i <= |history|
      invariant exact == Exact(invoice, history[..i])
      invariant fuzzy == Probable(invoice, history[..i])
    {
      assert history[..i + 1][..i] == history[..i];
      if IsExact(invoice, history[i]) {
        exact := exact + [history[i]];
      } else if FuzzyReasons(invoice, history[i]) != [] {
        fuzzy := fuzzy + [history[i]];
      }
      i := i + 1;
    }
    assert history[..i] == history;
    ExactHolds(invoice, history);
    ProbableHolds(invoice, history);
    settled := None;
    var k := 0;
    while k < |exact| && settled.None?
      invariant 0 <= k <= |exact|
      invariant settled.None? ==> forall j :: 0 <= j < k ==> !exact[j].IsSettled()
      invariant settled.Some? ==> settled.value in exact && settled.value.IsSettled()
    {
      if exact[k].IsSettled() {
        settled := Some(exact[k]);
      }
      k := k + 1;
    }
    SettledAmongExact(invoice, history);
    if settled.Some? {
      exceptions := [ExceptionRecord(DuplicateRisk, SETTLED_RULE, true)];
    } else if exact != [] || fuzzy != [] {
      exceptions := [ExceptionRecord(DuplicateRisk, PROBABLE_RULE, true)];
    } else {
      exceptions := [];
    }
  }

  lemma {:induction false} ExactHolds(invoice: Invoice, history: seq<HistoryMatch>)
    ensures forall r :: r in Exact(invoice, history) <==> r in history && IsExact(invoice, r)
  {
    hide IsExact;
    if history != [] {
      var front := history[..|history| - 1];
      ExactHolds(invoice, front);
      assert history == front + [history[|history| - 1]];
    }
  }

  lemma {:induction false} ProbableHolds(invoice: Invoice, history: seq<HistoryMatch>)
    ensures forall r :: r in Probable(invoice, history) <==> r in history && IsProbable(invoice, r)
  {
    hide IsProbable;
    if history != [] {
      var front := history[..|history| - 1];
      ProbableHolds(invoice, front);
      assert history == front + [history[|history| - 1]];
    }
  }

  lemma SettledAmongExact(invoice: Invoice, history: seq<HistoryMatch>)
    ensures HasSettledDuplicate(invoice, history) <==>
      exists j :: 0 <= j < |Exact(invoice, history)| && Exact(invoice, history)[j].IsSettled()
    ensures HasProbableDuplicate(invoice, history) <==>
      Exact(invoice, history) != [] || Probable(invoice, history) != []
  {
    hide IsExact, IsProbable, Exact, Probable;
    ExactHolds(invoice, history);
    ProbableHolds(invoice, history);
    var exact, fuzzy := Exact(invoice, history), Probable(invoice, history);
    if exact != [] {
      assert exact[0] in history;
    }
    if fuzzy != [] {
      assert fuzzy[0] in history;
    }
    if HasSettledDuplicate(invoice, history) {
      var i :| 0 <= i < |history| && IsExact(invoice, history[i]) && history[i].IsSettled();
      assert history[i] in exact;
    }
    if j :| 0 <= j < |exact| && exact[j].IsSettled() {
      assert exact[j] in history;
    }
    if HasProbableDuplicate(invoice, history) {
      var i :| 0 <= i < |history| && (IsExact(invoice, history[i]) || IsProbable(invoice, history[i]));
      assert history[i] in exact || history[i] in fuzzy;
    }
  }

  // ---- agreement with the decision table ----------------------------------------------

  /** The uniqueness constraint on decisions and the duplicate rule agree on what the same invoice is,
      exactly when both amounts are written with the same exponent. */
  lemma ConstraintAgreesWithRule(invoice: Invoice, record: HistoryMatch, x: Dec, y: Dec)
    requires AmountOf(x) == invoice.grossAmount && AmountOf(y) == record.grossAmount
    requires UpperCaseCode(invoice.currency) && UpperCaseCode(record.currency)
    ensures
      InvoiceMaterial(invoice.vendorId, invoice.reference, invoice.currency, Text(x)) ==
      InvoiceMaterial(record.vendorId, record.reference, record.currency, Text(y))
      <==> IsExact(invoice, record) && x.exponent == y.exponent
  {
    ExactMeans(invoice, record);
    FingerprintAgreesWithRule(
      InvoiceIdentity(invoice.vendorId, invoice.reference, invoice.currency, x),
      InvoiceIdentity(record.vendorId, record.reference, record.currency, y));
  }

  /** The history tool reports a candidate by comparing fingerprints; among records written with the exponent
      of the invoice it reports exactly those the rule calls exact. */
  lemma HistoryToolAgreesWithRule(invoice: Invoice, x: Dec, history: seq<HistoryMatch>, amounts: seq<Dec>)
    requires AmountOf(x) == invoice.grossAmount && UpperCaseCode(invoice.currency) && |amounts| == |history|
    requires forall i :: 0 <= i < |history| ==>
      AmountOf(amounts[i]) == history[i].grossAmount && amounts[i].exponent == x.exponent &&
      UpperCaseCode(history[i].currency)
    ensures forall i :: 0 <= i < |history| ==>
      (IsExact(invoice, history[i]) <==>
        InvoiceMaterial(history[i].vendorId, history[i].reference, history[i].currency, Text(amounts[i])) ==
        InvoiceMaterial(invoice.vendorId, invoice.reference, invoice.currency, Text(x)))
  {
    forall i | 0 <= i < |history|
      ensures IsExact(invoice, history[i]) <==>
        InvoiceMaterial(history[i].vendorId, history[i].reference, history[i].currency, Text(amounts[i])) ==
        InvoiceMaterial(invoice.vendorId, invoice.reference, invoice.currency, Text(x))
    {
      ConstraintAgreesWithRule(invoice, history[i], x, amounts[i]);
    }
  }
}
