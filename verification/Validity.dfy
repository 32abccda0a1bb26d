/** Whether a submission can be processed as an invoice at all (src/ap_agent/domain/rules/validity.py). */
module Validity {
  import opened Prelude
  import opened Domain
  import opened Money

  const SLACK_PER_LINE: real := 0.01

  const CREDIT_NOTE_RULE: string := "validity.document_is_an_invoice_not_a_credit_note"
  const TOTAL_RULE: string := "validity.document_total_agrees_with_lines"
  const DATE_RULE: string := "validity.invoice_date_not_in_the_future"

  function LineSum(lines: seq<InvoiceLine>): real {
    if lines == [] then 0.0 else LineSum(lines[..|lines| - 1]) + lines[|lines| - 1].lineTotal
  }

  /** The sum of the line totals: nothing for no lines, one line's own total, and additive. */
  lemma {:induction false} LineSumAdds(xs: seq<InvoiceLine>, ys: seq<InvoiceLine>)
    ensures LineSum([]) == 0.0
    ensures |ys| == 1 ==> LineSum(ys) == ys[0].lineTotal
    ensures LineSum(xs + ys) == LineSum(xs) + LineSum(ys)
  {
    if ys == [] {
      assert xs + ys == xs;
    } else {
      var last := |ys| - 1;
      assert (xs + ys)[..|xs + ys| - 1] == xs + ys[..last];
      LineSumAdds(xs, ys[..last]);
    }
  }

  /** How far the document net is from its own lines, rounded to cents. */
  function TotalDifference(invoice: Invoice): real {
    Quantize(invoice.netAmount - Quantize(LineSum(invoice.lines)))
  }

  /** Within one cent a line. */
  predicate TotalAgrees(invoice: Invoice) {
    Abs(TotalDifference(invoice)) <= SLACK_PER_LINE * |invoice.lines| as real
  }

  predicate TotalTested(invoice: Invoice, taxSeparated: bool) {
    invoice.lines != [] && taxSeparated
  }

  function InvalidReasons(invoice: Invoice, invoiceDateSupplied: bool, taxSeparated: bool, today: int): seq<string> {
    (if TotalTested(invoice, taxSeparated) && !TotalAgrees(invoice) then [TOTAL_RULE] else []) +
    (if invoiceDateSupplied && invoice.invoiceDate > today then [DATE_RULE] else [])
  }

  function Blocked(rule: string): ExceptionRecord {
    ExceptionRecord(OtherControlRisk, rule, true)
  }

  function ValidityExceptions(
      invoice: Invoice, invoiceDateSupplied: bool, taxSeparated: bool, creditWording: bool, today: int)
      : seq<ExceptionRecord>
  {
    (if creditWording then [Blocked(CREDIT_NOTE_RULE)] else []) +
    (if TotalTested(invoice, taxSeparated) && !TotalAgrees(invoice) then [Blocked(TOTAL_RULE)] else []) +
    (if invoiceDateSupplied && invoice.invoiceDate > today then [Blocked(DATE_RULE)] else [])
  }

  /** `creditWording` says whether the reference or a supplied text carries the wording of a credit note.
      A reason is represented by the rule that gives it; every reason is also a blocking exception, and
      the only other one is the credit note, which holds the case without making it invalid. */
  method CheckInvoiceValidity(
      invoice: Invoice, invoiceDateSupplied: bool, taxSeparated: bool, creditWording: bool, today: int)
      returns (reasons: seq<string>, exceptions: seq<ExceptionRecord>)
    ensures reasons == InvalidReasons(invoice, invoiceDateSupplied, taxSeparated, today)
    ensures exceptions == ValidityExceptions(invoice, invoiceDateSupplied, taxSeparated, creditWording, today)
    ensures forall r :: r in reasons ==> Blocked(r) in exceptions
    ensures forall e :: e in exceptions ==> e.blocking && (e == Blocked(CREDIT_NOTE_RULE) || e.failedRule in reasons)
  {
    hide Quantize;
    reasons, exceptions := [], [];
    if creditWording {
      exceptions := exceptions + [Blocked(CREDIT_NOTE_RULE)];
    }
    if invoice.lines != [] && taxSeparated {
      var lineSum := Quantize(LineSum(invoice.lines));
      var slack := SLACK_PER_LINE * |invoice.lines| as real;
      var difference := Quantize(invoice.netAmount - lineSum);
      if Abs(difference) > slack {
        reasons := reasons + [TOTAL_RULE];
        exceptions := exceptions + [Blocked(TOTAL_RULE)];
      }
    }
    if invoiceDateSupplied && invoice.invoiceDate > today {
      reasons := reasons + [DATE_RULE];
      exceptions := exceptions + [Blocked(DATE_RULE)];
    }
  }
}
