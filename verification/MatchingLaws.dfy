/** What the matching policy says of a line, a document and an order, by their fields
    (src/ap_agent/domain/rules/matching.py). */
module MatchingLaws {
  import opened Prelude
  import opened Domain
  import opened Money
  import opened Matching
  import MatchingBounds

  // ---- tolerances ---------------------------------------------------------------------

  /** The policy tolerates this much variance on the order line: goods up to 50.00 and one percent of its
      value, services up to 100.00 and two percent, freight up to 75.00 where the order permits it. */
  predicate Tolerated(orderLine: POLine, variance: real) {
    match orderLine.lineType
    case Goods => variance <= 50.0 && variance <= Quantize(Quantize(orderLine.lineValue) / 100.0)
    case Service => variance <= 100.0 && variance <= Quantize(Quantize(orderLine.lineValue) / 50.0)
    case Freight => variance <= (if orderLine.permitsFreight then 75.0 else 0.0)
  }

  lemma LimitTolerates(orderLine: POLine, variance: real)
    ensures variance <= ToleranceLimit(orderLine) <==> Tolerated(orderLine, variance)
  {
    hide Quantize;
    var value := Quantize(orderLine.lineValue);
    assert value * 1.0 / 100.0 == value / 100.0 && value * 2.0 / 100.0 == value / 50.0;
  }

  /** A document's variance is tolerated when some order line would tolerate it; an order without lines is
      treated as goods. */
  predicate DocumentTolerated(order: PurchaseOrder, variance: real) {
    if order.lines == [] then variance <= 50.0 && variance <= Quantize(Quantize(order.totalValue) / 100.0)
    else exists i :: 0 <= i < |order.lines| && Tolerated(order.lines[i], variance)
  }

  lemma DocumentLimitTolerates(order: PurchaseOrder, variance: real)
    ensures variance <= DocumentLimit(order) <==> DocumentTolerated(order, variance)
  {
    hide Quantize, ToleranceLimit, Tolerated;
    if order.lines == [] {
      var value := Quantize(order.totalValue);
      assert value * 1.0 / 100.0 == value / 100.0;
    } else {
      MatchingBounds.WidestLimitIsWidest(order.lines);
      forall i | 0 <= i < |order.lines|
        ensures variance <= ToleranceLimit(order.lines[i]) <==> Tolerated(order.lines[i], variance)
      {
        LimitTolerates(order.lines[i], variance);
      }
    }
  }

  // ---- one line -----------------------------------------------------------------------

  /** The price agrees: the line total, less the invoiced quantity at the order's price, both in cents. */
  predicate PriceAgrees(line: InvoiceLine, orderLine: POLine) {
    var variance := Quantize(line.lineTotal - Quantize(line.quantity * orderLine.unitPrice));
    Tolerated(orderLine, if variance < 0.0 then -variance else variance)
  }

  /** Something stands behind the line: a receipt, or, without one, a service confirmed as complete. */
  predicate Delivered(order: PurchaseOrder, orderLine: POLine) {
    QuantityReceived(order.receipts, orderLine.lineNumber) > 0.0 ||
    (orderLine.lineType == Service && orderLine.serviceCompletionConfirmed)
  }

  /** How much may be invoiced: what was received, or, for a confirmed service without receipts, what was
      ordered. */
  function Invoiceable(order: PurchaseOrder, orderLine: POLine): real {
    var received := QuantityReceived(order.receipts, orderLine.lineNumber);
    if received > 0.0 then received else orderLine.quantityOrdered
  }

  /** What is on record of a line that names order line `k`: its price, and its delivery or its quantity. */
  lemma CitedLineRecords(order: PurchaseOrder, lines: seq<InvoiceLine>, i: int, k: int)
    requires Cites(order, lines, i, k)
    ensures var line, orderLine := lines[i], order.lines[k];
      LineResult(order, line).1 ==
        (if PriceAgrees(line, orderLine) then []
         else [ExceptionRecord(PriceVariance, "three_way_match.line_within_tolerance", true)]) +
        (if !Delivered(order, orderLine) then [UNDELIVERED]
         else if line.quantity > Invoiceable(order, orderLine) then [INVOICED_BEYOND]
         else [])
    ensures MatchingBounds.LineOk(order, lines[i]) <==>
      PriceAgrees(lines[i], order.lines[k]) && Delivered(order, order.lines[k]) &&
      lines[i].quantity <= Invoiceable(order, order.lines[k])
  {
    hide Quantize, ToleranceLimit, Tolerated, QuantityReceived;
    CitesIsCited(order, lines, i, k);
    LimitTolerates(order.lines[k], Abs(LineVariance(lines[i], order.lines[k])));
  }

  /** What is on record of a line that names no line of the order. */
  lemma UncitedLineRecords(order: PurchaseOrder, lines: seq<InvoiceLine>, i: int)
    requires 0 <= i < |lines| && NamesNoLine(order, lines[i])
    ensures LineResult(order, lines[i]).1 ==
      [ExceptionRecord(MissingPo, "three_way_match.line_maps_to_purchase_order_line", true)]
    ensures !MatchingBounds.LineOk(order, lines[i])
  {
  }

  /** Lines are recorded one after another. */
  lemma {:induction false} LineRecordsJoin(order: PurchaseOrder, xs: seq<InvoiceLine>, ys: seq<InvoiceLine>)
    ensures LineExceptions(order, []) == []
    ensures LineExceptions(order, xs + ys) == LineExceptions(order, xs) + LineExceptions(order, ys)
    ensures |ys| == 1 ==> LineExceptions(order, ys) == LineResult(order, ys[0]).1
  {
    hide LineResult;
    if ys == [] {
      assert xs + ys == xs;
    } else {
      var last := |ys| - 1;
      assert (xs + ys)[..|xs + ys| - 1] == xs + ys[..last];
      LineRecordsJoin(order, xs, ys[..last]);
    }
  }

  lemma OneLineExpected(order: PurchaseOrder, line: InvoiceLine)
    ensures ExpectedTotal(order, [line]) == ExpectedOf(order, line)
  {
    hide ExpectedOf;
    var lines := [line];
    assert lines[..0] == [] && lines[0] == line;
    assert ExpectedTotal(order, lines[..0]) == 0.0;
  }

  /** The expected total is a sum: nothing for no lines; one line's invoiced quantity at the price of the order
      line it names, in cents, or nothing where it names none; and additive. */
  lemma ExpectedTotalOfOne(order: PurchaseOrder, lines: seq<InvoiceLine>, i: int, k: int)
    requires 0 <= i < |lines|
    ensures Cites(order, lines, i, k) ==>
      ExpectedTotal(order, [lines[i]]) == Quantize(lines[i].quantity * order.lines[k].unitPrice)
    ensures NamesNoLine(order, lines[i]) ==> ExpectedTotal(order, [lines[i]]) == 0.0
  {
    hide NamesNoLine, ExpectedTotal;
    assert Cites(order, lines, i, k) ==>
      ExpectedValue(lines[i], order.lines[k]) == Quantize(lines[i].quantity * order.lines[k].unitPrice);
    OneLineExpected(order, lines[i]);
    NamesNoLineIsUncited(order, lines[i]);
    if Cites(order, lines, i, k) {
      CitesIsCited(order, lines, i, k);
    }
  }

  lemma {:induction false} ExpectedTotalAdds(order: PurchaseOrder, xs: seq<InvoiceLine>, ys: seq<InvoiceLine>)
    ensures ExpectedTotal(order, []) == 0.0
    ensures ExpectedTotal(order, xs + ys) == ExpectedTotal(order, xs) + ExpectedTotal(order, ys)
  {
    hide ExpectedOf;
    if ys == [] {
      assert xs + ys == xs;
    } else {
      var last := |ys| - 1;
      assert (xs + ys)[..|xs + ys| - 1] == xs + ys[..last];
      ExpectedTotalAdds(order, xs, ys[..last]);
    }
  }

  // ---- the document -------------------------------------------------------------------

  /** Lines are looked at when there are any and the currencies agree. */
  predicate ByLines(invoice: Invoice, order: PurchaseOrder) {
    |invoice.lines| >= 1 && order.currency == invoice.currency
  }

  /** The document net agrees with the lines' expected total, or without lines with the order's total. */
  predicate TotalAgrees(invoice: Invoice, order: PurchaseOrder) {
    var expected := if ByLines(invoice, order) then ExpectedTotal(order, invoice.lines) else Quantize(order.totalValue);
    var variance := Quantize(invoice.netAmount - expected);
    DocumentTolerated(order, if variance < 0.0 then -variance else variance)
  }

  predicate NamesNoLine(order: PurchaseOrder, line: InvoiceLine) {
    forall k :: 0 <= k < |order.lines| ==> line.poLineNumber != Some(order.lines[k].lineNumber)
  }

  lemma NamesNoLineIsUncited(order: PurchaseOrder, line: InvoiceLine)
    ensures Cited(order, line).None? <==> NamesNoLine(order, line)
  {
  }

  predicate SomeLineUncited(order: PurchaseOrder, lines: seq<InvoiceLine>) {
    exists i :: 0 <= i < |lines| && NamesNoLine(order, lines[i])
  }

  lemma UncitedIsUnmapped(order: PurchaseOrder, lines: seq<InvoiceLine>)
    ensures AnyUnmapped(order, lines) <==> SomeLineUncited(order, lines)
  {
    hide NamesNoLine;
    forall i | 0 <= i < |lines| ensures Cited(order, lines[i]).None? <==> NamesNoLine(order, lines[i]) {
      NamesNoLineIsUncited(order, lines[i]);
    }
  }

  predicate SomethingDelivered(order: PurchaseOrder) {
    order.receipts != [] ||
    exists i ::
      0 <= i < |order.lines| && order.lines[i].lineType == Service && order.lines[i].serviceCompletionConfirmed
  }

  /** The whole record of a match: approval, currency, receipts, the lines, and the total, each exactly when its
      rule is broken. */
  lemma MatchRecords(invoice: Invoice, order: Option<PurchaseOrder>)
    ensures MatchExceptions(invoice, order) ==
      if order.None? then [ExceptionRecord(MissingPo, "three_way_match.purchase_order_present", true)]
      else
        var po := order.value;
        (if po.isApproved then []
         else [ExceptionRecord(OtherControlRisk, "three_way_match.purchase_order_approved", true)]) +
        (if po.currency == invoice.currency then []
         else [ExceptionRecord(
                 OtherControlRisk, "three_way_match.currency_agreement", !po.permitsCurrencyConversion)]) +
        (if SomethingDelivered(po) then []
         else [ExceptionRecord(MissingReceipt, "three_way_match.receipt_recorded", true)]) +
        (if ByLines(invoice, po) then LineExceptions(po, invoice.lines) else []) +
        (if po.currency != invoice.currency || (ByLines(invoice, po) && SomeLineUncited(po, invoice.lines)) ||
            TotalAgrees(invoice, po) then []
         else [ExceptionRecord(PriceVariance, "three_way_match.document_total_within_tolerance", true)])
  {
    hide Quantize, LineExceptions, ExpectedTotal, DocumentLimit, DocumentTolerated, AnyUnmapped, SomeLineUncited;
    if order.Some? {
      UncitedIsUnmapped(order.value, invoice.lines);
      DocumentLimitTolerates(order.value, Abs(DocumentVariance(invoice, order.value)));
    }
  }

  /** The line names an order line, agrees with its price, and asks for no more than was delivered. */
  predicate LineAgrees(order: PurchaseOrder, lines: seq<InvoiceLine>, i: int) {
    exists k :: 0 <= k < |order.lines| && Cites(order, lines, i, k) && PriceAgrees(lines[i], order.lines[k]) &&
      Delivered(order, order.lines[k]) && lines[i].quantity <= Invoiceable(order, order.lines[k])
  }

  /** A match blocks nothing exactly when the order is approved, its currency agrees or may be converted,
      something was delivered, every line agrees in price and quantity, and so does the total. */
  predicate Agrees(invoice: Invoice, order: PurchaseOrder) {
    && order.isApproved
    && (order.currency == invoice.currency || order.permitsCurrencyConversion)
    && SomethingDelivered(order)
    && (ByLines(invoice, order) ==> forall i :: 0 <= i < |invoice.lines| ==> LineAgrees(order, invoice.lines, i))
    && (order.currency == invoice.currency ==> TotalAgrees(invoice, order))
  }

  lemma LineAgreesExactlyWhen(order: PurchaseOrder, lines: seq<InvoiceLine>, i: int)
    requires 0 <= i < |lines|
    ensures MatchingBounds.LineOk(order, lines[i]) <==> LineAgrees(order, lines, i)
  {
    hide PriceAgrees, Delivered, Invoiceable, PriceWithin, QuantityWithin;
    forall k | Cites(order, lines, i, k)
      ensures MatchingBounds.LineOk(order, lines[i]) <==>
        PriceAgrees(lines[i], order.lines[k]) && Delivered(order, order.lines[k]) &&
        lines[i].quantity <= Invoiceable(order, order.lines[k])
    {
      CitedLineRecords(order, lines, i, k);
    }
    if MatchingBounds.LineOk(order, lines[i]) {
      assert Cites(order, lines, i, Cited(order, lines[i]).value);
    }
  }

  lemma MatchAgreesExactlyWhen(invoice: Invoice, order: Option<PurchaseOrder>)
    ensures !Any(MatchExceptions(invoice, order), IsBlocking) <==> order.Some? && Agrees(invoice, order.value)
  {
    hide LineAgrees, MatchingBounds.LineOk, Quantize, ExpectedTotal, DocumentLimit, DocumentTolerated, MatchExceptions;
    MatchingBounds.MatchIsCleanExactlyWhen(invoice, order);
    if order.Some? {
      forall i | 0 <= i < |invoice.lines|
        ensures MatchingBounds.LineOk(order.value, invoice.lines[i]) <==> LineAgrees(order.value, invoice.lines, i)
      {
        LineAgreesExactlyWhen(order.value, invoice.lines, i);
      }
      DocumentLimitTolerates(order.value, Abs(DocumentVariance(invoice, order.value)));
    }
  }
}
