/** What a clean match is worth: the exact meaning of "no blocking exception", and the amounts it bounds. */
module MatchingBounds {
  import opened Prelude
  import opened Domain
  import opened Money
  import opened Matching
  import Validity

  // ---- the tolerance band -------------------------------------------------------------

  lemma LimitAtMost100(line: POLine)
    ensures ToleranceLimit(line) <= 100.0
  {
    hide Quantize;
  }

  /** The document limit is the widest line limit: some line grants it, and no line grants more. */
  lemma {:induction false} WidestLimitIsWidest(lines: seq<POLine>)
    requires lines != []
    ensures forall i :: 0 <= i < |lines| ==> ToleranceLimit(lines[i]) <= WidestLimit(lines)
    ensures exists i :: 0 <= i < |lines| && ToleranceLimit(lines[i]) == WidestLimit(lines)
  {
    hide ToleranceLimit;
    var last := |lines| - 1;
    if last > 0 {
      WidestLimitIsWidest(lines[..last]);
      var k :| 0 <= k < last && ToleranceLimit(lines[..last][k]) == WidestLimit(lines[..last]);
      assert ToleranceLimit(lines[k]) == WidestLimit(lines[..last]);
      forall i | 0 <= i < |lines| ensures ToleranceLimit(lines[i]) <= WidestLimit(lines) {
        if i < last {
          assert lines[..last][i] == lines[i];
        }
      }
    }
    assert WidestLimit(lines) == ToleranceLimit(lines[last]) || last > 0;
  }

  lemma DocumentLimitAtMost100(order: PurchaseOrder)
    ensures DocumentLimit(order) <= 100.0
  {
    hide Quantize;
    if order.lines != [] {
      WidestLimitIsWidest(order.lines);
      var i :| 0 <= i < |order.lines| && ToleranceLimit(order.lines[i]) == WidestLimit(order.lines);
      LimitAtMost100(order.lines[i]);
    }
  }

  /** Splitting an order into more lines never widens its document limit: added lines that grant no more
      than some line already there leave it exactly where it was. */
  lemma MoreLinesDoNotWiden(lines: seq<POLine>, more: seq<POLine>)
    requires lines != []
    requires forall j :: 0 <= j < |more| ==> ToleranceLimit(more[j]) <= WidestLimit(lines)
    ensures WidestLimit(lines + more) == WidestLimit(lines)
  {
    hide ToleranceLimit;
    var all := lines + more;
    WidestLimitIsWidest(lines);
    WidestLimitIsWidest(all);
    var i :| 0 <= i < |all| && ToleranceLimit(all[i]) == WidestLimit(all);
    assert ToleranceLimit(all[i]) <= WidestLimit(lines);
    var k :| 0 <= k < |lines| && ToleranceLimit(lines[k]) == WidestLimit(lines);
    assert all[k] == lines[k];
  }

  lemma PercentOfBounds(value: real)
    ensures PercentOf(value, 1.0) <= value / 100.0 + 0.01
    ensures PercentOf(value, 2.0) <= value / 50.0 + 0.01
  {
    var rounded := Quantize(value);
    QuantizeError(value);
    QuantizeError(rounded * 1.0 / 100.0);
    QuantizeError(rounded * 2.0 / 100.0);
  }

  /** What the policy grants a line by its type, in money and in percent of the line's value. */
  predicate Grants(orderLine: POLine, amount: real) {
    match orderLine.lineType
    case Goods => amount <= 50.0 && amount <= orderLine.lineValue / 100.0 + 0.01
    case Service => amount <= 100.0 && amount <= orderLine.lineValue / 50.0 + 0.01
    case Freight => amount <= (if orderLine.permitsFreight then 75.0 else 0.0)
  }

  lemma LimitIsGranted(orderLine: POLine)
    ensures Grants(orderLine, ToleranceLimit(orderLine))
  {
    PercentOfBounds(orderLine.lineValue);
  }

  lemma VarianceIsNearExact(line: InvoiceLine, orderLine: POLine)
    ensures Abs(line.lineTotal - Priced(line, orderLine)) <= Abs(LineVariance(line, orderLine)) + 0.01
  {
    ExpectedIsNearExact(line, orderLine);
    QuantizeError(line.lineTotal - ExpectedValue(line, orderLine));
  }

  lemma ExpectedIsNearExact(line: InvoiceLine, orderLine: POLine)
    ensures -0.005 <= ExpectedValue(line, orderLine) - Priced(line, orderLine) <= 0.005
  {
    QuantizeError(Priced(line, orderLine));
  }

  /** An accepted line is off the exact price of the invoiced quantity by at most what the policy grants:
      goods 50 and one percent, services 100 and two percent, freight 75 where the order permits it and
      nothing otherwise; rounding adds at most a cent to that. */
  lemma AcceptedLineIsWithinPolicy(line: InvoiceLine, orderLine: POLine)
    requires PriceWithin(line, orderLine)
    ensures Grants(orderLine, Abs(line.lineTotal - line.quantity * orderLine.unitPrice) - 0.01)
  {
    assert Abs(LineVariance(line, orderLine)) <= ToleranceLimit(orderLine);
    LimitIsGranted(orderLine);
    VarianceIsNearExact(line, orderLine);
    assert Priced(line, orderLine) == line.quantity * orderLine.unitPrice;
  }

  // ---- what "no blocking exception" means ---------------------------------------------

  lemma AnyJoins<T>(xs: seq<T>, ys: seq<T>, test: T -> bool)
    ensures Any(xs + ys, test) <==> Any(xs, test) || Any(ys, test)
  {
    if Any(xs, test) {
      var i :| 0 <= i < |xs| && test(xs[i]);
      assert test((xs + ys)[i]);
    }
    if Any(ys, test) {
      var i :| 0 <= i < |ys| && test(ys[i]);
      assert test((xs + ys)[|xs| + i]);
    }
  }

  lemma FailureBlocks(category: Category, rule: string)
    ensures Any(Failure(category, rule), IsBlocking)
  {
    assert IsBlocking(Failure(category, rule)[0]);
  }

  /** The line cites the order, its price is within its own allowance, and its quantity is evidenced. */
  predicate LineOk(order: PurchaseOrder, line: InvoiceLine) {
    var cited := Cited(order, line);
    cited.Some? && PriceWithin(line, order.lines[cited.value]) &&
    QuantityWithin(order, line, order.lines[cited.value])
  }

  lemma LineBlocksUnlessOk(order: PurchaseOrder, line: InvoiceLine)
    ensures Any(LineResult(order, line).1, IsBlocking) <==> !LineOk(order, line)
  {
    hide PriceWithin, Cited;
    var found := LineResult(order, line).1;
    if !LineOk(order, line) {
      assert IsBlocking(found[0]);
    }
  }

  lemma {:induction false} LinesBlockUnlessOk(order: PurchaseOrder, lines: seq<InvoiceLine>)
    ensures !Any(LineExceptions(order, lines), IsBlocking) <==>
      forall i :: 0 <= i < |lines| ==> LineOk(order, lines[i])
  {
    hide LineOk, LineResult;
    if lines != [] {
      var last := |lines| - 1;
      LinesBlockUnlessOk(order, lines[..last]);
      LineBlocksUnlessOk(order, lines[last]);
      AnyJoins(LineExceptions(order, lines[..last]), LineResult(order, lines[last]).1, IsBlocking);
      assert forall i :: 0 <= i < last ==> lines[..last][i] == lines[i];
    }
  }

  /** Every control of the matching policy, without reference to exceptions. */
  predicate CleanMatch(invoice: Invoice, order: PurchaseOrder) {
    && order.isApproved
    && (invoice.currency == order.currency || order.permitsCurrencyConversion)
    && (order.receipts != [] || Any(order.lines, ConfirmedService))
    && (LineLevel(invoice, order) ==> forall i :: 0 <= i < |invoice.lines| ==> LineOk(order, invoice.lines[i]))
    && (invoice.currency == order.currency ==> TotalWithin(invoice, order))
  }

  lemma OrderBlocksUnless(invoice: Invoice, order: PurchaseOrder)
    ensures Any(OrderExceptions(invoice, order), IsBlocking) <==>
      !(order.isApproved && (invoice.currency == order.currency || order.permitsCurrencyConversion) &&
        (order.receipts != [] || Any(order.lines, ConfirmedService)))
  {
    var a := if order.isApproved then [] else Failure(OtherControlRisk, "three_way_match.purchase_order_approved");
    var b := if invoice.currency == order.currency then []
      else [ExceptionRecord(OtherControlRisk, "three_way_match.currency_agreement", !order.permitsCurrencyConversion)];
    var c := if order.receipts != [] || Any(order.lines, ConfirmedService) then []
      else Failure(MissingReceipt, "three_way_match.receipt_recorded");
    AnyJoins(a, b, IsBlocking);
    AnyJoins(a + b, c, IsBlocking);
    assert !order.isApproved ==> IsBlocking(a[0]);
    assert c != [] ==> IsBlocking(c[0]);
    assert b != [] && !order.permitsCurrencyConversion ==> IsBlocking(b[0]);
  }

  /** A match raises no blocking exception exactly when every control holds. */
  lemma MatchIsCleanExactlyWhen(invoice: Invoice, order: Option<PurchaseOrder>)
    ensures !Any(MatchExceptions(invoice, order), IsBlocking) <==> order.Some? && CleanMatch(invoice, order.value)
  {
    hide LineOk, TotalWithin, LineExceptions, OrderExceptions;
    if order.None? {
      FailureBlocks(MissingPo, "three_way_match.purchase_order_present");
    } else {
      var po := order.value;
      var head := OrderExceptions(invoice, po);
      var lines := if LineLevel(invoice, po) then LineExceptions(po, invoice.lines) else [];
      var total := TotalExceptions(invoice, po);
      OrderBlocksUnless(invoice, po);
      LinesBlockUnlessOk(po, invoice.lines);
      AnyJoins(head, lines, IsBlocking);
      AnyJoins(head + lines, total, IsBlocking);
      FailureBlocks(PriceVariance, "three_way_match.document_total_within_tolerance");
      if AnyUnmapped(po, invoice.lines) {
        UnmappedIsNotOk(po, invoice.lines);
      }
    }
  }

  lemma UnmappedIsNotOk(order: PurchaseOrder, lines: seq<InvoiceLine>)
    requires AnyUnmapped(order, lines)
    ensures exists i :: 0 <= i < |lines| && !LineOk(order, lines[i])
  {
    var i :| 0 <= i < |lines| && Cited(order, lines[i]).None?;
    assert !LineOk(order, lines[i]);
  }

  // ---- no splitting -------------------------------------------------------------------

  /** A match at line level without a blocking exception. */
  predicate AcceptedAtLineLevel(invoice: Invoice, order: PurchaseOrder) {
    LineLevel(invoice, order) && !Any(MatchExceptions(invoice, Some(order)), IsBlocking)
  }

  /** However many lines the invoice is cut into, its net stays within the single widest line allowance of
      the order from the sum of the rounded expected values; the allowance never exceeds 100. */
  lemma NoSplitting(invoice: Invoice, order: PurchaseOrder)
    requires AcceptedAtLineLevel(invoice, order)
    ensures Abs(Quantize(invoice.netAmount - ExpectedTotal(order, invoice.lines))) <= DocumentLimit(order) <= 100.0
    ensures order.lines != []
    ensures exists i :: 0 <= i < |order.lines| && DocumentLimit(order) == ToleranceLimit(order.lines[i])
  {
    hide Quantize, ToleranceLimit, LineResult;
    MatchIsCleanExactlyWhen(invoice, Some(order));
    DocumentLimitAtMost100(order);
    assert LineOk(order, invoice.lines[0]);
    WidestLimitIsWidest(order.lines);
  }

  // ---- the overpayment bound ----------------------------------------------------------

  predicate NonNegativeQuantities(order: PurchaseOrder) {
    (forall i :: 0 <= i < |order.receipts| ==> order.receipts[i].quantityReceived >= 0.0) &&
    (forall i :: 0 <= i < |order.lines| ==> order.lines[i].quantityOrdered >= 0.0)
  }

  predicate NonNegativePrices(order: PurchaseOrder) {
    forall i :: 0 <= i < |order.lines| ==> order.lines[i].unitPrice >= 0.0
  }

  /** No two invoice lines cite the same order line number. */
  predicate DistinctCitations(lines: seq<InvoiceLine>) {
    forall i, j | 0 <= i < j < |lines| :: lines[i].poLineNumber != lines[j].poLineNumber
  }

  /** What the receipts of an order line are worth at the order's price. */
  function EvidencedValue(order: PurchaseOrder, index: nat): real
    requires index < |order.lines|
  {
    ReceiptEvidence(order, order.lines[index]).1 * order.lines[index].unitPrice
  }

  /** The evidenced value of those of the first `n` order lines that are in the set. */
  function ValueOf(order: PurchaseOrder, chosen: set<nat>, n: nat): real
    requires n <= |order.lines|
  {
    if n == 0 then 0.0
    else ValueOf(order, chosen, n - 1) + (if n - 1 in chosen then EvidencedValue(order, n - 1) else 0.0)
  }

  /** The evidenced value of the first `n` order lines. */
  function OrderValue(order: PurchaseOrder, n: nat): real
    requires n <= |order.lines|
  {
    if n == 0 then 0.0 else OrderValue(order, n - 1) + EvidencedValue(order, n - 1)
  }

  lemma {:induction false} ReceivedIsNonNegative(receipts: seq<GoodsReceipt>, number: int)
    requires forall i :: 0 <= i < |receipts| ==> receipts[i].quantityReceived >= 0.0
    ensures QuantityReceived(receipts, number) >= 0.0
  {
    if receipts != [] {
      ReceivedIsNonNegative(receipts[..|receipts| - 1], number);
    }
  }

  lemma EvidencedValueNonNegative(order: PurchaseOrder, index: nat)
    requires NonNegativeQuantities(order) && NonNegativePrices(order) && index < |order.lines|
    ensures EvidencedValue(order, index) >= 0.0
  {
    ReceivedIsNonNegative(order.receipts, order.lines[index].lineNumber);
    var quantity, price := ReceiptEvidence(order, order.lines[index]).1, order.lines[index].unitPrice;
    assert quantity >= 0.0 && price >= 0.0;
  }

  lemma {:induction false} OneMoreChosen(order: PurchaseOrder, chosen: set<nat>, k: nat, n: nat)
    requires k !in chosen && k < |order.lines| && n <= |order.lines|
    ensures ValueOf(order, chosen + {k}, n) ==
      ValueOf(order, chosen, n) + (if k < n then EvidencedValue(order, k) else 0.0)
  {
    hide EvidencedValue;
    if n > 0 {
      OneMoreChosen(order, chosen, k, n - 1);
    }
  }

  lemma {:induction false} ChosenIsPart(order: PurchaseOrder, chosen: set<nat>, n: nat)
    requires NonNegativeQuantities(order) && NonNegativePrices(order) && n <= |order.lines|
    ensures ValueOf(order, chosen, n) <= OrderValue(order, n)
  {
    hide EvidencedValue;
    if n > 0 {
      ChosenIsPart(order, chosen, n - 1);
      EvidencedValueNonNegative(order, n - 1);
    }
  }

  /** The order lines that the invoice lines cite. */
  function CitedLines(order: PurchaseOrder, lines: seq<InvoiceLine>): set<nat> {
    set i | 0 <= i < |lines| && Cited(order, lines[i]).Some? :: Cited(order, lines[i]).value
  }

  /** What the receipts of the cited order line are worth; never less than nothing. */
  function CitedWorth(order: PurchaseOrder, line: InvoiceLine): real {
    var cited := Cited(order, line);
    if cited.None? then 0.0 else Max(0.0, EvidencedValue(order, cited.value))
  }

  /** The same, invoice line by invoice line: an order line cited twice counts twice. */
  function CitedValue(order: PurchaseOrder, lines: seq<InvoiceLine>): real {
    if lines == [] then 0.0
    else CitedValue(order, lines[..|lines| - 1]) + CitedWorth(order, lines[|lines| - 1])
  }

  predicate NonNegativeInvoiced(lines: seq<InvoiceLine>) {
    forall i :: 0 <= i < |lines| ==> lines[i].quantity >= 0.0
  }

  /** One accepted line costs at most what its citation is worth, and half a cent of rounding, at any price. */
  lemma LineCostIsCited(order: PurchaseOrder, line: InvoiceLine)
    requires line.quantity >= 0.0 && LineOk(order, line)
    ensures ExpectedOf(order, line) <= CitedWorth(order, line) + 0.005
  {
    hide PriceWithin, Quantize;
    var orderLine := order.lines[Cited(order, line).value];
    QuantizeError(Priced(line, orderLine));
    if orderLine.unitPrice >= 0.0 {
      ScaleUp(line.quantity, ReceiptEvidence(order, orderLine).1, orderLine.unitPrice);
    } else {
      ScaleUp(0.0, line.quantity, -orderLine.unitPrice);
    }
  }

  lemma {:induction false} ExpectedIsCited(order: PurchaseOrder, lines: seq<InvoiceLine>)
    requires NonNegativeInvoiced(lines)
    requires forall i :: 0 <= i < |lines| ==> LineOk(order, lines[i])
    ensures ExpectedTotal(order, lines) <= CitedValue(order, lines) + 0.005 * |lines| as real
  {
    hide CitedWorth, PriceWithin, QuantityWithin, ExpectedOf;
    if lines != [] {
      var last := |lines| - 1;
      assert forall i :: 0 <= i < last ==> lines[..last][i] == lines[i];
      ExpectedIsCited(order, lines[..last]);
      LineCostIsCited(order, lines[last]);
    }
  }

  /** One accepted line costs at most what its receipts are worth, and half a cent of rounding. */
  lemma LineCostIsEvidenced(order: PurchaseOrder, line: InvoiceLine)
    requires NonNegativePrices(order) && LineOk(order, line)
    ensures ExpectedOf(order, line) <= EvidencedValue(order, Cited(order, line).value) + 0.005
  {
    hide PriceWithin;
    var k := Cited(order, line).value;
    var orderLine := order.lines[k];
    QuantizeError(Priced(line, orderLine));
    assert line.quantity <= ReceiptEvidence(order, orderLine).1;
    ScaleUp(line.quantity, ReceiptEvidence(order, orderLine).1, orderLine.unitPrice);
  }

  lemma ScaleUp(x: real, y: real, price: real)
    requires x <= y && price >= 0.0
    ensures x * price <= y * price
  {
    assert (y - x) * price >= 0.0;
  }

  lemma NewCitation(order: PurchaseOrder, lines: seq<InvoiceLine>)
    requires lines != [] && DistinctCitations(lines)
    requires forall i :: 0 <= i < |lines| ==> Cited(order, lines[i]).Some?
    ensures var last := |lines| - 1;
      Cited(order, lines[last]).value !in CitedLines(order, lines[..last]) &&
      CitedLines(order, lines) == CitedLines(order, lines[..last]) + {Cited(order, lines[last]).value}
  {
    var last := |lines| - 1;
    var k := Cited(order, lines[last]).value;
    forall i | 0 <= i < last ensures Cited(order, lines[..last][i]).value != k {
      assert lines[i].poLineNumber != lines[last].poLineNumber;
    }
    forall c | c in CitedLines(order, lines) ensures c in CitedLines(order, lines[..last]) + {k} {
      var i :| 0 <= i < |lines| && Cited(order, lines[i]).value == c;
      if i < last {
        assert lines[..last][i] == lines[i];
      }
    }
    forall c | c in CitedLines(order, lines[..last]) ensures c in CitedLines(order, lines) {
      var i :| 0 <= i < last && Cited(order, lines[..last][i]).value == c;
      assert lines[..last][i] == lines[i];
    }
    assert Cited(order, lines[last]).Some?;
  }

  lemma {:induction false} ExpectedIsEvidenced(order: PurchaseOrder, lines: seq<InvoiceLine>)
    requires NonNegativePrices(order) && DistinctCitations(lines)
    requires forall i :: 0 <= i < |lines| ==> LineOk(order, lines[i])
    ensures ExpectedTotal(order, lines) <=
      ValueOf(order, CitedLines(order, lines), |order.lines|) + 0.005 * |lines| as real
  {
    hide EvidencedValue, PriceWithin, QuantityWithin, ExpectedOf;
    if lines == [] {
      NothingChosen(order, |order.lines|);
      assert CitedLines(order, lines) == {};
    } else {
      var last := |lines| - 1;
      assert forall i :: 0 <= i < last ==> lines[..last][i] == lines[i];
      ExpectedIsEvidenced(order, lines[..last]);
      LineCostIsEvidenced(order, lines[last]);
      NewCitation(order, lines);
      OneMoreChosen(order, CitedLines(order, lines[..last]), Cited(order, lines[last]).value, |order.lines|);
    }
  }

  lemma {:induction false} NothingChosen(order: PurchaseOrder, n: nat)
    requires n <= |order.lines|
    ensures ValueOf(order, {}, n) == 0.0
  {
    if n > 0 {
      NothingChosen(order, n - 1);
    }
  }

  lemma RoundedBound(x: real, limit: real)
    requires Abs(Quantize(x)) <= limit
    ensures x <= limit + (if WholeCents(x) then 0.0 else 0.005)
    ensures -x <= limit + (if WholeCents(x) then 0.0 else 0.005)
  {
    QuantizeError(x);
    QuantizeFixesCents(x);
  }

  /** What rounding may hide: half a cent a line, and half a cent of a net that is not in whole cents. */
  function RoundingRoom(invoice: Invoice): real {
    0.005 * |invoice.lines| as real + (if WholeCents(invoice.netAmount) then 0.0 else 0.005)
  }

  /** The overpayment bound. An accepted invoice asks for no more than the receipts of the order lines it cites
      are worth at the order's prices, citation by citation, plus 100.00 and what rounding may hide. When no
      order line is cited twice, that is no more than the whole order's evidenced value. */
  lemma OverpaymentBound(invoice: Invoice, order: PurchaseOrder)
    requires AcceptedAtLineLevel(invoice, order)
    ensures NonNegativeInvoiced(invoice.lines) ==>
      invoice.netAmount <= CitedValue(order, invoice.lines) + 100.0 + RoundingRoom(invoice)
    ensures NonNegativeQuantities(order) && NonNegativePrices(order) && DistinctCitations(invoice.lines) ==>
      invoice.netAmount <= OrderValue(order, |order.lines|) + 100.0 + RoundingRoom(invoice)
  {
    hide Quantize, EvidencedValue, LineOk, DocumentLimit, CitedValue;
    var expected := ExpectedTotal(order, invoice.lines);
    NoSplitting(invoice, order);
    MatchIsCleanExactlyWhen(invoice, Some(order));
    RoundedBound(invoice.netAmount - expected, 100.0);
    ExpectedTotalIsWhole(order, invoice.lines);
    if WholeCents(invoice.netAmount) {
      WholeCentsSum(invoice.netAmount, expected);
    }
    if NonNegativeInvoiced(invoice.lines) {
      ExpectedIsCited(order, invoice.lines);
    }
    if NonNegativeQuantities(order) && NonNegativePrices(order) && DistinctCitations(invoice.lines) {
      AcceptedExpectedIsEvidenced(invoice, order);
    }
  }

  lemma AcceptedExpectedIsEvidenced(invoice: Invoice, order: PurchaseOrder)
    requires AcceptedAtLineLevel(invoice, order)
    requires NonNegativeQuantities(order) && NonNegativePrices(order) && DistinctCitations(invoice.lines)
    ensures ExpectedTotal(order, invoice.lines) <= OrderValue(order, |order.lines|) + 0.005 * |invoice.lines| as real
  {
    hide EvidencedValue, LineOk, LineExceptions, OrderExceptions, TotalExceptions, Quantize;
    MatchIsCleanExactlyWhen(invoice, Some(order));
    ExpectedIsEvidenced(order, invoice.lines);
    ChosenIsPart(order, CitedLines(order, invoice.lines), |order.lines|);
  }

  // ---- all the line variances together ------------------------------------------------

  /** The variance the match reports for a line; none for a line that cites nothing. */
  function ReportedVariance(order: PurchaseOrder, line: InvoiceLine): real {
    var cited := Cited(order, line);
    if cited.None? then 0.0 else LineVariance(line, order.lines[cited.value])
  }

  /** The sum of the variances the match reports, line by line. */
  function VarianceTotal(order: PurchaseOrder, lines: seq<InvoiceLine>): real {
    if lines == [] then 0.0
    else VarianceTotal(order, lines[..|lines| - 1]) + ReportedVariance(order, lines[|lines| - 1])
  }

  predicate WholeCentLines(lines: seq<InvoiceLine>) {
    forall i :: 0 <= i < |lines| ==> WholeCents(lines[i].lineTotal)
  }

  lemma VarianceOfLine(line: InvoiceLine, orderLine: POLine)
    ensures -0.005 <= LineVariance(line, orderLine) - (line.lineTotal - ExpectedValue(line, orderLine)) <= 0.005
    ensures WholeCents(line.lineTotal) ==>
      LineVariance(line, orderLine) == line.lineTotal - ExpectedValue(line, orderLine)
  {
    var expected := ExpectedValue(line, orderLine);
    QuantizeError(line.lineTotal - expected);
    if WholeCents(line.lineTotal) {
      ExpectedValueIsWhole(line, orderLine);
      WholeCentsSum(line.lineTotal, expected);
      QuantizeFixesCents(line.lineTotal - expected);
    }
  }

  /** The reported variances add up to the line totals less the expected total, but for half a cent of
      rounding a line, and exactly when the line totals are in whole cents. */
  lemma {:induction false} VariancesAddUp(order: PurchaseOrder, lines: seq<InvoiceLine>)
    requires forall i :: 0 <= i < |lines| ==> Cited(order, lines[i]).Some?
    ensures Abs(VarianceTotal(order, lines) - (Validity.LineSum(lines) - ExpectedTotal(order, lines))) <=
      0.005 * |lines| as real
    ensures WholeCentLines(lines) ==>
      VarianceTotal(order, lines) == Validity.LineSum(lines) - ExpectedTotal(order, lines)
  {
    hide LineVariance, ExpectedValue;
    if lines != [] {
      var last := |lines| - 1;
      assert forall i :: 0 <= i < last ==> lines[..last][i] == lines[i];
      VariancesAddUp(order, lines[..last]);
      VarianceOfLine(lines[last], order.lines[Cited(order, lines[last]).value]);
    }
  }

  lemma {:induction false} LineSumIsWhole(lines: seq<InvoiceLine>)
    requires WholeCentLines(lines)
    ensures WholeCents(Validity.LineSum(lines))
  {
    hide WholeCents;
    if lines == [] {
      WholeCentsOf(0);
    } else {
      var last := |lines| - 1;
      assert forall i :: 0 <= i < last ==> lines[..last][i] == lines[i];
      LineSumIsWhole(lines[..last]);
      WholeCentsSum(Validity.LineSum(lines[..last]), lines[last].lineTotal);
    }
  }

  /** With the intake check, the total of all line variances is bounded by the single widest allowance and
      a cent a line: exactly so in whole cents, and with the rounding terms otherwise. */
  lemma LineVariancesAreBoundedTogether(invoice: Invoice, order: PurchaseOrder)
    requires AcceptedAtLineLevel(invoice, order) && Validity.TotalAgrees(invoice)
    ensures var n := |invoice.lines| as real;
      Abs(VarianceTotal(order, invoice.lines)) <= DocumentLimit(order) + 0.015 * n + 0.015
    ensures WholeCents(invoice.netAmount) && WholeCentLines(invoice.lines) ==>
      Abs(VarianceTotal(order, invoice.lines)) <= DocumentLimit(order) + 0.01 * |invoice.lines| as real
  {
    hide Quantize, DocumentLimit, LineExceptions, OrderExceptions, TotalExceptions, WholeCents, LineOk;
    var net, total, expected :=
      invoice.netAmount, Validity.LineSum(invoice.lines), ExpectedTotal(order, invoice.lines);
    NoSplitting(invoice, order);
    MatchIsCleanExactlyWhen(invoice, Some(order));
    OkLinesAreCited(order, invoice.lines);
    VariancesAddUp(order, invoice.lines);
    RoundingSpread(net, total, expected);
    if WholeCents(net) && WholeCentLines(invoice.lines) {
      LineSumIsWhole(invoice.lines);
      ExpectedTotalIsWhole(order, invoice.lines);
      NoRoundingSpread(net, total, expected);
    }
  }

  lemma OkLinesAreCited(order: PurchaseOrder, lines: seq<InvoiceLine>)
    requires forall i :: 0 <= i < |lines| ==> LineOk(order, lines[i])
    ensures forall i :: 0 <= i < |lines| ==> Cited(order, lines[i]).Some?
  {
  }

  /** From the two rounded differences back to the exact one. */
  lemma RoundingSpread(net: real, total: real, expected: real)
    ensures Abs(total - expected) <=
      Abs(Quantize(net - Quantize(total))) + Abs(Quantize(net - expected)) + 0.015
  {
    hide Quantize;
    QuantizeError(net - expected);
    QuantizeError(net - Quantize(total));
    QuantizeError(total);
  }

  lemma NoRoundingSpread(net: real, total: real, expected: real)
    requires WholeCents(net) && WholeCents(total) && WholeCents(expected)
    ensures Abs(total - expected) <= Abs(Quantize(net - Quantize(total))) + Abs(Quantize(net - expected))
  {
    hide Quantize, WholeCents;
    QuantizeFixesCents(total);
    WholeCentsSum(net, total);
    WholeCentsSum(net, expected);
    QuantizeFixesCents(net - total);
    QuantizeFixesCents(net - expected);
  }
}
