/** Three-way matching of an invoice, its order and its receipts (src/ap_agent/domain/rules/matching.py). */
module Matching {
  import opened Prelude
  import opened Domain
  import opened Money

  const GOODS_ABSOLUTE_LIMIT: real := 50.0
  const GOODS_PERCENT_LIMIT: real := 1.0
  const SERVICE_ABSOLUTE_LIMIT: real := 100.0
  const SERVICE_PERCENT_LIMIT: real := 2.0
  const FREIGHT_ABSOLUTE_LIMIT: real := 75.0

  function PercentOf(value: real, percent: real): real {
    Quantize(Quantize(value) * percent / 100.0)
  }

  // ---- tolerances ---------------------------------------------------------------------

  function ToleranceLimit(line: POLine): real {
    match line.lineType
    case Service => Min(SERVICE_ABSOLUTE_LIMIT, PercentOf(line.lineValue, SERVICE_PERCENT_LIMIT))
    case Freight => if line.permitsFreight then FREIGHT_ABSOLUTE_LIMIT else 0.0
    case Goods => Min(GOODS_ABSOLUTE_LIMIT, PercentOf(line.lineValue, GOODS_PERCENT_LIMIT))
  }

  function WidestLimit(lines: seq<POLine>): real
    requires lines != []
  {
    var last := ToleranceLimit(lines[|lines| - 1]);
    if |lines| == 1 then last else Max(WidestLimit(lines[..|lines| - 1]), last)
  }

  function DocumentLimit(order: PurchaseOrder): real {
    if order.lines == [] then Min(GOODS_ABSOLUTE_LIMIT, PercentOf(order.totalValue, GOODS_PERCENT_LIMIT))
    else WidestLimit(order.lines)
  }

  // ---- the order ----------------------------------------------------------------------

  /** The first order line that carries the number. */
  function IndexOf(lines: seq<POLine>, number: int): (index: Option<nat>)
    ensures index.Some? ==>
      index.value < |lines| && lines[index.value].lineNumber == number &&
      forall j :: 0 <= j < index.value ==> lines[j].lineNumber != number
    ensures index.None? ==> forall j :: 0 <= j < |lines| ==> lines[j].lineNumber != number
  {
    if lines == [] then None
    else
      var before := IndexOf(lines[..|lines| - 1], number);
      if before.Some? then before
      else if lines[|lines| - 1].lineNumber == number then Some(|lines| - 1)
      else None
  }

  /** The order line an invoice line cites. */
  function Cited(order: PurchaseOrder, line: InvoiceLine): Option<nat> {
    if line.poLineNumber.None? then None else IndexOf(order.lines, line.poLineNumber.value)
  }

  function QuantityReceived(receipts: seq<GoodsReceipt>, number: int): real {
    if receipts == [] then 0.0
    else
      var last := receipts[|receipts| - 1];
      QuantityReceived(receipts[..|receipts| - 1], number) +
      (if last.poLineNumber == number then last.quantityReceived else 0.0)
  }

  /** Whether the delivery of a line is evidenced, and for which quantity. */
  function ReceiptEvidence(order: PurchaseOrder, line: POLine): (bool, real) {
    var received := QuantityReceived(order.receipts, line.lineNumber);
    if received > 0.0 then (true, received)
    else if line.lineType.Service? && line.serviceCompletionConfirmed then (true, line.quantityOrdered)
    else (false, received)
  }

  predicate ConfirmedService(line: POLine) {
    line.lineType.Service? && line.serviceCompletionConfirmed
  }

  lemma {:induction false} ReceiptsAdd(xs: seq<GoodsReceipt>, ys: seq<GoodsReceipt>, number: int)
    ensures QuantityReceived(xs + ys, number) == QuantityReceived(xs, number) + QuantityReceived(ys, number)
  {
    if ys == [] {
      assert xs + ys == xs;
    } else {
      var last := |ys| - 1;
      assert (xs + ys)[..|xs + ys| - 1] == xs + ys[..last];
      ReceiptsAdd(xs, ys[..last], number);
    }
  }

  lemma OneReceipt(r: GoodsReceipt, number: int)
    ensures QuantityReceived([r], number) == if r.poLineNumber == number then r.quantityReceived else 0.0
  {
    assert [r][..0] == [];
  }

  /** What a line has received: nothing from no receipts; a receipt under its own number, wherever it stands,
      adds exactly its quantity; one under another number changes nothing. */
  lemma ReceivedMeans(xs: seq<GoodsReceipt>, r: GoodsReceipt, ys: seq<GoodsReceipt>, number: int)
    ensures QuantityReceived([], number) == 0.0
    ensures r.poLineNumber == number ==>
      QuantityReceived(xs + [r] + ys, number) == QuantityReceived(xs + ys, number) + r.quantityReceived
    ensures r.poLineNumber != number ==> QuantityReceived(xs + [r] + ys, number) == QuantityReceived(xs + ys, number)
  {
    ReceiptsAdd(xs + [r], ys, number);
    ReceiptsAdd(xs, [r], number);
    ReceiptsAdd(xs, ys, number);
    OneReceipt(r, number);
  }

  /** No receipt under the number records a positive quantity. */
  predicate NothingReceived(receipts: seq<GoodsReceipt>, number: int) {
    forall i :: 0 <= i < |receipts| && receipts[i].poLineNumber == number ==> receipts[i].quantityReceived <= 0.0
  }

  lemma {:induction false} NothingReceivedIsNothing(receipts: seq<GoodsReceipt>, number: int)
    requires NothingReceived(receipts, number)
    ensures QuantityReceived(receipts, number) <= 0.0
  {
    if receipts != [] {
      var front := receipts[..|receipts| - 1];
      assert forall i :: 0 <= i < |front| ==> front[i] == receipts[i];
      NothingReceivedIsNothing(front, number);
    }
  }

  // ---- one line -----------------------------------------------------------------------

  datatype LineMatch = LineMatch(
    invoiceLine: int,
    orderLine: Option<int>,
    expected: Option<real>,
    variance: Option<real>,
    limit: Option<real>,
    withinTolerance: bool,
    matched: bool)

  /** The invoiced quantity at the order's price. */
  function Priced(line: InvoiceLine, orderLine: POLine): real {
    line.quantity * orderLine.unitPrice
  }

  function ExpectedValue(line: InvoiceLine, orderLine: POLine): real {
    Quantize(Priced(line, orderLine))
  }

  function LineVariance(line: InvoiceLine, orderLine: POLine): real {
    Quantize(line.lineTotal - ExpectedValue(line, orderLine))
  }

  predicate PriceWithin(line: InvoiceLine, orderLine: POLine) {
    Abs(LineVariance(line, orderLine)) <= ToleranceLimit(orderLine)
  }

  predicate QuantityWithin(order: PurchaseOrder, line: InvoiceLine, orderLine: POLine) {
    var (evidenced, quantity) := ReceiptEvidence(order, orderLine);
    evidenced && line.quantity <= quantity
  }

  function Failure(category: Category, rule: string): seq<ExceptionRecord> {
    [ExceptionRecord(category, rule, true)]
  }

  function MatchLine(line: InvoiceLine, orderLine: POLine, order: PurchaseOrder): (LineMatch, seq<ExceptionRecord>) {
    var (evidenced, quantity) := ReceiptEvidence(order, orderLine);
    (LineMatch(
       line.lineNumber, Some(orderLine.lineNumber), Some(ExpectedValue(line, orderLine)),
       Some(LineVariance(line, orderLine)), Some(ToleranceLimit(orderLine)),
       PriceWithin(line, orderLine) && QuantityWithin(order, line, orderLine), true),
     (if PriceWithin(line, orderLine) then []
      else Failure(PriceVariance, "three_way_match.line_within_tolerance")) +
     (if !evidenced then Failure(MissingReceipt, "three_way_match.line_receipt_recorded")
      else if line.quantity > quantity
      then Failure(QuantityVariance, "three_way_match.quantity_not_above_received")
      else []))
  }

  /** One invoice line against the order, whether or not it cites a line of it. */
  function LineResult(order: PurchaseOrder, line: InvoiceLine): (LineMatch, seq<ExceptionRecord>) {
    var cited := Cited(order, line);
    if cited.None? then
      (LineMatch(line.lineNumber, line.poLineNumber, None, None, None, false, false),
       Failure(MissingPo, "three_way_match.line_maps_to_purchase_order_line"))
    else MatchLine(line, order.lines[cited.value], order)
  }

  function LineMatches(order: PurchaseOrder, lines: seq<InvoiceLine>): seq<LineMatch> {
    seq(|lines|, i requires 0 <= i < |lines| => LineResult(order, lines[i]).0)
  }

  function LineExceptions(order: PurchaseOrder, lines: seq<InvoiceLine>): seq<ExceptionRecord> {
    if lines == [] then []
    else LineExceptions(order, lines[..|lines| - 1]) + LineResult(order, lines[|lines| - 1]).1
  }

  function ExpectedOf(order: PurchaseOrder, line: InvoiceLine): real {
    var cited := Cited(order, line);
    if cited.None? then 0.0 else ExpectedValue(line, order.lines[cited.value])
  }

  /** The sum of the rounded expected values of the lines that cite the order. */
  function ExpectedTotal(order: PurchaseOrder, lines: seq<InvoiceLine>): real {
    if lines == [] then 0.0
    else ExpectedTotal(order, lines[..|lines| - 1]) + ExpectedOf(order, lines[|lines| - 1])
  }

  predicate AnyUnmapped(order: PurchaseOrder, lines: seq<InvoiceLine>) {
    exists i :: 0 <= i < |lines| && Cited(order, lines[i]).None?
  }

  // ---- the document -------------------------------------------------------------------

  datatype MatchResult = MatchResult(
    poPresent: bool,
    receiptPresent: bool,
    lineLevel: bool,
    allWithinTolerance: bool,
    currencyConsistent: bool,
    lineMatches: seq<LineMatch>,
    exceptions: seq<ExceptionRecord>)

  predicate IsMissingReceipt(e: ExceptionRecord) {
    e.category.MissingReceipt?
  }

  predicate LineLevel(invoice: Invoice, order: PurchaseOrder) {
    invoice.lines != [] && invoice.currency == order.currency
  }

  /** What is recorded before any line is looked at: approval, currency, receipts. */
  function OrderExceptions(invoice: Invoice, order: PurchaseOrder): seq<ExceptionRecord> {
    (if order.isApproved then [] else Failure(OtherControlRisk, "three_way_match.purchase_order_approved")) +
    (if invoice.currency == order.currency then []
     else [ExceptionRecord(OtherControlRisk, "three_way_match.currency_agreement",
                           !order.permitsCurrencyConversion)]) +
    (if order.receipts != [] || Any(order.lines, ConfirmedService) then []
     else Failure(MissingReceipt, "three_way_match.receipt_recorded"))
  }

  /** What the document net is compared with. */
  function ExpectedNet(invoice: Invoice, order: PurchaseOrder): real {
    if LineLevel(invoice, order) then ExpectedTotal(order, invoice.lines) else Quantize(order.totalValue)
  }

  function DocumentVariance(invoice: Invoice, order: PurchaseOrder): real {
    Quantize(invoice.netAmount - ExpectedNet(invoice, order))
  }

  predicate TotalWithin(invoice: Invoice, order: PurchaseOrder) {
    Abs(DocumentVariance(invoice, order)) <= DocumentLimit(order)
  }

  function TotalExceptions(invoice: Invoice, order: PurchaseOrder): seq<ExceptionRecord> {
    if invoice.currency != order.currency then []
    else if LineLevel(invoice, order) && AnyUnmapped(order, invoice.lines) then []
    else if TotalWithin(invoice, order) then []
    else Failure(PriceVariance, "three_way_match.document_total_within_tolerance")
  }

  function MatchExceptions(invoice: Invoice, order: Option<PurchaseOrder>): seq<ExceptionRecord> {
    if order.None? then Failure(MissingPo, "three_way_match.purchase_order_present")
    else
      OrderExceptions(invoice, order.value) +
      (if LineLevel(invoice, order.value) then LineExceptions(order.value, invoice.lines) else []) +
      TotalExceptions(invoice, order.value)
  }

  lemma ExpectedValueIsWhole(line: InvoiceLine, orderLine: POLine)
    ensures WholeCents(ExpectedValue(line, orderLine))
    ensures Quantize(ExpectedValue(line, orderLine)) == ExpectedValue(line, orderLine)
  {
    hide Priced;
    QuantizeTwice(Priced(line, orderLine));
  }

  lemma {:induction false} ExpectedTotalIsWhole(order: PurchaseOrder, lines: seq<InvoiceLine>)
    ensures WholeCents(ExpectedTotal(order, lines))
  {
    if lines == [] {
      WholeCentsOf(0);
    } else {
      var line := lines[|lines| - 1];
      ExpectedTotalIsWhole(order, lines[..|lines| - 1]);
      WholeCentsOf(0);
      if Cited(order, line).Some? {
        ExpectedValueIsWhole(line, order.lines[Cited(order, line).value]);
      }
      WholeCentsSum(ExpectedTotal(order, lines[..|lines| - 1]), ExpectedOf(order, line));
    }
  }

  /** The running total is a `Money`, rounded again at every addition; since every summand is in whole
      cents, that second rounding never changes anything. */
  lemma RoundingTheRunningTotal(order: PurchaseOrder, lines: seq<InvoiceLine>, i: nat, orderLine: POLine)
    requires i < |lines| && Cited(order, lines[i]).Some? && orderLine == order.lines[Cited(order, lines[i]).value]
    ensures Quantize(ExpectedTotal(order, lines[..i]) + Quantize(ExpectedValue(lines[i], orderLine))) ==
      ExpectedTotal(order, lines[..i + 1])
  {
    hide Quantize;
    assert lines[..i + 1][..i] == lines[..i] && lines[..i + 1][i] == lines[i];
    assert ExpectedTotal(order, lines[..i + 1]) ==
      ExpectedTotal(order, lines[..i]) + ExpectedValue(lines[i], orderLine);
    ExpectedTotalIsWhole(order, lines[..i + 1]);
    ExpectedValueIsWhole(lines[i], orderLine);
    assert ExpectedTotal(order, lines[..i]) + Quantize(ExpectedValue(lines[i], orderLine)) ==
      ExpectedTotal(order, lines[..i + 1]);
    QuantizeFixesCents(ExpectedTotal(order, lines[..i + 1]));
  }

  /** The pass over the invoice lines. */
  method MatchLines(order: PurchaseOrder, lines: seq<InvoiceLine>)
    returns (matches: seq<LineMatch>, exceptions: seq<ExceptionRecord>, expected: real, anyUnmatched: bool)
    ensures matches == LineMatches(order, lines)
    ensures exceptions == LineExceptions(order, lines)
    ensures expected == ExpectedTotal(order, lines)
    ensures anyUnmatched == AnyUnmapped(order, lines)
  {
    hide Quantize, MatchLine;
    matches, exceptions, expected, anyUnmatched := [], [], 0.0, false;
    var i := 0;
    while i < |lines|
      invariant 0 <= i <= |lines|
      invariant matches == LineMatches(order, lines[..i])
      invariant exceptions == LineExceptions(order, lines[..i])
      invariant expected == ExpectedTotal(order, lines[..i])
      invariant anyUnmatched == AnyUnmapped(order, lines[..i])
    {
      var line := lines[i];
      assert lines[..i + 1][..i] == lines[..i];
      AnyUnmappedGrows(order, lines, i);
      var cited := Cited(order, line);
      if cited.None? {
        anyUnmatched := true;
      } else {
        var orderLine := order.lines[cited.value];
        RoundingTheRunningTotal(order, lines, i, orderLine);
        expected := Quantize(expected + Quantize(ExpectedValue(line, orderLine)));
      }
      var (lineMatch, found) := LineResult(order, line);
      matches := matches + [lineMatch];
      exceptions := exceptions + found;
      i := i + 1;
    }
    assert lines[..i] == lines;
  }

  method ThreeWayMatch(invoice: Invoice, order: Option<PurchaseOrder>) returns (result: MatchResult)
    ensures result.exceptions == MatchExceptions(invoice, order)
    ensures result.allWithinTolerance <==> !Any(result.exceptions, IsBlocking)
    ensures order.Some? ==> (result.receiptPresent <==> !Any(result.exceptions, IsMissingReceipt))
    ensures result.poPresent == order.Some?
    ensures result.lineLevel <==> order.Some? && LineLevel(invoice, order.value)
    ensures result.currencyConsistent <==> order.Some? && invoice.currency == order.value.currency
    ensures result.lineMatches == if result.lineLevel then LineMatches(order.value, invoice.lines) else []
    ensures forall i, k :: result.lineLevel && Undelivered(order.value, invoice.lines, i, k) ==>
      UNDELIVERED in result.exceptions
    ensures forall i, k :: result.lineLevel && InvoicedBeyond(order.value, invoice.lines, i, k) ==>
      INVOICED_BEYOND in result.exceptions
  {
    hide Quantize, LineMatches, LineExceptions, ExpectedTotal, DocumentLimit, AnyUnmapped;
    if order.None? {
      var missing := Failure(MissingPo, "three_way_match.purchase_order_present");
      assert IsBlocking(missing[0]);
      return MatchResult(false, false, false, false, false, [], missing);
    }
    var po := order.value;
    var exceptions: seq<ExceptionRecord> := [];
    if !po.isApproved {
      exceptions := exceptions + Failure(OtherControlRisk, "three_way_match.purchase_order_approved");
    }
    var consistent := invoice.currency == po.currency;
    if !consistent {
      exceptions := exceptions + [ExceptionRecord(
        OtherControlRisk, "three_way_match.currency_agreement", !po.permitsCurrencyConversion)];
    }
    if po.receipts == [] && !Any(po.lines, ConfirmedService) {
      exceptions := exceptions + Failure(MissingReceipt, "three_way_match.receipt_recorded");
    }
    assert exceptions == OrderExceptions(invoice, po);

    var lineLevel := invoice.lines != [] && consistent;
    var matches: seq<LineMatch>, found: seq<ExceptionRecord>, expected, anyUnmatched := [], [], 0.0, false;
    if lineLevel {
      matches, found, expected, anyUnmatched := MatchLines(po, invoice.lines);
    }
    exceptions := exceptions + found;

    if consistent && !(lineLevel && anyUnmatched) {
      var expectedNet := if lineLevel then expected else Quantize(po.totalValue);
      if Abs(Quantize(invoice.netAmount - expectedNet)) > DocumentLimit(po) {
        exceptions := exceptions + Failure(PriceVariance, "three_way_match.document_total_within_tolerance");
      }
    }
    result := MatchResult(
      true, !Any(exceptions, IsMissingReceipt), lineLevel, !Any(exceptions, IsBlocking), consistent, matches,
      exceptions);
    if lineLevel {
      assert forall e :: e in LineExceptions(po, invoice.lines) ==> e in exceptions;
      UndeliveredIsRecorded(po, invoice.lines);
    }
  }

  /** Invoice line `i` names order line `k`, the first that carries the number. */
  predicate Cites(order: PurchaseOrder, lines: seq<InvoiceLine>, i: int, k: int) {
    0 <= i < |lines| && 0 <= k < |order.lines| && lines[i].poLineNumber == Some(order.lines[k].lineNumber) &&
    forall j :: 0 <= j < k ==> order.lines[j].lineNumber != order.lines[k].lineNumber
  }

  lemma CitesIsCited(order: PurchaseOrder, lines: seq<InvoiceLine>, i: int, k: int)
    requires Cites(order, lines, i, k)
    ensures Cited(order, lines[i]) == Some(k)
  {
  }

  lemma {:induction false} LineExceptionsHold(order: PurchaseOrder, lines: seq<InvoiceLine>, i: int, e: ExceptionRecord)
    requires 0 <= i < |lines| && e in LineResult(order, lines[i]).1
    ensures e in LineExceptions(order, lines)
  {
    hide LineResult;
    var last := |lines| - 1;
    if i < last {
      LineExceptionsHold(order, lines[..last], i, e);
    }
  }

  const UNDELIVERED: ExceptionRecord :=
    ExceptionRecord(MissingReceipt, "three_way_match.line_receipt_recorded", true)

  const INVOICED_BEYOND: ExceptionRecord :=
    ExceptionRecord(QuantityVariance, "three_way_match.quantity_not_above_received", true)

  /** Invoice line `i` names an order line, not for a service, under whose number nothing was received. */
  predicate Undelivered(order: PurchaseOrder, lines: seq<InvoiceLine>, i: int, k: int) {
    Cites(order, lines, i, k) && !order.lines[k].lineType.Service? &&
    NothingReceived(order.receipts, order.lines[k].lineNumber)
  }

  /** Invoice line `i` asks for more than was received under the number of the order line it names. */
  predicate InvoicedBeyond(order: PurchaseOrder, lines: seq<InvoiceLine>, i: int, k: int) {
    Cites(order, lines, i, k) &&
    0.0 < QuantityReceived(order.receipts, order.lines[k].lineNumber) < lines[i].quantity
  }

  /** A cited line without a delivery, or invoiced beyond it, is on record. */
  lemma UndeliveredIsRecorded(order: PurchaseOrder, lines: seq<InvoiceLine>)
    ensures forall i, k :: Undelivered(order, lines, i, k) ==> UNDELIVERED in LineExceptions(order, lines)
    ensures forall i, k :: InvoicedBeyond(order, lines, i, k) ==> INVOICED_BEYOND in LineExceptions(order, lines)
  {
    hide PriceWithin, NothingReceived, LineExceptions, QuantityReceived;
    forall i, k | Undelivered(order, lines, i, k) ensures UNDELIVERED in LineExceptions(order, lines) {
      CitesIsCited(order, lines, i, k);
      NothingReceivedIsNothing(order.receipts, order.lines[k].lineNumber);
      LineExceptionsHold(order, lines, i, UNDELIVERED);
    }
    forall i, k | InvoicedBeyond(order, lines, i, k) ensures INVOICED_BEYOND in LineExceptions(order, lines) {
      CitesIsCited(order, lines, i, k);
      LineExceptionsHold(order, lines, i, INVOICED_BEYOND);
    }
  }

  lemma AnyUnmappedGrows(order: PurchaseOrder, lines: seq<InvoiceLine>, i: nat)
    requires i < |lines|
    ensures AnyUnmapped(order, lines[..i + 1]) <==> AnyUnmapped(order, lines[..i]) || Cited(order, lines[i]).None?
  {
    var shorter, longer := lines[..i], lines[..i + 1];
    forall j | 0 <= j < i ensures shorter[j] == longer[j] {
    }
    if Cited(order, lines[i]).None? {
      assert Cited(order, longer[i]).None?;
    }
    if AnyUnmapped(order, shorter) {
      var j :| 0 <= j < |shorter| && Cited(order, shorter[j]).None?;
      assert Cited(order, longer[j]).None?;
    }
  }
}
