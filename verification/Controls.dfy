/** The three small controls of reconciliation that stand beside matching, duplicates and the vendor master
    (src/ap_agent/domain/rules/payment_instructions.py, tax.py, non_po.py). */
module Controls {
  import opened Prelude
  import opened Domain
  import Money

  const TAX_RATE_PERCENT: real := 10.0
  const TAX_TOLERANCE: real := 0.05
  const POLICY_CURRENCY: string := "AUD"
  const REPEAT_WINDOW_DAYS: int := 90

  /** Account tails asserted in the case's texts against the verified one. */
  function InstructionExceptions(asserted: seq<string>, master: Option<string>): seq<ExceptionRecord> {
    if asserted == [] then []
    else if master.None? then
      [ExceptionRecord(Category.BankChange, "payment_instructions.master_available_for_comparison", true)]
    else if exists i :: 0 <= i < |asserted| && asserted[i] != master.value then
      [ExceptionRecord(Category.BankChange, "payment_instructions.match_vendor_master", true)]
    else []
  }

  function ExpectedTax(net: real): real {
    Money.Quantize(net * TAX_RATE_PERCENT / 100.0)
  }

  predicate PermitsFreight(line: POLine) {
    line.permitsFreight
  }

  /** Only an overstated or an unattributable tax is queried, and a tax query never blocks. */
  function TaxExceptions(invoice: Invoice, taxSeparated: bool, order: Option<PurchaseOrder>): seq<ExceptionRecord> {
    if taxSeparated then
      if invoice.taxAmount != 0.0 &&
         Money.Quantize(invoice.taxAmount - ExpectedTax(invoice.netAmount)) > TAX_TOLERANCE
      then [ExceptionRecord(TaxQuery, "tax.stated_tax_does_not_exceed_the_configured_rate", false)]
      else []
    else if order.None? || order.value.currency != invoice.currency || invoice.currency != POLICY_CURRENCY then []
    else if Money.Quantize(invoice.netAmount - order.value.totalValue) <= 0.0 ||
            Any(order.value.lines, PermitsFreight) then []
    else [ExceptionRecord(TaxQuery, "tax.invoice_separates_its_tax", false)]
  }

  predicate NamesOrder(reference: Option<string>) {
    reference.Some? && reference.value != ""
  }

  /** A second invoice from one vendor without an order within ninety days is reported, not blocked. */
  function NonPoExceptions(invoice: Invoice, history: seq<HistoryMatch>): seq<ExceptionRecord> {
    if !NamesOrder(invoice.poReference) &&
       exists i :: 0 <= i < |history| && history[i].vendorId == invoice.vendorId &&
                   !NamesOrder(history[i].poReference) &&
                   invoice.invoiceDate - REPEAT_WINDOW_DAYS <= history[i].invoiceDate <= invoice.invoiceDate
    then [ExceptionRecord(OtherControlRisk, "non_po.repeated_use_within_window", false)]
    else []
  }

  // ---- when the three speak --------------------------------------------------------------

  /** Account tails are objected to exactly when one of them is not the vendor master's verified tail. */
  lemma InstructionsObjectExactlyWhen(asserted: seq<string>, master: Option<string>)
    ensures InstructionExceptions(asserted, master) == [] <==> forall tail :: tail in asserted ==> master == Some(tail)
    ensures InstructionExceptions(asserted, master) != [] ==>
      InstructionExceptions(asserted, master) ==
        [ExceptionRecord(Category.BankChange,
           if master.None? then "payment_instructions.master_available_for_comparison"
           else "payment_instructions.match_vendor_master", true)]
  {
    if asserted != [] && (forall tail :: tail in asserted ==> master == Some(tail)) {
      assert asserted[0] in asserted;
      assert forall i :: 0 <= i < |asserted| ==> asserted[i] in asserted;
    }
  }

  /** A stated tax is queried exactly when it is not zero and exceeds a tenth of the net by more than five
      cents, after rounding. */
  lemma StatedTaxIsQueriedExactlyWhen(invoice: Invoice, order: Option<PurchaseOrder>)
    ensures TaxExceptions(invoice, true, order) ==
      if invoice.taxAmount != 0.0 &&
         Money.Quantize(invoice.taxAmount - Money.Quantize(invoice.netAmount / 10.0)) > 0.05
      then [ExceptionRecord(TaxQuery, "tax.stated_tax_does_not_exceed_the_configured_rate", false)]
      else []
  {
    hide Money.Quantize;
    assert invoice.netAmount * 10.0 / 100.0 == invoice.netAmount / 10.0;
  }

  /** A gross-only invoice is queried exactly when it and its order are in Australian dollars, it exceeds the
      order by a cent or more, and no order line permits the freight that could explain it. */
  lemma HiddenTaxIsQueriedExactlyWhen(invoice: Invoice, order: Option<PurchaseOrder>)
    ensures TaxExceptions(invoice, false, order) ==
      if order.Some? && order.value.currency == "AUD" && invoice.currency == "AUD" &&
         Money.Quantize(invoice.netAmount - order.value.totalValue) > 0.0 &&
         (forall i :: 0 <= i < |order.value.lines| ==> !order.value.lines[i].permitsFreight)
      then [ExceptionRecord(TaxQuery, "tax.invoice_separates_its_tax", false)]
      else []
  {
    hide Money.Quantize;
  }

  /** Repeated purchasing without an order is reported exactly when the invoice names none and another one of
      the same vendor that names none is dated within the ninety days before it. */
  lemma RepeatIsReportedExactlyWhen(invoice: Invoice, history: seq<HistoryMatch>)
    ensures NonPoExceptions(invoice, history) ==
      if (invoice.poReference.None? || invoice.poReference.value == "") &&
         (exists i :: 0 <= i < |history| && history[i].vendorId == invoice.vendorId &&
            (history[i].poReference.None? || history[i].poReference.value == "") &&
            0 <= invoice.invoiceDate - history[i].invoiceDate <= 90)
      then [ExceptionRecord(OtherControlRisk, "non_po.repeated_use_within_window", false)]
      else []
  {
  }
}
