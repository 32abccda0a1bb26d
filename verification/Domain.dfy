/** The closed vocabularies of the accounts-payable agent and the records its rules read.

    Monetary amounts, quantities and prices are exact decimals in the program; here they are `real`.
    A calendar date is an integer day number whose day 0 is a Monday; a moment is an integer count of
    some unit of which there are `DAY` in a day, all moments being in UTC. */
module Domain {
  import opened Prelude

  // ---- closed vocabularies ------------------------------------------------------------

  datatype Outcome =
    | ApproveForPosting
    | HoldForInformation
    | RejectDuplicate
    | RejectInvalid
    | EscalateControlReview
  {
    predicate IsConsequential() {
      ApproveForPosting? || RejectDuplicate? || RejectInvalid?
    }
  }

  datatype Category =
    | MissingPo
    | MissingReceipt
    | PriceVariance
    | QuantityVariance
    | DuplicateRisk
    | VendorBlock
    | BankChange
    | AuthorityGap
    | TaxQuery
    | OtherControlRisk

  datatype VendorStatus = Active | Blocked | Dormant | SanctionsReview | PendingVerification

  datatype Role =
    | CostCentreManager
    | DepartmentDirector
    | ExecutiveDirector
    | Cfo
    | Ceo
    | FinancialControl

  datatype LineType = Goods | Service | Freight

  datatype HistoryStatus = Paid | Posted | WasHeld | WasRejected

  datatype Phase =
    | Intake
    | RetrievePolicy
    | GatherEvidence
    | Reconcile
    | AssessRisk
    | Recommend
    | AwaitingApproval
    | ExecuteDecision
    | Completed
    | Held
    | Failed
  {
    predicate IsTerminal() {
      Completed? || Held? || Failed?
    }
  }

  datatype RunStatus = Running | StatusAwaitingApproval | StatusCompleted | StatusHeld | StatusFailed

  datatype ApprovalStatus = Pending | Approved | Rejected

  // ---- moments and dates --------------------------------------------------------------

  const DAY: int := 86400

  function DateOf(moment: int): int {
    moment / DAY
  }

  // ---- evidence -----------------------------------------------------------------------

  /** What is kept of an exception record: the category, the failed rule, and whether it blocks. */
  datatype ExceptionRecord = ExceptionRecord(category: Category, failedRule: string, blocking: bool)

  predicate IsBlocking(e: ExceptionRecord) {
    e.blocking
  }

  datatype VendorRecord = VendorRecord(
    vendorId: string,
    legalName: string,
    status: VendorStatus,
    onPaymentHold: bool,
    bankDetailsChangedAt: Option<int>,
    isOverseasAccount: bool,
    hasRiskFlags: bool,
    createdAt: int,
    lastUpdatedAt: int,
    createdBy: Option<string>)

  datatype POLine = POLine(
    lineNumber: int,
    lineType: LineType,
    quantityOrdered: real,
    unitPrice: real,
    lineValue: real,
    permitsFreight: bool,
    serviceCompletionConfirmed: bool)

  datatype GoodsReceipt = GoodsReceipt(poLineNumber: int, quantityReceived: real, receiptedBy: string)

  datatype PurchaseOrder = PurchaseOrder(
    currency: string,
    totalValue: real,
    isApproved: bool,
    permitsCurrencyConversion: bool,
    paymentTermsDays: Option<int>,
    lines: seq<POLine>,
    receipts: seq<GoodsReceipt>)

  datatype HistoryMatch = HistoryMatch(
    vendorId: string,
    reference: string,
    currency: string,
    grossAmount: real,
    invoiceDate: int,
    status: HistoryStatus,
    poReference: Option<string>,
    attachmentHashes: set<string>)
  {
    predicate IsSettled() {
      status.Paid? || status.Posted?
    }
  }

  datatype DelegationRecord = DelegationRecord(
    delegationId: string,
    delegateId: string,
    delegateRole: Option<Role>,
    scopeTokens: set<string>,
    startsOn: int,
    endsOn: int,
    revoked: bool)
  {
    predicate IsValidAt(day: int) {
      !revoked && startsOn <= day <= endsOn
    }
  }

  datatype InvoiceLine = InvoiceLine(
    lineNumber: int,
    quantity: real,
    unitPrice: real,
    lineTotal: real,
    poLineNumber: Option<int>)

  datatype Invoice = Invoice(
    reference: string,
    vendorId: string,
    vendorName: string,
    invoiceDate: int,
    currency: string,
    netAmount: real,
    taxAmount: real,
    grossAmount: real,
    poReference: Option<string>,
    lines: seq<InvoiceLine>,
    attachmentHashes: set<string>)

  // ---- the processing request ---------------------------------------------------------

  datatype Request = Request(
    caseId: string,
    invoiceReference: string,
    vendor: string,
    vendorId: Option<string>,
    amount: real,
    currency: string,
    netAmount: Option<real>,
    taxAmount: Option<real>,
    invoiceDate: Option<int>,
    poReference: Option<string>,
    paymentTermsDays: Option<int>,
    requestedBy: Option<string>,
    costCentreTokens: set<string>,
    lines: seq<InvoiceLine>,
    attachmentHashes: set<string>)
  {
    /** An absent and an empty requester are the same thing: `if not requested_by`. */
    predicate NamesRequester() {
      requestedBy.Some? && requestedBy.value != ""
    }

    function MasterVendorId(): string {
      if vendorId.Some? && vendorId.value != "" then vendorId.value else vendor
    }

    predicate TaxSeparated() {
      netAmount.Some? || taxAmount.Some?
    }

    function Net(): real {
      if netAmount.Some? then netAmount.value
      else if taxAmount.Some? then amount - taxAmount.value
      else amount
    }

    function Tax(): real {
      if taxAmount.Some? then taxAmount.value
      else if netAmount.Some? then amount - netAmount.value
      else 0.0
    }

    /** The invoice under assessment. An absent invoice date is replaced by today's date. */
    function ToInvoice(today: int): Invoice {
      Invoice(
        invoiceReference, MasterVendorId(), vendor,
        if invoiceDate.Some? then invoiceDate.value else today,
        currency, Net(), Tax(), amount, poReference, lines, attachmentHashes)
    }
  }

  /** The three amounts of the derived invoice always agree, whichever components were supplied, for a
      request that passed its own component check. */
  lemma InvoiceComponentsAgree(r: Request, today: int)
    requires r.netAmount.Some? && r.taxAmount.Some? ==> r.netAmount.value + r.taxAmount.value == r.amount
    ensures r.ToInvoice(today).netAmount + r.ToInvoice(today).taxAmount == r.ToInvoice(today).grossAmount == r.amount
    ensures r.netAmount.Some? ==> r.ToInvoice(today).netAmount == r.netAmount.value
    ensures r.taxAmount.Some? ==> r.ToInvoice(today).taxAmount == r.taxAmount.value
    ensures r.netAmount.None? && r.taxAmount.None? ==> r.ToInvoice(today).netAmount == r.amount
  {
  }

  /** What else the derived invoice shows: the vendor's identifier where it was given and is not empty, its
      name otherwise; the invoice date where it was given, today otherwise; the rest as submitted. */
  lemma InvoiceShowsTheRequest(r: Request, today: int)
    ensures var invoice := r.ToInvoice(today);
      invoice.reference == r.invoiceReference && invoice.currency == r.currency && invoice.lines == r.lines &&
      invoice.poReference == r.poReference && invoice.attachmentHashes == r.attachmentHashes &&
      (invoice.vendorId == match r.vendorId
                           case Some(id) => if id == "" then r.vendor else id
                           case None => r.vendor) &&
      (invoice.invoiceDate == match r.invoiceDate
                              case Some(date) => date
                              case None => today) &&
      (r.TaxSeparated() <==> !(r.netAmount.None? && r.taxAmount.None?))
  {
  }

  /** Three of the five outcomes have consequences; a hold and an escalation have none. */
  lemma ConsequencesOf(outcome: Outcome)
    ensures outcome.IsConsequential() <==> outcome !in {HoldForInformation, EscalateControlReview}
  {
  }

  // ---- ASCII case folding -------------------------------------------------------------

  function UpperChar(c: char): char {
    if 'a' <= c <= 'z' then ((c as int) - 32) as char else c
  }

  function Upper(s: string): (r: string)
    ensures |r| == |s|
  {
    seq(|s|, i requires 0 <= i < |s| => UpperChar(s[i]))
  }
}
