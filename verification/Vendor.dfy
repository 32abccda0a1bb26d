/** Vendor master controls (src/ap_agent/domain/rules/vendor.py). */
module Vendor {
  import opened Prelude
  import opened Domain

  const NEW_VENDOR_THRESHOLD_DAYS: int := 30

  datatype VendorCheck = VendorCheck(
    higherRisk: bool,
    requiresControlEscalation: bool,
    nameMismatch: bool,
    awaitingFirstPayment: bool,
    exceptions: seq<ExceptionRecord>)

  function AgeInDays(vendor: VendorRecord, asOf: int): int {
    var days := (asOf - vendor.createdAt) / DAY;
    if days < 0 then 0 else days
  }

  /** Would this be the first settled payment since the bank details changed? */
  predicate AwaitingFirstPayment(vendor: VendorRecord, history: seq<HistoryMatch>) {
    vendor.bankDetailsChangedAt.Some? &&
    !exists i :: 0 <= i < |history| &&
      history[i].vendorId == vendor.vendorId && history[i].IsSettled() &&
      history[i].invoiceDate >= DateOf(vendor.bankDetailsChangedAt.value)
  }

  function VendorException(rule: string): seq<ExceptionRecord> {
    [ExceptionRecord(VendorBlock, rule, true)]
  }

  /** `sameName` is the outcome of comparing the two names with case folded and spaces collapsed. */
  function StatusCheck(
      vendor: Option<VendorRecord>, sameName: bool, asOf: int, history: seq<HistoryMatch>): VendorCheck
  {
    match vendor
    case None =>
      VendorCheck(false, false, false, false, VendorException("vendor_status_check.record_exists"))
    case Some(v) =>
      var awaiting := AwaitingFirstPayment(v, history);
      VendorCheck(
        v.status.SanctionsReview? || awaiting || AgeInDays(v, asOf) < NEW_VENDOR_THRESHOLD_DAYS ||
          v.isOverseasAccount || v.hasRiskFlags,
        v.status.SanctionsReview? || v.hasRiskFlags,
        !sameName,
        awaiting,
        (if v.status.Active? then [] else VendorException("vendor_status_check.status_active")) +
        (if v.onPaymentHold then VendorException("vendor_status_check.not_on_payment_hold") else []) +
        (if awaiting
         then [ExceptionRecord(Category.BankChange, "vendor_status_check.first_payment_after_bank_change", true)]
         else []) +
        (if sameName then []
         else [ExceptionRecord(OtherControlRisk, "vendor_status_check.legal_name_agreement", false)]))
  }

  /** The exceptions that stop a decision when the stored vendor is checked again at decision time: every
      blocking one except a bank change. */
  predicate StopsDecision(e: ExceptionRecord) {
    e.blocking && !e.category.BankChange?
  }

  /** Whether a stored vendor record can never pass the check made at decision time. */
  predicate VendorBlocks(vendor: Option<VendorRecord>) {
    vendor.None? || !vendor.value.status.Active? || vendor.value.onPaymentHold
  }

  /** Checking the stored vendor again gives the same verdict at every moment, for every history and
      every name comparison: only the bank-change exception can come and go, and it is not counted. */
  lemma RevalidationIgnoresTheClock(
      vendor: Option<VendorRecord>, sameName: bool, asOf: int, history: seq<HistoryMatch>)
    ensures Any(StatusCheck(vendor, sameName, asOf, history).exceptions, StopsDecision) <==> VendorBlocks(vendor)
  {
    var found := StatusCheck(vendor, sameName, asOf, history).exceptions;
    if VendorBlocks(vendor) {
      assert StopsDecision(found[0]);
    } else {
      forall i | 0 <= i < |found| ensures !StopsDecision(found[i]) {
      }
    }
  }

  /** A vendor is new for exactly the thirty days of twenty-four hours that follow its creation; one whose
      creation lies in the future is new as well. */
  lemma NewVendorExactlyWhen(vendor: VendorRecord, asOf: int)
    ensures AgeInDays(vendor, asOf) < NEW_VENDOR_THRESHOLD_DAYS <==>
      asOf < vendor.createdAt + NEW_VENDOR_THRESHOLD_DAYS * DAY
  {
    var elapsed := asOf - vendor.createdAt;
    assert elapsed == elapsed / DAY * DAY + elapsed % DAY;
  }

  // ---- what the check says, by the fields of the record ---------------------------------

  /** No paid or posted record of the vendor is dated on or after the day its bank details changed. */
  predicate UnpaidSinceBankChange(v: VendorRecord, history: seq<HistoryMatch>) {
    v.bankDetailsChangedAt.Some? &&
    forall i ::
      0 <= i < |history| && history[i].vendorId == v.vendorId &&
      (history[i].status.Paid? || history[i].status.Posted?) ==>
        history[i].invoiceDate < v.bankDetailsChangedAt.value / 86400
  }

  /** Paid overseas, flagged, under sanctions review, less than thirty days old, or unpaid since a change of
      its bank details. */
  predicate RiskyVendor(v: VendorRecord, asOf: int, history: seq<HistoryMatch>) {
    v.isOverseasAccount || v.hasRiskFlags || v.status.SanctionsReview? || asOf < v.createdAt + 30 * 86400 ||
    UnpaidSinceBankChange(v, history)
  }

  lemma AwaitingMeansUnpaid(v: VendorRecord, history: seq<HistoryMatch>)
    ensures AwaitingFirstPayment(v, history) <==> UnpaidSinceBankChange(v, history)
  {
  }

  /** Higher risk and control escalation, field by field. */
  lemma RiskInFields(vendor: Option<VendorRecord>, sameName: bool, asOf: int, history: seq<HistoryMatch>)
    ensures StatusCheck(vendor, sameName, asOf, history).higherRisk <==>
      vendor.Some? && RiskyVendor(vendor.value, asOf, history)
    ensures StatusCheck(vendor, sameName, asOf, history).requiresControlEscalation <==>
      vendor.Some? && (vendor.value.hasRiskFlags || vendor.value.status.SanctionsReview?)
  {
    hide AwaitingFirstPayment, UnpaidSinceBankChange;
    if vendor.Some? {
      AwaitingMeansUnpaid(vendor.value, history);
      NewVendorExactlyWhen(vendor.value, asOf);
    }
  }

  /** Each rule is on record exactly when it is broken, and only the name rule does not block. */
  lemma VendorRecordsExactly(vendor: Option<VendorRecord>, sameName: bool, asOf: int, history: seq<HistoryMatch>)
    ensures StatusCheck(vendor, sameName, asOf, history).exceptions ==
      if vendor.None? then [ExceptionRecord(VendorBlock, "vendor_status_check.record_exists", true)]
      else
        (if vendor.value.status == Active then []
         else [ExceptionRecord(VendorBlock, "vendor_status_check.status_active", true)]) +
        (if vendor.value.onPaymentHold
         then [ExceptionRecord(VendorBlock, "vendor_status_check.not_on_payment_hold", true)] else []) +
        (if UnpaidSinceBankChange(vendor.value, history)
         then [ExceptionRecord(Category.BankChange, "vendor_status_check.first_payment_after_bank_change", true)]
         else []) +
        (if sameName then []
         else [ExceptionRecord(OtherControlRisk, "vendor_status_check.legal_name_agreement", false)])
  {
    hide AwaitingFirstPayment, UnpaidSinceBankChange;
    if vendor.Some? {
      AwaitingMeansUnpaid(vendor.value, history);
    }
  }
}
