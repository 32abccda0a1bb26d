/** Segregation of duties (src/ap_agent/domain/rules/segregation.py). */
module Segregation {
  import opened Prelude
  import opened Domain
  import opened BusinessDays

  const COOLING_OFF_BUSINESS_DAYS: nat := 5
  const THREE_PARTY_THRESHOLD: real := 25000.0

  function Receipters(order: Option<PurchaseOrder>): set<string> {
    match order
    case None => {}
    case Some(po) => set i | 0 <= i < |po.receipts| :: po.receipts[i].receiptedBy
  }

  /** Strictly above the threshold. */
  predicate ThreePartyApplies(grossAmount: real) {
    grossAmount > THREE_PARTY_THRESHOLD
  }

  function Conflict(rule: string): seq<ExceptionRecord> {
    [ExceptionRecord(OtherControlRisk, rule, true)]
  }

  function CheckReconciliationTime(
      order: Option<PurchaseOrder>, grossAmount: real, requestedBy: Option<string>): seq<ExceptionRecord>
  {
    if ThreePartyApplies(grossAmount) && requestedBy.Some? && requestedBy.value != "" &&
       requestedBy.value in Receipters(order)
    then Conflict("segregation.requester_distinct_from_receipter")
    else []
  }

  /** The last day on which a vendor's editor is barred from approving. */
  function BarredUntil(vendor: VendorRecord): int {
    Advance(DateOf(vendor.lastUpdatedAt), COOLING_OFF_BUSINESS_DAYS)
  }

  function CheckApprovalTime(
      vendor: Option<VendorRecord>, order: Option<PurchaseOrder>, grossAmount: real,
      requestedBy: Option<string>, approverId: string, today: int): seq<ExceptionRecord>
  {
    (if vendor.Some? && vendor.value.createdBy == Some(approverId) && today <= BarredUntil(vendor.value)
     then Conflict("segregation.vendor_editor_may_not_approve_within_five_days") else []) +
    (if ThreePartyApplies(grossAmount) &&
        ((requestedBy == Some(approverId) && approverId != "") || approverId in Receipters(order))
     then Conflict("segregation.three_parties_distinct") else [])
  }

  /** Did this person receipt any of the order? */
  predicate Receipted(order: Option<PurchaseOrder>, person: string) {
    order.Some? && exists i :: 0 <= i < |order.value.receipts| && order.value.receipts[i].receiptedBy == person
  }

  lemma ReceiptersReceipted(order: Option<PurchaseOrder>, person: string)
    ensures person in Receipters(order) <==> Receipted(order, person)
  {
  }

  /** The vendor's creator has let five full business days pass since the record was last changed. */
  predicate CooledOff(vendor: Option<VendorRecord>, approverId: string, today: int) {
    vendor.Some? && vendor.value.createdBy == Some(approverId) ==>
      CountIn(vendor.value.lastUpdatedAt / 86400, today - 1) >= 5
  }

  /** At reconciliation the requester alone is looked at: above 25,000 they may not have receipted the order. */
  lemma ReconciliationObjectsExactlyWhen(
      order: Option<PurchaseOrder>, grossAmount: real, requestedBy: Option<string>)
    ensures CheckReconciliationTime(order, grossAmount, requestedBy) ==
      if grossAmount > 25000.0 && requestedBy.Some? && requestedBy.value != "" && Receipted(order, requestedBy.value)
      then [ExceptionRecord(OtherControlRisk, "segregation.requester_distinct_from_receipter", true)]
      else []
  {
    if requestedBy.Some? {
      ReceiptersReceipted(order, requestedBy.value);
    }
  }

  /** The bar for a vendor's creator ends exactly when the five business days have passed. */
  lemma CooledOffMeans(vendor: VendorRecord, approverId: string, today: int)
    requires vendor.createdBy == Some(approverId)
    ensures CooledOff(Some(vendor), approverId, today) <==> today > BarredUntil(vendor)
  {
    var changed := DateOf(vendor.lastUpdatedAt);
    var bar := BarredUntil(vendor);
    AdvanceIsLeastDate(changed, COOLING_OFF_BUSINESS_DAYS);
    if bar <= today - 1 {
      CountSplits(changed, bar, today - 1);
      CountNonNegative(bar, today - 1);
    } else if changed <= today - 1 {
      assert CountIn(changed, today - 1) < 5;
    }
  }

  /** What an approval-time check puts on record. */
  lemma ApprovalTimeRecords(
      vendor: Option<VendorRecord>, order: Option<PurchaseOrder>, grossAmount: real,
      requestedBy: Option<string>, approverId: string, today: int)
    ensures CheckApprovalTime(vendor, order, grossAmount, requestedBy, approverId, today) ==
      (if CooledOff(vendor, approverId, today) then []
       else [ExceptionRecord(
               OtherControlRisk, "segregation.vendor_editor_may_not_approve_within_five_days", true)]) +
      (if grossAmount > 25000.0 &&
          ((approverId != "" && requestedBy == Some(approverId)) || Receipted(order, approverId))
       then [ExceptionRecord(OtherControlRisk, "segregation.three_parties_distinct", true)] else [])
  {
    hide CooledOff, BarredUntil;
    ReceiptersReceipted(order, approverId);
    if vendor.Some? && vendor.value.createdBy == Some(approverId) {
      CooledOffMeans(vendor.value, approverId, today);
    } else {
      NobodyToCoolOff(vendor, approverId, today);
    }
  }

  lemma CleanCheckCoolsOff(
      vendor: Option<VendorRecord>, order: Option<PurchaseOrder>, grossAmount: real,
      requestedBy: Option<string>, approverId: string, today: int)
    requires CheckApprovalTime(vendor, order, grossAmount, requestedBy, approverId, today) == []
    ensures CooledOff(vendor, approverId, today)
  {
    if vendor.Some? && vendor.value.createdBy == Some(approverId) {
      CooledOffMeans(vendor.value, approverId, today);
    }
  }

  /** A clean check keeps the vendor's creator out for five full business days after the change: a
      creator may approve only when at least five business days lie strictly before the approval. Above
      25,000 it keeps out the requester and everybody who receipted the order. */
  lemma CleanCheckSeparatesDuties(
      vendor: Option<VendorRecord>, order: Option<PurchaseOrder>, grossAmount: real,
      requestedBy: Option<string>, approverId: string, today: int)
    requires approverId != ""
    ensures CheckApprovalTime(vendor, order, grossAmount, requestedBy, approverId, today) == [] <==>
      CooledOff(vendor, approverId, today) &&
      (grossAmount > 25000.0 ==> requestedBy != Some(approverId) && !Receipted(order, approverId))
  {
    hide CooledOff, BarredUntil;
    ReceiptersReceipted(order, approverId);
    if vendor.Some? && vendor.value.createdBy == Some(approverId) {
      CooledOffMeans(vendor.value, approverId, today);
    } else {
      NobodyToCoolOff(vendor, approverId, today);
    }
  }

  lemma NobodyToCoolOff(vendor: Option<VendorRecord>, approverId: string, today: int)
    requires vendor.None? || vendor.value.createdBy != Some(approverId)
    ensures CooledOff(vendor, approverId, today)
  {
  }
}
