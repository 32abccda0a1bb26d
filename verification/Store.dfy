/** The durable store as a value, and its write transactions as functions
    (src/ap_agent/persistence/repository.py, src/ap_agent/domain/results.py,
    src/ap_agent/domain/run_state.py).

    One write transaction is one function from store to store. A transaction that raises leaves the store
    as it was. */
module Store {
  import opened Prelude
  import opened Domain
  import opened Decimals

  // ---- approvals ----------------------------------------------------------------------

  datatype Signature = Signature(
    approverRole: Option<Role>,
    effectiveRole: Option<Role>,
    applicableLimit: Option<real>,
    delegationApplied: Option<string>,
    isFinancialControl: bool,
    signedAt: int)

  /** The signature table has primary key (approval, approver), so the signatures of one approval are a
      map from the person to what they signed. */
  datatype Approval = Approval(
    runId: string,
    caseId: string,
    status: ApprovalStatus,
    requestedOutcome: Outcome,
    presentedAmount: real,
    presentedCurrency: string,
    presentedVendorId: string,
    higherRisk: bool,
    requiredCount: nat,
    requiresFinancialControl: bool,
    signatures: map<string, Signature>)
  {
    predicate HasFinancialControl() {
      exists p :: p in signatures && signatures[p].isFinancialControl
    }

    predicate RequirementMet() {
      |signatures| >= requiredCount && (requiresFinancialControl ==> HasFinancialControl())
    }
  }

  // ---- runs ---------------------------------------------------------------------------

  /** The evidence gathered, what comparing the vendor's names gave, and whether reconciliation found the
      transaction to be of higher risk. */
  datatype Gathered = Gathered(
    vendor: Option<VendorRecord>,
    order: Option<PurchaseOrder>,
    history: seq<HistoryMatch>,
    sameName: bool,
    masterTail: Option<string>,
    higherRisk: bool)

  /** What the texts of the case say, and the lists the controls write to. The three clock readings and the
      model's suggestion are kept only so that theorems can name them; no step reads them. */
  datatype Dossier = Dossier(
    creditWording: bool,
    assertedTails: seq<string>,
    exceptions: seq<ExceptionRecord>,
    invalidReasons: seq<string>,
    indicators: seq<string>,
    intakeDay: int,
    reconciledAt: int,
    recommendedAt: int,
    suggested: Option<Outcome>)

  datatype Recommendation = Recommendation(outcome: Outcome, requiresApproval: bool, requiresSecond: bool)

  datatype Receipt = Receipt(
    runId: string,
    caseId: string,
    outcome: Outcome,
    amount: real,
    currency: string,
    idempotencyKey: string,
    recordedAt: int,
    replayed: bool)

  /** The persisted run: identity and control, budgets, request, gathered evidence, findings and outcome.
      `written` is the decimal the request's amount was written as. */
  datatype Run = Run(
    runId: string,
    status: RunStatus,
    phase: Phase,
    version: nat,
    stepsUsed: nat,
    toolCallsUsed: nat,
    completedPhases: seq<Phase>,
    request: Request,
    written: Dec,
    gathered: Gathered,
    dossier: Dossier,
    recommendation: Option<Recommendation>,
    approvalId: Option<string>,
    decision: Option<Receipt>)

  function StatusFor(phase: Phase): RunStatus {
    match phase
    case AwaitingApproval => StatusAwaitingApproval
    case Completed => StatusCompleted
    case Held => StatusHeld
    case Failed => StatusFailed
    case _ => Running
  }

  // ---- decisions ----------------------------------------------------------------------

  /** The arguments of the decision tool. The stored request hash is represented by the arguments it
      is computed from. */
  datatype DecisionRequest = DecisionRequest(
    runId: string,
    caseId: string,
    approvalId: string,
    outcome: Outcome,
    amount: real,
    amountText: string,
    currency: string,
    vendorId: string,
    invoiceReference: string)

  datatype DecisionRow = DecisionRow(
    request: DecisionRequest,
    approvalId: string,
    receipt: Receipt,
    fingerprint: string)

  // ---- the store ----------------------------------------------------------------------

  /** Runs by run id, approvals by approval id, decisions by idempotency key. */
  datatype Store = Store(
    runs: map<string, Run>,
    approvals: map<string, Approval>,
    decisions: map<string, DecisionRow>)

  const EMPTY: Store := Store(map[], map[], map[])

  // ---- write transactions -------------------------------------------------------------

  /** Insert a run at version 1; `None` is the primary-key violation. */
  function CreateRun(s: Store, run: Run): (Store, Option<Run>) {
    if run.runId in s.runs then (s, None)
    else
      var stored := run.(version := 1);
      (s.(runs := s.runs[run.runId := stored]), Some(stored))
  }

  datatype SaveResult = Saved(run: Run) | StaleRunVersion | RunNotFound

  /** Compare-and-swap on the version the caller read. */
  function SaveRun(s: Store, run: Run): (Store, SaveResult) {
    if run.runId !in s.runs then (s, RunNotFound)
    else if s.runs[run.runId].version != run.version then (s, StaleRunVersion)
    else
      var updated := run.(version := run.version + 1);
      (s.(runs := s.runs[run.runId := updated]), Saved(updated))
  }

  /** Insert an approval; `false` is a primary-key or foreign-key violation. */
  function CreateApproval(s: Store, approvalId: string, approval: Approval): (Store, bool) {
    if approvalId in s.approvals || approval.runId !in s.runs then (s, false)
    else (s.(approvals := s.approvals[approvalId := approval]), true)
  }

  datatype ResolveResult = Resolved(approval: Approval, replayed: bool) | StateConflict

  /** The approval after one signature: a person who already signed changes nothing, and the status
      becomes approved as soon as the requirement is met. */
  function Sign(approval: Approval, approverId: string, signature: Signature): Approval {
    var collected := approval.(signatures :=
      if approverId in approval.signatures then approval.signatures
      else approval.signatures[approverId := signature]);
    if collected.RequirementMet() then collected.(status := Approved) else collected
  }

  function AddSignature(s: Store, approvalId: string, approverId: string, signature: Signature)
    : (Store, ResolveResult)
  {
    if approvalId !in s.approvals || s.approvals[approvalId].status.Rejected? then (s, StateConflict)
    else
      var before := s.approvals[approvalId];
      var after := Sign(before, approverId, signature);
      (s.(approvals := s.approvals[approvalId := after]), Resolved(after, approverId in before.signatures))
  }

  function RejectApproval(s: Store, approvalId: string): (Store, ResolveResult) {
    if approvalId !in s.approvals || s.approvals[approvalId].status.Approved? then (s, StateConflict)
    else if s.approvals[approvalId].status.Rejected? then (s, Resolved(s.approvals[approvalId], true))
    else
      var after := s.approvals[approvalId].(status := Rejected);
      (s.(approvals := s.approvals[approvalId := after]), Resolved(after, false))
  }

  datatype RecordResult = Recorded(receipt: Receipt, replayed: bool) | RecordConflict

  predicate RunHasDecision(s: Store, runId: string) {
    exists k :: k in s.decisions && s.decisions[k].receipt.runId == runId
  }

  predicate InvoiceHasDecision(s: Store, fingerprint: string) {
    fingerprint != "" && exists k :: k in s.decisions && s.decisions[k].fingerprint == fingerprint
  }

  /** Record a decision once. A known key with the same arguments returns the stored receipt; a known key
      with other arguments, a second decision for the run, or a second one for the invoice conflicts. */
  function RecordDecision(s: Store, key: string, row: DecisionRow): (Store, RecordResult) {
    if key in s.decisions then
      if s.decisions[key].request != row.request then (s, RecordConflict)
      else (s, Recorded(s.decisions[key].receipt.(replayed := true), true))
    else if RunHasDecision(s, row.receipt.runId) then (s, RecordConflict)
    else if InvoiceHasDecision(s, row.fingerprint) then (s, RecordConflict)
    else (s.(decisions := s.decisions[key := row]), Recorded(row.receipt, false))
  }
}
