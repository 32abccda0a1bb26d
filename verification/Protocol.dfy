/** The approval and decision protocol as a machine: a store and any number of workers
    (src/ap_agent/orchestration/machine.py, approvals.py, gates.py, phases/, tools/contracts.py).

    A worker performs one store access, and the local computation that follows it, per step. Between two
    steps of one worker any other worker may act, and a worker may crash. Everything that comes from
    outside is an `Input`: what tools and the model returned, the clock, and freshly drawn identifiers. */
module Protocol {
  import opened Prelude
  import opened Domain
  import opened Store
  import opened Fingerprint
  import opened Decimals
  import opened RunState
  import Authority
  import Controls
  import Phases
  import Segregation
  import Vendor

  datatype Settings = Settings(maxSteps: nat, maxToolCalls: nat)

  /** An approve or reject callback. */
  datatype Delivery = Delivery(
    approve: bool,
    approvalId: string,
    approverId: string,
    approverRole: Option<Role>,
    namesDelegation: bool)

  datatype Input = Input(
    redactedHashes: set<string>,
    creditWording: bool,
    assertedTails: seq<string>,
    vendor: Option<VendorRecord>,
    order: Option<PurchaseOrder>,
    history: seq<HistoryMatch>,
    sameName: bool,
    masterTail: Option<string>,
    indicators: seq<string>,
    toolCalls: nat,
    modelFails: bool,
    suggested: Option<Outcome>,
    delegation: Option<DelegationRecord>,
    newApprovalId: string,
    moment: int)

  /** What a worker does once its save has committed. */
  datatype AfterSave = KeepDriving | Return | Raise

  /** `base` is the copy of the run the worker last read or wrote; `next` is what it is about to save. */
  datatype Worker =
    | Driving(base: Run)
    | CreatingApproval(base: Run, next: Run)
    | Submitting(base: Run, args: DecisionRequest)
    | Recording(base: Run, args: DecisionRequest)
    | Saving(base: Run, next: Run, andThen: AfterSave)
    | Resolving(base: Run, delivery: Delivery)
    | Signing(base: Run, next: Run, approverId: string, signature: Signature)
    | Rejecting(base: Run, next: Run)
    | Reloading(base: Run, approve: bool, met: bool)
    | Returned(run: Run)
    | Raised

  // ---- the phase plan -----------------------------------------------------------------

  const PHASE_ORDER: seq<Phase> := [Intake, RetrievePolicy, GatherEvidence, Reconcile, AssessRisk, Recommend]

  /** Position of a phase in the life of a run; the three terminal phases share the last place. */
  function Rank(phase: Phase): nat {
    match phase
    case Intake => 0
    case RetrievePolicy => 1
    case GatherEvidence => 2
    case Reconcile => 3
    case AssessRisk => 4
    case Recommend => 5
    case AwaitingApproval => 6
    case ExecuteDecision => 7
    case Completed => 8
    case Held => 8
    case Failed => 8
  }

  function NextPhase(phase: Phase): Option<Phase> {
    if Rank(phase) + 1 < |PHASE_ORDER| then Some(PHASE_ORDER[Rank(phase) + 1]) else None
  }

  function TransitionFrom(phase: Phase, run: Run): Phase {
    if phase.ExecuteDecision? then Completed
    else if phase.Recommend? then
      if run.recommendation.None? then Failed
      else if run.recommendation.value.requiresApproval then AwaitingApproval
      else Held
    else if NextPhase(phase).Some? then NextPhase(phase).value
    else Completed
  }

  function MoveTo(run: Run, phase: Phase): Run {
    run.(phase := phase, status := StatusFor(phase))
  }

  /** The bookkeeping that follows a phase handler. */
  function Complete(run: Run): Run {
    var done := run.(
      stepsUsed := run.stepsUsed + 1,
      completedPhases :=
        if run.phase in run.completedPhases then run.completedPhases else run.completedPhases + [run.phase]);
    MoveTo(done, TransitionFrom(run.phase, done))
  }

  function Fail(run: Run): Run {
    MoveTo(run, Failed)
  }

  /** The tool runner starts from the calls already used and stops at the ceiling. */
  function Spend(cfg: Settings, used: nat, calls: nat): nat {
    if used + calls <= cfg.maxToolCalls then used + calls
    else if used <= cfg.maxToolCalls then cfg.maxToolCalls
    else used
  }

  // ---- the controls -------------------------------------------------------------------

  /** What the controls read of a run. */
  function CaseOf(run: Run): Phases.CaseFile {
    var g := run.gathered;
    Phases.CaseFile(run.request, run.dossier.creditWording, run.dossier.assertedTails, g.masterTail, g.sameName,
      g.vendor, g.order, g.history)
  }

  /** The request with its free text redacted, which changes the hashes of its attachments, and what the
      redacted texts say. */
  function Redacted(run: Run, i: Input): Run {
    run.(request := run.request.(attachmentHashes := i.redactedHashes),
         dossier := run.dossier.(creditWording := i.creditWording, assertedTails := i.assertedTails))
  }

  function HandleIntake(run: Run, i: Input): Run {
    var read, day := Redacted(run, i), DateOf(i.moment);
    var c := CaseOf(read);
    read.(dossier := read.dossier.(
      exceptions := Accumulate(read.dossier.exceptions, Phases.IntakeExceptions(c, day)),
      invalidReasons := AddNew(read.dossier.invalidReasons, Phases.IntakeReasons(c, day)),
      intakeDay := day))
  }

  /** A higher-risk transaction: by the vendor, or by payment instructions the vendor master does not show. */
  predicate HigherRisk(c: Phases.CaseFile, moment: int) {
    Vendor.StatusCheck(c.vendor, c.sameName, moment, c.history).higherRisk ||
    Controls.InstructionExceptions(c.assertedTails, c.masterTail) != []
  }

  function HandleReconcile(run: Run, i: Input): Run {
    var c := CaseOf(run);
    run.(gathered := run.gathered.(higherRisk := HigherRisk(c, i.moment)),
         dossier := run.dossier.(
           exceptions := Accumulate(run.dossier.exceptions, Phases.ReconcileExceptions(c, i.moment)),
           reconciledAt := i.moment))
  }

  function HandleAssessRisk(run: Run, i: Input): Run {
    run.(dossier := run.dossier.(indicators := AddNew(run.dossier.indicators, i.indicators)))
  }

  // ---- the recommendation and its approval --------------------------------------------

  /** FIN-POL-003 section 3: two signatures for a higher-risk transaction, judged on what reconciliation
      recorded or on the vendor as it looks now. */
  function RecommendFor(run: Run, moment: int, suggested: Option<Outcome>): Recommendation {
    var c, d := CaseOf(run), run.dossier;
    var outcome :=
      Phases.OutcomeOn(d.exceptions, d.invalidReasons != [], |d.indicators|, c, moment, suggested);
    Recommendation(
      outcome, outcome.IsConsequential(),
      run.gathered.higherRisk || Vendor.StatusCheck(c.vendor, c.sameName, moment, c.history).higherRisk)
  }

  function Recommended(run: Run, moment: int, suggested: Option<Outcome>): Run {
    run.(recommendation := Some(RecommendFor(run, moment, suggested)),
         dossier := run.dossier.(recommendedAt := moment, suggested := suggested))
  }

  function ApprovalFor(run: Run): Approval
    requires run.recommendation.Some?
  {
    var r := run.recommendation.value;
    Approval(
      run.runId, run.request.caseId, Pending, r.outcome, run.request.amount, run.request.currency,
      run.request.MasterVendorId(), run.gathered.higherRisk, if r.requiresSecond then 2 else 1,
      r.requiresSecond, map[])
  }

  // ---- the two gates ------------------------------------------------------------------

  predicate PresentsFacts(a: Approval, amount: real, currency: string, vendorId: string) {
    a.presentedVendorId != "" ==>
      a.presentedAmount == amount && Upper(a.presentedCurrency) == Upper(currency) &&
      a.presentedVendorId == vendorId
  }

  /** The first gate: may this run record its outcome? */
  predicate AuthoriseDecision(run: Run, approval: Option<Approval>) {
    run.recommendation.Some? && run.recommendation.value.outcome.IsConsequential() &&
    approval.Some? && approval.value.runId == run.runId &&
    approval.value.status.Approved? && approval.value.RequirementMet() &&
    approval.value.requestedOutcome == run.recommendation.value.outcome &&
    run.decision.None? &&
    PresentsFacts(approval.value, run.request.amount, run.request.currency, run.request.MasterVendorId())
  }

  /** The second gate, inside the decision tool. */
  predicate ToolPermits(args: DecisionRequest, approval: Option<Approval>) {
    approval.Some? && approval.value.runId == args.runId && approval.value.status.Approved? &&
    approval.value.requestedOutcome == args.outcome && approval.value.RequirementMet() &&
    PresentsFacts(approval.value, args.amount, args.currency, args.vendorId)
  }

  function RequestFor(run: Run, approvalId: string, outcome: Outcome): DecisionRequest {
    DecisionRequest(
      run.runId, run.request.caseId, approvalId, outcome, run.request.amount, Text(run.written),
      run.request.currency, run.request.MasterVendorId(), run.request.invoiceReference)
  }

  /** The schema of the tool's arguments: identifiers of 1 to 256 characters, a positive amount, a
      three-letter currency. */
  predicate ArgumentsValid(args: DecisionRequest) {
    1 <= |args.runId| <= 256 && 1 <= |args.caseId| <= 256 && 1 <= |args.approvalId| <= 256 &&
    1 <= |args.vendorId| <= 256 && 1 <= |args.invoiceReference| <= 256 &&
    args.amount > 0.0 && |args.currency| == 3
  }

  function KeyFor(args: DecisionRequest): string {
    KeyMaterial(args.runId, args.approvalId, args.outcome, args.amountText, args.currency, args.vendorId)
  }

  function FingerprintFor(args: DecisionRequest): string {
    InvoiceMaterial(args.vendorId, args.invoiceReference, args.currency, args.amountText)
  }

  function RowFor(args: DecisionRequest, moment: int): DecisionRow {
    DecisionRow(
      args, args.approvalId,
      Receipt(args.runId, args.caseId, args.outcome, args.amount, args.currency, KeyFor(args), moment, false),
      FingerprintFor(args))
  }

  // ---- signing ------------------------------------------------------------------------

  /** A signature that carries the limit: `applicable_limit >= presented_amount`. */
  predicate IsPrimary(signature: Signature, amount: real) {
    signature.applicableLimit.Some? && signature.applicableLimit.value >= amount
  }

  predicate PrimarySigned(a: Approval) {
    exists p :: p in a.signatures && IsPrimary(a.signatures[p], a.presentedAmount)
  }

  function ValidateSigner(a: Approval, d: Delivery, run: Run, delegation: Option<DelegationRecord>, moment: int)
    : Authority.Validation
  {
    Authority.ValidateApproval(
      Authority.RequiredAuthority(a.presentedAmount, a.higherRisk),
      d.approverId, d.approverRole, delegation, run.request.requestedBy, run.request.costCentreTokens,
      PrimarySigned(a), DateOf(moment))
  }

  /** May this person sign this approval? Authority against what was presented, then segregation. */
  predicate AuthoriseSignature(
      a: Approval, d: Delivery, run: Run, delegation: Option<DelegationRecord>, moment: int)
  {
    ValidateSigner(a, d, run, delegation, moment).sufficient &&
    Segregation.CheckApprovalTime(
      run.gathered.vendor, run.gathered.order, run.request.amount, run.request.requestedBy, d.approverId,
      DateOf(moment)) == []
  }

  /** What a refused signature leaves on record. */
  function Refusals(
      a: Approval, d: Delivery, run: Run, delegation: Option<DelegationRecord>, moment: int): seq<ExceptionRecord>
  {
    ValidateSigner(a, d, run, delegation, moment).exceptions +
    Segregation.CheckApprovalTime(
      run.gathered.vendor, run.gathered.order, run.request.amount, run.request.requestedBy, d.approverId,
      DateOf(moment))
  }

  function SignatureFrom(v: Authority.Validation, d: Delivery, moment: int): Signature {
    Signature(d.approverRole, v.effectiveRole, v.applicableLimit, v.delegationApplied, v.isFinancialControl, moment)
  }

  // ---- entering -----------------------------------------------------------------------

  datatype Entry =
    | Start(runId: string, request: Request, written: Dec)
    | Resume(runId: string)
    | Resolve(runId: string, delivery: Delivery)

  const NOTHING_GATHERED: Gathered := Gathered(None, None, [], false, None, false)

  const EMPTY_DOSSIER: Dossier := Dossier(false, [], [], [], [], 0, 0, 0, None)

  /** A fresh run. The amount of the request is the one its decimal stands for. */
  function NewRun(runId: string, request: Request, written: Dec): Run {
    Run(runId, Running, Intake, 0, 0, 0, [], request.(amount := AmountOf(written)), written,
      NOTHING_GATHERED, EMPTY_DOSSIER, None, None, None)
  }

  function Enter(s: Store, e: Entry): (Store, Worker) {
    match e
    case Start(runId, request, written) =>
      var (s', created) := CreateRun(s, NewRun(runId, request, written));
      (s', if created.Some? then Driving(created.value) else Raised)
    case Resume(runId) =>
      (s, if runId !in s.runs then Raised
          else if s.runs[runId].phase.IsTerminal() then Returned(s.runs[runId])
          else Driving(s.runs[runId]))
    case Resolve(runId, d) =>
      (s, if runId !in s.runs || s.runs[runId].approvalId != Some(d.approvalId) then Raised
          else Resolving(s.runs[runId], d))
  }

  // ---- the steps ----------------------------------------------------------------------

  /** What the evidence phases leave in the run. */
  function HandleEvidencePhase(cfg: Settings, run: Run, i: Input): Run {
    match run.phase
    case Intake => HandleIntake(run, i)
    case RetrievePolicy => run.(toolCallsUsed := Spend(cfg, run.toolCallsUsed, i.toolCalls))
    case GatherEvidence =>
      run.(
        gathered := run.gathered.(
          vendor := i.vendor, order := i.order, history := i.history, sameName := i.sameName,
          masterTail := i.masterTail),
        toolCallsUsed := Spend(cfg, run.toolCallsUsed, i.toolCalls))
    case Reconcile => HandleReconcile(run, i)
    case AssessRisk => HandleAssessRisk(run, i)
    case _ => run
  }

  function VendorCheckNow(run: Run, moment: int): seq<ExceptionRecord> {
    var g := run.gathered;
    Vendor.StatusCheck(g.vendor, g.sameName, moment, g.history).exceptions
  }

  function Stops(found: seq<ExceptionRecord>): seq<ExceptionRecord> {
    if found == [] then []
    else
      var last := found[|found| - 1];
      Stops(found[..|found| - 1]) + (if Vendor.StopsDecision(last) then [last] else [])
  }

  function WithExceptions(run: Run, found: seq<ExceptionRecord>): Run {
    run.(dossier := run.dossier.(exceptions := Accumulate(run.dossier.exceptions, found)))
  }

  /** The run with what stopped its decision on record. */
  function WithStops(run: Run, moment: int): Run {
    WithExceptions(run, Stops(VendorCheckNow(run, moment)))
  }

  function StepExecute(s: Store, base: Run, i: Input): Worker {
    var approval :=
      if base.approvalId.Some? && base.approvalId.value in s.approvals
      then Some(s.approvals[base.approvalId.value]) else None;
    if !AuthoriseDecision(base, approval) then Saving(base, Fail(base), Return)
    else if Any(VendorCheckNow(base, i.moment), Vendor.StopsDecision)
    then Saving(base, Fail(WithStops(base, i.moment)), Return)
    else
      var args := RequestFor(base, base.approvalId.value, approval.value.requestedOutcome);
      if ArgumentsValid(args) then Submitting(base, args) else Raised
  }

  function StepRecommend(s: Store, base: Run, i: Input): Worker {
    if i.modelFails then Saving(base, Fail(base), Return)
    else
      var next := Recommended(base, i.moment, i.suggested);
      if !next.recommendation.value.requiresApproval then Saving(base, Complete(next), KeepDriving)
      else if base.approvalId.Some? && base.approvalId.value in s.approvals
      then Saving(base, Complete(next), KeepDriving)
      else CreatingApproval(base, next)
  }

  function StepDriving(cfg: Settings, s: Store, base: Run, i: Input): Worker {
    if base.phase.IsTerminal() || base.phase.AwaitingApproval? then Returned(base)
    else if base.stepsUsed >= cfg.maxSteps then Saving(base, Fail(base), Return)
    else if base.phase.ExecuteDecision? then StepExecute(s, base, i)
    else if base.phase.Recommend? then StepRecommend(s, base, i)
    else if base.phase.AssessRisk? && i.modelFails then Saving(base, Fail(HandleAssessRisk(base, i)), Return)
    else Saving(base, Complete(HandleEvidencePhase(cfg, base, i)), KeepDriving)
  }

  function StepCreatingApproval(s: Store, base: Run, next: Run, i: Input): (Store, Worker)
    requires next.recommendation.Some?
  {
    var (s', created) := CreateApproval(s, i.newApprovalId, ApprovalFor(next));
    (s', if created then Saving(base, Complete(next.(approvalId := Some(i.newApprovalId))), KeepDriving) else Raised)
  }

  function StepSubmitting(s: Store, base: Run, args: DecisionRequest): Worker {
    var approval := if args.approvalId in s.approvals then Some(s.approvals[args.approvalId]) else None;
    if ToolPermits(args, approval) then Recording(base, args) else Saving(base, Fail(base), Return)
  }

  function StepRecording(s: Store, base: Run, args: DecisionRequest, i: Input): (Store, Worker) {
    var (s', result) := RecordDecision(s, KeyFor(args), RowFor(args, i.moment));
    (s', match result
         case Recorded(receipt, _) => Saving(base, Complete(base.(decision := Some(receipt))), KeepDriving)
         case RecordConflict => Raised)
  }

  function StepSaving(s: Store, next: Run, andThen: AfterSave): (Store, Worker) {
    var (s', result) := SaveRun(s, next);
    (s', if !result.Saved? || andThen.Raise? then Raised
         else if andThen.KeepDriving? then Driving(result.run)
         else Returned(result.run))
  }

  /** A delivery that has work to do: read the delegation it names, judge the signer, and go on to store. */
  function Judged(cfg: Settings, base: Run, a: Approval, d: Delivery, i: Input): Worker {
    var delegation := if d.namesDelegation then i.delegation else None;
    var next := if d.namesDelegation
      then base.(toolCallsUsed := Spend(cfg, base.toolCallsUsed, i.toolCalls)) else base;
    if !d.approve then Rejecting(base, next)
    else if !AuthoriseSignature(a, d, base, delegation, i.moment) then
      Saving(base, WithExceptions(next, Refusals(a, d, base, delegation, i.moment)), Raise)
    else Signing(base, next, d.approverId,
                 SignatureFrom(ValidateSigner(a, d, base, delegation, i.moment), d, i.moment))
  }

  /** Answer a delivery that changes nothing, and otherwise judge the signer. */
  function StepReceived(cfg: Settings, s: Store, base: Run, a: Approval, d: Delivery, i: Input): Worker {
    if d.approve && d.approverId in a.signatures then
      if base.runId in s.runs then Returned(s.runs[base.runId]) else Raised
    else if a.status.Rejected? then
      if !d.approve && base.runId in s.runs then Returned(s.runs[base.runId]) else Raised
    else if a.status.Approved? then Raised
    else Judged(cfg, base, a, d, i)
  }

  /** Load the approval the delivery names. */
  function StepResolving(cfg: Settings, s: Store, base: Run, d: Delivery, i: Input): Worker {
    if d.approvalId in s.approvals then StepReceived(cfg, s, base, s.approvals[d.approvalId], d, i) else Raised
  }

  /** What follows a stored signature or rejection. */
  function AfterResolution(base: Run, next: Run, approve: bool, met: bool): Worker {
    if approve && !met then Saving(base, next, Return)
    else if !approve then Saving(base, MoveTo(next, Held), Return)
    else Saving(base, MoveTo(next, ExecuteDecision), KeepDriving)
  }

  function AfterTransaction(base: Run, next: Run, approve: bool, result: ResolveResult): Worker {
    match result
    case StateConflict => Raised
    case Resolved(a, replayed) =>
      if replayed then Reloading(base, approve, approve && a.RequirementMet())
      else AfterResolution(base, next, approve, approve && a.RequirementMet())
  }

  function StepSigning(s: Store, base: Run, next: Run, approverId: string, signature: Signature): (Store, Worker)
  {
    if base.approvalId.None? then (s, Raised)
    else
      var (s', result) := AddSignature(s, base.approvalId.value, approverId, signature);
      (s', AfterTransaction(base, next, true, result))
  }

  function StepRejecting(s: Store, base: Run, next: Run): (Store, Worker) {
    if base.approvalId.None? then (s, Raised)
    else
      var (s', result) := RejectApproval(s, base.approvalId.value);
      (s', AfterTransaction(base, next, false, result))
  }

  function StepReloading(s: Store, base: Run, approve: bool, met: bool): Worker {
    if base.runId !in s.runs then Raised
    else
      var current := s.runs[base.runId];
      if current.phase.IsTerminal() then Returned(current)
      else AfterResolution(current, current, approve, met)
  }

  function Step(cfg: Settings, s: Store, w: Worker, i: Input): (Store, Worker) {
    match w
    case Driving(base) => (s, StepDriving(cfg, s, base, i))
    case CreatingApproval(base, next) =>
      if next.recommendation.Some? then StepCreatingApproval(s, base, next, i) else (s, Raised)
    case Submitting(base, args) => (s, StepSubmitting(s, base, args))
    case Recording(base, args) => StepRecording(s, base, args, i)
    case Saving(base, next, andThen) => StepSaving(s, next, andThen)
    case Resolving(base, d) => (s, StepResolving(cfg, s, base, d, i))
    case Signing(base, next, approverId, signature) => StepSigning(s, base, next, approverId, signature)
    case Rejecting(base, next) => StepRejecting(s, base, next)
    case Reloading(base, approve, met) => (s, StepReloading(s, base, approve, met))
    case Returned(_) => (s, w)
    case Raised => (s, w)
  }

  // ---- the system ---------------------------------------------------------------------

  datatype System = System(store: Store, workers: map<nat, Worker>)

  /** A worker enters, a worker steps, or a worker crashes. */
  datatype Event =
    | Launch(id: nat, entry: Entry)
    | Act(id: nat, input: Input)
    | Crash(id: nat)

  function Fire(cfg: Settings, sys: System, e: Event): System {
    match e
    case Launch(id, entry) =>
      var (s', w) := Enter(sys.store, entry);
      System(s', sys.workers[id := w])
    case Act(id, input) =>
      if id in sys.workers then
        var (s', w) := Step(cfg, sys.store, sys.workers[id], input);
        System(s', sys.workers[id := w])
      else sys
    case Crash(id) => System(sys.store, sys.workers - {id})
  }

  const INITIAL: System := System(EMPTY, map[])

  /** The system after a whole history of events, in order. */
  function After(cfg: Settings, sys: System, events: seq<Event>): System
    decreases |events|
  {
    if events == [] then sys else After(cfg, Fire(cfg, sys, events[0]), events[1..])
  }
}
