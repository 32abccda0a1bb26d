/** Safety over every history of launches, steps and crashes, by any number of workers. */
module Theorems {
  import opened Prelude
  import opened Domain
  import opened Store
  import opened Protocol
  import opened Invariant
  import opened Preservation
  import opened Decimals
  import opened Fingerprint
  import Money
  import Authority
  import Segregation
  import Vendor

  predicate SystemOk(cfg: Settings, sys: System) {
    StoreOk(cfg, sys.store) && forall id :: id in sys.workers ==> WorkerOk(cfg, sys.store, sys.workers[id])
  }

  lemma OthersStayOk(cfg: Settings, sys: System, t: Store)
    requires SystemOk(cfg, sys) && Evolves(sys.store, t)
    ensures forall id :: id in sys.workers ==> WorkerOk(cfg, t, sys.workers[id])
  {
    forall id | id in sys.workers ensures WorkerOk(cfg, t, sys.workers[id]) {
      WorkerOkStable(cfg, sys.store, t, sys.workers[id]);
    }
  }

  lemma FireOk(cfg: Settings, sys: System, e: Event)
    requires SystemOk(cfg, sys)
    ensures SystemOk(cfg, Fire(cfg, sys, e)) && Evolves(sys.store, Fire(cfg, sys, e).store)
  {
    match e
    case Launch(id, entry) =>
      EnterOk(cfg, sys.store, entry);
      OthersStayOk(cfg, sys, Enter(sys.store, entry).0);
    case Act(id, input) =>
      EvolvesReflexive(sys.store);
      if id in sys.workers {
        StepOk(cfg, sys.store, sys.workers[id], input);
        OthersStayOk(cfg, sys, Step(cfg, sys.store, sys.workers[id], input).0);
      }
    case Crash(id) =>
      EvolvesReflexive(sys.store);
  }

  /** Whatever happens next keeps the invariant, and the store only evolves. */
  lemma {:induction false} AfterOk(cfg: Settings, sys: System, events: seq<Event>)
    requires SystemOk(cfg, sys)
    ensures SystemOk(cfg, After(cfg, sys, events)) && Evolves(sys.store, After(cfg, sys, events).store)
    decreases |events|
  {
    if events == [] {
      EvolvesReflexive(sys.store);
    } else {
      var mid := Fire(cfg, sys, events[0]);
      FireOk(cfg, sys, events[0]);
      AfterOk(cfg, mid, events[1..]);
      EvolvesTransitive(sys.store, mid.store, After(cfg, sys, events).store);
    }
  }

  lemma {:induction false} AfterJoins(cfg: Settings, sys: System, events: seq<Event>, more: seq<Event>)
    ensures After(cfg, sys, events + more) == After(cfg, After(cfg, sys, events), more)
    decreases |events|
  {
    if events == [] {
      assert events + more == more;
    } else {
      assert (events + more)[1..] == events[1..] + more;
      AfterJoins(cfg, Fire(cfg, sys, events[0]), events[1..], more);
    }
  }

  lemma ReachableOk(cfg: Settings, events: seq<Event>)
    ensures SystemOk(cfg, After(cfg, INITIAL, events))
  {
    AfterOk(cfg, INITIAL, events);
  }

  lemma InitialOk(cfg: Settings)
    ensures SystemOk(cfg, INITIAL)
  {
  }

  // ---- exactly once, and authorised ---------------------------------------------------

  /** In every reachable store there is at most one decision per run and per invoice fingerprint. */
  lemma ExactlyOnce(cfg: Settings, events: seq<Event>, j: string, k: string)
    requires var d := After(cfg, INITIAL, events).store.decisions; j in d && k in d
    ensures var d := After(cfg, INITIAL, events).store.decisions;
      d[j].receipt.runId == d[k].receipt.runId || d[j].fingerprint == d[k].fingerprint ==> j == k
  {
    ReachableOk(cfg, events);
    var s := After(cfg, INITIAL, events).store;
    assert DecisionOk(cfg, s, j, s.decisions[j]) && DecisionOk(cfg, s, k, s.decisions[k]);
    FingerprintNotEmpty(s.decisions[j].request);
  }

  lemma FingerprintNotEmpty(args: DecisionRequest)
    ensures FingerprintFor(args) != ""
  {
    assert |FingerprintFor(args)| >= 1;
  }

  /** A decision's text is how its amount was written, and its amount is what that decimal stands for. */
  lemma TextRendersAmount(cfg: Settings, events: seq<Event>, k: string)
    requires k in After(cfg, INITIAL, events).store.decisions
    ensures var s := After(cfg, INITIAL, events).store;
      var row := s.decisions[k];
      row.request.runId in s.runs &&
      var written := s.runs[row.request.runId].written;
      row.request.amountText == Text(written) && row.request.amount == AmountOf(written) == row.receipt.amount
  {
    hide Text, EngineOk, HistoryOk, LinkOk, KeyMaterial, InvoiceMaterial, Doomed, After;
    ReachableOk(cfg, events);
    var s := After(cfg, INITIAL, events).store;
    assert DecisionOk(cfg, s, k, s.decisions[k]);
    assert RunOk(cfg, s, s.runs[s.decisions[k].request.runId]);
  }

  /** The vendor is the same, the two references name one number, and the currency is the same word. */
  predicate SameReference(x: DecisionRequest, y: DecisionRequest) {
    x.vendorId == y.vendorId &&
    Alike(x.invoiceReference, y.invoiceReference) && SameWord(x.currency, y.currency)
  }

  /** Two invoices have one fingerprint exactly when vendor, number and currency are the same and the amounts are
      written alike. */
  lemma FingerprintMeans(x: DecisionRequest, y: DecisionRequest)
    requires BarFree(x.currency) && BarFree(y.currency) && BarFree(x.amountText) && BarFree(y.amountText)
    ensures FingerprintFor(x) == FingerprintFor(y) <==> SameReference(x, y) && x.amountText == y.amountText
  {
    hide InvoiceMaterial, Alike, SameWord;
    if FingerprintFor(x) == FingerprintFor(y) {
      InvoiceMaterialIsInjective(x.vendorId, x.invoiceReference, x.currency, x.amountText,
        y.vendorId, y.invoiceReference, y.currency, y.amountText);
    }
    if SameReference(x, y) && x.amountText == y.amountText {
      SameTextSameFingerprint(x, y);
    }
  }

  /** Equal keys are of equal run, approval, outcome, amount, currency and vendor. */
  lemma KeyMeans(x: DecisionRequest, y: DecisionRequest)
    requires BarFree(x.runId) && BarFree(x.approvalId) && BarFree(x.amountText) && BarFree(x.currency)
    requires BarFree(y.runId) && BarFree(y.approvalId) && BarFree(y.amountText) && BarFree(y.currency)
    ensures KeyFor(x) == KeyFor(y) <==>
      x.runId == y.runId && x.approvalId == y.approvalId && x.outcome == y.outcome &&
      x.amountText == y.amountText && x.currency == y.currency && x.vendorId == y.vendorId
  {
    hide KeyMaterial;
    if KeyFor(x) == KeyFor(y) {
      KeyMaterialIsInjective(x.runId, x.approvalId, x.outcome, x.amountText, x.currency, x.vendorId,
        y.runId, y.approvalId, y.outcome, y.amountText, y.currency, y.vendorId);
    }
  }

  lemma SameTextSameFingerprint(x: DecisionRequest, y: DecisionRequest)
    requires SameReference(x, y) && x.amountText == y.amountText
    ensures FingerprintFor(x) == FingerprintFor(y)
  {
    hide NormaliseReference, Alike, SameWord;
    NormalFormMeans(x.invoiceReference, y.invoiceReference);
    UpperMeans(x.currency, y.currency);
  }

  /** The double-payment path is closed but for one gap: two decisions for one vendor, invoice number and
      currency never have their amount written alike, and where the amounts are equal it is because they were
      written with different exponents. */
  lemma NoInvoicePostedTwice(cfg: Settings, events: seq<Event>, j: string, k: string)
    requires var d := After(cfg, INITIAL, events).store.decisions;
      j in d && k in d && j != k && SameReference(d[j].request, d[k].request)
    ensures var s := After(cfg, INITIAL, events).store;
      s.decisions[j].request.amountText != s.decisions[k].request.amountText
    ensures var s := After(cfg, INITIAL, events).store;
      var x, y := s.decisions[j].request, s.decisions[k].request;
      x.runId in s.runs && y.runId in s.runs &&
      (x.amount == y.amount ==> s.runs[x.runId].written.exponent != s.runs[y.runId].written.exponent)
  {
    hide Text, SameReference, After, FingerprintFor, AmountOf;
    var s := After(cfg, INITIAL, events).store;
    TextRendersAmount(cfg, events, j);
    TextRendersAmount(cfg, events, k);
    FingerprintsAreStored(cfg, events, j);
    FingerprintsAreStored(cfg, events, k);
    if s.decisions[j].request.amountText == s.decisions[k].request.amountText {
      SameTextSameFingerprint(s.decisions[j].request, s.decisions[k].request);
      ExactlyOnce(cfg, events, j, k);
    }
    var x, y := s.runs[s.decisions[j].request.runId].written, s.runs[s.decisions[k].request.runId].written;
    if AmountOf(x) == AmountOf(y) {
      SameAmountSameText(x, y);
    }
  }

  lemma FingerprintsAreStored(cfg: Settings, events: seq<Event>, k: string)
    requires k in After(cfg, INITIAL, events).store.decisions
    ensures var row := After(cfg, INITIAL, events).store.decisions[k]; row.fingerprint == FingerprintFor(row.request)
  {
    hide After, KeyMaterial, InvoiceMaterial;
    ReachableOk(cfg, events);
    var s := After(cfg, INITIAL, events).store;
    assert DecisionOk(cfg, s, k, s.decisions[k]);
  }

  /** Every decision's approval belongs to its run, is approved, meets its signature requirement, and
      presented exactly the outcome, amount, currency and vendor that were recorded. */
  lemma DecisionsAreAuthorised(cfg: Settings, events: seq<Event>, k: string)
    requires k in After(cfg, INITIAL, events).store.decisions
    ensures var s := After(cfg, INITIAL, events).store;
      var row := s.decisions[k];
      row.approvalId in s.approvals &&
      var a := s.approvals[row.approvalId];
      a.runId == row.receipt.runId && a.status.Approved? && a.RequirementMet() &&
      a.requestedOutcome == row.receipt.outcome &&
      row.receipt.outcome in {ApproveForPosting, RejectDuplicate, RejectInvalid} &&
      a.caseId == row.receipt.caseId == row.request.caseId &&
      a.presentedAmount == row.receipt.amount && a.presentedCurrency == row.receipt.currency &&
      a.presentedVendorId == row.request.vendorId && row.receipt.idempotencyKey == k
  {
    hide After, EngineOk;
    ReachableOk(cfg, events);
    var s := After(cfg, INITIAL, events).store;
    assert DecisionOk(cfg, s, k, s.decisions[k]);
    var run := s.runs[s.decisions[k].request.runId];
    assert RunOk(cfg, s, run) && LinkOk(cfg, s, run);
    assert ApprovalOk(s, run.approvalId.value, s.approvals[run.approvalId.value]);
  }

  // ---- decisions and phases -----------------------------------------------------------

  /** A decision exists only for a run at the decision phase or completed; every completed run has one,
      equal to the receipt the run carries but for the replay flag. */
  lemma DecisionsAgreeWithPhases(cfg: Settings, events: seq<Event>, r: string)
    requires r in After(cfg, INITIAL, events).store.runs
    ensures var s := After(cfg, INITIAL, events).store;
      (RunHasDecision(s, r) ==> s.runs[r].phase.ExecuteDecision? || s.runs[r].phase.Completed?) &&
      (s.runs[r].phase.Completed? ==> RunHasDecision(s, r)) &&
      (s.runs[r].phase.Held? || s.runs[r].phase.Failed? ==> !RunHasDecision(s, r))
    ensures var s := After(cfg, INITIAL, events).store;
      forall k :: k in s.decisions && s.decisions[k].receipt.runId == r && s.runs[r].phase.Completed? ==>
        s.runs[r].decision.Some? && s.runs[r].decision.value.(replayed := false) == s.decisions[k].receipt
  {
    hide EngineOk, Text, KeyMaterial, InvoiceMaterial;
    ReachableOk(cfg, events);
    var s := After(cfg, INITIAL, events).store;
    forall k | k in s.decisions && s.decisions[k].receipt.runId == r
      ensures s.runs[r].phase.ExecuteDecision? || s.runs[r].phase.Completed?
      ensures s.runs[r].approvalId.Some? && s.runs[r].recommendation.Some? && k == KeyFor(ArgsOf(s.runs[r]))
    {
      assert DecisionOk(cfg, s, k, s.decisions[k]);
    }
    if s.runs[r].phase.Completed? {
      assert LinkOk(cfg, s, s.runs[r]);
      var k := KeyFor(ArgsOf(s.runs[r]));
      assert DecisionOk(cfg, s, k, s.decisions[k]);
    }
  }

  /** Once approved, a run fails only for the two reasons fixed before approval: the step budget never
      reached the decision phase, or the stored vendor is unusable. Neither gate ever refuses it. */
  lemma ApprovedRunsFailOnlyWhenDoomed(cfg: Settings, events: seq<Event>, r: string)
    requires r in After(cfg, INITIAL, events).store.runs
    ensures var run := After(cfg, INITIAL, events).store.runs[r];
      run.phase.Failed? && run.approvalId.Some? ==>
        cfg.maxSteps <= 6 || run.gathered.vendor.None? || !run.gathered.vendor.value.status.Active? ||
        run.gathered.vendor.value.onPaymentHold
  {
    ReachableOk(cfg, events);
    var s := After(cfg, INITIAL, events).store;
    assert RunOk(cfg, s, s.runs[r]);
  }

  // ---- the authority behind an opened gate --------------------------------------------

  /** The signatory acted in a role that the policy allows the amount. */
  predicate ActsWithin(sig: Signature, amount: real) {
    sig.effectiveRole.Some? && Authority.PolicyAllows(sig.effectiveRole.value, amount)
  }

  lemma SignerActsWithin(run: Run, p: string, sig: Signature)
    requires SignerOk(run, p, sig) && sig.effectiveRole != Some(FinancialControl)
    ensures ActsWithin(sig, Money.Quantize(run.request.amount))
    ensures !Authority.InRoundingGap(run.request.amount) ==> ActsWithin(sig, run.request.amount)
  {
    hide Money.Quantize, Authority.InRoundingGap, Authority.PolicyAllows, Authority.SomebodySignsBeyondLimit;
    var amount, role := run.request.amount, sig.effectiveRole.value;
    Authority.CoversInAmounts(role, Money.Quantize(amount));
    Authority.CoversInAmounts(role, amount);
    Authority.AcceptedLimitCoversAmount(amount, false);
  }

  lemma SomeSignatureCarries(run: Run, a: Approval) returns (p: string)
    requires a.RequirementMet() && a.requiredCount >= 1 && a.presentedAmount == run.request.amount
    requires forall p :: p in a.signatures ==> SignerOk(run, p, a.signatures[p]) && Backed(a, a.signatures[p])
    ensures p in a.signatures && a.signatures[p].effectiveRole != Some(FinancialControl)
    ensures ActsWithin(a.signatures[p], Money.Quantize(run.request.amount))
    ensures !Authority.InRoundingGap(run.request.amount) ==> ActsWithin(a.signatures[p], run.request.amount)
  {
    hide ActsWithin, Authority.InRoundingGap, Money.Quantize;
    p :| p in a.signatures.Keys;
    if a.signatures[p].effectiveRole == Some(FinancialControl) {
      p :| p in a.signatures && IsPrimary(a.signatures[p], a.presentedAmount);
    }
    assert SignerOk(run, p, a.signatures[p]);
    SignerActsWithin(run, p, a.signatures[p]);
  }

  /** Nobody who signed raised the request, acted for themselves on a vendor they had created before five
      business days passed, or, above 25,000, receipted the order; and whoever acted in another role than
      their own did so under a named delegation. */
  predicate SeparateDuties(run: Run, p: string, sig: Signature) {
    && run.request.requestedBy.Some? && p != run.request.requestedBy.value
    && (run.request.amount > 25000.0 ==> !Segregation.Receipted(run.gathered.order, p))
    && Segregation.CooledOff(run.gathered.vendor, p, sig.signedAt / 86400)
    && (sig.delegationApplied.None? ==> sig.effectiveRole == sig.approverRole)
  }

  lemma SignerHasSeparateDuties(run: Run, p: string, sig: Signature)
    requires SignerOk(run, p, sig)
    ensures SeparateDuties(run, p, sig)
  {
    hide Segregation.CooledOff;
    Segregation.ReceiptersReceipted(run.gathered.order, p);
  }

  /** Every approved approval: it is its run's own; somebody who signed acted in a role that the policy's ladder
      allows the presented amount (the rounded amount always, the exact one outside the half-cent gaps above
      the limits); duties are separate for everybody who signed; and the required second signature from
      Financial Control is there. */
  lemma OpenedGateIsAuthorised(cfg: Settings, events: seq<Event>, id: string)
    requires var s := After(cfg, INITIAL, events).store; id in s.approvals && s.approvals[id].status.Approved?
    ensures var s := After(cfg, INITIAL, events).store;
      var a := s.approvals[id];
      a.runId in s.runs &&
      var run := s.runs[a.runId];
      run.approvalId == Some(id) && a.presentedAmount == run.request.amount &&
      (exists p :: p in a.signatures && a.signatures[p].effectiveRole != Some(FinancialControl) &&
                   ActsWithin(a.signatures[p], Money.Quantize(a.presentedAmount)) &&
                   (!Authority.InRoundingGap(a.presentedAmount) ==> ActsWithin(a.signatures[p], a.presentedAmount))) &&
      (forall p :: p in a.signatures ==> SeparateDuties(run, p, a.signatures[p])) &&
      (run.recommendation.Some? && run.recommendation.value.requiresSecond ==>
        |a.signatures| >= 2 &&
        exists p :: p in a.signatures && a.signatures[p].approverRole == Some(FinancialControl))
  {
    hide After, SeparateDuties, ActsWithin, Authority.InRoundingGap, Money.Quantize, EngineOk, HistoryOk;
    ReachableOk(cfg, events);
    var s := After(cfg, INITIAL, events).store;
    var a := s.approvals[id];
    assert ApprovalOk(s, id, a);
    var run := s.runs[a.runId];
    assert RunOk(cfg, s, run) && LinkOk(cfg, s, run);
    var carrier := SomeSignatureCarries(run, a);
    forall p | p in a.signatures ensures SeparateDuties(run, p, a.signatures[p]) {
      SignerHasSeparateDuties(run, p, a.signatures[p]);
    }
    if run.recommendation.value.requiresSecond {
      var p :| p in a.signatures && a.signatures[p].isFinancialControl;
      assert SignerOk(run, p, a.signatures[p]);
    }
  }

  // ---- the life of an approval --------------------------------------------------------

  /** In every reachable store an approval is approved exactly when its signature table meets the
      requirement; afterwards, whatever happens, what it presented stays, signatures are only added, and
      a status that is not pending never changes again. */
  lemma ApprovalLifeCycle(cfg: Settings, events: seq<Event>, more: seq<Event>, id: string)
    requires id in After(cfg, INITIAL, events).store.approvals
    ensures var a := After(cfg, INITIAL, events).store.approvals[id];
      a.status.Approved? <==>
        |a.signatures| >= a.requiredCount &&
        (a.requiresFinancialControl ==> exists p :: p in a.signatures && a.signatures[p].isFinancialControl)
    ensures var later := After(cfg, INITIAL, events + more).store.approvals;
      var a := After(cfg, INITIAL, events).store.approvals[id];
      id in later && later[id] == a.(status := later[id].status, signatures := later[id].signatures) &&
      (forall p :: p in a.signatures ==> p in later[id].signatures && later[id].signatures[p] == a.signatures[p]) &&
      (!a.status.Pending? ==> later[id].status == a.status) &&
      (a.RequirementMet() ==> later[id].RequirementMet())
  {
    var sys := After(cfg, INITIAL, events);
    ReachableOk(cfg, events);
    AfterJoins(cfg, INITIAL, events, more);
    AfterOk(cfg, sys, more);
    var later := After(cfg, sys, more).store;
    assert ApprovalEvolves(sys.store.approvals[id], later.approvals[id]);
    assert ApprovalOk(sys.store, id, sys.store.approvals[id]);
    assert ApprovalOk(later, id, later.approvals[id]);
  }

  /** An approval left behind by a crash, once its run has gone on with another one, never gathers a
      signature and is never settled. */
  lemma OrphansStayUnsigned(cfg: Settings, events: seq<Event>, more: seq<Event>, id: string)
    requires var s := After(cfg, INITIAL, events).store;
      id in s.approvals && s.approvals[id].runId in s.runs &&
      PastPlan(s.runs[s.approvals[id].runId].phase) && s.runs[s.approvals[id].runId].approvalId != Some(id)
    ensures var s := After(cfg, INITIAL, events + more).store;
      id in s.approvals && s.approvals[id].signatures == map[] && s.approvals[id].status.Pending?
  {
    var sys := After(cfg, INITIAL, events);
    ReachableOk(cfg, events);
    AfterJoins(cfg, INITIAL, events, more);
    AfterOk(cfg, sys, more);
    var later := After(cfg, sys, more).store;
    var r := sys.store.approvals[id].runId;
    assert RunEvolves(sys.store.runs[r], later.runs[r]);
    assert ApprovalEvolves(sys.store.approvals[id], later.approvals[id]);
    assert ApprovalOk(later, id, later.approvals[id]);
  }

  // ---- the history of a run -----------------------------------------------------------

  /** The save of `next` replaced exactly the version it was computed from, by the next version. */
  predicate CommitsOnto(s: Store, t: Store, base: Run, next: Run) {
    base.runId in s.runs && s.runs[base.runId] == base &&
    t == s.(runs := s.runs[base.runId := next.(version := base.version + 1)])
  }

  lemma SaveCommitsOnto(cfg: Settings, s: Store, base: Run, next: Run)
    requires SaveOk(cfg, s, base, next)
    ensures var (t, result) := SaveRun(s, next);
      if result.Saved? then CommitsOnto(s, t, base, next) else t == s
  {
    hide RunOk;
    if SaveRun(s, next).1.Saved? {
      CommittedSaveIsCurrent(cfg, s, base, next);
    }
  }

  /** Histories are linear: when a worker's save commits, the version it replaces is the very copy the
      worker started from, and the new version is the next one. */
  lemma SavesAreLinear(cfg: Settings, events: seq<Event>, id: nat, i: Input)
    requires id in After(cfg, INITIAL, events).workers && After(cfg, INITIAL, events).workers[id].Saving?
    ensures var sys := After(cfg, INITIAL, events);
      var w := sys.workers[id];
      var t := Fire(cfg, sys, Act(id, i)).store;
      t == sys.store || CommitsOnto(sys.store, t, w.base, w.next)
  {
    ReachableOk(cfg, events);
    var sys := After(cfg, INITIAL, events);
    var w := sys.workers[id];
    SaveCommitsOnto(cfg, sys.store, w.base, w.next);
    assert Fire(cfg, sys, Act(id, i)).store == Step(cfg, sys.store, w, i).0 == SaveRun(sys.store, w.next).0;
  }

  /** Phases only move forward, or the run is saved in place: while it waits for approval, when nothing but
      tool calls and the records of refused signatures may be added, or at the decision, when nothing changes
      but the version. Terminal runs never change; the request is frozen but for what intake redacts, and
      the case facts once the plan is over; budgets never shrink. */
  predicate MovedForward(x: Run, y: Run) {
    && x.version <= y.version && (x.version == y.version ==> x == y)
    && Rank(x.phase) <= Rank(y.phase) && (x.phase.IsTerminal() ==> x == y)
    && (x.version < y.version && Rank(x.phase) == Rank(y.phase) ==> SavedInPlace(x, y))
    && RequestKept(x, y)
    && (PastPlan(x.phase) ==> FactsFrozen(x, y))
    && x.stepsUsed <= y.stepsUsed && x.toolCallsUsed <= y.toolCallsUsed
  }

  lemma EvolvedRunMovedForward(x: Run, y: Run)
    requires RunEvolves(x, y)
    ensures MovedForward(x, y)
  {
    assert x.phase.IsTerminal() ==> Rank(x.phase) == 8;
  }

  /** Whatever a run looks like at one moment of a history, it has only moved forward at any later one. */
  lemma RunsOnlyMoveForward(cfg: Settings, events: seq<Event>, more: seq<Event>, r: string)
    requires r in After(cfg, INITIAL, events).store.runs
    ensures r in After(cfg, INITIAL, events + more).store.runs
    ensures MovedForward(After(cfg, INITIAL, events).store.runs[r], After(cfg, INITIAL, events + more).store.runs[r])
  {
    var sys := After(cfg, INITIAL, events);
    ReachableOk(cfg, events);
    AfterJoins(cfg, INITIAL, events, more);
    AfterOk(cfg, sys, more);
    EvolvedRunMovedForward(sys.store.runs[r], After(cfg, sys, more).store.runs[r]);
  }

  /** Steps count the completed phases, which are the plan's seven in order, as far as they go; neither steps
      nor tool calls pass their ceiling; the status shown outside follows the phase. */
  lemma RunsAreBounded(cfg: Settings, events: seq<Event>, r: string)
    requires r in After(cfg, INITIAL, events).store.runs
    ensures var run := After(cfg, INITIAL, events).store.runs[r];
      run.stepsUsed == |run.completedPhases| <= cfg.maxSteps && run.toolCallsUsed <= cfg.maxToolCalls &&
      run.completedPhases <=
        [Intake, RetrievePolicy, GatherEvidence, Reconcile, AssessRisk, Recommend, ExecuteDecision] &&
      (run.phase.Completed? <==> run.stepsUsed == 7) &&
      run.status == match run.phase
                    case AwaitingApproval => StatusAwaitingApproval
                    case Completed => StatusCompleted
                    case Held => StatusHeld
                    case Failed => StatusFailed
                    case _ => Running
  {
    hide EngineOk, LinkOk, After;
    ReachableOk(cfg, events);
    var s := After(cfg, INITIAL, events).store;
    assert RunOk(cfg, s, s.runs[r]);
    var run := s.runs[r];
    if InPlan(run.phase) {
      assert PHASE_ORDER[..Rank(run.phase)] <= PHASE_ORDER;
    }
    assert PHASE_ORDER <= PHASE_ORDER + [ExecuteDecision];
  }

  // ---- crash and recovery -------------------------------------------------------------

  /** One worker alone, step after step. */
  function Solo(cfg: Settings, s: Store, w: Worker, inputs: seq<Input>): (Store, Worker)
    decreases |inputs|
  {
    if inputs == [] then (s, w)
    else
      var (t, v) := Step(cfg, s, w, inputs[0]);
      Solo(cfg, t, v, inputs[1..])
  }

  /** The run as the decision phase leaves it. */
  function CompletedWith(run: Run, receipt: Receipt): Run {
    Complete(run.(decision := Some(receipt))).(version := run.version + 1)
  }

  /** Ready to record: at the decision phase, not doomed, arguments within the schema, and the invoice not
      already decided under another key. */
  predicate ReadyToRecord(cfg: Settings, s: Store, run: Run) {
    && run.runId in s.runs && s.runs[run.runId] == run && run.phase.ExecuteDecision?
    && run.approvalId.Some? && run.recommendation.Some?
    && !Doomed(cfg, run) && ArgumentsValid(ArgsOf(run))
    && (KeyFor(ArgsOf(run)) in s.decisions ==> s.decisions[KeyFor(ArgsOf(run))].request == ArgsOf(run))
    && (KeyFor(ArgsOf(run)) !in s.decisions ==> !InvoiceHasDecision(s, FingerprintFor(ArgsOf(run))))
  }

  function ReceiptNow(s: Store, run: Run, moment: int): Receipt
    requires run.approvalId.Some? && run.recommendation.Some?
  {
    var key := KeyFor(ArgsOf(run));
    if key in s.decisions then s.decisions[key].receipt.(replayed := true)
    else RowFor(ArgsOf(run), moment).receipt
  }

  lemma DecisionStarts(cfg: Settings, s: Store, run: Run, i: Input)
    requires StoreOk(cfg, s) && ReadyToRecord(cfg, s, run)
    ensures StepDriving(cfg, s, run, i) == Submitting(run, ArgsOf(run))
    ensures RecordOk(cfg, s, run, ArgsOf(run))
  {
    hide StoreOk, AuthoriseDecision, ArgumentsValid, KeyFor, FingerprintFor, InvoiceHasDecision, Any,
      Vendor.VendorBlocks, Vendor.StatusCheck, RunOk;
    StoredRunIsBehind(cfg, s, run);
    FirstGateOpens(cfg, s, run);
    Vendor.RevalidationIgnoresTheClock(run.gathered.vendor, run.gathered.sameName, i.moment, run.gathered.history);
  }

  lemma StoredRunIsBehind(cfg: Settings, s: Store, run: Run)
    requires StoreOk(cfg, s) && run.runId in s.runs && s.runs[run.runId] == run
    ensures Behind(cfg, s, run) && HistoryOk(run)
  {
    hide EngineOk, LinkOk, DecisionsOk, ApprovalsOk, FingerprintsDistinct;
  }

  lemma DecisionRecords(cfg: Settings, s: Store, run: Run, i: Input)
    requires StoreOk(cfg, s) && ReadyToRecord(cfg, s, run) && RecordOk(cfg, s, run, ArgsOf(run))
    ensures var (t, w) := StepRecording(s, run, ArgsOf(run), i);
      t == RecordDecision(s, KeyFor(ArgsOf(run)), RowFor(ArgsOf(run), i.moment)).0 &&
      KeyFor(ArgsOf(run)) in t.decisions && t.runs == s.runs && t.approvals == s.approvals &&
      w == Saving(run, Complete(run.(decision := Some(ReceiptNow(s, run, i.moment)))), KeepDriving)
  {
    hide EngineOk, Text, HistoryOk, KeyMaterial, InvoiceMaterial, Complete;
    if RunHasDecision(s, run.runId) {
      RunHasOnlyItsKey(cfg, s, run, ArgsOf(run));
    }
  }

  lemma SaveCompletes(cfg: Settings, t: Store, run: Run, receipt: Receipt, d: Input)
    requires run.runId in t.runs && t.runs[run.runId] == run
    ensures var next := Complete(run.(decision := Some(receipt)));
      Solo(cfg, t, Saving(run, next, KeepDriving), [d]) ==
        (t.(runs := t.runs[run.runId := CompletedWith(run, receipt)]), Driving(CompletedWith(run, receipt)))
  {
    var w := Saving(run, Complete(run.(decision := Some(receipt))), KeepDriving);
    assert [d][1..] == [];
    assert Solo(cfg, t, w, [d]) == Solo(cfg, Step(cfg, t, w, d).0, Step(cfg, t, w, d).1, []);
  }

  /** Undisturbed, a ready run records its decision and completes in four steps. */
  lemma DecisionCompletes(cfg: Settings, s: Store, run: Run, a: Input, b: Input, c: Input, d: Input)
    requires StoreOk(cfg, s) && ReadyToRecord(cfg, s, run)
    ensures var done := CompletedWith(run, ReceiptNow(s, run, c.moment));
      var recorded := RecordDecision(s, KeyFor(ArgsOf(run)), RowFor(ArgsOf(run), c.moment)).0;
      Solo(cfg, s, Driving(run), [a, b, c, d]) ==
        (recorded.(runs := s.runs[run.runId := done]), Driving(done))
  {
    hide StoreOk, KeyFor, FingerprintFor, RowFor, RecordOk, RecordDecision, StepDriving, StepSubmitting,
      StepRecording, Complete;
    DecisionStarts(cfg, s, run, a);
    SubmittingStepOk(cfg, s, run, ArgsOf(run));
    DecisionRecords(cfg, s, run, c);
    var (t, w) := StepRecording(s, run, ArgsOf(run), c);
    assert Step(cfg, s, Driving(run), a) == (s, Submitting(run, ArgsOf(run)));
    assert Step(cfg, s, Submitting(run, ArgsOf(run)), b) == (s, Recording(run, ArgsOf(run)));
    assert [a, b, c, d][1..] == [b, c, d] && [b, c, d][1..] == [c, d] && [c, d][1..] == [d];
    assert Solo(cfg, s, Driving(run), [a, b, c, d]) == Solo(cfg, s, Submitting(run, ArgsOf(run)), [b, c, d])
        == Solo(cfg, s, Recording(run, ArgsOf(run)), [c, d]) == Solo(cfg, t, w, [d]);
    SaveCompletes(cfg, t, run, ReceiptNow(s, run, c.moment), d);
  }

  /** Recording twice: once the row is there the run is still ready, and gets its stored receipt back. */
  lemma RecordedRunStaysReady(cfg: Settings, s: Store, run: Run, moment: int)
    requires StoreOk(cfg, s) && ReadyToRecord(cfg, s, run) && RecordOk(cfg, s, run, ArgsOf(run))
    ensures var t := RecordDecision(s, KeyFor(ArgsOf(run)), RowFor(ArgsOf(run), moment)).0;
      StoreOk(cfg, t) && ReadyToRecord(cfg, t, run) &&
      ReceiptNow(t, run, moment) == ReceiptNow(s, run, moment).(replayed := true)
  {
    hide StoreOk, Text, KeyFor, FingerprintFor, Evolves, Doomed, ArgumentsValid, Behind;
    RecordKeeps(cfg, s, run, ArgsOf(run), moment);
    if RunHasDecision(s, run.runId) {
      RunHasOnlyItsKey(cfg, s, run, ArgsOf(run));
    }
  }

  /** A worker that dies just before saving leaves the decision row behind and the run untouched. */
  lemma CrashLeavesTheRow(cfg: Settings, s: Store, run: Run, a: Input, b: Input, c: Input)
    requires StoreOk(cfg, s) && ReadyToRecord(cfg, s, run)
    ensures Solo(cfg, s, Driving(run), [a, b, c]).0 ==
      RecordDecision(s, KeyFor(ArgsOf(run)), RowFor(ArgsOf(run), c.moment)).0
  {
    hide StoreOk, KeyFor, FingerprintFor, RowFor, RecordOk, RecordDecision, StepDriving, Doomed,
      StepSubmitting, StepRecording;
    DecisionStarts(cfg, s, run, a);
    SubmittingStepOk(cfg, s, run, ArgsOf(run));
    DecisionRecords(cfg, s, run, c);
    var (t, w) := StepRecording(s, run, ArgsOf(run), c);
    assert Step(cfg, s, Driving(run), a) == (s, Submitting(run, ArgsOf(run)));
    assert Step(cfg, s, Submitting(run, ArgsOf(run)), b) == (s, Recording(run, ArgsOf(run)));
    assert [a, b, c][1..] == [b, c] && [b, c][1..] == [c] && [c][1..] == [];
    assert Solo(cfg, s, Driving(run), [a, b, c]) == Solo(cfg, s, Submitting(run, ArgsOf(run)), [b, c])
        == Solo(cfg, s, Recording(run, ArgsOf(run)), [c]) == Solo(cfg, t, w, []);
  }

  /** Crash after the decision was written but before the run was saved, then resume with any inputs: the
      resumed run derives the same key, gets the stored receipt back, adds no row, and leaves the store
      exactly as the uncrashed run does but for the replay flag on the run's receipt. */
  lemma CrashAfterRecordingIsHarmless(
      cfg: Settings, s: Store, run: Run, a: Input, b: Input, c: Input, d: Input,
      a': Input, b': Input, c': Input, d': Input)
    requires StoreOk(cfg, s) && ReadyToRecord(cfg, s, run)
    ensures
      var uncrashed := Solo(cfg, s, Driving(run), [a, b, c, d]).0;
      var (crashed, resumed) := Enter(Solo(cfg, s, Driving(run), [a, b, c]).0, Resume(run.runId));
      var recovered := Solo(cfg, crashed, resumed, [a', b', c', d']).0;
      var receipt := ReceiptNow(s, run, c.moment);
      uncrashed.runs == s.runs[run.runId := CompletedWith(run, receipt)] &&
      recovered ==
        uncrashed.(runs := s.runs[run.runId := CompletedWith(run, receipt.(replayed := true))])
  {
    hide StoreOk, RecordOk, Complete, Solo, KeyMaterial, FingerprintFor;
    DecisionCompletes(cfg, s, run, a, b, c, d);
    CrashLeavesTheRow(cfg, s, run, a, b, c);
    DecisionStarts(cfg, s, run, a);
    RecordedRunStaysReady(cfg, s, run, c.moment);
    var t := RecordDecision(s, KeyFor(ArgsOf(run)), RowFor(ArgsOf(run), c.moment)).0;
    assert Enter(t, Resume(run.runId)) == (t, Driving(run));
    DecisionCompletes(cfg, t, run, a', b', c', d');
  }

  /** A worker that dies before the decision was written leaves the store as it was. */
  lemma CrashBeforeRecordingChangesNothing(cfg: Settings, s: Store, run: Run, a: Input, b: Input)
    requires StoreOk(cfg, s) && ReadyToRecord(cfg, s, run)
    ensures Solo(cfg, s, Driving(run), []).0 == s
    ensures Solo(cfg, s, Driving(run), [a]).0 == s
    ensures Solo(cfg, s, Driving(run), [a, b]).0 == s
  {
    hide StoreOk, KeyFor, FingerprintFor, RowFor, RecordOk, RecordDecision, StepDriving, StepSubmitting,
      StepRecording;
    DecisionStarts(cfg, s, run, a);
    SubmittingStepOk(cfg, s, run, ArgsOf(run));
    assert Step(cfg, s, Driving(run), a) == (s, Submitting(run, ArgsOf(run)));
    assert Step(cfg, s, Submitting(run, ArgsOf(run)), b) == (s, Recording(run, ArgsOf(run)));
    assert [a, b][1..] == [b] && [b][1..] == [] && [a][1..] == [];
    assert Solo(cfg, s, Driving(run), [a, b]) == Solo(cfg, s, Submitting(run, ArgsOf(run)), [b]);
    assert Solo(cfg, s, Submitting(run, ArgsOf(run)), [b]) == Solo(cfg, s, Recording(run, ArgsOf(run)), []);
    assert Solo(cfg, s, Driving(run), [a]) == Solo(cfg, s, Submitting(run, ArgsOf(run)), []);
  }

  /** The run is completed with the receipt of the one decision row under its key, but for the replay
      flag, and no approval was touched. */
  predicate RecoveredTo(s: Store, t: Store, run: Run) {
    && run.approvalId.Some? && run.recommendation.Some? && t.approvals == s.approvals
    && KeyFor(ArgsOf(run)) in t.decisions && t.decisions[KeyFor(ArgsOf(run))].request == ArgsOf(run)
    && var receipt := t.decisions[KeyFor(ArgsOf(run))].receipt;
       exists replayed :: t.runs == s.runs[run.runId := CompletedWith(run, receipt.(replayed := replayed))]
  }

  lemma CompletionRecovers(cfg: Settings, s: Store, t: Store, run: Run, moment: int)
    requires StoreOk(cfg, s) && ReadyToRecord(cfg, s, run) && RecordOk(cfg, s, run, ArgsOf(run))
    requires var recorded := RecordDecision(s, KeyFor(ArgsOf(run)), RowFor(ArgsOf(run), moment)).0;
      t == recorded.(runs := s.runs[run.runId := CompletedWith(run, ReceiptNow(s, run, moment))])
    ensures RecoveredTo(s, t, run)
  {
    hide StoreOk, KeyFor, FingerprintFor, CompletedWith, RecordOk;
    RecordedRowIsTheReceipt(cfg, s, run, moment);
    var stored := t.decisions[KeyFor(ArgsOf(run))].receipt;
    var carried := ReceiptNow(s, run, moment);
    assert carried == stored.(replayed := carried.replayed);
  }

  lemma RecordedRowIsTheReceipt(cfg: Settings, s: Store, run: Run, moment: int)
    requires StoreOk(cfg, s) && ReadyToRecord(cfg, s, run) && RecordOk(cfg, s, run, ArgsOf(run))
    ensures var t := RecordDecision(s, KeyFor(ArgsOf(run)), RowFor(ArgsOf(run), moment)).0;
      KeyFor(ArgsOf(run)) in t.decisions && t.decisions[KeyFor(ArgsOf(run))].request == ArgsOf(run) &&
      t.runs == s.runs && t.approvals == s.approvals &&
      ReceiptNow(s, run, moment).(replayed := false) == t.decisions[KeyFor(ArgsOf(run))].receipt.(replayed := false)
  {
    if RunHasDecision(s, run.runId) {
      RunHasOnlyItsKey(cfg, s, run, ArgsOf(run));
    }
  }

  /** Crash at any of the five points of the decision phase, then resume with any inputs: the run ends
      completed with the receipt of the one decision recorded under its key, apart from the replay flag. */
  lemma CrashAnywhereRecovers(cfg: Settings, s: Store, run: Run, done: nat, a: Input, b: Input, c: Input, d: Input,
                              a': Input, b': Input, c': Input, d': Input)
    requires StoreOk(cfg, s) && ReadyToRecord(cfg, s, run) && done <= 4
    ensures var (crashed, resumed) := Enter(Solo(cfg, s, Driving(run), [a, b, c, d][..done]).0, Resume(run.runId));
      RecoveredTo(s, Solo(cfg, crashed, resumed, [a', b', c', d']).0, run)
  {
    hide StoreOk, KeyFor, FingerprintFor, RowFor, RecordOk, RecordDecision, CompletedWith, RecoveredTo, Solo,
      ReceiptNow;
    DecisionStarts(cfg, s, run, a);
    CrashBeforeRecordingChangesNothing(cfg, s, run, a, b);
    CrashLeavesTheRow(cfg, s, run, a, b, c);
    if done <= 2 {
      assert [a, b, c, d][..done] == if done == 0 then [] else if done == 1 then [a] else [a, b];
      DecisionCompletes(cfg, s, run, a', b', c', d');
      CompletionRecovers(cfg, s, Solo(cfg, s, Driving(run), [a', b', c', d']).0, run, c'.moment);
    } else if done == 3 {
      assert [a, b, c, d][..done] == [a, b, c];
      RecoveryFromTheRow(cfg, s, run, c.moment, a', b', c', d');
    } else {
      assert [a, b, c, d][..done] == [a, b, c, d];
      DecisionCompletes(cfg, s, run, a, b, c, d);
      CompletionRecovers(cfg, s, Solo(cfg, s, Driving(run), [a, b, c, d]).0, run, c.moment);
      NothingLeftToDo(cfg, Solo(cfg, s, Driving(run), [a, b, c, d]).0, run, ReceiptNow(s, run, c.moment),
        [a', b', c', d']);
    }
  }

  lemma RecoveryFromTheRow(
      cfg: Settings, s: Store, run: Run, moment: int, a': Input, b': Input, c': Input, d': Input)
    requires StoreOk(cfg, s) && ReadyToRecord(cfg, s, run) && RecordOk(cfg, s, run, ArgsOf(run))
    ensures var t := RecordDecision(s, KeyFor(ArgsOf(run)), RowFor(ArgsOf(run), moment)).0;
      Enter(t, Resume(run.runId)) == (t, Driving(run)) &&
      RecoveredTo(s, Solo(cfg, t, Driving(run), [a', b', c', d']).0, run)
  {
    hide StoreOk, KeyFor, FingerprintFor, RowFor, CompletedWith, Solo, ArgsOf, Doomed;
    var t := RecordDecision(s, KeyFor(ArgsOf(run)), RowFor(ArgsOf(run), moment)).0;
    RecordedRowIsTheReceipt(cfg, s, run, moment);
    RecordedRunStaysReady(cfg, s, run, moment);
    DecisionStarts(cfg, t, run, a');
    DecisionCompletes(cfg, t, run, a', b', c', d');
    CompletionRecovers(cfg, t, Solo(cfg, t, Driving(run), [a', b', c', d']).0, run, c'.moment);
  }

  lemma NothingLeftToDo(cfg: Settings, t: Store, run: Run, receipt: Receipt, inputs: seq<Input>)
    requires run.runId in t.runs && t.runs[run.runId] == CompletedWith(run, receipt) && run.phase.ExecuteDecision?
    ensures var (crashed, resumed) := Enter(t, Resume(run.runId));
      Solo(cfg, crashed, resumed, inputs).0 == t
  {
    EndedStays(cfg, t, CompletedWith(run, receipt), inputs);
  }

  lemma {:induction false} EndedStays(cfg: Settings, t: Store, run: Run, inputs: seq<Input>)
    ensures Solo(cfg, t, Returned(run), inputs) == (t, Returned(run))
    decreases |inputs|
  {
    if inputs != [] {
      EndedStays(cfg, t, run, inputs[1..]);
    }
  }

  /** In every reachable store, a run that has a decision row but was never saved as completed is exactly
      ready to be recovered: resuming it completes it with the stored receipt, whatever the clock says. */
  lemma RecordedRunsAlwaysRecover(
      cfg: Settings, events: seq<Event>, r: string, a: Input, b: Input, c: Input, d: Input)
    requires var s := After(cfg, INITIAL, events).store;
      r in s.runs && s.runs[r].phase.ExecuteDecision? && RunHasDecision(s, r)
    ensures var s := After(cfg, INITIAL, events).store;
      var (t, w) := Solo(cfg, s, Driving(s.runs[r]), [a, b, c, d]);
      t.decisions == s.decisions && r in t.runs && t.runs[r].phase.Completed? &&
      exists k :: k in s.decisions && s.decisions[k].receipt.runId == r &&
                  t.runs[r].decision == Some(s.decisions[k].receipt.(replayed := true))
  {
    hide EngineOk, Text, KeyMaterial, InvoiceMaterial, HistoryOk;
    ReachableOk(cfg, events);
    var s := After(cfg, INITIAL, events).store;
    var k :| k in s.decisions && s.decisions[k].receipt.runId == r;
    assert DecisionOk(cfg, s, k, s.decisions[k]);
    assert ReadyToRecord(cfg, s, s.runs[r]);
    DecisionCompletes(cfg, s, s.runs[r], a, b, c, d);
  }
}
