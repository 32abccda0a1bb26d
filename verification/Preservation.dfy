/** Every step keeps the store invariant, obeys the evolution relation, and leaves its own worker with
    what it needs for the next step. */
module Preservation {
  import opened Prelude
  import opened Domain
  import opened Store
  import opened Protocol
  import opened Invariant
  import opened Decimals
  import opened RunState
  import Authority
  import Phases
  import Segregation
  import Vendor

  // ---- saves --------------------------------------------------------------------------

  /** A committed save is computed from the stored version it replaces. */
  lemma CommittedSaveIsCurrent(cfg: Settings, s: Store, base: Run, next: Run)
    requires SaveOk(cfg, s, base, next) && SaveRun(s, next).1.Saved?
    ensures s.runs[base.runId] == base
  {
  }

  lemma SavedDecisionOk(cfg: Settings, s: Store, base: Run, next: Run, key: string)
    requires StoreOk(cfg, s) && SaveOk(cfg, s, base, next) && s.runs[base.runId] == base
    requires key in s.decisions && s.decisions[key].request.runId == base.runId
    ensures (next.phase.ExecuteDecision? || next.phase.Completed?) && next.approvalId == base.approvalId
    ensures next.recommendation == base.recommendation && next.gathered == base.gathered
  {
    hide EngineOk, Text, KeyFor, RowFor, ArgumentsValid, ApprovalsOk, HistoryOk, FingerprintsDistinct, Presents;
    assert DecisionOk(cfg, s, key, s.decisions[key]);
    assert base.phase.ExecuteDecision?;
    assert LinkOk(cfg, s, base) && LinkOk(cfg, s, next);
  }

  lemma SaveKeepsDecisions(cfg: Settings, s: Store, base: Run, next: Run)
    requires StoreOk(cfg, s) && SaveOk(cfg, s, base, next) && s.runs[base.runId] == base
    ensures DecisionsOk(cfg, SaveRun(s, next).0)
  {
    hide KeyFor, RowFor, ArgumentsValid, ApprovalsOk, RunsOk, HistoryOk, OutcomeOk, LinkOk, FingerprintsDistinct,
      Vendor.VendorBlocks;
    var t := SaveRun(s, next).0;
    forall k | k in t.decisions ensures DecisionOk(cfg, t, k, t.decisions[k]) {
      assert DecisionOk(cfg, s, k, s.decisions[k]);
      if s.decisions[k].request.runId == base.runId {
        SavedDecisionOk(cfg, s, base, next, k);
      }
    }
  }

  lemma SaveKeepsApprovals(cfg: Settings, s: Store, base: Run, next: Run)
    requires StoreOk(cfg, s) && SaveOk(cfg, s, base, next) && s.runs[base.runId] == base
    ensures ApprovalsOk(SaveRun(s, next).0)
  {
    hide EngineOk, SavedInPlace, DecisionsOk, FingerprintsDistinct, HistoryOk, Doomed, LinkOk;
    var t := SaveRun(s, next).0;
    forall id | id in t.approvals ensures ApprovalOk(t, id, t.approvals[id]) {
      var a := s.approvals[id];
      assert ApprovalOk(s, id, a);
      if a.runId == base.runId && (a.signatures != map[] || !a.status.Pending?) {
        assert base.approvalId == Some(id);
        assert PastPlan(base.phase);
      }
    }
  }

  lemma SaveEvolves(cfg: Settings, s: Store, base: Run, next: Run)
    requires SaveOk(cfg, s, base, next) && s.runs[base.runId] == base
    ensures Evolves(s, SaveRun(s, next).0)
  {
    hide RunOk, SavedInPlace;
  }

  lemma VersionIsNoMatter(cfg: Settings, s: Store, run: Run, version: nat)
    requires RunOk(cfg, s, run)
    ensures RunOk(cfg, s, run.(version := version))
  {
    hide Phases.Recorded, Phases.CaseOutcome, HigherRisk, Phases.IntakeReasons, Phases.IntakeExceptions, AddNew,
      Accumulate, HigherVendorRisk, Vendor.VendorBlocks, Text;
    var later := run.(version := version);
    assert CaseOf(later) == CaseOf(run);
    assert HigherVendorRisk(later) == HigherVendorRisk(run) by { SameVendorSameRisk(run, later); }
  }

  lemma SaveKeepsRuns(cfg: Settings, s: Store, base: Run, next: Run)
    requires RunsOk(cfg, s) && SaveOk(cfg, s, base, next) && s.runs[base.runId] == base
    ensures var t := SaveRun(s, next).0; RunsOk(cfg, t) && RunOk(cfg, t, t.runs[base.runId])
  {
    hide RunOk, SavedInPlace, FactsFrozen, RequestKept, Evolves;
    var t := SaveRun(s, next).0;
    SaveEvolves(cfg, s, base, next);
    RunOkStable(cfg, s, t, next);
    VersionIsNoMatter(cfg, t, next, next.version + 1);
    forall k | k in t.runs ensures t.runs[k].runId == k && RunOk(cfg, t, t.runs[k]) {
      if k != base.runId {
        RunOkStable(cfg, s, t, s.runs[k]);
      }
    }
  }

  lemma SaveKeeps(cfg: Settings, s: Store, base: Run, next: Run)
    requires StoreOk(cfg, s) && SaveOk(cfg, s, base, next)
    ensures var (t, r) := SaveRun(s, next);
      StoreOk(cfg, t) && Evolves(s, t) && (r.Saved? ==> Behind(cfg, t, r.run))
  {
    hide RunsOk, ApprovalsOk, DecisionsOk, RunOk, Evolves;
    var (t, r) := SaveRun(s, next);
    if r.Saved? {
      CommittedSaveIsCurrent(cfg, s, base, next);
      SaveEvolves(cfg, s, base, next);
      SaveKeepsRuns(cfg, s, base, next);
      SaveKeepsApprovals(cfg, s, base, next);
      SaveKeepsDecisions(cfg, s, base, next);
      assert r.run == t.runs[base.runId];
    } else {
      EvolvesReflexive(s);
    }
  }

  // ---- driving ------------------------------------------------------------------------

  /** A failing run may take along records that its handler had already made. */
  lemma FailOk(cfg: Settings, s: Store, base: Run, left: Run)
    requires Behind(cfg, s, base) && left == base.(dossier := left.dossier) && Distinct(left.dossier.indicators)
    requires InPlan(base.phase) || (base.phase.ExecuteDecision? && Doomed(cfg, base) && FactsFrozen(base, left))
    ensures SaveOk(cfg, s, base, Fail(left))
  {
    hide EngineOk;
    var next := Fail(left);
    if InPlan(base.phase) {
      assert PHASE_ORDER[..Rank(base.phase)] <= PHASE_ORDER;
    }
    assert HistoryOk(next);
    assert EngineOk(next) by {
      if InPlan(base.phase) {
        NothingRecommendedYet(next);
      } else {
        EngineKept(base, next);
      }
    }
  }

  lemma CompletePlanPhase(run: Run)
    requires HistoryOk(run) && InPlan(run.phase)
    ensures var done := Complete(run);
      done.completedPhases == PHASE_ORDER[..Rank(run.phase) + 1] && done.stepsUsed == |done.completedPhases| &&
      done.stepsUsed == run.stepsUsed + 1 && done.status == StatusFor(done.phase)
  {
    var k := Rank(run.phase);
    assert PHASE_ORDER[k] == run.phase;
    assert forall i :: 0 <= i < k ==> Rank(PHASE_ORDER[i]) == i;
    assert run.phase !in PHASE_ORDER[..k];
    assert PHASE_ORDER[..k] + [PHASE_ORDER[k]] == PHASE_ORDER[..k + 1];
  }

  // ---- what the controls leave --------------------------------------------------------

  /** Once recommended, a run keeps what its controls gave as long as its facts are frozen. */
  lemma EngineKept(x: Run, y: Run)
    requires EngineOk(x) && x.recommendation.Some? && PastPlan(y.phase)
    requires FactsFrozen(x, y) && y.request == x.request
    ensures EngineOk(y)
  {
    hide Phases.Recorded, Phases.CaseOutcome, HigherRisk, Phases.IntakeReasons, AddNew, HigherVendorRisk;
    assert CaseOf(y) == CaseOf(x);
    assert HigherVendorRisk(y) == HigherVendorRisk(x) by { SameVendorSameRisk(x, y); }
  }

  lemma SameVendorSameRisk(x: Run, y: Run)
    requires x.gathered == y.gathered && x.dossier.recommendedAt == y.dossier.recommendedAt
    ensures HigherVendorRisk(y) == HigherVendorRisk(x)
  {
  }

  lemma NothingRecommendedYet(run: Run)
    requires run.phase.Failed? && run.recommendation.None?
    ensures EngineOk(run)
  {
  }

  lemma EvidenceEngineOk(cfg: Settings, base: Run, i: Input)
    requires EngineOk(base) && InPlan(base.phase) && !base.phase.Recommend? && base.recommendation.None?
    ensures EngineOk(Complete(HandleEvidencePhase(cfg, base, i)))
  {
    hide Accumulate, AddNew, Phases.ReconcileExceptions, HigherRisk, Spend;
    var done := Complete(HandleEvidencePhase(cfg, base, i));
    assert Rank(done.phase) == Rank(base.phase) + 1;
    if base.phase.RetrievePolicy? || base.phase.GatherEvidence? {
      IntakeReadsTheRequest(CaseOf(base), CaseOf(done), base.dossier.intakeDay);
    }
  }

  /** What no evidence phase touches. */
  lemma HandlersKeep(cfg: Settings, base: Run, i: Input)
    requires base.toolCallsUsed <= cfg.maxToolCalls && Distinct(base.dossier.indicators)
    ensures var run := HandleEvidencePhase(cfg, base, i);
      Distinct(run.dossier.indicators) &&
      run == base.(request := run.request, gathered := run.gathered, dossier := run.dossier,
                   toolCallsUsed := run.toolCallsUsed) &&
      run.request.amount == base.request.amount && RequestKept(base, run) &&
      base.toolCallsUsed <= run.toolCallsUsed <= cfg.maxToolCalls
  {
    AddNewKeeps(base.dossier.indicators, i.indicators);
    hide Accumulate, AddNew, Phases.ReconcileExceptions, Phases.IntakeExceptions, Phases.IntakeReasons, HigherRisk;
  }

  lemma HandlersKeepIdentity(cfg: Settings, base: Run, i: Input)
    ensures var run := HandleEvidencePhase(cfg, base, i);
      run.runId == base.runId && run.version == base.version && run.phase == base.phase
  {
    hide Accumulate, AddNew, Phases.ReconcileExceptions, Phases.IntakeExceptions, Phases.IntakeReasons, HigherRisk;
  }

  /** The intake controls look at the request and its texts only. */
  lemma IntakeReadsTheRequest(c: Phases.CaseFile, d: Phases.CaseFile, day: int)
    requires c.request == d.request && c.creditWording == d.creditWording
    ensures Phases.IntakeExceptions(c, day) == Phases.IntakeExceptions(d, day)
    ensures Phases.IntakeReasons(c, day) == Phases.IntakeReasons(d, day)
  {
  }

  /** The recommendation is the outcome of the run's own case. */
  lemma RecommendedEngineOk(base: Run, moment: int, suggested: Option<Outcome>, next: Run)
    requires EngineOk(base) && base.phase.Recommend? && PastPlan(next.phase)
    requires var run := Recommended(base, moment, suggested);
      next.recommendation == run.recommendation && next.request == run.request && next.gathered == run.gathered &&
      next.dossier == run.dossier
    ensures EngineOk(next)
  {
    hide Phases.Recorded, HigherRisk, Phases.IntakeReasons, AddNew, Phases.OutcomeOn;
    assert CaseOf(next) == CaseOf(base);
    NewOnesOrNone(Phases.IntakeReasons(CaseOf(base), base.dossier.intakeDay));
  }

  lemma EvidencePhaseOk(cfg: Settings, s: Store, base: Run, i: Input)
    requires Behind(cfg, s, base) && InPlan(base.phase) && !base.phase.Recommend? && base.stepsUsed < cfg.maxSteps
    ensures SaveOk(cfg, s, base, Complete(HandleEvidencePhase(cfg, base, i)))
  {
    hide EngineOk, HandleIntake, HandleReconcile, HandleAssessRisk;
    var run := HandleEvidencePhase(cfg, base, i);
    HandlersKeep(cfg, base, i);
    CompletePlanPhase(run);
    var k := Rank(base.phase);
    assert Rank(PHASE_ORDER[k + 1]) == k + 1;
    assert HistoryOk(Complete(run));
    EvidenceEngineOk(cfg, base, i);
  }

  /** Approval is asked for exactly the outcomes that have consequences. */
  lemma AskingIsConsequence(run: Run, moment: int, suggested: Option<Outcome>)
    ensures var r := RecommendFor(run, moment, suggested); r.requiresApproval <==> r.outcome.IsConsequential()
  {
  }

  lemma WithoutApprovalOk(cfg: Settings, s: Store, base: Run, moment: int, suggested: Option<Outcome>)
    requires Behind(cfg, s, base) && base.phase.Recommend? && base.stepsUsed < cfg.maxSteps
    requires !RecommendFor(base, moment, suggested).requiresApproval
    ensures SaveOk(cfg, s, base, Complete(Recommended(base, moment, suggested)))
  {
    hide EngineOk, RecommendFor;
    var next := Recommended(base, moment, suggested);
    AskingIsConsequence(base, moment, suggested);
    CompletePlanPhase(next);
    assert PHASE_ORDER[..6] == PHASE_ORDER;
    RecommendedEngineOk(base, moment, suggested, Complete(next));
  }

  /** The first gate never refuses a run that reached the decision phase. */
  lemma FirstGateOpens(cfg: Settings, s: Store, base: Run)
    requires StoreOk(cfg, s) && Behind(cfg, s, base) && base.phase.ExecuteDecision?
    ensures base.approvalId.Some? && base.approvalId.value in s.approvals && base.recommendation.Some?
    ensures AuthoriseDecision(base, Some(s.approvals[base.approvalId.value]))
    ensures s.approvals[base.approvalId.value].requestedOutcome == base.recommendation.value.outcome
  {
    hide DecisionsOk, FingerprintsDistinct, SignerOk, Backed, HistoryOk, KeyFor, Doomed;
    assert LinkOk(cfg, s, base);
    assert ApprovalOk(s, base.approvalId.value, s.approvals[base.approvalId.value]);
  }

  lemma ExecutingRunIsDoomedExactlyWhen(cfg: Settings, s: Store, base: Run)
    requires RunOk(cfg, s, base) && base.phase.ExecuteDecision? && base.stepsUsed < cfg.maxSteps
    ensures Doomed(cfg, base) <==> Vendor.VendorBlocks(base.gathered.vendor)
  {
  }

  lemma ExecuteStepOk(cfg: Settings, s: Store, base: Run, i: Input)
    requires StoreOk(cfg, s) && Behind(cfg, s, base) && base.phase.ExecuteDecision?
    requires base.stepsUsed < cfg.maxSteps
    ensures WorkerOk(cfg, s, StepExecute(s, base, i))
  {
    hide StoreOk, RunOk, AuthoriseDecision, Vendor.StatusCheck, Any, Doomed, Vendor.VendorBlocks, Fail, SaveOk;
    FirstGateOpens(cfg, s, base);
    ExecutingRunIsDoomedExactlyWhen(cfg, s, base);
    var g := base.gathered;
    Vendor.RevalidationIgnoresTheClock(g.vendor, g.sameName, i.moment, g.history);
    if Vendor.VendorBlocks(g.vendor) {
      AccumulateKeeps(base.dossier.exceptions, Stops(VendorCheckNow(base, i.moment)));
      IndicatorsAreDistinct(cfg, s, base);
      FailOk(cfg, s, base, WithStops(base, i.moment));
    }
  }

  lemma IndicatorsAreDistinct(cfg: Settings, s: Store, run: Run)
    requires RunOk(cfg, s, run)
    ensures Distinct(run.dossier.indicators)
  {
  }

  lemma NotYetLinked(cfg: Settings, s: Store, run: Run)
    requires RunOk(cfg, s, run) && InPlan(run.phase)
    ensures run.approvalId.None? && run.recommendation.None?
  {
  }

  lemma RecommendStepOk(cfg: Settings, s: Store, base: Run, i: Input)
    requires Behind(cfg, s, base) && base.phase.Recommend? && base.stepsUsed < cfg.maxSteps
    ensures WorkerOk(cfg, s, StepRecommend(s, base, i))
  {
    hide RunOk, Complete, Fail, SaveOk, Phases.OutcomeOn, HigherRisk;
    assert base.approvalId.None? by { NotYetLinked(cfg, s, base); }
    if i.modelFails {
      IndicatorsAreDistinct(cfg, s, base);
      FailOk(cfg, s, base, base);
    } else if !RecommendFor(base, i.moment, i.suggested).requiresApproval {
      WithoutApprovalOk(cfg, s, base, i.moment, i.suggested);
    }
  }

  lemma ExhaustedRunIsDoomed(cfg: Settings, s: Store, base: Run)
    requires RunOk(cfg, s, base) && base.phase.ExecuteDecision? && base.stepsUsed >= cfg.maxSteps
    ensures Doomed(cfg, base)
  {
    hide EngineOk, LinkOk;
  }

  lemma AssessRiskKeeps(base: Run, i: Input)
    requires Distinct(base.dossier.indicators)
    ensures HandleAssessRisk(base, i) == base.(dossier := HandleAssessRisk(base, i).dossier)
    ensures Distinct(HandleAssessRisk(base, i).dossier.indicators)
  {
    AddNewKeeps(base.dossier.indicators, i.indicators);
  }

  lemma DrivingStepOk(cfg: Settings, s: Store, base: Run, i: Input)
    requires StoreOk(cfg, s) && Behind(cfg, s, base)
    ensures WorkerOk(cfg, s, StepDriving(cfg, s, base, i))
  {
    hide RunOk, StepExecute, StepRecommend, HandleEvidencePhase, Complete, Fail, SaveOk, HandleAssessRisk, StoreOk;
    if base.phase.IsTerminal() || base.phase.AwaitingApproval? {
    } else if base.stepsUsed >= cfg.maxSteps {
      if base.phase.ExecuteDecision? {
        ExhaustedRunIsDoomed(cfg, s, base);
      }
      IndicatorsAreDistinct(cfg, s, base);
      FailOk(cfg, s, base, base);
    } else if base.phase.ExecuteDecision? {
      ExecuteStepOk(cfg, s, base, i);
    } else if base.phase.Recommend? {
      RecommendStepOk(cfg, s, base, i);
    } else if base.phase.AssessRisk? && i.modelFails {
      IndicatorsAreDistinct(cfg, s, base);
      AssessRiskKeeps(base, i);
      FailOk(cfg, s, base, HandleAssessRisk(base, i));
    } else {
      EvidencePhaseOk(cfg, s, base, i);
    }
  }

  // ---- creating the approval ----------------------------------------------------------

  lemma CreateApprovalKeepsApprovals(s: Store, id: string, a: Approval)
    requires ApprovalsOk(s) && id !in s.approvals && a.runId in s.runs
    requires a.signatures == map[] && a.status.Pending? && a.requiredCount >= 1
    ensures ApprovalsOk(CreateApproval(s, id, a).0)
  {
    var t := CreateApproval(s, id, a).0;
    assert !a.RequirementMet();
    forall k | k in t.approvals ensures ApprovalOk(t, k, t.approvals[k]) {
      if k != id {
        assert ApprovalOk(s, k, s.approvals[k]);
      }
    }
  }

  lemma CreateApprovalEvolves(s: Store, id: string, a: Approval)
    ensures var t := CreateApproval(s, id, a).0;
      Evolves(s, t) && t.runs == s.runs && t.decisions == s.decisions
  {
  }

  lemma CreateApprovalKeeps(cfg: Settings, s: Store, id: string, a: Approval)
    requires StoreOk(cfg, s) && a.signatures == map[] && a.status.Pending? && a.requiredCount >= 1
    ensures var t := CreateApproval(s, id, a).0; StoreOk(cfg, t) && Evolves(s, t)
  {
    var (t, created) := CreateApproval(s, id, a);
    CreateApprovalEvolves(s, id, a);
    if created {
      CreateApprovalKeepsApprovals(s, id, a);
      RunsCarryOver(cfg, s, t);
      DecisionsCarryOver(cfg, s, t);
    }
  }

  lemma LinkedRunOk(cfg: Settings, t: Store, base: Run, moment: int, suggested: Option<Outcome>, id: string)
    requires RunOk(cfg, t, base) && base.phase.Recommend? && base.stepsUsed < cfg.maxSteps
    requires var next := Recommended(base, moment, suggested);
      next.recommendation.value.outcome.IsConsequential() &&
      id in t.approvals && t.approvals[id] == ApprovalFor(next)
    ensures var done := Complete(Recommended(base, moment, suggested).(approvalId := Some(id)));
      RunOk(cfg, t, done) && RunEvolves(base, done.(version := base.version + 1))
  {
    hide EngineOk, Phases.OutcomeOn, Vendor.StatusCheck;
    var linked := Recommended(base, moment, suggested).(approvalId := Some(id));
    CompletePlanPhase(linked);
    assert PHASE_ORDER[..6] == PHASE_ORDER;
    var done := Complete(linked);
    assert Presents(t.approvals[id], done);
    RecommendedEngineOk(base, moment, suggested, done);
  }

  lemma CreatingStepOk(cfg: Settings, s: Store, base: Run, next: Run, i: Input)
    requires StoreOk(cfg, s) && WorkerOk(cfg, s, CreatingApproval(base, next))
    ensures var (t, w) := StepCreatingApproval(s, base, next, i);
      StoreOk(cfg, t) && Evolves(s, t) && WorkerOk(cfg, t, w)
  {
    hide RunOk, StoreOk, Evolves, RunEvolves, TransitionFrom, RecommendFor;
    var a := ApprovalFor(next);
    CreateApprovalKeeps(cfg, s, i.newApprovalId, a);
    var (t, w) := StepCreatingApproval(s, base, next, i);
    if w.Saving? {
      BehindStable(cfg, s, t, base);
      LinkedRunOk(cfg, t, base, next.dossier.recommendedAt, next.dossier.suggested, i.newApprovalId);
    }
  }

  // ---- recording the decision ---------------------------------------------------------

  lemma SubmittingStepOk(cfg: Settings, s: Store, base: Run, args: DecisionRequest)
    requires StoreOk(cfg, s) && RecordOk(cfg, s, base, args)
    ensures StepSubmitting(s, base, args) == Recording(base, args)
  {
    var a := s.approvals[base.approvalId.value];
    assert LinkOk(cfg, s, base) && ApprovalOk(s, base.approvalId.value, a);
  }

  /** While a worker holds the right to record, the stored run is at the decision or past it. */
  lemma RecorderPhase(cfg: Settings, s: Store, base: Run, args: DecisionRequest)
    requires StoreOk(cfg, s) && RecordOk(cfg, s, base, args)
    ensures var run := s.runs[base.runId];
      (run.phase.ExecuteDecision? || run.phase.Completed?) && run.approvalId.Some? && run.recommendation.Some? &&
      ArgsOf(run) == args && !Doomed(cfg, run)
  {
    var run := s.runs[base.runId];
    assert RunOk(cfg, s, run) && LinkOk(cfg, s, run) && LinkOk(cfg, s, base);
  }

  /** No other decision of the run can exist under another key. */
  lemma RunHasOnlyItsKey(cfg: Settings, s: Store, base: Run, args: DecisionRequest)
    requires StoreOk(cfg, s) && RecordOk(cfg, s, base, args)
    requires RunHasDecision(s, base.runId)
    ensures KeyFor(args) in s.decisions && s.decisions[KeyFor(args)].request == args
  {
    var k :| k in s.decisions && s.decisions[k].receipt.runId == base.runId;
    assert DecisionOk(cfg, s, k, s.decisions[k]);
    RecorderPhase(cfg, s, base, args);
  }

  lemma RecordEvolves(s: Store, key: string, row: DecisionRow)
    ensures var t := RecordDecision(s, key, row).0;
      Evolves(s, t) && t.runs == s.runs && t.approvals == s.approvals &&
      (t == s || (key !in s.decisions && !InvoiceHasDecision(s, row.fingerprint) &&
                  t.decisions == s.decisions[key := row]))
  {
  }

  lemma NewRowKeepsDecisions(cfg: Settings, s: Store, t: Store, key: string, row: DecisionRow)
    requires DecisionsOk(cfg, s) && t.runs == s.runs && key !in s.decisions
    requires t.decisions == s.decisions[key := row] && DecisionOk(cfg, s, key, row)
    ensures DecisionsOk(cfg, t)
  {
    forall k | k in t.decisions ensures DecisionOk(cfg, t, k, t.decisions[k]) {
      assert DecisionOk(cfg, s, k, if k == key then row else s.decisions[k]);
    }
  }

  lemma NewRowKeepsFingerprints(s: Store, t: Store, key: string, row: DecisionRow)
    requires FingerprintsDistinct(s) && key !in s.decisions && !InvoiceHasDecision(s, row.fingerprint)
    requires t.decisions == s.decisions[key := row]
    ensures FingerprintsDistinct(t)
  {
  }

  lemma NewRowOk(cfg: Settings, s: Store, base: Run, args: DecisionRequest, moment: int)
    requires StoreOk(cfg, s) && RecordOk(cfg, s, base, args)
    ensures DecisionOk(cfg, s, KeyFor(args), RowFor(args, moment))
  {
    RecorderPhase(cfg, s, base, args);
  }

  lemma RecordKeeps(cfg: Settings, s: Store, base: Run, args: DecisionRequest, moment: int)
    requires StoreOk(cfg, s) && RecordOk(cfg, s, base, args)
    ensures var t := RecordDecision(s, KeyFor(args), RowFor(args, moment)).0; StoreOk(cfg, t) && Evolves(s, t)
  {
    var key, row := KeyFor(args), RowFor(args, moment);
    var t := RecordDecision(s, key, row).0;
    RecordEvolves(s, key, row);
    if t != s {
      NewRowOk(cfg, s, base, args, moment);
      NewRowKeepsDecisions(cfg, s, t, key, row);
      NewRowKeepsFingerprints(s, t, key, row);
      RunsCarryOver(cfg, s, t);
      ApprovalsCarryOver(s, t);
    }
  }

  /** Recording either conflicts with another invoice or key, or yields the receipt of the one stored row. */
  lemma RecordResultIsStoredRow(cfg: Settings, s: Store, base: Run, args: DecisionRequest, moment: int)
    requires StoreOk(cfg, s) && RecordOk(cfg, s, base, args)
    ensures var (t, r) := RecordDecision(s, KeyFor(args), RowFor(args, moment));
      r.Recorded? ==> KeyFor(args) in t.decisions && t.decisions[KeyFor(args)].request == args &&
                      r.receipt.(replayed := false) == t.decisions[KeyFor(args)].receipt &&
                      (r.replayed <==> KeyFor(args) in s.decisions)
  {
    hide RecordOk, ApprovalsOk, RunsOk, FingerprintsDistinct, FingerprintFor, KeyFor, Doomed;
    if KeyFor(args) in s.decisions {
      assert DecisionOk(cfg, s, KeyFor(args), s.decisions[KeyFor(args)]);
    }
  }

  lemma CompletedRunOk(cfg: Settings, t: Store, base: Run, receipt: Receipt)
    requires RunOk(cfg, t, base) && base.phase.ExecuteDecision? && cfg.maxSteps > 6
    requires KeyFor(ArgsOf(base)) in t.decisions && t.decisions[KeyFor(ArgsOf(base))].request == ArgsOf(base)
    requires receipt.(replayed := false) == t.decisions[KeyFor(ArgsOf(base))].receipt
    ensures RunOk(cfg, t, Complete(base.(decision := Some(receipt))))
    ensures RunEvolves(base, Complete(base.(decision := Some(receipt))).(version := base.version + 1))
  {
    hide EngineOk, Text, SavedInPlace;
    var next := Complete(base.(decision := Some(receipt)));
    EngineKept(base, next);
    assert ExecuteDecision !in PHASE_ORDER;
    assert HistoryOk(next) && OutcomeOk(next);
    assert ArgsOf(next) == ArgsOf(base);
    assert LinkOk(cfg, t, base);
  }

  lemma RecordingStepOk(cfg: Settings, s: Store, base: Run, args: DecisionRequest, i: Input)
    requires StoreOk(cfg, s) && RecordOk(cfg, s, base, args)
    ensures var (t, w) := StepRecording(s, base, args, i);
      StoreOk(cfg, t) && Evolves(s, t) && WorkerOk(cfg, t, w)
  {
    hide StoreOk, Evolves, KeyFor, FingerprintFor, RunOk;
    RecordKeeps(cfg, s, base, args, i.moment);
    RecordResultIsStoredRow(cfg, s, base, args, i.moment);
    var (t, r) := RecordDecision(s, KeyFor(args), RowFor(args, i.moment));
    if r.Recorded? {
      BehindStable(cfg, s, t, base);
      CompletedRunOk(cfg, t, base, r.receipt);
    }
  }

  // ---- resolving the approval ---------------------------------------------------------

  lemma SpendBounds(cfg: Settings, used: nat, calls: nat)
    requires used <= cfg.maxToolCalls
    ensures used <= Spend(cfg, used, calls) <= cfg.maxToolCalls
  {
  }

  /** A delivery that has work to do finds its run waiting for approval. */
  lemma PendingMeansAwaiting(cfg: Settings, s: Store, base: Run)
    requires RunOk(cfg, s, base) && base.approvalId.Some? && s.approvals[base.approvalId.value].status.Pending?
    ensures base.phase.AwaitingApproval?
  {
    hide EngineOk, Text, KeyFor;
    assert LinkOk(cfg, s, base);
  }

  lemma AwaitingSaveOk(cfg: Settings, s: Store, base: Run, next: Run)
    requires Behind(cfg, s, base) && base.phase.AwaitingApproval?
    requires next == base.(toolCallsUsed := next.toolCallsUsed)
    requires base.toolCallsUsed <= next.toolCallsUsed <= cfg.maxToolCalls
    ensures SignOk(cfg, s, base, next)
  {
    hide EngineOk;
    EngineKept(base, next);
  }

  /** A refused signature leaves its records behind. */
  lemma RefusedSaveOk(cfg: Settings, s: Store, base: Run, next: Run, found: seq<ExceptionRecord>)
    requires SignOk(cfg, s, base, next)
    ensures SaveOk(cfg, s, base, WithExceptions(next, found))
  {
    hide EngineOk;
    AccumulateKeeps(next.dossier.exceptions, found);
    EngineKept(next, WithExceptions(next, found));
  }

  lemma AcceptedSignerOk(
      run: Run, a: Approval, d: Delivery, delegation: Option<DelegationRecord>, moment: int)
    requires a.presentedAmount == run.request.amount
    requires AuthoriseSignature(a, d, run, delegation, moment)
    ensures var sig := SignatureFrom(ValidateSigner(a, d, run, delegation, moment), d, moment);
      SignerOk(run, d.approverId, sig) && Backed(a, sig)
  {
    hide Authority.RoleInForce, Authority.PolicyAllows, Segregation.CooledOff, Segregation.CheckApprovalTime,
      Segregation.Receipters, Money.Quantize, Authority.MinimumRole;
    var requirement := Authority.RequiredAuthority(a.presentedAmount, a.higherRisk);
    Authority.AcceptanceCharacterised(requirement, d.approverId, d.approverRole, delegation,
      run.request.requestedBy, run.request.costCentreTokens, PrimarySigned(a), DateOf(moment));
    Authority.AcceptedSignatureRecords(requirement, d.approverId, d.approverRole, delegation,
      run.request.requestedBy, run.request.costCentreTokens, PrimarySigned(a), DateOf(moment));
    Authority.DelegationNeverRemovesAuthority(d.approverRole.value, d.approverId, delegation,
      run.request.costCentreTokens, DateOf(moment));
    Segregation.CleanCheckCoolsOff(run.gathered.vendor, run.gathered.order, run.request.amount,
      run.request.requestedBy, d.approverId, DateOf(moment));
    LargeInvoiceSignerDidNotReceipt(run, d, moment);
  }

  lemma LargeInvoiceSignerDidNotReceipt(run: Run, d: Delivery, moment: int)
    requires Segregation.CheckApprovalTime(
      run.gathered.vendor, run.gathered.order, run.request.amount, run.request.requestedBy, d.approverId,
      DateOf(moment)) == []
    ensures run.request.amount > Segregation.THREE_PARTY_THRESHOLD ==>
      d.approverId !in Segregation.Receipters(run.gathered.order)
  {
  }

  lemma ResolvingStepOk(cfg: Settings, s: Store, base: Run, d: Delivery, i: Input)
    requires StoreOk(cfg, s) && Behind(cfg, s, base) && base.approvalId == Some(d.approvalId)
    ensures WorkerOk(cfg, s, StepResolving(cfg, s, base, d, i))
  {
    hide EngineOk, Refusals, WithExceptions, Text, ApprovalsOk, DecisionsOk, FingerprintsDistinct, SignerOk, Backed,
      ValidateSigner, AuthoriseSignature, HistoryOk, Doomed, SignatureFrom, RunEvolves;
    var w := StepResolving(cfg, s, base, d, i);
    if !w.Returned? && !w.Raised? {
      var a := s.approvals[d.approvalId];
      PendingMeansAwaiting(cfg, s, base);
      SpendBounds(cfg, base.toolCallsUsed, i.toolCalls);
      var delegation := if d.namesDelegation then i.delegation else None;
      var next := if d.namesDelegation
        then base.(toolCallsUsed := Spend(cfg, base.toolCallsUsed, i.toolCalls)) else base;
      AwaitingSaveOk(cfg, s, base, next);
      if w.Signing? {
        assert LinkOk(cfg, s, base);
        AcceptedSignerOk(base, a, d, delegation, i.moment);
      } else if w.Saving? {
        RefusedSaveOk(cfg, s, base, next, Refusals(a, d, base, delegation, i.moment));
      }
    }
  }

  lemma ResolutionOk(cfg: Settings, t: Store, base: Run, next: Run, approve: bool, met: bool)
    requires SignOk(cfg, t, base, next)
    requires approve && met ==> t.approvals[base.approvalId.value].status.Approved?
    requires !approve ==> t.approvals[base.approvalId.value].status.Rejected?
    ensures WorkerOk(cfg, t, AfterResolution(base, next, approve, met))
  {
    hide EngineOk;
    var w := AfterResolution(base, next, approve, met);
    assert LinkOk(cfg, t, next);
    EngineKept(base, w.next);
    assert HistoryOk(w.next);
  }

  lemma CollectedOnlyGrows(a: Approval, p: string, sig: Signature)
    requires a.RequirementMet()
    ensures Sign(a, p, sig).RequirementMet()
  {
    var after := Sign(a, p, sig);
    if p !in a.signatures {
      assert after.signatures.Keys == a.signatures.Keys + {p};
    }
    if a.HasFinancialControl() {
      var q :| q in a.signatures && a.signatures[q].isFinancialControl;
      assert q in after.signatures && after.signatures[q].isFinancialControl;
    }
  }

  /** One more signature: the status is approved exactly when the requirement is met, before and after. */
  lemma SignKeepsStatus(a: Approval, p: string, sig: Signature)
    requires !a.status.Rejected? && (a.status.Approved? <==> a.RequirementMet())
    ensures var b := Sign(a, p, sig);
      ApprovalEvolves(a, b) && !b.status.Rejected? && (b.status.Approved? <==> b.RequirementMet())
  {
    if a.RequirementMet() {
      CollectedOnlyGrows(a, p, sig);
    }
    var collected := a.(signatures := if p in a.signatures then a.signatures else a.signatures[p := sig]);
    assert Sign(a, p, sig) == if collected.RequirementMet() then collected.(status := Approved) else collected;
    StatusIsNotRequirement(collected, Approved);
  }

  lemma StatusIsNotRequirement(a: Approval, status: ApprovalStatus)
    ensures a.(status := status).RequirementMet() <==> a.RequirementMet()
  {
    var b := a.(status := status);
    assert b.signatures == a.signatures;
    assert a.HasFinancialControl() <==> b.HasFinancialControl();
  }

  lemma SignedApprovalOk(cfg: Settings, s: Store, run: Run, id: string, p: string, sig: Signature)
    requires StoreOk(cfg, s) && id in s.approvals && !s.approvals[id].status.Rejected?
    requires run.runId in s.runs && s.runs[run.runId] == run && run.approvalId == Some(id)
    requires SignerOk(run, p, sig) && Backed(s.approvals[id], sig)
    ensures ApprovalOk(s, id, Sign(s.approvals[id], p, sig))
  {
    hide EngineOk, SavedInPlace, Text, DecisionsOk, FingerprintsDistinct, HistoryOk, Doomed;
    var a := s.approvals[id];
    var b := Sign(a, p, sig);
    assert ApprovalOk(s, id, a);
    assert LinkOk(cfg, s, run);
    SignKeepsStatus(a, p, sig);
    forall q | q in b.signatures ensures SignerOk(run, q, b.signatures[q]) && Backed(b, b.signatures[q]) {
      if PrimarySigned(a) {
        PrimarySignedStable(a, b);
      }
    }
  }

  lemma ReplaceKeepsApprovals(s: Store, id: string, b: Approval)
    requires ApprovalsOk(s) && id in s.approvals && ApprovalOk(s, id, b)
    ensures ApprovalsOk(s.(approvals := s.approvals[id := b]))
  {
    var t := s.(approvals := s.approvals[id := b]);
    forall k | k in t.approvals ensures ApprovalOk(t, k, t.approvals[k]) {
      assert ApprovalOk(s, k, if k == id then b else s.approvals[k]);
    }
  }

  lemma ReplaceEvolves(s: Store, id: string, b: Approval)
    requires id in s.approvals && ApprovalEvolves(s.approvals[id], b)
    ensures Evolves(s, s.(approvals := s.approvals[id := b]))
  {
  }

  /** Replacing one approval by a legal later form keeps everything else. */
  lemma ReplaceApprovalKeeps(cfg: Settings, s: Store, id: string, b: Approval)
    requires StoreOk(cfg, s) && id in s.approvals && ApprovalEvolves(s.approvals[id], b)
    requires ApprovalOk(s, id, b)
    ensures var t := s.(approvals := s.approvals[id := b]); StoreOk(cfg, t) && Evolves(s, t)
  {
    var t := s.(approvals := s.approvals[id := b]);
    ReplaceEvolves(s, id, b);
    ReplaceKeepsApprovals(s, id, b);
    RunsCarryOver(cfg, s, t);
    DecisionsCarryOver(cfg, s, t);
  }

  lemma SignerOkFrozen(base: Run, run: Run, p: string, sig: Signature)
    requires RunEvolves(base, run) && base.phase.AwaitingApproval? && SignerOk(base, p, sig)
    ensures SignerOk(run, p, sig)
  {
  }

  lemma SigningKeeps(cfg: Settings, s: Store, base: Run, next: Run, p: string, sig: Signature)
    requires StoreOk(cfg, s) && WorkerOk(cfg, s, Signing(base, next, p, sig))
    requires !s.approvals[base.approvalId.value].status.Rejected?
    ensures var t := AddSignature(s, base.approvalId.value, p, sig).0;
      StoreOk(cfg, t) && Evolves(s, t) &&
      (t.approvals[base.approvalId.value].RequirementMet() ==> t.approvals[base.approvalId.value].status.Approved?)
  {
    var id := base.approvalId.value;
    SignerOkFrozen(base, s.runs[base.runId], p, sig);
    assert s.approvals[id].runId == base.runId;
    SignedApprovalOk(cfg, s, s.runs[base.runId], id, p, sig);
    assert ApprovalOk(s, id, s.approvals[id]);
    SignKeepsStatus(s.approvals[id], p, sig);
    ReplaceApprovalKeeps(cfg, s, id, Sign(s.approvals[id], p, sig));
  }

  lemma SigningStepOk(cfg: Settings, s: Store, base: Run, next: Run, p: string, sig: Signature)
    requires StoreOk(cfg, s) && WorkerOk(cfg, s, Signing(base, next, p, sig))
    ensures var (t, w) := StepSigning(s, base, next, p, sig);
      StoreOk(cfg, t) && Evolves(s, t) && WorkerOk(cfg, t, w)
  {
    hide RunOk, StoreOk, AfterResolution, Evolves, Sign, SignerOk, Backed;
    var id := base.approvalId.value;
    var (t, result) := AddSignature(s, id, p, sig);
    if result.Resolved? {
      SigningKeeps(cfg, s, base, next, p, sig);
      BehindStable(cfg, s, t, base);
      RunOkStable(cfg, s, t, next);
      if !result.replayed {
        ResolutionOk(cfg, t, base, next, true, result.approval.RequirementMet());
      }
    } else {
      EvolvesReflexive(s);
    }
  }

  lemma RejectedApprovalOk(s: Store, id: string)
    requires ApprovalsOk(s) && id in s.approvals && s.approvals[id].status.Pending?
    requires s.approvals[id].runId in s.runs ==> s.runs[s.approvals[id].runId].approvalId == Some(id)
    ensures var b := s.approvals[id].(status := Rejected);
      ApprovalOk(s, id, b) && ApprovalEvolves(s.approvals[id], b)
  {
    var a := s.approvals[id];
    var b := a.(status := Rejected);
    assert ApprovalOk(s, id, a);
    StatusIsNotRequirement(a, Rejected);
    forall q | q in b.signatures
      ensures SignerOk(s.runs[b.runId], q, b.signatures[q]) && Backed(b, b.signatures[q])
    {
      if PrimarySigned(a) {
        PrimarySignedStable(a, b);
      }
    }
  }

  /** A waiting run and its approval name each other, also in the stored copy of the run. */
  lemma LinkedBothWays(cfg: Settings, s: Store, base: Run)
    requires Behind(cfg, s, base) && base.phase.AwaitingApproval?
    ensures base.approvalId.Some? && base.approvalId.value in s.approvals
    ensures s.approvals[base.approvalId.value].runId == base.runId
    ensures s.runs[base.runId].approvalId == base.approvalId
  {
    hide HistoryOk, Doomed, KeyFor;
    assert LinkOk(cfg, s, base);
  }

  lemma RejectingStepOk(cfg: Settings, s: Store, base: Run, next: Run)
    requires StoreOk(cfg, s) && WorkerOk(cfg, s, Rejecting(base, next))
    ensures var (t, w) := StepRejecting(s, base, next);
      StoreOk(cfg, t) && Evolves(s, t) && WorkerOk(cfg, t, w)
  {
    hide AfterResolution, Evolves, DecisionsOk, FingerprintsDistinct, RunsOk, ApprovalOk, RunOk;
    LinkedBothWays(cfg, s, base);
    var id := base.approvalId.value;
    var (t, result) := RejectApproval(s, id);
    if result.Resolved? && !result.replayed {
      RejectedApprovalOk(s, id);
      ReplaceApprovalKeeps(cfg, s, id, s.approvals[id].(status := Rejected));
      BehindStable(cfg, s, t, base);
      RunOkStable(cfg, s, t, next);
      ResolutionOk(cfg, t, base, next, false, false);
    } else {
      EvolvesReflexive(s);
    }
  }

  /** A run reloaded while it waits, or once the gate is open, is one the resolver may go on from. */
  lemma ReloadedRunOk(cfg: Settings, s: Store, base: Run, approve: bool, met: bool)
    requires StoreOk(cfg, s) && WorkerOk(cfg, s, Reloading(base, approve, met))
    ensures var current := s.runs[base.runId];
      Behind(cfg, s, current) && current.approvalId == base.approvalId &&
      (!current.phase.IsTerminal() ==>
        current.phase.AwaitingApproval? || (current.phase.ExecuteDecision? && approve))
  {
    hide EngineOk, Text, ApprovalsOk, DecisionsOk, FingerprintsDistinct, KeyFor, Doomed, HistoryOk, Presents;
    var current := s.runs[base.runId];
    assert LinkOk(cfg, s, current);
  }

  /** At the decision phase the resolver saves the run as it is. */
  lemma ResaveOk(cfg: Settings, s: Store, current: Run, met: bool)
    requires Behind(cfg, s, current) && current.phase.ExecuteDecision?
    ensures WorkerOk(cfg, s, AfterResolution(current, current, true, met))
  {
    hide RunOk;
    assert HistoryOk(current) by { ExecutingRunHistory(cfg, s, current); }
    assert MoveTo(current, ExecuteDecision) == current;
  }

  lemma ExecutingRunHistory(cfg: Settings, s: Store, run: Run)
    requires RunOk(cfg, s, run)
    ensures HistoryOk(run)
  {
  }

  lemma ReloadingStepOk(cfg: Settings, s: Store, base: Run, approve: bool, met: bool)
    requires StoreOk(cfg, s) && WorkerOk(cfg, s, Reloading(base, approve, met))
    ensures WorkerOk(cfg, s, StepReloading(s, base, approve, met))
  {
    hide StoreOk, RunOk, AfterResolution;
    ReloadedRunOk(cfg, s, base, approve, met);
    var current := s.runs[base.runId];
    if current.phase.AwaitingApproval? {
      ReloadedBudgetOk(cfg, s, current);
      AwaitingSaveOk(cfg, s, current, current);
      ResolutionOk(cfg, s, current, current, approve, met);
    } else if current.phase.ExecuteDecision? {
      ResaveOk(cfg, s, current, met);
    }
  }

  lemma ReloadedBudgetOk(cfg: Settings, s: Store, run: Run)
    requires Behind(cfg, s, run)
    ensures run.toolCallsUsed <= cfg.maxToolCalls
  {
  }

  // ---- any step -----------------------------------------------------------------------

  lemma ReadingStepOk(cfg: Settings, s: Store, w: Worker, i: Input)
    requires StoreOk(cfg, s) && WorkerOk(cfg, s, w)
    requires w.Driving? || w.Submitting? || w.Resolving? || w.Reloading? || w.Returned? || w.Raised?
    ensures var (t, v) := Step(cfg, s, w, i); t == s && WorkerOk(cfg, t, v)
  {
    hide StoreOk, RunOk, RecordOk, StepDriving, StepSubmitting, StepResolving, StepReloading, RunEvolves;
    match w
    case Driving(base) => DrivingStepOk(cfg, s, base, i);
    case Submitting(base, args) => SubmittingStepOk(cfg, s, base, args);
    case Resolving(base, d) => ResolvingStepOk(cfg, s, base, d, i);
    case Reloading(base, approve, met) => ReloadingStepOk(cfg, s, base, approve, met);
    case Returned(_) =>
    case Raised =>
  }

  lemma SavingStepOk(cfg: Settings, s: Store, base: Run, next: Run, andThen: AfterSave)
    requires StoreOk(cfg, s) && SaveOk(cfg, s, base, next)
    ensures var (t, v) := StepSaving(s, next, andThen); StoreOk(cfg, t) && Evolves(s, t) && WorkerOk(cfg, t, v)
  {
    hide StoreOk, Evolves, SaveOk, RunOk;
    SaveKeeps(cfg, s, base, next);
  }

  /** What every step owes: a good store, changed only as stores may change, and a worker it can serve. */
  predicate StepKeeps(cfg: Settings, s: Store, after: (Store, Worker)) {
    StoreOk(cfg, after.0) && Evolves(s, after.0) && WorkerOk(cfg, after.0, after.1)
  }

  lemma DecisionStepOk(cfg: Settings, s: Store, w: Worker, i: Input)
    requires StoreOk(cfg, s) && WorkerOk(cfg, s, w) && (w.CreatingApproval? || w.Recording? || w.Saving?)
    ensures StepKeeps(cfg, s, Step(cfg, s, w, i))
  {
    hide StoreOk, RunOk, Evolves, StepCreatingApproval, StepRecording, StepSaving, RecordOk, SaveOk;
    match w
    case CreatingApproval(base, next) => CreatingStepOk(cfg, s, base, next, i);
    case Recording(base, args) => RecordingStepOk(cfg, s, base, args, i);
    case Saving(base, next, andThen) => SavingStepOk(cfg, s, base, next, andThen);
  }

  lemma ResolutionStepOk(cfg: Settings, s: Store, w: Worker, i: Input)
    requires StoreOk(cfg, s) && WorkerOk(cfg, s, w) && (w.Signing? || w.Rejecting?)
    ensures StepKeeps(cfg, s, Step(cfg, s, w, i))
  {
    hide StoreOk, RunOk, Evolves, StepSigning, StepRejecting;
    match w
    case Signing(base, next, p, sig) => SigningStepOk(cfg, s, base, next, p, sig);
    case Rejecting(base, next) => RejectingStepOk(cfg, s, base, next);
  }

  lemma StepOk(cfg: Settings, s: Store, w: Worker, i: Input)
    requires StoreOk(cfg, s) && WorkerOk(cfg, s, w)
    ensures StepKeeps(cfg, s, Step(cfg, s, w, i))
  {
    if w.CreatingApproval? || w.Recording? || w.Saving? {
      DecisionStepOk(cfg, s, w, i);
    } else if w.Signing? || w.Rejecting? {
      ResolutionStepOk(cfg, s, w, i);
    } else {
      ReadingStepOk(cfg, s, w, i);
      EvolvesReflexive(s);
    }
  }

  lemma StartKeepsApprovals(s: Store, run: Run)
    requires ApprovalsOk(s) && run.runId !in s.runs
    ensures ApprovalsOk(CreateRun(s, run).0)
  {
    var t := CreateRun(s, run).0;
    forall id | id in t.approvals ensures ApprovalOk(t, id, t.approvals[id]) {
      assert ApprovalOk(s, id, s.approvals[id]);
    }
  }

  lemma StartKeepsDecisions(cfg: Settings, s: Store, run: Run)
    requires DecisionsOk(cfg, s) && run.runId !in s.runs
    ensures DecisionsOk(cfg, CreateRun(s, run).0)
  {
    var t := CreateRun(s, run).0;
    forall k | k in t.decisions ensures DecisionOk(cfg, t, k, t.decisions[k]) {
      assert DecisionOk(cfg, s, k, s.decisions[k]);
    }
  }

  lemma NewRunOk(cfg: Settings, s: Store, runId: string, request: Request, written: Dec)
    ensures RunOk(cfg, s, NewRun(runId, request, written).(version := 1))
  {
    hide AmountOf;
  }

  lemma StartKeepsRuns(cfg: Settings, s: Store, run: Run)
    requires RunsOk(cfg, s) && run.runId !in s.runs && run == NewRun(run.runId, run.request, run.written)
    ensures var t := CreateRun(s, run).0; RunsOk(cfg, t) && Evolves(s, t) && RunOk(cfg, t, t.runs[run.runId])
  {
    hide RunOk, NewRun;
    var t := CreateRun(s, run).0;
    NewRunOk(cfg, t, run.runId, run.request, run.written);
    assert Evolves(s, t);
    forall k | k in t.runs ensures t.runs[k].runId == k && RunOk(cfg, t, t.runs[k]) {
      if k != run.runId {
        RunOkStable(cfg, s, t, s.runs[k]);
      }
    }
  }

  lemma StartKeeps(cfg: Settings, s: Store, run: Run)
    requires StoreOk(cfg, s) && run == NewRun(run.runId, run.request, run.written)
    ensures var (t, created) := CreateRun(s, run);
      StoreOk(cfg, t) && Evolves(s, t) && (created.Some? ==> Behind(cfg, t, created.value))
  {
    if run.runId !in s.runs {
      StartKeepsRuns(cfg, s, run);
      StartKeepsApprovals(s, run);
      StartKeepsDecisions(cfg, s, run);
    } else {
      EvolvesReflexive(s);
    }
  }

  lemma EnterOk(cfg: Settings, s: Store, e: Entry)
    requires StoreOk(cfg, s)
    ensures var (t, w) := Enter(s, e); StoreOk(cfg, t) && Evolves(s, t) && WorkerOk(cfg, t, w)
  {
    hide RunOk, Evolves, SavedInPlace, ApprovalsOk, DecisionsOk, FingerprintsDistinct;
    EvolvesReflexive(s);
    if e.Start? {
      var run := NewRun(e.runId, e.request, e.written);
      assert run == NewRun(run.runId, run.request, run.written);
      hide NewRun, StoreOk;
      StartKeeps(cfg, s, run);
    }
  }
}
