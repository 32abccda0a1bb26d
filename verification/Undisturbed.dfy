/** What a run carries when nobody disturbs it: exactly what it was given to read
    (src/ap_agent/orchestration/phases/). */
module Undisturbed {
  import opened Prelude
  import opened Domain
  import opened Store
  import opened Protocol
  import opened Decimals
  import opened RunState
  import Invariant
  import Phases
  import Preservation

  function AfterPhase(cfg: Settings, run: Run, i: Input): Run {
    Complete(HandleEvidencePhase(cfg, run, i))
  }

  /** The run when it comes to its recommendation, after five phases with these inputs. */
  function Assessed(cfg: Settings, r: string, request: Request, written: Dec, intake: Input, policy: Input,
                    evidence: Input, reconcile: Input, risk: Input): Run
  {
    var one := AfterPhase(cfg, NewRun(r, request, written), intake);
    var two := AfterPhase(cfg, one, policy);
    var three := AfterPhase(cfg, two, evidence);
    var four := AfterPhase(cfg, three, reconcile);
    AfterPhase(cfg, four, risk)
  }

  /** The case: the request with its attachments redacted, what its texts say, and the evidence gathered. */
  function CaseRead(request: Request, written: Dec, intake: Input, evidence: Input): Phases.CaseFile {
    Phases.CaseFile(
      request.(amount := AmountOf(written), attachmentHashes := intake.redactedHashes),
      intake.creditWording, intake.assertedTails, evidence.masterTail, evidence.sameName, evidence.vendor,
      evidence.order, evidence.history)
  }

  // ---- phase by phase -----------------------------------------------------------------

  lemma AfterIntake(cfg: Settings, run: Run, i: Input)
    requires run.phase.Intake?
    ensures var x := AfterPhase(cfg, run, i);
      x.phase == RetrievePolicy && x.recommendation == run.recommendation && x.gathered == run.gathered &&
      x.request == run.request.(attachmentHashes := i.redactedHashes) && x.toolCallsUsed == run.toolCallsUsed &&
      x.dossier.creditWording == i.creditWording && x.dossier.assertedTails == i.assertedTails &&
      x.dossier.intakeDay == i.moment / 86400 && x.dossier.indicators == run.dossier.indicators
  {
    hide Accumulate, AddNew, Phases.IntakeExceptions, Phases.IntakeReasons;
  }

  lemma AfterPolicy(cfg: Settings, run: Run, i: Input)
    requires run.phase.RetrievePolicy?
    ensures var x := AfterPhase(cfg, run, i);
      x.phase == GatherEvidence && x.recommendation == run.recommendation && x.gathered == run.gathered &&
      x.request == run.request && x.dossier == run.dossier &&
      x.toolCallsUsed == Spend(cfg, run.toolCallsUsed, i.toolCalls)
  {
    hide Spend;
  }

  lemma AfterEvidence(cfg: Settings, run: Run, i: Input)
    requires run.phase.GatherEvidence?
    ensures var x := AfterPhase(cfg, run, i);
      x.phase == Reconcile && x.recommendation == run.recommendation && x.request == run.request &&
      x.gathered.vendor == i.vendor && x.gathered.order == i.order && x.gathered.history == i.history &&
      x.gathered.sameName == i.sameName && x.gathered.masterTail == i.masterTail && x.dossier == run.dossier &&
      x.toolCallsUsed == Spend(cfg, run.toolCallsUsed, i.toolCalls)
  {
    hide Spend;
  }

  lemma AfterReconcile(cfg: Settings, run: Run, i: Input)
    requires run.phase.Reconcile?
    ensures var x := AfterPhase(cfg, run, i);
      x.phase == AssessRisk && x.recommendation == run.recommendation && x.request == run.request &&
      x.gathered == run.gathered.(higherRisk := x.gathered.higherRisk) && x.toolCallsUsed == run.toolCallsUsed &&
      x.dossier == run.dossier.(exceptions := x.dossier.exceptions, reconciledAt := i.moment)
  {
    hide Accumulate, Phases.ReconcileExceptions, HigherRisk;
  }

  lemma AfterAssessment(cfg: Settings, run: Run, i: Input)
    requires run.phase.AssessRisk?
    ensures var x := AfterPhase(cfg, run, i);
      x.phase == Recommend && x.recommendation == run.recommendation && x.request == run.request &&
      x.gathered == run.gathered && x.toolCallsUsed == run.toolCallsUsed &&
      x.dossier == run.dossier.(indicators := AddNew(run.dossier.indicators, i.indicators))
  {
    hide AddNew;
  }

  /** Nothing that was read is lost, mixed up or added to on the way: the run carries the case as it was read,
      the clock readings of its own phases, the indicators the risk assessment found, and the calls that the
      two phases that make any were given. */
  lemma RunCarriesWhatItRead(
      cfg: Settings, r: string, request: Request, written: Dec, intake: Input, policy: Input, evidence: Input,
      reconcile: Input, risk: Input)
    ensures var run := Assessed(cfg, r, request, written, intake, policy, evidence, reconcile, risk);
      run.phase == Recommend && CaseOf(run) == CaseRead(request, written, intake, evidence) &&
      run.dossier.intakeDay == intake.moment / 86400 && run.dossier.reconciledAt == reconcile.moment &&
      run.dossier.indicators == AddNew([], risk.indicators) &&
      run.toolCallsUsed == Spend(cfg, Spend(cfg, 0, policy.toolCalls), evidence.toolCalls) &&
      Invariant.EngineOk(run)
  {
    hide AmountOf, AddNew, Spend, AfterPhase, Invariant.EngineOk;
    var start := NewRun(r, request, written);
    var one := AfterPhase(cfg, start, intake);
    var two := AfterPhase(cfg, one, policy);
    var three := AfterPhase(cfg, two, evidence);
    var four := AfterPhase(cfg, three, reconcile);
    AfterIntake(cfg, start, intake);
    AfterPolicy(cfg, one, policy);
    AfterEvidence(cfg, two, evidence);
    AfterReconcile(cfg, three, reconcile);
    AfterAssessment(cfg, four, risk);
    NewRunEngineOk(r, request, written);
    PhaseKeepsEngine(cfg, start, intake);
    PhaseKeepsEngine(cfg, one, policy);
    PhaseKeepsEngine(cfg, two, evidence);
    PhaseKeepsEngine(cfg, three, reconcile);
    PhaseKeepsEngine(cfg, four, risk);
  }

  lemma NewRunEngineOk(r: string, request: Request, written: Dec)
    ensures Invariant.EngineOk(NewRun(r, request, written))
  {
    hide AmountOf;
  }

  lemma PhaseKeepsEngine(cfg: Settings, run: Run, i: Input)
    requires Invariant.EngineOk(run) && run.recommendation.None?
    requires run.phase in {Intake, RetrievePolicy, GatherEvidence, Reconcile, AssessRisk}
    ensures Invariant.EngineOk(AfterPhase(cfg, run, i))
  {
    hide Invariant.EngineOk, HandleEvidencePhase;
    Preservation.EvidenceEngineOk(cfg, run, i);
  }

  /** So the recommendation is the outcome of the case as it was read. */
  lemma UndisturbedRecommendation(
      cfg: Settings, r: string, request: Request, written: Dec, intake: Input, policy: Input, evidence: Input,
      reconcile: Input, risk: Input, moment: int, suggested: Option<Outcome>)
    ensures var run := Assessed(cfg, r, request, written, intake, policy, evidence, reconcile, risk);
      RecommendFor(run, moment, suggested).outcome ==
        Phases.CaseOutcome(CaseRead(request, written, intake, evidence), intake.moment / 86400, reconcile.moment,
          moment, |AddNew([], risk.indicators)|, suggested)
  {
    hide AmountOf, Phases.CaseOutcome, CaseRead, AfterPhase, AddNew, Assessed;
    var run := Assessed(cfg, r, request, written, intake, policy, evidence, reconcile, risk);
    RunCarriesWhatItRead(cfg, r, request, written, intake, policy, evidence, reconcile, risk);
    RecommendedOnItsRecord(run, moment, suggested);
  }

  lemma RecommendedOnItsRecord(run: Run, moment: int, suggested: Option<Outcome>)
    requires run.phase == Recommend && Invariant.EngineOk(run)
    ensures var d := run.dossier;
      RecommendFor(run, moment, suggested).outcome ==
        Phases.CaseOutcome(CaseOf(run), d.intakeDay, d.reconciledAt, moment, |d.indicators|, suggested)
  {
    hide Phases.OutcomeOn, Phases.Recorded, HigherRisk, AddNew, Phases.IntakeReasons;
    NewOnesOrNone(Phases.IntakeReasons(CaseOf(run), run.dossier.intakeDay));
  }

  /** Tool calls are all counted until the ceiling is reached, which they never pass. */
  lemma SpendCounts(cfg: Settings, used: nat, calls: nat)
    requires used <= cfg.maxToolCalls
    ensures Spend(cfg, used, calls) == if used + calls > cfg.maxToolCalls then cfg.maxToolCalls else used + calls
  {
  }
}
