/** Histories that actually happen: an invoice taken from submission to the gate it waits at, event by event.

    The amount and the identifiers are parameters; everything else is one of five concrete cases. */
module Witness {
  import opened Prelude
  import opened Domain
  import opened Store
  import opened Protocol
  import opened Invariant
  import opened Decimals
  import opened Histories
  import opened RunState
  import Controls
  import Duplicates
  import Matching
  import MatchingBounds
  import Money
  import OutcomeSoundness
  import Phases
  import Preservation
  import Segregation
  import Theorems
  import Vendor

  // ---- the case -----------------------------------------------------------------------

  const MOMENT: int := 100 * DAY

  /** What is particular about the case: nothing; a seller paid overseas, which makes it a higher risk; an invoice
      already posted according to the history; two invoice lines that cite one order line; or an invoice in
      another currency than its order, which permits conversion. */
  datatype Profile = Plain | Overseas | Seen | CitedTwice | Foreign
  {
    function Currency(): string {
      if Foreign? then "USD" else "AUD"
    }

    /** What the order, and its one receipt, are worth. */
    function Ordered(amount: real): real {
      match this
      case CitedTwice => amount / 2.0
      case Foreign => 1.0
      case _ => amount
    }

    function Verdict(): Outcome {
      if Seen? then RejectDuplicate else ApproveForPosting
    }

    function Seller(): VendorRecord {
      VendorRecord("V", "Seller", Active, false, None, Overseas?, false, 0, 0, None)
    }

    function Order(amount: real): PurchaseOrder {
      var worth := Ordered(amount);
      PurchaseOrder("AUD", worth, true, Foreign?, None, [POLine(1, Freight, 1.0, worth, worth, true, false)],
        [GoodsReceipt(1, 1.0, "receiver")])
    }

    function Lines(amount: real): seq<InvoiceLine> {
      if CitedTwice? then
        [InvoiceLine(1, 1.0, amount / 2.0, amount / 2.0, Some(1)),
         InvoiceLine(2, 1.0, amount / 2.0, amount / 2.0, Some(1))]
      else []
    }

    function Invoiced(amount: real): Request {
      Request("case", "INV-1", "Seller", Some("V"), amount, Currency(), None, None, Some(0), Some("PO-1"), None,
        Some("requester"), {}, Lines(amount), {})
    }

    function History(amount: real): seq<HistoryMatch> {
      if Seen? then [HistoryMatch("V", "INV-1", "AUD", amount, 0, Posted, Some("PO-1"), {})] else []
    }

    function Advice(): Recommendation {
      Recommendation(Verdict(), true, Overseas?)
    }
  }

  /** What the outside answers, whenever it is asked. */
  function Answers(p: Profile, amount: real, approvalId: string): Input {
    Input({}, false, [], Some(p.Seller()), Some(p.Order(amount)), p.History(amount), true, None, [], 0, false, None,
      None, approvalId, MOMENT)
  }

  function CaseFor(p: Profile, amount: real): Phases.CaseFile {
    Phases.CaseFile(p.Invoiced(amount), false, [], None, true, Some(p.Seller()), Some(p.Order(amount)),
      p.History(amount))
  }

  lemma LinesMatch(amount: real)
    ensures var order := CitedTwice.Order(amount);
      (forall k :: 0 <= k < 2 ==> MatchingBounds.LineOk(order, CitedTwice.Lines(amount)[k])) &&
      Matching.ExpectedTotal(order, CitedTwice.Lines(amount)) == 2.0 * Money.Quantize(amount / 2.0)
  {
    hide Money.Quantize;
    var order, lines := CitedTwice.Order(amount), CitedTwice.Lines(amount);
    var line := order.lines[0];
    assert order.lines[..0] == [] && order.receipts[..0] == [];
    assert Matching.IndexOf(order.lines, 1) == Some(0);
    assert Matching.QuantityReceived(order.receipts, 1) == 1.0;
    forall k | 0 <= k < 2
      ensures MatchingBounds.LineOk(order, lines[k])
      ensures Matching.ExpectedOf(order, lines[k]) == Money.Quantize(amount / 2.0)
    {
      assert Matching.Priced(lines[k], line) == amount / 2.0;
      Money.QuantizeError(amount / 2.0);
      Money.QuantizeError(lines[k].lineTotal - Matching.ExpectedValue(lines[k], line));
    }
    var first := lines[..1];
    assert first == [lines[0]] && first[..0] == [];
    assert Matching.ExpectedTotal(order, first) == Money.Quantize(amount / 2.0);
    assert Matching.ExpectedTotal(order, lines) ==
      Matching.ExpectedTotal(order, first) + Matching.ExpectedOf(order, lines[1]);
  }

  lemma OrderMatches(p: Profile, amount: real)
    ensures MatchingBounds.CleanMatch(CaseFor(p, amount).InvoiceOn(DateOf(MOMENT)), p.Order(amount))
  {
    hide Money.Quantize;
    var invoice, order := CaseFor(p, amount).InvoiceOn(DateOf(MOMENT)), p.Order(amount);
    assert Matching.DocumentLimit(order) == 75.0;
    Money.QuantizeError(order.totalValue);
    Money.QuantizeError(invoice.netAmount - Matching.ExpectedNet(invoice, order));
    if p.CitedTwice? {
      LinesMatch(amount);
      Money.QuantizeError(amount / 2.0);
    }
  }

  lemma NothingBlocksTheCase(p: Profile, amount: real)
    requires !p.Seen?
    ensures !OutcomeSoundness.SomeControlBlocks(CaseFor(p, amount), DateOf(MOMENT), MOMENT)
  {
    hide Money.Quantize, Matching.MatchExceptions, MatchingBounds.CleanMatch;
    var c := CaseFor(p, amount);
    var invoice := c.InvoiceOn(DateOf(MOMENT));
    OrderMatches(p, amount);
    MatchingBounds.MatchIsCleanExactlyWhen(invoice, c.order);
    OutcomeSoundness.NothingBlocks();
    assert Phases.IntakeExceptions(c, DateOf(MOMENT)) == [];
    var results := Phases.ControlResults(c, MOMENT);
    assert results[1] == [] && results[2] == [] && results[3] == [] && results[4] == [] && results[7] == [];
    assert Controls.PermitsFreight(c.order.value.lines[0]);
    assert Any(c.order.value.lines, Controls.PermitsFreight);
    assert results[5] == [];
    assert !Any(results[6], IsBlocking);
  }

  lemma SeenIsADuplicate(amount: real)
    ensures Phases.CaseOutcome(CaseFor(Seen, amount), DateOf(MOMENT), MOMENT, MOMENT, 0, None) == RejectDuplicate
  {
    hide Any, Matching.MatchExceptions, Phases.Recorded, Phases.IntakeReasons;
    var c := CaseFor(Seen, amount);
    assert Duplicates.IsExact(c.InvoiceOn(DateOf(MOMENT)), c.history[0]) && c.history[0].IsSettled();
    assert Duplicates.HasSettledDuplicate(c.InvoiceOn(DateOf(MOMENT)), c.history);
  }

  /** What the controls make of the case. */
  lemma CaseComesOut(p: Profile, amount: real)
    ensures var c := CaseFor(p, amount);
      Phases.CaseOutcome(c, DateOf(MOMENT), MOMENT, MOMENT, 0, None) == p.Verdict() &&
      (HigherRisk(c, MOMENT) <==> p.Overseas?) &&
      (Vendor.StatusCheck(c.vendor, c.sameName, MOMENT, c.history).higherRisk <==> p.Overseas?)
  {
    hide OutcomeSoundness.SomeControlBlocks, Phases.CaseOutcome;
    if p.Seen? {
      SeenIsADuplicate(amount);
    } else {
      NothingBlocksTheCase(p, amount);
      OutcomeSoundness.ApprovedExactlyWhen(CaseFor(p, amount), DateOf(MOMENT), MOMENT, MOMENT, 0, None);
    }
  }

  // ---- up to the recommendation -------------------------------------------------------

  /** The run after a phase that only gathers or computes. */
  function Advanced(cfg: Settings, run: Run, i: Input): Run {
    Complete(HandleEvidencePhase(cfg, run, i)).(version := run.version + 1)
  }

  /** The run after its first `n` phases. */
  function Stage(cfg: Settings, p: Profile, r: string, written: Dec, i: Input, n: nat): Run {
    if n == 0 then NewRun(r, p.Invoiced(AmountOf(written)), written).(version := 1)
    else Advanced(cfg, Stage(cfg, p, r, written, i, n - 1), i)
  }

  /** What is known of it. */
  predicate AtStage(run: Run, p: Profile, r: string, written: Dec, i: Input, n: nat)
    requires n <= 5
  {
    var g, d := run.gathered, run.dossier;
    && run.runId == r && run.written == written && run.phase == PHASE_ORDER[n] && run.stepsUsed == n
    && run.request == p.Invoiced(AmountOf(written))
    && run.recommendation.None? && run.approvalId.None? && run.decision.None?
    && !d.creditWording && d.assertedTails == []
    && (n >= 1 ==> d.intakeDay == DateOf(MOMENT))
    && (n >= 3 ==>
          g.vendor == i.vendor && g.order == i.order && g.history == i.history && g.sameName && g.masterTail.None?)
    && (n >= 4 ==> d.reconciledAt == MOMENT)
    && d.indicators == []
  }

  lemma StageAdvances(cfg: Settings, run: Run, p: Profile, r: string, written: Dec, approvalId: string, n: nat)
    requires n < 5 && AtStage(run, p, r, written, Answers(p, AmountOf(written), approvalId), n)
    ensures var i := Answers(p, AmountOf(written), approvalId); AtStage(Advanced(cfg, run, i), p, r, written, i, n + 1)
  {
    hide AmountOf, Accumulate, AddNew, Phases.IntakeExceptions, Phases.IntakeReasons, Phases.ReconcileExceptions,
      HigherRisk;
    assert AddNew([], []) == [] by { NothingNew(); }
  }

  lemma NothingNew()
    ensures AddNew([], []) == []
  {
  }

  lemma {:induction false} StageIs(cfg: Settings, p: Profile, r: string, written: Dec, approvalId: string, n: nat)
    requires n <= 5
    ensures var i := Answers(p, AmountOf(written), approvalId);
      AtStage(Stage(cfg, p, r, written, i, n), p, r, written, i, n)
  {
    hide AmountOf, Advanced;
    if n > 0 {
      var i := Answers(p, AmountOf(written), approvalId);
      StageIs(cfg, p, r, written, approvalId, n - 1);
      StageAdvances(cfg, Stage(cfg, p, r, written, i, n - 1), p, r, written, approvalId, n - 1);
    }
  }

  lemma PhaseSteps(cfg: Settings, s: Store, run: Run, i: Input)
    requires run.runId in s.runs && s.runs[run.runId] == run && InPlan(run.phase) && !run.phase.Recommend?
    requires run.stepsUsed < cfg.maxSteps && !i.modelFails
    ensures var next := Complete(HandleEvidencePhase(cfg, run, i));
      Step(cfg, s, Driving(run), i) == (s, Saving(run, next, KeepDriving)) &&
      Step(cfg, s, Saving(run, next, KeepDriving), i) ==
        (s.(runs := s.runs[run.runId := Advanced(cfg, run, i)]), Driving(Advanced(cfg, run, i)))
  {
    Preservation.HandlersKeepIdentity(cfg, run, i);
    hide HandleEvidencePhase, TransitionFrom;
  }

  /** One phase, driven undisturbed. */
  lemma PhaseDriven(cfg: Settings, sys: System, id: nat, run: Run, i: Input, more: nat)
    requires id in sys.workers && sys.workers[id] == Driving(run)
    requires run.runId in sys.store.runs && sys.store.runs[run.runId] == run
    requires InPlan(run.phase) && !run.phase.Recommend? && run.stepsUsed < cfg.maxSteps && !i.modelFails
    ensures var next := Advanced(cfg, run, i);
      After(cfg, sys, Steps(id, i, more + 2)) ==
        After(cfg, System(sys.store.(runs := sys.store.runs[run.runId := next]), sys.workers[id := Driving(next)]),
              Steps(id, i, more))
  {
    hide Step, After, Complete, HandleEvidencePhase;
    PhaseSteps(cfg, sys.store, run, i);
    OneStepMore(cfg, sys, id, i, more + 2);
    var saving := Fire(cfg, sys, Act(id, i));
    OneStepMore(cfg, saving, id, i, more + 1);
    var next := Advanced(cfg, run, i);
    assert Fire(cfg, saving, Act(id, i)).workers == sys.workers[id := Driving(next)];
  }

  /** The system once run `r` is there and worker `id` is driving it. */
  function WithRun(sys: System, id: nat, run: Run): System {
    System(sys.store.(runs := sys.store.runs[run.runId := run]), sys.workers[id := Driving(run)])
  }

  function Submitted(p: Profile, r: string, written: Dec): Entry {
    Start(r, p.Invoiced(AmountOf(written)), written)
  }

  lemma StageDriven(cfg: Settings, sys: System, id: nat, run: Run, i: Input, more: nat)
    requires InPlan(run.phase) && !run.phase.Recommend? && run.stepsUsed < cfg.maxSteps && !i.modelFails
    ensures After(cfg, WithRun(sys, id, run), Steps(id, i, more + 2)) ==
      After(cfg, WithRun(sys, id, Advanced(cfg, run, i)), Steps(id, i, more))
  {
    hide After, Steps, Advanced;
    AdvancedIsTheSameRun(cfg, run, i);
    PhaseDriven(cfg, WithRun(sys, id, run), id, run, i, more);
    assert WithRun(WithRun(sys, id, run), id, Advanced(cfg, run, i)) == WithRun(sys, id, Advanced(cfg, run, i));
  }

  lemma AdvancedIsTheSameRun(cfg: Settings, run: Run, i: Input)
    ensures Advanced(cfg, run, i).runId == run.runId
  {
    Preservation.HandlersKeepIdentity(cfg, run, i);
  }

  lemma Started(cfg: Settings, sys: System, id: nat, p: Profile, r: string, written: Dec)
    requires r !in sys.store.runs
    ensures Fire(cfg, sys, Launch(id, Submitted(p, r, written))) ==
      WithRun(sys, id, NewRun(r, p.Invoiced(AmountOf(written)), written).(version := 1))
  {
    hide AmountOf;
  }

  lemma {:induction false} StagesDriven(cfg: Settings, sys: System, id: nat, p: Profile, r: string, written: Dec,
                                        approvalId: string, n: nat, more: nat)
    requires r !in sys.store.runs && n <= 5 && cfg.maxSteps >= 7
    ensures var i := Answers(p, AmountOf(written), approvalId);
      After(cfg, sys, [Launch(id, Submitted(p, r, written))] + Steps(id, i, 2 * n + more)) ==
        After(cfg, WithRun(sys, id, Stage(cfg, p, r, written, i, n)), Steps(id, i, more))
    decreases n
  {
    hide After, AmountOf, Steps, Advanced, Fire, Submitted;
    var i := Answers(p, AmountOf(written), approvalId);
    if n == 0 {
      Started(cfg, sys, id, p, r, written);
      AfterFirst(cfg, sys, Launch(id, Submitted(p, r, written)), Steps(id, i, more));
    } else {
      var before := Stage(cfg, p, r, written, i, n - 1);
      StageIs(cfg, p, r, written, approvalId, n - 1);
      StagesDriven(cfg, sys, id, p, r, written, approvalId, n - 1, more + 2);
      StageDriven(cfg, sys, id, before, i, more);
    }
  }

  // ---- the recommendation -------------------------------------------------------------

  lemma ItsOutcomeIsRecommended(run: Run, p: Profile, r: string, written: Dec, approvalId: string)
    requires AtStage(run, p, r, written, Answers(p, AmountOf(written), approvalId), 5) && EngineOk(run)
    ensures RecommendFor(run, MOMENT, None) == p.Advice()
  {
    hide Phases.CaseOutcome, Phases.OutcomeOn, AmountOf, Phases.Recorded;
    var amount := AmountOf(written);
    var next := Recommended(run, MOMENT, None).(phase := AwaitingApproval);
    CaseComesOut(p, amount);
    Preservation.RecommendedEngineOk(run, MOMENT, None, next);
    assert CaseOf(next) == CaseFor(p, amount);
    assert Reconciled(next) && RecommendedAs(next, next.recommendation.value);
    hide Phases.CaseOutcome, HigherRisk, Phases.OutcomeOn, Vendor.StatusCheck, AmountOf;
  }

  /** The run as it waits at its gate. */
  predicate AtTheGate(run: Run, p: Profile, r: string, written: Dec, approvalId: string) {
    && run.runId == r && run.written == written && run.phase.AwaitingApproval? && run.stepsUsed == 6
    && run.request == p.Invoiced(AmountOf(written))
    && run.recommendation == Some(p.Advice()) && run.approvalId == Some(approvalId) && run.decision.None?
    && run.gathered.vendor == Some(p.Seller()) && run.gathered.order == Some(p.Order(AmountOf(written)))
    && run.gathered.history == p.History(AmountOf(written)) && run.gathered.sameName
  }

  function FreshApproval(p: Profile, r: string, written: Dec): Approval {
    Approval(r, "case", Pending, p.Verdict(), AmountOf(written), p.Currency(), "V", p.Overseas?,
      if p.Overseas? then 2 else 1, p.Overseas?, map[])
  }

  function Waiting(cfg: Settings, p: Profile, r: string, written: Dec, approvalId: string): Run {
    var run := Stage(cfg, p, r, written, Answers(p, AmountOf(written), approvalId), 5);
    Complete(Recommended(run, MOMENT, None).(approvalId := Some(approvalId))).(version := run.version + 1)
  }

  lemma RecommendationStarts(cfg: Settings, s: Store, run: Run, p: Profile, r: string, written: Dec, approvalId: string)
    requires AtStage(run, p, r, written, Answers(p, AmountOf(written), approvalId), 5)
    requires cfg.maxSteps >= 7 && EngineOk(run)
    ensures StepDriving(cfg, s, run, Answers(p, AmountOf(written), approvalId)) ==
      CreatingApproval(run, Recommended(run, MOMENT, None))
    ensures RecommendFor(run, MOMENT, None) == p.Advice()
  {
    ItsOutcomeIsRecommended(run, p, r, written, approvalId);
    hide RecommendFor, EngineOk, AmountOf;
  }

  lemma ApprovalIsCreated(s: Store, run: Run, p: Profile, r: string, written: Dec, i: Input)
    requires AtStage(run, p, r, written, i, 5) && r in s.runs && RecommendFor(run, MOMENT, None) == p.Advice()
    requires run.gathered.higherRisk == p.Overseas? && i.newApprovalId !in s.approvals
    ensures var next := Recommended(run, MOMENT, None);
      StepCreatingApproval(s, run, next, i) ==
        (s.(approvals := s.approvals[i.newApprovalId := FreshApproval(p, r, written)]),
         Saving(run, Complete(next.(approvalId := Some(i.newApprovalId))), KeepDriving))
  {
    hide RecommendFor, AmountOf, Complete;
  }

  lemma CompletedRecommendation(run: Run, p: Profile, r: string, written: Dec, approvalId: string)
    requires AtStage(run, p, r, written, Answers(p, AmountOf(written), approvalId), 5)
    requires RecommendFor(run, MOMENT, None) == p.Advice()
    ensures var linked := Complete(Recommended(run, MOMENT, None).(approvalId := Some(approvalId)));
      linked.version == run.version && AtTheGate(linked.(version := run.version + 1), p, r, written, approvalId)
  {
    hide RecommendFor, AmountOf;
  }

  lemma SaveFollows(s: Store, base: Run, next: Run)
    requires base.runId in s.runs && s.runs[base.runId] == base
    requires next.runId == base.runId && next.version == base.version
    ensures var saved := next.(version := base.version + 1);
      StepSaving(s, next, KeepDriving) == (s.(runs := s.runs[base.runId := saved]), Driving(saved))
  {
  }

  lemma CaseRiskIsRecorded(run: Run, p: Profile, r: string, written: Dec, approvalId: string)
    requires AtStage(run, p, r, written, Answers(p, AmountOf(written), approvalId), 5) && EngineOk(run)
    ensures run.gathered.higherRisk == p.Overseas?
  {
    CaseComesOut(p, AmountOf(written));
    hide HigherRisk, AmountOf, Phases.CaseOutcome, Phases.Recorded, Vendor.StatusCheck;
    assert CaseOf(run) == CaseFor(p, AmountOf(written));
  }

  /** The system once the run waits at its gate. */
  function WithGate(sys: System, id: nat, run: Run, approvalId: string, a: Approval): System {
    System(sys.store.(runs := sys.store.runs[run.runId := run], approvals := sys.store.approvals[approvalId := a]),
           sys.workers[id := Driving(run)])
  }

  lemma RecommendationDriven(cfg: Settings, sys: System, id: nat, run: Run, p: Profile, r: string, written: Dec,
                             approvalId: string)
    requires AtStage(run, p, r, written, Answers(p, AmountOf(written), approvalId), 5) && cfg.maxSteps >= 7
    requires EngineOk(run) && approvalId !in sys.store.approvals
    ensures var i := Answers(p, AmountOf(written), approvalId);
      var waiting := Complete(Recommended(run, MOMENT, None).(approvalId := Some(approvalId)))
        .(version := run.version + 1);
      AtTheGate(waiting, p, r, written, approvalId) &&
      After(cfg, WithRun(sys, id, run), Steps(id, i, 3)) ==
        WithGate(sys, id, waiting, approvalId, FreshApproval(p, r, written))
  {
    hide After, Steps, EngineOk, Complete, RecommendFor, StepDriving, StepCreatingApproval, AmountOf;
    var i := Answers(p, AmountOf(written), approvalId);
    var from := WithRun(sys, id, run);
    CaseRiskIsRecorded(run, p, r, written, approvalId);
    RecommendationStarts(cfg, from.store, run, p, r, written, approvalId);
    ApprovalIsCreated(from.store, run, p, r, written, i);
    CompletedRecommendation(run, p, r, written, approvalId);
    ThreeMoreSteps(cfg, from, id, run, i, FreshApproval(p, r, written));
  }

  lemma ThreeMoreSteps(cfg: Settings, from: System, id: nat, run: Run, i: Input, a: Approval)
    requires id in from.workers && from.workers[id] == Driving(run)
    requires run.runId in from.store.runs && from.store.runs[run.runId] == run
    requires var next := Recommended(run, MOMENT, None);
      var linked := Complete(next.(approvalId := Some(i.newApprovalId)));
      StepDriving(cfg, from.store, run, i) == CreatingApproval(run, next) &&
      StepCreatingApproval(from.store, run, next, i) ==
        (from.store.(approvals := from.store.approvals[i.newApprovalId := a]), Saving(run, linked, KeepDriving)) &&
      linked.runId == run.runId && linked.version == run.version
    ensures var waiting := Complete(Recommended(run, MOMENT, None).(approvalId := Some(i.newApprovalId)))
        .(version := run.version + 1);
      After(cfg, from, Steps(id, i, 3)) == WithGate(from, id, waiting, i.newApprovalId, a)
  {
    hide After, Complete, RecommendFor, StepDriving, StepCreatingApproval, StepSaving, StepSubmitting, StepRecording,
      StepResolving, StepSigning, StepRejecting, StepReloading, Steps;
    var next := Recommended(run, MOMENT, None);
    var linked := Complete(next.(approvalId := Some(i.newApprovalId)));
    OneStepMore(cfg, from, id, i, 3);
    var creating := Fire(cfg, from, Act(id, i));
    OneStepMore(cfg, creating, id, i, 2);
    var saving := Fire(cfg, creating, Act(id, i));
    SaveFollows(saving.store, run, linked);
    OneStepMore(cfg, saving, id, i, 1);
    NoMoreSteps(cfg, Fire(cfg, saving, Act(id, i)), id, i);
  }

  /** From submission to the gate: the launch, two steps for each of five phases, and three for the sixth. */
  function ToTheGate(id: nat, p: Profile, r: string, written: Dec, approvalId: string): seq<Event> {
    [Launch(id, Submitted(p, r, written))] + Steps(id, Answers(p, AmountOf(written), approvalId), 13)
  }

  lemma GateIsReached(cfg: Settings, sys: System, id: nat, p: Profile, r: string, written: Dec, approvalId: string)
    requires Theorems.SystemOk(cfg, sys) && cfg.maxSteps >= 7
    requires r !in sys.store.runs && approvalId !in sys.store.approvals
    ensures After(cfg, sys, ToTheGate(id, p, r, written, approvalId)) ==
      WithGate(sys, id, Waiting(cfg, p, r, written, approvalId), approvalId, FreshApproval(p, r, written))
    ensures AtTheGate(Waiting(cfg, p, r, written, approvalId), p, r, written, approvalId)
  {
    hide Theorems.SystemOk, After, Advanced, AmountOf, Steps, EngineOk, WithRun, Complete;
    var i := Answers(p, AmountOf(written), approvalId);
    var run := Stage(cfg, p, r, written, i, 5);
    StageIs(cfg, p, r, written, approvalId, 5);
    StageIsGood(cfg, sys, id, p, r, written, approvalId);
    StagesDriven(cfg, sys, id, p, r, written, approvalId, 5, 3);
    RecommendationDriven(cfg, sys, id, run, p, r, written, approvalId);
  }

  lemma StageIsGood(cfg: Settings, sys: System, id: nat, p: Profile, r: string, written: Dec, approvalId: string)
    requires Theorems.SystemOk(cfg, sys) && cfg.maxSteps >= 7 && r !in sys.store.runs
    ensures EngineOk(Stage(cfg, p, r, written, Answers(p, AmountOf(written), approvalId), 5))
  {
    hide After, Steps, Advanced, Theorems.SystemOk, AmountOf, AtStage, WithRun;
    var i := Answers(p, AmountOf(written), approvalId);
    var run := Stage(cfg, p, r, written, i, 5);
    StagesDriven(cfg, sys, id, p, r, written, approvalId, 5, 0);
    NoMoreSteps(cfg, WithRun(sys, id, run), id, i);
    Theorems.AfterOk(cfg, sys, [Launch(id, Submitted(p, r, written))] + Steps(id, i, 10));
    StoredRunIsGood(cfg, sys, id, run);
  }

  lemma StoredRunIsGood(cfg: Settings, sys: System, id: nat, run: Run)
    requires Theorems.SystemOk(cfg, WithRun(sys, id, run))
    ensures EngineOk(run)
  {
    StoredRunOk(cfg, WithRun(sys, id, run).store, run);
  }

  lemma StoredRunOk(cfg: Settings, s: Store, run: Run)
    requires StoreOk(cfg, s) && run.runId in s.runs && s.runs[run.runId] == run
    ensures EngineOk(run)
  {
    assert RunOk(cfg, s, run);
  }

  // ---- the signature ------------------------------------------------------------------

  function ChiefSigns(approvalId: string): Delivery {
    Delivery(true, approvalId, "chief", Some(Ceo), false)
  }

  /** The CEO may sign the waiting run, and that one signature is all it needs. */
  lemma ChiefIsWelcome(s: Store, p: Profile, r: string, written: Dec, approvalId: string)
    requires !p.Overseas? && r in s.runs && AtTheGate(s.runs[r], p, r, written, approvalId)
    requires approvalId in s.approvals && s.approvals[approvalId] == FreshApproval(p, r, written)
    ensures Welcome(s, r, ChiefSigns(approvalId), MOMENT)
    ensures var b := SignedBy(s, r, ChiefSigns(approvalId), MOMENT);
      b.status.Approved? && b.RequirementMet() && b.signatures.Keys == {"chief"}
  {
    hide AmountOf, Money.Quantize;
    var run, a, d := s.runs[r], s.approvals[approvalId], ChiefSigns(approvalId);
    assert "chief" !in Segregation.Receipters(run.gathered.order);
    assert AuthoriseSignature(a, d, run, None, MOMENT);
    var sig := SignatureOf(a, d, run, MOMENT);
    var collected := a.(signatures := a.signatures["chief" := sig]);
    assert collected.signatures.Keys == {"chief"};
    assert |collected.signatures| == 1;
    Preservation.StatusIsNotRequirement(collected, Approved);
  }
}
