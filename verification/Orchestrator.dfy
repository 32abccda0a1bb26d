/** The orchestrator as sequential code over the repository (src/ap_agent/orchestration/machine.py,
    phases/execute_decision.py, phases/recommend.py, approvals.py), proved to take exactly the steps of the
    protocol machine, in the same order, on the same store. Everything proved of the machine under every
    interleaving therefore speaks about this code. */
module Orchestrator {
  import opened Prelude
  import opened Domain
  import opened Store
  import opened Protocol
  import opened Repository
  import opened Invariant
  import opened Decimals
  import opened RunState
  import Phases
  import Preservation
  import Vendor

  /** What the outside answers when it is asked for the n-th time: tools, model, clock, identifiers. */
  type World = nat -> Input

  // ---- one worker walking alone -------------------------------------------------------

  predicate StepAt(cfg: Settings, world: World, from: nat, trace: seq<(Store, Worker)>, i: nat)
    requires i + 1 < |trace|
  {
    trace[i + 1] == Step(cfg, trace[i].0, trace[i].1, world(from + i))
  }

  predicate IsWalk(cfg: Settings, world: World, from: nat, trace: seq<(Store, Worker)>) {
    |trace| >= 1 && forall i :: 0 <= i < |trace| - 1 ==> StepAt(cfg, world, from, trace, i)
  }

  /** Starting from store `s` and worker `w`, the machine steps to `t` and `v`, and uses exactly the answers
      number `from` up to `to`. */
  ghost predicate WalksTo(cfg: Settings, world: World, s: Store, w: Worker, from: nat, t: Store, v: Worker, to: nat)
  {
    exists trace ::
      IsWalk(cfg, world, from, trace) && |trace| == to - from + 1 && trace[0] == (s, w) && trace[to - from] == (t, v)
  }

  lemma WalkNowhere(cfg: Settings, world: World, s: Store, w: Worker, at: nat)
    ensures WalksTo(cfg, world, s, w, at, s, w, at)
  {
    assert IsWalk(cfg, world, at, [(s, w)]);
  }

  lemma WalkOne(cfg: Settings, world: World, s: Store, w: Worker, at: nat, t: Store, v: Worker)
    requires Step(cfg, s, w, world(at)) == (t, v)
    ensures WalksTo(cfg, world, s, w, at, t, v, at + 1)
  {
    var trace := [(s, w), (t, v)];
    assert StepAt(cfg, world, at, trace, 0);
    assert IsWalk(cfg, world, at, trace);
  }

  lemma WalkDriving(cfg: Settings, world: World, s: Store, base: Run, at: nat, v: Worker)
    requires StepDriving(cfg, s, base, world(at)) == v
    ensures WalksTo(cfg, world, s, Driving(base), at, s, v, at + 1)
  {
    WalkOne(cfg, world, s, Driving(base), at, s, v);
  }

  lemma WalkSubmitting(cfg: Settings, world: World, s: Store, base: Run, args: DecisionRequest, at: nat, v: Worker)
    requires StepSubmitting(s, base, args) == v
    ensures WalksTo(cfg, world, s, Submitting(base, args), at, s, v, at + 1)
  {
    WalkOne(cfg, world, s, Submitting(base, args), at, s, v);
  }

  lemma WalkRecording(cfg: Settings, world: World, s: Store, base: Run, args: DecisionRequest, at: nat)
    ensures var (t, v) := StepRecording(s, base, args, world(at));
      WalksTo(cfg, world, s, Recording(base, args), at, t, v, at + 1)
  {
    var (t, v) := StepRecording(s, base, args, world(at));
    WalkOne(cfg, world, s, Recording(base, args), at, t, v);
  }

  lemma WalkCreating(cfg: Settings, world: World, s: Store, base: Run, next: Run, at: nat)
    requires next.recommendation.Some?
    ensures var (t, v) := StepCreatingApproval(s, base, next, world(at));
      WalksTo(cfg, world, s, CreatingApproval(base, next), at, t, v, at + 1)
  {
    var (t, v) := StepCreatingApproval(s, base, next, world(at));
    WalkOne(cfg, world, s, CreatingApproval(base, next), at, t, v);
  }

  lemma WalkSaving(cfg: Settings, world: World, s: Store, base: Run, next: Run, andThen: AfterSave, at: nat)
    ensures var (t, v) := StepSaving(s, next, andThen);
      WalksTo(cfg, world, s, Saving(base, next, andThen), at, t, v, at + 1)
  {
    var (t, v) := StepSaving(s, next, andThen);
    WalkOne(cfg, world, s, Saving(base, next, andThen), at, t, v);
  }

  lemma WalkOn(cfg: Settings, world: World, s: Store, w: Worker, from: nat, t: Store, v: Worker, mid: nat,
               u: Store, x: Worker, to: nat)
    requires WalksTo(cfg, world, s, w, from, t, v, mid) && WalksTo(cfg, world, t, v, mid, u, x, to)
    ensures WalksTo(cfg, world, s, w, from, u, x, to)
  {
    hide Step;
    var first :| IsWalk(cfg, world, from, first) && |first| == mid - from + 1 && first[0] == (s, w) &&
                 first[mid - from] == (t, v);
    var second :| IsWalk(cfg, world, mid, second) && |second| == to - mid + 1 && second[0] == (t, v) &&
                  second[to - mid] == (u, x);
    var trace := first + second[1..];
    forall i | 0 <= i < |trace| - 1 ensures StepAt(cfg, world, from, trace, i) {
      if i < mid - from {
        assert StepAt(cfg, world, from, first, i);
      } else {
        assert StepAt(cfg, world, mid, second, i - (mid - from));
      }
    }
  }

  /** However far a worker walks alone, the store stays good and only evolves. */
  lemma {:induction false} TraceKeeps(cfg: Settings, world: World, from: nat, trace: seq<(Store, Worker)>, i: nat)
    requires IsWalk(cfg, world, from, trace) && i < |trace|
    requires StoreOk(cfg, trace[0].0) && WorkerOk(cfg, trace[0].0, trace[0].1)
    ensures StoreOk(cfg, trace[i].0) && WorkerOk(cfg, trace[i].0, trace[i].1) && Evolves(trace[0].0, trace[i].0)
  {
    hide StoreOk, WorkerOk, Evolves, Step;
    if i == 0 {
      EvolvesReflexive(trace[0].0);
    } else {
      TraceKeeps(cfg, world, from, trace, i - 1);
      assert StepAt(cfg, world, from, trace, i - 1);
      Preservation.StepOk(cfg, trace[i - 1].0, trace[i - 1].1, world(from + i - 1));
      EvolvesTransitive(trace[0].0, trace[i - 1].0, trace[i].0);
    }
  }

  /** A worker that enters a good store and walks alone leaves a good store, evolved from the first. */
  lemma EnteredWalkKeeps(cfg: Settings, world: World, s: Store, e: Entry, from: nat, t: Store, v: Worker, to: nat)
    requires WalksTo(cfg, world, Enter(s, e).0, Enter(s, e).1, from, t, v, to) && StoreOk(cfg, s)
    ensures StoreOk(cfg, t) && Evolves(s, t)
  {
    hide StoreOk, WorkerOk, Evolves, Enter, StepAt, Step;
    Preservation.EnterOk(cfg, s, e);
    var entered := Enter(s, e);
    var trace :| IsWalk(cfg, world, from, trace) && |trace| == to - from + 1 && trace[0] == entered &&
                 trace[to - from] == (t, v);
    TraceKeeps(cfg, world, from, trace, to - from);
    EvolvesTransitive(s, entered.0, t);
  }

  lemma CompletionAdvances(state: Run, next: Run)
    requires next.phase == state.phase && !state.phase.IsTerminal() && !state.phase.AwaitingApproval?
    ensures Rank(Complete(next).phase) > Rank(state.phase)
  {
  }

  lemma EvidencePhaseStays(cfg: Settings, run: Run, i: Input)
    ensures HandleEvidencePhase(cfg, run, i).phase == run.phase
  {
    hide Accumulate, AddNew, Phases.ReconcileExceptions, Phases.IntakeExceptions, Phases.IntakeReasons, HigherRisk;
  }

  /** How a phase handler ends: with the run it leaves, with a failure the driver records on the run as the
      handler left it, or raising. */
  datatype Handled = Done(next: Run) | HandlerFailed(left: Run) | HandlerRaised

  datatype Advance = Advanced(run: Run) | PhaseFailed(left: Run) | PhaseRaised

  /** What a caller gets back: the run, or an exception. */
  function Answer(result: Option<Run>): Worker {
    if result.Some? then Returned(result.value) else Raised
  }

  function AfterHandler(state: Run, h: Handled): Worker {
    match h
    case Done(next) => Saving(state, Complete(next), KeepDriving)
    case HandlerFailed(left) => Saving(state, Fail(left), Return)
    case HandlerRaised => Raised
  }

  function AfterPhase(state: Run, a: Advance): Worker {
    match a
    case Advanced(next) => Driving(next)
    case PhaseFailed(left) => Saving(state, Fail(left), Return)
    case PhaseRaised => Raised
  }

  class Orchestrator {
    const settings: Settings
    const repository: Repository
    const world: World
    var asked: nat

    constructor (settings: Settings, repository: Repository, world: World)
      ensures this.settings == settings && this.repository == repository && this.world == world && asked == 0
    {
      this.settings, this.repository, this.world, asked := settings, repository, world, 0;
    }

    /** Everything done since store `s`, when `from` answers had been used and the worker was at `w`, is the
        machine's walk from there to `v`. */
    ghost predicate Walked(s: Store, w: Worker, from: nat, v: Worker)
      reads this, repository
    {
      WalksTo(settings, world, s, w, from, repository.Contents(), v, asked)
    }

    /** The decision phase: first gate, vendor check, then the tool with the second gate and the write. */
    method RunExecuteDecision(state: Run) returns (h: Handled)
      requires repository.Valid()
      requires state.phase.ExecuteDecision? && state.stepsUsed < settings.maxSteps
      modifies repository, this`asked
      ensures repository.Valid()
      ensures Walked(old(repository.Contents()), Driving(state), old(asked), AfterHandler(state, h))
      ensures h.Done? ==> h.next.phase == state.phase
    {
      hide WalksTo, Complete, Any, VendorCheckNow, RequestFor, ArgumentsValid, LoadedAll, WithExceptions, Stops,
        PresentsFacts;
      ghost var s, at := repository.Contents(), asked;
      var i := world(asked);
      asked := asked + 1;
      var approval: Option<Approval> := None;
      if state.approvalId.Some? {
        approval := repository.LoadApproval(state.approvalId.value);
      }
      if !AuthoriseDecision(state, approval) {
        WalkDriving(settings, world, s, state, at, Saving(state, Fail(state), Return));
        return HandlerFailed(state);
      }
      var found := VendorCheckNow(state, i.moment);
      if Any(found, Vendor.StopsDecision) {
        var left := AddRecords(state, Stops(found));
        WalkDriving(settings, world, s, state, at, Saving(state, Fail(left), Return));
        return HandlerFailed(left);
      }
      var args := RequestFor(state, state.approvalId.value, approval.value.requestedOutcome);
      if !ArgumentsValid(args) {
        WalkDriving(settings, world, s, state, at, Raised);
        return HandlerRaised;
      }
      WalkDriving(settings, world, s, state, at, Submitting(state, args));
      h := Submit(state, args);
      WalkOn(settings, world, s, Driving(state), at, s, Submitting(state, args), at + 1,
        repository.Contents(), AfterHandler(state, h), asked);
    }

    /** The decision tool: it loads the approval again, and writes only if that one permits it. */
    method Submit(state: Run, args: DecisionRequest) returns (h: Handled)
      requires repository.Valid()
      modifies repository, this`asked
      ensures repository.Valid()
      ensures Walked(old(repository.Contents()), Submitting(state, args), old(asked), AfterHandler(state, h))
      ensures h.Done? ==> h.next.phase == state.phase
    {
      hide WalksTo, ToolPermits, Complete, LoadedAll, Loaded;
      ghost var s, at := repository.Contents(), asked;
      asked := asked + 1;
      var approval := repository.LoadApproval(args.approvalId);
      if ToolPermits(args, approval) {
        WalkSubmitting(settings, world, s, state, args, at, Recording(state, args));
        h := Record(state, args);
        WalkOn(settings, world, s, Submitting(state, args), at, s, Recording(state, args), at + 1,
          repository.Contents(), AfterHandler(state, h), asked);
      } else {
        WalkSubmitting(settings, world, s, state, args, at, Saving(state, Fail(state), Return));
        h := HandlerFailed(state);
      }
    }

    /** The write of the decision, under the key and fingerprint derived from the arguments alone. */
    method Record(state: Run, args: DecisionRequest) returns (h: Handled)
      requires repository.Valid()
      modifies repository, this`asked
      ensures repository.Valid()
      ensures Walked(old(repository.Contents()), Recording(state, args), old(asked), AfterHandler(state, h))
      ensures h.Done? ==> h.next.phase == state.phase
    {
      hide WalksTo, Complete, KeyFor, RowFor, RecordDecision;
      WalkRecording(settings, world, repository.Contents(), state, args, asked);
      var result := repository.RecordDecision(KeyFor(args), RowFor(args, world(asked).moment));
      asked := asked + 1;
      h := if result.Recorded? then Done(state.(decision := Some(result.receipt))) else HandlerRaised;
    }

    /** The recommendation phase: the outcome, and the approval request when the outcome needs one. */
    method RunRecommend(state: Run) returns (h: Handled)
      requires repository.Valid()
      requires state.phase.Recommend? && state.stepsUsed < settings.maxSteps
      modifies repository, this`asked
      ensures repository.Valid()
      ensures Walked(old(repository.Contents()), Driving(state), old(asked), AfterHandler(state, h))
      ensures h.Done? ==> h.next.phase == state.phase
    {
      hide WalksTo, Complete, RecommendFor, ApprovalFor, LoadedAll;
      ghost var s, at := repository.Contents(), asked;
      var i := world(asked);
      asked := asked + 1;
      if i.modelFails {
        WalkDriving(settings, world, s, state, at, Saving(state, Fail(state), Return));
        return HandlerFailed(state);
      }
      var next := Recommend(state, i);
      if !next.recommendation.value.requiresApproval {
        WalkDriving(settings, world, s, state, at, Saving(state, Complete(next), KeepDriving));
        return Done(next);
      }
      if state.approvalId.Some? {
        var existing := repository.LoadApproval(state.approvalId.value);
        if existing.Some? {
          WalkDriving(settings, world, s, state, at, Saving(state, Complete(next), KeepDriving));
          return Done(next);
        }
      }
      WalkDriving(settings, world, s, state, at, CreatingApproval(state, next));
      h := RequestApproval(state, next);
      WalkOn(settings, world, s, Driving(state), at, s, CreatingApproval(state, next), at + 1,
        repository.Contents(), AfterHandler(state, h), asked);
    }

    /** Create the pending approval, with what the approver will be shown. */
    method RequestApproval(state: Run, next: Run) returns (h: Handled)
      requires repository.Valid() && next.recommendation.Some?
      modifies repository, this`asked
      ensures repository.Valid()
      ensures Walked(old(repository.Contents()), CreatingApproval(state, next), old(asked), AfterHandler(state, h))
      ensures h.Done? ==> h.next.phase == next.phase
    {
      hide WalksTo, Complete, CreateApproval;
      WalkCreating(settings, world, repository.Contents(), state, next, asked);
      var newId := world(asked).newApprovalId;
      var created := repository.CreateApproval(newId, ApprovalFor(next));
      asked := asked + 1;
      h := if created then Done(next.(approvalId := Some(newId))) else HandlerRaised;
    }

    // ---- what the handlers compute ----------------------------------------------------

    /** Offer the run more exception records. */
    method AddRecords(state: Run, found: seq<ExceptionRecord>) returns (next: Run)
      ensures next == WithExceptions(state, found)
    {
      var d := state.dossier;
      var lists := new RunState(d.exceptions, d.invalidReasons, d.indicators);
      lists.AddExceptions(found);
      next := state.(dossier := d.(exceptions := lists.exceptions));
    }

    method IntakePhase(state: Run, i: Input) returns (next: Run)
      ensures next == HandleIntake(state, i)
    {
      hide Accumulate, AddNew, Phases.IntakeExceptions, Phases.IntakeReasons;
      next := state.(request := state.request.(attachmentHashes := i.redactedHashes));
      next := next.(dossier := next.dossier.(creditWording := i.creditWording, assertedTails := i.assertedTails));
      var d := next.dossier;
      var lists := new RunState(d.exceptions, d.invalidReasons, d.indicators);
      Phases.RunIntake(lists, CaseOf(next), DateOf(i.moment));
      next := next.(dossier := d.(
        exceptions := lists.exceptions, invalidReasons := lists.invalidReasons, intakeDay := DateOf(i.moment)));
    }

    method ReconcilePhase(state: Run, i: Input) returns (next: Run)
      ensures next == HandleReconcile(state, i)
    {
      hide Accumulate, Phases.ReconcileExceptions, HigherRisk;
      var d := state.dossier;
      var lists := new RunState(d.exceptions, d.invalidReasons, d.indicators);
      Phases.RunReconcile(lists, CaseOf(state), i.moment);
      next := state.(gathered := state.gathered.(higherRisk := HigherRisk(CaseOf(state), i.moment)));
      next := next.(dossier := d.(exceptions := lists.exceptions, reconciledAt := i.moment));
    }

    method AssessRiskPhase(state: Run, i: Input) returns (next: Run)
      ensures next == HandleAssessRisk(state, i)
      ensures forall code :: code in next.dossier.indicators <==>
        code in state.dossier.indicators || code in i.indicators
      ensures state.dossier.indicators <= next.dossier.indicators
      ensures Distinct(state.dossier.indicators) ==> Distinct(next.dossier.indicators)
    {
      hide AddNew;
      AddNewKeeps(state.dossier.indicators, i.indicators);
      var d := state.dossier;
      var lists := new RunState(d.exceptions, d.invalidReasons, d.indicators);
      lists.AddIndicators(i.indicators);
      next := state.(dossier := d.(indicators := lists.indicators));
    }

    method Recommend(state: Run, i: Input) returns (next: Run)
      ensures next == Recommended(state, i.moment, i.suggested)
    {
      hide Phases.OutcomeOn;
      var d, c := state.dossier, CaseOf(state);
      var lists := new RunState(d.exceptions, d.invalidReasons, d.indicators);
      var outcome := Phases.RunRecommend(lists, c, i.moment, i.suggested);
      var vendor := Vendor.StatusCheck(c.vendor, c.sameName, i.moment, c.history);
      var higher := state.gathered.higherRisk || vendor.higherRisk;
      next := state.(recommendation := Some(Recommendation(outcome, outcome.IsConsequential(), higher)));
      next := next.(dossier := d.(recommendedAt := i.moment, suggested := i.suggested));
    }

    /** The phases that only read the outside world or compute: one answer, one new state. */
    method RunEvidencePhase(state: Run) returns (h: Handled)
      requires repository.Valid()
      requires !state.phase.IsTerminal() && !state.phase.AwaitingApproval? && state.stepsUsed < settings.maxSteps
      requires !state.phase.ExecuteDecision? && !state.phase.Recommend?
      modifies this`asked
      ensures Walked(repository.Contents(), Driving(state), old(asked), AfterHandler(state, h))
      ensures h.Done? ==> h.next.phase == state.phase
    {
      hide WalksTo, HandleIntake, HandleReconcile, HandleAssessRisk, Spend;
      ghost var s := repository.Contents();
      var i := world(asked);
      var next := state;
      if state.phase.Intake? {
        next := IntakePhase(state, i);
      } else if state.phase.Reconcile? {
        next := ReconcilePhase(state, i);
      } else if state.phase.AssessRisk? {
        next := AssessRiskPhase(state, i);
      } else if state.phase.GatherEvidence? {
        next := next.(gathered := next.gathered.(
          vendor := i.vendor, order := i.order, history := i.history, sameName := i.sameName,
          masterTail := i.masterTail));
      }
      if state.phase.RetrievePolicy? || state.phase.GatherEvidence? {
        next := next.(toolCallsUsed := Spend(settings, state.toolCallsUsed, i.toolCalls));
      }
      assert next == HandleEvidencePhase(settings, state, i);
      assert next.phase == state.phase by { EvidencePhaseStays(settings, state, i); }
      h := if state.phase.AssessRisk? && i.modelFails then HandlerFailed(next) else Done(next);
      WalkDriving(settings, world, s, state, asked, AfterHandler(state, h));
      asked := asked + 1;
    }

    /** One phase: its handler, the bookkeeping, and the save. */
    method ExecutePhase(state: Run) returns (advance: Advance)
      requires repository.Valid()
      requires !state.phase.IsTerminal() && !state.phase.AwaitingApproval? && state.stepsUsed < settings.maxSteps
      modifies repository, this`asked
      ensures repository.Valid()
      ensures Walked(old(repository.Contents()), Driving(state), old(asked), AfterPhase(state, advance))
      ensures advance.Advanced? ==> Rank(advance.run.phase) > Rank(state.phase)
    {
      hide WalksTo;
      ghost var s, at := repository.Contents(), asked;
      var h: Handled;
      if state.phase.ExecuteDecision? {
        h := RunExecuteDecision(state);
      } else if state.phase.Recommend? {
        h := RunRecommend(state);
      } else {
        h := RunEvidencePhase(state);
      }
      match h {
        case HandlerFailed(left) => advance := PhaseFailed(left);
        case HandlerRaised => advance := PhaseRaised;
        case Done(next) =>
          ghost var t, mid := repository.Contents(), asked;
          CompletionAdvances(state, next);
          advance := SaveCompleted(state, next);
          WalkOn(settings, world, s, Driving(state), at, t, Saving(state, Complete(next), KeepDriving), mid,
            repository.Contents(), AfterPhase(state, advance), asked);
      }
    }

    /** The bookkeeping that follows a handler, and the save that commits the phase. */
    method SaveCompleted(state: Run, next: Run) returns (advance: Advance)
      requires repository.Valid() && next.phase == state.phase
      modifies repository, this`asked
      ensures repository.Valid()
      ensures Walked(old(repository.Contents()), Saving(state, Complete(next), KeepDriving), old(asked),
        AfterPhase(state, advance))
      ensures !advance.PhaseFailed?
      ensures advance.Advanced? ==> advance.run.phase == Complete(next).phase
    {
      hide WalksTo;
      WalkSaving(settings, world, repository.Contents(), state, Complete(next), KeepDriving, asked);
      var completed := next;
      completed := completed.(stepsUsed := completed.stepsUsed + 1);
      if next.phase !in completed.completedPhases {
        completed := completed.(completedPhases := completed.completedPhases + [next.phase]);
      }
      completed := completed.(phase := TransitionFrom(next.phase, completed));
      completed := completed.(status := StatusFor(completed.phase));
      var result := repository.SaveRun(completed);
      asked := asked + 1;
      advance := if result.Saved? then Advanced(result.run) else PhaseRaised;
    }

    /** Record a failure: the run as its handler left it, in phase FAILED. */
    method FailRun(state: Run, left: Run) returns (result: Option<Run>)
      requires repository.Valid()
      modifies repository, this`asked
      ensures repository.Valid()
      ensures Walked(old(repository.Contents()), Saving(state, Fail(left), Return), old(asked), Answer(result))
      ensures result.Some? ==> result.value.phase.Failed?
    {
      hide WalksTo;
      WalkSaving(settings, world, repository.Contents(), state, Fail(left), Return, asked);
      var failed := left.(phase := Failed, status := StatusFailed);
      var saved := repository.SaveRun(failed);
      asked := asked + 1;
      result := if saved.Saved? then Some(saved.run) else None;
    }

    /** Drive the run until it is terminal or waits for a human. Every turn moves to a later phase. */
    method Drive(start: Run) returns (result: Option<Run>)
      requires repository.Valid()
      modifies repository, this`asked
      ensures repository.Valid()
      ensures Walked(old(repository.Contents()), Driving(start), old(asked), Answer(result))
      ensures result.Some? ==> result.value.phase.IsTerminal() || result.value.phase.AwaitingApproval?
    {
      hide WalksTo;
      ghost var s, from := repository.Contents(), asked;
      var state := start;
      WalkNowhere(settings, world, s, Driving(start), from);
      while !state.phase.IsTerminal() && !state.phase.AwaitingApproval?
        invariant repository.Valid()
        invariant Walked(s, Driving(start), from, Driving(state))
        decreases Rank(Completed) - Rank(state.phase)
      {
        ghost var t, mid := repository.Contents(), asked;
        var advance := PhaseFailed(state);
        if state.stepsUsed >= settings.maxSteps {
          asked := asked + 1;
          WalkDriving(settings, world, t, state, mid, Saving(state, Fail(state), Return));
        } else {
          advance := ExecutePhase(state);
        }
        WalkOn(settings, world, s, Driving(start), from, t, Driving(state), mid,
          repository.Contents(), AfterPhase(state, advance), asked);
        match advance {
          case PhaseRaised =>
            return None;
          case PhaseFailed(left) =>
            t, mid := repository.Contents(), asked;
            result := FailRun(state, left);
            WalkOn(settings, world, s, Driving(start), from, t, Saving(state, Fail(left), Return), mid,
              repository.Contents(), Answer(result), asked);
            return;
          case Advanced(next) =>
            state := next;
        }
      }
      ghost var t := repository.Contents();
      WalkDriving(settings, world, t, state, asked, Returned(state));
      WalkOn(settings, world, s, Driving(start), from, t, Driving(state), asked, t, Returned(state), asked + 1);
      asked := asked + 1;
      result := Some(state);
    }

    /** `start`: a fresh run, driven as far as it goes. */
    method Start(runId: string, request: Request, written: Dec) returns (result: Option<Run>)
      requires repository.Valid()
      modifies repository, this`asked
      ensures repository.Valid()
      ensures var (s, w) := Enter(old(repository.Contents()), Entry.Start(runId, request, written));
        Walked(s, w, old(asked), Answer(result))
      ensures StoreOk(settings, old(repository.Contents())) ==>
        StoreOk(settings, repository.Contents()) && Evolves(old(repository.Contents()), repository.Contents())
    {
      ghost var s := repository.Contents();
      var created := repository.CreateRun(NewRun(runId, request, written));
      if created.None? {
        result := None;
        WalkNowhere(settings, world, s, Raised, asked);
      } else {
        result := Drive(created.value);
      }
      if StoreOk(settings, s) {
        EnteredWalkKeeps(settings, world, s, Entry.Start(runId, request, written), old(asked),
          repository.Contents(), Answer(result), asked);
      }
    }

    /** `resume`: the same code path a fresh process takes after a restart. */
    method Resume(runId: string) returns (result: Option<Run>)
      requires repository.Valid()
      modifies repository, this`asked
      ensures repository.Valid()
      ensures var (s, w) := Enter(old(repository.Contents()), Entry.Resume(runId));
        Walked(s, w, old(asked), Answer(result))
      ensures StoreOk(settings, old(repository.Contents())) ==>
        StoreOk(settings, repository.Contents()) && Evolves(old(repository.Contents()), repository.Contents())
    {
      ghost var s := repository.Contents();
      var state := repository.LoadRun(runId);
      if state.None? {
        result := None;
        WalkNowhere(settings, world, s, Raised, asked);
      } else if state.value.phase.IsTerminal() {
        result := state;
        WalkNowhere(settings, world, s, Returned(state.value), asked);
      } else {
        result := Drive(state.value);
      }
      if StoreOk(settings, s) {
        EnteredWalkKeeps(settings, world, s, Entry.Resume(runId), old(asked),
          repository.Contents(), Answer(result), asked);
      }
    }

    // ---- resolving an approval --------------------------------------------------------

    /** Save, and let the caller decide what follows. */
    method SaveAnd(base: Run, next: Run, andThen: AfterSave) returns (saved: Option<Run>)
      requires repository.Valid()
      modifies repository, this`asked
      ensures repository.Valid()
      ensures Walked(old(repository.Contents()), Saving(base, next, andThen), old(asked),
        if saved.None? || andThen.Raise? then Raised
        else if andThen.KeepDriving? then Driving(saved.value) else Returned(saved.value))
    {
      hide WalksTo;
      WalkSaving(settings, world, repository.Contents(), base, next, andThen, asked);
      var result := repository.SaveRun(next);
      asked := asked + 1;
      saved := if result.Saved? then Some(result.run) else None;
    }

    /** What follows a stored signature or rejection: wait on, hold the case, or open the gate and drive. */
    method Conclude(base: Run, next: Run, approve: bool, met: bool) returns (result: Option<Run>)
      requires repository.Valid()
      modifies repository, this`asked
      ensures repository.Valid()
      ensures Walked(old(repository.Contents()), AfterResolution(base, next, approve, met), old(asked), Answer(result))
    {
      hide WalksTo;
      if approve && !met {
        result := SaveAnd(base, next, Return);
      } else if !approve {
        result := SaveAnd(base, next.(phase := Held, status := StatusHeld), Return);
      } else {
        ghost var s, at := repository.Contents(), asked;
        var released := next.(phase := ExecuteDecision, status := Running);
        var saved := SaveAnd(base, released, KeepDriving);
        if saved.None? {
          return None;
        }
        ghost var t, mid := repository.Contents(), asked;
        result := Drive(saved.value);
        WalkOn(settings, world, s, Saving(base, released, KeepDriving), at, t, Driving(saved.value), mid,
          repository.Contents(), Answer(result), asked);
      }
    }

    /** The store already knew this signature or rejection: go on from the run as it is stored now. */
    method Reload(base: Run, approve: bool, met: bool) returns (result: Option<Run>)
      requires repository.Valid()
      modifies repository, this`asked
      ensures repository.Valid()
      ensures Walked(old(repository.Contents()), Reloading(base, approve, met), old(asked), Answer(result))
    {
      hide WalksTo;
      ghost var s, at := repository.Contents(), asked;
      WalkOne(settings, world, s, Reloading(base, approve, met), at, s, StepReloading(s, base, approve, met));
      var current := repository.LoadRun(base.runId);
      asked := asked + 1;
      if current.None? || current.value.phase.IsTerminal() {
        return current;
      }
      result := Conclude(current.value, current.value, approve, met);
      WalkOn(settings, world, s, Reloading(base, approve, met), at,
        s, AfterResolution(current.value, current.value, approve, met), at + 1,
        repository.Contents(), Answer(result), asked);
    }

    method Settle(base: Run, next: Run, approve: bool, resolved: ResolveResult) returns (result: Option<Run>)
      requires repository.Valid()
      modifies repository, this`asked
      ensures repository.Valid()
      ensures Walked(old(repository.Contents()), AfterTransaction(base, next, approve, resolved), old(asked),
        Answer(result))
    {
      hide WalksTo;
      match resolved {
        case StateConflict =>
          result := None;
          WalkNowhere(settings, world, repository.Contents(), Raised, asked);
        case Resolved(a, replayed) =>
          var met := approve && a.RequirementMet();
          if replayed {
            result := Reload(base, approve, met);
          } else {
            result := Conclude(base, next, approve, met);
          }
      }
    }

    method StoreSignature(base: Run, next: Run, approverId: string, signature: Signature)
      returns (result: Option<Run>)
      requires repository.Valid() && base.approvalId.Some?
      modifies repository, this`asked
      ensures repository.Valid()
      ensures Walked(old(repository.Contents()), Signing(base, next, approverId, signature), old(asked),
        Answer(result))
    {
      hide WalksTo, LoadedAll, CopiesMatch, Sign, SavedInPlace, StoreOk, AfterResolution;
      ghost var s, at := repository.Contents(), asked;
      var w := StepSigning(s, base, next, approverId, signature);
      WalkOne(settings, world, s, Signing(base, next, approverId, signature), at, w.0, w.1);
      var resolved := repository.AddApprovalSignature(base.approvalId.value, approverId, signature);
      asked := asked + 1;
      ghost var t := repository.Contents();
      result := Settle(base, next, true, resolved);
      WalkOn(settings, world, s, Signing(base, next, approverId, signature), at,
        t, AfterTransaction(base, next, true, resolved), at + 1, repository.Contents(), Answer(result), asked);
    }

    method StoreRejection(base: Run, next: Run) returns (result: Option<Run>)
      requires repository.Valid() && base.approvalId.Some?
      modifies repository, this`asked
      ensures repository.Valid()
      ensures Walked(old(repository.Contents()), Rejecting(base, next), old(asked), Answer(result))
    {
      hide WalksTo, LoadedAll, CopiesMatch, Sign, SavedInPlace, StoreOk, AfterResolution;
      ghost var s, at := repository.Contents(), asked;
      var w := StepRejecting(s, base, next);
      WalkOne(settings, world, s, Rejecting(base, next), at, w.0, w.1);
      var resolved := repository.RejectApproval(base.approvalId.value);
      asked := asked + 1;
      ghost var t := repository.Contents();
      result := Settle(base, next, false, resolved);
      WalkOn(settings, world, s, Rejecting(base, next), at,
        t, AfterTransaction(base, next, false, resolved), at + 1, repository.Contents(), Answer(result), asked);
    }

    /** A delivery that has work to do: refuse it, or store the signature or rejection it carries. */
    method Judge(state: Run, a: Approval, d: Delivery, i: Input) returns (result: Option<Run>)
      requires repository.Valid() && state.approvalId.Some?
      modifies repository, this`asked
      ensures repository.Valid()
      ensures Walked(old(repository.Contents()), Judged(settings, state, a, d, i), old(asked), Answer(result))
    {
      hide WalksTo;
      var delegation: Option<DelegationRecord> := None;
      var next := state;
      if d.namesDelegation {
        delegation := i.delegation;
        next := next.(toolCallsUsed := Spend(settings, next.toolCallsUsed, i.toolCalls));
      }
      if !d.approve {
        result := StoreRejection(state, next);
      } else if !AuthoriseSignature(a, d, state, delegation, i.moment) {
        next := AddRecords(next, Refusals(a, d, state, delegation, i.moment));
        var saved := SaveAnd(state, next, Raise);
        result := None;
      } else {
        var signature := SignatureFrom(ValidateSigner(a, d, state, delegation, i.moment), d, i.moment);
        result := StoreSignature(state, next, d.approverId, signature);
      }
    }

    /** Answer a delivery that changes nothing before anything is spent on it; judge every other one. */
    method Receive(state: Run, d: Delivery) returns (result: Option<Run>)
      requires repository.Valid() && state.approvalId == Some(d.approvalId)
      modifies repository, this`asked
      ensures repository.Valid()
      ensures Walked(old(repository.Contents()), Resolving(state, d), old(asked), Answer(result))
    {
      hide WalksTo, LoadedAll, Loaded, Judged;
      ghost var s, at := repository.Contents(), asked;
      var i := world(asked);
      ghost var w := StepResolving(settings, s, state, d, i);
      WalkOne(settings, world, s, Resolving(state, d), at, s, w);
      var approval := repository.LoadApproval(d.approvalId);
      asked := asked + 1;
      if approval.None? {
        return None;
      }
      var a := approval.value;
      if d.approve && d.approverId in a.signatures {
        result := repository.LoadRun(state.runId);
        return;
      }
      if !a.status.Pending? {
        if a.status.Rejected? && !d.approve {
          result := repository.LoadRun(state.runId);
          return;
        }
        return None;
      }
      result := Judge(state, a, d, i);
      WalkOn(settings, world, s, Resolving(state, d), at, s, Judged(settings, state, a, d, i), at + 1,
        repository.Contents(), Answer(result), asked);
    }

    /** `approve` and `reject`: apply a human decision to a run, idempotently. */
    method Resolve(runId: string, d: Delivery) returns (result: Option<Run>)
      requires repository.Valid()
      modifies repository, this`asked
      ensures repository.Valid()
      ensures var (s, w) := Enter(old(repository.Contents()), Entry.Resolve(runId, d));
        Walked(s, w, old(asked), Answer(result))
      ensures StoreOk(settings, old(repository.Contents())) ==>
        StoreOk(settings, repository.Contents()) && Evolves(old(repository.Contents()), repository.Contents())
    {
      hide WalksTo;
      ghost var s := repository.Contents();
      var state := repository.LoadRun(runId);
      if state.None? || state.value.approvalId != Some(d.approvalId) {
        result := None;
        WalkNowhere(settings, world, s, Raised, asked);
      } else {
        result := Receive(state.value, d);
      }
      if StoreOk(settings, s) {
        EnteredWalkKeeps(settings, world, s, Entry.Resolve(runId, d), old(asked),
          repository.Contents(), Answer(result), asked);
      }
    }
  }
}
