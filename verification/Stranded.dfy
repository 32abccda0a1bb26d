/** What becomes of a run whose approval was settled but whose own save never happened
    (src/ap_agent/orchestration/approvals.py `short_circuit_replay`, src/ap_agent/orchestration/machine.py
    `_resolve`).

    The signature or the rejection is one transaction and the save of the run another. A crash between
    them loses nothing and posts nothing, but no callback or resumption to come takes such a run further either. */
module Stranded {
  import opened Prelude
  import opened Domain
  import opened Store
  import opened Protocol
  import opened Invariant
  import Preservation
  import Theorems

  /** The run waits for an approval that is already settled. */
  predicate WaitsForSettled(s: Store, r: string) {
    r in s.runs && s.runs[r].runId == r && s.runs[r].phase.AwaitingApproval? && s.runs[r].approvalId.Some? &&
    s.runs[r].approvalId.value in s.approvals && !s.approvals[s.runs[r].approvalId.value].status.Pending?
  }

  /** A worker that cannot move run `r`: it serves another run, has ended, or has only just entered. */
  predicate Harmless(s: Store, r: string, w: Worker) {
    w.Returned? || w.Raised? || w.base.runId != r ||
    ((w.Driving? || w.Resolving?) && r in s.runs && w.base == s.runs[r])
  }

  predicate AllHarmless(sys: System, r: string) {
    forall id :: id in sys.workers ==> Harmless(sys.store, r, sys.workers[id])
  }

  lemma HarmlessStep(cfg: Settings, s: Store, r: string, w: Worker, i: Input)
    requires StoreOk(cfg, s) && WorkerOk(cfg, s, w) && WaitsForSettled(s, r) && Harmless(s, r, w)
    ensures var (t, v) := Step(cfg, s, w, i);
      r in t.runs && t.runs[r] == s.runs[r] && Harmless(t, r, v)
  {
    hide StoreOk, RunOk, AuthoriseDecision, AuthoriseSignature, ValidateSigner, Complete, ArgumentsValid, KeyFor,
      RowFor, ApprovalFor, RecommendFor, Sign, ToolPermits, HandleEvidencePhase;
    if w.Returned? || w.Raised? {
    } else if w.base.runId != r {
      KeepsToItsRun(cfg, s, w);
      StepFrame(cfg, s, w, i);
    } else {
      assert s.approvals[w.base.approvalId.value].status != Pending;
    }
  }

  predicate Ended(w: Worker) {
    w.Returned? || w.Raised?
  }

  /** What a worker reads and is about to save is its own run. */
  predicate OwnRunOnly(s: Store, w: Worker) {
    && (w.CreatingApproval? || w.Saving? || w.Signing? || w.Rejecting? ==> w.next.runId == w.base.runId)
    && (w.Reloading? && w.base.runId in s.runs ==> s.runs[w.base.runId].runId == w.base.runId)
  }

  lemma KeepsToItsRun(cfg: Settings, s: Store, w: Worker)
    requires WorkerOk(cfg, s, w)
    ensures OwnRunOnly(s, w)
  {
    hide RunOk, SavedInPlace, FactsFrozen, RequestKept, RecordOk, SignerOk, Backed, RecommendFor;
  }

  /** A step writes the worker's own run, that run's approval, or a new approval, and nothing else; and a
      worker keeps to its run. */
  lemma StepFrame(cfg: Settings, s: Store, w: Worker, i: Input)
    requires OwnRunOnly(s, w) && !Ended(w)
    ensures var (t, v) := Step(cfg, s, w, i);
      (forall k :: k in s.runs && k != w.base.runId ==> k in t.runs && t.runs[k] == s.runs[k]) &&
      (forall id :: id in s.approvals && w.base.approvalId != Some(id) ==>
        id in t.approvals && t.approvals[id] == s.approvals[id]) &&
      (Ended(v) || v.base.runId == w.base.runId)
  {
    hide AuthoriseDecision, AuthoriseSignature, ValidateSigner, ArgumentsValid, KeyFor, RowFor, Recommended,
      Sign, ToolPermits, Any, HandleEvidencePhase, TransitionFrom, WithStops, WithExceptions, HandleAssessRisk,
      ApprovalFor;
  }

  lemma HarmlessEntry(cfg: Settings, s: Store, r: string, e: Entry)
    requires StoreOk(cfg, s) && r in s.runs
    ensures var (t, w) := Enter(s, e);
      r in t.runs && t.runs[r] == s.runs[r] && Harmless(t, r, w)
  {
    hide RunOk, ApprovalsOk, DecisionsOk, FingerprintsDistinct;
  }

  lemma FireKeepsWaiting(cfg: Settings, sys: System, r: string, e: Event)
    requires Theorems.SystemOk(cfg, sys) && WaitsForSettled(sys.store, r) && AllHarmless(sys, r)
    ensures var later := Fire(cfg, sys, e);
      WaitsForSettled(later.store, r) && AllHarmless(later, r) && later.store.runs[r] == sys.store.runs[r]
  {
    hide StoreOk, WorkerOk, Step, Enter, RunEvolves;
    Theorems.FireOk(cfg, sys, e);
    var id := sys.store.runs[r].approvalId.value;
    var later := Fire(cfg, sys, e);
    assert ApprovalEvolves(sys.store.approvals[id], later.store.approvals[id]);
    match e
    case Launch(_, entry) => HarmlessEntry(cfg, sys.store, r, entry);
    case Act(w, input) =>
      if w in sys.workers {
        HarmlessStep(cfg, sys.store, r, sys.workers[w], input);
      }
    case Crash(_) =>
  }

  /** Once no worker with unfinished business on the run is left, a run that waits for an approval that is
      already settled waits for ever: no history of deliveries, resumptions, steps and crashes changes it. */
  lemma {:induction false} SettledButUnsavedWaitsForever(cfg: Settings, sys: System, r: string, events: seq<Event>)
    requires Theorems.SystemOk(cfg, sys) && WaitsForSettled(sys.store, r) && AllHarmless(sys, r)
    ensures var later := After(cfg, sys, events);
      WaitsForSettled(later.store, r) && later.store.runs[r] == sys.store.runs[r] &&
      !RunHasDecision(later.store, r)
    decreases |events|
  {
    if events == [] {
      WaitingRunHasNoDecision(cfg, sys.store, r);
    } else {
      FireKeepsWaiting(cfg, sys, r, events[0]);
      Theorems.FireOk(cfg, sys, events[0]);
      SettledButUnsavedWaitsForever(cfg, Fire(cfg, sys, events[0]), r, events[1..]);
    }
  }

  lemma WaitingRunHasNoDecision(cfg: Settings, s: Store, r: string)
    requires StoreOk(cfg, s) && WaitsForSettled(s, r)
    ensures !RunHasDecision(s, r)
  {
    forall k | k in s.decisions ensures s.decisions[k].receipt.runId != r {
      assert DecisionOk(cfg, s, k, s.decisions[k]);
    }
  }

  /** The next step of the worker settles the approval of a run nobody else has moved. */
  predicate AboutToSettle(s: Store, w: Worker) {
    && (w.Signing? || w.Rejecting?)
    && w.base.runId in s.runs && s.runs[w.base.runId] == w.base
    && w.base.approvalId.Some? && w.base.approvalId.value in s.approvals
    && var a := s.approvals[w.base.approvalId.value];
       if w.Rejecting? then a.status.Pending?
       else !a.status.Rejected? && Sign(a, w.approverId, w.signature).RequirementMet()
  }

  lemma SettlingStep(cfg: Settings, s: Store, w: Worker, i: Input)
    requires WorkerOk(cfg, s, w) && AboutToSettle(s, w)
    ensures var t := Step(cfg, s, w, i).0;
      t.runs == s.runs && WaitsForSettled(t, w.base.runId)
  {
    hide RunOk, SignerOk, Backed, AfterTransaction, Sign;
    if w.Signing? {
      SignedStatus(s.approvals[w.base.approvalId.value], w.approverId, w.signature);
    }
  }

  /** How a run gets there: its last signature, or a rejection, is stored and the worker dies before it can
      save the run. */
  lemma CrashBetweenSettlingAndSavingStrands(cfg: Settings, sys: System, id: nat, i: Input)
    requires Theorems.SystemOk(cfg, sys) && id in sys.workers && AboutToSettle(sys.store, sys.workers[id])
    requires forall other :: other in sys.workers && other != id ==>
      Harmless(sys.store, sys.workers[id].base.runId, sys.workers[other])
    ensures var later := After(cfg, sys, [Act(id, i), Crash(id)]);
      WaitsForSettled(later.store, sys.workers[id].base.runId) && AllHarmless(later, sys.workers[id].base.runId)
  {
    hide StoreOk, WorkerOk, Step, AboutToSettle;
    var w := sys.workers[id];
    var events := [Act(id, i), Crash(id)];
    assert events[1..] == [Crash(id)] && [Crash(id)][1..] == [];
    var mid := Fire(cfg, sys, events[0]);
    assert After(cfg, sys, events) == After(cfg, mid, [Crash(id)]) == Fire(cfg, mid, Crash(id));
    SettlingStep(cfg, sys.store, w, i);
  }

  lemma SignedStatus(a: Approval, p: string, sig: Signature)
    requires Sign(a, p, sig).RequirementMet() && !a.status.Rejected?
    ensures Sign(a, p, sig).status.Approved?
  {
    var collected := a.(signatures := if p in a.signatures then a.signatures else a.signatures[p := sig]);
    Preservation.StatusIsNotRequirement(collected, Approved);
  }
}
