/** When a run at the decision phase is saved again in that phase
    (src/ap_agent/orchestration/machine.py:450-465).

    A resolver whose signature turns out to be stored already reloads the run. If another delivery opened the
    gate meanwhile, the run it finds is at the decision, and it is saved once more as it is. */
module Resaving {
  import opened Prelude
  import opened Domain
  import opened Store
  import opened Protocol
  import opened Invariant
  import Preservation
  import Theorems

  /** The system just before event number `n` of a history. */
  function Before(cfg: Settings, events: seq<Event>, n: nat): System
    requires n <= |events|
  {
    After(cfg, INITIAL, events[..n])
  }

  /** Event `n` is a step of worker `id`, and the last event of that worker before `end`. */
  predicate LastAct(events: seq<Event>, id: nat, n: nat, end: nat) {
    n < end <= |events| && events[n].Act? && events[n].id == id && forall k :: n < k < end ==> events[k].id != id
  }

  /** The worker is about to store a signature of someone who has signed already. */
  predicate SignsAgain(sys: System, id: nat) {
    id in sys.workers && sys.workers[id].Signing? &&
    var w := sys.workers[id];
    w.base.approvalId.Some? && w.base.approvalId.value in sys.store.approvals &&
    w.approverId in sys.store.approvals[w.base.approvalId.value].signatures
  }

  predicate ReloadsAtDecision(sys: System, id: nat) {
    id in sys.workers && sys.workers[id].Reloading? && sys.workers[id].base.runId in sys.store.runs &&
    sys.store.runs[sys.workers[id].base.runId].phase.ExecuteDecision?
  }

  /** The last two steps of the worker: at `m` its signature was a replay, at `n` it reloaded its run and
      found it at the decision. */
  predicate ReloadedAt(cfg: Settings, events: seq<Event>, id: nat, m: nat, n: nat) {
    && LastAct(events, id, n, |events|) && LastAct(events, id, m, n)
    && SignsAgain(Before(cfg, events, m), id) && ReloadsAtDecision(Before(cfg, events, n), id)
  }

  predicate CameThroughReloading(cfg: Settings, events: seq<Event>, id: nat) {
    exists m, n :: 0 <= m < n < |events| && ReloadedAt(cfg, events, id, m, n)
  }

  // ---- where a worker came from -------------------------------------------------------

  lemma LastEvent(cfg: Settings, events: seq<Event>)
    requires events != []
    ensures var n := |events| - 1;
      After(cfg, INITIAL, events) == Fire(cfg, After(cfg, INITIAL, events[..n]), events[n])
  {
    hide Fire;
    var n := |events| - 1;
    assert events == events[..n] + [events[n]];
    Theorems.AfterJoins(cfg, INITIAL, events[..n], [events[n]]);
    var sys := After(cfg, INITIAL, events[..n]);
    assert [events[n]][1..] == [];
    assert After(cfg, sys, [events[n]]) == After(cfg, Fire(cfg, sys, events[n]), []);
  }

  /** The step at `n` put the worker where it is now. */
  predicate CameFrom(cfg: Settings, events: seq<Event>, id: nat, n: nat)
    requires id in After(cfg, INITIAL, events).workers
  {
    LastAct(events, id, n, |events|) && id in Before(cfg, events, n).workers &&
    After(cfg, INITIAL, events).workers[id] ==
      Step(cfg, Before(cfg, events, n).store, Before(cfg, events, n).workers[id], events[n].input).1
  }

  /** A worker that is saving or reloading got there by a step of its own. */
  lemma {:induction false} SomeStepLedHere(cfg: Settings, events: seq<Event>, id: nat) returns (n: nat)
    requires id in After(cfg, INITIAL, events).workers
    requires var w := After(cfg, INITIAL, events).workers[id]; w.Saving? || w.Reloading?
    ensures CameFrom(cfg, events, id, n)
    decreases |events|
  {
    hide Step;
    LastEvent(cfg, events);
    var last := |events| - 1;
    var front := events[..last];
    if events[last].id != id {
      n := SomeStepLedHere(cfg, front, id);
      assert front[..n] == events[..n];
    } else {
      n := last;
    }
  }

  lemma {:induction false} UntouchedSince(cfg: Settings, events: seq<Event>, id: nat, n: nat)
    requires LastAct(events, id, n, |events|)
    ensures id in After(cfg, INITIAL, events).workers <==> id in Before(cfg, events, n + 1).workers
    ensures id in After(cfg, INITIAL, events).workers ==>
      After(cfg, INITIAL, events).workers[id] == Before(cfg, events, n + 1).workers[id]
    decreases |events|
  {
    hide Step;
    var last := |events| - 1;
    if n == last {
      assert events[..n + 1] == events;
    } else {
      LastEvent(cfg, events);
      var front := events[..last];
      assert front[..n + 1] == events[..n + 1];
      UntouchedSince(cfg, front, id, n);
    }
  }

  // ---- one step -----------------------------------------------------------------------

  predicate ResavesDecision(w: Worker) {
    w.Saving? && w.base.phase.ExecuteDecision? && w.next.phase.ExecuteDecision?
  }

  /** Only a worker that reloads saves a decision-phase run in its phase, and it saves the run as it is. */
  lemma OnlyReloadingResaves(cfg: Settings, s: Store, w: Worker, i: Input)
    requires StoreOk(cfg, s) && WorkerOk(cfg, s, w) && ResavesDecision(Step(cfg, s, w, i).1)
    ensures w.Reloading? && w.approve && w.base.runId in s.runs && s.runs[w.base.runId].phase.ExecuteDecision?
    ensures Step(cfg, s, w, i).1.next == Step(cfg, s, w, i).1.base == s.runs[w.base.runId]
  {
    hide RunOk, DecisionsOk, ApprovalsOk, FingerprintsDistinct, AuthoriseDecision, AuthoriseSignature, ValidateSigner,
      ArgumentsValid, KeyFor, RowFor, Sign, ToolPermits, Any, WithStops, SignerOk, Backed, Doomed,
      SavedInPlace, FactsFrozen, RequestKept, Recommended, ApprovalFor, Evolves;
    match w
    case Reloading(base, approve, met) => ReloadedDecision(cfg, s, base, approve, met);
    case Resolving(base, d) =>
      if d.approvalId in s.approvals && s.approvals[d.approvalId].status.Pending? {
        Preservation.PendingMeansAwaiting(cfg, s, base);
      }
    case Driving(base) => DrivingResavesNothing(cfg, s, base, i);
    case CreatingApproval(_, _) =>
    case _ =>
  }

  lemma DrivingResavesNothing(cfg: Settings, s: Store, base: Run, i: Input)
    ensures !ResavesDecision(StepDriving(cfg, s, base, i))
  {
    hide AuthoriseDecision, Any, ArgumentsValid, WithStops, Recommended, HandleEvidencePhase, HandleAssessRisk;
  }

  lemma ReloadedDecision(cfg: Settings, s: Store, base: Run, approve: bool, met: bool)
    requires StoreOk(cfg, s) && WorkerOk(cfg, s, Reloading(base, approve, met))
    ensures var w := StepReloading(s, base, approve, met);
      ResavesDecision(w) <==> s.runs[base.runId].phase.ExecuteDecision?
    ensures var w := StepReloading(s, base, approve, met);
      ResavesDecision(w) ==> w.next == w.base == s.runs[base.runId] && approve
  {
    hide StoreOk, RunOk, RunEvolves;
    Preservation.ReloadedRunOk(cfg, s, base, approve, met);
    var current := s.runs[base.runId];
    if current.phase.ExecuteDecision? {
      Preservation.ExecutingRunHistory(cfg, s, current);
      assert MoveTo(current, ExecuteDecision) == current;
    }
  }

  /** An approving worker reloads only because the store knew its signature. */
  lemma OnlyReplaysReload(cfg: Settings, s: Store, w: Worker, i: Input)
    requires Step(cfg, s, w, i).1.Reloading? && Step(cfg, s, w, i).1.approve
    ensures w.Signing? && w.base.approvalId.Some? && w.base.approvalId.value in s.approvals
    ensures w.approverId in s.approvals[w.base.approvalId.value].signatures
  {
    hide AuthoriseDecision, AuthoriseSignature, ValidateSigner, ArgumentsValid, KeyFor, RowFor, Sign, ToolPermits,
      Any,
      WithStops, Recommended, ApprovalFor, HandleEvidencePhase, HandleAssessRisk, Complete;
  }

  // ---- whole histories ----------------------------------------------------------------

  lemma ResavingCameThroughReloading(cfg: Settings, events: seq<Event>, id: nat)
    requires id in After(cfg, INITIAL, events).workers
    requires ResavesDecision(After(cfg, INITIAL, events).workers[id])
    ensures CameThroughReloading(cfg, events, id)
  {
    hide StoreOk, WorkerOk, Step, After;
    var n := SomeStepLedHere(cfg, events, id);
    var before := events[..n];
    Theorems.ReachableOk(cfg, before);
    var reloading := After(cfg, INITIAL, before);
    OnlyReloadingResaves(cfg, reloading.store, reloading.workers[id], events[n].input);
    var m := SomeStepLedHere(cfg, before, id);
    assert before[..m] == events[..m];
    var signing := After(cfg, INITIAL, events[..m]);
    OnlyReplaysReload(cfg, signing.store, signing.workers[id], events[m].input);
    assert ReloadedAt(cfg, events, id, m, n);
  }

  lemma ReloadingResaves(cfg: Settings, events: seq<Event>, id: nat)
    requires id in After(cfg, INITIAL, events).workers && CameThroughReloading(cfg, events, id)
    ensures var w := After(cfg, INITIAL, events).workers[id]; ResavesDecision(w) && w.next == w.base
  {
    hide StoreOk, WorkerOk, Step, After, SignsAgain;
    var m, n :| 0 <= m < n < |events| && ReloadedAt(cfg, events, id, m, n);
    UntouchedSince(cfg, events, id, n);
    var upTo := events[..n + 1];
    LastEvent(cfg, upTo);
    assert upTo[..n] == events[..n];
    Theorems.ReachableOk(cfg, events[..n]);
    var sys := After(cfg, INITIAL, events[..n]);
    var w := sys.workers[id];
    ReloadedDecision(cfg, sys.store, w.base, w.approve, w.met);
    StepOfReloading(cfg, sys.store, w, events[n].input);
  }

  lemma StepOfReloading(cfg: Settings, s: Store, w: Worker, i: Input)
    requires w.Reloading?
    ensures Step(cfg, s, w, i) == (s, StepReloading(s, w.base, w.approve, w.met))
  {
  }

  /** A committed save finds a run at the decision phase and leaves it there exactly when the worker that saves
      came through a reload on a replayed signature while the run was at that phase; and then nothing but
      the version changes. */
  lemma DecisionIsResavedExactlyWhen(cfg: Settings, events: seq<Event>, id: nat, i: Input)
    requires id in After(cfg, INITIAL, events).workers && After(cfg, INITIAL, events).workers[id].Saving?
    requires var sys := After(cfg, INITIAL, events); SaveRun(sys.store, sys.workers[id].next).1.Saved?
    ensures var sys := After(cfg, INITIAL, events);
      var r := sys.workers[id].base.runId;
      var later := Fire(cfg, sys, Act(id, i));
      r in sys.store.runs && r in later.store.runs &&
      var x, y := sys.store.runs[r], later.store.runs[r];
      (x.phase.ExecuteDecision? && y.phase.ExecuteDecision? <==> CameThroughReloading(cfg, events, id)) &&
      (x.phase.ExecuteDecision? && y.phase.ExecuteDecision? ==> y == x.(version := x.version + 1))
  {
    hide StoreOk, RunOk, RunEvolves, After, CameThroughReloading;
    Theorems.ReachableOk(cfg, events);
    var sys := After(cfg, INITIAL, events);
    var w := sys.workers[id];
    Theorems.SaveCommitsOnto(cfg, sys.store, w.base, w.next);
    if ResavesDecision(w) {
      ResavingCameThroughReloading(cfg, events, id);
    }
    if CameThroughReloading(cfg, events, id) {
      ReloadingResaves(cfg, events, id);
    }
  }
}
