/** Exactly when a run whose approval is settled, but whose own save has not happened, can still move
    (src/ap_agent/orchestration/machine.py `_resolve`).

    No new callback, resumption or start helps: the replay answers first. What can still move the run is a
    worker that was already past that answer when the approval was settled. */
module Movers {
  import opened Prelude
  import opened Domain
  import opened Store
  import opened Protocol
  import opened Invariant
  import opened Stranded
  import Preservation
  import Theorems

  function Gate(s: Store, r: string): Approval
    requires WaitsForSettled(s, r)
  {
    s.approvals[s.runs[r].approvalId.value]
  }

  /** A worker that moves run `r` on if it is left alone: it is about to save a later phase over the stored
      copy, or will go on from the stored copy because the store reports a replay, or it signs from the
      stored copy. */
  predicate MovesAlone(s: Store, r: string, w: Worker)
    requires WaitsForSettled(s, r)
  {
    match w
    case Saving(base, next, _) => base == s.runs[r] && !next.phase.AwaitingApproval?
    case Reloading(base, approve, met) => base.runId == r && (!approve || met)
    case Signing(base, _, p, _) =>
      base.runId == r && Gate(s, r).status.Approved? && (p in Gate(s, r).signatures || base == s.runs[r])
    case Rejecting(base, _) => base.runId == r && Gate(s, r).status.Rejected?
    case _ => false
  }

  /** Two workers that sign run `r` for one person: the second to get there is a replay, and goes on from the
      stored copy even though both hold an old one. */
  predicate MoveTogether(s: Store, r: string, v: Worker, w: Worker)
    requires WaitsForSettled(s, r)
  {
    v.Signing? && w.Signing? && v.base.runId == r && w.base.runId == r && v.approverId == w.approverId &&
    Gate(s, r).status.Approved?
  }

  predicate CanStillMove(sys: System, r: string)
    requires WaitsForSettled(sys.store, r)
  {
    (exists id :: id in sys.workers && MovesAlone(sys.store, r, sys.workers[id])) ||
    (exists i, j :: i in sys.workers && j in sys.workers && i != j &&
       MoveTogether(sys.store, r, sys.workers[i], sys.workers[j]))
  }

  predicate Immobile(sys: System, r: string) {
    WaitsForSettled(sys.store, r) && !CanStillMove(sys, r)
  }

  // ---- nobody moves it ----------------------------------------------------------------

  /** How one step of a worker that does not move the run may touch what the others look at. */
  predicate StillWaits(s: Store, t: Store, r: string, w: Worker)
    requires WaitsForSettled(s, r)
  {
    && WaitsForSettled(t, r)
    && Gate(t, r).status == Gate(s, r).status
    && RunEvolves(s.runs[r], t.runs[r])
    && forall p :: p in Gate(t, r).signatures ==>
         p in Gate(s, r).signatures || (w.Signing? && w.base.runId == r && p == w.approverId)
  }

  lemma GateBelongs(cfg: Settings, s: Store, r: string, base: Run)
    requires StoreOk(cfg, s) && WaitsForSettled(s, r) && Behind(cfg, s, base)
    ensures base.approvalId == s.runs[r].approvalId ==> base.runId == r
    ensures base.runId == r && base.approvalId.Some? ==> base.approvalId == s.runs[r].approvalId
  {
    hide EngineOk, HistoryOk, DecisionsOk, ApprovalsOk, FingerprintsDistinct, KeyFor, Doomed, SavedInPlace;
    assert RunOk(cfg, s, s.runs[r]) && LinkOk(cfg, s, s.runs[r]);
    if base.approvalId.Some? {
      assert LinkOk(cfg, s, base);
    }
  }

  lemma OtherRunsStep(cfg: Settings, s: Store, r: string, w: Worker, i: Input)
    requires WorkerOk(cfg, s, w) && !Ended(w) && w.base.runId != r && StoreOk(cfg, s) && WaitsForSettled(s, r)
    ensures var (t, v) := Step(cfg, s, w, i);
      StillWaits(s, t, r, w) && (Ended(v) || v.base.runId != r)
  {
    hide Step, StoreOk, RunOk, RunEvolves, WorkerOk;
    KeepsToItsRun(cfg, s, w);
    StepFrame(cfg, s, w, i);
    assert Behind(cfg, s, w.base) by { BaseIsBehind(cfg, s, w); }
    GateBelongs(cfg, s, r, w.base);
    RunEvolvesReflexive(s.runs[r]);
  }

  lemma RunEvolvesReflexive(x: Run)
    ensures RunEvolves(x, x)
  {
  }

  lemma BaseIsBehind(cfg: Settings, s: Store, w: Worker)
    requires WorkerOk(cfg, s, w) && !Ended(w)
    ensures Behind(cfg, s, w.base)
  {
    hide RunOk, RunEvolves, RecordOk;
    if w.Submitting? || w.Recording? {
      RecorderIsBehind(cfg, s, w.base, w.args);
    }
  }

  lemma RecorderIsBehind(cfg: Settings, s: Store, base: Run, args: DecisionRequest)
    requires RecordOk(cfg, s, base, args)
    ensures Behind(cfg, s, base) && base.phase.ExecuteDecision?
  {
  }

  /** A worker on run `r` that cannot move it alone leaves it waiting, and does not become able to. */
  lemma OwnRunStep(cfg: Settings, s: Store, r: string, w: Worker, i: Input)
    requires WorkerOk(cfg, s, w) && !Ended(w) && w.base.runId == r && StoreOk(cfg, s) && WaitsForSettled(s, r)
    requires !MovesAlone(s, r, w)
    ensures var (t, v) := Step(cfg, s, w, i);
      StillWaits(s, t, r, w) && !MovesAlone(t, r, v) && !v.Signing?
  {
    hide StoreOk, RunOk, EngineOk, Judged, StepDriving, StepCreatingApproval, StepRecording, StepSubmitting, Sign,
      StepSaving, StepSigning;
    BaseIsBehind(cfg, s, w);
    GateBelongs(cfg, s, r, w.base);
    RunEvolvesReflexive(s.runs[r]);
    match w
    case Driving(base) => DrivingStays(cfg, s, r, base, i);
    case CreatingApproval(base, next) => StaleCreation(s, r, base, next, i);
    case Submitting(base, args) => RecorderIsBehind(cfg, s, base, args);
    case Recording(base, args) => RecorderIsBehind(cfg, s, base, args);
    case Saving(base, next, andThen) => SavingStays(cfg, s, r, base, next, andThen);
    case Resolving(base, d) =>
    case Signing(base, next, p, sig) => SigningStays(cfg, s, r, base, next, p, sig);
    case Rejecting(base, next) =>
    case Reloading(base, approve, met) =>
  }

  lemma DrivingStays(cfg: Settings, s: Store, r: string, base: Run, i: Input)
    requires WaitsForSettled(s, r) && base.runId == r && Behind(cfg, s, base)
    ensures var v := StepDriving(cfg, s, base, i); !MovesAlone(s, r, v) && !v.Signing?
  {
    hide RunOk, AuthoriseDecision, Any, Complete, Fail, Recommended, HandleEvidencePhase, WithStops, ArgumentsValid,
      HandleAssessRisk, SavedInPlace, FactsFrozen, RequestKept;
  }

  lemma StaleCreation(s: Store, r: string, base: Run, next: Run, i: Input)
    requires WaitsForSettled(s, r) && base.runId == r && base.phase.Recommend? && next.recommendation.Some?
    ensures var (t, v) := StepCreatingApproval(s, base, next, i);
      WaitsForSettled(t, r) && Gate(t, r) == Gate(s, r) && t.runs == s.runs && !MovesAlone(t, r, v) && !v.Signing?
  {
    hide ApprovalFor, Complete;
  }

  lemma SavingStays(cfg: Settings, s: Store, r: string, base: Run, next: Run, andThen: AfterSave)
    requires WaitsForSettled(s, r) && base.runId == r && SaveOk(cfg, s, base, next)
    requires !MovesAlone(s, r, Saving(base, next, andThen))
    ensures var (t, v) := StepSaving(s, next, andThen);
      StillWaits(s, t, r, Saving(base, next, andThen)) && !MovesAlone(t, r, v) && !v.Signing?
  {
    hide RunOk, SavedInPlace, RequestKept;
    RunEvolvesReflexive(s.runs[r]);
  }

  lemma SigningStays(cfg: Settings, s: Store, r: string, base: Run, next: Run, p: string, sig: Signature)
    requires WaitsForSettled(s, r) && base.runId == r && base.approvalId == s.runs[r].approvalId
    requires !MovesAlone(s, r, Signing(base, next, p, sig))
    ensures var (t, v) := StepSigning(s, base, next, p, sig);
      StillWaits(s, t, r, Signing(base, next, p, sig)) && !MovesAlone(t, r, v) && !v.Signing?
  {
    hide SavedInPlace, FactsFrozen, RequestKept;
    RunEvolvesReflexive(s.runs[r]);
  }

  /** A step that leaves the run waiting makes no other worker able to move it. */
  lemma RivalStays(cfg: Settings, s: Store, t: Store, r: string, w: Worker, x: Worker)
    requires WaitsForSettled(s, r) && StillWaits(s, t, r, w) && WorkerOk(cfg, s, x)
    requires !MovesAlone(s, r, x) && !MoveTogether(s, r, w, x)
    ensures !MovesAlone(t, r, x)
  {
    hide RunOk, SavedInPlace, FactsFrozen, RequestKept, WorkerOk;
    if !Ended(x) && x.base.runId == r {
      BaseIsBehind(cfg, s, x);
    }
  }

  lemma EndedStep(cfg: Settings, s: Store, w: Worker, i: Input)
    requires Ended(w)
    ensures Step(cfg, s, w, i) == (s, w)
  {
  }

  lemma ImmobileAct(cfg: Settings, sys: System, r: string, id: nat, i: Input)
    requires Theorems.SystemOk(cfg, sys) && Immobile(sys, r) && id in sys.workers
    ensures Immobile(Fire(cfg, sys, Act(id, i)), r)
  {
    hide StoreOk, WorkerOk, Step, RunEvolves;
    var w := sys.workers[id];
    var (t, v) := Step(cfg, sys.store, w, i);
    if Ended(w) {
      assert (t, v) == (sys.store, w) by { EndedStep(cfg, sys.store, w, i); }
      RunEvolvesReflexive(sys.store.runs[r]);
    } else if w.base.runId != r {
      OtherRunsStep(cfg, sys.store, r, w, i);
    } else {
      OwnRunStep(cfg, sys.store, r, w, i);
    }
    forall k | k in sys.workers && k != id ensures !MovesAlone(t, r, sys.workers[k]) {
      RivalStays(cfg, sys.store, t, r, w, sys.workers[k]);
    }
  }

  lemma ImmobileLaunch(cfg: Settings, sys: System, r: string, id: nat, e: Entry)
    requires Theorems.SystemOk(cfg, sys) && Immobile(sys, r)
    ensures Immobile(Fire(cfg, sys, Launch(id, e)), r)
  {
    hide StoreOk, WorkerOk;
    var (t, w) := Enter(sys.store, e);
    assert !MovesAlone(t, r, w) && !w.Signing?;
    assert Gate(t, r) == Gate(sys.store, r) && t.runs[r] == sys.store.runs[r];
    forall k | k in sys.workers ensures !MovesAlone(t, r, sys.workers[k]) {
      assert !MovesAlone(sys.store, r, sys.workers[k]);
    }
  }

  /** Nothing that can happen next makes an immobile run movable. */
  lemma FireKeepsImmobile(cfg: Settings, sys: System, r: string, e: Event)
    requires Theorems.SystemOk(cfg, sys) && Immobile(sys, r)
    ensures Immobile(Fire(cfg, sys, e), r)
  {
    hide Theorems.SystemOk, MovesAlone, MoveTogether, WaitsForSettled;
    match e
    case Launch(id, entry) => ImmobileLaunch(cfg, sys, r, id, entry);
    case Act(id, input) =>
      if id in sys.workers {
        ImmobileAct(cfg, sys, r, id, input);
      }
    case Crash(id) =>
      assert forall k :: k in Fire(cfg, sys, e).workers ==> Fire(cfg, sys, e).workers[k] == sys.workers[k];
  }

  lemma {:induction false} ImmobileForever(cfg: Settings, sys: System, r: string, events: seq<Event>)
    requires Theorems.SystemOk(cfg, sys) && Immobile(sys, r)
    ensures Immobile(After(cfg, sys, events), r)
    decreases |events|
  {
    hide Immobile, Theorems.SystemOk;
    if events != [] {
      FireKeepsImmobile(cfg, sys, r, events[0]);
      Theorems.FireOk(cfg, sys, events[0]);
      ImmobileForever(cfg, Fire(cfg, sys, events[0]), r, events[1..]);
    }
  }

  // ---- somebody moves it --------------------------------------------------------------

  predicate Moved(s: Store, r: string) {
    r in s.runs && !s.runs[r].phase.AwaitingApproval?
  }

  /** Some continuation takes the run out of waiting. */
  ghost predicate MovableBySomeHistory(cfg: Settings, sys: System, r: string) {
    exists events :: Moved(After(cfg, sys, events).store, r)
  }

  lemma OneMoreEvent(cfg: Settings, sys: System, r: string, e: Event)
    requires MovableBySomeHistory(cfg, Fire(cfg, sys, e), r)
    ensures MovableBySomeHistory(cfg, sys, r)
  {
    hide Fire;
    var events :| Moved(After(cfg, Fire(cfg, sys, e), events).store, r);
    assert ([e] + events)[1..] == events;
    assert After(cfg, sys, [e] + events) == After(cfg, Fire(cfg, sys, e), events);
  }

  /** How many steps a mover still needs, at most. */
  function Distance(w: Worker): nat {
    if w.Saving? then 0 else if w.Reloading? then 1 else 2
  }

  lemma MoverStep(cfg: Settings, s: Store, r: string, w: Worker, i: Input)
    requires StoreOk(cfg, s) && WorkerOk(cfg, s, w) && WaitsForSettled(s, r) && MovesAlone(s, r, w)
    ensures var (t, v) := Step(cfg, s, w, i);
      if w.Saving? then Moved(t, r)
      else WaitsForSettled(t, r) && MovesAlone(t, r, v) && Distance(v) < Distance(w)
  {
    hide RunOk, SavedInPlace, FactsFrozen, RequestKept, DecisionsOk, FingerprintsDistinct, SignerOk, Backed, RunsOk,
      StepDriving, StepCreatingApproval, StepRecording, StepSubmitting, StepResolving;
    if !w.Saving? {
      GateBelongsHere(cfg, s, r, w);
    }
    if w.Signing? {
      SettledGateIsMet(cfg, s, r, w.approverId, w.signature);
    }
  }

  lemma GateBelongsHere(cfg: Settings, s: Store, r: string, w: Worker)
    requires StoreOk(cfg, s) && WorkerOk(cfg, s, w) && WaitsForSettled(s, r) && !Ended(w) && w.base.runId == r
    ensures w.base.approvalId.Some? ==> w.base.approvalId == s.runs[r].approvalId
    ensures w.Signing? || w.Rejecting? || w.Reloading? ==> w.base.approvalId == s.runs[r].approvalId
  {
    hide StoreOk, RunEvolves, RunOk;
    BaseIsBehind(cfg, s, w);
    GateBelongs(cfg, s, r, w.base);
    if w.Rejecting? {
      Preservation.LinkedBothWays(cfg, s, w.base);
    }
  }

  lemma SettledGateIsMet(cfg: Settings, s: Store, r: string, p: string, sig: Signature)
    requires StoreOk(cfg, s) && WaitsForSettled(s, r) && Gate(s, r).status.Approved?
    ensures Sign(Gate(s, r), p, sig).status.Approved? && Sign(Gate(s, r), p, sig).RequirementMet()
  {
    hide RunsOk, DecisionsOk, FingerprintsDistinct, SignerOk, Backed;
    assert ApprovalOk(s, s.runs[r].approvalId.value, Gate(s, r));
    Preservation.SignKeepsStatus(Gate(s, r), p, sig);
    Preservation.CollectedOnlyGrows(Gate(s, r), p, sig);
  }

  lemma {:induction false} MoverMoves(cfg: Settings, sys: System, r: string, id: nat, i: Input)
    requires Theorems.SystemOk(cfg, sys) && WaitsForSettled(sys.store, r)
    requires id in sys.workers && MovesAlone(sys.store, r, sys.workers[id])
    ensures MovableBySomeHistory(cfg, sys, r)
    decreases Distance(sys.workers[id])
  {
    hide StoreOk, WorkerOk, Step, MovesAlone, Moved;
    var w, later := sys.workers[id], Fire(cfg, sys, Act(id, i));
    MoverStep(cfg, sys.store, r, w, i);
    Theorems.FireOk(cfg, sys, Act(id, i));
    if w.Saving? {
      assert After(cfg, later, []) == later;
    } else {
      MoverMoves(cfg, later, r, id, i);
    }
    OneMoreEvent(cfg, sys, r, Act(id, i));
  }

  /** The first of two signings for one person makes the second a replay. */
  lemma FirstSigningHelps(cfg: Settings, s: Store, r: string, v: Worker, w: Worker, i: Input)
    requires StoreOk(cfg, s) && WorkerOk(cfg, s, v) && WaitsForSettled(s, r) && MoveTogether(s, r, v, w)
    ensures var t := Step(cfg, s, v, i).0; WaitsForSettled(t, r) && MovesAlone(t, r, w)
  {
    hide RunOk, SavedInPlace, FactsFrozen, RequestKept, RunsOk, DecisionsOk, FingerprintsDistinct, SignerOk, Backed;
    GateBelongsHere(cfg, s, r, v);
    SettledGateIsMet(cfg, s, r, v.approverId, v.signature);
  }

  lemma PairMoves(cfg: Settings, sys: System, r: string, first: nat, second: nat, i: Input)
    requires Theorems.SystemOk(cfg, sys) && WaitsForSettled(sys.store, r) && first != second
    requires first in sys.workers && second in sys.workers
    requires MoveTogether(sys.store, r, sys.workers[first], sys.workers[second])
    ensures MovableBySomeHistory(cfg, sys, r)
  {
    hide StoreOk, WorkerOk, Step, MovesAlone, MoveTogether, MovableBySomeHistory;
    FirstSigningHelps(cfg, sys.store, r, sys.workers[first], sys.workers[second], i);
    Theorems.FireOk(cfg, sys, Act(first, i));
    MoverMoves(cfg, Fire(cfg, sys, Act(first, i)), r, second, i);
    OneMoreEvent(cfg, sys, r, Act(first, i));
  }

  lemma SomebodyMovesIt(cfg: Settings, sys: System, r: string)
    requires Theorems.SystemOk(cfg, sys) && WaitsForSettled(sys.store, r) && CanStillMove(sys, r)
    ensures MovableBySomeHistory(cfg, sys, r)
  {
    hide Theorems.SystemOk, MovesAlone, MoveTogether, MovableBySomeHistory;
    var i: Input := *;
    if id :| id in sys.workers && MovesAlone(sys.store, r, sys.workers[id]) {
      MoverMoves(cfg, sys, r, id, i);
    } else {
      var first, second :| first in sys.workers && second in sys.workers && first != second &&
        MoveTogether(sys.store, r, sys.workers[first], sys.workers[second]);
      PairMoves(cfg, sys, r, first, second, i);
    }
  }

  lemma NobodyMovesIt(cfg: Settings, sys: System, r: string, events: seq<Event>)
    requires Theorems.SystemOk(cfg, sys) && WaitsForSettled(sys.store, r) && !CanStillMove(sys, r)
    ensures !Moved(After(cfg, sys, events).store, r)
  {
    assert Immobile(sys, r);
    hide Theorems.SystemOk, MovesAlone, MoveTogether, Immobile;
    ImmobileForever(cfg, sys, r, events);
    StillWaiting(After(cfg, sys, events), r);
  }

  lemma StillWaiting(sys: System, r: string)
    requires Immobile(sys, r)
    ensures !Moved(sys.store, r)
  {
  }

  /** A run that waits for a settled approval leaves its phase in some continuation exactly when some worker
      in flight can still move it. No delivery, resumption or start to come makes any difference. */
  lemma MovesExactlyWhenSomebodyCan(cfg: Settings, sys: System, r: string)
    requires Theorems.SystemOk(cfg, sys) && WaitsForSettled(sys.store, r)
    ensures MovableBySomeHistory(cfg, sys, r) <==> CanStillMove(sys, r)
  {
    hide Theorems.SystemOk, CanStillMove;
    if CanStillMove(sys, r) {
      SomebodyMovesIt(cfg, sys, r);
    }
    if MovableBySomeHistory(cfg, sys, r) && !CanStillMove(sys, r) {
      var events :| Moved(After(cfg, sys, events).store, r);
      NobodyMovesIt(cfg, sys, r, events);
    }
  }
}
