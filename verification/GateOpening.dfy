/** Which two-signature gates can be opened, in which order, and by whom
    (src/ap_agent/orchestration/approvals.py, src/ap_agent/domain/rules/authority.py).

    The question is asked of the machine: of all histories that continue a system in which the run waits. */
module GateOpening {
  import opened Prelude
  import opened Domain
  import opened Store
  import opened Protocol
  import opened Invariant
  import opened Histories
  import Preservation
  import Theorems
  import Money
  import Authority
  import Segregation

  /** An unsigned gate that asks for two signatures, one of them from Financial Control. */
  predicate FreshTwoSignatureGate(a: Approval, run: Run) {
    a.status.Pending? && a.signatures == map[] && a.requiredCount == 2 && a.requiresFinancialControl &&
    a.presentedAmount == run.request.amount
  }

  /** Someone whom neither the self-approval rule nor segregation of duties keeps out at this moment. */
  predicate FreeToSign(run: Run, approverId: string, moment: int) {
    run.request.NamesRequester() && approverId != run.request.requestedBy.value &&
    Segregation.CheckApprovalTime(
      run.gathered.vendor, run.gathered.order, run.request.amount, run.request.requestedBy, approverId,
      DateOf(moment)) == []
  }

  // ---- order --------------------------------------------------------------------------

  /** Financial Control, acting in its own right, signs only behind a signature whose limit covers the
      amount. */
  lemma FinancialControlSignsSecond(
      a: Approval, d: Delivery, run: Run, delegation: Option<DelegationRecord>, moment: int)
    requires AuthoriseSignature(a, d, run, delegation, moment) && d.approverRole == Some(FinancialControl)
    ensures PrimarySigned(a) ||
      (delegation.Some? && delegation.value.delegateId == d.approverId &&
       delegation.value.IsValidAt(DateOf(moment)) && delegation.value.delegateRole.Some? &&
       Authority.Covers(delegation.value.delegateRole.value, Money.Quantize(a.presentedAmount)))
  {
    Authority.AcceptanceCharacterised(Authority.RequiredAuthority(a.presentedAmount, a.higherRisk),
      d.approverId, d.approverRole, delegation, run.request.requestedBy, run.request.costCentreTokens,
      PrimarySigned(a), DateOf(moment));
    Authority.DelegationNeverRemovesAuthority(FinancialControl, d.approverId, delegation,
      run.request.costCentreTokens, DateOf(moment));
  }

  // ---- opening ------------------------------------------------------------------------

  lemma LimitCoversRounded(role: Role, amount: real)
    requires Authority.LimitOf(role).Some? && amount <= Authority.LimitOf(role).value
    ensures Authority.Covers(role, Money.Quantize(amount))
  {
    Authority.LimitsAreWholeCents(role);
    Money.QuantizeAtMost(amount, Authority.LimitOf(role).value);
  }

  function Callback(approvalId: string, approverId: string, role: Role): Delivery {
    Delivery(true, approvalId, approverId, Some(role), false)
  }

  lemma PrimaryIsAccepted(a: Approval, run: Run, id: string, p: string, role: Role, moment: int)
    requires FreshTwoSignatureGate(a, run) && FreeToSign(run, p, moment)
    requires Authority.LimitOf(role).Some? && run.request.amount <= Authority.LimitOf(role).value
    ensures var d := Callback(id, p, role);
      AuthoriseSignature(a, d, run, None, moment) &&
      var b := Sign(a, p, SignatureOf(a, d, run, moment));
      b.status.Pending? && !b.RequirementMet() && b.signatures.Keys == {p} && PrimarySigned(b) &&
      b == a.(signatures := b.signatures)
  {
    LimitCoversRounded(role, run.request.amount);
    var d := Callback(id, p, role);
    assert AuthoriseSignature(a, d, run, None, moment);
    var b := Sign(a, p, SignatureOf(a, d, run, moment));
    assert |a.signatures[p := SignatureOf(a, d, run, moment)]| == 1;
    assert p in b.signatures && IsPrimary(b.signatures[p], b.presentedAmount);
  }

  lemma SecondIsAccepted(b: Approval, run: Run, id: string, p: string, q: string, moment: int)
    requires FreeToSign(run, q, moment) && p != q && b.signatures.Keys == {p} && PrimarySigned(b)
    requires b.requiredCount == 2 && b.requiresFinancialControl
    ensures var d := Callback(id, q, FinancialControl);
      AuthoriseSignature(b, d, run, None, moment) && Sign(b, q, SignatureOf(b, d, run, moment)).RequirementMet()
  {
    var d := Callback(id, q, FinancialControl);
    assert AuthoriseSignature(b, d, run, None, moment);
    var sig := SignatureOf(b, d, run, moment);
    var collected := b.(signatures := b.signatures[q := sig]);
    assert collected.signatures.Keys == {p, q};
    assert |collected.signatures| == 2;
    assert collected.signatures[q].isFinancialControl;
    Preservation.StatusIsNotRequirement(collected, Approved);
  }

  /** A run that waits behind a fresh two-signature gate, with nobody already on the way to sign it. */
  predicate WaitsAtFreshGate(sys: System, r: string) {
    && r in sys.store.runs && sys.store.runs[r].runId == r && sys.store.runs[r].phase.AwaitingApproval?
    && sys.store.runs[r].approvalId.Some? && sys.store.runs[r].approvalId.value in sys.store.approvals
    && FreshTwoSignatureGate(sys.store.approvals[sys.store.runs[r].approvalId.value], sys.store.runs[r])
    && forall id :: id in sys.workers && sys.workers[id].Signing? ==> sys.workers[id].base.runId != r
  }

  /** Two callbacks, one after the other: a primary signature and then Financial Control's. */
  function TwoCallbacks(r: string, id: string, p: string, role: Role, q: string, i: Input, j: Input): seq<Event> {
    Deliver(0, r, Callback(id, p, role), i) + Deliver(1, r, Callback(id, q, FinancialControl), j)
  }

  predicate Undelegated(events: seq<Event>) {
    forall k :: 0 <= k < |events| && events[k].Act? ==> events[k].input.delegation.None?
  }

  predicate Released(s: Store, r: string) {
    r in s.runs && (s.runs[r].phase.ExecuteDecision? || s.runs[r].phase.Completed?)
  }

  /** A qualified primary and then Financial Control open the gate: two callbacks, delivered at moments at which
      the two are free to sign, take the waiting run to its decision. */
  lemma PrimaryThenControlOpens(
      cfg: Settings, sys: System, r: string, p: string, role: Role, q: string, i: Input, j: Input)
    requires WaitsAtFreshGate(sys, r) && p != q
    requires FreeToSign(sys.store.runs[r], p, i.moment) && FreeToSign(sys.store.runs[r], q, j.moment)
    requires Authority.LimitOf(role).Some? && sys.store.runs[r].request.amount <= Authority.LimitOf(role).value
    ensures var run := sys.store.runs[r];
      var later := After(cfg, sys, TwoCallbacks(r, run.approvalId.value, p, role, q, i, j)).store;
      r in later.runs && later.runs[r] == MoveTo(run, ExecuteDecision).(version := run.version + 2)
  {
    hide AuthoriseSignature, Sign, SignatureOf, FreeToSign, After, Deliver;
    var run, s := sys.store.runs[r], sys.store;
    var id := run.approvalId.value;
    var first, second := Callback(id, p, role), Callback(id, q, FinancialControl);
    PrimaryIsAccepted(s.approvals[id], run, id, p, role, i.moment);
    DeliveryStores(cfg, sys, 0, r, first, i);
    var mid := After(cfg, sys, Deliver(0, r, first, i));
    var waiting := mid.store.runs[r];
    assert waiting == run.(version := run.version + 1);
    StillFree(run, waiting, q, j.moment);
    SecondIsAccepted(mid.store.approvals[id], waiting, id, p, q, j.moment);
    DeliveryStores(cfg, mid, 1, r, second, j);
    Theorems.AfterJoins(cfg, sys, Deliver(0, r, first, i), Deliver(1, r, second, j));
  }

  lemma StillFree(x: Run, y: Run, p: string, moment: int)
    requires FreeToSign(x, p, moment) && x.request == y.request && x.gathered == y.gathered
    ensures FreeToSign(y, p, moment)
  {
  }

  // ---- staying shut -------------------------------------------------------------------

  const HIGHEST_LIMIT: real := 1000000.0

  /** No signature carries the amount and none is from Financial Control. */
  predicate Stuck(a: Approval) {
    a.requiresFinancialControl && !a.status.Approved? && a.presentedAmount > HIGHEST_LIMIT &&
    forall p :: p in a.signatures ==>
      !IsPrimary(a.signatures[p], a.presentedAmount) && !a.signatures[p].isFinancialControl
  }

  lemma UndelegatedSignatureIsNoHelp(a: Approval, d: Delivery, run: Run, moment: int)
    requires Stuck(a) && AuthoriseSignature(a, d, run, None, moment)
    ensures var sig := SignatureFrom(ValidateSigner(a, d, run, None, moment), d, moment);
      !IsPrimary(sig, a.presentedAmount) && !sig.isFinancialControl
  {
    Authority.UndelegatedActsInOwnRole(
      Authority.RequiredAuthority(a.presentedAmount, a.higherRisk), d.approverId, d.approverRole,
      run.request.requestedBy, run.request.costCentreTokens, PrimarySigned(a), DateOf(moment));
    if Authority.LimitOf(d.approverRole.value).Some? {
      Authority.LimitsAreWholeCents(d.approverRole.value);
    }
  }

  lemma StuckAfterSigning(a: Approval, p: string, sig: Signature)
    requires Stuck(a) && !IsPrimary(sig, a.presentedAmount) && !sig.isFinancialControl
    ensures Stuck(Sign(a, p, sig)) && Sign(a, p, sig).presentedAmount == a.presentedAmount
  {
    var collected := a.(signatures := if p in a.signatures then a.signatures else a.signatures[p := sig]);
    assert !collected.HasFinancialControl();
  }

  /** The gate of the run is stuck, and nobody on the way to sign it brings what it lacks. */
  predicate StaysShut(sys: System, r: string) {
    && r in sys.store.runs && sys.store.runs[r].runId == r && PastPlan(sys.store.runs[r].phase)
    && sys.store.runs[r].approvalId.Some? && sys.store.runs[r].approvalId.value in sys.store.approvals
    && var id := sys.store.runs[r].approvalId.value;
       Stuck(sys.store.approvals[id]) &&
       forall k :: k in sys.workers ==> IsNoHelp(sys.workers[k], id, sys.store.approvals[id].presentedAmount)
  }

  predicate IsNoHelp(w: Worker, id: string, amount: real) {
    w.Signing? && w.base.approvalId == Some(id) ==>
      !IsPrimary(w.signature, amount) && !w.signature.isFinancialControl
  }

  /** A step of anybody, without a delegation, leaves a stuck approval stuck and brings no help. */
  lemma StuckAfterStep(cfg: Settings, s: Store, id: string, w: Worker, i: Input)
    requires WorkerOk(cfg, s, w) && id in s.approvals && Stuck(s.approvals[id]) && i.delegation.None?
    requires IsNoHelp(w, id, s.approvals[id].presentedAmount)
    ensures var (t, v) := Step(cfg, s, w, i);
      id in t.approvals && Stuck(t.approvals[id]) && IsNoHelp(v, id, s.approvals[id].presentedAmount) &&
      t.approvals[id].presentedAmount == s.approvals[id].presentedAmount
  {
    hide RunOk, RunEvolves, AuthoriseDecision, AuthoriseSignature, ValidateSigner, Sign, Stuck, ApprovalFor, Complete,
      RecommendFor, HandleEvidencePhase, HandleAssessRisk, WithStops, ToolPermits, ArgumentsValid, KeyFor, RowFor,
      SignerOk, Backed, Refusals, IsPrimary;
    var a := s.approvals[id];
    match w
    case Resolving(base, d) =>
      if d.approvalId == id && d.approve && AuthoriseSignature(a, d, base, None, i.moment) {
        UndelegatedSignatureIsNoHelp(a, d, base, i.moment);
      }
    case Signing(base, _, p, sig) =>
      if base.approvalId == Some(id) {
        StuckAfterSigning(a, p, sig);
      }
    case Rejecting(base, _) =>
      if base.approvalId == Some(id) {
        StuckAfterRejecting(a);
      }
    case Driving(base) => DrivingSignsNothing(cfg, s, base, i);
    case _ =>
  }

  lemma DrivingSignsNothing(cfg: Settings, s: Store, base: Run, i: Input)
    ensures !StepDriving(cfg, s, base, i).Signing?
  {
  }

  lemma StuckAfterRejecting(a: Approval)
    requires Stuck(a)
    ensures Stuck(a.(status := Rejected))
  {
  }

  lemma ShutAfterAct(cfg: Settings, sys: System, r: string, k: nat, i: Input)
    requires Theorems.SystemOk(cfg, sys) && StaysShut(sys, r) && k in sys.workers && i.delegation.None?
    ensures StaysShut(Fire(cfg, sys, Act(k, i)), r)
  {
    hide StoreOk, WorkerOk, Step, Stuck, IsNoHelp, RequestKept;
    Theorems.FireOk(cfg, sys, Act(k, i));
    var later := Fire(cfg, sys, Act(k, i)).store;
    assert RunEvolves(sys.store.runs[r], later.runs[r]);
    var id := sys.store.runs[r].approvalId.value;
    StuckAfterStep(cfg, sys.store, id, sys.workers[k], i);
  }

  lemma ShutAfterLaunch(cfg: Settings, sys: System, r: string, k: nat, e: Entry)
    requires Theorems.SystemOk(cfg, sys) && StaysShut(sys, r)
    ensures StaysShut(Fire(cfg, sys, Launch(k, e)), r)
  {
    hide StoreOk, WorkerOk, Stuck, SavedInPlace, RequestKept;
    Theorems.FireOk(cfg, sys, Launch(k, e));
    var later := Fire(cfg, sys, Launch(k, e)).store;
    assert RunEvolves(sys.store.runs[r], later.runs[r]);
    assert later.approvals == sys.store.approvals && !Enter(sys.store, e).1.Signing?;
  }

  lemma {:induction false} ShutForever(cfg: Settings, sys: System, r: string, events: seq<Event>)
    requires Theorems.SystemOk(cfg, sys) && StaysShut(sys, r) && Undelegated(events)
    ensures StaysShut(After(cfg, sys, events), r) && Theorems.SystemOk(cfg, After(cfg, sys, events))
    decreases |events|
  {
    hide Theorems.SystemOk, Stuck, IsNoHelp;
    if events != [] {
      match events[0] {
        case Launch(k, e) => ShutAfterLaunch(cfg, sys, r, k, e);
        case Act(k, i) =>
          if k in sys.workers {
            ShutAfterAct(cfg, sys, r, k, i);
          }
        case Crash(k) =>
      }
      Theorems.FireOk(cfg, sys, events[0]);
      var more := events[1..];
      assert forall k :: 0 <= k < |more| ==> more[k] == events[k + 1];
      ShutForever(cfg, Fire(cfg, sys, events[0]), r, more);
    }
  }

  lemma ShutIsNotReleased(cfg: Settings, sys: System, r: string)
    requires Theorems.SystemOk(cfg, sys) && StaysShut(sys, r)
    ensures !Released(sys.store, r)
  {
    hide EngineOk, HistoryOk, DecisionsOk, ApprovalsOk, FingerprintsDistinct, KeyFor, Doomed, WorkerOk, IsNoHelp;
    assert RunOk(cfg, sys.store, sys.store.runs[r]) && LinkOk(cfg, sys.store, sys.store.runs[r]);
  }

  lemma FreshGateAboveTheCeilingIsStuck(sys: System, r: string)
    requires WaitsAtFreshGate(sys, r) && sys.store.runs[r].request.amount > HIGHEST_LIMIT
    requires forall k :: k in sys.workers && sys.workers[k].Signing? && sys.workers[k].base.runId != r ==>
      sys.workers[k].base.approvalId != sys.store.runs[r].approvalId
    ensures StaysShut(sys, r)
  {
  }

  lemma SignersKeepToTheirGates(cfg: Settings, sys: System, r: string, k: nat)
    requires Theorems.SystemOk(cfg, sys) && WaitsAtFreshGate(sys, r)
    requires k in sys.workers && sys.workers[k].Signing? && sys.workers[k].base.runId != r
    ensures sys.workers[k].base.approvalId != sys.store.runs[r].approvalId
  {
    hide RunOk, ApprovalsOk, DecisionsOk, FingerprintsDistinct, RunEvolves, FreshTwoSignatureGate;
    Preservation.LinkedBothWays(cfg, sys.store, sys.workers[k].base);
    StoredGate(cfg, sys.store, r);
  }

  lemma StoredGate(cfg: Settings, s: Store, r: string)
    requires StoreOk(cfg, s) && r in s.runs && s.runs[r].phase.AwaitingApproval?
    ensures s.runs[r].approvalId.Some? && s.runs[r].approvalId.value in s.approvals
    ensures s.approvals[s.runs[r].approvalId.value].runId == r
  {
    hide ApprovalsOk, DecisionsOk, FingerprintsDistinct;
    assert Behind(cfg, s, s.runs[r]);
    Preservation.LinkedBothWays(cfg, s, s.runs[r]);
  }

  /** Some history without delegations takes the run to its decision. */
  ghost predicate ReleasedWithoutDelegation(cfg: Settings, sys: System, r: string) {
    exists events :: Undelegated(events) && Released(After(cfg, sys, events).store, r)
  }

  /** Exactly the amounts up to the CFO's limit can be released without a delegation, by any number of callbacks,
      resumptions, crashes and people in any interleaving. A CEO signature has no limit, so it never counts as
      the primary one that Financial Control stands behind. */
  lemma UndelegatedGateOpensUpToAMillion(
      cfg: Settings, sys: System, r: string, p: string, q: string, i: Input, j: Input)
    requires Theorems.SystemOk(cfg, sys) && WaitsAtFreshGate(sys, r) && p != q
    requires i.delegation.None? && j.delegation.None?
    requires FreeToSign(sys.store.runs[r], p, i.moment) && FreeToSign(sys.store.runs[r], q, j.moment)
    ensures ReleasedWithoutDelegation(cfg, sys, r) <==> sys.store.runs[r].request.amount <= HIGHEST_LIMIT
  {
    hide StoreOk, WorkerOk, FreeToSign, Stuck, FreshTwoSignatureGate, After;
    var run := sys.store.runs[r];
    if run.request.amount <= HIGHEST_LIMIT {
      PrimaryThenControlOpens(cfg, sys, r, p, Cfo, q, i, j);
      var both := TwoCallbacks(r, run.approvalId.value, p, Cfo, q, i, j);
      assert Undelegated(both) && Released(After(cfg, sys, both).store, r);
    } else {
      forall k | k in sys.workers && sys.workers[k].Signing? && sys.workers[k].base.runId != r
        ensures sys.workers[k].base.approvalId != run.approvalId
      {
        SignersKeepToTheirGates(cfg, sys, r, k);
      }
      FreshGateAboveTheCeilingIsStuck(sys, r);
      if ReleasedWithoutDelegation(cfg, sys, r) {
        var events :| Undelegated(events) && Released(After(cfg, sys, events).store, r);
        ShutForever(cfg, sys, r, events);
        ShutIsNotReleased(cfg, After(cfg, sys, events), r);
      }
    }
  }

  /** In every reachable store, an approved two-signature gate above the CFO's limit was signed by someone
      from Financial Control who acted in another, delegated, role. */
  lemma AboveTheCeilingControlIsDelegated(cfg: Settings, events: seq<Event>, id: string)
    requires var s := After(cfg, INITIAL, events).store;
      id in s.approvals && s.approvals[id].status.Approved? && s.approvals[id].requiresFinancialControl &&
      s.approvals[id].presentedAmount > HIGHEST_LIMIT
    ensures var a := After(cfg, INITIAL, events).store.approvals[id];
      exists p :: p in a.signatures && a.signatures[p].approverRole == Some(FinancialControl) &&
                  a.signatures[p].effectiveRole.Some? && !a.signatures[p].effectiveRole.value.FinancialControl?
  {
    Theorems.ReachableOk(cfg, events);
    var s := After(cfg, INITIAL, events).store;
    var a := s.approvals[id];
    assert ApprovalOk(s, id, a);
    var p :| p in a.signatures && a.signatures[p].isFinancialControl;
    assert SignerOk(s.runs[a.runId], p, a.signatures[p]) && Backed(a, a.signatures[p]);
    forall q | q in a.signatures ensures !IsPrimary(a.signatures[q], a.presentedAmount) {
      assert SignerOk(s.runs[a.runId], q, a.signatures[q]);
      if a.signatures[q].applicableLimit.Some? {
        Authority.LimitsAreWholeCents(a.signatures[q].effectiveRole.value);
      }
    }
  }
}
