/** Building histories: what a given list of events does to the system. */
module Histories {
  import opened Prelude
  import opened Domain
  import opened Store
  import opened Protocol
  import Theorems

  lemma AfterOne(cfg: Settings, sys: System, e: Event)
    ensures After(cfg, sys, [e]) == Fire(cfg, sys, e)
  {
    hide Fire;
    assert [e][1..] == [];
    assert After(cfg, sys, [e]) == After(cfg, Fire(cfg, sys, e), []);
  }

  lemma AfterFirst(cfg: Settings, sys: System, e: Event, more: seq<Event>)
    ensures After(cfg, sys, [e] + more) == After(cfg, Fire(cfg, sys, e), more)
  {
    hide Fire;
    AfterOne(cfg, sys, e);
    Theorems.AfterJoins(cfg, sys, [e], more);
  }

  /** `n` steps of one worker, all with the same input. */
  function Steps(id: nat, i: Input, n: nat): seq<Event> {
    seq(n, _ => Act(id, i))
  }

  lemma OneStepMore(cfg: Settings, sys: System, id: nat, i: Input, n: nat)
    requires n > 0
    ensures After(cfg, sys, Steps(id, i, n)) == After(cfg, Fire(cfg, sys, Act(id, i)), Steps(id, i, n - 1))
  {
    hide Fire;
    assert Steps(id, i, n) == [Act(id, i)] + Steps(id, i, n - 1);
    AfterFirst(cfg, sys, Act(id, i), Steps(id, i, n - 1));
  }

  lemma NoMoreSteps(cfg: Settings, sys: System, id: nat, i: Input)
    ensures After(cfg, sys, Steps(id, i, 0)) == sys
  {
    assert Steps(id, i, 0) == [];
  }

  /** The steps of one worker among the others are its steps alone. */
  lemma {:induction false} StepsAreSolo(cfg: Settings, sys: System, id: nat, i: Input, n: nat)
    requires id in sys.workers
    ensures var (t, v) := Theorems.Solo(cfg, sys.store, sys.workers[id], seq(n, _ => i));
      After(cfg, sys, Steps(id, i, n)) == System(t, sys.workers[id := v])
    decreases n
  {
    hide Step, After;
    if n == 0 {
      NoMoreSteps(cfg, sys, id, i);
      assert sys.workers[id := sys.workers[id]] == sys.workers;
    } else {
      OneStepMore(cfg, sys, id, i, n);
      assert seq(n, _ => i)[1..] == seq(n - 1, _ => i);
      var next := Fire(cfg, sys, Act(id, i));
      StepsAreSolo(cfg, next, id, i, n - 1);
      var v := After(cfg, next, Steps(id, i, n - 1)).workers[id];
      assert next.workers[id := v] == sys.workers[id := v];
    }
  }

  // ---- one accepted signature ---------------------------------------------------------

  /** A worker receives a callback and takes three steps: read and judge, sign, save. */
  function Deliver(id: nat, r: string, d: Delivery, i: Input): seq<Event> {
    [Launch(id, Resolve(r, d))] + Steps(id, i, 3)
  }

  function SignatureOf(a: Approval, d: Delivery, run: Run, moment: int): Signature {
    SignatureFrom(ValidateSigner(a, d, run, None, moment), d, moment)
  }

  /** A callback that names no delegation, from someone who has not signed and may sign now. */
  predicate Welcome(s: Store, r: string, d: Delivery, moment: int) {
    r in s.runs && s.runs[r].runId == r && s.runs[r].approvalId == Some(d.approvalId) && d.approvalId in s.approvals &&
    var a := s.approvals[d.approvalId];
    a.status.Pending? && d.approve && !d.namesDelegation && d.approverId !in a.signatures &&
    AuthoriseSignature(a, d, s.runs[r], None, moment)
  }

  function SignedBy(s: Store, r: string, d: Delivery, moment: int): Approval
    requires Welcome(s, r, d, moment)
  {
    var a := s.approvals[d.approvalId];
    Sign(a, d.approverId, SignatureOf(a, d, s.runs[r], moment))
  }

  /** The run as the worker saves it: released when the signature completed the requirement. */
  function SavedAfterSigning(run: Run, b: Approval): Run {
    (if b.RequirementMet() then MoveTo(run, ExecuteDecision) else run).(version := run.version + 1)
  }

  lemma JudgedWelcome(cfg: Settings, s: Store, r: string, d: Delivery, i: Input)
    requires Welcome(s, r, d, i.moment)
    ensures var a := s.approvals[d.approvalId];
      StepResolving(cfg, s, s.runs[r], d, i) ==
        Signing(s.runs[r], s.runs[r], d.approverId, SignatureOf(a, d, s.runs[r], i.moment))
  {
    hide AuthoriseSignature, ValidateSigner;
  }

  lemma SignedWelcome(s: Store, r: string, d: Delivery, moment: int)
    requires Welcome(s, r, d, moment)
    ensures var a, run, b := s.approvals[d.approvalId], s.runs[r], SignedBy(s, r, d, moment);
      StepSigning(s, run, run, d.approverId, SignatureOf(a, d, run, moment)) ==
        (s.(approvals := s.approvals[d.approvalId := b]),
         if b.RequirementMet() then Saving(run, MoveTo(run, ExecuteDecision), KeepDriving)
         else Saving(run, run, Return))
  {
    hide AuthoriseSignature, ValidateSigner, Sign;
  }

  /** A welcome callback, delivered undisturbed, adds its signature and, with the last one, opens the gate. */
  lemma DeliveryStores(cfg: Settings, sys: System, id: nat, r: string, d: Delivery, i: Input)
    requires Welcome(sys.store, r, d, i.moment)
    ensures var s, b := sys.store, SignedBy(sys.store, r, d, i.moment);
      var saved := SavedAfterSigning(s.runs[r], b);
      After(cfg, sys, Deliver(id, r, d, i)) ==
        System(s.(runs := s.runs[r := saved], approvals := s.approvals[d.approvalId := b]),
               sys.workers[id := if b.RequirementMet() then Driving(saved) else Returned(saved)])
  {
    hide AuthoriseSignature, SignatureOf, Steps, After, Sign, StepResolving, StepSigning, StepDriving,
      StepCreatingApproval, StepSubmitting, StepRecording, StepRejecting, StepReloading;
    var s := sys.store;
    var run, a, b := s.runs[r], s.approvals[d.approvalId], SignedBy(s, r, d, i.moment);
    var resolving := Fire(cfg, sys, Launch(id, Resolve(r, d)));
    AfterFirst(cfg, sys, Launch(id, Resolve(r, d)), Steps(id, i, 3));
    OneStepMore(cfg, resolving, id, i, 3);
    JudgedWelcome(cfg, s, r, d, i);
    var signing := Fire(cfg, resolving, Act(id, i));
    OneStepMore(cfg, signing, id, i, 2);
    SignedWelcome(s, r, d, i.moment);
    var saving := Fire(cfg, signing, Act(id, i));
    OneStepMore(cfg, saving, id, i, 1);
    NoMoreSteps(cfg, Fire(cfg, saving, Act(id, i)), id, i);
  }
}
