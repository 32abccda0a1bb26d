/** Two histories the program can go through, event by event: a run that is stranded, and a run that is saved
    twice at its decision. The identifiers and the amount are arbitrary. */
module Counterexamples {
  import opened Prelude
  import opened Domain
  import opened Store
  import opened Protocol
  import opened Invariant
  import opened Decimals
  import opened Histories
  import opened Witness
  import Movers
  import Stranded
  import Theorems

  /** One submission: the run, its approval, and the amount as written. */
  datatype Sample = Sample(r: string, approvalId: string, written: Dec)
  {
    function Seen(): Input {
      Answers(Plain, AmountOf(written), approvalId)
    }

    function Callback(): Delivery {
      ChiefSigns(approvalId)
    }

    function Gate(): seq<Event> {
      ToTheGate(0, Plain, r, written, approvalId)
    }

    /** Worker `id` receives the CEO's callback and has judged it. */
    function Received(id: nat): seq<Event> {
      [Launch(id, Resolve(r, Callback())), Act(id, Seen())]
    }
  }

  /** The run waits, and the CEO's signature is all that is missing. */
  predicate OneSignatureShort(s: Store, x: Sample) {
    Welcome(s, x.r, x.Callback(), MOMENT) && s.runs[x.r].phase.AwaitingApproval? &&
    var b := SignedBy(s, x.r, x.Callback(), MOMENT);
    b.status.Approved? && b.RequirementMet() && b.signatures.Keys == {"chief"}
  }

  lemma GateFromNothing(cfg: Settings, x: Sample)
    requires cfg.maxSteps >= 7
    ensures var sys := After(cfg, INITIAL, x.Gate());
      OneSignatureShort(sys.store, x) && sys.workers == map[0 := Driving(sys.store.runs[x.r])]
  {
    hide After, AmountOf, Waiting, AtTheGate, FreshApproval, Welcome, SignedBy;
    Theorems.InitialOk(cfg);
    GateIsReached(cfg, INITIAL, 0, Plain, x.r, x.written, x.approvalId);
    GateWaits(Waiting(cfg, Plain, x.r, x.written, x.approvalId), x);
    ChiefIsWelcome(After(cfg, INITIAL, x.Gate()).store, Plain, x.r, x.written, x.approvalId);
  }

  lemma GateWaits(run: Run, x: Sample)
    requires AtTheGate(run, Plain, x.r, x.written, x.approvalId)
    ensures run.phase.AwaitingApproval? && run.runId == x.r
  {
  }

  /** The worker that received the callback, one step from storing its signature. */
  function AboutToSign(s: Store, x: Sample): Worker
    requires Welcome(s, x.r, x.Callback(), MOMENT)
  {
    var run := s.runs[x.r];
    Signing(run, run, "chief", SignatureOf(s.approvals[x.approvalId], x.Callback(), run, MOMENT))
  }

  lemma TwoEvents(cfg: Settings, sys: System, a: Event, b: Event)
    ensures After(cfg, sys, [a, b]) == Fire(cfg, Fire(cfg, sys, a), b)
  {
    hide Fire, After;
    assert [a, b] == [a] + [b];
    AfterFirst(cfg, sys, a, [b]);
    AfterOne(cfg, Fire(cfg, sys, a), b);
  }

  lemma CallbackReceived(cfg: Settings, sys: System, x: Sample, id: nat)
    requires Welcome(sys.store, x.r, x.Callback(), MOMENT)
    ensures After(cfg, sys, x.Received(id)) == System(sys.store, sys.workers[id := AboutToSign(sys.store, x)])
  {
    hide StepResolving, SignatureOf, AuthoriseSignature, After;
    var launch, act := Launch(id, Resolve(x.r, x.Callback())), Act(id, x.Seen());
    TwoEvents(cfg, sys, launch, act);
    JudgedWelcome(cfg, sys.store, x.r, x.Callback(), x.Seen());
    assert Fire(cfg, sys, launch).workers[id] == Resolving(sys.store.runs[x.r], x.Callback());
  }

  /** The store with the signature on file. */
  function Settled(s: Store, x: Sample): Store
    requires OneSignatureShort(s, x)
  {
    s.(approvals := s.approvals[x.approvalId := SignedBy(s, x.r, x.Callback(), MOMENT)])
  }

  /** What the worker that stored it is about to save. */
  function AboutToRelease(s: Store, x: Sample): Worker
    requires OneSignatureShort(s, x)
  {
    Saving(s.runs[x.r], MoveTo(s.runs[x.r], ExecuteDecision), KeepDriving)
  }

  /** Storing the signature settles the approval. */
  lemma SignatureStored(cfg: Settings, sys: System, x: Sample, id: nat)
    requires OneSignatureShort(sys.store, x)
    requires id in sys.workers && sys.workers[id] == AboutToSign(sys.store, x)
    ensures Fire(cfg, sys, Act(id, x.Seen())) ==
      System(Settled(sys.store, x), sys.workers[id := AboutToRelease(sys.store, x)])
  {
    hide StepSigning, SignatureOf, AuthoriseSignature, Sign;
    SignedWelcome(sys.store, x.r, x.Callback(), MOMENT);
  }

  // ---- stranded -----------------------------------------------------------------------

  /** The signature is stored and its worker dies before it can save the run. */
  function SignAndDie(x: Sample): seq<Event> {
    x.Received(1) + [Act(1, x.Seen()), Crash(1)]
  }

  /** From submission to there. */
  function Stranding(x: Sample): seq<Event> {
    x.Gate() + SignAndDie(x)
  }

  predicate IsStranded(sys: System, r: string, approvalId: string) {
    && r in sys.store.runs && sys.store.runs[r].runId == r && sys.store.runs[r].phase.AwaitingApproval?
    && sys.store.runs[r].approvalId == Some(approvalId)
    && approvalId in sys.store.approvals && sys.store.approvals[approvalId].status.Approved?
    && sys.workers == map[0 := Driving(sys.store.runs[r])]
  }

  lemma CrashDrops(cfg: Settings, sys: System, id: nat)
    ensures Fire(cfg, sys, Crash(id)) == System(sys.store, sys.workers - {id})
  {
  }

  lemma SigningThenDying(cfg: Settings, gate: System, x: Sample)
    requires OneSignatureShort(gate.store, x) && 1 !in gate.workers
    ensures After(cfg, gate, SignAndDie(x)) == System(Settled(gate.store, x), gate.workers)
  {
    hide After, Fire, AboutToSign, Settled, AboutToRelease, Answers, Sample.Received;
    var w, i := AboutToSign(gate.store, x), x.Seen();
    var signing := System(gate.store, gate.workers[1 := w]);
    CallbackReceived(cfg, gate, x, 1);
    SignatureStored(cfg, signing, x, 1);
    var saving := Fire(cfg, signing, Act(1, i));
    CrashDrops(cfg, saving, 1);
    TwoEvents(cfg, signing, Act(1, i), Crash(1));
    Theorems.AfterJoins(cfg, gate, x.Received(1), [Act(1, i), Crash(1)]);
    assert gate.workers[1 := w][1 := AboutToRelease(gate.store, x)] - {1} == gate.workers;
  }

  lemma SettledButWaiting(gate: System, x: Sample)
    requires OneSignatureShort(gate.store, x) && gate.workers == map[0 := Driving(gate.store.runs[x.r])]
    ensures IsStranded(System(Settled(gate.store, x), gate.workers), x.r, x.approvalId)
  {
  }

  lemma NobodyIsLeft(sys: System, r: string, approvalId: string)
    requires IsStranded(sys, r, approvalId)
    ensures Stranded.WaitsForSettled(sys.store, r) && Stranded.AllHarmless(sys, r)
    ensures !Movers.CanStillMove(sys, r)
  {
  }

  /** After these events the run waits for an approval that is approved already, nobody can move it, and no
      continuation ever changes it. */
  lemma StrandingHappens(cfg: Settings, x: Sample, more: seq<Event>)
    requires cfg.maxSteps >= 7
    ensures var sys := After(cfg, INITIAL, Stranding(x));
      IsStranded(sys, x.r, x.approvalId) && Stranded.WaitsForSettled(sys.store, x.r) &&
      Stranded.AllHarmless(sys, x.r) && !Movers.CanStillMove(sys, x.r)
    ensures var later := After(cfg, INITIAL, Stranding(x) + more).store.runs;
      x.r in later && later[x.r] == After(cfg, INITIAL, Stranding(x)).store.runs[x.r]
  {
    hide After, OneSignatureShort, SignAndDie, Settled, Movers.CanStillMove, Stranded.AllHarmless, Theorems.SystemOk;
    GateFromNothing(cfg, x);
    var gate := After(cfg, INITIAL, x.Gate());
    SigningThenDying(cfg, gate, x);
    SettledButWaiting(gate, x);
    Theorems.AfterJoins(cfg, INITIAL, x.Gate(), SignAndDie(x));
    var sys := After(cfg, INITIAL, Stranding(x));
    NobodyIsLeft(sys, x.r, x.approvalId);
    Theorems.ReachableOk(cfg, Stranding(x));
    Stranded.SettledButUnsavedWaitsForever(cfg, sys, x.r, more);
    Theorems.AfterJoins(cfg, INITIAL, Stranding(x), more);
  }

  // ---- saved twice at the decision ----------------------------------------------------

  /** The run as the first worker releases it. */
  function Released(s: Store, x: Sample): Run
    requires OneSignatureShort(s, x)
  {
    MoveTo(s.runs[x.r], ExecuteDecision).(version := s.runs[x.r].version + 1)
  }

  /** The store once the gate is open. */
  function Opened(s: Store, x: Sample): Store
    requires OneSignatureShort(s, x)
  {
    Settled(s, x).(runs := s.runs[x.r := Released(s, x)])
  }

  lemma ReleaseSaved(cfg: Settings, s: Store, x: Sample, i: Input)
    requires OneSignatureShort(s, x)
    ensures Step(cfg, Settled(s, x), AboutToRelease(s, x), i) == (Opened(s, x), Driving(Released(s, x)))
  {
    hide StepDriving, StepCreatingApproval, StepRecording, StepResolving, StepSigning, SignedBy, AuthoriseSignature,
      StepReloading;
  }

  lemma SecondIsAReplay(cfg: Settings, s: Store, x: Sample, i: Input)
    requires OneSignatureShort(s, x)
    ensures Step(cfg, Opened(s, x), AboutToSign(s, x), i) == (Opened(s, x), Reloading(s.runs[x.r], true, true))
  {
    hide AuthoriseSignature, SignatureOf, StepDriving, StepCreatingApproval, StepRecording, StepResolving;
    var b, t := SignedBy(s, x.r, x.Callback(), MOMENT), Opened(s, x);
    var sig := AboutToSign(s, x).signature;
    assert "chief" in b.signatures;
    assert b.(signatures := b.signatures) == b && Sign(b, "chief", sig) == b;
    assert t.approvals[x.approvalId := b] == t.approvals;
  }

  lemma ReloadFindsTheDecision(cfg: Settings, s: Store, x: Sample, i: Input)
    requires OneSignatureShort(s, x)
    ensures Step(cfg, Opened(s, x), Reloading(s.runs[x.r], true, true), i) ==
      (Opened(s, x), Saving(Released(s, x), Released(s, x), KeepDriving))
  {
    hide AuthoriseSignature, SignatureOf, SignedBy;
  }

  lemma ActFires(cfg: Settings, sys: System, id: nat, i: Input, t: Store, v: Worker)
    requires id in sys.workers && Step(cfg, sys.store, sys.workers[id], i) == (t, v)
    ensures Fire(cfg, sys, Act(id, i)) == System(t, sys.workers[id := v])
  {
  }

  /** Both deliveries of one callback have been judged; the first signs, saves and dies. */
  function FirstOpens(x: Sample): seq<Event> {
    x.Received(1) + x.Received(2) + ([Act(1, x.Seen()), Act(1, x.Seen())] + [Crash(1)])
  }

  /** The second finds its signature stored, reloads the run, and is about to save it. */
  function SecondReloads(x: Sample): seq<Event> {
    [Act(2, x.Seen()), Act(2, x.Seen())]
  }

  function SavingTwice(x: Sample): seq<Event> {
    x.Gate() + (FirstOpens(x) + SecondReloads(x))
  }

  lemma BothReceived(cfg: Settings, gate: System, x: Sample)
    requires OneSignatureShort(gate.store, x)
    ensures var w := AboutToSign(gate.store, x);
      After(cfg, gate, x.Received(1) + x.Received(2)) == System(gate.store, gate.workers[1 := w][2 := w])
  {
    hide After, AboutToSign, Answers, Sample.Received;
    CallbackReceived(cfg, gate, x, 1);
    CallbackReceived(cfg, System(gate.store, gate.workers[1 := AboutToSign(gate.store, x)]), x, 2);
    Theorems.AfterJoins(cfg, gate, x.Received(1), x.Received(2));
  }

  lemma FirstReleases(cfg: Settings, sys: System, x: Sample)
    requires OneSignatureShort(sys.store, x) && 1 in sys.workers && sys.workers[1] == AboutToSign(sys.store, x)
    ensures After(cfg, sys, [Act(1, x.Seen()), Act(1, x.Seen())]) ==
      System(Opened(sys.store, x), sys.workers[1 := Driving(Released(sys.store, x))])
  {
    hide After, Fire, AboutToSign, Settled, AboutToRelease, Answers, Opened, Released, Step;
    var i, release := x.Seen(), AboutToRelease(sys.store, x);
    SignatureStored(cfg, sys, x, 1);
    var signed := Fire(cfg, sys, Act(1, i));
    ReleaseSaved(cfg, sys.store, x, i);
    var driving := Driving(Released(sys.store, x));
    ActFires(cfg, signed, 1, i, Opened(sys.store, x), driving);
    TwoEvents(cfg, sys, Act(1, i), Act(1, i));
    assert sys.workers[1 := release][1 := driving] == sys.workers[1 := driving];
  }

  lemma GateOpened(cfg: Settings, gate: System, x: Sample)
    requires OneSignatureShort(gate.store, x)
    ensures var sys := After(cfg, gate, FirstOpens(x));
      sys.store == Opened(gate.store, x) && 2 in sys.workers && sys.workers[2] == AboutToSign(gate.store, x)
  {
    hide After, Fire, AboutToSign, Answers, Sample.Received, Opened, Released, Step;
    var w, i := AboutToSign(gate.store, x), x.Seen();
    var two := System(gate.store, gate.workers[1 := w][2 := w]);
    BothReceived(cfg, gate, x);
    FirstReleases(cfg, two, x);
    var saved := After(cfg, two, [Act(1, i), Act(1, i)]);
    Theorems.AfterJoins(cfg, two, [Act(1, i), Act(1, i)], [Crash(1)]);
    AfterOne(cfg, saved, Crash(1));
    CrashDrops(cfg, saved, 1);
    Theorems.AfterJoins(cfg, gate, x.Received(1) + x.Received(2), [Act(1, i), Act(1, i)] + [Crash(1)]);
  }

  lemma SecondReloaded(cfg: Settings, sys: System, s: Store, x: Sample)
    requires OneSignatureShort(s, x) && sys.store == Opened(s, x)
    requires 2 in sys.workers && sys.workers[2] == AboutToSign(s, x)
    ensures After(cfg, sys, SecondReloads(x)) ==
      System(Opened(s, x), sys.workers[2 := Saving(Released(s, x), Released(s, x), KeepDriving)])
  {
    hide After, Fire, AboutToSign, Answers, Opened, Released, Step;
    var i, run := x.Seen(), s.runs[x.r];
    var reloading := System(Opened(s, x), sys.workers[2 := Reloading(run, true, true)]);
    SecondIsAReplay(cfg, s, x, i);
    ActFires(cfg, sys, 2, i, Opened(s, x), Reloading(run, true, true));
    ReloadFindsTheDecision(cfg, s, x, i);
    ActFires(cfg, reloading, 2, i, Opened(s, x), Saving(Released(s, x), Released(s, x), KeepDriving));
    TwoEvents(cfg, sys, Act(2, i), Act(2, i));
    assert reloading.workers[2 := Saving(Released(s, x), Released(s, x), KeepDriving)] ==
      sys.workers[2 := Saving(Released(s, x), Released(s, x), KeepDriving)];
  }

  lemma SavedAsItIs(cfg: Settings, s: Store, x: Sample, i: Input)
    requires OneSignatureShort(s, x)
    ensures var run := Released(s, x);
      x.r in Opened(s, x).runs && Opened(s, x).runs[x.r] == run && run.phase.ExecuteDecision? &&
      Step(cfg, Opened(s, x), Saving(run, run, KeepDriving), i).0.runs ==
        Opened(s, x).runs[x.r := run.(version := run.version + 1)]
  {
    hide SignedBy, AuthoriseSignature;
  }

  /** After these events the run is at its decision, and the next event saves it there once more. */
  lemma SavingTwiceHappens(cfg: Settings, x: Sample)
    requires cfg.maxSteps >= 7
    ensures var runs := After(cfg, INITIAL, SavingTwice(x)).store.runs;
      var later := After(cfg, INITIAL, SavingTwice(x) + [Act(2, x.Seen())]).store.runs;
      x.r in runs && x.r in later && runs[x.r].phase.ExecuteDecision? &&
      later[x.r] == runs[x.r].(version := runs[x.r].version + 1)
  {
    hide After, Fire, OneSignatureShort, AboutToSign, Opened, Released, Step, FirstOpens, SecondReloads;
    GateFromNothing(cfg, x);
    var gate := After(cfg, INITIAL, x.Gate());
    var s := gate.store;
    GateOpened(cfg, gate, x);
    var released := After(cfg, gate, FirstOpens(x));
    SecondReloaded(cfg, released, s, x);
    Theorems.AfterJoins(cfg, gate, FirstOpens(x), SecondReloads(x));
    Theorems.AfterJoins(cfg, INITIAL, x.Gate(), FirstOpens(x) + SecondReloads(x));
    var sys := After(cfg, INITIAL, SavingTwice(x));
    SavedAsItIs(cfg, s, x, x.Seen());
    Theorems.AfterJoins(cfg, INITIAL, SavingTwice(x), [Act(2, x.Seen())]);
    AfterOne(cfg, sys, Act(2, x.Seen()));
    var (t, v) := Step(cfg, sys.store, sys.workers[2], x.Seen());
    ActFires(cfg, sys, 2, x.Seen(), t, v);
  }
}
