/** One submission taken all the way to its recorded decision. */
module Postings {
  import opened Prelude
  import opened Domain
  import opened Store
  import opened Protocol
  import opened Invariant
  import opened Decimals
  import opened Fingerprint
  import opened Histories
  import opened Witness
  import Theorems

  /** Submission, the CEO's signature, and the decision. */
  function Posting(p: Profile, r: string, written: Dec, approvalId: string): seq<Event> {
    var i := Answers(p, AmountOf(written), approvalId);
    ToTheGate(0, p, r, written, approvalId) + (Deliver(1, r, ChiefSigns(approvalId), i) + Steps(1, i, 4))
  }

  /** The arguments of its decision. */
  function Claim(p: Profile, r: string, written: Dec, approvalId: string): DecisionRequest {
    DecisionRequest(r, "case", approvalId, p.Verdict(), AmountOf(written), Text(written), p.Currency(), "V",
      "INV-1")
  }

  predicate FreshIds(s: Store, r: string, approvalId: string) {
    r !in s.runs && approvalId !in s.approvals && 1 <= |r| <= 256 && 1 <= |approvalId| <= 256
  }

  /** Nothing stands against the decision: the identifiers are new, and neither its key nor its invoice is taken. */
  predicate Fresh(s: Store, p: Profile, r: string, written: Dec, approvalId: string) {
    && FreshIds(s, r, approvalId)
    && KeyFor(Claim(p, r, written, approvalId)) !in s.decisions
    && !InvoiceHasDecision(s, FingerprintFor(Claim(p, r, written, approvalId)))
  }

  function Release(run: Run): Run {
    MoveTo(run, ExecuteDecision).(version := run.version + 1)
  }

  lemma ReleasedClaims(run: Run, p: Profile, r: string, written: Dec, approvalId: string)
    requires AtTheGate(run, p, r, written, approvalId)
    ensures var released := Release(run);
      released.runId == r && released.phase.ExecuteDecision? && released.stepsUsed == 6 &&
      released.approvalId.Some? && released.recommendation.Some? && released.decision.None? &&
      ArgsOf(released) == Claim(p, r, written, approvalId)
  {
    hide AmountOf, Text;
  }

  lemma ReleasedIsReady(cfg: Settings, s: Store, run: Run, p: Profile, r: string, written: Dec, approvalId: string)
    requires AtTheGate(run, p, r, written, approvalId) && cfg.maxSteps >= 7 && AmountOf(written) > 0.0
    requires r in s.runs && s.runs[r] == Release(run)
    requires 1 <= |r| <= 256 && 1 <= |approvalId| <= 256
    requires KeyFor(Claim(p, r, written, approvalId)) !in s.decisions
    requires !InvoiceHasDecision(s, FingerprintFor(Claim(p, r, written, approvalId)))
    ensures Theorems.ReadyToRecord(cfg, s, s.runs[r])
  {
    hide AmountOf, Text, KeyFor, FingerprintFor, InvoiceHasDecision;
    ReleasedClaims(run, p, r, written, approvalId);
  }

  lemma NewReceipt(s: Store, run: Run, args: DecisionRequest)
    requires run.approvalId.Some? && run.recommendation.Some? && ArgsOf(run) == args
    requires KeyFor(args) !in s.decisions && !RunHasDecision(s, args.runId)
    requires !InvoiceHasDecision(s, FingerprintFor(args))
    ensures RecordDecision(s, KeyFor(args), RowFor(args, MOMENT)).0 ==
      s.(decisions := s.decisions[KeyFor(args) := RowFor(args, MOMENT)])
  {
    hide KeyFor, FingerprintFor;
  }

  predicate SameCase(x: Run, y: Run) {
    x.written == y.written && x.request == y.request && x.gathered == y.gathered && x.dossier == y.dossier
  }

  /** The run carries the case's request, order and decimal. */
  predicate IsCase(run: Run, p: Profile, written: Dec) {
    run.written == written && run.request == p.Invoiced(AmountOf(written)) &&
    run.gathered.order == Some(p.Order(AmountOf(written)))
  }

  lemma StaysTheCase(x: Run, run: Run, p: Profile, r: string, written: Dec, approvalId: string)
    requires AtTheGate(run, p, r, written, approvalId) && SameCase(x, Release(run))
    ensures IsCase(x, p, written)
  {
    hide AmountOf;
  }

  /** Up to the open gate. */
  lemma GateIsOpened(cfg: Settings, sys: System, p: Profile, r: string, written: Dec, approvalId: string)
    requires Theorems.SystemOk(cfg, sys) && cfg.maxSteps >= 7 && !p.Overseas? && FreshIds(sys.store, r, approvalId)
    ensures var i, run := Answers(p, AmountOf(written), approvalId), Waiting(cfg, p, r, written, approvalId);
      var later := After(cfg, sys, ToTheGate(0, p, r, written, approvalId) + Deliver(1, r, ChiefSigns(approvalId), i));
      AtTheGate(run, p, r, written, approvalId) && approvalId in later.store.approvals &&
      later.store == sys.store.(
        runs := sys.store.runs[r := Release(run)],
        approvals := sys.store.approvals[approvalId := later.store.approvals[approvalId]]) &&
      1 in later.workers && later.workers[1] == Driving(Release(run))
  {
    hide After, AmountOf, Waiting, Theorems.SystemOk, FreshApproval, Welcome, SignedBy, Deliver, ToTheGate;
    var i, run := Answers(p, AmountOf(written), approvalId), Waiting(cfg, p, r, written, approvalId);
    var d := ChiefSigns(approvalId);
    GateIsReached(cfg, sys, 0, p, r, written, approvalId);
    var gate := After(cfg, sys, ToTheGate(0, p, r, written, approvalId));
    ChiefIsWelcome(gate.store, p, r, written, approvalId);
    DeliveryStores(cfg, gate, 1, r, d, i);
    Theorems.AfterJoins(cfg, sys, ToTheGate(0, p, r, written, approvalId), Deliver(1, r, d, i));
    assert sys.store.runs[r := run][r := Release(run)] == sys.store.runs[r := Release(run)];
    var b := SignedBy(gate.store, r, d, MOMENT);
    assert sys.store.approvals[approvalId := FreshApproval(p, r, written)][approvalId := b] ==
      sys.store.approvals[approvalId := b];
  }

  /** From the open gate to the completed run. */
  lemma DecisionIsRecorded(cfg: Settings, sys: System, run: Run, i: Input)
    requires StoreOk(cfg, sys.store) && Theorems.ReadyToRecord(cfg, sys.store, run) && i.moment == MOMENT
    requires KeyFor(ArgsOf(run)) !in sys.store.decisions && !InvoiceHasDecision(sys.store, FingerprintFor(ArgsOf(run)))
    requires 1 in sys.workers && sys.workers[1] == Driving(run)
    ensures var t, args := After(cfg, sys, Steps(1, i, 4)).store, ArgsOf(run);
      t.decisions == sys.store.decisions[KeyFor(args) := RowFor(args, MOMENT)] &&
      t.approvals == sys.store.approvals && run.runId in t.runs &&
      t.runs == sys.store.runs[run.runId := t.runs[run.runId]] && SameCase(t.runs[run.runId], run)
  {
    hide After, StoreOk, KeyFor, FingerprintFor, RowFor, Text, InvoiceHasDecision, Theorems.Solo, Doomed,
      ArgumentsValid, RecordDecision;
    StepsAreSolo(cfg, sys, 1, i, 4);
    assert seq(4, _ => i) == [i, i, i, i];
    Theorems.DecisionCompletes(cfg, sys.store, run, i, i, i, i);
    OneDecisionEach(cfg, sys.store, run);
    NewReceipt(sys.store, run, ArgsOf(run));
  }

  /** A run without a decision under its key has none. */
  lemma OneDecisionEach(cfg: Settings, s: Store, run: Run)
    requires StoreOk(cfg, s) && Theorems.ReadyToRecord(cfg, s, run) && KeyFor(ArgsOf(run)) !in s.decisions
    ensures !RunHasDecision(s, run.runId)
  {
    hide KeyFor, FingerprintFor, RunsOk, ApprovalsOk, ArgumentsValid, Doomed, InvoiceHasDecision;
    forall k | k in s.decisions ensures s.decisions[k].receipt.runId != run.runId {
      assert DecisionOk(cfg, s, k, s.decisions[k]);
    }
  }

  /** A posting that nothing stands against adds exactly its own decision and its own run. */
  lemma PostingRecords(cfg: Settings, sys: System, p: Profile, r: string, written: Dec, approvalId: string)
    requires Theorems.SystemOk(cfg, sys) && cfg.maxSteps >= 7 && AmountOf(written) > 0.0
    requires !p.Overseas? && Fresh(sys.store, p, r, written, approvalId)
    ensures var t := After(cfg, sys, Posting(p, r, written, approvalId)).store;
      var args := Claim(p, r, written, approvalId);
      t.decisions == sys.store.decisions[KeyFor(args) := RowFor(args, MOMENT)] &&
      r in t.runs && t.runs == sys.store.runs[r := t.runs[r]] && IsCase(t.runs[r], p, written) &&
      approvalId in t.approvals && t.approvals == sys.store.approvals[approvalId := t.approvals[approvalId]]
  {
    hide After, AmountOf, Waiting, StoreOk, WorkerOk, KeyMaterial, InvoiceMaterial, RowFor, Theorems.ReadyToRecord,
      AtTheGate, Deliver, ToTheGate, Steps, Evolves, Text, SameCase, IsCase, Release;
    var i, run := Answers(p, AmountOf(written), approvalId), Waiting(cfg, p, r, written, approvalId);
    var toOpen := ToTheGate(0, p, r, written, approvalId) + Deliver(1, r, ChiefSigns(approvalId), i);
    GateIsOpened(cfg, sys, p, r, written, approvalId);
    var open := After(cfg, sys, toOpen);
    Theorems.AfterOk(cfg, sys, toOpen);
    ReleasedIsReady(cfg, open.store, run, p, r, written, approvalId);
    ReleasedClaims(run, p, r, written, approvalId);
    DecisionIsRecorded(cfg, open, Release(run), i);
    StaysTheCase(After(cfg, open, Steps(1, i, 4)).store.runs[r], run, p, r, written, approvalId);
    Theorems.AfterJoins(cfg, sys, toOpen, Steps(1, i, 4));
    assert Posting(p, r, written, approvalId) == toOpen + Steps(1, i, 4);
  }

  /** The first submission of all, taken to its decision. */
  lemma FirstIsPosted(cfg: Settings, p: Profile, written: Dec)
    requires cfg.maxSteps >= 7 && AmountOf(written) > 0.0 && !p.Overseas?
    ensures var sys := After(cfg, INITIAL, Posting(p, "1", written, "A"));
      var args := Claim(p, "1", written, "A");
      Theorems.SystemOk(cfg, sys) && sys.store.decisions == map[KeyFor(args) := RowFor(args, MOMENT)] &&
      sys.store.runs.Keys == {"1"} && IsCase(sys.store.runs["1"], p, written) && sys.store.approvals.Keys == {"A"}
  {
    hide After, Text, KeyMaterial, InvoiceMaterial, RowFor, Posting, StoreOk, WorkerOk, AmountOf, IsCase;
    Theorems.ReachableOk(cfg, Posting(p, "1", written, "A"));
    Theorems.InitialOk(cfg);
    PostingRecords(cfg, INITIAL, p, "1", written, "A");
  }
}
