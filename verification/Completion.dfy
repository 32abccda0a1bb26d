/** Exactly when a run at its decision can still be completed
    (src/ap_agent/orchestration/phases/execute_decision.py, src/ap_agent/persistence/repository.py `record_decision`).

    A decision that conflicts raises and leaves the run where it was, so every resumption meets the same
    conflict. Nothing ever removes a decision. */
module Completion {
  import opened Prelude
  import opened Domain
  import opened Store
  import opened Protocol
  import opened Invariant
  import opened Decimals
  import opened Fingerprint
  import opened Histories
  import opened Postings
  import opened Witness
  import Theorems
  import Vendor

  /** Another run's decision has the key or the invoice of this run's. */
  predicate Taken(s: Store, args: DecisionRequest) {
    exists k :: k in s.decisions && s.decisions[k].receipt.runId != args.runId &&
      (k == KeyFor(args) || s.decisions[k].fingerprint == FingerprintFor(args))
  }

  /** The vendor is usable, the step budget reaches the decision, the arguments fit the tool's schema, and no
      other run was first. */
  predicate CanComplete(cfg: Settings, s: Store, run: Run)
    requires run.approvalId.Some? && run.recommendation.Some?
  {
    && run.gathered.vendor.Some?
    && run.gathered.vendor.value.status == Active && !run.gathered.vendor.value.onPaymentHold
    && cfg.maxSteps >= 7
    && 1 <= |run.runId| <= 256 && 1 <= |run.approvalId.value| <= 256 && 1 <= |run.request.caseId| <= 256
    && 1 <= |run.request.MasterVendorId()| <= 256 && 1 <= |run.request.invoiceReference| <= 256
    && run.request.amount > 0.0 && |run.request.currency| == 3
    && !Taken(s, ArgsOf(run))
  }

  predicate Finished(s: Store, r: string) {
    r in s.runs && s.runs[r].phase.Completed?
  }

  ghost predicate FinishesInSomeHistory(cfg: Settings, sys: System, r: string) {
    exists events :: Finished(After(cfg, sys, events).store, r)
  }

  // ---- it can ------------------------------------------------------------------------

  /** Nobody else's decision is in the way, and the run's own would be under the run's own key. */
  lemma NotTakenIsReady(cfg: Settings, s: Store, run: Run)
    requires StoreOk(cfg, s) && run.runId in s.runs && s.runs[run.runId] == run && run.phase.ExecuteDecision?
    requires run.approvalId.Some? && run.recommendation.Some? && CanComplete(cfg, s, run)
    ensures Theorems.ReadyToRecord(cfg, s, run)
  {
    hide KeyMaterial, InvoiceMaterial, ApprovalsOk, DecisionsOk, FingerprintsDistinct, Text, EngineOk, LinkOk;
    assert HistoryOk(run) by { Theorems.StoredRunIsBehind(cfg, s, run); }
    var args := ArgsOf(run);
    forall k | k in s.decisions && (k == KeyFor(args) || s.decisions[k].fingerprint == FingerprintFor(args))
      ensures k == KeyFor(args) && s.decisions[k].request == args
    {
      OwnDecision(cfg, s, run, k);
    }
  }

  lemma OwnDecision(cfg: Settings, s: Store, run: Run, k: string)
    requires StoreOk(cfg, s) && run.runId in s.runs && s.runs[run.runId] == run
    requires run.approvalId.Some? && run.recommendation.Some?
    requires k in s.decisions && s.decisions[k].receipt.runId == run.runId
    ensures k == KeyFor(ArgsOf(run)) && s.decisions[k].request == ArgsOf(run)
  {
    hide KeyMaterial, InvoiceMaterial, ArgumentsValid, Doomed, Text;
    assert DecisionOk(cfg, s, k, s.decisions[k]);
  }

  /** A fresh worker resumes the run and takes it to its end. */
  function Finishing(r: string, i: Input): seq<Event> {
    [Launch(0, Resume(r))] + Steps(0, i, 4)
  }

  lemma ResumptionFinishes(cfg: Settings, sys: System, r: string, i: Input)
    requires Theorems.SystemOk(cfg, sys) && r in sys.store.runs && sys.store.runs[r].runId == r
    requires Theorems.ReadyToRecord(cfg, sys.store, sys.store.runs[r])
    ensures Finished(After(cfg, sys, Finishing(r, i)).store, r)
  {
    hide After, StoreOk, WorkerOk, KeyFor, FingerprintFor, RowFor, Text, Theorems.Solo, Doomed, ArgumentsValid,
      RecordDecision, InvoiceHasDecision;
    var run, s := sys.store.runs[r], sys.store;
    var resumed := Fire(cfg, sys, Launch(0, Resume(r)));
    AfterFirst(cfg, sys, Launch(0, Resume(r)), Steps(0, i, 4));
    StepsAreSolo(cfg, resumed, 0, i, 4);
    assert seq(4, _ => i) == [i, i, i, i];
    Theorems.DecisionCompletes(cfg, s, run, i, i, i, i);
  }

  // ---- it cannot ----------------------------------------------------------------------

  /** A completed run has its own decision, and no other run has its key or its invoice. */
  lemma FinishedIsNotTaken(cfg: Settings, s: Store, run: Run)
    requires StoreOk(cfg, s) && run.runId in s.runs && s.runs[run.runId] == run && run.phase.Completed?
    ensures run.approvalId.Some? && run.recommendation.Some? && CanComplete(cfg, s, run)
  {
    hide KeyMaterial, InvoiceMaterial, EngineOk, HistoryOk, ApprovalsOk, Text, Presents;
    assert RunOk(cfg, s, run) && LinkOk(cfg, s, run);
    var own := KeyFor(ArgsOf(run));
    assert DecisionOk(cfg, s, own, s.decisions[own]);
    Theorems.FingerprintNotEmpty(ArgsOf(run));
    forall k | k in s.decisions && s.decisions[k].receipt.runId != run.runId
      ensures k != own && s.decisions[k].fingerprint != FingerprintFor(ArgsOf(run))
    {
      assert DecisionOk(cfg, s, k, s.decisions[k]);
    }
  }

  lemma TakenStays(s: Store, t: Store, args: DecisionRequest)
    requires Evolves(s, t) && Taken(s, args)
    ensures Taken(t, args)
  {
    hide KeyFor, FingerprintFor, RunEvolves;
    var k :| k in s.decisions && s.decisions[k].receipt.runId != args.runId &&
      (k == KeyFor(args) || s.decisions[k].fingerprint == FingerprintFor(args));
    assert k in t.decisions && t.decisions[k] == s.decisions[k];
  }

  /** What a run may be completed on was settled before its decision. */
  lemma FinishingNeeds(cfg: Settings, sys: System, r: string, events: seq<Event>)
    requires Theorems.SystemOk(cfg, sys) && r in sys.store.runs && sys.store.runs[r].phase.ExecuteDecision?
    requires sys.store.runs[r].approvalId.Some? && sys.store.runs[r].recommendation.Some?
    requires Finished(After(cfg, sys, events).store, r)
    ensures CanComplete(cfg, sys.store, sys.store.runs[r])
  {
    hide After, StoreOk, WorkerOk, KeyFor, FingerprintFor, Text, ArgumentsValid, Taken, Vendor.VendorBlocks;
    Theorems.AfterOk(cfg, sys, events);
    var later := After(cfg, sys, events).store;
    var x, y := sys.store.runs[r], later.runs[r];
    assert RunEvolves(x, y);
    StoredId(cfg, sys.store, r);
    FinishedIsNotTaken(cfg, later, y);
    assert ArgsOf(y) == ArgsOf(x);
    if Taken(sys.store, ArgsOf(x)) {
      TakenStays(sys.store, later, ArgsOf(x));
    }
  }

  lemma StoredId(cfg: Settings, s: Store, r: string)
    requires StoreOk(cfg, s) && r in s.runs
    ensures s.runs[r].runId == r
  {
  }

  lemma DecidingRunIsLinked(cfg: Settings, s: Store, r: string)
    requires StoreOk(cfg, s) && r in s.runs && s.runs[r].phase.ExecuteDecision?
    ensures s.runs[r].approvalId.Some? && s.runs[r].recommendation.Some? && s.runs[r].runId == r
  {
    assert RunOk(cfg, s, s.runs[r]);
  }

  /** A run at its decision completes in some continuation if and only if its vendor is usable, the step budget
      reaches, its arguments fit the schema, and no other run's decision has its key or its invoice. */
  lemma FinishesExactlyWhen(cfg: Settings, sys: System, r: string)
    requires Theorems.SystemOk(cfg, sys) && r in sys.store.runs && sys.store.runs[r].phase.ExecuteDecision?
    ensures sys.store.runs[r].approvalId.Some? && sys.store.runs[r].recommendation.Some?
    ensures FinishesInSomeHistory(cfg, sys, r) <==> CanComplete(cfg, sys.store, sys.store.runs[r])
  {
    hide StoreOk, WorkerOk, After, CanComplete, Finished;
    DecidingRunIsLinked(cfg, sys.store, r);
    var run := sys.store.runs[r];
    if CanComplete(cfg, sys.store, run) {
      var i: Input := *;
      NotTakenIsReady(cfg, sys.store, run);
      ResumptionFinishes(cfg, sys, r, i);
    }
    if FinishesInSomeHistory(cfg, sys, r) {
      var events :| Finished(After(cfg, sys, events).store, r);
      FinishingNeeds(cfg, sys, r, events);
    }
  }

  /** Two runs share a key only when an identifier contains the separator: otherwise what is taken is the
      invoice. */
  lemma TakenIsTheInvoice(cfg: Settings, s: Store, args: DecisionRequest)
    requires StoreOk(cfg, s)
    requires BarFree(args.runId) && BarFree(args.approvalId) && BarFree(args.currency) && BarFree(args.amountText)
    requires forall k :: k in s.decisions ==> SeparatorFree(s.decisions[k].request)
    ensures Taken(s, args) <==>
      exists k :: k in s.decisions && s.decisions[k].receipt.runId != args.runId &&
        s.decisions[k].fingerprint == FingerprintFor(args)
  {
    hide KeyMaterial, InvoiceMaterial, RunsOk, ApprovalsOk, FingerprintsDistinct, Doomed, ArgumentsValid;
    forall k | k in s.decisions && s.decisions[k].receipt.runId != args.runId ensures k != KeyFor(args) {
      assert DecisionOk(cfg, s, k, s.decisions[k]);
      var other := s.decisions[k].request;
      if k == KeyFor(args) {
        KeyMaterialIsInjective(
          other.runId, other.approvalId, other.outcome, other.amountText, other.currency, other.vendorId,
          args.runId, args.approvalId, args.outcome, args.amountText, args.currency, args.vendorId);
      }
    }
  }

  predicate SeparatorFree(args: DecisionRequest) {
    BarFree(args.runId) && BarFree(args.approvalId) && BarFree(args.currency) && BarFree(args.amountText)
  }

  // ---- a run that cannot --------------------------------------------------------------

  /** An invoice is posted; it comes in again, is recognised as a duplicate, and its rejection is signed. */
  function RejectedTooLate(written: Dec): seq<Event> {
    var i := Answers(Seen, AmountOf(written), "B");
    Posting(Plain, "1", written, "A") +
      (ToTheGate(0, Seen, "2", written, "B") + Deliver(1, "2", ChiefSigns("B"), i))
  }

  lemma SameInvoiceSameFingerprint(written: Dec)
    ensures FingerprintFor(Claim(Seen, "2", written, "B")) == FingerprintFor(Claim(Plain, "1", written, "A"))
  {
    hide Text, InvoiceMaterial, AmountOf;
  }

  lemma RejectionIsSigned(cfg: Settings, written: Dec)
    requires cfg.maxSteps >= 7 && AmountOf(written) > 0.0
    ensures var sys := After(cfg, INITIAL, RejectedTooLate(written));
      var run, posted := Release(Waiting(cfg, Seen, "2", written, "B")), Claim(Plain, "1", written, "A");
      "2" in sys.store.runs && sys.store.runs["2"] == run &&
      AtTheGate(Waiting(cfg, Seen, "2", written, "B"), Seen, "2", written, "B") &&
      sys.store.decisions == map[KeyFor(posted) := RowFor(posted, MOMENT)]
  {
    hide After, AmountOf, Text, KeyFor, RowFor, Theorems.SystemOk, Posting, ToTheGate, Deliver, Waiting, AtTheGate,
      Answers, IsCase, Release;
    FirstIsPosted(cfg, Plain, written);
    var posted := After(cfg, INITIAL, Posting(Plain, "1", written, "A"));
    GateIsOpened(cfg, posted, Seen, "2", written, "B");
    Theorems.AfterJoins(cfg, INITIAL, Posting(Plain, "1", written, "A"),
      ToTheGate(0, Seen, "2", written, "B") +
        Deliver(1, "2", ChiefSigns("B"), Answers(Seen, AmountOf(written), "B")));
  }

  lemma HeldByThePosting(s: Store, written: Dec)
    requires s.decisions ==
      map[KeyFor(Claim(Plain, "1", written, "A")) := RowFor(Claim(Plain, "1", written, "A"), MOMENT)]
    ensures Taken(s, Claim(Seen, "2", written, "B"))
  {
    hide AmountOf, Text, KeyMaterial, InvoiceMaterial;
    SameInvoiceSameFingerprint(written);
    var k := KeyFor(Claim(Plain, "1", written, "A"));
    assert k in s.decisions && s.decisions[k].receipt.runId == "1";
  }

  /** After these events the run stands at its decision, approved, to reject the duplicate; and no continuation
      completes it, because the posting holds the invoice. */
  lemma RejectionIsNeverRecorded(cfg: Settings, written: Dec)
    requires cfg.maxSteps >= 7 && AmountOf(written) > 0.0
    ensures var sys := After(cfg, INITIAL, RejectedTooLate(written));
      "2" in sys.store.runs && sys.store.runs["2"].phase.ExecuteDecision? &&
      sys.store.runs["2"].recommendation == Some(Recommendation(RejectDuplicate, true, false)) &&
      !FinishesInSomeHistory(cfg, sys, "2")
  {
    hide After, AmountOf, Text, KeyFor, FingerprintFor, RowFor, Theorems.SystemOk, RejectedTooLate, Waiting, Taken,
      FinishesInSomeHistory;
    RejectionIsSigned(cfg, written);
    var sys := After(cfg, INITIAL, RejectedTooLate(written));
    HeldByThePosting(sys.store, written);
    ReleasedClaims(Waiting(cfg, Seen, "2", written, "B"), Seen, "2", written, "B");
    Theorems.ReachableOk(cfg, RejectedTooLate(written));
    FinishesExactlyWhen(cfg, sys, "2");
  }
}
