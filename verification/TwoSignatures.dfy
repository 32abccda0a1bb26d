/** Two-signature gates that runs actually come to, and what becomes of them without a delegation. */
module TwoSignatures {
  import opened Prelude
  import opened Domain
  import opened Store
  import opened Protocol
  import opened Decimals
  import opened GateOpening
  import opened Histories
  import opened Witness
  import Segregation
  import Theorems

  /** A seller paid overseas makes the transaction a higher risk. */
  function ToTwoSignatures(written: Dec): seq<Event> {
    ToTheGate(0, Overseas, "run", written, "approval")
  }

  lemma OverseasGateIsFresh(run: Run, written: Dec)
    requires AtTheGate(run, Overseas, "run", written, "approval")
    ensures FreshTwoSignatureGate(FreshApproval(Overseas, "run", written), run)
    ensures FreeToSign(run, "cfo", MOMENT) && FreeToSign(run, "control", MOMENT)
    ensures run.runId == "run" && run.phase.AwaitingApproval? && run.approvalId == Some("approval")
    ensures run.request.amount == AmountOf(written)
  {
    hide AmountOf;
    var receipters := Segregation.Receipters(run.gathered.order);
    assert "cfo" !in receipters && "control" !in receipters;
  }

  lemma GateIsThere(cfg: Settings, written: Dec)
    requires cfg.maxSteps >= 7
    ensures var sys := After(cfg, INITIAL, ToTwoSignatures(written));
      Theorems.SystemOk(cfg, sys) && WaitsAtFreshGate(sys, "run") &&
      FreeToSign(sys.store.runs["run"], "cfo", MOMENT) && FreeToSign(sys.store.runs["run"], "control", MOMENT) &&
      sys.store.runs["run"].request.amount == AmountOf(written)
  {
    hide After, AmountOf, Theorems.SystemOk, Waiting, FreshApproval, FreshTwoSignatureGate, FreeToSign, AtTheGate,
      ToTheGate;
    Theorems.InitialOk(cfg);
    Theorems.ReachableOk(cfg, ToTwoSignatures(written));
    GateIsReached(cfg, INITIAL, 0, Overseas, "run", written, "approval");
    OverseasGateIsFresh(Waiting(cfg, Overseas, "run", written, "approval"), written);
  }

  /** For every amount there is a history from submission to a fresh two-signature gate that two people are free
      to sign; and some continuation without delegations releases that run if and only if the amount is at
      most 1,000,000. */
  lemma TwoSignatureGateHappens(cfg: Settings, written: Dec)
    requires cfg.maxSteps >= 7
    ensures var sys := After(cfg, INITIAL, ToTwoSignatures(written));
      WaitsAtFreshGate(sys, "run") &&
      FreeToSign(sys.store.runs["run"], "cfo", MOMENT) && FreeToSign(sys.store.runs["run"], "control", MOMENT) &&
      (ReleasedWithoutDelegation(cfg, sys, "run") <==> AmountOf(written) <= HIGHEST_LIMIT)
  {
    hide After, AmountOf, Theorems.SystemOk, FreeToSign, ToTwoSignatures, ReleasedWithoutDelegation, WaitsAtFreshGate;
    GateIsThere(cfg, written);
    var i := Answers(Overseas, AmountOf(written), "approval");
    UndelegatedGateOpensUpToAMillion(cfg, After(cfg, INITIAL, ToTwoSignatures(written)), "run", "cfo", "control", i, i);
  }

  /** The concrete inputs: a run of 1,500,000.00 waits at a gate no undelegated history ever opens, and one of
      1,000,000.00 at a gate that some such history opens. */
  lemma AMillionAndAHalfIsStuck(cfg: Settings)
    requires cfg.maxSteps >= 7
    ensures var sys := After(cfg, INITIAL, ToTwoSignatures(Dec(150000000, -2)));
      WaitsAtFreshGate(sys, "run") && sys.store.runs["run"].request.amount == 1500000.0 &&
      !ReleasedWithoutDelegation(cfg, sys, "run")
    ensures var sys := After(cfg, INITIAL, ToTwoSignatures(Dec(100000000, -2)));
      WaitsAtFreshGate(sys, "run") && sys.store.runs["run"].request.amount == 1000000.0 &&
      ReleasedWithoutDelegation(cfg, sys, "run")
  {
    hide After, Theorems.SystemOk, FreeToSign, ToTwoSignatures, ReleasedWithoutDelegation, WaitsAtFreshGate;
    assert Pow10(2) == 100;
    GateIsThere(cfg, Dec(150000000, -2));
    GateIsThere(cfg, Dec(100000000, -2));
    TwoSignatureGateHappens(cfg, Dec(150000000, -2));
    TwoSignatureGateHappens(cfg, Dec(100000000, -2));
  }
}
