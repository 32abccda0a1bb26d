/** Loading an approval takes two queries outside a transaction: its row, and then its signatures
    (src/ap_agent/persistence/repository.py:571-590). Others may sign in between.

    The machine loads an approval in one step. That is no restriction: whoever acts on an old row with newer
    signatures acts as somebody may act on the approval as it stands. */
module TornReads {
  import opened Prelude
  import opened Domain
  import opened Store
  import opened Protocol
  import opened Invariant
  import opened Decimals
  import Preservation

  /** The row as it was at one moment, with the signatures of a later one. */
  function Torn(row: Approval, later: Approval): Approval {
    row.(signatures := later.signatures)
  }

  /** What the gates let through on a torn read they let through on the approval as it stands. */
  lemma TornGatesAreSafe(x: Approval, y: Approval, run: Run, args: DecisionRequest)
    requires ApprovalEvolves(x, y)
    ensures AuthoriseDecision(run, Some(Torn(x, y))) ==> AuthoriseDecision(run, Some(y))
    ensures ToolPermits(args, Some(Torn(x, y))) ==> ToolPermits(args, Some(y))
  {
    var torn := Torn(x, y);
    assert torn.HasFinancialControl() <==> y.HasFinancialControl();
  }

  /** A run at its decision passes the first gate even on a torn read. */
  lemma TornFirstGateOpens(cfg: Settings, s: Store, t: Store, base: Run)
    requires StoreOk(cfg, s) && StoreOk(cfg, t) && Evolves(s, t) && Behind(cfg, s, base) && base.phase.ExecuteDecision?
    ensures base.approvalId.Some? && base.approvalId.value in s.approvals && base.approvalId.value in t.approvals
    ensures var id := base.approvalId.value; AuthoriseDecision(base, Some(Torn(s.approvals[id], t.approvals[id])))
  {
    hide StoreOk, RunOk, RunEvolves, HistoryOk;
    Preservation.FirstGateOpens(cfg, s, base);
    var id := base.approvalId.value;
    var x, y := s.approvals[id], t.approvals[id];
    assert ApprovalEvolves(x, y);
    BehindStable(cfg, s, t, base);
    Preservation.FirstGateOpens(cfg, t, base);
    assert Torn(x, y).HasFinancialControl() <==> y.HasFinancialControl();
  }

  /** A callback judged on a torn read leaves its worker with everything it may rely on. */
  lemma TornCallbackIsSafe(cfg: Settings, s: Store, t: Store, base: Run, d: Delivery, i: Input)
    requires StoreOk(cfg, s) && StoreOk(cfg, t) && Evolves(s, t)
    requires WorkerOk(cfg, s, Resolving(base, d)) && d.approvalId in s.approvals
    ensures d.approvalId in t.approvals &&
      WorkerOk(cfg, t, StepReceived(cfg, t, base, Torn(s.approvals[d.approvalId], t.approvals[d.approvalId]), d, i))
  {
    hide StoreOk, RunOk, RunEvolves, SignerOk, Backed, ValidateSigner, AuthoriseSignature, Refusals, WithExceptions,
      SignatureFrom, Evolves;
    assert d.approvalId in t.approvals && ApprovalEvolves(s.approvals[d.approvalId], t.approvals[d.approvalId]) by {
      ApprovalsEvolve(s, t, d.approvalId);
    }
    var x, y := s.approvals[d.approvalId], t.approvals[d.approvalId];
    BehindStable(cfg, s, t, base);
    if x.status.Pending? {
      TornJudgementIsSafe(cfg, s, t, base, d, i);
    }
  }

  lemma ApprovalsEvolve(s: Store, t: Store, id: string)
    requires Evolves(s, t) && id in s.approvals
    ensures id in t.approvals && ApprovalEvolves(s.approvals[id], t.approvals[id])
  {
  }

  lemma TornJudgementIsSafe(cfg: Settings, s: Store, t: Store, base: Run, d: Delivery, i: Input)
    requires Behind(cfg, s, base) && Behind(cfg, t, base) && base.approvalId == Some(d.approvalId)
    requires d.approvalId in s.approvals && d.approvalId in t.approvals && s.approvals[d.approvalId].status.Pending?
    requires ApprovalEvolves(s.approvals[d.approvalId], t.approvals[d.approvalId])
    ensures WorkerOk(cfg, t, Judged(cfg, base, Torn(s.approvals[d.approvalId], t.approvals[d.approvalId]), d, i))
  {
    hide SignerOk, ValidateSigner, AuthoriseSignature, Refusals, WithExceptions, SignatureFrom, EngineOk, RunEvolves,
      HistoryOk, Doomed, KeyFor, Text;
    var torn := Torn(s.approvals[d.approvalId], t.approvals[d.approvalId]);
    Preservation.PendingMeansAwaiting(cfg, s, base);
    Preservation.SpendBounds(cfg, base.toolCallsUsed, i.toolCalls);
    var delegation := if d.namesDelegation then i.delegation else None;
    var next := if d.namesDelegation
      then base.(toolCallsUsed := Spend(cfg, base.toolCallsUsed, i.toolCalls)) else base;
    Preservation.AwaitingSaveOk(cfg, t, base, next);
    assert LinkOk(cfg, s, base);
    if d.approve && AuthoriseSignature(torn, d, base, delegation, i.moment) {
      Preservation.AcceptedSignerOk(base, torn, d, delegation, i.moment);
      assert PrimarySigned(torn) <==> PrimarySigned(t.approvals[d.approvalId]);
    } else if d.approve {
      Preservation.RefusedSaveOk(cfg, t, base, next, Refusals(torn, d, base, delegation, i.moment));
    }
  }
}
