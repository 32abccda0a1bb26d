/** The recommended outcome (src/ap_agent/domain/rules/outcome.py, src/ap_agent/llm/schemas.py). */
module Outcome {
  import opened Prelude
  import Domain

  type Outcome = Domain.Outcome

  const ESCALATION_INDICATOR_THRESHOLD: nat := 2

  /** Higher is more conservative. */
  function Severity(outcome: Outcome): nat {
    match outcome
    case ApproveForPosting => 0
    case HoldForInformation => 1
    case RejectInvalid => 2
    case RejectDuplicate => 3
    case EscalateControlReview => 4
  }

  /** What the control results amount to when the outcome is decided. */
  datatype Evidence = Evidence(
    indicators: nat,
    vendorEscalates: bool,
    settledDuplicate: bool,
    invalid: bool,
    blocked: bool)

  function Decide(e: Evidence): Outcome {
    if e.indicators >= ESCALATION_INDICATOR_THRESHOLD || e.vendorEscalates then Domain.EscalateControlReview
    else if e.settledDuplicate then Domain.RejectDuplicate
    else if e.invalid then Domain.RejectInvalid
    else if e.blocked then Domain.HoldForInformation
    else Domain.ApproveForPosting
  }

  predicate Tightens(suggested: Outcome, computed: Outcome) {
    Severity(suggested) > Severity(computed)
  }

  /** A model's suggestion is applied only where it is stricter than what was computed. */
  function Final(computed: Outcome, suggested: Option<Outcome>): Outcome {
    if suggested.Some? && Tightens(suggested.value, computed) then suggested.value else computed
  }

  /** Every piece of evidence in `e` is also in `f`. */
  predicate NoMoreAdverse(e: Evidence, f: Evidence) {
    e.indicators <= f.indicators && (e.vendorEscalates ==> f.vendorEscalates) &&
    (e.settledDuplicate ==> f.settledDuplicate) && (e.invalid ==> f.invalid) && (e.blocked ==> f.blocked)
  }

  /** The final outcome is the stricter of the computed and the suggested one: never looser than either,
      and one of the two. More adverse evidence never lowers it, whatever the model suggests. */
  lemma FinalIsTheStricter(e: Evidence, f: Evidence, suggested: Option<Outcome>)
    ensures Severity(Decide(e)) <= Severity(Final(Decide(e), suggested))
    ensures suggested.Some? ==> Severity(suggested.value) <= Severity(Final(Decide(e), suggested))
    ensures Final(Decide(e), suggested) == Decide(e) || Some(Final(Decide(e), suggested)) == suggested
    ensures NoMoreAdverse(e, f) ==>
      Severity(Final(Decide(e), suggested)) <= Severity(Final(Decide(f), suggested))
  {
  }
}
