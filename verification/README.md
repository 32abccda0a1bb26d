# Accounts-payable agent: verification model

The agent takes a supplier invoice through a fixed plan of phases: intake, policy retrieval, evidence
gathering, reconciliation, risk assessment and recommendation. It then waits for human signatures and records
one finance decision. What it promises is that money moves at most once for an invoice, only behind the
signatures the policy requires, and only when every control passed. This project models the code that carries
those promises and proves them of every input, every interleaving and every crash.

## How the model is built

**The protocol.** `Store.dfy` gives each write transaction of the repository as one function from store to
store. `Protocol.dfy` is the orchestrator as a machine: any number of workers, each with a possibly stale copy
of its run and a program counter, taking one store access to a step, launched and crashed at any moment.
Everything from outside (tool results, model output, clocks, delegations, fresh identifiers, callbacks) is an
arbitrary input. `Invariant.dfy` states what every reachable store satisfies, what one worker may rely on, and
how stores may evolve; `Preservation.dfy` proves that every step of every worker keeps all three, with no bound
on workers or steps; `Theorems.dfy` draws the conclusions about whole histories. `GateOpening.dfy` asks which
gates some history can open. `Stranded.dfy` and `Movers.dfy` say what becomes of a run after a crash between
settling its approval and saving it, and exactly when it can still move; `Resaving.dfy` says exactly when a run is
saved again at its decision, `Completion.dfy` exactly when a run at its decision can still complete, and
`DoublePosting.dfy` exactly when one invoice can be posted twice. `Histories.dfy`, `Witness.dfy` and `Postings.dfy`
build the event lists, from five cases, that show such things happen; `Counterexamples.dfy`, `TwoSignatures.dfy`
and `Overpayments.dfy` hold those that stand alone. `TornReads.dfy` shows why approvals may be loaded in one step.

**The two together.** A run carries its evidence and what its controls made of it, phase by phase
(`Phases.dfy` computes it, `Invariant.EngineOk` keeps it); `Undisturbed.dfy` proves that this is exactly what it
was given to read, and `GateChecks.dfy` what the gates let through and what refusals leave behind. `Composition.dfy` joins the engine's laws to the
protocol's: what stands behind every decision ever recorded, which controls passed, how much was paid, who signed.

**The code in its own form.** `Repository.dfy` is the repository as an object over its tables: approval rows,
a signature table with its own primary key, decisions, events. Each method is proved to act on what the tables
load as exactly like the abstract transaction. `Orchestrator.dfy` is the sequential code over that object
(`Drive`, `ExecutePhase`, `Resolve` and what they call), proved to take exactly the steps of the machine, so
the theorems about all interleavings speak about that code.

**The control engine.** `Money.dfy`, `Matching.dfy`, `Validity.dfy`, `Duplicates.dfy`, `Vendor.dfy`,
`Segregation.dfy`, `Authority.dfy`, `PaymentTerms.dfy` and `Controls.dfy` are the rules; `RunState.dfy` holds the
accumulators, `Phases.dfy` the phases that feed them and `Outcome.dfy` the outcome. `MatchingLaws.dfy` and
`OutcomeTable.dfy` say what every control and every outcome means, in literal amounts and over the fields of the
request, the order, the vendor and the history, without mentioning how it is computed; `MatchingBounds.dfy` and
`OutcomeSoundness.dfy` prove what a clean case is worth. Amounts, quantities and prices are exact (`real`), as
decimals are; rounding to cents, halves away from zero, is written out.

**Loops with exact specifications.** `BusinessDays.dfy`, `ToolRunner.dfy`, `Migration.dfy`, `RankFusion.dfy` and
`Decimals.dfy` and `Fingerprint.dfy` (how amounts are written, and the material that is hashed).

## What was found

- **The two ways of judging an amount disagree inside half a cent.** A signer's role is judged against the amount
  rounded to cents, while a signature counts as the primary one against the amount as presented. A role can
  therefore sign for slightly more than its limit. This happens exactly for the amounts in the half-cent gaps
  above the limits of the ladder, and then some signer is accepted; never for whole cents:
  `Authority.AcceptedLimitCoversAmount`,
  `Authority.RoundingGapIsReal`.
- **Above 1,000,000 a two-signature gate cannot be opened without a delegation.** A CEO signature carries no
  limit, so it is not the primary signature Financial Control must stand behind. Histories without delegations
  take a run that waits at such a gate to its decision exactly when the amount is at most 1,000,000:
  `GateOpening.UndelegatedGateOpensUpToAMillion`. Runs of every amount come to such a gate, among them one of
  1,500,000.00 that stays there: `TwoSignatures.TwoSignatureGateHappens`, `TwoSignatures.AMillionAndAHalfIsStuck`.
- **A crash between a settled approval and the save that follows it leaves the run waiting for ever.** The
  redelivered callback is answered as a replay before the code that would have moved the run on. Safety is not
  touched, since no decision exists; progress is lost. `Counterexamples.StrandingHappens` is such a history, from
  submission on. Exactly: a run that waits for a settled approval can still leave its phase if and only if some
  worker was already past the replay check when the approval was settled, and is about to save over the stored
  copy or will be told of a replay by the store: `Movers.MovesExactlyWhenSomebodyCan`.
- **One invoice can be posted twice exactly when its amount is written with two different exponents.** The
  constraint compares the written amount, the duplicate rule its value. For every amount, two postings of one
  invoice can both be recorded if and only if the exponents differ: `DoublePosting.DoublePostingExactlyWhen`,
  with 100.0 and 100.00 in `DoublePosting.HundredIsPostedTwice`; for the two checks themselves,
  `Fingerprint.FingerprintAgreesWithRule`.
- **A second decision about an invoice conflicts for ever.** The conflict raises and leaves the run at its decision,
  approved, and every resumption meets it again. So the rejection of a duplicate, written like the posting this
  program recorded, can itself never be recorded: `Completion.RejectionIsNeverRecorded`. Exactly: a run at its decision completes in
  some continuation if and only if its vendor is usable, the step budget reaches, its arguments fit the schema and
  no other run's decision has its key or its invoice: `Completion.FinishesExactlyWhen`.
- **Two kinds of posting escape the value of the order.** Each invoice line is checked alone against the receipts, so
  an order line cited twice is paid twice: `Overpayments.CitedTwiceIsPaidTwice`. Where an order permits another
  currency no amounts are compared, so any amount passes: `Overpayments.ForeignIsPostedAtAnyAmount`. Everything else is
  bounded, citation by citation: `Composition.PostedAmountIsEvidenced`.
- **Phases stay put in two places, not one.** A callback that lost a race reloads the run and saves it again, so
  a run at the decision phase can be saved as it is: `Counterexamples.SavingTwiceHappens` gives the events. It
  happens exactly when the saving worker reloaded the run, at the decision, on a replayed signature, and then
  nothing changes but the version: `Resaving.DecisionIsResavedExactlyWhen`.
- **Intake changes the request.** Redacting the texts of attachments changes their hashes, which the duplicate
  rule reads later. The rest of the request is frozen from the start, and all of it from the end of intake:
  `Theorems.RunsOnlyMoveForward`.
- **Vendor facts are not read again at decision time.** The comment in
  src/ap_agent/orchestration/phases/execute_decision.py:50-57 says they are; the code checks the stored record
  again. The model follows the code, and the check then always gives the same verdict:
  `Vendor.RevalidationIgnoresTheClock`. As a consequence an approved run can fail only for reasons that were
  already fixed before it was approved: `Theorems.ApprovedRunsFailOnlyWhenDoomed`.
- **De-duplication by category and rule can in principle drop the only blocking record.** It does so exactly when
  no blocking record is the first of its key. Every control of the agent gives one flag to a key, so it never
  happens here: `RunState.BlockSurvivesExactlyWhenItLeads`,
  `OutcomeSoundness.RecordedBlocksExactlyWhenAControlDoes`.
- **A negative prior amount is near to every amount.** The variance is divided by the prior amount without its sign,
  so a negative history record inside the window is always a probable duplicate: `Duplicates.ProbableMeans`.
- **A migration never fails, whatever shape the store is in.** The guard on each step makes its ALTER succeed, as
  `Migration.SchemaStore.MigrateTo` shows. A complete opening leaves its build's version stamped unless, and only
  unless, the version is 1 and the store has tables and no stamp: `Migration.OneCompleteOpenFinishes`,
  `Migration.VersionOneLeavesALegacyStoreUnstamped`. The shipped version is 2.

## Model

| member | source | states |
|---|---|---|
| Theorems.ExactlyOnce | src/ap_agent/persistence/repository.py:786-864 | in every reachable store, two decisions of one run or with one invoice fingerprint are the same decision |
| Theorems.NoInvoicePostedTwice | src/ap_agent/persistence/repository.py:192-210 | no two decisions for one vendor, one currency and one number, whatever its punctuation and case, have their amounts written alike; if the amounts are equal, they were written with different exponents |
| Theorems.FingerprintMeans | src/ap_agent/persistence/repository.py:192-210 | two fingerprints are equal if and only if vendor, number and currency are the same and the amounts are written alike |
| Theorems.KeyMeans | src/ap_agent/persistence/repository.py:166-189 | two keys are equal if and only if run, approval, outcome, amount text, currency and vendor are |
| Theorems.TextRendersAmount | src/ap_agent/persistence/repository.py:166-210 | a decision's amount text is its run's decimal as rendered, and its amount is what that decimal stands for |
| DoublePosting.DoublePostingExactlyWhen | src/ap_agent/persistence/repository.py:192-210 | for every amount, with a step budget that reaches the decision: a history with two postings of one invoice, written as x and y, exists if and only if x and y have different exponents |
| DoublePosting.HundredIsPostedTwice | src/ap_agent/persistence/repository.py:192-210 | a reachable store holds a posting of 100.0 and one of 100.00 for one invoice |
| Postings.PostingRecords | src/ap_agent/orchestration/phases/execute_decision.py:36-125 | a submission that nothing stands against, signed and driven to the end, adds exactly its own decision and its own run |
| Completion.FinishesExactlyWhen | src/ap_agent/orchestration/phases/execute_decision.py:36-125 | from any good system a run at its decision completes in some continuation if and only if its vendor is usable, the budget reaches, its arguments fit, and no other run's decision has its key or its invoice |
| Completion.TakenIsTheInvoice | src/ap_agent/persistence/repository.py:166-210 | with separator-free identifiers, what another run can take is the invoice alone |
| Completion.RejectionIsNeverRecorded | src/ap_agent/persistence/repository.py:786-864 | the events after which an approved rejection of a posted duplicate stands at its decision and no continuation completes it |
| Composition.PostedRunsPassedEveryControl | src/ap_agent/domain/rules/outcome.py:85-229 | a recorded decision is a posting if and only if every control of its run's own evidence passed |
| Composition.PostedMeans | src/ap_agent/orchestration/phases/reconcile.py:35-112 | behind every posting: an order matched by every rule, a usable vendor, no duplicate in the gathered history, no foreign account |
| Composition.PostedAmountIsEvidenced | src/ap_agent/domain/rules/matching.py:594-761 | every posted gross amount is at most the worth of the receipts its lines cite, or the order's total without lines, plus 100.00, rounding and the stated tax; or its order permits another currency |
| Overpayments.CitedTwiceIsPaidTwice | src/ap_agent/domain/rules/matching.py:404-458 | a history that posts twice the value of the whole order through one order line cited twice |
| Overpayments.ForeignIsPostedAtAnyAmount | src/ap_agent/domain/rules/matching.py:196-591 | for every amount, a history that posts it in another currency on an order of 1.00 |
| Composition.RiskyDecisionsAreCountersigned | src/ap_agent/orchestration/approvals.py:78-82 | two people's signatures, one from Financial Control, stand behind a decision if, by the vendor's fields, the history or an asserted account, it was of higher risk; otherwise one was asked for |
| Composition.RiskAsksForTwo | src/ap_agent/domain/rules/vendor.py:198-343 | two signatures are asked for if and only if the vendor is overseas, flagged, under sanctions review, under thirty days old or unpaid since a bank change, or a foreign account is asserted |
| Composition.RecommendationsFollowTheTable | src/ap_agent/domain/rules/outcome.py:107-229 | every recommendation in a reachable store is the outcome the table gives its own case; three outcomes wait for an approval that shows the run, two end it held with nothing to sign |
| Undisturbed.RunCarriesWhatItRead | src/ap_agent/orchestration/phases/gather_evidence.py:43-204 | driven undisturbed, a run comes to its recommendation with exactly the case, clock readings, indicators and calls it was given |
| Undisturbed.UndisturbedRecommendation | src/ap_agent/orchestration/phases/recommend.py:51-145 | and its recommendation is the outcome of the case as it was read |
| GateChecks.FirstGatePermitsExactly | src/ap_agent/orchestration/gates.py:68-161 | with a good run's approval the first gate permits exactly that run, with its outcome and figures unaltered and nothing recorded yet |
| GateChecks.FirstGateAccepts | src/ap_agent/orchestration/gates.py:68-161 | only the run's own approval, approved, fully signed, for its outcome and figures, opens the first gate |
| GateChecks.ToolPermitsExactly | src/ap_agent/tools/contracts.py:390-440 | the tool's gate permits exactly the arguments that name that run, its outcome and its figures |
| GateChecks.ToolAccepts | src/ap_agent/tools/contracts.py:390-440 | only an approved and fully signed approval of the run and the outcome opens the tool's gate |
| GateChecks.RefusalIsOnRecord | src/ap_agent/orchestration/machine.py:386-409 | a refused signature changes nothing but the record, which gains every reason |
| GateChecks.StoppedDecisionIsOnRecord | src/ap_agent/orchestration/phases/execute_decision.py:58-83 | a decision stopped by the vendor check fails the run with the stopping rules on record |
| GateChecks.RedeliveryIsInert | src/ap_agent/orchestration/approvals.py:105-181 | who has signed already gets the stored run, a settled approval raises for others, and none of it is judged or paid for |
| GateChecks.OnlyNamedDelegationsCost | src/ap_agent/orchestration/machine.py:541-573 | a delegation is read and paid for only when the callback names one |
| GateChecks.ModelFailureFailsTheRun | src/ap_agent/orchestration/machine.py:224-263 | a failing model fails the run, and what the phase had found stays |
| GateChecks.NoStepsLeftFailsTheRun | src/ap_agent/orchestration/machine.py:224-263 | a run whose steps are used up fails before its phase is looked at |
| Domain.InvoiceComponentsAgree | src/ap_agent/domain/request.py:164-217 | net and tax of the derived invoice add up to its gross, whichever components were supplied |
| Domain.InvoiceShowsTheRequest | src/ap_agent/domain/request.py:164-217 | every other field of the derived invoice, with the fallbacks for vendor identifier and date |
| Domain.ConsequencesOf | src/ap_agent/domain/enums.py:26-39 | every outcome but a hold and an escalation needs an approval |
| Theorems.DecisionsAreAuthorised | src/ap_agent/tools/contracts.py:390-485 | every decision's approval is its run's own, approved, fully signed, and presented exactly the recorded outcome, amount, currency and vendor |
| Theorems.DecisionsAgreeWithPhases | src/ap_agent/orchestration/phases/execute_decision.py:36-125 | decisions exist only for runs at the decision or completed; every completed run has one equal to its receipt but for the replay flag; held and failed runs have none |
| Theorems.ApprovedRunsFailOnlyWhenDoomed | src/ap_agent/orchestration/machine.py:224-263 | a run with an approval fails only when the step budget ends before the decision or the stored vendor is unusable |
| Theorems.OpenedGateIsAuthorised | src/ap_agent/orchestration/approvals.py:184-238 | behind every opened gate: a role the policy's literal ladder allows the amount, no signature of the requester, of the vendor's recent creator, or above 25,000 of a receipter, no other role without a delegation, and Financial Control where required |
| Theorems.ApprovalLifeCycle | src/ap_agent/persistence/repository.py:626-784 | approved exactly when the signature table meets the requirement; settled statuses are final, signatures only accumulate, and a met requirement stays met |
| Theorems.OrphansStayUnsigned | src/ap_agent/orchestration/machine.py:365-370 | an approval orphaned by a crash never gathers a signature and is never settled |
| Theorems.SavesAreLinear | src/ap_agent/persistence/repository.py:428-461 | a committed save replaces exactly the version it was computed from, by the next version |
| Theorems.RunsOnlyMoveForward | src/ap_agent/orchestration/machine.py:265-337 | over any history phases move forward or the run is saved in place, which at the decision changes only the version; terminal runs never change, the request but for redaction and later the case facts are frozen, budgets never shrink |
| Resaving.DecisionIsResavedExactlyWhen | src/ap_agent/orchestration/machine.py:450-465 | a committed save keeps a run at its decision if and only if the worker reloaded it there on a replayed signature; then only the version changes |
| Counterexamples.SavingTwiceHappens | src/ap_agent/orchestration/machine.py:450-465 | the events after which a run at its decision is saved there once more |
| Theorems.RunsAreBounded | src/ap_agent/domain/run_state.py:223-225 | steps used equal the phases completed, which are the seven of the plan in order; steps and tool calls stay under their ceilings; the status follows the phase |
| Theorems.CrashAfterRecordingIsHarmless | src/ap_agent/orchestration/phases/execute_decision.py:92-125 | crash after the write, resume with any inputs: same key, stored receipt, no new row, and the uncrashed store but for the replay flag |
| Theorems.CrashAnywhereRecovers | src/ap_agent/orchestration/machine.py:153-169 | crash at any point of the decision phase and resume: completed with the receipt of the one decision under the run's key |
| Theorems.RecordedRunsAlwaysRecover | src/ap_agent/persistence/repository.py:805-817 | in every reachable store a run with a decision row but no saved completion is completed by resuming it, whatever the clock says |
| Theorems.AfterOk | src/ap_agent/persistence/repository.py:367-387 | whatever launches, steps and crashes follow, the store invariant holds and the store has only evolved |
| Preservation.StepOk | src/ap_agent/orchestration/machine.py:224-539 | every step of every worker keeps the store good, evolves it lawfully, and leaves the worker what it needs next |
| Preservation.FirstGateOpens | src/ap_agent/orchestration/gates.py:68-161 | the decision gate never refuses a run that reached the decision phase |
| Preservation.SubmittingStepOk | src/ap_agent/tools/contracts.py:390-440 | the second gate, inside the tool, never refuses what the first one let through |
| Preservation.SignKeepsStatus | src/ap_agent/domain/results.py:345-359 | one more signature keeps the status approved exactly when the requirement is met |
| Invariant.WorkerOkStable | src/ap_agent/persistence/repository.py:367-387 | what a worker relies on about the store survives every step of all the others |
| Stranded.SettledButUnsavedWaitsForever | src/ap_agent/orchestration/approvals.py:131-181 | with nobody in flight, a run waiting for a settled approval never changes again under any history, and has no decision |
| Stranded.CrashBetweenSettlingAndSavingStrands | src/ap_agent/orchestration/machine.py:411-465 | the crash that leads there: the last signature or a rejection is stored and the worker dies before saving |
| Counterexamples.StrandingHappens | src/ap_agent/orchestration/machine.py:411-465 | the events, from submission on, after which a run waits for an approved approval and no continuation changes it |
| Movers.MovesExactlyWhenSomebodyCan | src/ap_agent/orchestration/machine.py:348-539 | a run waiting for a settled approval leaves its phase in some continuation if and only if some worker in flight, or two signing for one person, can move it |
| TornReads.TornGatesAreSafe | src/ap_agent/persistence/repository.py:571-590 | what either gate permits on an old row with newer signatures it permits on the approval as it stands |
| TornReads.TornFirstGateOpens | src/ap_agent/persistence/repository.py:571-590 | a run at its decision passes the first gate on such a read too |
| TornReads.TornCallbackIsSafe | src/ap_agent/persistence/repository.py:571-590 | a callback judged on such a read leaves its worker all it may rely on |
| GateOpening.FinancialControlSignsSecond | src/ap_agent/orchestration/approvals.py:214-228 | Financial Control signs only behind a covering signature, or in a valid delegated role that itself covers the amount |
| GateOpening.PrimaryThenControlOpens | src/ap_agent/domain/rules/authority.py:486-543 | two callbacks, a qualified primary and then Financial Control, take a run waiting at a two-signature gate to its decision |
| GateOpening.UndelegatedGateOpensUpToAMillion | src/ap_agent/orchestration/approvals.py:214-228 | some history without delegations releases a run waiting at a fresh two-signature gate if and only if the amount is at most 1,000,000 |
| TwoSignatures.TwoSignatureGateHappens | src/ap_agent/orchestration/approvals.py:43-102 | for every amount, a history to a fresh two-signature gate that two people are free to sign, which some undelegated continuation opens if and only if the amount is at most 1,000,000 |
| TwoSignatures.AMillionAndAHalfIsStuck | src/ap_agent/orchestration/approvals.py:214-228 | a run of 1,500,000.00 waits at a gate that no undelegated history opens, one of 1,000,000.00 at a gate that one opens |
| GateOpening.AboveTheCeilingControlIsDelegated | src/ap_agent/domain/rules/authority.py:486-543 | in every reachable store, Financial Control behind an opened gate above 1,000,000 acted in a delegated role |
| Authority.MinimumRoleIsLowest | src/ap_agent/domain/rules/authority.py:96-108 | the required role covers the amount and no lower rung of the ladder does |
| Authority.RequiredRoleInAmounts | src/ap_agent/domain/rules/authority.py:33-47 | manager up to 10,000, department director above that up to 50,000, executive director up to 250,000, CFO up to 1,000,000, CEO beyond |
| Authority.CoversInAmounts | src/ap_agent/domain/rules/authority.py:33-38 | each role covers exactly the amounts the policy gives it, and its recorded limit is the largest |
| Authority.UndelegatedAcceptance | src/ap_agent/domain/rules/authority.py:545-605 | each role without a delegation is accepted exactly up to its literal amount after rounding, Financial Control only behind a primary signature |
| Authority.AcceptedSignatureRecords | src/ap_agent/domain/rules/authority.py:486-605 | an accepted signature records the role in force, its limit, the delegation that raised it, and Financial Control membership |
| Authority.RefusalNamesItsReason | src/ap_agent/domain/rules/authority.py:310-605 | each reason for a refusal is on record exactly when it holds |
| Authority.DelegationNeverRemovesAuthority | src/ap_agent/domain/rules/authority.py:385-484 | a delegation only raises the role in force, only when current, in scope and addressed to the signer, and makes nobody Financial Control |
| Authority.AcceptanceCharacterised | src/ap_agent/domain/rules/authority.py:279-605 | acceptance over the fields of requester, role, delegation and the literal ladder: another named requester, a known role, and a co-signature behind a primary or an allowed role in force with no delegation that does not count |
| Authority.AcceptedLimitCoversAmount | src/ap_agent/domain/rules/authority.py:279-605 | some signer, in whatever role, delegation and circumstances, is accepted without reservation beyond the limit on record if and only if the amount is in a half-cent gap |
| Authority.RoundingGapIsReal | src/ap_agent/domain/rules/authority.py:545-605 | an approver whose role is limited to 10,000 is accepted for 10,000.004 |
| Authority.WholeCentAmountsAvoidTheGap | src/ap_agent/domain/money.py:76-100 | whole-cent amounts are never in a gap |
| Segregation.CleanCheckSeparatesDuties | src/ap_agent/domain/rules/segregation.py:178-289 | clean exactly when the vendor's creator waited five full business days and, above 25,000, the signer is neither requester nor receipter |
| Segregation.ApprovalTimeRecords | src/ap_agent/domain/rules/segregation.py:178-289 | the record of an approval-time check: the cooling-off objection exactly when the creator has not waited, the three-party objection exactly above 25,000 for the requester or somebody who receipted the order, and nothing else |
| Segregation.ReconciliationObjectsExactlyWhen | src/ap_agent/domain/rules/segregation.py:81-175 | at reconciliation exactly a named requester who receipted the order of more than 25,000 is objected to |
| Vendor.RevalidationIgnoresTheClock | src/ap_agent/orchestration/phases/execute_decision.py:58-70 | checking the stored vendor again stops a decision exactly when the vendor is missing, inactive or on hold, at every moment and history |
| Vendor.NewVendorExactlyWhen | src/ap_agent/domain/evidence.py:287-292 | a vendor is new for exactly thirty times twenty-four hours after its creation |
| Vendor.RiskInFields | src/ap_agent/domain/rules/vendor.py:99-343 | higher risk and control escalation, field by field of the record and the history |
| Vendor.VendorRecordsExactly | src/ap_agent/domain/rules/vendor.py:99-343 | each vendor rule is on record exactly when it is broken, and only the name rule does not block |
| Controls.InstructionsObjectExactlyWhen | src/ap_agent/domain/rules/payment_instructions.py:83-201 | exactly an asserted tail that is not the verified one is objected to |
| Controls.StatedTaxIsQueriedExactlyWhen | src/ap_agent/domain/rules/tax.py:103-203 | exactly a non-zero tax of more than a tenth of the net and five cents is queried |
| Controls.HiddenTaxIsQueriedExactlyWhen | src/ap_agent/domain/rules/tax.py:205-394 | exactly a gross-only invoice in Australian dollars above its order, with no freight to explain it, is queried |
| Controls.RepeatIsReportedExactlyWhen | src/ap_agent/domain/rules/non_po.py:62-151 | exactly a second invoice without an order, of one vendor within ninety days, is reported |
| Repository.Repository.CreateRun | src/ap_agent/persistence/repository.py:391-412 | inserts at version 1, or reports the key violation and changes nothing |
| Repository.Repository.SaveRun | src/ap_agent/persistence/repository.py:428-461 | compare and swap on the version; stale and missing runs change nothing |
| Repository.Repository.CreateApproval | src/ap_agent/persistence/repository.py:552-569 | a new approval loads with no signatures, whatever the request claims to carry |
| Repository.Repository.AddApprovalSignature | src/ap_agent/persistence/repository.py:626-716 | over the tables: one signature to a person, the loaded approval signed and no other touched, conflict when rejected; the row's copy keeps agreeing with the table |
| Repository.SigningRefines | src/ap_agent/persistence/repository.py:571-624 | the signing transaction over rows and signature table is the abstract one over what they load as |
| Repository.Repository.RejectApproval | src/ap_agent/persistence/repository.py:718-784 | pending becomes rejected, a repeat is a replay, an approved one is a conflict; the result carries the row's own copy of the signatures, which is the table's |
| Repository.Repository.RecordDecision | src/ap_agent/persistence/repository.py:786-864 | records once; same key and arguments replay, anything else for the run or the invoice conflicts |
| Repository.Repository.AppendEvent | src/ap_agent/persistence/repository.py:477-521 | the returned number is one more than the run's events, and every run's numbering stays gapless |
| Repository.LastSequenceCounts | src/ap_agent/persistence/repository.py:496-500 | in a gapless log the greatest number of a run is the count of its events |
| Repository.OneSaveWins | src/ap_agent/persistence/repository.py:428-461 | of two saves computed from one version at most one commits |
| Repository.CreatingARun | src/ap_agent/persistence/repository.py:391-412 | a run is created once, at version 1, and nothing else changes |
| Repository.SavingARun | src/ap_agent/persistence/repository.py:428-461 | a save commits exactly onto the version it was computed from, as the next one, and touches that run only |
| Repository.RecordingADecision | src/ap_agent/persistence/repository.py:786-864 | a decision is new exactly when its key, its run and its invoice are; a known key replays or conflicts, everything else conflicts |
| Repository.RedeliveryReturnsTheFirstReceipt | src/ap_agent/persistence/repository.py:805-817 | after anything else is recorded, the same decision delivered again returns its first receipt and changes nothing |
| Orchestrator.Orchestrator.RunExecuteDecision | src/ap_agent/orchestration/phases/execute_decision.py:36-125 | the decision handler takes the machine's steps: first gate, vendor check, tool, write |
| Orchestrator.Orchestrator.Submit | src/ap_agent/tools/contracts.py:390-485 | the tool loads the approval again and writes only if it permits |
| Orchestrator.Orchestrator.RunRecommend | src/ap_agent/orchestration/phases/recommend.py:51-236 | the recommendation handler takes the machine's steps, and creates an approval only for a consequential outcome |
| Orchestrator.Orchestrator.RequestApproval | src/ap_agent/orchestration/approvals.py:43-102 | creates the approval of the recommended outcome and links the run to it |
| Orchestrator.Orchestrator.RunEvidencePhase | src/ap_agent/orchestration/machine.py:277-294 | the reading and computing phases take the machine's steps, through the controls and the accumulators |
| Orchestrator.Orchestrator.IntakePhase | src/ap_agent/orchestration/phases/intake.py:26-129 | redacts, reads the texts, and records the validity exceptions and reasons |
| Orchestrator.Orchestrator.ReconcilePhase | src/ap_agent/orchestration/phases/reconcile.py:35-141 | records the eight controls' exceptions and whether the transaction is of higher risk |
| Orchestrator.Orchestrator.Recommend | src/ap_agent/orchestration/phases/recommend.py:51-183 | the outcome of the run's evidence and record, tightened by the suggestion, and the signatures it asks for |
| Orchestrator.Orchestrator.AssessRiskPhase | src/ap_agent/orchestration/phases/assess_risk.py:39-93 | the run's indicators are those it had and those just found, each once |
| Preservation.EvidenceEngineOk | src/ap_agent/orchestration/phases/reconcile.py:35-112 | each evidence phase leaves the run with exactly what its controls give on its own evidence |
| Preservation.RecommendedEngineOk | src/ap_agent/orchestration/phases/recommend.py:51-145 | the recommendation is the outcome of the run's own case at its three moments |
| Orchestrator.Orchestrator.ExecutePhase | src/ap_agent/orchestration/machine.py:265-312 | handler, bookkeeping and save; a committed phase moves the run strictly forward |
| Orchestrator.Orchestrator.SaveCompleted | src/ap_agent/orchestration/machine.py:296-301 | the bookkeeping statements and the save amount to the machine's completion step |
| Orchestrator.Orchestrator.FailRun | src/ap_agent/orchestration/machine.py:634-658 | a recorded failure is the run as its handler left it, in the failed phase |
| Orchestrator.Orchestrator.Drive | src/ap_agent/orchestration/machine.py:224-263 | terminates by phase rank, follows the machine, and returns only terminal or waiting runs |
| Orchestrator.Orchestrator.Start | src/ap_agent/orchestration/machine.py:129-151 | a start is a machine entry and walk that keeps a good store good |
| Orchestrator.Orchestrator.Resume | src/ap_agent/orchestration/machine.py:153-169 | a resumption is a machine entry and walk that keeps a good store good |
| Orchestrator.Orchestrator.Resolve | src/ap_agent/orchestration/machine.py:348-539 | a callback is a machine entry and walk that keeps a good store good |
| Orchestrator.Orchestrator.Receive | src/ap_agent/orchestration/approvals.py:105-181 | a delivery that changes nothing is answered before anything is spent; every other one is judged |
| Orchestrator.Orchestrator.Judge | src/ap_agent/orchestration/machine.py:386-446 | refused signers leave their exceptions on record and raise; accepted ones and rejections are stored |
| Orchestrator.Orchestrator.Conclude | src/ap_agent/orchestration/machine.py:488-539 | wait on, hold, or open the gate and drive, as the stored requirement says |
| Orchestrator.EnteredWalkKeeps | src/ap_agent/orchestration/machine.py:224-263 | however far an entering worker walks alone, the store stays good and only evolves |
| Fingerprint.InvoiceMaterialIsInjective | src/ap_agent/persistence/repository.py:192-210 | the joined material determines vendor, number, currency and amount text even when the vendor id contains the separator |
| Fingerprint.NormalFormMeans | src/ap_agent/domain/evidence.py:107-121 | two references have one normal form if and only if, read side by side, their letters and digits agree but for case |
| Fingerprint.NormalFormLaws | src/ap_agent/domain/evidence.py:107-121 | other characters and the case of letters change nothing; upper-case letters and digits are kept |
| Fingerprint.UpperMeans | src/ap_agent/persistence/repository.py:192-210 | two currencies agree in upper case if and only if they are the same word but for case |
| Fingerprint.KeyMaterialIsInjective | src/ap_agent/persistence/repository.py:166-189 | equal idempotency keys come from equal decision arguments |
| Decimals.TextIsInjective | src/ap_agent/persistence/repository.py:192-210 | a decimal's rendering, plain or scientific, determines its digits and its exponent |
| Decimals.DigitsRoundTrip | src/ap_agent/persistence/repository.py:192-210 | reading back the written digits gives the number |
| Decimals.SameAmountSameText | src/ap_agent/persistence/repository.py:192-210 | equal amounts are rendered alike if and only if their exponents are equal |
| Decimals.HundredTwice | src/ap_agent/persistence/repository.py:192-210 | 100.0 and 100.00 are how two decimals of one amount are rendered |
| Decimals.SmallestPlainText | src/ap_agent/persistence/repository.py:192-210 | a millionth is still rendered plainly |
| Decimals.ScientificTexts | src/ap_agent/persistence/repository.py:192-210 | a tenth of that, and every positive exponent, is rendered in powers of ten |
| Decimals.AmountMeans | src/ap_agent/persistence/repository.py:192-210 | a coefficient at exponent zero stands for itself, and one more digit at the next lower exponent is the same amount |
| Fingerprint.FingerprintAgreesWithRule | src/ap_agent/domain/rules/duplicates.py:86-93 | equal fingerprints if and only if the invoices match exactly and their amounts share an exponent |
| Fingerprint.ScaleHidesADuplicate | src/ap_agent/persistence/repository.py:192-210 | 100.0 and 100.00 match for the rule and differ for the constraint |
| Duplicates.DuplicateCheck | src/ap_agent/domain/rules/duplicates.py:163-305 | classifies every record once; a settled duplicate is reported exactly when one exists in the history |
| Duplicates.ExactMeans | src/ap_agent/domain/rules/duplicates.py:86-93 | an exact match is the same vendor, number but for punctuation and case, currency and gross |
| Duplicates.ProbableMeans | src/ap_agent/domain/rules/duplicates.py:96-160 | a probable duplicate is the same vendor with a shared attachment, a reused live number, or an amount within half a percent in the window or on the order |
| Duplicates.SettledAmongExact | src/ap_agent/domain/rules/duplicates.py:218-229 | the classified lists answer the two questions asked of the whole history |
| Duplicates.ConstraintAgreesWithRule | src/ap_agent/domain/rules/duplicates.py:86-93 | the decision table's constraint and the rule agree on invoice and record if and only if the amounts share an exponent |
| Duplicates.HistoryToolAgreesWithRule | src/ap_agent/tools/contracts.py:260-288 | at one exponent, the history tool reports exactly the records the rule calls exact |
| BusinessDays.AddBusinessDays | src/ap_agent/domain/rules/_shared.py:24-34 | the day-by-day loop reaches the date of that many business-day steps, and refuses a negative count |
| BusinessDays.AdvanceIsLeastDate | src/ap_agent/domain/rules/_shared.py:24-34 | the result is the least date with exactly n business days after the start, and is one itself |
| BusinessDays.AdvanceAdds | src/ap_agent/domain/rules/_shared.py:24-34 | adding m and then n business days is adding m + n |
| BusinessDays.FiveMoreIsAWeek | src/ap_agent/domain/rules/_shared.py:24-34 | from n = 1 on, five more business days are one week later |
| BusinessDays.FiveFromWeekendIsShorter | src/ap_agent/domain/rules/_shared.py:24-34 | from a weekend with n = 0 the five days end on the Friday, so n = 1 is needed |
| BusinessDays.AdvanceMonotone | src/ap_agent/domain/rules/_shared.py:24-34 | a later start never ends earlier |
| BusinessDays.PreviousBusinessDay | src/ap_agent/domain/rules/_shared.py:37-46 | the latest business day on or before the date |
| BusinessDays.WeekendsAre | src/ap_agent/domain/rules/_shared.py:24-46 | exactly the sixth and seventh day of every week are no business days |
| PaymentTerms.RunDaysAre | src/ap_agent/domain/rules/payment_terms.py:112-142 | payment runs are on the second and the fourth day of every week |
| PaymentTerms.LatestRunBy | src/ap_agent/domain/rules/payment_terms.py:112-128 | the greatest run day in the window, and none exactly when the window has none |
| PaymentTerms.FirstRunAfter | src/ap_agent/domain/rules/payment_terms.py:131-142 | the least run day after the date |
| PaymentTerms.AssessPaymentTerms | src/ap_agent/domain/rules/payment_terms.py:145-406 | the order's terms or thirty days, the business day on or before the due date; no run exactly when it has passed, otherwise the latest one in time, or else the first one after, one day late or four after a Friday; and what is put on record |
| PaymentTerms.LatenessIsOneOrFourDays | src/ap_agent/domain/rules/payment_terms.py:226-284 | with no run in time the payable day is Monday, Wednesday or Friday and the lateness is one day, or four for a Friday |
| Money.QuantizeError | src/ap_agent/domain/money.py:76-78 | rounding moves an amount by at most half a cent |
| Money.QuantizeIsOdd | src/ap_agent/domain/money.py:76-78 | rounding treats both signs alike: half a cent goes away from zero |
| Money.QuantizeFixesCents | src/ap_agent/domain/money.py:92-100 | exactly the whole-cent amounts are fixed points of rounding |
| Money.QuantizeMonotone | src/ap_agent/domain/money.py:76-78 | rounding preserves order |
| Money.QuantizeAtMost | src/ap_agent/domain/money.py:76-78 | an amount rounds to a limit or below exactly when it is under the limit plus half a cent |
| Matching.MatchLines | src/ap_agent/domain/rules/matching.py:404-458 | the pass over the lines: one result a line, all exceptions, the exact expected total, and whether any line cites nothing |
| Matching.RoundingTheRunningTotal | src/ap_agent/domain/money.py:121-123 | rounding the running total again at every addition never changes it |
| Matching.ThreeWayMatch | src/ap_agent/domain/rules/matching.py:196-591 | exceptions, receipts, levels and line results of the whole match; over the receipts alone, a cited line without one is recorded as undelivered and one invoiced beyond them as such |
| Matching.ReceivedMeans | src/ap_agent/domain/evidence.py:250-259 | a receipt under a line's own number adds exactly its quantity to what it received, one under another number nothing |
| MatchingLaws.MatchRecords | src/ap_agent/domain/rules/matching.py:196-591 | the whole record of a match, each rule exactly when it is broken |
| MatchingLaws.CitedLineRecords | src/ap_agent/domain/rules/matching.py:594-761 | what is on record of a cited line: its price against the tolerance, its delivery, its quantity |
| MatchingLaws.UncitedLineRecords | src/ap_agent/domain/rules/matching.py:404-458 | a line that names no order line is on record as such |
| MatchingLaws.LineRecordsJoin | src/ap_agent/domain/rules/matching.py:404-458 | lines are recorded one after another |
| MatchingLaws.ExpectedTotalAdds | src/ap_agent/domain/rules/matching.py:404-458 | the expected total is additive over the lines |
| MatchingLaws.ExpectedTotalOfOne | src/ap_agent/domain/rules/matching.py:594-620 | one line is expected at the order's price in cents, or at nothing |
| MatchingLaws.LimitTolerates | src/ap_agent/domain/rules/matching.py:104-120 | the tolerance of a line, in literal amounts and percent by its type |
| MatchingLaws.DocumentLimitTolerates | src/ap_agent/domain/rules/matching.py:123-152 | a document's variance is tolerated exactly when some order line would tolerate it |
| MatchingLaws.MatchAgreesExactlyWhen | src/ap_agent/domain/rules/matching.py:196-591 | nothing blocks exactly when order, currency, delivery, every line and the total agree, by their fields |
| MatchingBounds.MatchIsCleanExactlyWhen | src/ap_agent/domain/rules/matching.py:196-591 | no blocking exception exactly when order, currency, receipts, every line and the total pass their controls |
| MatchingBounds.AcceptedLineIsWithinPolicy | src/ap_agent/domain/rules/matching.py:104-120 | an accepted line is off the exact price by at most what the policy grants its type, in money and in percent, and a cent of rounding |
| MatchingBounds.WidestLimitIsWidest | src/ap_agent/domain/rules/matching.py:123-152 | the document limit is granted by some line and exceeded by none |
| MatchingBounds.DocumentLimitAtMost100 | src/ap_agent/domain/rules/matching.py:104-152 | no document may vary by more than 100.00 |
| MatchingBounds.MoreLinesDoNotWiden | src/ap_agent/domain/rules/matching.py:123-152 | more order lines, none of them more permissive, leave the document limit where it was |
| MatchingBounds.NoSplitting | src/ap_agent/domain/rules/matching.py:460-523 | an accepted document stays within the single widest line allowance, whatever its number of lines |
| MatchingBounds.OverpaymentBound | src/ap_agent/domain/rules/matching.py:594-761 | an accepted net is at most the worth of the receipts its lines cite, plus 100.00 and rounding; without repeated citations, at most the order's evidenced value with the same margin |
| MatchingBounds.VariancesAddUp | src/ap_agent/domain/rules/matching.py:607-608 | reported line variances sum to lines less expected within half a cent a line, exactly in whole cents |
| MatchingBounds.LineVariancesAreBoundedTogether | src/ap_agent/domain/rules/validity.py:216-239 | with the intake check, all line variances together stay within the widest allowance and a cent a line |
| Validity.CheckInvoiceValidity | src/ap_agent/domain/rules/validity.py:108-332 | reasons exactly for a disagreeing total or a future date; each is also a blocking exception, and a credit note only blocks |
| Validity.LineSumAdds | src/ap_agent/domain/rules/validity.py:216-239 | the lines' sum is nothing for no lines, one line's total, and additive |
| RunState.RunState.AddExceptions | src/ap_agent/domain/run_state.py:179-185 | the loop over its set of keys appends exactly the records of new keys |
| RunState.RunState.AddInvalidReasons | src/ap_agent/orchestration/phases/intake.py:123-129 | reasons accumulate without repetition and in order |
| RunState.RunState.AddIndicators | src/ap_agent/domain/run_state.py:216-221 | indicator codes accumulate without repetition and in order |
| RunState.AddNewKeeps | src/ap_agent/orchestration/phases/intake.py:123-129 | nothing recorded is moved or repeated, and the list holds exactly what was kept or given |
| RunState.AccumulateKeeps | src/ap_agent/domain/run_state.py:179-185 | keys stay distinct, nothing kept is lost or invented, and every given key is represented |
| RunState.AccumulateJoins | src/ap_agent/orchestration/phases/reconcile.py:96-112 | recording controls one after another is recording all of them at once |
| RunState.RepeatingAControlAddsNothing | src/ap_agent/orchestration/phases/intake.py:120-129 | a phase entered again after a crash records nothing new |
| RunState.BlockSurvivesExactlyWhenItLeads | src/ap_agent/domain/run_state.py:179-185 | de-duplication keeps a blocking record exactly when some blocking record is the first of its key |
| RunState.NoBlockingRecordIsLost | src/ap_agent/domain/run_state.py:179-185 | with one flag to a key, something kept blocks exactly when something given does |
| RunState.ConflictingFlagsLoseABlock | src/ap_agent/domain/run_state.py:179-185 | two records of one key with different flags lose the block |
| Phases.RunIntake | src/ap_agent/orchestration/phases/intake.py:26-129 | intake records the validity exceptions and reasons |
| Phases.RunReconcile | src/ap_agent/orchestration/phases/reconcile.py:35-112 | reconciliation records the exceptions of its eight controls, in their order, and nothing else |
| Phases.RunRecommend | src/ap_agent/orchestration/phases/recommend.py:51-145 | the outcome decided on the recomputed controls and everything recorded, tightened by the suggestion |
| Outcome.FinalIsTheStricter | src/ap_agent/llm/schemas.py:126-128 | the final outcome is the stricter of computed and suggested, and more adverse evidence never lowers it |
| OutcomeSoundness.ControlsFollow | src/ap_agent/orchestration/phases/reconcile.py:96-112 | every record of every control has the flag its rule gives it; only the currency rule asks the order |
| OutcomeSoundness.RecordedBlocksExactlyWhenAControlDoes | src/ap_agent/domain/run_state.py:179-185 | through all batches, something recorded blocks exactly when some control of intake or reconciliation did |
| OutcomeSoundness.RecomputedControlsAgree | src/ap_agent/orchestration/phases/recommend.py:59-69 | matching, the vendor's exceptions and settled duplicates come out the same when computed again later |
| OutcomeSoundness.ApprovedExactlyWhen | src/ap_agent/domain/rules/outcome.py:85-229 | recommended for posting exactly when no control blocked, no risk flag, under two indicators, nothing stricter suggested, and a defaulted date makes no duplicate |
| OutcomeTable.OutcomeExactlyWhen | src/ap_agent/domain/rules/outcome.py:107-229 | each of the five outcomes exactly when its reason is in the case or suggested and no graver one is |
| OutcomeTable.BlocksExactlyWhen | src/ap_agent/orchestration/phases/reconcile.py:35-112 | some control blocks exactly when something is wrong with the case, by its fields |
| OutcomeTable.RecordedExactly | src/ap_agent/orchestration/phases/reconcile.py:96-112 | the record holds exactly the rules that some control of intake or reconciliation reported |
| OutcomeTable.IntakeRecords | src/ap_agent/domain/rules/validity.py:108-332 | what intake puts on record, rule by rule |
| OutcomeTable.DuplicateRecords | src/ap_agent/domain/rules/duplicates.py:163-305 | what the duplicate check puts on record |
| OutcomeSoundness.Assess | src/ap_agent/orchestration/phases/recommend.py:51-145 | the phases run in order compute that outcome |
| OutcomeSoundness.MoreRecordsNeverLower | src/ap_agent/domain/rules/outcome.py:85-229 | recording more, through the de-duplicating list, never lowers the final outcome |
| OutcomeSoundness.MoreRecordsCouldLower | src/ap_agent/domain/run_state.py:179-185 | with two flags under one key it would: a soft record first lets a hold through |
| OutcomeSoundness.MoreAdverseCaseIsNoLighter | src/ap_agent/domain/rules/outcome.py:85-229 | a case every control says at least as much against never ends with a lighter outcome, through all the phases |
| ToolRunner.ToolRunner.Run | src/ap_agent/tools/base.py:148-276 | the first attempt within allowance and budget that is answered or fails for good decides and is the last one made; otherwise the last class of passing failure, or a denial when the budget ends first; every attempt made is paid for |
| ToolRunner.SimpleMeans | src/ap_agent/tools/base.py:148-276 | the simple form the loop refines, attempt by attempt |
| ToolRunner.BudgetHolds | src/ap_agent/orchestration/machine.py:231-236 | over any calls and resumptions the calls used never fall or pass the ceiling |
| ToolRunner.ExhaustedBudgetDenies | src/ap_agent/tools/base.py:166-186 | with the budget gone every call is denied before its tool is reached |
| Migration.SchemaStore.MigrateTo | src/ap_agent/persistence/repository.py:317-343 | the needed steps and the stamp as one transaction; no step can fail |
| Migration.SchemaStore.ApplySchema | src/ap_agent/persistence/repository.py:276-315 | refuses exactly newer stores, untouched; otherwise ends where the opener's steps end |
| Migration.OpeningIsCrashSafe | src/ap_agent/persistence/repository.py:276-365 | any number of openers interrupted anywhere: no statement fails, a stamp implies its columns, and a finished opener finds the full shape |
| Migration.OneCompleteOpenFinishes | src/ap_agent/persistence/repository.py:276-365 | after any history one complete opening yields exactly the shape and the version, opening again changes nothing, and the version is stamped unless it is 1 on a store of tables without a stamp |
| Migration.VersionOneLeavesALegacyStoreUnstamped | src/ap_agent/persistence/repository.py:302-315 | a build of version 1 opens a store written before versioning and leaves it unstamped |
| Migration.WhereOpeningMayStart | src/ap_agent/persistence/repository.py:350-365 | fresh and legacy stores are good starting points; a newer store is left alone |
| Migration.TodayIsWellFormed | src/ap_agent/persistence/schema.sql:39-149 | the shipped script and migration table meet what is assumed of a build |
| RankFusion.FuseByRank | src/ap_agent/rag/dense.py:136-157 | the result maps exactly the nominated chunks to their fused scores |
| RankFusion.ScoresAreBounded | src/ap_agent/rag/dense.py:136-157 | scores lie between the worth of one last place and that of two first places |
| RankFusion.PlaceDecides | src/ap_agent/rag/dense.py:136-157 | a chunk at place r of a duplicate-free ordering gets 1 / (k + r) when r is within the depth, and nothing behind it |
| RankFusion.UnmentionedGetsNothing | src/ap_agent/rag/dense.py:136-157 | a chunk an ordering does not mention is not nominated by it and gets no score from it |
| RankFusion.FusionIsParetoConsistent | src/ap_agent/rag/dense.py:136-157 | a chunk both orderings put ahead of a nominated one is nominated and scores strictly higher |

## Left out

- Progress: nothing is claimed about a run finishing when nobody fails; a run whose approval is settled is treated exactly in `Movers`.
- The run inside the protocol is a value that steps replace; the lists its phases fill are an object updated in place in `RunState`, `Phases` and the phase handlers of `Orchestrator`.
- The date that stands in for an absent invoice date comes from the reading of the run's clock the phase uses; the program reads the system clock for it.
- Composition.PostedAmountIsEvidenced: needs what the request's own validation ensures before a run exists, that supplied components add up and no quantity is negative.
- Loading an approval takes two queries; the machine reads both in one step, and `TornReads` proves that a read torn between them is safe.
- The accumulators for facts, inferences, unknowns, findings, calculations and assumptions, which differ from those modelled only in their key.
- SHA-256: digests are represented by the material that is hashed, that is, the hash is taken to be injective.
- Vendor name comparison, credit-note wording, account tails and injection patterns: text processing; their results are inputs.
- Delegation scope words and role names: how strings are split into words and parsed is not modelled; scopes are sets of words and roles are already parsed.
- Case folding and alphanumeric tests beyond ASCII.
- Calendar limits: dates are unbounded integers, so date overflow is not modelled; public holidays are not in the program either.
- Decimal context precision (28 digits): arithmetic is exact. Rank fusion uses exact reals where the program uses binary floating point.
- Negative amounts in `Decimals` and `Fingerprint`: decimals are non-negative there, as the tool's schema requires of a decision.
- The signing time and the moment at which authority is judged are one input; the program reads its clock twice.
- `decided_by`, `decided_at`, receipts' `decision_ref` and posting system, comments, citations and human-readable details.
- MatchingBounds.OverpaymentBound: needs non-negative invoiced quantities, as the request's schema requires.
- SQL, SQLite and file locking: a transaction is one atomic step, and a data-dependent failure of a unique index is not modelled.
- Handler exceptions outside the tool error classes, thread timeouts and back-off sleeps: a timeout is one more result of an attempt.
- Events other than their numbering, HTTP, the command line, logging, prompts, retrieval scoring, chunking, how texts are redacted, and the evaluation harness.
