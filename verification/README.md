# Verification model of the general execution substrate

A Dafny 4.11 model of the deterministic core of the repository: the event-sourced lease
allocator, the crash-safe dispatch outbox with its observed outcomes, the lane machine of a
portfolio, the two scheduling searches and the executor activation protocol. `dafny verify
dfyconfig.toml` checks the whole project.

## How the model is built

- **Digests.** `sha256_digest` and `stable_id` are an ideal hash (`Canonical.dfy`): a computed
  digest wraps the value it was computed from, and any other text is `Foreign`. Equal digests
  therefore mean equal values, with no axiom. The JSON text under a digest is not modelled.
- **Databases.** A SQLite table is a map. Each transaction is a function from tables to tables
  (`...Tx`); the store classes perform it on their own fields and are proved equal to it. A run is
  a sequence of such transactions by any number of clients. Between two transactions a client
  keeps only what it has read, which may be stale, and a crash discards it.
- **Execution context.** The spec, registry, plan, session and runner handed to most capacity and
  physical functions are one `ExecutionContext`. Its `bound` flag is the verdict of the static
  binding check of `adapter.py`, and `remainder` stands for request fields that are only compared.
- **Providers, adapters, clocks and fresh identifiers** are parameters: an adapter is either any
  answer at all or, for confluence, any function of the intent.
- **Calls and runs.** A method that performs several transactions is proved equal to a function that
  performs them with nothing in between; that function is in turn proved to be the corresponding
  steps of the run model taken in a row, so the results about runs cover it.
- **Reference target.** Its operation objects are values in its map: each sits in one list, and no
  caller holds one.
- **Constructors.** What a dataclass checks on construction is a `Valid` predicate. Checks of text
  format are kept only where a later result depends on them.

| files | repository part |
|---|---|
| `Canonical`, `Text`, `Ordering` | digests, white space, string and tuple order, sorting |
| `Capacity`, `AllocatorSafety`, `RetryLineage`, `CapacityGrants`, `GrantValidity`, `LeaseLifecycle` | `capacity.py` |
| `DurableCapacity`, `Dispatch`, `OutcomeStore`, `DispatchGuard` | `durable.py`, `dispatch.py`, `observed.py`, `dispatch_guard.py` |
| `ExecutionRuns`, `ExecutionInvariant`, `ExecutionSafety`, `ExecutionTheorems`, `ExecutionCalls`, `ExecutionLimits`, `ExecutionWitness` | all interleavings over both databases |
| `Physical`, `RetryChain`, `Ledger` | `physical.py`, `ledger.py` |
| `Reconciliation`, `Conformance` | `reconciliation.py`, `conformance_harness.py` |
| `CandidateSelection`, `PrecomputationPlan` | `execution_protocol.py`, `predictive_sovereign_execution.py` |
| `Portfolio`, `AspTransition`, `LaneSafety`, `LaneRuns` | `portfolio_state.py`, `transition_policy.py`, `execution_checkpoint.py`, `asp_transition.py` |
| `PortfolioStore`, `PortfolioHistory`, `HumanGateDecisions`, `HumanGate`, `HumanGateWitness` | `portfolio_persistence.py`, `human_gate_decision.py` |
| `Activation`, `ActivationRuns`, `ActivationConfluence` | `executor_activation.py` |
| `OrderingLaws`, `OutcomeLaws`, `RetryLaws`, `LedgerLaws`, `AllocationLaws`, `DispatchLaws`, `ReconciliationLaws`, `SelectionLaws`, `PlanLaws`, `PortfolioLaws`, `LaneLaws`, `GateLaws`, `StoreLaws`, `ActivationLaws`, `ConformanceLaws` | each operation in terms of its inputs: when it succeeds and what it then makes |

## Results where the code keeps less than one might expect

Each of the first three comes with its exact condition and with a concrete run that reaches it.

- A restart-driven release of an observed outcome can fail for good. It finishes if and only if the
  lease was not given back for another reason, such as a revocation
  (`ExecutionTheorems.RestartReleaseFinishes`, `ExecutionLimits.ForestalledForGood`,
  `ExecutionWitness.ReleaseCanBeForestalled`).
- A consumed human decision can be reported as a recovery mismatch although it is durable, exactly
  when another commit lands before the final re-read (`HumanGate.ReadBackExactly`,
  `HumanGate.InterleavedDecision`, `HumanGateWitness.DecisionCanBeReportedLost`).
- A live dispatch permit dies at the next commit of its runner even if that commit concerns another
  lease (`DispatchGuard.PermitUntilNextCommit`, `ExecutionLimits.ReservationEndsPermit`,
  `ExecutionWitness.PermitCanEndEarly`).
- Equal head digests fix the states a portfolio went through but not its checkpoints
  (`PortfolioHistory.CheckpointsMayDiffer`).

## Model

| member | source | states |
|---|---|---|
| Capacity.VerifyCapacityState | src/general_execution/capacity.py:452-461 | the replay loop accepts exactly the states that their own history reproduces from the runner's genesis |
| Capacity.ReplayShape | src/general_execution/capacity.py:286-347 | a replayed state carries exactly the given history, bound to the runner, with a generation that counts it |
| Capacity.ReplayStep | src/general_execution/capacity.py:286-347 | every prefix of a canonical history is canonical and its next transition was accepted on it |
| AllocatorSafety.ReleaseAccepted | src/general_execution/capacity.py:313-347 | an accepted release copies the identity of a lease that is active |
| AllocatorSafety.AtMostOneMatch | src/general_execution/capacity.py:364-368 | looking up an active lease by id and digest finds one if it is active and never finds two |
| AllocatorSafety.CanonicalStateSafe | src/general_execution/capacity.py:286-347 | in every canonical state: occupancy within max_parallelism, distinct slots in range, one active lease per session and logical attempt, no authorization leased twice, one release per lease, each copying its lease, leases = active + releases and generation = leases + releases |
| RetryLineage.LineageOfLease | src/general_execution/capacity.py:222-236 | a lease of physical attempt n ends a chain of exactly n leases of one session and attempt, each released by a non-completed outcome, named by invocation and receipt, before its successor |
| CapacityGrants.FreeSlotExists | src/general_execution/capacity.py:265-268 | below the parallelism bound some slot is free |
| CapacityGrants.NoFreeSlotUnreachable | src/general_execution/capacity.py:250-283 | the "no slot" branch after the exhaustion check, and the check for another runner, are never taken |
| CapacityGrants.ProposeAgreesWithApply | src/general_execution/capacity.py:250-283 | given the context checks, a reservation is proposed if and only if some slot would be accepted, and it takes the least one |
| CapacityGrants.ReserveCommitsProposal | src/general_execution/capacity.py:350-361 | committing one's own reservation proposal never fails; it appends one reservation to a canonical state and the grant describes it |
| CapacityGrants.ReleaseCommitsProposal | src/general_execution/capacity.py:371-411 | a lease is released for an outcome if and only if it is active in a canonical state and the outcome verifies and is of the authorization the lease was taken for; the grant describes the one release appended |
| CapacityGrants.RevocationCommitsProposal | src/general_execution/capacity.py:414-449 | a lease is released for a session if and only if it is active in a canonical state and the session is revoked and is the very one that holds it on this runner; the grant describes the one release appended |
| AllocationLaws.ReservesExactly | src/general_execution/capacity.py:250-361 | a reservation succeeds if and only if the state is canonical, the request repeats its context, there is room, the authorization was never leased, its session and attempt hold nothing, and it is a first attempt or retries a released one; the lease describes the authorization and takes the least free slot, and nothing else of the state changes |
| AllocationLaws.OutcomeGivesBack | src/general_execution/capacity.py:371-411 | a release for an outcome copies the lease, names outcome, receipt and status, and takes exactly that lease out of the active set |
| AllocationLaws.RevocationGivesBack | src/general_execution/capacity.py:414-449 | so does a release for a revoked session, which names the session |
| AllocationLaws.ViewsOfHistory | src/general_execution/capacity.py:154-165 | leases are what the history reserved, releases what it released, and active leases those reserved and not released |
| AllocationLaws.ReserveAcceptedExactly | src/general_execution/capacity.py:286-312 | whoever made it, a reserve transition is accepted if and only if it was made for this state and runner, its slot is in range and free, its lease is new and it may hold it |
| AllocationLaws.ReleaseAcceptedExactly | src/general_execution/capacity.py:313-347 | a release transition is accepted on a canonical state if and only if it was made for that state and copies an active lease |
| AllocationLaws.ReplaysStepwise | src/general_execution/capacity.py:452-461 | a non-empty history is canonical if and only if its last transition was accepted on the canonical state before it |
| GrantValidity.CommittedTransitionAtGeneration | src/general_execution/capacity.py:464-475 | the loop finds the state and transition that the history committed at a generation, or nothing |
| GrantValidity.ReleasedForGood | src/general_execution/capacity.py:163-165 | a lease that left the active set never returns as the history grows |
| GrantValidity.LeaseGrantValidity | src/general_execution/capacity.py:478-492 | a lease grant verifies in exactly the canonical states that extend its commit and in which its lease is active |
| GrantValidity.LeaseGrantNeverRevives | src/general_execution/capacity.py:478-492 | once it has stopped verifying it never verifies again |
| GrantValidity.ReleaseGrantValidity | src/general_execution/capacity.py:495-509 | a grant for a release after an outcome verifies in exactly the canonical states that extend its commit |
| GrantValidity.RevocationGrantValidity | src/general_execution/capacity.py:495-509 | so does a grant for a release after a revoked session |
| AllocationLaws.LeaseGrantIsTheCommitted | src/general_execution/capacity.py:478-492 | whatever values it holds, a lease grant verifies if and only if it is the one the commit at its generation handed out and its lease is active |
| AllocationLaws.ReleaseGrantIsTheCommitted | src/general_execution/capacity.py:495-509 | a release grant verifies if and only if it is the one the commit at its generation handed out |
| LeaseLifecycle.ReservedLeaseDispatches | src/general_execution/dispatch.py:230-269 | an intent can be prepared for every freshly reserved lease and its authorization |
| LeaseLifecycle.ReleasedByOwnOutcome | src/general_execution/capacity.py:371-411 | while active, a reserved lease is released by exactly the verified outcomes of its own authorization |
| LeaseLifecycle.RetryFitsAfterRelease | src/general_execution/capacity.py:250-283 | right after a failed outcome released its lease, the retry it authorises can be reserved if and only if it was not leased before |
| DurableCapacity.SqliteCapacityHeadStore.Initialize | src/general_execution/durable.py:247-290 | creates the head once; a repeat with the same state is accepted, any other refused |
| DurableCapacity.SqliteCapacityHeadStore.Load | src/general_execution/durable.py:292-303 | returns the decoded head or the reason it does not reproduce |
| DurableCapacity.SqliteCapacityHeadStore.Commit | src/general_execution/durable.py:305-362 | performs the compare-and-swap transaction, all or nothing |
| DurableCapacity.CommitAcceptsSuccessors | src/general_execution/durable.py:305-362 | on a valid table a commit is accepted if and only if the caller read the current head and offers a state the allocator itself produces from it |
| DurableCapacity.CommitKeeps | src/general_execution/durable.py:305-362 | a commit appends exactly one transition to one runner's history and loses none |
| DispatchLaws.HeadRowDecodesExactly | src/general_execution/durable.py:205-216 | a stored row is read back if and only if it is the encoding of a state canonical for the runner who reads |
| OutcomeStore.SqliteDurableObservedOutcomeStore.Initialize | src/general_execution/dispatch.py:408-449 | one row per intent and per lease; a repeat is accepted only while still prepared |
| DispatchLaws.IntentPreparedExactly | src/general_execution/dispatch.py:230-269 | an intent is prepared if and only if the state is canonical, the lease active exactly as given and taken for this authorization on this runner; it repeats both and names the state |
| DispatchLaws.IntentValidatesExactly | src/general_execution/dispatch.py:315-334 | it validates on a later state if and only if that is canonical for its runner and has a lease active that it names |
| OutcomeStore.SqliteDurableObservedOutcomeStore.BeginSubmission | src/general_execution/dispatch.py:516-540 | the whole call with nothing interleaved, refusals included, equals its transaction function |
| ExecutionCalls.SubmissionBeginsExactly | src/general_execution/dispatch.py:516-540 | in every run a submission begins if and only if the caller names the prepared state and the runner holds the intent's active lease; it then yields the permit of the new state |
| DispatchLaws.SubmitsExactly | src/general_execution/dispatch.py:337-356 | the same in terms of the durable lease, with the contents of the unknown state, of its row and of the permit |
| ExecutionCalls.BeginAloneIsARun | src/general_execution/dispatch.py:516-540 | the call with nothing interleaved is its three steps of the run model in a row |
| OutcomeStore.SqliteDurableObservedOutcomeStore.RecordObserved | src/general_execution/observed.py:300-447 | advances the intent and inserts the outcome row in one transaction, or changes neither |
| OutcomeStore.SqliteDurableObservedOutcomeStore.LoadObservedOutcome | src/general_execution/observed.py:279-298 | returns the retained outcome only if it decodes against an observed intent |
| OutcomeStore.ReleaseObservedCapacityAfterRestart | src/general_execution/observed.py:513-571 | the whole call with nothing interleaved equals its transaction function, fallback included |
| ExecutionCalls.ReleaseAloneIsARun | src/general_execution/observed.py:513-571 | the call with nothing interleaved is its six steps of the run model in a row |
| ExecutionInvariant.RecordingIsFinal | src/general_execution/observed.py:300-360 | on an observed intent the retained outcome is accepted again without a change and every other outcome is refused |
| DispatchLaws.RecordsExactly | src/general_execution/observed.py:300-447 | in every run the outcome of a submitted intent is recorded if and only if the caller names its state, the outcome verifies and is of its authorization, and no other row has that authorization or invocation; intent and row then hold exactly that outcome |
| DispatchLaws.OutcomeDecodesExactly | src/general_execution/observed.py:148-171 | a retained outcome is read back if and only if it verifies, is of the intent's authorization, is what the state observed, and every column repeats that |
| ExecutionSafety.RunKeepsInv | src/general_execution/observed.py:513-571 | the cross-store invariant holds after every interleaving of clients and crashes |
| ExecutionSafety.RunGrows | src/general_execution/durable.py:305-362 | along any run histories, intents, outcome rows and logs only grow |
| ExecutionTheorems.SubmitsAtMostOnce | src/general_execution/dispatch.py:408-540 | a lease never gets two intents and no intent's submission succeeds twice |
| ExecutionTheorems.HeadsStayCanonical | src/general_execution/durable.py:205-216 | every durable head of every run replays and is allocator-safe |
| ExecutionTheorems.HeadsLinearise | src/general_execution/durable.py:305-362 | stale commits linearise: an earlier head is a prefix of every later one, proper unless nothing was committed |
| ExecutionTheorems.SubmittedLeaseIsDurable | src/general_execution/dispatch.py:315-334 | an intent at or past submission_unknown names a lease of the durable history for ever after, though it was read from the other database |
| ExecutionTheorems.OutcomeRowsAgree | src/general_execution/observed.py:228-298 | an outcome row exists if and only if its intent is observed, and then binds exactly that state |
| ExecutionTheorems.ReleaseAnswersAgree | src/general_execution/observed.py:513-571 | all completed restart releases of an intent report the same release, and it is in the durable history |
| ExecutionTheorems.RestartReleaseFinishes | src/general_execution/observed.py:513-571 | alone, a restart release succeeds if and only if the lease was not released for another reason; it then reports the release of that very outcome and describes the head, as idempotent if and only if it changed nothing |
| ExecutionTheorems.RestartReleaseIdempotent | src/general_execution/observed.py:494-511 | doing it again changes nothing and reports the same release |
| ExecutionLimits.RevocationForestallsRelease | src/general_execution/capacity.py:414-449 | whenever an outcome is observed and its lease active, a release for a revoked session leaves the lease released for another reason |
| ExecutionLimits.ForestalledForGood | src/general_execution/observed.py:513-571 | it stays so along every continuation, and no restart release of that intent ever finishes again |
| ExecutionWitness.ReleaseCanBeForestalled | src/general_execution/observed.py:513-571 | a concrete run from empty databases ends in such a state |
| DispatchGuard.PreparedIntentValidity | src/general_execution/dispatch.py:230-334 | a prepared intent validates against exactly the canonical states in which its lease is active |
| DispatchGuard.AuthorizedExactlyWhileActive | src/general_execution/dispatch_guard.py:68-140 | in every run a submitted intent gets a live permit if and only if its lease is active; no other refusal can occur |
| DispatchLaws.LivePermitExactly | src/general_execution/dispatch_guard.py:68-140 | on valid heads a live permit is given if and only if the outbox permit is that of the submitted state and the runner's head has a lease active that the intent names; it repeats state, permit and head |
| DispatchGuard.PermitBindsHead | src/general_execution/dispatch_guard.py:143-154 | a permit verifies on a table if and only if the runner's head there is the one it was issued on |
| DispatchGuard.PermitUntilNextCommit | src/general_execution/dispatch_guard.py:143-154 | along a run a permit verifies if and only if nothing was committed for its runner since it was issued |
| DispatchGuard.PermitNeverRevives | src/general_execution/dispatch_guard.py:143-154 | once it has stopped verifying it never verifies again |
| ExecutionLimits.ReservationEndsPermit | src/general_execution/dispatch_guard.py:143-154 | reserving for another authorization leaves a permit's lease active and ends the permit |
| ExecutionWitness.PermitCanEndEarly | src/general_execution/dispatch_guard.py:143-154 | a concrete run from empty databases gets there |
| RetryChain.VerifyRetryChain | src/general_execution/physical.py:448-489 | the loop accepts exactly the chains: a first attempt, then retries each of the one before it, under invocation ids used once |
| RetryLaws.ChainExactly | src/general_execution/physical.py:448-489 | a sequence is a chain if and only if each outcome verifies, is numbered by its place, is at the same work and names the failed one before it, and no invocation id repeats |
| RetryChain.PrefixClosed | src/general_execution/physical.py:448-489 | every non-empty prefix of a chain is a chain |
| RetryChain.OnlyLastCompletes | src/general_execution/physical.py:482-484 | no outcome but the last is completed |
| RetryChain.AcceptsExactlyProduced | src/general_execution/physical.py:176-223 | within one context the accepted chains are exactly those that authorizing, retrying and admitting can produce |
| RetryChain.ExtendedChainAccepted | src/general_execution/physical.py:196-223 | an accepted chain extended by an authorised and admitted retry under an unused invocation id is accepted, even if earlier outcomes do not verify in that context |
| RetryChain.VerifiedIsAdmitted | src/general_execution/physical.py:375-419 | a bundle verifies if and only if admission of its own observation builds that bundle |
| OutcomeLaws.VerifiesExactlyMade | src/general_execution/physical.py:226-372 | an outcome verifies if and only if some fitting provider response to its authorization makes its observation, its receipt and its bundle |
| OutcomeLaws.ResponseFixesOutcome | src/general_execution/physical.py:226-249 | two verified outcomes with the same response digest are the same |
| OutcomeLaws.AuthorizesExactly | src/general_execution/physical.py:176-223 | a first attempt is authorised for every bound context, a retry if and only if the prior outcome verifies in the context and was not completed; both repeat the context |
| OutcomeLaws.AdmitsExactly | src/general_execution/physical.py:375-413 | an observation is admitted if and only if the request repeats its context and the observation is what a fitting response makes; the bundle is the response's |
| RetryChain.LastReceiptFixesChain | src/general_execution/physical.py:345-372 | two chains with the same last receipt digest are equal throughout |
| Ledger.VerifyLedger | src/general_execution/ledger.py:53-61 | the loop accepts exactly the ledgers whose events sit at their index, follow the hash before them and carry their own hash |
| Ledger.VerifiesExactlyBuilt | src/general_execution/ledger.py:43-61 | a ledger verifies if and only if appending its events one by one builds it, blank event types apart |
| Ledger.HeadFixesEvents | src/general_execution/ledger.py:22-28 | two verifying ledgers with the same head record the same events |
| Ledger.RecordPhysicalAttempt | src/general_execution/physical.py:523-541 | the loop appends exactly the four payloads and is refused if and only if the authorization is already recorded |
| LedgerLaws.AttemptIsLogged | src/general_execution/physical.py:492-541 | the four events are the authorization, its observation, its receipt and the result or else the failure, in this order, each with its digest and chained to the one before |
| Ledger.RecordedAttemptVerifies | src/general_execution/physical.py:544-560 | the record that recording returns verifies on the ledger it returns |
| Ledger.RecordVerifiesForEver | src/general_execution/physical.py:544-560 | every record that verifies keeps verifying after any further appends, and its authorization can never be recorded there again |
| Ledger.RecordFixesLedger | src/general_execution/physical.py:544-560 | two ledgers on which a record verifies agree up to its last event, and so do the outcomes |
| Reconciliation.ResubmissionNeedsCurrentHead | src/general_execution/reconciliation.py:381-395 | in a run a permit authorises resubmission only while nothing was committed for its runner since, and the lease is still active |
| ReconciliationLaws.DecidesExactly | src/general_execution/reconciliation.py:241-408 | a decision is made if and only if the evidence is a current answer about this submission and, when an absent one may be repeated, a live permit verifies; it resubmits exactly an absent submission under an idempotent contract, polls exactly an accepted one, admits exactly supported terminal evidence, and otherwise holds |
| Conformance.ReferenceConformanceTarget.Submit | src/general_execution/conformance_harness.py:402-437 | equals the target's submit transaction in each duplicate mode |
| Conformance.ReferenceConformanceTarget.Lookup | src/general_execution/conformance_harness.py:439-490 | reports absence, mismatch, ambiguity, terminal or accepted operations as the state has them |
| ConformanceLaws.SubmitsExactly | src/general_execution/conformance_harness.py:402-437 | when a submit creates, repeats or refuses an operation, with the provider id and the evidence of the answer |
| ConformanceLaws.LooksUpExactly | src/general_execution/conformance_harness.py:439-490 | what each lookup answer says about the operations under its key, with its evidence |
| ConformanceLaws.ProviderIdsAreUnique | src/general_execution/conformance_harness.py:402-437 | whatever is submitted in whatever mode, no two operations get the same provider id |
| Conformance.ReferenceConformanceTarget.MarkTerminal | src/general_execution/conformance_harness.py:492-504 | attaches terminal evidence to a single, matching operation or changes nothing |
| Conformance.SameRequestCase | src/general_execution/conformance_harness.py:200-224 | passes if and only if the declared same-request semantics is the target's |
| Conformance.DifferentRequestCase | src/general_execution/conformance_harness.py:227-240 | passes if and only if the two requests differ |
| Conformance.LookupIdentityCase | src/general_execution/conformance_harness.py:243-258 | passes if and only if the two requests differ |
| Conformance.AbsenceCase | src/general_execution/conformance_harness.py:261-276 | always passes against the reference target |
| Conformance.TerminalCase | src/general_execution/conformance_harness.py:279-295 | always passes against the reference target |
| Conformance.RunProviderConformance | src/general_execution/conformance_harness.py:298-342 | all required cases pass if and only if the contract declares the target's mode; the evidence keeps each case with its transcript and the run binds the evidence |
| Conformance.SafeModes | src/general_execution/conformance_harness.py:402-437 | exactly the two safe modes keep every invocation to one operation under all submit sequences |
| Conformance.TruthfulContractIsSafe | src/general_execution/reconciliation.py:74-80 | a resubmission authorised under a contract that matches the target creates no second operation, whatever else is submitted |
| Conformance.PassingRunMakesResubmissionSafe | src/general_execution/conformance_harness.py:298-342 | after a passing run the same holds for every decision under that contract |
| CandidateSelection.SelectCandidates | src/general_execution/execution_protocol.py:296-343 | returns a cover of minimum cardinality, then minimum cost, then least id tuple among all selections, or the uncovered capabilities; raises exactly on duplicate ids, mixed projections or a wrong binding |
| SelectionLaws.CostIsTheSum | src/general_execution/execution_protocol.py:336-342 | the cost of a selection is the sum of its candidates' cost ranks |
| SelectionLaws.FewestThenCheapest | src/general_execution/execution_protocol.py:318-343 | whatever candidates together offer what is required, the selection has no more of them and, if as many, no higher sum of cost ranks |
| SelectionLaws.NoCheaperExchange | src/general_execution/execution_protocol.py:336-342 | no selected candidate can be exchanged for one of lower cost rank that offers what would be lacking |
| SelectionLaws.CheapestSingle | src/general_execution/execution_protocol.py:336-342 | among single candidates that offer everything the one of lowest cost rank is selected, and of equal ones the one with the first id |
| CandidateSelection.SmallestCovering | src/general_execution/execution_protocol.py:323-330 | the search loops stop at the least size with a cover and collect all covers of that size |
| CandidateSelection.MinByKey | src/general_execution/execution_protocol.py:336-342 | no collected cover has a smaller cost and id tuple than the one chosen |
| CandidateSelection.CoverIsCombination | src/general_execution/execution_protocol.py:324-328 | every covering selection is the id-sorted form of a combination the search visits |
| CandidateSelection.OrderIndependent | src/general_execution/execution_protocol.py:296-343 | the answer is the same for every ordering of the candidates |
| CandidateSelection.UncoveredExactly | src/general_execution/execution_protocol.py:332-334 | capabilities are reported uncovered if and only if no subset covers, and then exactly those no candidate offers |
| PrecomputationPlan.BuildPrecomputationPlan | src/general_execution/predictive_sovereign_execution.py:129-206 | terminates with a plan whose waves are a schedule, whose deferred tasks are all the others, sorted, each with its reasons; raises exactly on blank, duplicate or unknown names |
| PrecomputationPlan.PickWave | src/general_execution/predictive_sovereign_execution.py:178-188 | a wave is a non-empty, sorted, conflict-free choice of ready tasks that leaves one out only for a conflicting smaller id |
| PrecomputationPlan.BuildWaves | src/general_execution/predictive_sovereign_execution.py:165-193 | each wave is such a choice over what earlier waves selected, and nothing is ready at the end |
| PlanLaws.NoSharedKeyInAWave | src/general_execution/predictive_sovereign_execution.py:178-188 | two tasks of one wave never list the same shared-state key |
| PlanLaws.LeftOutForASharedKey | src/general_execution/predictive_sovereign_execution.py:178-188 | a task whose dependencies were all there is left out of a wave only for a key that a smaller id of the wave lists too |
| PlanLaws.DependenciesComeFirst | src/general_execution/predictive_sovereign_execution.py:165-177 | everything a scheduled task depends on is materialized or in an earlier wave |
| PlanLaws.PlanSplitsTasks | src/general_execution/predictive_sovereign_execution.py:148-206 | every task is either selected, and then has nothing against it, or deferred with exactly what is against it, or because a task it depends on is deferred |
| PrecomputationPlan.SelectsLeastFixpoint | src/general_execution/predictive_sovereign_execution.py:165-193 | despite key conflicts the selected set is the least fixed point of "eligible with all dependencies materialized or selected" |
| PrecomputationPlan.SelectedOnce | src/general_execution/predictive_sovereign_execution.py:190-202 | no task is scheduled twice and the selection lists exactly the scheduled tasks |
| PrecomputationPlan.DeferredHasDeferredDependency | src/general_execution/predictive_sovereign_execution.py:195-199 | an eligible task is deferred only because one of its dependencies is |
| PrecomputationPlan.ScheduleUnique | src/general_execution/predictive_sovereign_execution.py:165-193 | readiness, conflicts and id order leave only one schedule |
| PrecomputationPlan.PlanIsOrderIndependent | src/general_execution/predictive_sovereign_execution.py:129-206 | the plan is the same for every ordering of the tasks |
| Portfolio.MatchIsLookup | src/general_execution/transition_policy.py:323-341 | in a valid policy a rule is matched if and only if it is the policy's rule for that state and event |
| LaneLaws.StepsExactly | src/general_execution/asp_transition.py:435-603 | a transition is accepted if and only if the policy's rule for Active's state and the event has evidence of every kind that it and its effect need, and the authority it needs, the lanes allow its effect, and references and uncertainties are well formed; it makes exactly the lanes, the checkpoint and the result that the rule says |
| LaneLaws.StepsOfARun | src/general_execution/asp_transition.py:56-81 | so every transition of every run had that evidence and that authority and made what its rule says |
| LaneLaws.AdmitsWakeExactly | src/general_execution/asp_transition.py:268-304 | a passive item may be woken if and only if the policy's rule for it is a waking rule with its evidence and authority; the admission names the state, the item, its wake condition and the rule |
| LaneLaws.ConsumesWakeExactly | src/general_execution/asp_transition.py:307-359 | an admission is consumed if and only if it names this very state, item, wake condition and rule and carries evidence and authority for the rule; the item then comes on deck with nothing it waits for |
| LaneLaws.FirstOccurrencesInOrder | src/general_execution/asp_transition.py:551-591 | a checkpoint keeps the first occurrence of every reference, in order |
| PortfolioLaws.RunsStaySane | src/general_execution/portfolio_state.py:162-283 | every run from sane lanes ends with sane lanes: one Active that is not parked, one Secondary that waits for nothing, parked items in id order with what they wait for, all different work; and its checkpoint is sane and names the state |
| PortfolioLaws.ValidPolicyIsSane | src/general_execution/transition_policy.py:125-240 | a policy is valid if and only if its rules are in id order, at most one for each state and event, and each pairs authority, effect, event and target as it must |
| LaneSafety.StepKeepsLanes | src/general_execution/asp_transition.py:435-603 | every accepted step yields a well-formed portfolio and a valid checkpoint that bind and follow the old state; only promotion changes the set of work items (with their objective, gate, revision and evidence), dropping exactly the old Active |
| LaneSafety.ParkedItemCanWake | src/general_execution/asp_transition.py:392-408 | a parked item stands in the passive lane with the blockers and wake condition it had, and the woken item becomes Secondary |
| LaneSafety.WokenShape | src/general_execution/asp_transition.py:307-359 | waking takes exactly the admitted item out of the passive lane and leaves the rest in order |
| LaneSafety.LateChecksNeverFail | src/general_execution/asp_transition.py:486-591 | after the explicit checks the entry and state constructors never refuse, and the checkpoint is refused only for blank references or bad uncertainties |
| LaneSafety.CheckpointValidExactly | src/general_execution/asp_transition.py:551-591 | the checkpoint of an admitted rule is valid if and only if the caller's references and uncertainties are |
| LaneSafety.AdmissionConsumedOnItsState | src/general_execution/asp_transition.py:268-341 | a wake admission is accepted on exactly the state and policy it was made for |
| LaneRuns.RunKeepsPortfolio | src/general_execution/portfolio_state.py:234-283 | every run keeps a valid portfolio whose checkpoint binds it, work items only leave, and N passive items allow at most N promotions |
| LaneRuns.WakeConsumedOnce | src/general_execution/asp_transition.py:307-341 | along a run a wake admission is consumed at most once |
| LaneRuns.AuthorityProvenance | src/general_execution/asp_transition.py:502-549 | Active's authority is its own from genesis with no gate exit since, or that of the last grant that let an item out of a gate, which was this item |
| LaneRuns.GateExits | src/general_execution/asp_transition.py:225-258 | an item leaves human_gate while Active only under a grant bound to policy, rule and boundary, or by a decision to rework or failed that clears authority |
| LaneLaws.GateLeftUnderGrant | src/general_execution/asp_transition.py:225-258 | along a run a transition leaves a human gate only under a grant made for the policy, the rule and its boundary; the item then carries that grant where the rule sends it |
| LaneRuns.StepIsDurable | src/general_execution/portfolio_persistence.py:454-567 | every accepted step is a commit the store accepts, and recovery then returns its state and checkpoint |
| PortfolioStore.SqlitePortfolioHeadStore.Initialize | src/general_execution/portfolio_persistence.py:274-324 | creates a generation-zero head once |
| PortfolioStore.SqlitePortfolioHeadStore.LoadRecoverySnapshot | src/general_execution/portfolio_persistence.py:382-448 | reads head and current checkpoint together, or says what does not fit |
| PortfolioStore.SqlitePortfolioHeadStore.Commit | src/general_execution/portfolio_persistence.py:454-567 | inserts the checkpoint and swaps the head in one transaction, or changes neither |
| PortfolioStore.SqlitePortfolioHeadStore.RecoverAfterRestart | src/general_execution/portfolio_persistence.py:603-620 | recovery equals its transaction function |
| PortfolioHistory.CommitAcceptsExactly | src/general_execution/portfolio_persistence.py:454-567 | on a valid store a commit succeeds if and only if the caller read the head and offers a successor with a binding checkpoint; no duplicate checkpoint is ever met |
| PortfolioHistory.FreshCheckpoint | src/general_execution/portfolio_persistence.py:518-537 | the duplicate-checkpoint branch is unreachable |
| PortfolioHistory.StoreRun | src/general_execution/portfolio_persistence.py:454-567 | in every reachable store checkpoints exist for exactly generations 1 to g and bind that generation's state; nothing is lost later |
| PortfolioHistory.RecoveryReturnsHead | src/general_execution/portfolio_persistence.py:382-448 | recovery succeeds on every valid store and returns the head with its checkpoint |
| StoreLaws.RecoversExactly | src/general_execution/portfolio_persistence.py:382-448 | whatever the tables hold, recovery succeeds if and only if the head row encodes a valid state of the portfolio and the checkpoint of its generation is the one it names; the report repeats the head |
| StoreLaws.CommitOverwritesNothing | src/general_execution/portfolio_persistence.py:518-537 | whatever the tables hold, a commit stores its checkpoint under a free key and repeats no stored identifier or digest |
| PortfolioHistory.SameHeadSameHistory | src/general_execution/portfolio_persistence.py:489-510 | stores with the same head digest have the same head state and the same ancestor in every generation, and their checkpoints bind the same states |
| PortfolioHistory.CheckpointsMayDiffer | src/general_execution/portfolio_persistence.py:491-503 | the checkpoints themselves are not fixed: any two that bind a successor can each be committed with it |
| HumanGateDecisions.DecisionNeverFailsLate | src/general_execution/human_gate_decision.py:170-257 | once its guards hold a decision always yields a valid state and a valid, binding checkpoint |
| HumanGateDecisions.ReceiptIsNewEvidence | src/general_execution/human_gate_decision.py:211-216 | the receipt evidence can never repeat evidence the decision brought |
| GateLaws.DecidesExactly | src/general_execution/human_gate_decision.py:157-257 | a decision is taken if and only if the trusted actor answers this very state at its gate; Active then stands where the decision sends it, without authority or anything to wait for, and receipt and checkpoint tell so |
| HumanGate.ConsumeHumanGateDecision | src/general_execution/human_gate_decision.py:157-274 | the whole call with nothing interleaved equals its transaction function |
| HumanGate.DecisionTakesEffect | src/general_execution/human_gate_decision.py:157-274 | on a valid store the decided head and checkpoint become durable and are returned if and only if the decision is good for the head; else nothing changes |
| GateLaws.EffectExactly | src/general_execution/human_gate_decision.py:157-274 | on a valid store that is what becomes durable and what the call returns, and otherwise nothing changes |
| HumanGate.ReadBackExactly | src/general_execution/human_gate_decision.py:264-274 | with other commits in between, success is reported if and only if the head is still the decided one, and the decision is durable either way |
| HumanGate.MovedHeadRefusesDecision | src/general_execution/human_gate_decision.py:258-263 | the commit of a decision is refused if and only if the head has moved since it was recovered |
| HumanGate.InterleavedDecision | src/general_execution/human_gate_decision.py:157-274 | whatever commits fall between its three transactions, the call succeeds if and only if the decision is good and neither the recovered nor the decided head has moved; an unmoved head at the commit makes the decision durable |
| HumanGate.LaterCommitHidesDecision | src/general_execution/human_gate_decision.py:264-268 | any commit that lands before the re-read makes the call report a mismatch although the decision stays durable |
| HumanGateWitness.DecisionCanBeReportedLost | src/general_execution/human_gate_decision.py:264-268 | a concrete portfolio, decision and later step for which this happens |
| Activation.SqliteExecutorActivationStore.Initialize | src/general_execution/executor_activation.py:478-522 | binds a dispatch identity to one intent |
| Activation.SqliteExecutorActivationStore.CompareAndSwap | src/general_execution/executor_activation.py:538-579 | advances the row only from exactly the expected state |
| Activation.ActivateOrReconcileExecutor | src/general_execution/executor_activation.py:597-647 | the whole call with nothing interleaved equals its transaction function, conflict handling included |
| ActivationLaws.FreshActivation | src/general_execution/executor_activation.py:597-647 | the first call for an identity succeeds if and only if the receipt is activatable with the adapter's capability and the observation is about this intent; the state records the adapter's answer if the executor is available and otherwise a wait for it, and a foreign answer leaves the activation durably unknown |
| ActivationLaws.TerminalStatesHaveASource | src/general_execution/executor_activation.py:597-647 | in every run each returned or stored terminal state records, for a launch the run was given, what an adapter call of the run answered about that launch, or the wait if its executor is not available |
| ActivationConfluence.ActivateAloneIsARun | src/general_execution/executor_activation.py:597-647 | the call with nothing interleaved is its five steps of the run model in a row |
| ActivationRuns.RunKeeps | src/general_execution/executor_activation.py:597-647 | the driver invariant holds after every interleaving of drivers and crashes, and rows only move forward |
| ActivationConfluence.OneIntentPerIdentity | src/general_execution/executor_activation.py:478-522 | an identity keeps one intent for ever and a terminal state is final |
| ActivationConfluence.CallsFollowUnknown | src/general_execution/executor_activation.py:621-632 | an adapter is called only after activation_unknown is durable |
| ActivationConfluence.ReturnsAgree | src/general_execution/executor_activation.py:634-647 | all successful calls for an identity report the same terminal state, whatever adapters answer |
| ActivationConfluence.Confluence | src/general_execution/executor_activation.py:634-647 | with an adapter that is a function of the intent, losing the final swap never raises and every return records that function's answer, or the wait if the executor is not available |

Unlisted lemmas are helpers. Among them, `AllocatorSafety.ReserveAccepted`,
`DurableCapacity.SwapNeverFails`, `Physical.AdmissionNeverFailsLate` and
`Reconciliation.ResubmissionChecks` only read the branches of one definition for later proofs.

## Left out

- SHA-256, canonical JSON, SQL and file handling: the digest is ideal and a transaction is atomic.
- Schema versions, `authority_created` flags and the format of names and digests: constant or only restrictive.
- `SqliteDispatchIntentStore.record_observed` of the base class: only the subclass with retained outcomes is modelled.
- The recovery reports of `dispatch.py` and `durable.py`: summaries of the states modelled here.
- `record_capacity_transition` and `verify_capacity_transition_record`: the ledger laws cover their binding.
- `identify_duplicate_physical_attempt` and `record_duplicate_physical_attempt`: they change no state modelled here.
- `forecast_gates`, `reconcile_verification_twin`, `select_capability_substitute` and `decide_execution_protocol`: they would add only easy members.
- AspTransition: wake evidence is kept as a set, which is what its sorted, duplicate-free tuple amounts to.
- PortfolioStore.SqlitePortfolioHeadStore.Commit: the foreign-key and round-trip checks of a constructed checkpoint are not modelled, because they cannot fail.
- `asp_transition_engine.py`, the passive-lane host modules and all provider adapters are not part of this model.
