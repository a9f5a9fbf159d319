/**
  What an intent, a permit, an observed row and a live permit contain, and when they are given, in terms of the
  lease, the authorization, the outcome and the durable head.
 */
module DispatchLaws {
  import opened Canonical
  import opened Physical
  import opened Capacity
  import opened AllocatorSafety
  import opened CapacityGrants
  import opened LeaseLifecycle
  import opened DurableCapacity
  import opened Dispatch
  import opened OutcomeStore
  import opened ExecutionRuns
  import opened ExecutionInvariant
  import opened ExecutionSafety
  import opened ExecutionTheorems
  import opened ExecutionCalls
  import opened DispatchGuard
  import opened AllocationLaws

  // ---------------------------------------------------------------- durable rows

  /** A capacity row is read back exactly if it is the encoding of a state canonical for the runner who reads. */
  lemma HeadRowDecodesExactly(row: HeadRow, runner: RunnerCapabilities, s: RunnerCapacityState)
    ensures DecodeRow(row, runner) == Success(s)
       <==> && Replays(s, runner)
            && row == HeadRow(Sha256(runner), Sha256(s), s.generation, Sha256(SnapshotPayload(s, Sha256(s))),
                              SnapshotPayload(s, Sha256(s)), Sha256(SnapshotPayload(s, Sha256(s))))
  {
    hide Replay;
  }

  function Revision(state: IntentState): nat {
    if state.Prepared? then 0 else if state.SubmissionUnknown? then 1 else 2
  }

  lemma IntentRowDecodesExactly(row: IntentRow, state: IntentState)
    ensures DecodeIntent(row) == Success(state)
       <==> row == IntentRow(StableId(state.intent), state.intent.runnerId, state.intent.leaseId, Sha256(state), Revision(state), state)
  {
  }

  /** A state follows another only one status on, under the same intent and naming its predecessor. */
  lemma FollowsExactly(current: IntentState, next: IntentState)
    ensures next.Follows(current)
       <==> && ((current.Prepared? && next.SubmissionUnknown?) || (current.SubmissionUnknown? && next.Observed?))
            && next.intent == current.intent && next.previousStateDigest == Sha256(current)
  {
  }

  /** What the store hands back about a runner's head */
  ghost predicate Heads(head: DurableHead, s: RunnerCapacityState) {
    head == DurableHead(s.runnerId, s.runnerCapabilityDigest, Sha256(s), s.generation, Sha256(SnapshotPayload(s, Sha256(s))))
  }

  lemma LoadsExactly(heads: DurableCapacity.Heads, runner: RunnerCapabilities)
    requires ValidHeads(heads)
    ensures var r := LoadTx(heads, runner);
            && (r.Success? <==> runner.runnerId in heads && heads[runner.runnerId].capabilityDigest == Sha256(runner))
            && (r.Success? ==> r.value.0 == History(heads, runner.runnerId) && Heads(r.value.1, r.value.0)
                               && Replays(r.value.0, runner) && AllocatorSafe(r.value.0))
  {
    hide Replay, AllocatorSafe;
    if runner.runnerId in heads && heads[runner.runnerId].capabilityDigest == Sha256(runner) {
      assert ValidRow(runner.runnerId, heads[runner.runnerId]);
      CanonicalStateSafe(runner, History(heads, runner.runnerId).transitions);
    }
  }

  // ---------------------------------------------------------------- intents

  /** The lease was taken for this authorization, and both are for this runner. */
  ghost predicate TakenFor(l: CapacityLease, auth: PhysicalAttemptAuthorization, runner: RunnerCapabilities) {
    && l.runnerId == auth.request.runnerId == runner.runnerId
    && l.runnerCapabilityDigest == auth.request.runnerCapabilityDigest == Sha256(runner)
    && l.authorizationId == StableId(auth) && l.authorizationDigest == Sha256(auth)
    && (l.invocationId, l.physicalAttempt) == (auth.request.invocationId, auth.physicalAttempt)
    && (l.sessionId, l.logicalAttempt) == (auth.request.sessionId, auth.request.attempt)
  }

  /** The intent repeats the lease by id, digest and identity. */
  ghost predicate NamesLease(intent: DispatchIntent, l: CapacityLease) {
    && intent.leaseId == StableId(l) && intent.leaseDigest == Sha256(l)
    && (intent.authorizationId, intent.authorizationDigest) == (l.authorizationId, l.authorizationDigest)
    && (intent.invocationId, intent.physicalAttempt) == (l.invocationId, l.physicalAttempt)
    && (intent.sessionId, intent.logicalAttempt) == (l.sessionId, l.logicalAttempt)
  }

  /** An intent is prepared if and only if the state is canonical and the lease active, exactly as given, and taken for
      this authorization on this runner; it repeats both and names the state. */
  lemma IntentPreparedExactly(s: RunnerCapacityState, runner: RunnerCapabilities, lease: CapacityLease,
                              auth: PhysicalAttemptAuthorization)
    ensures var r := PrepareDispatchIntent(s, runner, lease, auth);
            && (r.Success? <==> Replays(s, runner) && lease in s.ActiveLeases() && TakenFor(lease, auth, runner))
            && (r.Success? ==>
                  && NamesLease(r.value, lease) && r.value.slot == lease.slot
                  && r.value.runnerId == runner.runnerId && r.value.runnerCapabilityDigest == Sha256(runner)
                  && r.value.requestDigest == Sha256(auth.request) && r.value.capacityStateDigest == Sha256(s))
  {
    hide Replay, LeasesIn, ReleasesIn, Unreleased, Matches, AllocatorSafe;
    if Replays(s, runner) {
      CanonicalStateSafe(runner, s.transitions);
      SingleMatch(s, lease);
    }
  }

  /** It validates later if and only if the state is canonical for its runner and a lease it names is active. */
  lemma IntentValidatesExactly(intent: DispatchIntent, s: RunnerCapacityState, runner: RunnerCapabilities)
    ensures var r := ValidateIntent(intent, s, runner);
            && (r.Success? <==>
                  && Replays(s, runner)
                  && intent.runnerId == runner.runnerId && intent.runnerCapabilityDigest == Sha256(runner)
                  && exists l <- s.ActiveLeases() :: NamesLease(intent, l))
            && (r.Success? ==> NamesLease(intent, r.value) && r.value in s.ActiveLeases())
  {
    hide Replay, LeasesIn, ReleasesIn, Unreleased, Matches, AllocatorSafe;
    if Replays(s, runner) {
      CanonicalStateSafe(runner, s.transitions);
      OneActiveMatch(s, intent.leaseId, intent.leaseDigest);
    }
  }

  // ---------------------------------------------------------------- submissions

  /** The permit repeats the submitted intent and its state. */
  ghost predicate PermitsState(permit: DispatchPermit, state: IntentState) {
    && state.SubmissionUnknown?
    && permit == DispatchPermit(StableId(state.intent), Sha256(state.intent), Sha256(state), state.intent.invocationId,
                                state.intent.requestDigest, state.intent.authorizationId, state.intent.authorizationDigest)
  }

  /** In every run a submission begins if and only if the caller names the prepared state and the durable head of the
      intent's runner has a lease active that the intent names.  It makes the state unknown and permits that state. */
  lemma SubmitsExactly(steps: seq<Step>, id: IntentId, expected: Digest<IntentState>, runner: RunnerCapabilities)
    requires id in After(steps).intents
    ensures var w := After(steps);
            var state, (after, r) := w.intents[id].state, BeginAloneTx(w.intents, w.heads, id, expected, runner);
            && (r.Success? <==>
                  && state.Prepared? && expected == Sha256(state)
                  && runner.runnerId == state.intent.runnerId && Sha256(runner) == state.intent.runnerCapabilityDigest
                  && runner.runnerId in w.heads && w.heads[runner.runnerId].capabilityDigest == Sha256(runner)
                  && exists l <- History(w.heads, runner.runnerId).ActiveLeases() :: NamesLease(state.intent, l))
            && (r.Success? ==>
                  var begun := SubmissionUnknown(state.intent, Sha256(Prepared(state.intent)));
                  && r.value.0 == begun && PermitsState(r.value.1, begun)
                  && after == w.intents[id := IntentRow(id, state.intent.runnerId, state.intent.leaseId, Sha256(begun), 1, begun)])
            && (r.Failure? ==> after == w.intents)
  {
    hide After, Inv, LeasesIn, ReleasesIn, Unreleased, BeginAloneTx, LeaseKnown, OutcomesAgree, ClientOk, BegunOk, ReturnOk;
    SubmissionBeginsExactly(steps, id, expected, runner);
    RunKeepsInv(steps);
    InvStores(After(steps));
  }

  // ---------------------------------------------------------------- observed outcomes

  /** The outcome is of the authorization the intent was prepared for. */
  ghost predicate Answers(auth: PhysicalAttemptAuthorization, intent: DispatchIntent) {
    && StableId(auth) == intent.authorizationId && Sha256(auth) == intent.authorizationDigest
    && Sha256(auth.request) == intent.requestDigest
    && (auth.request.runnerId, auth.request.runnerCapabilityDigest) == (intent.runnerId, intent.runnerCapabilityDigest)
    && (auth.request.sessionId, auth.request.attempt) == (intent.sessionId, intent.logicalAttempt)
    && (auth.request.invocationId, auth.physicalAttempt) == (intent.invocationId, intent.physicalAttempt)
  }

  /** The state is observed and names this outcome, its observation and its receipt. */
  ghost predicate ObservedAs(state: IntentState, outcome: PhysicalOutcomeBundle) {
    && state.Observed?
    && state == Observed(state.intent, state.previousStateDigest, outcome.receipt.providerInvocationId,
                         Sha256(outcome.observation), Sha256(outcome.receipt), Sha256(outcome), outcome.receipt.transportStatus)
  }

  /** The retained row repeats the intent and the outcome. */
  ghost predicate Retains(row: ObservedOutcome, state: IntentState, outcome: PhysicalOutcomeBundle) {
    row == ObservedOutcome(
      StableId(state.intent), Sha256(state), state.intent.runnerId, state.intent.leaseId, state.intent.leaseDigest,
      state.intent.authorizationId, state.intent.authorizationDigest, state.intent.invocationId, state.intent.requestDigest,
      state.intent.physicalAttempt, Sha256(outcome), Sha256(outcome.observation), Sha256(outcome.receipt),
      outcome.receipt.transportStatus, outcome)
  }

  lemma OutcomeMatchesExactly(state: IntentState, outcome: PhysicalOutcomeBundle)
    ensures OutcomeMatchesState(state, outcome) <==> ObservedAs(state, outcome) && Answers(outcome.authorization, state.intent)
  {
  }

  /** A retained outcome is read back exactly if it verifies, answers the intent, is what the state observed, and every
      column of its row repeats that. */
  lemma OutcomeDecodesExactly(row: ObservedOutcome, state: IntentState)
    ensures var r := DecodeOutcome(row, state);
            && (r.Success? <==>
                  && VerifyIntrinsicOutcome(row.outcome) && Answers(row.outcome.authorization, state.intent)
                  && ObservedAs(state, row.outcome) && Retains(row, state, row.outcome))
            && (r.Success? ==> r.value == row)
  {
    hide VerifyIntrinsicOutcome, OutcomeMatchesState, ObservedAs;
    OutcomeMatchesExactly(state, row.outcome);
  }

  /** In every run, the outcome of a submitted intent is recorded if and only if the caller names its state, the outcome
      verifies and answers the intent, and no other row has its authorization or its invocation.  Then intent and row
      change together, and otherwise neither does. */
  lemma RecordsExactly(steps: seq<Step>, id: IntentId, expected: Digest<IntentState>, ctx: ExecutionContext,
                       outcome: PhysicalOutcomeBundle)
    requires id in After(steps).intents && After(steps).intents[id].state.SubmissionUnknown?
    ensures var w := After(steps);
            var state, intent := w.intents[id].state, w.intents[id].state.intent;
            var (intents, outcomes, r) := RecordObservedTx(w.intents, w.outcomes, id, expected, ctx, outcome);
            && (r.Success? <==>
                  && expected == Sha256(state) && VerifyPhysicalOutcome(ctx, outcome) && Answers(outcome.authorization, intent)
                  && forall other <- w.outcomes :: && w.outcomes[other].authorizationId != intent.authorizationId
                                                  && w.outcomes[other].invocationId != intent.invocationId)
            && (r.Success? ==>
                  && ObservedAs(r.value, outcome) && r.value.intent == intent && r.value.previousStateDigest == Sha256(state)
                  && intents == w.intents[id := IntentRow(id, intent.runnerId, intent.leaseId, Sha256(r.value), 2, r.value)]
                  && id in outcomes && Retains(outcomes[id], r.value, outcome) && outcomes == w.outcomes[id := outcomes[id]])
            && (r.Failure? ==> intents == w.intents && outcomes == w.outcomes)
  {
    hide After, Inv, VerifyIntrinsicOutcome, VerifyDispatchRequest, OutcomeMatchesState, LeaseKnown, ValidHeads, ClientOk,
         BegunOk, ReturnOk;
    RunKeepsInv(steps);
    InvStores(After(steps));
    OutcomeMatchesExactly(ObservedState(After(steps).intents[id].state, outcome), outcome);
  }

  // ---------------------------------------------------------------- live permits

  ghost predicate LivePermitFor(live: LiveDispatchPermit, state: IntentState, permit: DispatchPermit, runner: RunnerCapabilities,
                                s: RunnerCapacityState)
  {
    exists head :: Heads(head, s) &&
      live == LiveDispatchPermit(
        StableId(state.intent), Sha256(state.intent), Sha256(state), Sha256(permit), runner.runnerId, Sha256(runner),
        Sha256(head), Sha256(s), Sha256(SnapshotPayload(s, Sha256(s))), s.generation, state.intent.leaseId,
        state.intent.leaseDigest, state.intent.authorizationId, state.intent.authorizationDigest,
        state.intent.invocationId, state.intent.requestDigest, state.intent.physicalAttempt)
  }

  /** On valid heads a live permit is given if and only if the outbox permit is the one for this submitted state and the
      runner's durable head has a lease active that the intent names; it repeats the state, the permit and the head. */
  lemma LivePermitExactly(heads: DurableCapacity.Heads, state: IntentState, permit: DispatchPermit, runner: RunnerCapabilities)
    requires ValidHeads(heads)
    ensures var r := AuthorizeLiveDispatch(heads, state, permit, runner);
            && (r.Success? <==>
                  && PermitsState(permit, state)
                  && state.intent.runnerId == runner.runnerId && state.intent.runnerCapabilityDigest == Sha256(runner)
                  && runner.runnerId in heads && heads[runner.runnerId].capabilityDigest == Sha256(runner)
                  && exists l <- History(heads, runner.runnerId).ActiveLeases() :: NamesLease(state.intent, l))
            && (r.Success? ==> LivePermitFor(r.value, state, permit, runner, History(heads, runner.runnerId)))
  {
    hide LeasesIn, ReleasesIn, Unreleased, Matches, LoadTx, AllocatorSafe, Replay, ValidHeads;
    LoadsExactly(heads, runner);
    if state.SubmissionUnknown? && LoadTx(heads, runner).Success? {
      var s := History(heads, runner.runnerId);
      OneActiveMatch(s, state.intent.leaseId, state.intent.leaseDigest);
      ActiveLeasesAreBound(s);
    }
  }

  lemma ActiveLeasesAreBound(s: RunnerCapacityState)
    requires AllocatorSafe(s)
    ensures forall l <- s.ActiveLeases() :: && l.runnerId == s.runnerId && l.runnerCapabilityDigest == s.runnerCapabilityDigest
                                           && s.generation >= 1
  {
    hide LeasesIn, ReleasesIn, Unreleased;
    UnreleasedMembers(s.Leases(), ReleasedIds(s.Releases()));
  }
}
