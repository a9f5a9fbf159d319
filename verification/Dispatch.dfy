/**
  The dispatch outbox (src/general_execution/dispatch.py) and the observed-outcome table that shares
  its database (src/general_execution/observed.py).
 */
module Dispatch {
  import opened Canonical
  import opened Physical
  import opened Capacity
  import opened CapacityGrants
  import opened DurableCapacity

  datatype DispatchIntent = DispatchIntent(
    runnerId: string, runnerCapabilityDigest: Digest<RunnerCapabilities>,
    leaseId: StableId<CapacityLease>, leaseDigest: Digest<CapacityLease>, slot: nat,
    sessionId: string, logicalAttempt: nat,
    authorizationId: StableId<PhysicalAttemptAuthorization>,
    authorizationDigest: Digest<PhysicalAttemptAuthorization>,
    invocationId: string, requestDigest: Digest<AdapterDispatchRequest>, physicalAttempt: nat,
    capacityStateDigest: Digest<RunnerCapacityState>)

  type IntentId = StableId<DispatchIntent>

  /** The three durable states with exactly the fields each may carry; the revision follows from the status. */
  datatype IntentState =
    | Prepared(intent: DispatchIntent)
    | SubmissionUnknown(intent: DispatchIntent, previousStateDigest: Digest<IntentState>)
    | Observed(intent: DispatchIntent, previousStateDigest: Digest<IntentState>,
               providerInvocationId: Option<string>, observationDigest: Digest<PhysicalObservation>,
               receiptDigest: Digest<PhysicalReceipt>, outcomeDigest: Digest<PhysicalOutcomeBundle>,
               transportStatus: TransportStatus)
  {
    function Revision(): nat {
      match this
      case Prepared(_) => 0
      case SubmissionUnknown(_, _) => 1
      case Observed(_, _, _, _, _, _, _) => 2
    }

    predicate Follows(previous: IntentState) {
      && intent == previous.intent
      && Revision() == previous.Revision() + 1
      && !Prepared?
      && previousStateDigest == Sha256(previous)
    }
  }

  datatype IntentRow = IntentRow(intentId: IntentId, runnerId: string, leaseId: StableId<CapacityLease>,
                                 stateDigest: Digest<IntentState>, revision: nat, state: IntentState)

  /** The retained outcome; its table row has the same columns. */
  datatype ObservedOutcome = ObservedOutcome(
    intentId: IntentId, dispatchStateDigest: Digest<IntentState>, runnerId: string,
    leaseId: StableId<CapacityLease>, leaseDigest: Digest<CapacityLease>,
    authorizationId: StableId<PhysicalAttemptAuthorization>,
    authorizationDigest: Digest<PhysicalAttemptAuthorization>,
    invocationId: string, requestDigest: Digest<AdapterDispatchRequest>, physicalAttempt: nat,
    outcomeDigest: Digest<PhysicalOutcomeBundle>, observationDigest: Digest<PhysicalObservation>,
    receiptDigest: Digest<PhysicalReceipt>, transportStatus: TransportStatus, outcome: PhysicalOutcomeBundle)

  type Intents = map<IntentId, IntentRow>
  type Outcomes = map<IntentId, ObservedOutcome>

  datatype DispatchError =
    | CapacityStateDoesNotReplay | LeaseNotActive | LeaseNotExact | AuthorizationMismatch
    | RunnerCapabilitiesChanged | LeaseNoLongerMatches | RowMetadataMismatch | IntentExists | LeaseHasIntent
    | IntentMissing | IntentIdentityChanged | StatePredecessorMismatch | StaleState | IntentSwapFailed
    | NotPrepared | CapacityHeadUnavailable | OutcomeDoesNotVerify | OutcomeBytesMissing | DifferentOutcome
    | NotSubmissionUnknown | OutcomeBytesPresent | OutcomeNotForIntent | OutcomeMetadataMismatch
    | UniquenessRejected | NotObserved | OutcomeNoLongerVerifies
    | OutcomePayloadInvalid | MultipleActiveMatches | DuplicateReleases | NeitherActiveNorReleased
    | Durable(durableError: DurableError) | Allocation(capacityError: CapacityError)

  // ---------------------------------------------------------------- intents against capacity

  function PrepareDispatchIntent(s: RunnerCapacityState, runner: RunnerCapabilities, lease: CapacityLease,
                                 auth: PhysicalAttemptAuthorization): Result<DispatchIntent, DispatchError>
  {
    if !Replays(s, runner) then Failure(CapacityStateDoesNotReplay)
    else
      var matches := Matches(s.ActiveLeases(), StableId(lease), Sha256(lease));
      if |matches| != 1 then Failure(LeaseNotActive)
      else if matches[0] != lease then Failure(LeaseNotExact)
      else if
        || lease.runnerId != runner.runnerId || lease.runnerCapabilityDigest != Sha256(runner)
        || lease.authorizationId != StableId(auth) || lease.authorizationDigest != Sha256(auth)
        || lease.invocationId != auth.request.invocationId || lease.physicalAttempt != auth.physicalAttempt
        || lease.sessionId != auth.request.sessionId || lease.logicalAttempt != auth.request.attempt
        || auth.request.runnerId != runner.runnerId || auth.request.runnerCapabilityDigest != Sha256(runner) then
        Failure(AuthorizationMismatch)
      else Success(DispatchIntent(
        runner.runnerId, Sha256(runner), StableId(lease), Sha256(lease), lease.slot, lease.sessionId,
        lease.logicalAttempt, StableId(auth), Sha256(auth), auth.request.invocationId, Sha256(auth.request),
        auth.physicalAttempt, Sha256(s)))
  }

  predicate IntentMatchesLease(intent: DispatchIntent, lease: CapacityLease) {
    && lease.authorizationId == intent.authorizationId
    && lease.authorizationDigest == intent.authorizationDigest
    && lease.invocationId == intent.invocationId
    && lease.physicalAttempt == intent.physicalAttempt
    && lease.sessionId == intent.sessionId
    && lease.logicalAttempt == intent.logicalAttempt
  }

  function ValidateIntent(intent: DispatchIntent, s: RunnerCapacityState, runner: RunnerCapabilities)
    : Result<CapacityLease, DispatchError>
  {
    if !Replays(s, runner) then Failure(CapacityStateDoesNotReplay)
    else if intent.runnerId != runner.runnerId || intent.runnerCapabilityDigest != Sha256(runner) then
      Failure(RunnerCapabilitiesChanged)
    else
      var matches := Matches(s.ActiveLeases(), intent.leaseId, intent.leaseDigest);
      if |matches| != 1 then Failure(LeaseNotActive)
      else if !IntentMatchesLease(intent, matches[0]) then Failure(LeaseNoLongerMatches)
      else Success(matches[0])
  }

  // ---------------------------------------------------------------- outbox transactions

  function EncodeIntent(state: IntentState): IntentRow {
    IntentRow(StableId(state.intent), state.intent.runnerId, state.intent.leaseId, Sha256(state), state.Revision(), state)
  }

  function DecodeIntent(row: IntentRow): Result<IntentState, DispatchError> {
    if row == EncodeIntent(row.state) then Success(row.state) else Failure(RowMetadataMismatch)
  }

  function LoadIntentTx(intents: Intents, id: IntentId): Result<IntentState, DispatchError> {
    if id !in intents then Failure(IntentMissing) else DecodeIntent(intents[id])
  }

  function InitializeIntentTx(intents: Intents, intent: DispatchIntent)
    : (Intents, Result<IntentState, DispatchError>)
  {
    var id, state := StableId(intent), Prepared(intent);
    if id in intents then
      match DecodeIntent(intents[id])
      case Failure(e) => (intents, Failure(e))
      case Success(existing) =>
        if existing != state then (intents, Failure(IntentExists)) else (intents, Success(existing))
    else if exists other <- intents :: intents[other].leaseId == intent.leaseId then (intents, Failure(LeaseHasIntent))
    else (intents[id := EncodeIntent(state)], Success(state))
  }

  function CommitIntentTx(intents: Intents, current: IntentState, next: IntentState)
    : (Intents, Result<IntentState, DispatchError>)
  {
    var id := StableId(current.intent);
    if next.intent != current.intent then (intents, Failure(IntentIdentityChanged))
    else if !next.Follows(current) then (intents, Failure(StatePredecessorMismatch))
    else if id !in intents then (intents, Failure(IntentMissing))
    else match DecodeIntent(intents[id])
      case Failure(e) => (intents, Failure(e))
      case Success(durable) =>
        if durable != current then (intents, Failure(StaleState))
        else (intents[id := EncodeIntent(next)], Success(next))
  }

  function BeginState(current: IntentState): IntentState { SubmissionUnknown(current.intent, Sha256(current)) }

  /** Proof that the outbox has entered submission_unknown; it is no transport authority of its own. */
  datatype DispatchPermit = DispatchPermit(
    intentId: IntentId, intentDigest: Digest<DispatchIntent>, stateDigest: Digest<IntentState>,
    invocationId: string, requestDigest: Digest<AdapterDispatchRequest>,
    authorizationId: StableId<PhysicalAttemptAuthorization>,
    authorizationDigest: Digest<PhysicalAttemptAuthorization>)

  function PermitFor(state: IntentState): Option<DispatchPermit> {
    if !state.SubmissionUnknown? then None
    else
      var intent := state.intent;
      Some(DispatchPermit(StableId(intent), Sha256(intent), Sha256(state), intent.invocationId, intent.requestDigest,
                          intent.authorizationId, intent.authorizationDigest))
  }

  // ---------------------------------------------------------------- observed outcomes

  /** `_verify_outcome_against_dispatch`: the intent and the observed state both bind this outcome. */
  predicate OutcomeMatchesState(state: IntentState, outcome: PhysicalOutcomeBundle) {
    && state.Observed?
    && var intent, auth, request, receipt :=
         state.intent, outcome.authorization, outcome.authorization.request, outcome.receipt;
       && intent.authorizationId == StableId(auth)
       && intent.authorizationDigest == Sha256(auth)
       && intent.invocationId == request.invocationId
       && intent.requestDigest == Sha256(request)
       && intent.runnerId == request.runnerId
       && intent.runnerCapabilityDigest == request.runnerCapabilityDigest
       && intent.sessionId == request.sessionId
       && intent.logicalAttempt == request.attempt
       && intent.physicalAttempt == auth.physicalAttempt
       && state.providerInvocationId == receipt.providerInvocationId
       && state.observationDigest == Sha256(outcome.observation)
       && state.receiptDigest == Sha256(receipt)
       && state.outcomeDigest == Sha256(outcome)
       && state.transportStatus == receipt.transportStatus
  }

  function RecordOf(state: IntentState, outcome: PhysicalOutcomeBundle): ObservedOutcome {
    var intent := state.intent;
    ObservedOutcome(
      StableId(intent), Sha256(state), intent.runnerId, intent.leaseId, intent.leaseDigest,
      intent.authorizationId, intent.authorizationDigest, intent.invocationId, intent.requestDigest,
      outcome.authorization.physicalAttempt, Sha256(outcome), Sha256(outcome.observation), Sha256(outcome.receipt),
      outcome.receipt.transportStatus, outcome)
  }

  function DecodeOutcome(row: ObservedOutcome, state: IntentState): Result<ObservedOutcome, DispatchError> {
    if !VerifyIntrinsicOutcome(row.outcome) then Failure(OutcomePayloadInvalid)
    else if !OutcomeMatchesState(state, row.outcome) then Failure(OutcomeNotForIntent)
    else if row != RecordOf(state, row.outcome) then Failure(OutcomeMetadataMismatch)
    else Success(row)
  }

  function LoadOutcomeRow(outcomes: Outcomes, state: IntentState, id: IntentId): Result<ObservedOutcome, DispatchError> {
    if !state.Observed? then Failure(if id in outcomes then OutcomeBytesPresent else NotObserved)
    else if id !in outcomes then Failure(OutcomeBytesMissing)
    else DecodeOutcome(outcomes[id], state)
  }

  function ObservedState(current: IntentState, outcome: PhysicalOutcomeBundle): IntentState {
    Observed(current.intent, Sha256(current), outcome.receipt.providerInvocationId, Sha256(outcome.observation),
             Sha256(outcome.receipt), Sha256(outcome), outcome.receipt.transportStatus)
  }

  predicate OutcomeForIntent(intent: DispatchIntent, outcome: PhysicalOutcomeBundle) {
    var auth := outcome.authorization;
    && StableId(auth) == intent.authorizationId
    && Sha256(auth) == intent.authorizationDigest
    && auth.request.invocationId == intent.invocationId
    && Sha256(auth.request) == intent.requestDigest
    && auth.request.runnerId == intent.runnerId
    && auth.request.runnerCapabilityDigest == intent.runnerCapabilityDigest
    && auth.physicalAttempt == intent.physicalAttempt
  }

  /** One transaction over both tables; a rejected attempt changes neither. */
  function RecordObservedTx(intents: Intents, outcomes: Outcomes, id: IntentId, expected: Digest<IntentState>,
                            ctx: ExecutionContext, outcome: PhysicalOutcomeBundle)
    : (Intents, Outcomes, Result<IntentState, DispatchError>)
  {
    if !VerifyPhysicalOutcome(ctx, outcome) then (intents, outcomes, Failure(OutcomeDoesNotVerify))
    else match LoadIntentTx(intents, id)
      case Failure(e) => (intents, outcomes, Failure(e))
      case Success(current) =>
        if current.Observed? then
          if expected != Sha256(current) && expected != current.previousStateDigest then
            (intents, outcomes, Failure(StaleState))
          else if id !in outcomes then (intents, outcomes, Failure(OutcomeBytesMissing))
          else match DecodeOutcome(outcomes[id], current)
            case Failure(e) => (intents, outcomes, Failure(e))
            case Success(existing) =>
              if existing.outcome != outcome then (intents, outcomes, Failure(DifferentOutcome))
              else (intents, outcomes, Success(current))
        else if expected != Sha256(current) then (intents, outcomes, Failure(StaleState))
        else if !current.SubmissionUnknown? then (intents, outcomes, Failure(NotSubmissionUnknown))
        else if id in outcomes then (intents, outcomes, Failure(OutcomeBytesPresent))
        else if !OutcomeForIntent(current.intent, outcome) then (intents, outcomes, Failure(OutcomeNotForIntent))
        else
          var next := ObservedState(current, outcome);
          if !OutcomeMatchesState(next, outcome) then (intents, outcomes, Failure(OutcomeNotForIntent))
          else
            var record := RecordOf(next, outcome);
            if exists other <- outcomes :: outcomes[other].authorizationId == record.authorizationId
                                        || outcomes[other].invocationId == record.invocationId then
              (intents, outcomes, Failure(UniquenessRejected))
            else (intents[id := EncodeIntent(next)], outcomes[id := record], Success(next))
  }

  // ---------------------------------------------------------------- releasing an observed lease

  datatype ReleaseRecovery = ReleaseRecovery(
    intentId: IntentId, outcomeDigest: Digest<PhysicalOutcomeBundle>, releaseDigest: Digest<CapacityRelease>,
    stateDigest: Digest<RunnerCapacityState>, generation: nat, head: DurableHead, idempotent: bool)

  predicate LeaseMatchesRecord(l: CapacityLease, record: ObservedOutcome) {
    && StableId(l) == record.leaseId
    && Sha256(l) == record.leaseDigest
    && l.authorizationId == record.authorizationId
    && l.authorizationDigest == record.authorizationDigest
    && l.invocationId == record.invocationId
    && l.physicalAttempt == record.physicalAttempt
  }

  function MatchingLeases(active: seq<CapacityLease>, record: ObservedOutcome): seq<CapacityLease> {
    if active == [] then [] else
      var l := active[|active| - 1];
      MatchingLeases(active[..|active| - 1], record) + if LeaseMatchesRecord(l, record) then [l] else []
  }

  predicate ReleaseMatchesRecord(r: CapacityRelease, record: ObservedOutcome) {
    && r.leaseId == record.leaseId
    && r.leaseDigest == record.leaseDigest
    && r.authorizationId == record.authorizationId
    && r.authorizationDigest == record.authorizationDigest
    && r.invocationId == record.invocationId
    && r.physicalAttempt == record.physicalAttempt
    && r.cause == TerminalOutcome(record.outcomeDigest, record.receiptDigest, record.transportStatus)
  }

  function MatchingReleases(releases: seq<CapacityRelease>, record: ObservedOutcome): seq<CapacityRelease> {
    if releases == [] then [] else
      var r := releases[|releases| - 1];
      MatchingReleases(releases[..|releases| - 1], record) + if ReleaseMatchesRecord(r, record) then [r] else []
  }

  /** The idempotent answer, if the exact release is already canonical. */
  function AlreadyReleased(s: RunnerCapacityState, record: ObservedOutcome)
    : Result<Option<ReleaseRecovery>, DispatchError>
  {
    var matches := MatchingReleases(s.Releases(), record);
    if |matches| > 1 then Failure(DuplicateReleases)
    else if |matches| == 0 then Success(None)
    else Success(Some(ReleaseRecovery(record.intentId, record.outcomeDigest, Sha256(matches[0]), Sha256(s),
                                      s.generation, HeadOf(s), true)))
  }

  /** The decision taken on one capacity snapshot: answer at once, or try to commit a release. */
  datatype ReleasePlan =
    | Refuse(error: DispatchError)
    | Answer(recovery: ReleaseRecovery)
    | CommitRelease(current: RunnerCapacityState, next: RunnerCapacityState, grant: ReleaseGrant)

  function PlanRelease(s: RunnerCapacityState, ctx: ExecutionContext, record: ObservedOutcome): ReleasePlan {
    var active := MatchingLeases(s.ActiveLeases(), record);
    if |active| > 1 then Refuse(MultipleActiveMatches)
    else if |active| == 0 then
      match AlreadyReleased(s, record)
      case Failure(e) => Refuse(e)
      case Success(None) => Refuse(NeitherActiveNorReleased)
      case Success(Some(recovery)) => Answer(recovery)
    else match ReleaseForOutcome(s, ctx, active[0], record.outcome)
      case Failure(e) => Refuse(Allocation(e))
      case Success(pair) => CommitRelease(s, pair.0, pair.1)
  }

  function CommittedRecovery(record: ObservedOutcome, next: RunnerCapacityState, grant: ReleaseGrant,
                             head: DurableHead): ReleaseRecovery
  {
    ReleaseRecovery(record.intentId, record.outcomeDigest, Sha256(grant.release), Sha256(next), next.generation,
                    head, false)
  }
}
