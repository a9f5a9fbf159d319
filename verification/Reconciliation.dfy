/** Reconciling a submission of unknown fate with the provider (src/general_execution/reconciliation.py). */
module Reconciliation {
  import opened Canonical
  import opened Physical
  import opened Capacity
  import opened AllocatorSafety
  import opened DurableCapacity
  import opened Dispatch
  import opened DispatchGuard
  import opened ExecutionRuns
  import opened ExecutionInvariant
  import opened ExecutionSafety

  datatype SameRequestSemantics = SameOperation | DuplicateRejected | MayDuplicate

  /** The idempotency key is always the invocation id, and another request under the same key is always rejected. */
  datatype ReconciliationContract = ReconciliationContract(
    provider: string, adapter: string, adapterVersion: string, lookupByInvocation: bool, requestDigestBound: bool,
    sameKeySameRequest: SameRequestSemantics, terminalEvidenceLookup: bool)
  {
    predicate ReconciliationCapable() { lookupByInvocation && requestDigestBound }

    predicate SafeIdempotentResubmission() { ReconciliationCapable() && sameKeySameRequest != MayDuplicate }
  }

  datatype ReconciliationQuery = ReconciliationQuery(
    intentId: IntentId, dispatchStateDigest: Digest<IntentState>, dispatchPermitDigest: Digest<DispatchPermit>,
    authorizationId: StableId<PhysicalAttemptAuthorization>,
    authorizationDigest: Digest<PhysicalAttemptAuthorization>, invocationId: string,
    requestDigest: Digest<AdapterDispatchRequest>, physicalAttempt: nat, runnerId: string,
    provider: string, adapter: string, adapterVersion: string, contractDigest: Digest<ReconciliationContract>)

  datatype ReconciliationStatus = Absent | Accepted | TerminalStatus | UnknownStatus

  datatype ReconciliationObservation = ReconciliationObservation(
    queryDigest: Digest<ReconciliationQuery>, invocationId: string, requestDigest: Digest<AdapterDispatchRequest>,
    provider: string, adapter: string, adapterVersion: string, status: ReconciliationStatus, evidenceDigest: string,
    providerInvocationId: Option<string>, terminalEvidenceDigest: Option<string>)

  datatype ReconciliationEvidence = ReconciliationEvidence(
    query: ReconciliationQuery, observation: ReconciliationObservation, contractDigest: Digest<ReconciliationContract>)

  datatype ReconciliationAction = ResubmitSameInvocation | PollExisting | AdmitTerminalEvidence | Hold

  datatype ReconciliationDecision = ReconciliationDecision(
    intentId: IntentId, dispatchStateDigest: Digest<IntentState>, invocationId: string,
    requestDigest: Digest<AdapterDispatchRequest>, evidenceDigest: Digest<ReconciliationEvidence>,
    contractDigest: Digest<ReconciliationContract>, status: ReconciliationStatus, action: ReconciliationAction,
    requiresFreshLivePermit: bool, livePermitDigest: Option<Digest<LiveDispatchPermit>>)

  datatype ReconciliationError =
    | NotSubmissionUnknown | PermitDoesNotReproduce | AuthorizationDoesNotReproduce | ContractMismatch | NotCapable
    | ContractBindingMismatch | QueryBindingMismatch | ObservationIdentityMismatch | TerminalEvidenceRequired
    | TerminalEvidenceUnsupported | EvidenceNotCurrent | LivePermitRequired | LivePermitStale

  predicate AuthorizationBinds(intent: DispatchIntent, auth: PhysicalAttemptAuthorization) {
    && StableId(auth) == intent.authorizationId && Sha256(auth) == intent.authorizationDigest
    && auth.request.invocationId == intent.invocationId && Sha256(auth.request) == intent.requestDigest
    && auth.request.runnerId == intent.runnerId
    && auth.request.runnerCapabilityDigest == intent.runnerCapabilityDigest
    && auth.request.sessionId == intent.sessionId && auth.request.attempt == intent.logicalAttempt
    && auth.physicalAttempt == intent.physicalAttempt
  }

  function CreateReconciliationQuery(state: IntentState, permit: DispatchPermit, auth: PhysicalAttemptAuthorization,
                                     contract: ReconciliationContract): Result<ReconciliationQuery, ReconciliationError>
  {
    if !state.SubmissionUnknown? then Failure(ReconciliationError.NotSubmissionUnknown)
    else if !VerifyDispatchPermit(state, permit) then Failure(ReconciliationError.PermitDoesNotReproduce)
    else if !AuthorizationBinds(state.intent, auth) then Failure(AuthorizationDoesNotReproduce)
    else if (contract.provider, contract.adapter, contract.adapterVersion)
         != (auth.request.provider, auth.request.adapter, auth.request.adapterVersion) then Failure(ContractMismatch)
    else if !contract.ReconciliationCapable() then Failure(NotCapable)
    else Success(ReconciliationQuery(
      StableId(state.intent), Sha256(state), Sha256(permit), StableId(auth), Sha256(auth), auth.request.invocationId,
      Sha256(auth.request), auth.physicalAttempt, auth.request.runnerId, auth.request.provider, auth.request.adapter,
      auth.request.adapterVersion, Sha256(contract)))
  }

  function AdmitReconciliationObservation(query: ReconciliationQuery, contract: ReconciliationContract,
                                          obs: ReconciliationObservation): Result<ReconciliationEvidence, ReconciliationError>
  {
    if query.contractDigest != Sha256(contract) then Failure(ContractBindingMismatch)
    else if obs.queryDigest != Sha256(query) then Failure(QueryBindingMismatch)
    else if (obs.invocationId, obs.requestDigest, obs.provider, obs.adapter, obs.adapterVersion)
         != (query.invocationId, query.requestDigest, query.provider, query.adapter, query.adapterVersion) then
      Failure(ReconciliationError.ObservationIdentityMismatch)
    else if obs.status == TerminalStatus && contract.terminalEvidenceLookup && obs.terminalEvidenceDigest.None? then
      Failure(TerminalEvidenceRequired)
    else if obs.status == TerminalStatus && !contract.terminalEvidenceLookup && obs.terminalEvidenceDigest.Some? then
      Failure(TerminalEvidenceUnsupported)
    else Success(ReconciliationEvidence(query, obs, Sha256(contract)))
  }

  function DecideReconciliation(state: IntentState, permit: DispatchPermit, auth: PhysicalAttemptAuthorization,
                                contract: ReconciliationContract, evidence: ReconciliationEvidence,
                                live: Option<LiveDispatchPermit>, heads: Option<Heads>, runner: Option<RunnerCapabilities>)
    : Result<ReconciliationDecision, ReconciliationError>
  {
    match CreateReconciliationQuery(state, permit, auth, contract)
    case Failure(e) => Failure(e)
    case Success(query) =>
      match AdmitReconciliationObservation(query, contract, evidence.observation)
      case Failure(e) => Failure(e)
      case Success(expected) =>
        var status := evidence.observation.status;
        var decision := ReconciliationDecision(
          StableId(state.intent), Sha256(state), state.intent.invocationId, state.intent.requestDigest,
          Sha256(evidence), Sha256(contract), status, Hold, false, None);
        if evidence != expected then Failure(EvidenceNotCurrent)
        else match status
          case Absent =>
            if !contract.SafeIdempotentResubmission() then Success(decision.(requiresFreshLivePermit := true))
            else if live.None? || heads.None? || runner.None? then Failure(LivePermitRequired)
            else if !VerifyLiveDispatchPermit(heads.value, state, permit, live.value, runner.value) then
              Failure(LivePermitStale)
            else Success(decision.(action := ResubmitSameInvocation, requiresFreshLivePermit := true,
                                   livePermitDigest := Some(Sha256(live.value))))
          case Accepted => Success(decision.(action := PollExisting))
          case TerminalStatus =>
            Success(if contract.terminalEvidenceLookup then decision.(action := AdmitTerminalEvidence) else decision)
          case UnknownStatus => Success(decision)
  }

  predicate AuthorizesResubmission(r: Result<ReconciliationDecision, ReconciliationError>) {
    r.Success? && r.value.action == ResubmitSameInvocation
  }

  /** What an authorised resubmission was checked against */
  lemma ResubmissionChecks(state: IntentState, permit: DispatchPermit, auth: PhysicalAttemptAuthorization,
                           contract: ReconciliationContract, evidence: ReconciliationEvidence,
                           live: Option<LiveDispatchPermit>, heads: Option<Heads>, runner: Option<RunnerCapabilities>)
    requires AuthorizesResubmission(DecideReconciliation(state, permit, auth, contract, evidence, live, heads, runner))
    ensures contract.SafeIdempotentResubmission() && evidence.observation.status == Absent
    ensures live.Some? && heads.Some? && runner.Some?
    ensures VerifyLiveDispatchPermit(heads.value, state, permit, live.value, runner.value)
    ensures Sha256(auth) == state.intent.authorizationDigest && Sha256(auth.request) == state.intent.requestDigest
    ensures evidence.observation.requestDigest == state.intent.requestDigest
  {
    hide VerifyLiveDispatchPermit, VerifyDispatchPermit;
  }

  lemma LivePermitLease(heads: Heads, state: IntentState, permit: DispatchPermit, runner: RunnerCapabilities)
    requires ValidHeads(heads) && AuthorizeLiveDispatch(heads, state, permit, runner).Success?
    ensures runner.runnerId in heads
    ensures exists l <- History(heads, runner.runnerId).ActiveLeases() ::
              StableId(l) == state.intent.leaseId && Sha256(l) == state.intent.leaseDigest
  {
    hide Replay, Matches, LeaseReproducesIntent, LeasesIn, ReleasesIn, Unreleased, VerifyDispatchPermit;
    LoadReadsHead(heads, runner);
    var active := History(heads, runner.runnerId).ActiveLeases();
    MatchesMember(active, state.intent.leaseId, state.intent.leaseDigest);
    var matches := Matches(active, state.intent.leaseId, state.intent.leaseDigest);
    assert matches[0] in matches;
  }

  /** In a run, a permit issued at some point authorises resubmission later only if nothing has been committed
      for its runner since, the contract makes resubmission idempotent, and the intent's lease is still held. */
  lemma ResubmissionNeedsCurrentHead(steps: seq<Step>, k: nat, state: IntentState, permit: DispatchPermit,
                                     auth: PhysicalAttemptAuthorization, contract: ReconciliationContract,
                                     evidence: ReconciliationEvidence, runner: RunnerCapabilities)
    requires k <= |steps| && AuthorizeLiveDispatch(After(steps[..k]).heads, state, permit, runner).Success?
    requires AuthorizesResubmission(
               DecideReconciliation(state, permit, auth, contract, evidence,
                                    Some(AuthorizeLiveDispatch(After(steps[..k]).heads, state, permit, runner).value),
                                    Some(After(steps).heads), Some(runner)))
    ensures contract.SafeIdempotentResubmission()
    ensures runner.runnerId in After(steps[..k]).heads && runner.runnerId in After(steps).heads
    ensures History(After(steps).heads, runner.runnerId) == History(After(steps[..k]).heads, runner.runnerId)
    ensures exists l <- History(After(steps).heads, runner.runnerId).ActiveLeases() ::
              StableId(l) == state.intent.leaseId && Sha256(l) == state.intent.leaseDigest
  {
    hide After, AuthorizeLiveDispatch, DecideReconciliation, AuthorizesResubmission, Inv;
    var live := AuthorizeLiveDispatch(After(steps[..k]).heads, state, permit, runner).value;
    ResubmissionChecks(state, permit, auth, contract, evidence, Some(live), Some(After(steps).heads), Some(runner));
    PermitUntilNextCommit(steps, k, state, permit, runner);
    RunKeepsInv(steps);
    InvStores(After(steps));
    LivePermitLease(After(steps).heads, state, permit, runner);
  }
}
