/**
  Physical attempts: authorizations, observations, receipts and retry chains
  (src/general_execution/physical.py), over the request binding of adapter.py.
 */
module Physical {
  import opened Canonical

  datatype TransportStatus = Completed | Rejected | TimedOut | Cancelled | TransportFailed

  datatype RunnerCapabilities = RunnerCapabilities(
    runnerId: string, provider: string, adapter: string, adapterVersion: string,
    capabilities: seq<string>, maxParallelism: nat)

  datatype SessionState = Bound | Running | ResultSubmitted | Revoked

  datatype ExecutionSession = ExecutionSession(
    sessionId: string, runnerId: string, runnerCapabilityDigest: Digest<RunnerCapabilities>,
    attempt: nat, state: SessionState)

  /** `remainder` stands for the plan, registry, mode and spec fields, which are only ever compared. */
  datatype AdapterDispatchRequest = AdapterDispatchRequest(
    invocationId: string, sessionId: string, specId: string, specDigest: string,
    runnerId: string, runnerCapabilityDigest: Digest<RunnerCapabilities>,
    attempt: nat, provider: string, adapter: string, adapterVersion: string, remainder: string)

  datatype ResultEnvelope = ResultEnvelope(
    sessionId: string, specId: string, specDigest: string, runnerId: string, attempt: nat, content: string)

  /** The spec, registry, plan, session and runner a caller supplies.  `bound` is the verdict of
      `_verify_static_binding` on them. */
  datatype ExecutionContext = ExecutionContext(
    bound: bool, specId: string, specDigest: string, remainder: string,
    session: ExecutionSession, runner: RunnerCapabilities)

  function BuildDispatchRequest(ctx: ExecutionContext, invocationId: string): Option<AdapterDispatchRequest> {
    if !ctx.bound then None
    else Some(AdapterDispatchRequest(
      invocationId, ctx.session.sessionId, ctx.specId, ctx.specDigest,
      ctx.runner.runnerId, Sha256(ctx.runner), ctx.session.attempt,
      ctx.runner.provider, ctx.runner.adapter, ctx.runner.adapterVersion, ctx.remainder))
  }

  predicate VerifyDispatchRequest(ctx: ExecutionContext, request: AdapterDispatchRequest) {
    BuildDispatchRequest(ctx, request.invocationId) == Some(request)
  }

  datatype PhysicalAttemptAuthorization = PhysicalAttemptAuthorization(
    request: AdapterDispatchRequest, physicalAttempt: nat,
    previousInvocationId: Option<string>, previousReceiptDigest: Option<Digest<PhysicalReceipt>>)

  /** What `_response_digest` hashes. */
  datatype ResponseContent = ResponseContent(
    authorization: PhysicalAttemptAuthorization, providerInvocationId: Option<string>,
    transportStatus: TransportStatus, result: Option<ResultEnvelope>,
    failureCode: Option<string>, detailDigest: Option<string>)

  datatype PhysicalObservation = PhysicalObservation(
    authorizationId: StableId<PhysicalAttemptAuthorization>, invocationId: string,
    requestDigest: Digest<AdapterDispatchRequest>, providerInvocationId: Option<string>,
    transportStatus: TransportStatus, result: Option<ResultEnvelope>,
    failureCode: Option<string>, detailDigest: Option<string>,
    responseDigest: Digest<ResponseContent>)
  {
    /** What the constructor of an observation insists on */
    predicate WellFormed() {
      if transportStatus == Completed then result.Some? && failureCode.None? && providerInvocationId.Some?
      else result.None? && failureCode.Some?
    }
  }

  datatype PhysicalReceipt = PhysicalReceipt(
    authorizationId: StableId<PhysicalAttemptAuthorization>,
    authorizationDigest: Digest<PhysicalAttemptAuthorization>,
    invocationId: string, requestDigest: Digest<AdapterDispatchRequest>, physicalAttempt: nat,
    previousInvocationId: Option<string>, previousReceiptDigest: Option<Digest<PhysicalReceipt>>,
    sessionId: string, runnerId: string, provider: string, adapter: string, adapterVersion: string,
    providerInvocationId: Option<string>, transportStatus: TransportStatus,
    responseDigest: Digest<ResponseContent>, observationDigest: Digest<PhysicalObservation>,
    resultDigest: Option<Digest<ResultEnvelope>>, failureCode: Option<string>)

  datatype PhysicalOutcomeBundle = PhysicalOutcomeBundle(
    authorization: PhysicalAttemptAuthorization, observation: PhysicalObservation,
    receipt: PhysicalReceipt, result: Option<ResultEnvelope>)

  datatype PhysicalError = PriorNotAdmissible | RetryAfterCompleted | RequestNotAdmissible
    | ObservationNotBound | OutcomeVerificationFailed | StaticBindingFailed

  predicate VerifyResultBinding(request: AdapterDispatchRequest, result: ResultEnvelope) {
    && result.sessionId == request.sessionId
    && result.specId == request.specId
    && result.specDigest == request.specDigest
    && result.runnerId == request.runnerId
    && result.attempt == request.attempt
  }

  function ExpectedResponse(auth: PhysicalAttemptAuthorization, obs: PhysicalObservation): Digest<ResponseContent> {
    Sha256(ResponseContent(auth, obs.providerInvocationId, obs.transportStatus, obs.result, obs.failureCode,
                           obs.detailDigest))
  }

  predicate VerifyObservation(auth: PhysicalAttemptAuthorization, obs: PhysicalObservation) {
    && obs.authorizationId == StableId(auth)
    && obs.invocationId == auth.request.invocationId
    && obs.requestDigest == Sha256(auth.request)
    && obs.responseDigest == ExpectedResponse(auth, obs)
    && (obs.result.Some? ==> VerifyResultBinding(auth.request, obs.result.value))
  }

  predicate VerifyIntrinsicOutcome(bundle: PhysicalOutcomeBundle) {
    var auth, obs, receipt, request :=
      bundle.authorization, bundle.observation, bundle.receipt, bundle.authorization.request;
    && obs.result == bundle.result
    && VerifyObservation(auth, obs)
    && receipt.authorizationId == StableId(auth)
    && receipt.authorizationDigest == Sha256(auth)
    && receipt.invocationId == request.invocationId
    && receipt.requestDigest == Sha256(request)
    && receipt.physicalAttempt == auth.physicalAttempt
    && receipt.previousInvocationId == auth.previousInvocationId
    && receipt.previousReceiptDigest == auth.previousReceiptDigest
    && receipt.sessionId == request.sessionId
    && receipt.runnerId == request.runnerId
    && receipt.provider == request.provider
    && receipt.adapter == request.adapter
    && receipt.adapterVersion == request.adapterVersion
    && receipt.providerInvocationId == obs.providerInvocationId
    && receipt.transportStatus == obs.transportStatus
    && receipt.responseDigest == obs.responseDigest
    && receipt.observationDigest == Sha256(obs)
    && receipt.failureCode == obs.failureCode
    && (if obs.transportStatus == Completed then
          && bundle.result.Some?
          && receipt.resultDigest == Some(Sha256(bundle.result.value))
          && VerifyResultBinding(request, bundle.result.value)
        else
          bundle.result.None? && receipt.resultDigest.None?)
  }

  predicate VerifyPhysicalOutcome(ctx: ExecutionContext, bundle: PhysicalOutcomeBundle) {
    VerifyDispatchRequest(ctx, bundle.authorization.request) && VerifyIntrinsicOutcome(bundle)
  }

  function AuthorizePhysicalAttempt(ctx: ExecutionContext, invocationId: string)
    : Result<PhysicalAttemptAuthorization, PhysicalError>
  {
    match BuildDispatchRequest(ctx, invocationId)
    case None => Failure(StaticBindingFailed)
    case Some(request) => Success(PhysicalAttemptAuthorization(request, 1, None, None))
  }

  function AuthorizeRetry(ctx: ExecutionContext, prior: PhysicalOutcomeBundle, invocationId: string)
    : Result<PhysicalAttemptAuthorization, PhysicalError>
  {
    if !VerifyPhysicalOutcome(ctx, prior) then Failure(PriorNotAdmissible)
    else if prior.receipt.transportStatus == Completed then Failure(RetryAfterCompleted)
    else match BuildDispatchRequest(ctx, invocationId)
      case None => Failure(StaticBindingFailed)
      case Some(request) => Success(PhysicalAttemptAuthorization(
        request, prior.authorization.physicalAttempt + 1,
        Some(prior.authorization.request.invocationId), Some(Sha256(prior.receipt))))
  }

  function ReceiptFor(auth: PhysicalAttemptAuthorization, obs: PhysicalObservation): PhysicalReceipt {
    var request := auth.request;
    PhysicalReceipt(
      StableId(auth), Sha256(auth), request.invocationId, Sha256(request), auth.physicalAttempt,
      auth.previousInvocationId, auth.previousReceiptDigest, request.sessionId, request.runnerId,
      request.provider, request.adapter, request.adapterVersion, obs.providerInvocationId, obs.transportStatus,
      obs.responseDigest, Sha256(obs),
      if obs.result.Some? then Some(Sha256(obs.result.value)) else None, obs.failureCode)
  }

  function AdmitPhysicalObservation(ctx: ExecutionContext, auth: PhysicalAttemptAuthorization, obs: PhysicalObservation)
    : Result<PhysicalOutcomeBundle, PhysicalError>
  {
    if !VerifyDispatchRequest(ctx, auth.request) then Failure(RequestNotAdmissible)
    else if !VerifyObservation(auth, obs) then Failure(ObservationNotBound)
    else
      var bundle := PhysicalOutcomeBundle(auth, obs, ReceiptFor(auth, obs), obs.result);
      if !VerifyPhysicalOutcome(ctx, bundle) then Failure(OutcomeVerificationFailed) else Success(bundle)
  }

  /** For a constructed observation the last check of `admit_physical_observation` cannot fail: admission
      succeeds exactly when request and observation are bound. */
  lemma AdmissionNeverFailsLate(ctx: ExecutionContext, auth: PhysicalAttemptAuthorization, obs: PhysicalObservation)
    requires obs.WellFormed()
    ensures AdmitPhysicalObservation(ctx, auth, obs).Success?
       <==> VerifyDispatchRequest(ctx, auth.request) && VerifyObservation(auth, obs)
  {
  }
}
