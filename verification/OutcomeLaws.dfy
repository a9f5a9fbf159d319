/**
  What binds a request to its context and an outcome to its request: a request is admissible exactly if it repeats
  its context, and an outcome verifies exactly if a provider response makes it.
 */
module OutcomeLaws {
  import opened Canonical
  import opened Physical

  /** The request repeats the session, the specification and the runner it is for. */
  ghost predicate RequestFits(ctx: ExecutionContext, request: AdapterDispatchRequest) {
    && ctx.bound
    && (request.sessionId, request.attempt) == (ctx.session.sessionId, ctx.session.attempt)
    && (request.specId, request.specDigest, request.remainder) == (ctx.specId, ctx.specDigest, ctx.remainder)
    && request.runnerId == ctx.runner.runnerId && request.runnerCapabilityDigest == Sha256(ctx.runner)
    && request.provider == ctx.runner.provider
    && (request.adapter, request.adapterVersion) == (ctx.runner.adapter, ctx.runner.adapterVersion)
  }

  lemma RequestVerifiesExactly(ctx: ExecutionContext, request: AdapterDispatchRequest)
    ensures VerifyDispatchRequest(ctx, request) <==> RequestFits(ctx, request)
  {
  }

  /** A result comes with a completed response and with no other, and it is of the request that was sent. */
  ghost predicate ResponseFits(c: ResponseContent) {
    && (c.result.Some? <==> c.transportStatus == Completed)
    && (c.result.Some? ==>
          var result, request := c.result.value, c.authorization.request;
          && (result.sessionId, result.attempt) == (request.sessionId, request.attempt)
          && (result.specId, result.specDigest) == (request.specId, request.specDigest)
          && result.runnerId == request.runnerId)
  }

  /** The observation, receipt and bundle that a response makes */
  function Observation(c: ResponseContent): PhysicalObservation {
    var auth := c.authorization;
    PhysicalObservation(StableId(auth), auth.request.invocationId, Sha256(auth.request), c.providerInvocationId,
                        c.transportStatus, c.result, c.failureCode, c.detailDigest, Sha256(c))
  }

  function Receipt(c: ResponseContent): PhysicalReceipt {
    var auth, request := c.authorization, c.authorization.request;
    PhysicalReceipt(
      StableId(auth), Sha256(auth), request.invocationId, Sha256(request), auth.physicalAttempt,
      auth.previousInvocationId, auth.previousReceiptDigest, request.sessionId, request.runnerId,
      request.provider, request.adapter, request.adapterVersion, c.providerInvocationId, c.transportStatus,
      Sha256(c), Sha256(Observation(c)),
      if c.transportStatus == Completed && c.result.Some? then Some(Sha256(c.result.value)) else None, c.failureCode)
  }

  function Bundle(c: ResponseContent): PhysicalOutcomeBundle {
    PhysicalOutcomeBundle(c.authorization, Observation(c), Receipt(c), c.result)
  }

  /** An outcome verifies if and only if it is what some fitting response to its authorization makes: there is no
      freedom in an observation, a receipt or a bundle beyond the response. */
  lemma VerifiesExactlyMade(o: PhysicalOutcomeBundle)
    ensures VerifyIntrinsicOutcome(o) <==> exists c :: ResponseFits(c) && o == Bundle(c)
  {
    var obs := o.observation;
    var c := ResponseContent(o.authorization, obs.providerInvocationId, obs.transportStatus, obs.result, obs.failureCode,
                             obs.detailDigest);
    if VerifyIntrinsicOutcome(o) {
      assert ResponseFits(c) && o == Bundle(c);
    }
    if c' :| ResponseFits(c') && o == Bundle(c') {
      assert c' == c;
    }
  }

  /** So the response digest alone fixes an outcome: two verified outcomes with the same one are the same. */
  lemma ResponseFixesOutcome(a: PhysicalOutcomeBundle, b: PhysicalOutcomeBundle)
    requires VerifyIntrinsicOutcome(a) && VerifyIntrinsicOutcome(b)
    requires a.receipt.responseDigest == b.receipt.responseDigest || a.receipt.observationDigest == b.receipt.observationDigest
    ensures a == b
  {
    hide VerifyIntrinsicOutcome;
    VerifiesExactlyMade(a);
    VerifiesExactlyMade(b);
  }

  /** A first attempt is authorised for every bound context, and a retry exactly after a verified outcome of the
      context that was not completed; it counts one up and names the attempt it retries. */
  lemma AuthorizesExactly(ctx: ExecutionContext, prior: PhysicalOutcomeBundle, invocationId: string)
    ensures var first, retry := AuthorizePhysicalAttempt(ctx, invocationId), AuthorizeRetry(ctx, prior, invocationId);
            && (first.Success? <==> ctx.bound)
            && (first.Success? ==>
                  && RequestFits(ctx, first.value.request) && first.value.request.invocationId == invocationId
                  && first.value.physicalAttempt == 1
                  && first.value.previousInvocationId.None? && first.value.previousReceiptDigest.None?)
            && (retry.Success? <==> VerifyPhysicalOutcome(ctx, prior) && prior.receipt.transportStatus != Completed)
            && (retry.Success? ==>
                  && RequestFits(ctx, retry.value.request) && retry.value.request.invocationId == invocationId
                  && retry.value.physicalAttempt == prior.authorization.physicalAttempt + 1
                  && retry.value.previousInvocationId == Some(prior.authorization.request.invocationId)
                  && retry.value.previousReceiptDigest == Some(Sha256(prior.receipt)))
  {
    hide VerifyIntrinsicOutcome;
  }

  /** Admission makes the bundle of the response observed, if the request is admissible and the observation and its
      result fit. */
  lemma AdmitsExactly(ctx: ExecutionContext, auth: PhysicalAttemptAuthorization, obs: PhysicalObservation)
    ensures var r := AdmitPhysicalObservation(ctx, auth, obs);
            var c := ResponseContent(auth, obs.providerInvocationId, obs.transportStatus, obs.result, obs.failureCode, obs.detailDigest);
            && (r.Success? <==> RequestFits(ctx, auth.request) && ResponseFits(c) && obs == Observation(c))
            && (r.Success? ==> r.value == Bundle(c))
  {
  }
}
