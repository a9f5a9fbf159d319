/** What reconciliation asks, admits and decides, in terms of the submission, the contract and the provider's answer. */
module ReconciliationLaws {
  import opened Canonical
  import opened Physical
  import opened DurableCapacity
  import opened Dispatch
  import opened DispatchGuard
  import opened Reconciliation
  import opened DispatchLaws

  /** The submission's fate is unknown, the permit is its own, and it was made for this authorization. */
  ghost predicate Submitted(state: IntentState, permit: DispatchPermit, auth: PhysicalAttemptAuthorization) {
    PermitsState(permit, state) && Answers(auth, state.intent)
  }

  /** The contract is the one of the adapter that was used, and that adapter can look an invocation up by its request. */
  ghost predicate Covers(contract: ReconciliationContract, auth: PhysicalAttemptAuthorization) {
    && contract.provider == auth.request.provider && contract.adapter == auth.request.adapter
    && contract.adapterVersion == auth.request.adapterVersion
    && contract.lookupByInvocation && contract.requestDigestBound
  }

  /** The contract promises that the same request under the same key has no second effect. */
  ghost predicate Idempotent(contract: ReconciliationContract) {
    contract.sameKeySameRequest == SameOperation || contract.sameKeySameRequest == DuplicateRejected
  }

  /** The question about a submission */
  ghost predicate Asks(query: ReconciliationQuery, state: IntentState, permit: DispatchPermit,
                       auth: PhysicalAttemptAuthorization, contract: ReconciliationContract)
  {
    && query.intentId == StableId(state.intent) && query.dispatchStateDigest == Sha256(state)
    && query.dispatchPermitDigest == Sha256(permit)
    && query.authorizationId == StableId(auth) && query.authorizationDigest == Sha256(auth)
    && query.requestDigest == Sha256(auth.request)
    && (query.invocationId, query.runnerId) == (auth.request.invocationId, auth.request.runnerId)
    && query.physicalAttempt == auth.physicalAttempt
    && (query.provider, query.adapter, query.adapterVersion)
       == (auth.request.provider, auth.request.adapter, auth.request.adapterVersion)
    && query.contractDigest == Sha256(contract)
  }

  lemma AsksExactly(state: IntentState, permit: DispatchPermit, auth: PhysicalAttemptAuthorization,
                    contract: ReconciliationContract)
    ensures var r := CreateReconciliationQuery(state, permit, auth, contract);
            && (r.Success? <==> Submitted(state, permit, auth) && Covers(contract, auth))
            && (r.Success? ==> Asks(r.value, state, permit, auth, contract))
  {
  }

  /** The provider's answer is to this question, and it brings terminal evidence exactly as far as the contract lets it:
      if the contract supports it a terminal answer must, and otherwise a terminal answer must not. */
  ghost predicate Replies(obs: ReconciliationObservation, query: ReconciliationQuery, contract: ReconciliationContract) {
    && obs.queryDigest == Sha256(query) && query.contractDigest == Sha256(contract)
    && (obs.invocationId, obs.requestDigest) == (query.invocationId, query.requestDigest)
    && (obs.provider, obs.adapter, obs.adapterVersion) == (query.provider, query.adapter, query.adapterVersion)
    && (obs.status == TerminalStatus ==> (obs.terminalEvidenceDigest.Some? <==> contract.terminalEvidenceLookup))
  }

  lemma AdmitsExactly(query: ReconciliationQuery, contract: ReconciliationContract, obs: ReconciliationObservation)
    ensures var r := AdmitReconciliationObservation(query, contract, obs);
            && (r.Success? <==> Replies(obs, query, contract))
            && (r.Success? ==> r.value == ReconciliationEvidence(query, obs, Sha256(contract)))
  {
  }

  /** The evidence is the current one: an answer to the question about this submission as it stands. */
  ghost predicate Current(evidence: ReconciliationEvidence, state: IntentState, permit: DispatchPermit,
                          auth: PhysicalAttemptAuthorization, contract: ReconciliationContract)
  {
    && Asks(evidence.query, state, permit, auth, contract)
    && Replies(evidence.observation, evidence.query, contract)
    && evidence.contractDigest == Sha256(contract)
  }

  /** A decision is made if and only if the evidence is current, and a live permit is at hand when an absent submission
      may be repeated.  It repeats the submission, the evidence and the contract; and it resubmits exactly if the
      provider knows nothing and the contract is idempotent, polls exactly an accepted operation, and admits terminal
      evidence exactly if the contract supports it.  Otherwise it holds. */
  lemma DecidesExactly(state: IntentState, permit: DispatchPermit, auth: PhysicalAttemptAuthorization,
                       contract: ReconciliationContract, evidence: ReconciliationEvidence, live: Option<LiveDispatchPermit>,
                       heads: Option<DurableCapacity.Heads>, runner: Option<RunnerCapabilities>)
    ensures var r := DecideReconciliation(state, permit, auth, contract, evidence, live, heads, runner);
            var status := evidence.observation.status;
            var repeats := status == Absent && Idempotent(contract);
            && (r.Success? <==>
                  && Submitted(state, permit, auth) && Covers(contract, auth) && Current(evidence, state, permit, auth, contract)
                  && (repeats ==> live.Some? && heads.Some? && runner.Some?
                                  && VerifyLiveDispatchPermit(heads.value, state, permit, live.value, runner.value)))
            && (r.Success? ==>
                  var d := r.value;
                  && d.intentId == StableId(state.intent) && d.dispatchStateDigest == Sha256(state)
                  && d.invocationId == auth.request.invocationId && d.requestDigest == Sha256(auth.request)
                  && d.evidenceDigest == Sha256(evidence) && d.contractDigest == Sha256(contract) && d.status == status
                  && (d.action == ResubmitSameInvocation <==> repeats)
                  && (d.action == PollExisting <==> status == Accepted)
                  && (d.action == AdmitTerminalEvidence <==> status == TerminalStatus && contract.terminalEvidenceLookup)
                  && (d.requiresFreshLivePermit <==> status == Absent)
                  && d.livePermitDigest == (if repeats then Some(Sha256(live.value)) else None))
  {
    hide VerifyLiveDispatchPermit, VerifyDispatchPermit, CreateReconciliationQuery, AdmitReconciliationObservation, Replies,
         AuthorizationBinds;
    AsksExactly(state, permit, auth, contract);
    var asked := CreateReconciliationQuery(state, permit, auth, contract);
    if asked.Success? {
      AdmitsExactly(asked.value, contract, evidence.observation);
      AdmitsExactly(evidence.query, contract, evidence.observation);
      OneQuestion(asked.value, evidence.query, state, permit, auth, contract);
    }
  }

  lemma OneQuestion(a: ReconciliationQuery, b: ReconciliationQuery, state: IntentState, permit: DispatchPermit,
                    auth: PhysicalAttemptAuthorization, contract: ReconciliationContract)
    ensures Asks(a, state, permit, auth, contract) && Asks(b, state, permit, auth, contract) ==> a == b
  {
  }
}
