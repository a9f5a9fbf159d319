/** Retry chains (src/general_execution/physical.py, `verify_retry_chain`) and how they come about. */
module RetryChain {
  import opened Canonical
  import opened Physical

  function Base(o: PhysicalOutcomeBundle): (string, string, string, string, nat) {
    var r := o.authorization.request;
    (r.sessionId, r.specId, r.specDigest, r.runnerId, r.attempt)
  }

  function InvocationId(o: PhysicalOutcomeBundle): string { o.authorization.request.invocationId }

  function InvocationIds(outcomes: seq<PhysicalOutcomeBundle>): set<string> {
    set o <- outcomes :: InvocationId(o)
  }

  predicate First(o: PhysicalOutcomeBundle) {
    && VerifyIntrinsicOutcome(o)
    && o.authorization.physicalAttempt == 1
    && o.authorization.previousInvocationId.None? && o.authorization.previousReceiptDigest.None?
  }

  /** `o` retries `prior`: it is the next attempt at the same work and names the failed attempt's receipt. */
  predicate Retries(o: PhysicalOutcomeBundle, prior: PhysicalOutcomeBundle) {
    && VerifyIntrinsicOutcome(o)
    && Base(o) == Base(prior)
    && o.authorization.physicalAttempt == prior.authorization.physicalAttempt + 1
    && prior.receipt.transportStatus != Completed
    && o.authorization.previousInvocationId == Some(InvocationId(prior))
    && o.authorization.previousReceiptDigest == Some(Sha256(prior.receipt))
  }

  /** A first attempt followed by retries, each of the one before it, under invocation ids used only once */
  ghost predicate Chain(outcomes: seq<PhysicalOutcomeBundle>) {
    && outcomes != []
    && First(outcomes[0])
    && (forall i | 0 < i < |outcomes| :: Retries(outcomes[i], outcomes[i - 1]))
    && (forall i, j | 0 <= i < j < |outcomes| :: InvocationId(outcomes[i]) != InvocationId(outcomes[j]))
  }

  method VerifyRetryChain(outcomes: seq<PhysicalOutcomeBundle>) returns (ok: bool)
    ensures ok <==> Chain(outcomes)
  {
    hide VerifyIntrinsicOutcome, Chain;
    if outcomes == [] {
      ChainStarts(outcomes);
      return false;
    }
    var base := Base(outcomes[0]);
    var seen: set<string> := {};
    for index := 1 to |outcomes| + 1
      invariant index > 1 ==> Chain(outcomes[..index - 1])
      invariant seen == InvocationIds(outcomes[..index - 1])
    {
      var outcome := outcomes[index - 1];
      ghost var done := outcomes[..index - 1];
      assert outcomes[..index] == done + [outcome];
      ChainStarts(outcomes[..index]);
      IdsSnoc(done, outcome);
      if Chain(outcomes) {
        PrefixClosed(outcomes, index);
      }
      if index > 1 {
        ChainUnfolds(done, outcome);
        AttemptsCount(done);
      }
      var auth := outcome.authorization;
      if !VerifyIntrinsicOutcome(outcome) {
        return false;
      }
      if auth.physicalAttempt != index {
        return false;
      }
      if Base(outcome) != base {
        return false;
      }
      if auth.request.invocationId in seen {
        return false;
      }
      seen := seen + {auth.request.invocationId};
      if index == 1 {
        if auth.previousInvocationId.Some? || auth.previousReceiptDigest.Some? {
          return false;
        }
      } else {
        var prior := outcomes[index - 2];
        if prior.receipt.transportStatus == Completed {
          return false;
        }
        if auth.previousInvocationId != Some(InvocationId(prior)) {
          return false;
        }
        if auth.previousReceiptDigest != Some(Sha256(prior.receipt)) {
          return false;
        }
      }
    }
    assert outcomes[..|outcomes|] == outcomes;
    return true;
  }

  lemma IdsSnoc(outcomes: seq<PhysicalOutcomeBundle>, o: PhysicalOutcomeBundle)
    ensures InvocationIds(outcomes + [o]) == InvocationIds(outcomes) + {InvocationId(o)}
  {
    assert forall x <- outcomes + [o] :: x in outcomes || x == o;
    assert forall x <- outcomes :: x in outcomes + [o];
    assert o in outcomes + [o];
  }

  lemma ChainStarts(outcomes: seq<PhysicalOutcomeBundle>)
    ensures |outcomes| == 0 ==> !Chain(outcomes)
    ensures |outcomes| == 1 ==> (Chain(outcomes) <==> First(outcomes[0]))
  {
    hide VerifyIntrinsicOutcome;
  }

  /** Every non-empty prefix of a chain is a chain. */
  lemma PrefixClosed(outcomes: seq<PhysicalOutcomeBundle>, k: nat)
    requires Chain(outcomes) && 1 <= k <= |outcomes|
    ensures Chain(outcomes[..k])
  {
    hide VerifyIntrinsicOutcome;
    var prefix := outcomes[..k];
    forall i | 0 < i < k ensures Retries(prefix[i], prefix[i - 1]) {
      assert Retries(outcomes[i], outcomes[i - 1]);
    }
  }

  lemma {:induction false} AttemptsCount(outcomes: seq<PhysicalOutcomeBundle>)
    requires Chain(outcomes)
    ensures outcomes[|outcomes| - 1].authorization.physicalAttempt == |outcomes|
    ensures Base(outcomes[|outcomes| - 1]) == Base(outcomes[0])
  {
    hide VerifyIntrinsicOutcome;
    if |outcomes| > 1 {
      PrefixClosed(outcomes, |outcomes| - 1);
      AttemptsCount(outcomes[..|outcomes| - 1]);
      assert Retries(outcomes[|outcomes| - 1], outcomes[|outcomes| - 2]);
    }
  }

  /** Nothing follows a completed attempt. */
  lemma OnlyLastCompletes(outcomes: seq<PhysicalOutcomeBundle>)
    requires Chain(outcomes)
    ensures forall k | 0 <= k < |outcomes| - 1 :: outcomes[k].receipt.transportStatus != Completed
  {
    hide VerifyIntrinsicOutcome;
    forall k | 0 <= k < |outcomes| - 1 ensures outcomes[k].receipt.transportStatus != Completed {
      var next := k + 1;
      assert Retries(outcomes[next], outcomes[next - 1]);
    }
  }

  // ---------------------------------------------------------------- chains are what the protocol produces

  /** The outcomes of one execution context, obtained by authorizing a first attempt, then a retry after
      each outcome under an unused invocation id, and admitting an observation of every attempt. */
  ghost predicate Produced(ctx: ExecutionContext, outcomes: seq<PhysicalOutcomeBundle>) {
    && outcomes != []
    && var front, o := outcomes[..|outcomes| - 1], outcomes[|outcomes| - 1];
    && AdmitPhysicalObservation(ctx, o.authorization, o.observation) == Success(o)
    && (if front == [] then AuthorizePhysicalAttempt(ctx, InvocationId(o)) == Success(o.authorization)
        else
          && Produced(ctx, front)
          && InvocationId(o) !in InvocationIds(front)
          && AuthorizeRetry(ctx, front[|front| - 1], InvocationId(o)) == Success(o.authorization))
  }

  /** Verification determines the receipt, so a verified outcome is the one admission would build. */
  lemma VerifiedIsAdmitted(ctx: ExecutionContext, o: PhysicalOutcomeBundle)
    ensures VerifyPhysicalOutcome(ctx, o)
       <==> AdmitPhysicalObservation(ctx, o.authorization, o.observation) == Success(o)
  {
    hide VerifyDispatchRequest, VerifyResultBinding;
  }

  /** Within one execution context `verify_retry_chain` accepts exactly the chains the protocol can produce. */
  lemma {:induction false} AcceptsExactlyProduced(ctx: ExecutionContext, outcomes: seq<PhysicalOutcomeBundle>)
    ensures Produced(ctx, outcomes)
       <==> Chain(outcomes) && forall o <- outcomes :: VerifyDispatchRequest(ctx, o.authorization.request)
  {
    hide VerifyIntrinsicOutcome, VerifyDispatchRequest, AdmitPhysicalObservation, AuthorizeRetry, AuthorizePhysicalAttempt,
         First, Retries, Chain, InvocationIds, Produced;
    ChainStarts(outcomes);
    ProducedUnfold(ctx, outcomes);
    if outcomes != [] {
      var front, o := outcomes[..|outcomes| - 1], outcomes[|outcomes| - 1];
      assert outcomes == front + [o];
      VerifiedIsAdmitted(ctx, o);
      FirstIsAuthorized(ctx, o);
      if front == [] {
        assert outcomes == [o];
      } else {
        AcceptsExactlyProduced(ctx, front);
        ChainUnfolds(front, o);
        ChainVerifies(front);
        RetryIsAuthorized(ctx, o, front[|front| - 1]);
        InContext(ctx, front, o);
      }
    }
  }

  lemma ProducedUnfold(ctx: ExecutionContext, outcomes: seq<PhysicalOutcomeBundle>)
    ensures Produced(ctx, outcomes)
       <==> && outcomes != []
            && var front, o := outcomes[..|outcomes| - 1], outcomes[|outcomes| - 1];
            && AdmitPhysicalObservation(ctx, o.authorization, o.observation) == Success(o)
            && (if front == [] then AuthorizePhysicalAttempt(ctx, InvocationId(o)) == Success(o.authorization)
                else
                  && Produced(ctx, front)
                  && InvocationId(o) !in InvocationIds(front)
                  && AuthorizeRetry(ctx, front[|front| - 1], InvocationId(o)) == Success(o.authorization))
  {
    hide AdmitPhysicalObservation, AuthorizeRetry, AuthorizePhysicalAttempt, InvocationIds;
  }

  lemma InContext(ctx: ExecutionContext, front: seq<PhysicalOutcomeBundle>, o: PhysicalOutcomeBundle)
    ensures (forall x <- front + [o] :: VerifyDispatchRequest(ctx, x.authorization.request))
       <==> (forall x <- front :: VerifyDispatchRequest(ctx, x.authorization.request))
            && VerifyDispatchRequest(ctx, o.authorization.request)
    ensures front != [] && (forall x <- front :: VerifyDispatchRequest(ctx, x.authorization.request)) ==>
              VerifyDispatchRequest(ctx, front[|front| - 1].authorization.request)
  {
    hide VerifyDispatchRequest;
    assert forall x <- front :: x in front + [o];
    assert o in front + [o];
    assert front != [] ==> front[|front| - 1] in front;
  }

  lemma ChainVerifies(outcomes: seq<PhysicalOutcomeBundle>)
    ensures Chain(outcomes) ==> VerifyIntrinsicOutcome(outcomes[|outcomes| - 1])
  {
    hide VerifyIntrinsicOutcome;
    if |outcomes| > 1 && Chain(outcomes) {
      var i := |outcomes| - 1;
      assert Retries(outcomes[i], outcomes[i - 1]);
    }
  }

  lemma FirstIsAuthorized(ctx: ExecutionContext, o: PhysicalOutcomeBundle)
    ensures VerifyPhysicalOutcome(ctx, o) && AuthorizePhysicalAttempt(ctx, InvocationId(o)) == Success(o.authorization)
       <==> First(o) && VerifyDispatchRequest(ctx, o.authorization.request)
  {
    hide VerifyIntrinsicOutcome;
  }

  /** A retry of a verified outcome is authorised exactly as the chain requires. */
  lemma RetryIsAuthorized(ctx: ExecutionContext, o: PhysicalOutcomeBundle, prior: PhysicalOutcomeBundle)
    ensures && VerifyPhysicalOutcome(ctx, o) && AuthorizeRetry(ctx, prior, InvocationId(o)) == Success(o.authorization)
       <==> && Retries(o, prior) && VerifyDispatchRequest(ctx, o.authorization.request)
            && VerifyPhysicalOutcome(ctx, prior)
  {
    hide VerifyIntrinsicOutcome;
  }

  lemma ChainUnfolds(front: seq<PhysicalOutcomeBundle>, o: PhysicalOutcomeBundle)
    requires front != []
    ensures Chain(front + [o])
       <==> Chain(front) && Retries(o, front[|front| - 1]) && InvocationId(o) !in InvocationIds(front)
  {
    hide VerifyIntrinsicOutcome;
    var all := front + [o];
    if Chain(all) {
      PrefixClosed(all, |front|);
      assert all[..|front|] == front;
      assert Retries(all[|front|], all[|front| - 1]);
      forall x | x in front ensures InvocationId(x) != InvocationId(o) {
        var k :| 0 <= k < |front| && front[k] == x;
        assert InvocationId(all[k]) != InvocationId(all[|front|]);
      }
    }
    if Chain(front) && Retries(o, front[|front| - 1]) && InvocationId(o) !in InvocationIds(front) {
      forall i | 0 < i < |all| ensures Retries(all[i], all[i - 1]) {
        if i < |front| { assert Retries(front[i], front[i - 1]); }
      }
      forall i, j | 0 <= i < j < |all| ensures InvocationId(all[i]) != InvocationId(all[j]) {
        if j == |front| { assert front[i] in front; }
      }
    }
  }

  /** An accepted chain stays accepted when its last outcome is retried: authorised, observed and admitted in
      some context, under an unused invocation id.  Only that last outcome has to verify in the context. */
  lemma ExtendedChainAccepted(ctx: ExecutionContext, chain: seq<PhysicalOutcomeBundle>, invocationId: string,
                              auth: PhysicalAttemptAuthorization, obs: PhysicalObservation, o: PhysicalOutcomeBundle)
    requires Chain(chain) && invocationId !in InvocationIds(chain)
    requires AuthorizeRetry(ctx, chain[|chain| - 1], invocationId) == Success(auth)
    requires AdmitPhysicalObservation(ctx, auth, obs) == Success(o)
    ensures Chain(chain + [o])
  {
    hide VerifyIntrinsicOutcome, VerifyDispatchRequest, AdmitPhysicalObservation, AuthorizeRetry, Retries, Chain, InvocationIds;
    ChainStarts(chain);
    AdmittedShape(ctx, auth, obs);
    AuthorizedInvocation(ctx, chain[|chain| - 1], invocationId);
    VerifiedIsAdmitted(ctx, o);
    RetryIsAuthorized(ctx, o, chain[|chain| - 1]);
    ChainUnfolds(chain, o);
  }

  lemma AdmittedShape(ctx: ExecutionContext, auth: PhysicalAttemptAuthorization, obs: PhysicalObservation)
    ensures var r := AdmitPhysicalObservation(ctx, auth, obs);
            r.Success? ==> r.value.authorization == auth && r.value.observation == obs
  {
    hide VerifyPhysicalOutcome, VerifyObservation;
  }

  lemma AuthorizedInvocation(ctx: ExecutionContext, prior: PhysicalOutcomeBundle, invocationId: string)
    ensures var r := AuthorizeRetry(ctx, prior, invocationId);
            r.Success? ==> r.value.request.invocationId == invocationId
  {
    hide VerifyPhysicalOutcome;
  }

  // ---------------------------------------------------------------- what the last receipt fixes

  lemma SameReceiptSameOutcome(a: PhysicalOutcomeBundle, b: PhysicalOutcomeBundle)
    requires VerifyIntrinsicOutcome(a) && VerifyIntrinsicOutcome(b) && a.receipt == b.receipt
    ensures a == b
  {
    hide VerifyObservation, VerifyResultBinding;
  }

  /** Two chains with the same last receipt are the same chain, from the first attempt on. */
  lemma {:induction false} LastReceiptFixesChain(a: seq<PhysicalOutcomeBundle>, b: seq<PhysicalOutcomeBundle>)
    requires Chain(a) && Chain(b)
    requires Sha256(a[|a| - 1].receipt) == Sha256(b[|b| - 1].receipt)
    ensures a == b
    decreases |a|
  {
    hide VerifyIntrinsicOutcome;
    AttemptsCount(a);
    AttemptsCount(b);
    if |a| > 1 { assert Retries(a[|a| - 1], a[|a| - 2]); }
    if |b| > 1 { assert Retries(b[|b| - 1], b[|b| - 2]); }
    SameReceiptSameOutcome(a[|a| - 1], b[|b| - 1]);
    if |a| > 1 {
      PrefixClosed(a, |a| - 1);
      PrefixClosed(b, |b| - 1);
      LastReceiptFixesChain(a[..|a| - 1], b[..|b| - 1]);
      assert a == a[..|a| - 1] + [a[|a| - 1]] && b == b[..|b| - 1] + [b[|b| - 1]];
    } else {
      assert a == [a[0]] && b == [b[0]];
    }
  }
}
