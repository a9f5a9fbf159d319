/** A retry chain as a whole: attempts numbered from one at the same work, each naming the failed one before it. */
module RetryLaws {
  import opened Canonical
  import opened Physical
  import opened RetryChain

  /** The outcome at this place of the sequence: verified, numbered by its place, at the work of the first, and naming
      the outcome before it, which was not completed. */
  ghost predicate InPlace(outcomes: seq<PhysicalOutcomeBundle>, i: nat)
    requires i < |outcomes|
  {
    var auth, request, first := outcomes[i].authorization, outcomes[i].authorization.request, outcomes[0].authorization.request;
    && VerifyIntrinsicOutcome(outcomes[i])
    && auth.physicalAttempt == i + 1
    && (request.sessionId, request.attempt, request.runnerId) == (first.sessionId, first.attempt, first.runnerId)
    && (request.specId, request.specDigest) == (first.specId, first.specDigest)
    && (if i == 0 then auth.previousInvocationId.None? && auth.previousReceiptDigest.None?
        else
          && outcomes[i - 1].receipt.transportStatus != Completed
          && auth.previousInvocationId == Some(outcomes[i - 1].authorization.request.invocationId)
          && auth.previousReceiptDigest == Some(Sha256(outcomes[i - 1].receipt)))
  }

  /** A sequence is a chain if and only if every outcome is in its place and no invocation id is used twice. */
  lemma ChainExactly(outcomes: seq<PhysicalOutcomeBundle>)
    ensures Chain(outcomes)
       <==> && outcomes != [] && (forall i | 0 <= i < |outcomes| :: InPlace(outcomes, i))
            && forall i, j | 0 <= i < j < |outcomes| ::
                 outcomes[i].authorization.request.invocationId != outcomes[j].authorization.request.invocationId
  {
    hide VerifyIntrinsicOutcome;
    if Chain(outcomes) {
      forall i | 0 <= i < |outcomes| ensures InPlace(outcomes, i) {
        PrefixClosed(outcomes, i + 1);
        AttemptsCount(outcomes[..i + 1]);
        if i > 0 { assert Retries(outcomes[i], outcomes[i - 1]); }
      }
      forall i, j | 0 <= i < j < |outcomes|
        ensures outcomes[i].authorization.request.invocationId != outcomes[j].authorization.request.invocationId
      {
        assert InvocationId(outcomes[i]) != InvocationId(outcomes[j]);
      }
    }
    if && outcomes != [] && (forall i | 0 <= i < |outcomes| :: InPlace(outcomes, i))
       && (forall i, j | 0 <= i < j < |outcomes| ::
             outcomes[i].authorization.request.invocationId != outcomes[j].authorization.request.invocationId)
    {
      assert InPlace(outcomes, 0);
      forall i | 0 < i < |outcomes| ensures Retries(outcomes[i], outcomes[i - 1]) {
        var before := i - 1;
        assert InPlace(outcomes, i) && InPlace(outcomes, before);
      }
    }
  }
}
