/** One physical attempt from reservation to release, and the retry after it. */
module LeaseLifecycle {
  import opened Canonical
  import opened Physical
  import opened Capacity
  import opened AllocatorSafety
  import opened CapacityGrants
  import opened GrantValidity
  import opened Dispatch

  /** What was reserved can be dispatched: an intent can be prepared for the new lease and its authorization. */
  lemma ReservedLeaseDispatches(s: RunnerCapacityState, ctx: ExecutionContext, auth: PhysicalAttemptAuthorization)
    requires ReserveCapacity(s, ctx, auth).Success?
    ensures var (next, grant) := ReserveCapacity(s, ctx, auth).value;
            PrepareDispatchIntent(next, ctx.runner, grant.lease, auth).Success?
  {
    hide Replay, ApplyTransition, LeasesIn, ReleasesIn, Unreleased, Matches, AllocatorSafe;
    var (next, grant) := ReserveCapacity(s, ctx, auth).value;
    ReserveCommitsProposal(s, ctx, auth);
    CanonicalStateSafe(ctx.runner, next.transitions);
    SingleMatch(next, grant.lease);
    ReservedFrom(s, ctx, auth);
  }

  lemma ReservedFrom(s: RunnerCapacityState, ctx: ExecutionContext, auth: PhysicalAttemptAuthorization)
    requires ReserveCapacity(s, ctx, auth).Success?
    ensures exists slot :: ReserveCapacity(s, ctx, auth).value.1.lease == LeaseFor(s, ctx.runner, auth, slot)
    ensures VerifyDispatchRequest(ctx, auth.request)
    ensures auth.request.runnerId == ctx.runner.runnerId && auth.request.runnerCapabilityDigest == Sha256(ctx.runner)
  {
    hide Replay, ApplyTransition, LeasesIn, ReleasesIn, Unreleased, FirstFree, PredecessorReleased;
  }

  /** While its lease is active, an attempt is released by exactly the verified outcomes of its own authorization. */
  lemma ReleasedByOwnOutcome(s: RunnerCapacityState, ctx: ExecutionContext, auth: PhysicalAttemptAuthorization,
                             later: RunnerCapacityState, outcome: PhysicalOutcomeBundle)
    requires ReserveCapacity(s, ctx, auth).Success? && Replays(later, ctx.runner)
    requires ReserveCapacity(s, ctx, auth).value.1.lease in later.ActiveLeases()
    ensures ReleaseForOutcome(later, ctx, ReserveCapacity(s, ctx, auth).value.1.lease, outcome).Success?
       <==> VerifyPhysicalOutcome(ctx, outcome) && outcome.authorization == auth
  {
    hide Replay, ApplyTransition, LeasesIn, ReleasesIn, Unreleased, Matches, AllocatorSafe, ReserveCapacity,
         VerifyIntrinsicOutcome, ReleaseForOutcome;
    var lease := ReserveCapacity(s, ctx, auth).value.1.lease;
    ReservedFrom(s, ctx, auth);
    CanonicalStateSafe(ctx.runner, later.transitions);
    SingleMatch(later, lease);
    ReleaseCommitsProposal(later, ctx, lease, outcome);
  }

  /** A release frees a slot and the lease's session. */
  lemma RoomAfterRelease(s: RunnerCapacityState, t: CapacityTransition, l: CapacityLease)
    requires AllocatorSafe(s) && t.Release? && l in s.ActiveLeases() && CopiesIdentity(t.release, l)
    ensures |Advance(s, t).ActiveLeases()| < s.maxParallelism && !ActiveKey(Advance(s, t), l.Key())
    ensures t.release in Advance(s, t).Releases()
  {
    hide LeasesIn, ReleasesIn, Unreleased;
    var next := Advance(s, t);
    ViewsAfterRelease(s, t);
    SafeAfterRelease(s, t, l);
    UnreleasedMembers(s.Leases(), ReleasedIds(s.Releases()));
    UnreleasedMembers(next.Leases(), ReleasedIds(next.Releases()));
    assert ReleasedIds(next.Releases()) == ReleasedIds(s.Releases()) + {StableId(l)};
    forall x | x in next.ActiveLeases() ensures x.Key() != l.Key() {
      OnlyOnePerKey(s.ActiveLeases(), x, l);
    }
  }

  lemma OnlyOnePerKey(active: seq<CapacityLease>, a: CapacityLease, b: CapacityLease)
    requires SeparateOccupants(active) && a in active && b in active
    ensures a.Key() == b.Key() ==> a == b
  {
    var i :| 0 <= i < |active| && active[i] == a;
    var j :| 0 <= j < |active| && active[j] == b;
  }

  /** What a release after an outcome was checked against */
  lemma ReleaseNamesOutcome(s: RunnerCapacityState, ctx: ExecutionContext, lease: CapacityLease, outcome: PhysicalOutcomeBundle)
    requires ReleaseForOutcome(s, ctx, lease, outcome).Success?
    ensures var (next, grant) := ReleaseForOutcome(s, ctx, lease, outcome).value;
            var t := Release(Sha256(s), grant.release);
            && Replays(s, ctx.runner) && VerifyPhysicalOutcome(ctx, outcome)
            && next == Advance(s, t) && lease in s.ActiveLeases() && CopiesIdentity(grant.release, lease)
            && grant.release.cause == CauseOf(outcome)
            && lease.Key() == (outcome.authorization.request.sessionId, outcome.authorization.request.attempt)
            && lease.invocationId == outcome.authorization.request.invocationId
            && lease.physicalAttempt == outcome.authorization.physicalAttempt
  {
    hide Replay, LeasesIn, ReleasesIn, Unreleased, Matches, VerifyPhysicalOutcome, ApplyTransition;
    ReleaseCommitsProposal(s, ctx, lease, outcome);
    var t := ProposeOutcomeRelease(s, ctx, lease, outcome).value;
    ProposedReleaseAccepted(s, ctx.runner, lease, t);
  }

  /** Releasing an attempt makes room for its retry: right after a failed outcome has released its lease, the
      retry that outcome authorises can be reserved if and only if it was not leased before. */
  lemma RetryFitsAfterRelease(s: RunnerCapacityState, ctx: ExecutionContext, lease: CapacityLease,
                              outcome: PhysicalOutcomeBundle, invocationId: string)
    requires ReleaseForOutcome(s, ctx, lease, outcome).Success?
    requires AuthorizeRetry(ctx, outcome, invocationId).Success? && 1 <= outcome.authorization.physicalAttempt
    ensures var next, retry := ReleaseForOutcome(s, ctx, lease, outcome).value.0, AuthorizeRetry(ctx, outcome, invocationId).value;
            ProposeReservation(next, ctx, retry).Success?
            <==> forall l <- next.Leases() :: l.authorizationDigest != Sha256(retry)
  {
    hide Replay, LeasesIn, ReleasesIn, Unreleased, AllocatorSafe, ReleaseForOutcome, VerifyIntrinsicOutcome, ActiveKey, FirstFree,
         OccupiedSlots;
    var (next, grant) := ReleaseForOutcome(s, ctx, lease, outcome).value;
    ReleaseCommitsProposal(s, ctx, lease, outcome);
    ReleaseNamesOutcome(s, ctx, lease, outcome);
    CanonicalStateSafe(ctx.runner, s.transitions);
    RoomAfterRelease(s, Release(Sha256(s), grant.release), lease);
    FreeSlotExists(next);
    var retry := AuthorizeRetry(ctx, outcome, invocationId).value;
    assert ReleasesPredecessor(grant.release, lease.Key(), retry.physicalAttempt, retry.previousInvocationId,
                               retry.previousReceiptDigest);
  }
}
