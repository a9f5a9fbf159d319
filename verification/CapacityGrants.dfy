/**
  Proposing and committing transitions, and the grants a commit hands out
  (src/general_execution/capacity.py, propose_*, commit_* and the grant verifiers).
 */
module CapacityGrants {
  import opened Canonical
  import opened Physical
  import opened Capacity
  import opened AllocatorSafety
  import opened RetryLineage

  datatype LeaseGrant = LeaseGrant(lease: CapacityLease, transitionDigest: Digest<CapacityTransition>,
                                   stateDigest: Digest<RunnerCapacityState>, generation: nat)

  datatype ReleaseGrant = ReleaseGrant(release: CapacityRelease, transitionDigest: Digest<CapacityTransition>,
                                       stateDigest: Digest<RunnerCapacityState>, generation: nat)

  // ---------------------------------------------------------------- proposals

  function LeaseFor(s: RunnerCapacityState, runner: RunnerCapabilities, auth: PhysicalAttemptAuthorization, slot: nat)
    : CapacityLease
  {
    CapacityLease(
      runner.runnerId, Sha256(runner), slot, auth.request.sessionId, auth.request.attempt,
      StableId(auth), Sha256(auth), auth.request.invocationId, auth.physicalAttempt,
      auth.previousInvocationId, auth.previousReceiptDigest, Sha256(s))
  }

  function ReservationFor(s: RunnerCapacityState, runner: RunnerCapabilities, auth: PhysicalAttemptAuthorization,
                          slot: nat): CapacityTransition
  {
    Reserve(Sha256(s), LeaseFor(s, runner, auth, slot))
  }

  /** The least slot in `from .. max` outside `occupied`. */
  function FirstFree(occupied: set<nat>, from: nat, max: nat): (slot: Option<nat>)
    decreases max - from
    ensures slot.Some? ==> from <= slot.value < max && slot.value !in occupied
    ensures slot.Some? ==> forall k | from <= k < slot.value :: k in occupied
    ensures slot.None? ==> forall k | from <= k < max :: k in occupied
  {
    if from >= max then None
    else if from !in occupied then Some(from)
    else FirstFree(occupied, from + 1, max)
  }

  function ProposeReservation(s: RunnerCapacityState, ctx: ExecutionContext, auth: PhysicalAttemptAuthorization)
    : Result<CapacityTransition, CapacityError>
  {
    if !BoundToRunner(s, ctx.runner) then Failure(NotBoundToRunner)
    else if !Replays(s, ctx.runner) then Failure(DoesNotReplay)
    else if !VerifyDispatchRequest(ctx, auth.request) then Failure(RequestDoesNotReproduce)
    else if auth.request.runnerId != ctx.runner.runnerId
         || auth.request.runnerCapabilityDigest != Sha256(ctx.runner) then
      Failure(AuthorizationForAnotherRunner)
    else if |s.ActiveLeases()| >= s.maxParallelism then Failure(CapacityExhausted)
    else if exists l <- s.Leases() :: l.authorizationDigest == Sha256(auth) then Failure(AuthorizationAlreadyLeased)
    else if ActiveKey(s, (auth.request.sessionId, auth.request.attempt)) then Failure(SessionAlreadyActive)
    else if !PredecessorReleased(s, (auth.request.sessionId, auth.request.attempt), auth.physicalAttempt,
                                 auth.previousInvocationId, auth.previousReceiptDigest) then
      Failure(PredecessorNotReleased)
    else match FirstFree(OccupiedSlots(s), 0, s.maxParallelism)
      case None => Failure(NoFreeSlot)
      case Some(slot) => Success(ReservationFor(s, ctx.runner, auth, slot))
  }

  function CommitReservation(s: RunnerCapacityState, ctx: ExecutionContext, auth: PhysicalAttemptAuthorization,
                             t: CapacityTransition): Result<(RunnerCapacityState, LeaseGrant), CapacityError>
  {
    match ProposeReservation(s, ctx, auth)
    case Failure(e) => Failure(e)
    case Success(expected) =>
      if t != expected then Failure(TransitionDoesNotReproduce)
      else match ApplyTransition(s, t)
        case Failure(e) => Failure(e)
        case Success(next) => Success((next, LeaseGrant(t.lease, Sha256(t), Sha256(next), next.generation)))
  }

  function ReserveCapacity(s: RunnerCapacityState, ctx: ExecutionContext, auth: PhysicalAttemptAuthorization)
    : Result<(RunnerCapacityState, LeaseGrant), CapacityError>
  {
    match ProposeReservation(s, ctx, auth)
    case Failure(e) => Failure(e)
    case Success(t) => CommitReservation(s, ctx, auth, t)
  }

  function ReleaseOf(l: CapacityLease, cause: ReleaseCause, s: RunnerCapacityState): CapacityRelease {
    CapacityRelease(StableId(l), Sha256(l), l.runnerId, l.sessionId, l.logicalAttempt,
                    l.authorizationId, l.authorizationDigest, l.invocationId, l.physicalAttempt, cause, Sha256(s))
  }

  function CauseOf(outcome: PhysicalOutcomeBundle): ReleaseCause {
    TerminalOutcome(Sha256(outcome), Sha256(outcome.receipt), outcome.receipt.transportStatus)
  }

  function ProposeOutcomeRelease(s: RunnerCapacityState, ctx: ExecutionContext, lease: CapacityLease,
                                 outcome: PhysicalOutcomeBundle): Result<CapacityTransition, CapacityError>
  {
    if !BoundToRunner(s, ctx.runner) then Failure(NotBoundToRunner)
    else if !Replays(s, ctx.runner) then Failure(DoesNotReplay)
    else if !VerifyPhysicalOutcome(ctx, outcome) then Failure(OutcomeDoesNotReproduce)
    else
      var matches := Matches(s.ActiveLeases(), StableId(lease), Sha256(lease));
      if |matches| != 1 then Failure(NoSingleActiveLease)
      else
        var l, auth := matches[0], outcome.authorization;
        if (StableId(auth), Sha256(auth), auth.request.invocationId, auth.physicalAttempt)
           != (l.authorizationId, l.authorizationDigest, l.invocationId, l.physicalAttempt) then
          Failure(OutcomeNotForLease)
        else if (auth.request.sessionId, auth.request.attempt, auth.request.runnerId)
                != (l.sessionId, l.logicalAttempt, l.runnerId) then
          Failure(OutcomeSessionMismatch)
        else Success(Release(Sha256(s), ReleaseOf(l, CauseOf(outcome), s)))
  }

  function ProposeRevocationRelease(s: RunnerCapacityState, runner: RunnerCapabilities, lease: CapacityLease,
                                    session: ExecutionSession): Result<CapacityTransition, CapacityError>
  {
    if !BoundToRunner(s, runner) then Failure(NotBoundToRunner)
    else if !Replays(s, runner) then Failure(DoesNotReplay)
    else
      var matches := Matches(s.ActiveLeases(), StableId(lease), Sha256(lease));
      if |matches| != 1 then Failure(NoSingleActiveLease)
      else if session.state != Revoked then Failure(SessionNotRevoked)
      else
        var l := matches[0];
        if (session.sessionId, session.attempt, session.runnerId, session.runnerCapabilityDigest)
           != (l.sessionId, l.logicalAttempt, l.runnerId, l.runnerCapabilityDigest) then
          Failure(SessionDoesNotOwnLease)
        else Success(Release(Sha256(s), ReleaseOf(l, SessionRevoked(Sha256(session)), s)))
  }

  /** Both release paths commit the transition they proposed. */
  function CommitRelease(s: RunnerCapacityState, proposal: Result<CapacityTransition, CapacityError>)
    : Result<(RunnerCapacityState, ReleaseGrant), CapacityError>
    requires proposal.Success? ==> proposal.value.Release?
  {
    match proposal
    case Failure(e) => Failure(e)
    case Success(t) =>
      match ApplyTransition(s, t)
      case Failure(e) => Failure(e)
      case Success(next) => Success((next, ReleaseGrant(t.release, Sha256(t), Sha256(next), next.generation)))
  }

  function ReleaseForOutcome(s: RunnerCapacityState, ctx: ExecutionContext, lease: CapacityLease,
                             outcome: PhysicalOutcomeBundle): Result<(RunnerCapacityState, ReleaseGrant), CapacityError>
  {
    CommitRelease(s, ProposeOutcomeRelease(s, ctx, lease, outcome))
  }

  function ReleaseForRevocation(s: RunnerCapacityState, runner: RunnerCapabilities, lease: CapacityLease,
                                session: ExecutionSession): Result<(RunnerCapacityState, ReleaseGrant), CapacityError>
  {
    CommitRelease(s, ProposeRevocationRelease(s, runner, lease, session))
  }

  // ---------------------------------------------------------------- propose agrees with apply

  lemma {:induction false} OccupiedAtMost(active: seq<CapacityLease>)
    ensures |set l <- active :: l.slot| <= |active|
  {
    if active != [] {
      var front, last := active[..|active| - 1], active[|active| - 1];
      OccupiedAtMost(front);
      assert active == front + [last];
      assert (set l <- active :: l.slot) == (set l <- front :: l.slot) + {last.slot};
    }
  }

  lemma {:induction false} SlotsBelow(max: nat) returns (slots: set<nat>)
    ensures |slots| == max && forall k: nat :: k in slots <==> k < max
  {
    if max == 0 {
      slots := {};
    } else {
      slots := SlotsBelow(max - 1);
      slots := slots + {max - 1};
    }
  }

  lemma SubsetSize(a: set<nat>, b: set<nat>)
    requires a <= b
    ensures |a| <= |b|
  {
    assert b == a + (b - a);
  }

  /** Pigeonhole: below the bound there is always a free slot, so the second exhaustion branch is dead. */
  lemma FreeSlotExists(s: RunnerCapacityState)
    requires |s.ActiveLeases()| < s.maxParallelism
    ensures FirstFree(OccupiedSlots(s), 0, s.maxParallelism).Some?
  {
    if FirstFree(OccupiedSlots(s), 0, s.maxParallelism).None? {
      var slots := SlotsBelow(s.maxParallelism);
      SubsetSize(slots, OccupiedSlots(s));
      OccupiedAtMost(s.ActiveLeases());
    }
  }

  lemma NoFreeSlotUnreachable(s: RunnerCapacityState, ctx: ExecutionContext, auth: PhysicalAttemptAuthorization)
    ensures ProposeReservation(s, ctx, auth) != Failure(NoFreeSlot)
    ensures ProposeReservation(s, ctx, auth) != Failure(AuthorizationForAnotherRunner)
  {
    hide Replay, LeasesIn, ReleasesIn, Unreleased, PredecessorReleased, OccupiedSlots;
    if |s.ActiveLeases()| < s.maxParallelism {
      FreeSlotExists(s);
    }
  }

  ghost predicate AcceptsSlot(s: RunnerCapacityState, runner: RunnerCapabilities, auth: PhysicalAttemptAuthorization,
                              slot: nat)
  {
    ApplyTransition(s, ReservationFor(s, runner, auth, slot)).Success?
  }

  /** With the context checks passed, a proposal exists exactly when some slot would be accepted,
      and it takes the least such slot. */
  lemma ProposeAgreesWithApply(s: RunnerCapacityState, ctx: ExecutionContext, auth: PhysicalAttemptAuthorization)
    requires Replays(s, ctx.runner) && VerifyDispatchRequest(ctx, auth.request)
    ensures ProposeReservation(s, ctx, auth).Success? <==> exists slot: nat :: AcceptsSlot(s, ctx.runner, auth, slot)
    ensures ProposeReservation(s, ctx, auth).Success? ==>
              exists slot: nat ::
                && ProposeReservation(s, ctx, auth) == Success(ReservationFor(s, ctx.runner, auth, slot))
                && AcceptsSlot(s, ctx.runner, auth, slot)
                && forall k: nat | k < slot :: !AcceptsSlot(s, ctx.runner, auth, k)
  {
    hide Replay, ApplyTransition, LeasesIn, ReleasesIn, Unreleased, PredecessorReleased;
    forall slot: nat
      ensures AcceptsSlot(s, ctx.runner, auth, slot) <==> MayReserve(s, LeaseFor(s, ctx.runner, auth, slot))
    {
      ReserveAccepted(s, ReservationFor(s, ctx.runner, auth, slot));
    }
    LeaseIsNew(s, ctx.runner, auth);
    if |s.ActiveLeases()| < s.maxParallelism {
      FreeSlotExists(s);
      var slot := FirstFree(OccupiedSlots(s), 0, s.maxParallelism).value;
      if ProposeReservation(s, ctx, auth).Success? {
        assert AcceptsSlot(s, ctx.runner, auth, slot);
        forall k: nat | k < slot ensures !AcceptsSlot(s, ctx.runner, auth, k) {
          assert k in OccupiedSlots(s);
        }
        assert ProposeReservation(s, ctx, auth) == Success(ReservationFor(s, ctx.runner, auth, slot));
      }
    }
  }

  /** The apply step also refuses a repeated lease id; a proposal need not test it, because equal ids
      mean equal leases and so equal authorizations. */
  lemma LeaseIsNew(s: RunnerCapacityState, runner: RunnerCapabilities, auth: PhysicalAttemptAuthorization)
    ensures (forall l <- s.Leases() :: l.authorizationDigest != Sha256(auth)) ==>
              forall slot: nat, l <- s.Leases() :: l != LeaseFor(s, runner, auth, slot)
  {
  }

  /** A commit of one's own proposal never fails. */
  lemma ReserveCommitsProposal(s: RunnerCapacityState, ctx: ExecutionContext, auth: PhysicalAttemptAuthorization)
    ensures ReserveCapacity(s, ctx, auth).Success? <==> ProposeReservation(s, ctx, auth).Success?
    ensures ReserveCapacity(s, ctx, auth).Success? ==>
              var (next, grant) := ReserveCapacity(s, ctx, auth).value;
              && Replays(next, ctx.runner)
              && next.transitions == s.transitions + [Reserve(Sha256(s), grant.lease)]
              && grant.lease in next.ActiveLeases()
              && grant == LeaseGrant(grant.lease, Sha256(Reserve(Sha256(s), grant.lease)), Sha256(next), next.generation)
  {
    hide Replay, ApplyTransition, LeasesIn, ReleasesIn, Unreleased;
    if ProposeReservation(s, ctx, auth).Success? {
      hide ProposeReservation;
      var t := ProposeReservation(s, ctx, auth).value;
      ProposalAccepted(s, ctx, auth);
      var next := ApplyTransition(s, t).value;
      CommitReplays(s, ctx.runner, t);
      CanonicalStateSafe(ctx.runner, s.transitions);
      ReserveAccepted(s, t);
      SafeAfterReserve(s, t);
    }
  }

  lemma ProposalAccepted(s: RunnerCapacityState, ctx: ExecutionContext, auth: PhysicalAttemptAuthorization)
    requires ProposeReservation(s, ctx, auth).Success?
    ensures var t := ProposeReservation(s, ctx, auth).value;
            && Replays(s, ctx.runner) && t.Reserve? && t.expectedStateDigest == Sha256(s)
            && ApplyTransition(s, t).Success?
  {
    hide Replay, ApplyTransition, LeasesIn, ReleasesIn, Unreleased, FirstFree, PredecessorReleased, ActiveKey;
    ProposeAgreesWithApply(s, ctx, auth);
  }

  lemma CommitReplays(s: RunnerCapacityState, runner: RunnerCapabilities, t: CapacityTransition)
    requires Replays(s, runner) && ApplyTransition(s, t).Success?
    ensures ApplyTransition(s, t).value == Advance(s, t)
    ensures Replays(Advance(s, t), runner)
  {
    ApplyAdvances(s, t);
    hide ApplyTransition;
    assert (s.transitions + [t])[..|s.transitions|] == s.transitions;
  }

  /** A lease is released for an outcome exactly if it is active and the outcome verifies and is of the authorization
      it was taken for; the release takes exactly that lease out of the active set. */
  lemma ReleaseCommitsProposal(s: RunnerCapacityState, ctx: ExecutionContext, lease: CapacityLease,
                               outcome: PhysicalOutcomeBundle)
    ensures var auth := outcome.authorization;
            ReleaseForOutcome(s, ctx, lease, outcome).Success?
            <==> && Replays(s, ctx.runner) && lease in s.ActiveLeases() && VerifyPhysicalOutcome(ctx, outcome)
                 && lease.authorizationId == StableId(auth) && lease.authorizationDigest == Sha256(auth)
                 && lease.invocationId == auth.request.invocationId && lease.physicalAttempt == auth.physicalAttempt
                 && lease.sessionId == auth.request.sessionId && lease.logicalAttempt == auth.request.attempt
                 && lease.runnerId == auth.request.runnerId
    ensures ReleaseForOutcome(s, ctx, lease, outcome).Success? ==>
              var (next, grant) := ReleaseForOutcome(s, ctx, lease, outcome).value;
              && lease in s.ActiveLeases() && lease !in next.ActiveLeases()
              && grant.release == ReleaseOf(lease, CauseOf(outcome), s)
              && Replays(next, ctx.runner)
              && next.transitions == s.transitions + [Release(Sha256(s), grant.release)]
              && grant == ReleaseGrant(grant.release, Sha256(Release(Sha256(s), grant.release)), Sha256(next),
                                       next.generation)
  {
    hide Replay, ApplyTransition, LeasesIn, ReleasesIn, Unreleased, VerifyPhysicalOutcome, Matches, AllocatorSafe;
    if Replays(s, ctx.runner) {
      CanonicalStateSafe(ctx.runner, s.transitions);
      SingleMatch(s, lease);
    }
    if ProposeOutcomeRelease(s, ctx, lease, outcome).Success? {
      var t := ProposeOutcomeRelease(s, ctx, lease, outcome).value;
      ProposedReleaseAccepted(s, ctx.runner, lease, t);
    }
  }

  /** A lease is released for a session exactly if it is active and the session is revoked and is the very one that
      holds it; the release takes exactly that lease out of the active set. */
  lemma RevocationCommitsProposal(s: RunnerCapacityState, runner: RunnerCapabilities, lease: CapacityLease,
                                  session: ExecutionSession)
    ensures ReleaseForRevocation(s, runner, lease, session).Success?
       <==> && Replays(s, runner) && lease in s.ActiveLeases() && session.state == Revoked
            && session.sessionId == lease.sessionId && session.attempt == lease.logicalAttempt
            && session.runnerId == lease.runnerId && session.runnerCapabilityDigest == lease.runnerCapabilityDigest
    ensures ReleaseForRevocation(s, runner, lease, session).Success? ==>
              var (next, grant) := ReleaseForRevocation(s, runner, lease, session).value;
              && lease in s.ActiveLeases() && lease !in next.ActiveLeases()
              && grant.release == ReleaseOf(lease, SessionRevoked(Sha256(session)), s)
              && Replays(next, runner)
              && next.transitions == s.transitions + [Release(Sha256(s), grant.release)]
              && grant == ReleaseGrant(grant.release, Sha256(Release(Sha256(s), grant.release)), Sha256(next),
                                       next.generation)
  {
    hide Replay, ApplyTransition, LeasesIn, ReleasesIn, Unreleased, Matches, AllocatorSafe;
    if Replays(s, runner) {
      CanonicalStateSafe(runner, s.transitions);
      SingleMatch(s, lease);
    }
    if ProposeRevocationRelease(s, runner, lease, session).Success? {
      var t := ProposeRevocationRelease(s, runner, lease, session).value;
      ProposedReleaseAccepted(s, runner, lease, t);
    }
  }

  lemma ProposedReleaseAccepted(s: RunnerCapacityState, runner: RunnerCapabilities, lease: CapacityLease,
                                t: CapacityTransition)
    requires Replays(s, runner) && |Matches(s.ActiveLeases(), StableId(lease), Sha256(lease))| == 1
    requires t.Release? && t.expectedStateDigest == Sha256(s)
    requires t.release == ReleaseOf(Matches(s.ActiveLeases(), StableId(lease), Sha256(lease))[0], t.release.cause, s)
    ensures Matches(s.ActiveLeases(), StableId(lease), Sha256(lease)) == [lease]
    ensures ApplyTransition(s, t) == Success(Advance(s, t)) && Replays(Advance(s, t), runner)
    ensures lease in s.ActiveLeases() && lease !in Advance(s, t).ActiveLeases()
  {
    hide Replay, LeasesIn, ReleasesIn, Unreleased, Matches;
    var matches := Matches(s.ActiveLeases(), StableId(lease), Sha256(lease));
    MatchesMember(s.ActiveLeases(), StableId(lease), Sha256(lease));
    assert matches[0] in matches;
    assert matches == [lease];
    CommitReplays(s, runner, t);
    CanonicalStateSafe(runner, s.transitions);
    SafeAfterRelease(s, t, lease);
  }
}
