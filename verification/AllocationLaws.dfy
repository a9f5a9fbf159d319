/**
  When the allocator reserves and releases, and what it then commits, in terms of the caller's values and of the
  transitions committed before.
 */
module AllocationLaws {
  import opened Canonical
  import opened Physical
  import opened Capacity
  import opened AllocatorSafety
  import opened CapacityGrants
  import opened GrantValidity
  import opened LeaseLifecycle
  import opened OutcomeLaws

  // ---------------------------------------------------------------- histories

  /** Leases, releases and active leases of a history: what it reserved, what it released, and what it reserved and
      did not release. */
  lemma ViewsOfHistory(s: RunnerCapacityState)
    ensures forall l :: l in s.Leases() <==> exists e :: Reserve(e, l) in s.transitions
    ensures forall r :: r in s.Releases() <==> exists e :: Release(e, r) in s.transitions
    ensures forall l :: l in s.ActiveLeases() <==> l in s.Leases() && forall r <- s.Releases() :: r.leaseId != StableId(l)
  {
    hide Unreleased;
    ViewMembers(s.transitions);
    UnreleasedMembers(s.Leases(), ReleasedIds(s.Releases()));
  }

  lemma {:induction false} ViewMembers(ts: seq<CapacityTransition>)
    ensures forall l :: l in LeasesIn(ts) <==> exists e :: Reserve(e, l) in ts
    ensures forall r :: r in ReleasesIn(ts) <==> exists e :: Release(e, r) in ts
  {
    if ts != [] {
      var front, last := ts[..|ts| - 1], ts[|ts| - 1];
      assert ts == front + [last];
      ViewMembers(front);
      forall l | l in LeasesIn(ts) ensures exists e :: Reserve(e, l) in ts {
        if l in LeasesIn(front) {
          var e :| Reserve(e, l) in front;
          assert Reserve(e, l) in ts;
        } else {
          assert last == Reserve(last.expectedStateDigest, l);
        }
      }
      forall r | r in ReleasesIn(ts) ensures exists e :: Release(e, r) in ts {
        if r in ReleasesIn(front) {
          var e :| Release(e, r) in front;
          assert Release(e, r) in ts;
        } else {
          assert last == Release(last.expectedStateDigest, r);
        }
      }
    }
  }

  /** The state after one more transition */
  ghost predicate Appends(s: RunnerCapacityState, t: CapacityTransition, next: RunnerCapacityState) {
    && (next.runnerId, next.runnerCapabilityDigest, next.maxParallelism)
       == (s.runnerId, s.runnerCapabilityDigest, s.maxParallelism)
    && next.generation == s.generation + 1 && next.previousStateDigest == Some(Sha256(s))
    && next.transitions == s.transitions + [t]
  }

  /** A genesis history is empty and carries the runner's own bounds. */
  lemma GenesisReplays(runner: RunnerCapabilities, s: RunnerCapacityState)
    ensures s.transitions == [] ==>
              (Replays(s, runner) <==> s == RunnerCapacityState(runner.runnerId, Sha256(runner), runner.maxParallelism, 0, None, []))
  {
  }

  /** A history replays exactly if it is empty or if its last transition was accepted where the others lead. */
  lemma ReplaysStepwise(runner: RunnerCapabilities, s: RunnerCapacityState)
    requires s.transitions != []
    ensures Replays(s, runner)
       <==> exists before: RunnerCapacityState ::
              && Replays(before, runner) && Appends(before, s.transitions[|s.transitions| - 1], s)
              && ApplyTransition(before, s.transitions[|s.transitions| - 1]).Success?
  {
    hide ApplyTransition;
    var front, last := s.transitions[..|s.transitions| - 1], s.transitions[|s.transitions| - 1];
    if Replays(s, runner) {
      var before := Replay(runner, front).value;
      ReplayShape(runner, front);
      ApplyAdvances(before, last);
      assert Appends(before, last, s);
    }
    if before :| Replays(before, runner) && Appends(before, last, s) && ApplyTransition(before, last).Success? {
      assert before.transitions == front;
      ApplyAdvances(before, last);
      assert s == Advance(before, last);
    }
  }

  /** Every transition carries the digest of the state it was committed on, twice. */
  lemma TransitionsNameTheirState(s: RunnerCapacityState, t: CapacityTransition)
    requires ApplyTransition(s, t).Success?
    ensures t.expectedStateDigest == Sha256(s)
    ensures t.Reserve? ==> t.lease.expectedStateDigest == Sha256(s)
    ensures t.Release? ==> t.release.expectedStateDigest == Sha256(s)
    ensures Appends(s, t, ApplyTransition(s, t).value)
  {
    ApplyAdvances(s, t);
  }

  /** The release copies every identifying field of the lease. */
  ghost predicate Copies(r: CapacityRelease, l: CapacityLease) {
    && r.leaseId == StableId(l) && r.leaseDigest == Sha256(l)
    && (r.runnerId, r.sessionId, r.logicalAttempt) == (l.runnerId, l.sessionId, l.logicalAttempt)
    && (r.authorizationId, r.authorizationDigest) == (l.authorizationId, l.authorizationDigest)
    && (r.invocationId, r.physicalAttempt) == (l.invocationId, l.physicalAttempt)
  }

  /** On a canonical state a release is accepted if and only if it was made for that state and copies an active lease. */
  lemma ReleaseAcceptedExactly(s: RunnerCapacityState, runner: RunnerCapabilities, t: CapacityTransition)
    requires Replays(s, runner) && t.Release?
    ensures ApplyTransition(s, t).Success?
       <==> && t.expectedStateDigest == Sha256(s) && t.release.expectedStateDigest == Sha256(s)
            && exists l <- s.ActiveLeases() :: Copies(t.release, l)
  {
    hide LeasesIn, ReleasesIn, Unreleased, Replay, ApplyTransition, Matches;
    ReleaseChecks(s, t);
    CanonicalStateSafe(runner, s.transitions);
    OneActiveMatch(s, t.release.leaseId, t.release.leaseDigest);
  }

  lemma ReleaseChecks(s: RunnerCapacityState, t: CapacityTransition)
    requires t.Release?
    ensures var matches := Matches(s.ActiveLeases(), t.release.leaseId, t.release.leaseDigest);
            ApplyTransition(s, t).Success?
            <==> && t.expectedStateDigest == Sha256(s) && t.release.expectedStateDigest == Sha256(s)
                 && |matches| == 1 && Copies(t.release, matches[0])
  {
    hide LeasesIn, ReleasesIn, Unreleased, Matches;
  }

  lemma OneActiveMatch(s: RunnerCapacityState, id: StableId<CapacityLease>, digest: Digest<CapacityLease>)
    requires AllocatorSafe(s)
    ensures var matches := Matches(s.ActiveLeases(), id, digest);
            && (|matches| == 1 <==> exists l <- s.ActiveLeases() :: StableId(l) == id && Sha256(l) == digest)
            && (|matches| == 1 ==> matches[0] in s.ActiveLeases() && StableId(matches[0]) == id && Sha256(matches[0]) == digest)
  {
    hide LeasesIn, ReleasesIn, Unreleased, Matches;
    AtMostOneMatch(s.ActiveLeases(), id, digest);
    MatchesMember(s.ActiveLeases(), id, digest);
    var matches := Matches(s.ActiveLeases(), id, digest);
    if |matches| == 1 { assert matches[0] in matches; }
  }

  // ---------------------------------------------------------------- reservations

  /** What decides about a reservation, whether an authorization or a lease says so */
  datatype Claim = Claim(sessionId: string, logicalAttempt: nat, authorizationDigest: Digest<PhysicalAttemptAuthorization>,
                         physicalAttempt: nat, previousInvocationId: Option<string>,
                         previousReceiptDigest: Option<Digest<PhysicalReceipt>>)

  function ClaimOf(auth: PhysicalAttemptAuthorization): Claim {
    Claim(auth.request.sessionId, auth.request.attempt, Sha256(auth), auth.physicalAttempt, auth.previousInvocationId,
          auth.previousReceiptDigest)
  }

  function ClaimIn(l: CapacityLease): Claim {
    Claim(l.sessionId, l.logicalAttempt, l.authorizationDigest, l.physicalAttempt, l.previousInvocationId,
          l.previousReceiptDigest)
  }

  /** The attempt before this one was released after an outcome that was not completed, and the claim names that
      attempt and its receipt. */
  ghost predicate RetriesReleased(s: RunnerCapacityState, c: Claim) {
    exists r <- s.Releases() ::
      && r.cause.TerminalOutcome? && r.cause.transportStatus != Completed
      && r.sessionId == c.sessionId && r.logicalAttempt == c.logicalAttempt && r.physicalAttempt + 1 == c.physicalAttempt
      && c.previousInvocationId == Some(r.invocationId)
      && c.previousReceiptDigest == Some(r.cause.receiptDigest)
  }

  ghost predicate MayHold(s: RunnerCapacityState, c: Claim) {
    && |s.ActiveLeases()| < s.maxParallelism
    && (forall l <- s.Leases() :: l.authorizationDigest != c.authorizationDigest)
    && (forall l <- s.ActiveLeases() :: (l.sessionId, l.logicalAttempt) != (c.sessionId, c.logicalAttempt))
    && (if c.physicalAttempt == 1 then c.previousInvocationId.None? && c.previousReceiptDigest.None?
        else RetriesReleased(s, c))
  }

  /** The lease holds the least slot that no active lease holds, for this authorization, from this state on. */
  ghost predicate Holds(s: RunnerCapacityState, runner: RunnerCapabilities, auth: PhysicalAttemptAuthorization, l: CapacityLease) {
    && (l.runnerId, l.runnerCapabilityDigest) == (runner.runnerId, Sha256(runner))
    && (l.sessionId, l.logicalAttempt) == (auth.request.sessionId, auth.request.attempt)
    && l.authorizationId == StableId(auth) && l.authorizationDigest == Sha256(auth)
    && (l.invocationId, l.physicalAttempt) == (auth.request.invocationId, auth.physicalAttempt)
    && (l.previousInvocationId, l.previousReceiptDigest) == (auth.previousInvocationId, auth.previousReceiptDigest)
    && l.expectedStateDigest == Sha256(s)
    && l.slot < s.maxParallelism && (forall x <- s.ActiveLeases() :: x.slot != l.slot)
    && forall k: nat | k < l.slot :: Occupied(s, k)
  }

  ghost predicate Occupied(s: RunnerCapacityState, slot: nat) { exists x <- s.ActiveLeases() :: x.slot == slot }

  /** A reservation succeeds if and only if the state is canonical, the request is the session's own, there is room,
      the authorization was never leased, its session and attempt hold nothing, and it is a first attempt or retries a
      released one.  It commits one lease, which describes the authorization and takes the least free slot. */
  lemma ReservesExactly(s: RunnerCapacityState, ctx: ExecutionContext, auth: PhysicalAttemptAuthorization)
    ensures var r := ReserveCapacity(s, ctx, auth);
            && (r.Success? <==> Replays(s, ctx.runner) && RequestFits(ctx, auth.request) && MayHold(s, ClaimOf(auth)))
            && (r.Success? ==>
                  var (next, grant) := r.value;
                  var t := Reserve(Sha256(s), grant.lease);
                  && Holds(s, ctx.runner, auth, grant.lease)
                  && Appends(s, t, next) && next.ActiveLeases() == s.ActiveLeases() + [grant.lease]
                  && grant == LeaseGrant(grant.lease, Sha256(t), Sha256(next), s.generation + 1))
  {
    hide Replay, ApplyTransition, LeasesIn, ReleasesIn, Unreleased, FirstFree, OccupiedSlots, PredecessorReleased, ActiveKey,
         VerifyDispatchRequest, RequestFits;
    RequestVerifiesExactly(ctx, auth.request);
    MayHoldExactly(s, ClaimOf(auth));
    ReserveCommitsProposal(s, ctx, auth);
    if |s.ActiveLeases()| < s.maxParallelism { FreeSlotExists(s); }
    BoundRequest(ctx, auth.request);
    if ReserveCapacity(s, ctx, auth).Success? {
      ReservedLease(s, ctx, auth);
    }
  }

  lemma BoundRequest(ctx: ExecutionContext, request: AdapterDispatchRequest)
    ensures RequestFits(ctx, request) ==> request.runnerId == ctx.runner.runnerId && request.runnerCapabilityDigest == Sha256(ctx.runner)
  {
  }

  lemma MayHoldExactly(s: RunnerCapacityState, c: Claim)
    ensures var key := (c.sessionId, c.logicalAttempt);
            MayHold(s, c)
            <==> && |s.ActiveLeases()| < s.maxParallelism
                 && !(exists l <- s.Leases() :: l.authorizationDigest == c.authorizationDigest)
                 && !ActiveKey(s, key)
                 && PredecessorReleased(s, key, c.physicalAttempt, c.previousInvocationId, c.previousReceiptDigest)
  {
    hide LeasesIn, ReleasesIn, Unreleased;
    if RetriesReleased(s, c) {
      var r :| && r in s.Releases() && r.cause.TerminalOutcome? && r.cause.transportStatus != Completed
               && r.sessionId == c.sessionId && r.logicalAttempt == c.logicalAttempt
               && r.physicalAttempt + 1 == c.physicalAttempt
               && c.previousInvocationId == Some(r.invocationId) && c.previousReceiptDigest == Some(r.cause.receiptDigest);
      assert ReleasesPredecessor(r, (c.sessionId, c.logicalAttempt), c.physicalAttempt, c.previousInvocationId,
                                 c.previousReceiptDigest);
    }
  }

  /** Whoever made it, a reservation is accepted if and only if it was made for this state and runner, its slot is
      free, and its lease is new and may hold it. */
  lemma ReserveAcceptedExactly(s: RunnerCapacityState, t: CapacityTransition)
    requires t.Reserve?
    ensures ApplyTransition(s, t).Success?
       <==> && t.expectedStateDigest == Sha256(s) && t.lease.expectedStateDigest == Sha256(s)
            && (t.lease.runnerId, t.lease.runnerCapabilityDigest) == (s.runnerId, s.runnerCapabilityDigest)
            && t.lease.slot < s.maxParallelism && !Occupied(s, t.lease.slot)
            && t.lease !in s.Leases() && MayHold(s, ClaimIn(t.lease))
  {
    hide LeasesIn, ReleasesIn, Unreleased, ApplyTransition, PredecessorReleased, ActiveKey, MayHold;
    ReserveAccepted(s, t);
    MayHoldExactly(s, ClaimIn(t.lease));
    KeyActive(s, t.lease);
  }

  lemma KeyActive(s: RunnerCapacityState, l: CapacityLease)
    ensures ActiveKey(s, (l.sessionId, l.logicalAttempt)) <==> exists x <- s.ActiveLeases() :: x.Key() == l.Key()
    ensures l.Key() == (l.sessionId, l.logicalAttempt)
  {
    hide LeasesIn, ReleasesIn, Unreleased;
  }

  lemma ReservedLease(s: RunnerCapacityState, ctx: ExecutionContext, auth: PhysicalAttemptAuthorization)
    requires ReserveCapacity(s, ctx, auth).Success?
    ensures var (next, grant) := ReserveCapacity(s, ctx, auth).value;
            var t := Reserve(Sha256(s), grant.lease);
            && Holds(s, ctx.runner, auth, grant.lease) && Appends(s, t, next) && grant.generation == s.generation + 1
            && next.ActiveLeases() == s.ActiveLeases() + [grant.lease]
  {
    hide Replay, ApplyTransition, LeasesIn, ReleasesIn, Unreleased, FirstFree, PredecessorReleased, ActiveKey,
         VerifyDispatchRequest, AllocatorSafe;
    var t := ProposeReservation(s, ctx, auth).value;
    ProposalAccepted(s, ctx, auth);
    ProposedLease(s, ctx, auth);
    hide ProposeReservation;
    ApplyAdvances(s, t);
    ReserveAccepted(s, t);
    CanonicalStateSafe(ctx.runner, s.transitions);
    SafeAfterReserve(s, t);
  }

  lemma ProposedLease(s: RunnerCapacityState, ctx: ExecutionContext, auth: PhysicalAttemptAuthorization)
    requires ProposeReservation(s, ctx, auth).Success?
    ensures var t := ProposeReservation(s, ctx, auth).value;
            t.Reserve? && t.expectedStateDigest == Sha256(s) && Holds(s, ctx.runner, auth, t.lease)
  {
    hide Replay, LeasesIn, ReleasesIn, Unreleased, FirstFree, PredecessorReleased, ActiveKey, VerifyDispatchRequest;
    var l := ProposeReservation(s, ctx, auth).value.lease;
    var slot := FirstFree(OccupiedSlots(s), 0, s.maxParallelism);
    assert slot == Some(l.slot);
    assert forall x <- s.ActiveLeases() :: x.slot in OccupiedSlots(s);
    forall k: nat | k < l.slot ensures Occupied(s, k) {
      assert k in OccupiedSlots(s);
    }
  }

  // ---------------------------------------------------------------- releases

  /** The lease is given back for this cause, and nothing else happens to the state. */
  ghost predicate GivesBack(s: RunnerCapacityState, l: CapacityLease, cause: ReleaseCause, next: RunnerCapacityState,
                            grant: ReleaseGrant)
  {
    var t := Release(Sha256(s), grant.release);
    && Copies(grant.release, l) && grant.release.cause == cause && grant.release.expectedStateDigest == Sha256(s)
    && Appends(s, t, next)
    && (forall x :: x in next.ActiveLeases() <==> x in s.ActiveLeases() && x != l)
    && grant == ReleaseGrant(grant.release, Sha256(t), Sha256(next), s.generation + 1)
  }

  /** A release for a revoked session gives back the session's own lease and changes nothing else. */
  lemma RevocationGivesBack(s: RunnerCapacityState, runner: RunnerCapabilities, lease: CapacityLease, session: ExecutionSession)
    requires ReleaseForRevocation(s, runner, lease, session).Success?
    ensures var (next, grant) := ReleaseForRevocation(s, runner, lease, session).value;
            GivesBack(s, lease, SessionRevoked(Sha256(session)), next, grant)
  {
    hide Replay, ReleaseForRevocation, LeasesIn, ReleasesIn, Unreleased, GivesBack;
    RevocationCommitsProposal(s, runner, lease, session);
    var (next, grant) := ReleaseForRevocation(s, runner, lease, session).value;
    ReleasedExactly(s, runner, lease, next, grant);
  }

  /** So does a release for an outcome, which it names with its receipt and its status. */
  lemma OutcomeGivesBack(s: RunnerCapacityState, ctx: ExecutionContext, lease: CapacityLease, outcome: PhysicalOutcomeBundle)
    requires ReleaseForOutcome(s, ctx, lease, outcome).Success?
    ensures var (next, grant) := ReleaseForOutcome(s, ctx, lease, outcome).value;
            GivesBack(s, lease, TerminalOutcome(Sha256(outcome), Sha256(outcome.receipt), outcome.receipt.transportStatus),
                      next, grant)
  {
    hide Replay, ReleaseForOutcome, LeasesIn, ReleasesIn, Unreleased, GivesBack, VerifyPhysicalOutcome;
    ReleaseCommitsProposal(s, ctx, lease, outcome);
    var (next, grant) := ReleaseForOutcome(s, ctx, lease, outcome).value;
    ReleasedExactly(s, ctx.runner, lease, next, grant);
  }

  lemma ReleasedExactly(s: RunnerCapacityState, runner: RunnerCapabilities, l: CapacityLease, next: RunnerCapacityState,
                        grant: ReleaseGrant)
    requires Replays(s, runner) && Replays(next, runner) && l in s.ActiveLeases()
    requires grant.release == ReleaseOf(l, grant.release.cause, s)
    requires next.transitions == s.transitions + [Release(Sha256(s), grant.release)]
    requires grant == ReleaseGrant(grant.release, Sha256(Release(Sha256(s), grant.release)), Sha256(next), next.generation)
    ensures GivesBack(s, l, grant.release.cause, next, grant)
  {
    hide ApplyTransition, LeasesIn, ReleasesIn, Unreleased;
    var t := Release(Sha256(s), grant.release);
    ReplayShape(runner, s.transitions);
    ReplayStep(runner, next.transitions, |s.transitions|);
    assert next.transitions[..|s.transitions|] == s.transitions;
    assert next.transitions[..|s.transitions| + 1] == next.transitions;
    ApplyAdvances(s, t);
    ViewsAfterRelease(s, t);
    UnreleasedMembers(s.Leases(), ReleasedIds(s.Releases()));
    UnreleasedMembers(next.Leases(), ReleasedIds(next.Releases()));
    assert ReleasedIds(next.Releases()) == ReleasedIds(s.Releases()) + {StableId(l)};
  }

  // ---------------------------------------------------------------- grants

  /** The transition is the history's own at this generation, and `committed` is where it led. */
  ghost predicate CommittedTo(s: RunnerCapacityState, runner: RunnerCapabilities, k: nat, committed: RunnerCapacityState) {
    && 1 <= k <= |s.transitions|
    && Replays(committed, runner) && committed.transitions == s.transitions[..k]
  }

  /** A lease grant verifies if and only if it is the one that the commit at its generation handed out and its lease is
      still active: no other values make a grant. */
  lemma LeaseGrantIsTheCommitted(s: RunnerCapacityState, runner: RunnerCapabilities, grant: LeaseGrant)
    ensures VerifyActiveLeaseGrant(s, runner, grant)
       <==> && Replays(s, runner) && grant.lease in s.ActiveLeases()
            && exists committed ::
                 && CommittedTo(s, runner, grant.generation, committed)
                 && var t := s.transitions[grant.generation - 1];
                    t == Reserve(t.expectedStateDigest, grant.lease)
                    && grant == LeaseGrant(grant.lease, Sha256(t), Sha256(committed), grant.generation)
  {
    hide LeasesIn, ReleasesIn, Unreleased, ApplyTransition;
    if Replays(s, runner) { CommittedAtExactly(s, runner, grant.generation); }
  }

  /** So does a release grant, without the condition that a lease is active. */
  lemma ReleaseGrantIsTheCommitted(s: RunnerCapacityState, runner: RunnerCapabilities, grant: ReleaseGrant)
    ensures VerifyReleaseGrant(s, runner, grant)
       <==> && Replays(s, runner)
            && exists committed ::
                 && CommittedTo(s, runner, grant.generation, committed)
                 && var t := s.transitions[grant.generation - 1];
                    t == Release(t.expectedStateDigest, grant.release)
                    && grant == ReleaseGrant(grant.release, Sha256(t), Sha256(committed), grant.generation)
  {
    hide LeasesIn, ReleasesIn, Unreleased, ApplyTransition;
    ViewsOfHistory(s);
    if Replays(s, runner) { CommittedAtExactly(s, runner, grant.generation); }
  }

  lemma CommittedAtExactly(s: RunnerCapacityState, runner: RunnerCapabilities, k: nat)
    requires Replays(s, runner)
    ensures CommittedAt(s, runner, k).Some? <==> 1 <= k <= |s.transitions|
    ensures CommittedAt(s, runner, k).Some? ==>
              && CommittedTo(s, runner, k, CommittedAt(s, runner, k).value.0)
              && CommittedAt(s, runner, k).value.1 == s.transitions[k - 1]
    ensures forall committed | CommittedTo(s, runner, k, committed) :: CommittedAt(s, runner, k).value.0 == committed
  {
    hide ApplyTransition;
    ReplayShape(runner, s.transitions);
    if 1 <= k <= |s.transitions| {
      if Replay(runner, s.transitions[..k]).None? { ReplayPrefixClosed(runner, s.transitions, k); }
      ReplayShape(runner, s.transitions[..k]);
    }
  }
}
