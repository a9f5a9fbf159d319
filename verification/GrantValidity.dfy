/**
  Which later states a lease grant or a release grant verifies in
  (src/general_execution/capacity.py, `_committed_transition_at_generation` and the grant verifiers).
 */
module GrantValidity {
  import opened Canonical
  import opened Physical
  import opened Capacity
  import opened AllocatorSafety
  import opened CapacityGrants

  /** The state and transition committed at a generation, if the history replays that far. */
  function CommittedAt(s: RunnerCapacityState, runner: RunnerCapabilities, generation: nat)
    : Option<(RunnerCapacityState, CapacityTransition)>
  {
    if generation < 1 || generation > s.generation || generation > |s.transitions| then None
    else match Replay(runner, s.transitions[..generation])
      case None => None
      case Some(committed) => Some((committed, s.transitions[generation - 1]))
  }

  method CommittedTransitionAtGeneration(s: RunnerCapacityState, runner: RunnerCapabilities, generation: nat)
    returns (found: Option<(RunnerCapacityState, CapacityTransition)>)
    ensures found == CommittedAt(s, runner, generation)
  {
    if generation < 1 || generation > s.generation {
      return None;
    }
    hide ApplyTransition, Replay;
    var current := InitialCapacityState(runner);
    ReplayNothing(runner, s.transitions);
    for i := 0 to |s.transitions|
      invariant Replay(runner, s.transitions[..i]) == Some(current)
      invariant i < generation
    {
      ReplayUnfold(runner, s.transitions, i);
      var next := ApplyTransition(current, s.transitions[i]);
      if next.Failure? {
        NothingCommittedPast(s, runner, i, generation);
        return None;
      }
      current := next.value;
      if i + 1 == generation {
        return Some((current, s.transitions[i]));
      }
    }
    return None;
  }

  lemma NothingCommittedPast(s: RunnerCapacityState, runner: RunnerCapabilities, i: nat, generation: nat)
    requires i < |s.transitions| && i < generation && Replay(runner, s.transitions[..i + 1]).None?
    ensures CommittedAt(s, runner, generation).None?
  {
    hide ApplyTransition;
    if generation <= |s.transitions| {
      assert s.transitions[..generation][..i + 1] == s.transitions[..i + 1];
      ReplayPrefixClosed(runner, s.transitions[..generation], i + 1);
    }
  }

  lemma ReplayNothing(runner: RunnerCapabilities, ts: seq<CapacityTransition>)
    ensures Replay(runner, ts[..0]) == Some(InitialCapacityState(runner))
  {
  }

  predicate VerifyActiveLeaseGrant(s: RunnerCapacityState, runner: RunnerCapabilities, grant: LeaseGrant) {
    && Replays(s, runner)
    && var found := CommittedAt(s, runner, grant.generation);
    && found.Some?
    && found.value.1.Reserve?
    && found.value.1.lease == grant.lease
    && Sha256(found.value.1) == grant.transitionDigest
    && Sha256(found.value.0) == grant.stateDigest
    && grant.lease in s.ActiveLeases()
  }

  predicate VerifyReleaseGrant(s: RunnerCapacityState, runner: RunnerCapabilities, grant: ReleaseGrant) {
    && Replays(s, runner)
    && var found := CommittedAt(s, runner, grant.generation);
    && found.Some?
    && found.value.1.Release?
    && found.value.1.release == grant.release
    && Sha256(found.value.1) == grant.transitionDigest
    && Sha256(found.value.0) == grant.stateDigest
    && grant.release in s.Releases()
  }

  // ---------------------------------------------------------------- histories that extend one another

  lemma {:induction false} ViewsMonotone(ts: seq<CapacityTransition>, k: nat)
    requires k <= |ts|
    ensures LeasesIn(ts[..k]) <= LeasesIn(ts) && ReleasesIn(ts[..k]) <= ReleasesIn(ts)
    decreases |ts|
  {
    if k == |ts| {
      assert ts[..k] == ts;
    } else {
      ViewsMonotone(ts[..|ts| - 1], k);
      assert ts[..|ts| - 1][..k] == ts[..k];
    }
  }

  /** Among canonical states, committing at a generation with a given digest is the same as sharing that prefix. */
  lemma CommittedPrefix(later: RunnerCapacityState, runner: RunnerCapabilities, mid: RunnerCapacityState)
    requires Replays(later, runner) && Replays(mid, runner) && mid.generation >= 1
    ensures var found := CommittedAt(later, runner, mid.generation);
            (found.Some? && found.value.0 == mid) <==> mid.transitions <= later.transitions
  {
    hide ApplyTransition;
    var k := mid.generation;
    ReplayShape(runner, later.transitions);
    ReplayShape(runner, mid.transitions);
    if mid.transitions <= later.transitions {
      assert later.transitions[..k] == mid.transitions;
    } else if k <= |later.transitions| && Replay(runner, later.transitions[..k]) == Some(mid) {
      ReplayShape(runner, later.transitions[..k]);
    }
  }

  /** Once a lease has left the active set it never returns, however the history grows. */
  lemma ReleasedForGood(mid: RunnerCapacityState, later: RunnerCapacityState, l: CapacityLease)
    requires mid.transitions <= later.transitions
    requires l in mid.Leases() && l !in mid.ActiveLeases()
    ensures l in later.Leases() && l !in later.ActiveLeases()
  {
    hide LeasesIn, ReleasesIn, Unreleased;
    assert later.transitions[..|mid.transitions|] == mid.transitions;
    ViewsMonotone(later.transitions, |mid.transitions|);
    UnreleasedMembers(mid.Leases(), ReleasedIds(mid.Releases()));
    UnreleasedMembers(later.Leases(), ReleasedIds(later.Releases()));
  }

  // ---------------------------------------------------------------- token validity

  /** A lease grant verifies in exactly those canonical states that extend the commit that issued it
      and in which its lease is still active. */
  lemma LeaseGrantValidity(s: RunnerCapacityState, ctx: ExecutionContext, auth: PhysicalAttemptAuthorization,
                           later: RunnerCapacityState)
    requires ReserveCapacity(s, ctx, auth).Success?
    ensures var (issued, grant) := ReserveCapacity(s, ctx, auth).value;
            VerifyActiveLeaseGrant(later, ctx.runner, grant)
            <==> (Replays(later, ctx.runner) && issued.transitions <= later.transitions
                  && grant.lease in later.ActiveLeases())
  {
    hide ApplyTransition, ReserveCapacity, Replay;
    ReserveCommitsProposal(s, ctx, auth);
    var (issued, grant) := ReserveCapacity(s, ctx, auth).value;
    ReplayShape(ctx.runner, issued.transitions);
    if Replays(later, ctx.runner) {
      CommittedPrefix(later, ctx.runner, issued);
    }
  }

  /** Across a run of growing canonical states, a lease grant that has stopped verifying never verifies again. */
  lemma LeaseGrantNeverRevives(s: RunnerCapacityState, ctx: ExecutionContext, auth: PhysicalAttemptAuthorization,
                               mid: RunnerCapacityState, later: RunnerCapacityState)
    requires ReserveCapacity(s, ctx, auth).Success?
    requires ReserveCapacity(s, ctx, auth).value.0.transitions <= mid.transitions <= later.transitions
    requires Replays(mid, ctx.runner) && Replays(later, ctx.runner)
    requires !VerifyActiveLeaseGrant(mid, ctx.runner, ReserveCapacity(s, ctx, auth).value.1)
    ensures !VerifyActiveLeaseGrant(later, ctx.runner, ReserveCapacity(s, ctx, auth).value.1)
  {
    hide ApplyTransition, ReserveCapacity, Replay, VerifyActiveLeaseGrant, LeasesIn, ReleasesIn, Unreleased;
    var (issued, grant) := ReserveCapacity(s, ctx, auth).value;
    LeaseGrantValidity(s, ctx, auth, mid);
    LeaseGrantValidity(s, ctx, auth, later);
    ReserveCommitsProposal(s, ctx, auth);
    assert mid.transitions[..|issued.transitions|] == issued.transitions;
    ViewsMonotone(mid.transitions, |issued.transitions|);
    UnreleasedMembers(issued.Leases(), ReleasedIds(issued.Releases()));
    assert grant.lease in mid.Leases();
    ReleasedForGood(mid, later, grant.lease);
  }

  /** A grant for a release after a terminal outcome verifies in exactly the canonical states that extend the
      commit that issued it. */
  lemma ReleaseGrantValidity(s: RunnerCapacityState, ctx: ExecutionContext, lease: CapacityLease,
                             outcome: PhysicalOutcomeBundle, later: RunnerCapacityState)
    requires ReleaseForOutcome(s, ctx, lease, outcome).Success?
    ensures var (issued, grant) := ReleaseForOutcome(s, ctx, lease, outcome).value;
            VerifyReleaseGrant(later, ctx.runner, grant)
            <==> (Replays(later, ctx.runner) && issued.transitions <= later.transitions)
  {
    hide ReleaseForOutcome, Replay, VerifyReleaseGrant;
    ReleaseCommitsProposal(s, ctx, lease, outcome);
    var (issued, grant) := ReleaseForOutcome(s, ctx, lease, outcome).value;
    CommittedReleaseValidity(s, ctx.runner, issued, grant, later);
  }

  /** So does a grant for a release after a revoked session. */
  lemma RevocationGrantValidity(s: RunnerCapacityState, runner: RunnerCapabilities, lease: CapacityLease,
                                session: ExecutionSession, later: RunnerCapacityState)
    requires ReleaseForRevocation(s, runner, lease, session).Success?
    ensures var (issued, grant) := ReleaseForRevocation(s, runner, lease, session).value;
            VerifyReleaseGrant(later, runner, grant)
            <==> (Replays(later, runner) && issued.transitions <= later.transitions)
  {
    hide ReleaseForRevocation, Replay, VerifyReleaseGrant;
    RevocationCommitsProposal(s, runner, lease, session);
    var (issued, grant) := ReleaseForRevocation(s, runner, lease, session).value;
    CommittedReleaseValidity(s, runner, issued, grant, later);
  }

  /** Both kinds of release hand out a grant that describes the transition they committed. */
  lemma CommittedReleaseValidity(s: RunnerCapacityState, runner: RunnerCapabilities, issued: RunnerCapacityState,
                                 grant: ReleaseGrant, later: RunnerCapacityState)
    requires Replays(issued, runner) && issued.transitions == s.transitions + [Release(Sha256(s), grant.release)]
    requires grant == ReleaseGrant(grant.release, Sha256(Release(Sha256(s), grant.release)), Sha256(issued),
                                   issued.generation)
    ensures VerifyReleaseGrant(later, runner, grant)
       <==> Replays(later, runner) && issued.transitions <= later.transitions
  {
    hide ApplyTransition, Replay, ReleasesIn, LeasesIn;
    ReplayShape(runner, issued.transitions);
    if Replays(later, runner) {
      CommittedPrefix(later, runner, issued);
      if issued.transitions <= later.transitions {
        assert later.transitions[..|issued.transitions|] == issued.transitions;
        ViewsMonotone(later.transitions, |issued.transitions|);
        LastRelease(issued.transitions);
      }
    }
  }

  lemma LastRelease(ts: seq<CapacityTransition>)
    requires ts != [] && ts[|ts| - 1].Release?
    ensures ts[|ts| - 1].release in ReleasesIn(ts)
  {
  }
}
