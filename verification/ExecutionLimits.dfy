/**
  Where the guarantees of the execution protocol stop, with runs that get there: a revocation can forestall
  the release of an observed outcome for good, and any commit of its runner ends a live permit.
 */
module ExecutionLimits {
  import opened Canonical
  import opened Physical
  import opened Capacity
  import opened AllocatorSafety
  import opened CapacityGrants
  import opened GrantValidity
  import opened LeaseLifecycle
  import opened DurableCapacity
  import opened Dispatch
  import opened OutcomeStore
  import opened ExecutionRuns
  import opened ExecutionInvariant
  import opened ExecutionSafety
  import opened ExecutionTheorems
  import opened ExecutionCalls
  import opened DispatchGuard

  /** The head of a runner that is known to the capacity table of a run */
  ghost predicate KnownRunner(w: World, runner: RunnerCapabilities) {
    runner.runnerId in w.heads && w.heads[runner.runnerId].capabilityDigest == Sha256(runner)
  }

  function CommitOn(w: World, runner: RunnerCapabilities, next: RunnerCapacityState): Step
    requires runner.runnerId in w.heads
  {
    CommitHead(runner, Sha256(History(w.heads, runner.runnerId)), next)
  }

  /** A client that has read the head can always commit a successor of it. */
  lemma CommitLands(steps: seq<Step>, runner: RunnerCapabilities, next: RunnerCapacityState)
    requires KnownRunner(After(steps), runner) && IsSuccessor(History(After(steps).heads, runner.runnerId), next)
    ensures var w := After(steps);
            After(steps + [CommitOn(w, runner, next)]) == w.(heads := w.heads[runner.runnerId := EncodeRow(next)])
  {
    hide After, Inv, CommitTx, IsSuccessor;
    RunKeepsInv(steps);
    InvStores(After(steps));
    OneMoreStep(steps, CommitOn(After(steps), runner, next));
    CommitAcceptsSuccessors(After(steps).heads, runner, Sha256(History(After(steps).heads, runner.runnerId)), next);
  }

  lemma ReservationIsSuccessor(s: RunnerCapacityState, ctx: ExecutionContext, auth: PhysicalAttemptAuthorization)
    requires ReserveCapacity(s, ctx, auth).Success?
    ensures IsSuccessor(s, ReserveCapacity(s, ctx, auth).value.0)
  {
    hide ApplyTransition, ProposeReservation;
  }

  lemma RevocationIsSuccessor(s: RunnerCapacityState, runner: RunnerCapabilities, l: CapacityLease, session: ExecutionSession)
    requires ReleaseForRevocation(s, runner, l, session).Success?
    ensures IsSuccessor(s, ReleaseForRevocation(s, runner, l, session).value.0)
  {
    hide ApplyTransition, ProposeRevocationRelease;
  }

  // ---------------------------------------------------------------- releases forestalled by a revocation

  /** Whenever an outcome is observed and its lease still active, releasing the lease for a revoked session
      leaves it released for another reason than the outcome. */
  lemma RevocationForestallsRelease(steps: seq<Step>, id: IntentId, runner: RunnerCapabilities, l: CapacityLease,
                                    session: ExecutionSession)
    requires id in After(steps).outcomes && KnownRunner(After(steps), runner)
    requires After(steps).outcomes[id].runnerId == runner.runnerId && After(steps).outcomes[id].leaseId == StableId(l)
    requires ReleaseForRevocation(History(After(steps).heads, runner.runnerId), runner, l, session).Success?
    ensures var w := After(steps);
            var next := ReleaseForRevocation(History(w.heads, runner.runnerId), runner, l, session).value.0;
            var after := After(steps + [CommitOn(w, runner, next)]);
            after.outcomes == w.outcomes && ReleasedOtherwise(after.heads, w.outcomes[id])
  {
    hide After, ReleaseForRevocation, IsSuccessor, LeasesIn, ReleasesIn, Unreleased;
    var s := History(After(steps).heads, runner.runnerId);
    var (next, grant) := ReleaseForRevocation(s, runner, l, session).value;
    RevocationIsSuccessor(s, runner, l, session);
    RevocationCommitsProposal(s, runner, l, session);
    CommitLands(steps, runner, next);
    assert grant.release in next.Releases() by {
      LastRelease(next.transitions);
    }
  }

  /** It stays so along every continuation of the run, and no restart-driven release of that intent, in
      whatever execution context, ever finishes again. */
  lemma ForestalledForGood(steps: seq<Step>, k: nat, id: IntentId, ctx: ExecutionContext)
    requires k <= |steps| && id in After(steps[..k]).outcomes
    requires ReleasedOtherwise(After(steps[..k]).heads, After(steps[..k]).outcomes[id])
    ensures id in After(steps).outcomes && After(steps).outcomes[id] == After(steps[..k]).outcomes[id]
    ensures var w := After(steps);
            ReleasedOtherwise(w.heads, w.outcomes[id]) && ReleaseAloneTx(w.intents, w.outcomes, w.heads, id, ctx).1.Failure?
  {
    hide After, Inv, ReleasesIn, ReleaseMatchesRecord, VerifyPhysicalOutcome;
    RunGrows(steps, k);
    var before, w, record := After(steps[..k]), After(steps), After(steps[..k]).outcomes[id];
    var r :| r in History(before.heads, record.runnerId).Releases()
             && r.leaseId == record.leaseId && !ReleaseMatchesRecord(r, record);
    KnownReleaseStays(before.heads, w.heads, record.runnerId, r);
    if VerifyPhysicalOutcome(ctx, w.outcomes[id].outcome) {
      RestartReleaseFinishes(steps, id, ctx);
    } else {
      UnverifiedFails(w.intents, w.outcomes, w.heads, id, ctx);
    }
  }

  lemma UnverifiedFails(intents: Intents, outcomes: Outcomes, heads: Heads, id: IntentId, ctx: ExecutionContext)
    requires id in outcomes && !VerifyPhysicalOutcome(ctx, outcomes[id].outcome)
    ensures ReleaseAloneTx(intents, outcomes, heads, id, ctx).1.Failure?
  {
    hide VerifyPhysicalOutcome, VerifyIntrinsicOutcome, OutcomeMatchesState, ReleaseRecordTx, LoadIntentTx;
  }

  // ---------------------------------------------------------------- permits ended by another lease

  /** Reserving for another authorization leaves the lease of a permit active and ends the permit. */
  lemma ReservationEndsPermit(steps: seq<Step>, state: IntentState, permit: DispatchPermit, ctx: ExecutionContext,
                              auth: PhysicalAttemptAuthorization)
    requires AuthorizeLiveDispatch(After(steps).heads, state, permit, ctx.runner).Success?
    requires ctx.runner.runnerId in After(steps).heads
    requires ReserveCapacity(History(After(steps).heads, ctx.runner.runnerId), ctx, auth).Success?
    ensures var w := After(steps);
            var s := History(w.heads, ctx.runner.runnerId);
            var next := ReserveCapacity(s, ctx, auth).value.0;
            var after := After(steps + [CommitOn(w, ctx.runner, next)]);
            && ctx.runner.runnerId in after.heads
            && (forall l <- s.ActiveLeases() :: l in History(after.heads, ctx.runner.runnerId).ActiveLeases())
            && !VerifyLiveDispatchPermit(after.heads, state, permit,
                                         AuthorizeLiveDispatch(w.heads, state, permit, ctx.runner).value, ctx.runner)
  {
    hide After, Inv, AuthorizeLiveDispatch, VerifyLiveDispatchPermit, ReserveCapacity, IsSuccessor, LeasesIn, ReleasesIn,
         Unreleased, Replay, AllocatorSafe;
    var w := After(steps);
    var s := History(w.heads, ctx.runner.runnerId);
    var (next, grant) := ReserveCapacity(s, ctx, auth).value;
    RunKeepsInv(steps);
    InvStores(w);
    PermitHead(w.heads, state, permit, ctx.runner);
    ReservationIsSuccessor(s, ctx, auth);
    ReserveCommitsProposal(s, ctx, auth);
    CommitLands(steps, ctx.runner, next);
    ReserveKeepsActive(s, next, grant.lease);
    var later := steps + [CommitOn(w, ctx.runner, next)];
    assert later[..|steps|] == steps;
    PermitUntilNextCommit(later, |steps|, state, permit, ctx.runner);
  }

  lemma PermitHead(heads: Heads, state: IntentState, permit: DispatchPermit, runner: RunnerCapabilities)
    requires AuthorizeLiveDispatch(heads, state, permit, runner).Success?
    ensures runner.runnerId in heads && heads[runner.runnerId].capabilityDigest == Sha256(runner)
  {
    hide Matches, Replay;
  }

  lemma ReserveKeepsActive(s: RunnerCapacityState, next: RunnerCapacityState, l: CapacityLease)
    requires next.transitions == s.transitions + [Reserve(Sha256(s), l)]
    ensures forall x <- s.ActiveLeases() :: x in next.ActiveLeases()
  {
    hide Unreleased;
    assert next.transitions[..|s.transitions|] == s.transitions;
    UnreleasedMembers(s.Leases(), ReleasedIds(s.Releases()));
    UnreleasedMembers(next.Leases(), ReleasedIds(next.Releases()));
  }
}
