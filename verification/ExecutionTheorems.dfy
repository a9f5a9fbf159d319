/** Safety over whole runs of the execution protocol, for every interleaving of clients and crashes. */
module ExecutionTheorems {
  import opened Canonical
  import opened Physical
  import opened Capacity
  import opened AllocatorSafety
  import opened CapacityGrants
  import opened GrantValidity
  import opened DurableCapacity
  import opened Dispatch
  import opened OutcomeStore
  import opened ExecutionRuns
  import opened ExecutionInvariant
  import opened ExecutionSafety

  /** A lease never gets a second intent, and no intent's submission begins twice. */
  lemma SubmitsAtMostOnce(steps: seq<Step>)
    ensures var w := After(steps);
            && (forall a, b | a in w.intents && b in w.intents
                              && w.intents[a].state.intent.leaseId == w.intents[b].state.intent.leaseId :: a == b)
            && (forall i, j | 0 <= i < j < |w.begun| :: w.begun[i] != w.begun[j])
            && (forall id <- w.begun :: id in w.intents && !w.intents[id].state.Prepared?)
  {
    hide After;
    RunKeepsInv(steps);
  }

  /** Every durable head replays and is allocator-safe; in particular no lease has two releases. */
  lemma HeadsStayCanonical(steps: seq<Step>, runnerId: string)
    requires runnerId in After(steps).heads
    ensures var s := History(After(steps).heads, runnerId);
            && AllocatorSafe(s)
            && s.runnerCapabilityDigest.Sha256? && Replays(s, s.runnerCapabilityDigest.preimage)
  {
    hide After, Replay, AllocatorSafe;
    RunKeepsInv(steps);
    var s := History(After(steps).heads, runnerId);
    assert ValidRow(runnerId, After(steps).heads[runnerId]);
    CanonicalStateSafe(s.runnerCapabilityDigest.preimage, s.transitions);
  }

  /** Stale clients linearise: an earlier head is a prefix of every later one, and equal only if nothing
      was committed in between. */
  lemma HeadsLinearise(steps: seq<Step>, k: nat, runnerId: string)
    requires k <= |steps| && runnerId in After(steps[..k]).heads
    ensures runnerId in After(steps).heads
    ensures var before, now := History(After(steps[..k]).heads, runnerId), History(After(steps).heads, runnerId);
            && before.transitions <= now.transitions
            && (now == before <==> now.generation == before.generation)
            && (now != before ==> before.transitions < now.transitions)
  {
    hide After, Replay;
    RunGrows(steps, k);
    RunKeepsInv(steps);
    RunKeepsInv(steps[..k]);
    var h0, h1 := After(steps[..k]).heads, After(steps).heads;
    assert ValidRow(runnerId, h0[runnerId]) && ValidRow(runnerId, h1[runnerId]);
    SameHistorySameState(History(h0, runnerId), History(h1, runnerId), h0[runnerId].capabilityDigest.preimage);
  }

  lemma SameHistorySameState(before: RunnerCapacityState, now: RunnerCapacityState, runner: RunnerCapabilities)
    requires Replays(before, runner) && Replays(now, runner) && before.transitions <= now.transitions
    ensures now == before <==> now.generation == before.generation
    ensures now != before ==> before.transitions < now.transitions
  {
    hide Replay;
    ReplayShape(runner, before.transitions);
    ReplayShape(runner, now.transitions);
    if |now.transitions| == |before.transitions| {
      assert now.transitions == before.transitions;
    }
  }

  /** An intent at or past submission_unknown names a lease of the durable history from then on, though
      the lease was read from the other database and may since have been released. */
  lemma SubmittedLeaseIsDurable(steps: seq<Step>, k: nat, id: IntentId)
    requires k <= |steps| && id in After(steps[..k]).intents && !After(steps[..k]).intents[id].state.Prepared?
    ensures id in After(steps).intents && !After(steps).intents[id].state.Prepared?
    ensures LeaseKnown(After(steps).heads, After(steps[..k]).intents[id].state.intent)
  {
    hide After, LeaseKnown;
    RunKeepsInv(steps[..k]);
    RunGrows(steps, k);
    KnownLeaseStays(After(steps[..k]).heads, After(steps).heads, After(steps[..k]).intents[id].state.intent);
  }

  /** The outcome table and the outbox agree: a row exists exactly for observed intents and binds their state. */
  lemma OutcomeRowsAgree(steps: seq<Step>, id: IntentId)
    ensures var w := After(steps);
            && (id in w.outcomes <==> id in w.intents && w.intents[id].state.Observed?)
            && (id in w.outcomes ==>
                  && OutcomeMatchesState(w.intents[id].state, w.outcomes[id].outcome)
                  && w.outcomes[id] == RecordOf(w.intents[id].state, w.outcomes[id].outcome))
  {
    hide After, VerifyIntrinsicOutcome, OutcomeMatchesState;
    RunKeepsInv(steps);
  }

  /** Whoever finishes a restart-driven release of an intent, whenever and from whatever stale snapshot,
      reports the same release, and that release is in the durable history with the observed outcome. */
  lemma ReleaseAnswersAgree(steps: seq<Step>, i: nat, j: nat)
    requires i < |After(steps).returned| && j < |After(steps).returned|
    requires After(steps).returned[i].0 == After(steps).returned[j].0
    ensures After(steps).returned[i].1.releaseDigest == After(steps).returned[j].1.releaseDigest
    ensures ReturnOk(After(steps), After(steps).returned[i].0, After(steps).returned[i].1)
  {
    hide After, Replay, ReleasesIn, LeasesIn;
    RunKeepsInv(steps);
    var w := After(steps);
    var id, runnerId := w.returned[i].0, w.outcomes[w.returned[i].0].runnerId;
    assert ReturnOk(w, id, w.returned[i].1) && ReturnOk(w, id, w.returned[j].1);
    HeadsStayCanonical(steps, runnerId);
    SameRelease(History(w.heads, runnerId).Releases(), w.returned[i].1.releaseDigest.preimage,
                w.returned[j].1.releaseDigest.preimage);
  }

  lemma SameRelease(releases: seq<CapacityRelease>, a: CapacityRelease, b: CapacityRelease)
    requires DistinctReleases(releases) && a in releases && b in releases && a.leaseId == b.leaseId
    ensures a == b
  {
    var i :| 0 <= i < |releases| && releases[i] == a;
    var j :| 0 <= j < |releases| && releases[j] == b;
  }

  // ---------------------------------------------------------------- when a restart can finish a release

  /** The lease was given back for another reason than the observed outcome. */
  ghost predicate ReleasedOtherwise(heads: Heads, record: ObservedOutcome) {
    && record.runnerId in heads
    && exists r <- History(heads, record.runnerId).Releases() ::
         r.leaseId == record.leaseId && !ReleaseMatchesRecord(r, record)
  }

  lemma {:induction false} MatchingReleasesOnly(releases: seq<CapacityRelease>, record: ObservedOutcome)
    requires DistinctReleases(releases)
    ensures |MatchingReleases(releases, record)| <= 1
    ensures |MatchingReleases(releases, record)| == 1 <==> exists r <- releases :: ReleaseMatchesRecord(r, record)
  {
    hide ReleaseMatchesRecord;
    if releases != [] {
      var front, last := releases[..|releases| - 1], releases[|releases| - 1];
      assert releases == front + [last];
      MatchingReleasesOnly(front, record);
      if ReleaseMatchesRecord(last, record) {
        forall r | r in front ensures !ReleaseMatchesRecord(r, record) {
          var k :| 0 <= k < |front| && front[k] == r;
          assert releases[k].leaseId != releases[|releases| - 1].leaseId;
          SameLeaseId(r, last, record);
        }
      }
    }
  }

  lemma SameLeaseId(a: CapacityRelease, b: CapacityRelease, record: ObservedOutcome)
    ensures ReleaseMatchesRecord(a, record) && ReleaseMatchesRecord(b, record) ==> a.leaseId == b.leaseId
  {
  }

  lemma {:induction false} MatchingLeasesOnly(active: seq<CapacityLease>, record: ObservedOutcome, l: CapacityLease)
    requires SeparateOccupants(active) && record.leaseId == StableId(l)
    ensures l in active && LeaseMatchesRecord(l, record) ==> MatchingLeases(active, record) == [l]
    ensures l !in active ==> MatchingLeases(active, record) == []
  {
    if active != [] {
      var front, last := active[..|active| - 1], active[|active| - 1];
      assert active == front + [last];
      MatchingLeasesOnly(front, record, l);
      if last == l {
        forall x | x in front ensures x != l {
          var k :| 0 <= k < |front| && front[k] == x;
          assert active[k].slot != active[|active| - 1].slot;
        }
      }
    }
  }

  /** Everything a restart-driven release finds when it looks up an observed intent of a run. */
  lemma ObservedFacts(w: World, id: IntentId, ctx: ExecutionContext)
    requires Inv(w) && id in w.outcomes && VerifyPhysicalOutcome(ctx, w.outcomes[id].outcome)
    ensures id in w.intents && w.intents[id].state.Observed?
    ensures LoadIntentTx(w.intents, id) == Success(w.intents[id].state)
    ensures LoadOutcomeRow(w.outcomes, w.intents[id].state, id) == Success(w.outcomes[id])
    ensures var record, intent := w.outcomes[id], w.intents[id].state.intent;
            && record == RecordOf(w.intents[id].state, record.outcome)
            && OutcomeMatchesState(w.intents[id].state, record.outcome)
            && LeaseKnown(w.heads, intent)
            && record.runnerId == ctx.runner.runnerId == intent.runnerId
            && intent.runnerCapabilityDigest == Sha256(ctx.runner)
  {
    hide VerifyIntrinsicOutcome, ClientOk, ReturnOk, BegunOk, ValidHeads, LeaseKnown;
  }

  lemma ObservedHead(w: World, id: IntentId, ctx: ExecutionContext)
    requires Inv(w) && id in w.outcomes && VerifyPhysicalOutcome(ctx, w.outcomes[id].outcome)
    ensures ctx.runner.runnerId in w.heads && w.heads[ctx.runner.runnerId].capabilityDigest == Sha256(ctx.runner)
    ensures var s := History(w.heads, ctx.runner.runnerId);
            LoadTx(w.heads, ctx.runner) == Success((s, HeadOf(s))) && Replays(s, ctx.runner) && AllocatorSafe(s)
  {
    hide Replay, ClientOk, ReturnOk, BegunOk, VerifyPhysicalOutcome, OutcomeMatchesState, LoadIntentTx, LoadOutcomeRow,
         AllocatorSafe, LeasesIn;
    ObservedFacts(w, id, ctx);
    assert ValidRow(ctx.runner.runnerId, w.heads[ctx.runner.runnerId]);
    CanonicalStateSafe(ctx.runner, History(w.heads, ctx.runner.runnerId).transitions);
  }

  lemma ActiveReleasePlanned(s: RunnerCapacityState, ctx: ExecutionContext, state: IntentState, outcome: PhysicalOutcomeBundle,
                             l: CapacityLease)
    requires Replays(s, ctx.runner) && AllocatorSafe(s) && l in s.ActiveLeases()
    requires VerifyPhysicalOutcome(ctx, outcome) && OutcomeMatchesState(state, outcome)
    requires state.intent.leaseId == StableId(l) && state.intent.leaseDigest == Sha256(l)
    requires IntentMatchesLease(state.intent, l)
    ensures var plan := PlanRelease(s, ctx, RecordOf(state, outcome));
            plan.CommitRelease? && plan.current == s && ReleaseForOutcome(s, ctx, l, outcome) == Success((plan.next, plan.grant))
  {
    hide Replay, LeasesIn, ReleasesIn, Unreleased, MatchingLeases, AlreadyReleased, VerifyIntrinsicOutcome, ApplyTransition,
         Matches;
    MatchingLeasesOnly(s.ActiveLeases(), RecordOf(state, outcome), l);
    AtMostOneMatch(s.ActiveLeases(), StableId(l), Sha256(l));
    MatchesMember(s.ActiveLeases(), StableId(l), Sha256(l));
    var matches := Matches(s.ActiveLeases(), StableId(l), Sha256(l));
    assert matches[0] in matches;
    assert BoundLeases(s);
    UnreleasedMembers(s.Leases(), ReleasedIds(s.Releases()));
    ReleaseCommitsProposal(s, ctx, l, outcome);
  }

  /** Run with nothing beside it, a restart-driven release of an observed intent finishes exactly when
      its lease was not given back for another reason; and it reports a release of that very outcome. */
  lemma RestartReleaseFinishes(steps: seq<Step>, id: IntentId, ctx: ExecutionContext)
    requires id in After(steps).outcomes && VerifyPhysicalOutcome(ctx, After(steps).outcomes[id].outcome)
    ensures var w := After(steps);
            var (heads, r) := ReleaseAloneTx(w.intents, w.outcomes, w.heads, id, ctx);
            && (r.Success? <==> !ReleasedOtherwise(w.heads, w.outcomes[id]))
            && (r.Success? ==> ReleaseReported(heads, w.outcomes[id], r.value) && (r.value.idempotent <==> heads == w.heads))
            && (r.Failure? ==> heads == w.heads)
  {
    hide After, Inv, ReleaseAloneTx, LeaseKnown, AllocatorSafe, Replays, VerifyPhysicalOutcome, OutcomeMatchesState;
    RunKeepsInv(steps);
    var w := After(steps);
    var l := KnownLease(w, id, ctx);
    if l in History(w.heads, ctx.runner.runnerId).ActiveLeases() {
      var _ := ReleaseFromActive(w, id, ctx, l);
    } else {
      ReleaseFromHistory(w, id, ctx, l);
    }
  }

  /** The answer is about this outcome, names a release of it in the runner's history, and describes the head. */
  ghost predicate ReleaseReported(heads: Heads, record: ObservedOutcome, recovery: ReleaseRecovery) {
    && recovery.intentId == record.intentId && recovery.outcomeDigest == record.outcomeDigest
    && record.runnerId in heads
    && DescribesHead(recovery, History(heads, record.runnerId))
    && recovery.releaseDigest.Sha256?
    && recovery.releaseDigest.preimage in History(heads, record.runnerId).Releases()
    && ReleaseMatchesRecord(recovery.releaseDigest.preimage, record)
  }

  ghost predicate DescribesHead(recovery: ReleaseRecovery, s: RunnerCapacityState) {
    && recovery.stateDigest == Sha256(s) && recovery.generation == s.generation
    && recovery.head == DurableHead(s.runnerId, s.runnerCapabilityDigest, Sha256(s), s.generation,
                                    Sha256(SnapshotPayload(s, Sha256(s))))
  }

  lemma KnownLease(w: World, id: IntentId, ctx: ExecutionContext) returns (l: CapacityLease)
    requires Inv(w) && id in w.outcomes && VerifyPhysicalOutcome(ctx, w.outcomes[id].outcome)
    ensures ctx.runner.runnerId in w.heads && id in w.intents
    ensures l in History(w.heads, ctx.runner.runnerId).Leases()
    ensures w.outcomes[id].leaseId == StableId(l) == w.intents[id].state.intent.leaseId
    ensures w.intents[id].state.intent.leaseDigest == Sha256(l) && IntentMatchesLease(w.intents[id].state.intent, l)
    ensures w.outcomes[id].runnerId == ctx.runner.runnerId
  {
    hide Inv, LeasesIn, VerifyPhysicalOutcome, OutcomeMatchesState;
    ObservedFacts(w, id, ctx);
    l := w.outcomes[id].leaseId.preimage;
  }

  lemma ReleaseFromActive(w: World, id: IntentId, ctx: ExecutionContext, l: CapacityLease) returns (next: RunnerCapacityState)
    requires Inv(w) && id in w.outcomes && VerifyPhysicalOutcome(ctx, w.outcomes[id].outcome)
    requires id in w.intents && ctx.runner.runnerId in w.heads && w.outcomes[id].runnerId == ctx.runner.runnerId
    requires l in History(w.heads, ctx.runner.runnerId).ActiveLeases()
    requires w.outcomes[id].leaseId == StableId(l) == w.intents[id].state.intent.leaseId
    requires w.intents[id].state.intent.leaseDigest == Sha256(l) && IntentMatchesLease(w.intents[id].state.intent, l)
    ensures !ReleasedOtherwise(w.heads, w.outcomes[id])
    ensures var (heads, r) := ReleaseAloneTx(w.intents, w.outcomes, w.heads, id, ctx);
            r.Success? && ReleaseReported(heads, w.outcomes[id], r.value) && !r.value.idempotent && heads != w.heads
    ensures ReleaseAloneTx(w.intents, w.outcomes, w.heads, id, ctx).0
         == CommitTx(w.heads, ctx.runner, Sha256(History(w.heads, ctx.runner.runnerId)), next).0
  {
    hide Inv, LeasesIn, ReleasesIn, Unreleased, VerifyPhysicalOutcome, OutcomeMatchesState, PlanRelease, LoadTx, CommitTx,
         AllocatorSafe, Replay, LeaseKnown, IntentMatchesLease, ReleaseForOutcome, LoadIntentTx, LoadOutcomeRow,
         ReleaseMatchesRecord, ReleaseAloneTx, ReleasedOtherwise, ReleaseReported, FallbackTx, StoresOk;
    ObservedFacts(w, id, ctx);
    ObservedHead(w, id, ctx);
    InvStores(w);
    var s, record := History(w.heads, ctx.runner.runnerId), w.outcomes[id];
    NotReleasedOtherwise(w.heads, record, l);
    ActiveReleasePlanned(s, ctx, w.intents[id].state, record.outcome, l);
    var plan := PlanRelease(s, ctx, record);
    next := plan.next;
    ReleaseCommitsProposal(s, ctx, l, record.outcome);
    PlannedReleaseNames(s, ctx, record);
    OutcomeReleaseIsSuccessor(s, ctx, l, record.outcome);
    CommitAcceptsSuccessors(w.heads, ctx.runner, Sha256(s), plan.next);
    ReleaseAloneCommits(w, id, ctx, plan.next, plan.grant);
    CommittedIsReported(w.heads, record, plan.next, plan.grant);
  }

  lemma NotReleasedOtherwise(heads: Heads, record: ObservedOutcome, l: CapacityLease)
    requires record.runnerId in heads && l in History(heads, record.runnerId).ActiveLeases()
    requires record.leaseId == StableId(l)
    ensures !ReleasedOtherwise(heads, record)
  {
    hide LeasesIn, ReleasesIn, Unreleased, ReleaseMatchesRecord;
    var s := History(heads, record.runnerId);
    UnreleasedMembers(s.Leases(), ReleasedIds(s.Releases()));
  }

  /** Alone, a planned release commits. */
  lemma ReleaseAloneCommits(w: World, id: IntentId, ctx: ExecutionContext, next: RunnerCapacityState, grant: ReleaseGrant)
    requires id in w.outcomes && id in w.intents && w.intents[id].state.Observed?
    requires ctx.runner.runnerId in w.heads
    requires LoadIntentTx(w.intents, id) == Success(w.intents[id].state)
    requires LoadOutcomeRow(w.outcomes, w.intents[id].state, id) == Success(w.outcomes[id])
    requires VerifyPhysicalOutcome(ctx, w.outcomes[id].outcome)
    requires var s := History(w.heads, ctx.runner.runnerId);
             && LoadTx(w.heads, ctx.runner) == Success((s, HeadOf(s)))
             && PlanRelease(s, ctx, w.outcomes[id]) == CommitRelease(s, next, grant)
             && CommitTx(w.heads, ctx.runner, Sha256(s), next).1 == Success(HeadOf(next))
    ensures ReleaseAloneTx(w.intents, w.outcomes, w.heads, id, ctx)
         == (CommitTx(w.heads, ctx.runner, Sha256(History(w.heads, ctx.runner.runnerId)), next).0,
             Success(CommittedRecovery(w.outcomes[id], next, grant, HeadOf(next))))
  {
    hide VerifyPhysicalOutcome, PlanRelease, LoadTx, CommitTx, LoadIntentTx, LoadOutcomeRow, FallbackTx;
  }

  lemma CommittedIsReported(heads: Heads, record: ObservedOutcome, next: RunnerCapacityState, grant: ReleaseGrant)
    requires grant.release in next.Releases() && ReleaseMatchesRecord(grant.release, record)
    ensures ReleaseReported(heads[record.runnerId := EncodeRow(next)], record,
                            CommittedRecovery(record, next, grant, HeadOf(next)))
  {
    hide ReleasesIn, ReleaseMatchesRecord;
  }

  lemma OutcomeReleaseIsSuccessor(s: RunnerCapacityState, ctx: ExecutionContext, l: CapacityLease, outcome: PhysicalOutcomeBundle)
    requires ReleaseForOutcome(s, ctx, l, outcome).Success?
    ensures IsSuccessor(s, ReleaseForOutcome(s, ctx, l, outcome).value.0)
  {
    hide ApplyTransition, ProposeOutcomeRelease;
  }

  lemma ReleaseFromHistory(w: World, id: IntentId, ctx: ExecutionContext, l: CapacityLease)
    requires Inv(w) && id in w.outcomes && VerifyPhysicalOutcome(ctx, w.outcomes[id].outcome)
    requires id in w.intents && ctx.runner.runnerId in w.heads && w.outcomes[id].runnerId == ctx.runner.runnerId
    requires l in History(w.heads, ctx.runner.runnerId).Leases()
    requires l !in History(w.heads, ctx.runner.runnerId).ActiveLeases()
    requires w.outcomes[id].leaseId == StableId(l)
    ensures var (heads, r) := ReleaseAloneTx(w.intents, w.outcomes, w.heads, id, ctx);
            && heads == w.heads
            && (r.Success? <==> !ReleasedOtherwise(w.heads, w.outcomes[id]))
            && (r.Success? ==> ReleaseReported(heads, w.outcomes[id], r.value) && r.value.idempotent)
  {
    hide Inv, LeasesIn, ReleasesIn, Unreleased, VerifyPhysicalOutcome, OutcomeMatchesState, LoadTx, CommitTx, Replay, LeaseKnown,
         ReleaseForOutcome, LoadIntentTx, LoadOutcomeRow, ReleaseMatchesRecord, MatchingLeases, MatchingReleases;
    ObservedFacts(w, id, ctx);
    ObservedHead(w, id, ctx);
    var s, record := History(w.heads, ctx.runner.runnerId), w.outcomes[id];
    UnreleasedMembers(s.Leases(), ReleasedIds(s.Releases()));
    MatchingLeasesOnly(s.ActiveLeases(), record, l);
    MatchingReleasesOnly(s.Releases(), record);
    MatchingReleasesMembers(s.Releases(), record);
    var r :| r in s.Releases() && r.leaseId == record.leaseId;
    forall x | x in s.Releases() && x.leaseId == record.leaseId ensures x == r {
      SameRelease(s.Releases(), x, r);
    }
    forall x | x in s.Releases() && ReleaseMatchesRecord(x, record) ensures x.leaseId == record.leaseId {
      RecordLease(x, record);
    }
    if |MatchingReleases(s.Releases(), record)| == 1 {
      assert MatchingReleases(s.Releases(), record)[0] in MatchingReleases(s.Releases(), record);
    }
  }

  lemma RecordLease(r: CapacityRelease, record: ObservedOutcome)
    ensures ReleaseMatchesRecord(r, record) ==> r.leaseId == record.leaseId
  {
  }

  /** Running the restart-driven release again changes nothing and reports the same release. */
  lemma RestartReleaseIdempotent(steps: seq<Step>, id: IntentId, ctx: ExecutionContext)
    requires id in After(steps).outcomes && VerifyPhysicalOutcome(ctx, After(steps).outcomes[id].outcome)
    requires ReleaseAloneTx(After(steps).intents, After(steps).outcomes, After(steps).heads, id, ctx).1.Success?
    ensures var w := After(steps);
            var (heads, r) := ReleaseAloneTx(w.intents, w.outcomes, w.heads, id, ctx);
            var (again, r') := ReleaseAloneTx(w.intents, w.outcomes, heads, id, ctx);
            again == heads && r'.Success? && r'.value.releaseDigest == r.value.releaseDigest
  {
    hide After, Inv, ReleaseAloneTx, LeaseKnown, AllocatorSafe, Replays, VerifyPhysicalOutcome, OutcomeMatchesState, CommitTx,
         LeasesIn, ReleasesIn, Unreleased, ReleaseMatchesRecord;
    var w, r := After(steps), ReleaseAloneTx(After(steps).intents, After(steps).outcomes, After(steps).heads, id, ctx).1;
    RunKeepsInv(steps);
    var l := KnownLease(w, id, ctx);
    RestartReleaseFinishes(steps, id, ctx);
    if l in History(w.heads, ctx.runner.runnerId).ActiveLeases() {
      var next := ReleaseFromActive(w, id, ctx, l);
      var committed := CommitHead(ctx.runner, Sha256(History(w.heads, ctx.runner.runnerId)), next);
      OneMoreStep(steps, committed);
      var w' := After(steps + [committed]);
      RunKeepsInv(steps + [committed]);
      ReleasedHere(w', id, ctx, r.value);
    } else {
      ReleaseFromHistory(w, id, ctx, l);
    }
  }

  lemma OneMoreStep(steps: seq<Step>, step: Step)
    ensures After(steps + [step]) == Next(After(steps), step)
  {
    hide Next;
    assert (steps + [step])[..|steps|] == steps;
  }

  /** A reported release is found again. */
  lemma ReleasedHere(w: World, id: IntentId, ctx: ExecutionContext, reported: ReleaseRecovery)
    requires Inv(w) && id in w.outcomes && VerifyPhysicalOutcome(ctx, w.outcomes[id].outcome)
    requires ReleaseReported(w.heads, w.outcomes[id], reported)
    ensures var (again, r') := ReleaseAloneTx(w.intents, w.outcomes, w.heads, id, ctx);
            again == w.heads && r'.Success? && r'.value.releaseDigest == reported.releaseDigest
  {
    hide Inv, ReleaseAloneTx, LeaseKnown, Replays, VerifyPhysicalOutcome, OutcomeMatchesState, LeasesIn, ReleasesIn,
         Unreleased, ReleaseMatchesRecord, DistinctReleases;
    var l := KnownLease(w, id, ctx);
    ObservedHead(w, id, ctx);
    var s, record, release := History(w.heads, ctx.runner.runnerId), w.outcomes[id], reported.releaseDigest.preimage;
    UnreleasedMembers(s.Leases(), ReleasedIds(s.Releases()));
    RecordLease(release, record);
    assert release in s.Releases();
    ReleaseFromHistory(w, id, ctx, l);
    forall x | x in s.Releases() && x.leaseId == record.leaseId ensures x == release {
      SameRelease(s.Releases(), x, release);
    }
    var found := ReleaseAloneTx(w.intents, w.outcomes, w.heads, id, ctx).1.value.releaseDigest.preimage;
    RecordLease(found, record);
  }
}
