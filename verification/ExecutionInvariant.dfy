/** What holds of the two databases and of every client's locals after any run, and why each step keeps it. */
module ExecutionInvariant {
  import opened Canonical
  import opened Physical
  import opened Capacity
  import opened AllocatorSafety
  import opened CapacityGrants
  import opened GrantValidity
  import opened DurableCapacity
  import opened Dispatch
  import opened OutcomeStore
  import opened ExecutionRuns

  function History(heads: Heads, runnerId: string): RunnerCapacityState
    requires runnerId in heads
  {
    heads[runnerId].snapshot.state
  }

  /** The intent names, exactly, a lease in its runner's durable history (active or since released). */
  ghost predicate LeaseKnown(heads: Heads, intent: DispatchIntent) {
    && intent.runnerId in heads
    && heads[intent.runnerId].capabilityDigest == intent.runnerCapabilityDigest
    && intent.leaseId.StableId?
    && intent.leaseId.preimage in History(heads, intent.runnerId).Leases()
    && intent.leaseDigest == Sha256(intent.leaseId.preimage)
    && IntentMatchesLease(intent, intent.leaseId.preimage)
  }

  ghost predicate ValidIntents(intents: Intents) {
    && (forall id <- intents :: intents[id] == EncodeIntent(intents[id].state) && id == StableId(intents[id].state.intent))
    && (forall a, b | a in intents && b in intents && intents[a].leaseId == intents[b].leaseId :: a == b)
  }

  ghost predicate OutcomesAgree(intents: Intents, outcomes: Outcomes) {
    && outcomes.Keys <= intents.Keys
    && forall id <- intents ::
         if intents[id].state.Observed? then
           id in outcomes && DecodeOutcome(outcomes[id], intents[id].state) == Success(outcomes[id])
         else id !in outcomes
  }

  ghost predicate SubmittedKnown(heads: Heads, intents: Intents) {
    forall id <- intents :: !intents[id].state.Prepared? ==> LeaseKnown(heads, intents[id].state.intent)
  }

  /** A record some client has read is the row the table still holds. */
  ghost predicate Retained(w: World, ctx: ExecutionContext, record: ObservedOutcome) {
    && record.intentId in w.outcomes
    && w.outcomes[record.intentId] == record
    && VerifyPhysicalOutcome(ctx, record.outcome)
  }

  ghost predicate ClientOk(w: World, client: Client) {
    match client
    case Idle => true
    case BeginRead(_) => true
    case BeginChecked(current) => LeaseKnown(w.heads, current.intent)
    case ReleaseChecked(_, _) => true
    case ReleaseState(_, id, state) => state.Observed? ==> id in w.intents && w.intents[id].state == state
    case ReleaseRecord(ctx, record) => Retained(w, ctx, record)
    case ReleasePlanned(ctx, record, snapshot, next, grant) =>
      Retained(w, ctx, record) && PlanRelease(snapshot, ctx, record) == CommitRelease(snapshot, next, grant)
    case ReleaseRefused(ctx, record, _) => Retained(w, ctx, record)
  }

  /** A returned answer names a release of that intent's outcome in the durable history. */
  ghost predicate ReturnOk(w: World, id: IntentId, recovery: ReleaseRecovery) {
    && id in w.outcomes && id in w.intents
    && w.outcomes[id].runnerId in w.heads
    && recovery.releaseDigest.Sha256?
    && recovery.releaseDigest.preimage in History(w.heads, w.outcomes[id].runnerId).Releases()
    && ReleaseMatchesRecord(recovery.releaseDigest.preimage, w.outcomes[id])
  }

  ghost predicate BegunOk(w: World) {
    && (forall i, j | 0 <= i < j < |w.begun| :: w.begun[i] != w.begun[j])
    && (forall id <- w.begun :: id in w.intents && !w.intents[id].state.Prepared?)
  }

  ghost predicate StoresOk(heads: Heads, intents: Intents, outcomes: Outcomes) {
    && ValidHeads(heads)
    && ValidIntents(intents)
    && OutcomesAgree(intents, outcomes)
    && SubmittedKnown(heads, intents)
  }

  ghost predicate Inv(w: World) {
    && StoresOk(w.heads, w.intents, w.outcomes)
    && (forall c <- w.clients :: ClientOk(w, w.clients[c]))
    && BegunOk(w)
    && (forall i | 0 <= i < |w.returned| :: ReturnOk(w, w.returned[i].0, w.returned[i].1))
  }

  // ---------------------------------------------------------------- growth

  /** Intents never vanish or change identity; a status only advances, and an observed row is final. */
  ghost predicate IntentsGrow(before: Intents, after: Intents) {
    forall id <- before ::
      && id in after
      && after[id].state.intent == before[id].state.intent
      && (after[id] == before[id] || before[id].state.Revision() < after[id].state.Revision())
  }

  ghost predicate OutcomesGrow(before: Outcomes, after: Outcomes) {
    forall id <- before :: id in after && after[id] == before[id]
  }

  ghost predicate Grows(before: World, after: World) {
    && HeadsGrow(before.heads, after.heads)
    && IntentsGrow(before.intents, after.intents)
    && OutcomesGrow(before.outcomes, after.outcomes)
    && before.begun <= after.begun
    && before.returned <= after.returned
  }

  lemma KnownLeaseStays(before: Heads, after: Heads, intent: DispatchIntent)
    requires HeadsGrow(before, after) && LeaseKnown(before, intent)
    ensures LeaseKnown(after, intent)
  {
    hide LeasesIn;
    var old', new' := History(before, intent.runnerId).transitions, History(after, intent.runnerId).transitions;
    assert new'[..|old'|] == old';
    ViewsMonotone(new', |old'|);
  }

  lemma KnownReleaseStays(before: Heads, after: Heads, runnerId: string, r: CapacityRelease)
    requires HeadsGrow(before, after) && runnerId in before && r in History(before, runnerId).Releases()
    ensures runnerId in after && r in History(after, runnerId).Releases()
  {
    hide ReleasesIn;
    var old', new' := History(before, runnerId).transitions, History(after, runnerId).transitions;
    assert new'[..|old'|] == old';
    ViewsMonotone(new', |old'|);
  }

  lemma ClientStays(before: World, after: World, client: Client)
    requires Grows(before, after) && ClientOk(before, client)
    ensures ClientOk(after, client)
  {
    hide LeaseKnown, PlanRelease, VerifyPhysicalOutcome;
    match client
    case BeginChecked(current) => KnownLeaseStays(before.heads, after.heads, current.intent);
    case _ =>
  }

  lemma ReturnStays(before: World, after: World, id: IntentId, recovery: ReleaseRecovery)
    requires Grows(before, after) && ReturnOk(before, id, recovery)
    ensures ReturnOk(after, id, recovery)
  {
    hide ReleaseMatchesRecord, ReleasesIn;
    KnownReleaseStays(before.heads, after.heads, before.outcomes[id].runnerId, recovery.releaseDigest.preimage);
  }

  lemma SubmittedStay(before: Heads, after: Heads, intents: Intents)
    requires HeadsGrow(before, after) && SubmittedKnown(before, intents)
    ensures SubmittedKnown(after, intents)
  {
    hide LeaseKnown;
    forall id <- intents | !intents[id].state.Prepared? ensures LeaseKnown(after, intents[id].state.intent) {
      KnownLeaseStays(before, after, intents[id].state.intent);
    }
  }

  // ---------------------------------------------------------------- outbox transactions

  /** Inserting an intent under a fresh id and a fresh lease keeps the table valid. */
  lemma InsertKeepsValid(intents: Intents, state: IntentState)
    requires ValidIntents(intents) && StableId(state.intent) !in intents
    requires forall other <- intents :: intents[other].leaseId != state.intent.leaseId
    ensures ValidIntents(intents[StableId(state.intent) := EncodeIntent(state)])
    ensures IntentsGrow(intents, intents[StableId(state.intent) := EncodeIntent(state)])
  {
  }

  /** So does advancing the state of an intent that is already there. */
  lemma AdvanceKeepsValid(intents: Intents, id: IntentId, next: IntentState)
    requires ValidIntents(intents) && id in intents
    requires next.intent == intents[id].state.intent && next.Revision() > intents[id].state.Revision()
    ensures ValidIntents(intents[id := EncodeIntent(next)])
    ensures IntentsGrow(intents, intents[id := EncodeIntent(next)])
  {
    var after := intents[id := EncodeIntent(next)];
    assert intents[id].leaseId == after[id].leaseId;
    assert forall other <- intents :: after[other].leaseId == intents[other].leaseId;
  }

  lemma InitializeIntentKeeps(heads: Heads, intents: Intents, outcomes: Outcomes, intent: DispatchIntent)
    requires StoresOk(heads, intents, outcomes)
    ensures var after := InitializeIntentTx(intents, intent).0;
            StoresOk(heads, after, outcomes) && IntentsGrow(intents, after)
  {
    hide ValidHeads, LeaseKnown, DecodeOutcome, ValidIntents;
    var id := StableId(intent);
    if id !in intents && forall other <- intents :: intents[other].leaseId != intent.leaseId {
      InsertKeepsValid(intents, Prepared(intent));
    }
  }

  lemma BeginCommitKeeps(heads: Heads, intents: Intents, outcomes: Outcomes, current: IntentState)
    requires StoresOk(heads, intents, outcomes) && LeaseKnown(heads, current.intent)
    ensures var (after, r) := CommitIntentTx(intents, current, BeginState(current));
            r.Success? ==>
              && StoresOk(heads, after, outcomes) && IntentsGrow(intents, after)
              && StableId(current.intent) in intents && intents[StableId(current.intent)].state.Prepared?
              && after == intents[StableId(current.intent) := EncodeIntent(BeginState(current))]
  {
    hide ValidHeads, LeaseKnown, DecodeOutcome, ValidIntents;
    var id := StableId(current.intent);
    if CommitIntentTx(intents, current, BeginState(current)).1.Success? {
      assert intents[id].state == current && current.Prepared?;
      AdvanceKeepsValid(intents, id, BeginState(current));
    }
  }

  /** What an accepted first recording was checked against. */
  lemma FirstRecording(intents: Intents, outcomes: Outcomes, id: IntentId, expected: Digest<IntentState>,
                       ctx: ExecutionContext, outcome: PhysicalOutcomeBundle)
    ensures var (intents', outcomes', _) := RecordObservedTx(intents, outcomes, id, expected, ctx, outcome);
            || (intents' == intents && outcomes' == outcomes)
            || (&& id in intents && id !in outcomes
                && intents[id].state.SubmissionUnknown?
                && var next := ObservedState(intents[id].state, outcome);
                   && VerifyIntrinsicOutcome(outcome) && OutcomeMatchesState(next, outcome)
                   && intents' == intents[id := EncodeIntent(next)]
                   && outcomes' == outcomes[id := RecordOf(next, outcome)])
  {
    hide VerifyIntrinsicOutcome, VerifyDispatchRequest, OutcomeMatchesState, OutcomeForIntent;
  }

  lemma RecordObservedKeeps(heads: Heads, intents: Intents, outcomes: Outcomes, id: IntentId,
                            expected: Digest<IntentState>, ctx: ExecutionContext, outcome: PhysicalOutcomeBundle)
    requires StoresOk(heads, intents, outcomes)
    ensures var (intents', outcomes', _) := RecordObservedTx(intents, outcomes, id, expected, ctx, outcome);
            && StoresOk(heads, intents', outcomes')
            && IntentsGrow(intents, intents') && OutcomesGrow(outcomes, outcomes')
  {
    hide ValidHeads, LeaseKnown, ValidIntents, VerifyIntrinsicOutcome, OutcomeMatchesState, RecordObservedTx;
    FirstRecording(intents, outcomes, id, expected, ctx, outcome);
    if id in intents && intents[id].state.SubmissionUnknown? {
      AdvanceKeepsValid(intents, id, ObservedState(intents[id].state, outcome));
    }
  }

  /** The outcome table is exact about repeats: the retained outcome is accepted again without a change,
      any other is refused. */
  lemma RecordingIsFinal(heads: Heads, intents: Intents, outcomes: Outcomes, id: IntentId,
                         expected: Digest<IntentState>, ctx: ExecutionContext, outcome: PhysicalOutcomeBundle)
    requires StoresOk(heads, intents, outcomes) && id in intents && intents[id].state.Observed?
    ensures var (intents', outcomes', r) := RecordObservedTx(intents, outcomes, id, expected, ctx, outcome);
            && intents' == intents && outcomes' == outcomes
            && (r.Success? <==>
                  && outcome == outcomes[id].outcome
                  && VerifyPhysicalOutcome(ctx, outcome)
                  && (expected == Sha256(intents[id].state) || expected == intents[id].state.previousStateDigest))
            && (r.Success? ==> r.value == intents[id].state)
  {
    hide ValidHeads, LeaseKnown, VerifyIntrinsicOutcome, VerifyDispatchRequest, OutcomeMatchesState, OutcomeForIntent;
  }

  // ---------------------------------------------------------------- reading a valid head

  lemma LoadReadsHead(heads: Heads, runner: RunnerCapabilities)
    requires ValidHeads(heads) && LoadTx(heads, runner).Success?
    ensures runner.runnerId in heads && LoadTx(heads, runner).value.0 == History(heads, runner.runnerId)
    ensures Replays(History(heads, runner.runnerId), runner)
  {
    hide Replay;
  }

  lemma ValidatedLeaseKnown(heads: Heads, intent: DispatchIntent, runner: RunnerCapabilities)
    requires ValidHeads(heads) && LoadTx(heads, runner).Success?
    requires ValidateIntent(intent, LoadTx(heads, runner).value.0, runner).Success?
    ensures LeaseKnown(heads, intent)
  {
    hide Replay, LeasesIn, ReleasesIn, Unreleased, Matches;
    LoadReadsHead(heads, runner);
    var s := History(heads, runner.runnerId);
    MatchesMember(s.ActiveLeases(), intent.leaseId, intent.leaseDigest);
    UnreleasedMembers(s.Leases(), ReleasedIds(s.Releases()));
    assert Matches(s.ActiveLeases(), intent.leaseId, intent.leaseDigest)[0]
        in Matches(s.ActiveLeases(), intent.leaseId, intent.leaseDigest);
  }

  lemma {:induction false} MatchingReleasesMembers(releases: seq<CapacityRelease>, record: ObservedOutcome)
    ensures forall r <- MatchingReleases(releases, record) :: r in releases && ReleaseMatchesRecord(r, record)
  {
    hide ReleaseMatchesRecord;
    if releases != [] {
      MatchingReleasesMembers(releases[..|releases| - 1], record);
      assert releases == releases[..|releases| - 1] + [releases[|releases| - 1]];
    }
  }

  lemma {:induction false} MatchingLeasesMembers(active: seq<CapacityLease>, record: ObservedOutcome)
    ensures forall l <- MatchingLeases(active, record) :: l in active && LeaseMatchesRecord(l, record)
  {
    hide LeaseMatchesRecord;
    if active != [] {
      MatchingLeasesMembers(active[..|active| - 1], record);
      assert active == active[..|active| - 1] + [active[|active| - 1]];
    }
  }

  lemma AlreadyReleasedNames(s: RunnerCapacityState, record: ObservedOutcome)
    requires AlreadyReleased(s, record).Success? && AlreadyReleased(s, record).value.Some?
    ensures var recovery := AlreadyReleased(s, record).value.value;
            && recovery.intentId == record.intentId
            && recovery.releaseDigest.Sha256?
            && recovery.releaseDigest.preimage in s.Releases()
            && ReleaseMatchesRecord(recovery.releaseDigest.preimage, record)
  {
    hide ReleasesIn, ReleaseMatchesRecord, MatchingReleases;
    MatchingReleasesMembers(s.Releases(), record);
    assert MatchingReleases(s.Releases(), record)[0] in MatchingReleases(s.Releases(), record);
  }

  lemma PlannedReleaseNames(s: RunnerCapacityState, ctx: ExecutionContext, record: ObservedOutcome)
    requires PlanRelease(s, ctx, record).CommitRelease? && record.outcomeDigest == Sha256(record.outcome)
    requires record.receiptDigest == Sha256(record.outcome.receipt)
    requires record.transportStatus == record.outcome.receipt.transportStatus
    ensures var plan := PlanRelease(s, ctx, record);
            && plan.current == s
            && plan.grant.release in plan.next.Releases()
            && ReleaseMatchesRecord(plan.grant.release, record)
  {
    hide Replay, LeasesIn, ReleasesIn, Unreleased, MatchingLeases, ReleaseForOutcome, AlreadyReleased;
    var l := MatchingLeases(s.ActiveLeases(), record)[0];
    MatchingLeasesMembers(s.ActiveLeases(), record);
    assert l in MatchingLeases(s.ActiveLeases(), record);
    ReleaseCommitsProposal(s, ctx, l, record.outcome);
    LastRelease(PlanRelease(s, ctx, record).next.transitions);
  }
}
