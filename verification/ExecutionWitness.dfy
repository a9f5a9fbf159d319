/** Concrete runs of the execution protocol that reach the limits stated in ExecutionLimits. */
module ExecutionWitness {
  import opened Canonical
  import opened Physical
  import opened Capacity
  import opened AllocatorSafety
  import opened CapacityGrants
  import opened LeaseLifecycle
  import opened DurableCapacity
  import opened Dispatch
  import opened OutcomeStore
  import opened ExecutionRuns
  import opened ExecutionInvariant
  import opened ExecutionSafety
  import opened ExecutionTheorems
  import opened ExecutionCalls
  import opened ExecutionLimits
  import opened DispatchGuard

  const RUNNER := RunnerCapabilities("runner-1", "provider", "adapter", "1", ["probe"], 2)
  const GENESIS := InitialCapacityState(RUNNER)

  function SessionOf(sessionId: string, state: SessionState): ExecutionSession {
    ExecutionSession(sessionId, RUNNER.runnerId, Sha256(RUNNER), 1, state)
  }

  function ContextOf(sessionId: string): ExecutionContext {
    ExecutionContext(true, "spec", "spec-digest", "plan", SessionOf(sessionId, Running), RUNNER)
  }

  function RequestOf(sessionId: string, invocationId: string): AdapterDispatchRequest {
    BuildDispatchRequest(ContextOf(sessionId), invocationId).value
  }

  function AttemptOf(sessionId: string, invocationId: string): PhysicalAttemptAuthorization {
    PhysicalAttemptAuthorization(RequestOf(sessionId, invocationId), 1, None, None)
  }

  /** The attempt timed out. */
  function TimeoutOf(auth: PhysicalAttemptAuthorization): PhysicalOutcomeBundle {
    var response := ResponseContent(auth, None, TimedOut, None, Some("timeout"), None);
    var obs := PhysicalObservation(StableId(auth), auth.request.invocationId, Sha256(auth.request), None, TimedOut, None,
                                   Some("timeout"), None, Sha256(response));
    PhysicalOutcomeBundle(auth, obs, ReceiptFor(auth, obs), None)
  }

  lemma TimeoutVerifies(sessionId: string, invocationId: string)
    ensures VerifyPhysicalOutcome(ContextOf(sessionId), TimeoutOf(AttemptOf(sessionId, invocationId)))
  {
  }

  // ---------------------------------------------------------------- the allocator takes a first attempt

  /** A first attempt of a session that holds nothing can be reserved while a slot is free. */
  lemma FirstAttemptFits(s: RunnerCapacityState, sessionId: string, invocationId: string)
    requires Replays(s, RUNNER) && |s.ActiveLeases()| < 2 && !ActiveKey(s, (sessionId, 1))
    requires forall l <- s.Leases() :: l.authorizationDigest != Sha256(AttemptOf(sessionId, invocationId))
    ensures ReserveCapacity(s, ContextOf(sessionId), AttemptOf(sessionId, invocationId)).Success?
  {
    hide Replay, LeasesIn, ReleasesIn, Unreleased, ActiveKey, OccupiedSlots, ReserveCapacity, FirstFree;
    FreeSlotExists(s);
    ReserveCommitsProposal(s, ContextOf(sessionId), AttemptOf(sessionId, invocationId));
  }

  lemma GenesisFits(sessionId: string, invocationId: string)
    ensures ReserveCapacity(GENESIS, ContextOf(sessionId), AttemptOf(sessionId, invocationId)).Success?
  {
    hide ReserveCapacity;
    FirstAttemptFits(GENESIS, sessionId, invocationId);
  }

  const CONTEXT := ContextOf("session-a")
  const ATTEMPT := AttemptOf("session-a", "gei-a")

  /** The history with session A's first attempt reserved, and that attempt's lease */
  function Reserved(): (r: (RunnerCapacityState, CapacityLease)) {
    GenesisFits("session-a", "gei-a");
    var (s, grant) := ReserveCapacity(GENESIS, CONTEXT, ATTEMPT).value;
    (s, grant.lease)
  }

  lemma ReservedShape()
    ensures var (s, l) := Reserved();
            && Replays(s, RUNNER) && s.Leases() == [l] && s.ActiveLeases() == [l] && s.Releases() == []
            && (exists slot :: l == LeaseFor(GENESIS, RUNNER, ATTEMPT, slot))
            && IsSuccessor(GENESIS, s) && PrepareDispatchIntent(s, RUNNER, l, ATTEMPT).Success?
  {
    hide ReserveCapacity, Replay, IsSuccessor, PrepareDispatchIntent, LeasesIn, ReleasesIn, Unreleased;
    GenesisFits("session-a", "gei-a");
    var (s, l) := Reserved();
    ReserveCommitsProposal(GENESIS, CONTEXT, ATTEMPT);
    ReservedFrom(GENESIS, CONTEXT, ATTEMPT);
    ReservationIsSuccessor(GENESIS, CONTEXT, ATTEMPT);
    ReservedLeaseDispatches(GENESIS, CONTEXT, ATTEMPT);
    assert s.transitions == [Reserve(Sha256(GENESIS), l)];
    OneReservation(Sha256(GENESIS), l);
  }

  lemma OneReservation(expected: Digest<RunnerCapacityState>, l: CapacityLease)
    ensures LeasesIn([Reserve(expected, l)]) == [l] && ReleasesIn([Reserve(expected, l)]) == []
    ensures Unreleased([l], ReleasedIds([])) == [l]
  {
  }

  function Intent(): DispatchIntent {
    ReservedShape();
    PrepareDispatchIntent(Reserved().0, RUNNER, Reserved().1, ATTEMPT).value
  }

  lemma IntentShape()
    ensures var (s, l) := Reserved();
            && Intent().runnerId == RUNNER.runnerId && Intent().runnerCapabilityDigest == Sha256(RUNNER)
            && Intent().leaseId == StableId(l) && Intent().leaseDigest == Sha256(l) && IntentMatchesLease(Intent(), l)
            && Intent().authorizationId == StableId(ATTEMPT) && Intent().authorizationDigest == Sha256(ATTEMPT)
            && Intent().invocationId == ATTEMPT.request.invocationId && Intent().requestDigest == Sha256(ATTEMPT.request)
            && Intent().sessionId == "session-a" && Intent().logicalAttempt == 1 && Intent().physicalAttempt == 1
  {
    hide ReserveCapacity, Replay, Matches;
    ReservedShape();
  }

  // ---------------------------------------------------------------- the run

  /** Head created, attempt reserved, intent written, submission begun */
  lemma ReachesSubmission() returns (steps: seq<Step>)
    ensures var w := After(steps);
            && w.heads == map[RUNNER.runnerId := EncodeRow(Reserved().0)]
            && w.intents == map[StableId(Intent()) := EncodeIntent(BeginState(Prepared(Intent())))]
            && w.outcomes == map[]
  {
    hide After, Reserved, Intent, HoldsLease, BeginAloneTx, AfterBegin, EncodeRow, IntentMatchesLease;
    steps := ReachesIntent();
    var w, id, state := After(steps), StableId(Intent()), Prepared(Intent());
    ReservedIsHeld(w.heads);
    SubmissionBeginsExactly(steps, id, Sha256(state), RUNNER);
    BeginAloneIsARun(w, 0, id, Sha256(state), RUNNER);
    CallsExtendRuns(steps, 0, id, Sha256(state), RUNNER, CONTEXT);
    steps := steps + [BeginLoad(0, id, Sha256(state))] + [BeginValidate(0, RUNNER)] + [BeginCommit(0)];
  }

  lemma ReservedIsHeld(heads: Heads)
    requires heads == map[RUNNER.runnerId := EncodeRow(Reserved().0)]
    ensures HoldsLease(heads, Intent(), RUNNER)
  {
    hide ReserveCapacity, Replay, IsSuccessor, Reserved, Intent, IntentMatchesLease, LeasesIn, ReleasesIn, Unreleased;
    ReservedShape();
    IntentShape();
  }

  lemma ReachesIntent() returns (steps: seq<Step>)
    ensures var w := After(steps);
            && w.heads == map[RUNNER.runnerId := EncodeRow(Reserved().0)]
            && w.intents == map[StableId(Intent()) := EncodeIntent(Prepared(Intent()))]
            && w.outcomes == map[]
  {
    hide After, ReserveCapacity, Replay, IsSuccessor, Reserved, Intent;
    ReservedShape();
    var empty: seq<Step> := [];
    steps := [InitializeHead(RUNNER, None)];
    assert steps == empty + [InitializeHead(RUNNER, None)];
    OneMoreStep(empty, InitializeHead(RUNNER, None));
    HeadCreated();
    var commit := CommitOn(After(steps), RUNNER, Reserved().0);
    CommitLands(steps, RUNNER, Reserved().0);
    steps := steps + [commit];
    OneMoreStep(steps, InitializeIntent(Intent()));
    steps := steps + [InitializeIntent(Intent())];
  }

  lemma HeadCreated()
    ensures After([]) == EMPTY_WORLD
    ensures InitializeTx(map[], RUNNER, None).0 == map[RUNNER.runnerId := EncodeRow(GENESIS)]
  {
  }

  /** The submitted attempt is observed to have timed out; its lease is still held. */
  lemma ReachesObservation() returns (steps: seq<Step>)
    ensures var w, id := After(steps), StableId(Intent());
            && w.heads == map[RUNNER.runnerId := EncodeRow(Reserved().0)]
            && id in w.intents && w.intents[id].state.Observed? && id in w.outcomes
            && w.outcomes[id].outcome == TimeoutOf(ATTEMPT) && w.outcomes[id].runnerId == RUNNER.runnerId
            && w.outcomes[id].leaseId == StableId(Reserved().1)
  {
    hide After, ReserveCapacity, Reserved, Intent, VerifyPhysicalOutcome;
    IntentShape();
    TimeoutVerifies("session-a", "gei-a");
    steps := ReachesSubmission();
    var state, id := BeginState(Prepared(Intent())), StableId(Intent());
    var record := RecordObserved(id, Sha256(state), CONTEXT, TimeoutOf(ATTEMPT));
    OneMoreStep(steps, record);
    steps := steps + [record];
  }

  /** A reachable run after which no restart-driven release of an observed outcome can ever finish. */
  lemma ReleaseCanBeForestalled() returns (steps: seq<Step>, id: IntentId)
    ensures id in After(steps).outcomes && ReleasedOtherwise(After(steps).heads, After(steps).outcomes[id])
    ensures VerifyPhysicalOutcome(CONTEXT, After(steps).outcomes[id].outcome)
    ensures var w := After(steps); ReleaseAloneTx(w.intents, w.outcomes, w.heads, id, CONTEXT).1.Failure?
  {
    hide After, Reserved, Intent, Replays, ReleaseForRevocation, ReleasedOtherwise, VerifyPhysicalOutcome, ReleaseAloneTx,
         TimeoutOf, AttemptOf, ContextOf;
    TimeoutVerifies("session-a", "gei-a");
    var before := ReachesObservation();
    id := StableId(Intent());
    var (s, l) := Reserved();
    var session := SessionOf("session-a", Revoked);
    ReservedRow();
    RevocationPossible();
    RevocationForestallsRelease(before, id, RUNNER, l, session);
    steps := before + [CommitOn(After(before), RUNNER, ReleaseForRevocation(s, RUNNER, l, session).value.0)];
    assert steps[..|steps|] == steps;
    ForestalledForGood(steps, |steps|, id, CONTEXT);
  }

  lemma ReservedRow()
    ensures EncodeRow(Reserved().0).snapshot.state == Reserved().0
    ensures EncodeRow(Reserved().0).capabilityDigest == Sha256(RUNNER)
  {
    hide Reserved, Replay;
    ReservedShape();
  }

  lemma RevocationPossible()
    ensures var (s, l) := Reserved(); ReleaseForRevocation(s, RUNNER, l, SessionOf("session-a", Revoked)).Success?
  {
    hide ReserveCapacity, Replay, ReleaseForRevocation, Matches, Reserved;
    ReservedShape();
    var (s, l) := Reserved();
    RevocationCommitsProposal(s, RUNNER, l, SessionOf("session-a", Revoked));
    CanonicalStateSafe(RUNNER, s.transitions);
    SingleMatch(s, l);
  }

  /** A reachable run and a permit that a reservation for another session ends while its own lease stays active. */
  lemma PermitCanEndEarly() returns (steps: seq<Step>, commit: Step, state: IntentState, permit: DispatchPermit)
    ensures AuthorizeLiveDispatch(After(steps).heads, state, permit, RUNNER).Success?
    ensures var after := After(steps + [commit]);
            && RUNNER.runnerId in after.heads
            && Reserved().1 in History(after.heads, RUNNER.runnerId).ActiveLeases()
            && state.intent.leaseId == StableId(Reserved().1)
            && !VerifyLiveDispatchPermit(after.heads, state, permit,
                                         AuthorizeLiveDispatch(After(steps).heads, state, permit, RUNNER).value, RUNNER)
  {
    hide After, ReserveCapacity, Reserved, Intent, Replay, AuthorizeLiveDispatch, VerifyLiveDispatchPermit;
    ReservedShape();
    IntentShape();
    steps := ReachesSubmission();
    state := BeginState(Prepared(Intent()));
    permit := PermitFor(state).value;
    AuthorizedExactlyWhileActive(steps, StableId(Intent()), RUNNER);
    OtherSessionFits();
    commit := CommitOn(After(steps), RUNNER,
                       ReserveCapacity(Reserved().0, ContextOf("session-b"), AttemptOf("session-b", "gei-b")).value.0);
    ReservationEndsPermit(steps, state, permit, ContextOf("session-b"), AttemptOf("session-b", "gei-b"));
  }

  lemma OtherSessionFits()
    ensures ReserveCapacity(Reserved().0, ContextOf("session-b"), AttemptOf("session-b", "gei-b")).Success?
  {
    hide ReserveCapacity, Replay, Reserved, LeasesIn, ReleasesIn, Unreleased, AttemptOf, ContextOf, IsSuccessor,
         PrepareDispatchIntent;
    ReservedShape();
    AttemptsDiffer();
    var (s, l) := Reserved();
    FirstAttemptFits(s, "session-b", "gei-b");
  }

  lemma AttemptsDiffer()
    ensures ATTEMPT != AttemptOf("session-b", "gei-b")
    ensures forall slot :: LeaseFor(GENESIS, RUNNER, ATTEMPT, slot).Key() == ("session-a", 1)
  {
    assert "session-a"[8] != "session-b"[8];
  }
}
