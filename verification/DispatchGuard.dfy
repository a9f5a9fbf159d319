/**
  Live dispatch permits (src/general_execution/dispatch_guard.py): transport authority bound to the
  durable outbox state and to the runner's current capacity head.
 */
module DispatchGuard {
  import opened Canonical
  import opened Physical
  import opened Capacity
  import opened AllocatorSafety
  import opened GrantValidity
  import opened DurableCapacity
  import opened Dispatch
  import opened ExecutionRuns
  import opened ExecutionInvariant
  import opened ExecutionSafety
  import opened ExecutionTheorems

  datatype LiveDispatchPermit = LiveDispatchPermit(
    intentId: IntentId, intentDigest: Digest<DispatchIntent>, dispatchStateDigest: Digest<IntentState>,
    dispatchPermitDigest: Digest<DispatchPermit>,
    runnerId: string, runnerCapabilityDigest: Digest<RunnerCapabilities>,
    capacityHeadDigest: Digest<DurableHead>, capacityStateDigest: Digest<RunnerCapacityState>,
    capacitySnapshotDigest: Digest<SnapshotPayload>, capacityGeneration: nat,
    leaseId: StableId<CapacityLease>, leaseDigest: Digest<CapacityLease>,
    authorizationId: StableId<PhysicalAttemptAuthorization>,
    authorizationDigest: Digest<PhysicalAttemptAuthorization>,
    invocationId: string, requestDigest: Digest<AdapterDispatchRequest>, physicalAttempt: nat)

  datatype GuardError =
    | NotSubmitted | PermitDoesNotReproduce | HeadUnavailable | CapabilitiesChanged | LeaseInactive
    | LeaseDoesNotReproduce | NoCommittedGeneration

  predicate VerifyDispatchPermit(state: IntentState, permit: DispatchPermit) {
    PermitFor(state) == Some(permit)
  }

  predicate LeaseReproducesIntent(intent: DispatchIntent, lease: CapacityLease) {
    && lease.runnerId == intent.runnerId
    && lease.runnerCapabilityDigest == intent.runnerCapabilityDigest
    && IntentMatchesLease(intent, lease)
  }

  function LoadActiveBoundLease(heads: Heads, state: IntentState, permit: DispatchPermit, runner: RunnerCapabilities)
    : Result<(RunnerCapacityState, DurableHead, CapacityLease), GuardError>
  {
    if !state.SubmissionUnknown? then Failure(NotSubmitted)
    else if !VerifyDispatchPermit(state, permit) then Failure(PermitDoesNotReproduce)
    else match LoadTx(heads, runner)
      case Failure(_) => Failure(HeadUnavailable)
      case Success(loaded) =>
        var intent := state.intent;
        if intent.runnerId != runner.runnerId || intent.runnerCapabilityDigest != Sha256(runner) then
          Failure(GuardError.CapabilitiesChanged)
        else
          var matches := Matches(loaded.0.ActiveLeases(), intent.leaseId, intent.leaseDigest);
          if |matches| != 1 then Failure(LeaseInactive)
          else if !LeaseReproducesIntent(intent, matches[0]) then Failure(LeaseDoesNotReproduce)
          else Success((loaded.0, loaded.1, matches[0]))
  }

  function AuthorizeLiveDispatch(heads: Heads, state: IntentState, permit: DispatchPermit, runner: RunnerCapabilities)
    : Result<LiveDispatchPermit, GuardError>
  {
    match LoadActiveBoundLease(heads, state, permit, runner)
    case Failure(e) => Failure(e)
    case Success(bound) =>
      var (capacity, head, lease) := bound;
      var intent := state.intent;
      if capacity.generation < 1 then Failure(NoCommittedGeneration)
      else Success(LiveDispatchPermit(
        StableId(intent), Sha256(intent), Sha256(state), Sha256(permit), runner.runnerId, Sha256(runner), Sha256(head),
        Sha256(capacity), head.snapshotDigest, capacity.generation, StableId(lease), Sha256(lease),
        intent.authorizationId, intent.authorizationDigest, intent.invocationId, intent.requestDigest,
        intent.physicalAttempt))
  }

  predicate VerifyLiveDispatchPermit(heads: Heads, state: IntentState, permit: DispatchPermit, live: LiveDispatchPermit,
                                     runner: RunnerCapabilities)
  {
    AuthorizeLiveDispatch(heads, state, permit, runner) == Success(live)
  }

  /** The lease lookup of the guard finds exactly the active lease the intent names. */
  lemma GuardLookup(s: RunnerCapacityState, intent: DispatchIntent, l: CapacityLease)
    requires AllocatorSafe(s) && intent.leaseId == StableId(l) && intent.leaseDigest == Sha256(l)
    ensures var matches := Matches(s.ActiveLeases(), intent.leaseId, intent.leaseDigest);
            && |matches| == (if l in s.ActiveLeases() then 1 else 0)
            && (|matches| == 1 ==> matches[0] == l)
    ensures l in s.ActiveLeases() ==> l in s.Leases() && s.generation >= 1
  {
    hide LeasesIn, ReleasesIn, Unreleased, Matches;
    AtMostOneMatch(s.ActiveLeases(), intent.leaseId, intent.leaseDigest);
    MatchesMember(s.ActiveLeases(), intent.leaseId, intent.leaseDigest);
    UnreleasedMembers(s.Leases(), ReleasedIds(s.Releases()));
    var matches := Matches(s.ActiveLeases(), intent.leaseId, intent.leaseDigest);
    if |matches| == 1 {
      assert matches[0] in matches;
    }
  }

  /** A prepared intent validates against exactly those canonical states in which its lease is active. */
  lemma PreparedIntentValidity(s: RunnerCapacityState, runner: RunnerCapabilities, lease: CapacityLease,
                               auth: PhysicalAttemptAuthorization, later: RunnerCapacityState)
    requires PrepareDispatchIntent(s, runner, lease, auth).Success?
    ensures var intent := PrepareDispatchIntent(s, runner, lease, auth).value;
            ValidateIntent(intent, later, runner) == Success(lease)
            <==> Replays(later, runner) && lease in later.ActiveLeases()
  {
    hide Replay, AllocatorSafe, LeasesIn, ReleasesIn, Unreleased, Matches;
    var intent := PrepareDispatchIntent(s, runner, lease, auth).value;
    if Replays(later, runner) {
      CanonicalStateSafe(runner, later.transitions);
      GuardLookup(later, intent, lease);
    }
  }

  /** A submitted intent of a run gets a live permit exactly while its lease is active in the durable head;
      no other refusal can occur for it. */
  lemma AuthorizedExactlyWhileActive(steps: seq<Step>, id: IntentId, runner: RunnerCapabilities)
    requires id in After(steps).intents && After(steps).intents[id].state.SubmissionUnknown?
    requires After(steps).intents[id].state.intent.runnerCapabilityDigest == Sha256(runner)
    ensures var w := After(steps);
            var state := w.intents[id].state;
            var r := AuthorizeLiveDispatch(w.heads, state, PermitFor(state).value, runner);
            && runner.runnerId in w.heads && state.intent.leaseId.StableId?
            && (r.Success? <==> state.intent.leaseId.preimage in History(w.heads, runner.runnerId).ActiveLeases())
            && (r.Failure? ==> r.error == LeaseInactive)
  {
    hide After, Replay, AllocatorSafe, LeasesIn, ReleasesIn, Unreleased, Matches, ClientOk, ReturnOk, BegunOk, OutcomesAgree;
    RunKeepsInv(steps);
    var w := After(steps);
    var state := w.intents[id].state;
    assert LeaseKnown(w.heads, state.intent);
    assert ValidRow(state.intent.runnerId, w.heads[state.intent.runnerId]);
    HeadsStayCanonical(steps, runner.runnerId);
    var s, l := History(w.heads, runner.runnerId), state.intent.leaseId.preimage;
    GuardLookup(s, state.intent, l);
    if l in s.ActiveLeases() {
      BoundLease(s, l);
    }
  }

  lemma BoundLease(s: RunnerCapacityState, l: CapacityLease)
    requires AllocatorSafe(s) && l in s.Leases()
    ensures l.runnerId == s.runnerId && l.runnerCapabilityDigest == s.runnerCapabilityDigest
  {
    hide LeasesIn, ReleasesIn, Unreleased, DistinctLeases, DistinctReleases, SeparateOccupants, ReleasesCopyLeases;
  }

  /** A permit speaks of one head: it verifies on a table exactly when issuing on that table is possible
      and the runner's head is the one it was issued on. */
  lemma PermitBindsHead(issued: Heads, heads: Heads, state: IntentState, permit: DispatchPermit, runner: RunnerCapabilities)
    requires AuthorizeLiveDispatch(issued, state, permit, runner).Success?
    ensures var live := AuthorizeLiveDispatch(issued, state, permit, runner).value;
            VerifyLiveDispatchPermit(heads, state, permit, live, runner)
            <==> LoadTx(heads, runner) == LoadTx(issued, runner)
  {
    hide LoadTx, Matches, LeaseReproducesIntent;
  }

  /** A permit issued at any point of a run verifies later exactly while nothing has been committed for its
      runner since. */
  lemma PermitUntilNextCommit(steps: seq<Step>, k: nat, state: IntentState, permit: DispatchPermit, runner: RunnerCapabilities)
    requires k <= |steps|
    requires AuthorizeLiveDispatch(After(steps[..k]).heads, state, permit, runner).Success?
    ensures runner.runnerId in After(steps[..k]).heads && runner.runnerId in After(steps).heads
    ensures var live := AuthorizeLiveDispatch(After(steps[..k]).heads, state, permit, runner).value;
            VerifyLiveDispatchPermit(After(steps).heads, state, permit, live, runner)
            <==> History(After(steps).heads, runner.runnerId) == History(After(steps[..k]).heads, runner.runnerId)
  {
    hide After, Replay, AuthorizeLiveDispatch, VerifyLiveDispatchPermit;
    var h0, h1 := After(steps[..k]).heads, After(steps).heads;
    AuthorizedHeadLoads(h0, state, permit, runner);
    HeadsLinearise(steps, k, runner.runnerId);
    RunKeepsInv(steps[..k]);
    RunKeepsInv(steps);
    RunGrows(steps, k);
    assert ValidRow(runner.runnerId, h0[runner.runnerId]) && ValidRow(runner.runnerId, h1[runner.runnerId]);
    PermitBindsHead(h0, h1, state, permit, runner);
  }

  lemma AuthorizedHeadLoads(heads: Heads, state: IntentState, permit: DispatchPermit, runner: RunnerCapabilities)
    requires AuthorizeLiveDispatch(heads, state, permit, runner).Success?
    ensures LoadTx(heads, runner).Success? && runner.runnerId in heads
  {
    hide Matches, Replay;
  }

  /** Once a permit has stopped verifying it never verifies again in that run. */
  lemma PermitNeverRevives(steps: seq<Step>, k: nat, m: nat, state: IntentState, permit: DispatchPermit,
                           runner: RunnerCapabilities)
    requires k <= m <= |steps|
    requires AuthorizeLiveDispatch(After(steps[..k]).heads, state, permit, runner).Success?
    requires !VerifyLiveDispatchPermit(After(steps[..m]).heads, state, permit,
                AuthorizeLiveDispatch(After(steps[..k]).heads, state, permit, runner).value, runner)
    ensures !VerifyLiveDispatchPermit(After(steps).heads, state, permit,
                AuthorizeLiveDispatch(After(steps[..k]).heads, state, permit, runner).value, runner)
  {
    hide After, AuthorizeLiveDispatch, VerifyLiveDispatchPermit;
    assert steps[..m][..k] == steps[..k];
    PermitUntilNextCommit(steps[..m], k, state, permit, runner);
    PermitUntilNextCommit(steps, k, state, permit, runner);
    HeadsLinearise(steps, m, runner.runnerId);
    HeadsLinearise(steps[..m], k, runner.runnerId);
  }
}
