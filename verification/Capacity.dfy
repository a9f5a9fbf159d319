/**
  The lease allocator (src/general_execution/capacity.py).  A runner's state is its history of
  reserve and release transitions; leases, releases and active leases are views of that history.
 */
module Capacity {
  import opened Canonical
  import opened Physical

  datatype CapacityLease = CapacityLease(
    runnerId: string, runnerCapabilityDigest: Digest<RunnerCapabilities>, slot: nat,
    sessionId: string, logicalAttempt: nat,
    authorizationId: StableId<PhysicalAttemptAuthorization>,
    authorizationDigest: Digest<PhysicalAttemptAuthorization>,
    invocationId: string, physicalAttempt: nat,
    previousInvocationId: Option<string>, previousReceiptDigest: Option<Digest<PhysicalReceipt>>,
    expectedStateDigest: Digest<RunnerCapacityState>)
  {
    function Key(): (string, nat) { (sessionId, logicalAttempt) }
  }

  datatype ReleaseCause =
    | TerminalOutcome(outcomeDigest: Digest<PhysicalOutcomeBundle>, receiptDigest: Digest<PhysicalReceipt>,
                      transportStatus: TransportStatus)
    | SessionRevoked(revokedSessionDigest: Digest<ExecutionSession>)

  datatype CapacityRelease = CapacityRelease(
    leaseId: StableId<CapacityLease>, leaseDigest: Digest<CapacityLease>,
    runnerId: string, sessionId: string, logicalAttempt: nat,
    authorizationId: StableId<PhysicalAttemptAuthorization>,
    authorizationDigest: Digest<PhysicalAttemptAuthorization>,
    invocationId: string, physicalAttempt: nat,
    cause: ReleaseCause, expectedStateDigest: Digest<RunnerCapacityState>)

  datatype CapacityTransition =
    | Reserve(expectedStateDigest: Digest<RunnerCapacityState>, lease: CapacityLease)
    | Release(expectedStateDigest: Digest<RunnerCapacityState>, release: CapacityRelease)

  datatype RunnerCapacityState = RunnerCapacityState(
    runnerId: string, runnerCapabilityDigest: Digest<RunnerCapabilities>, maxParallelism: nat,
    generation: nat, previousStateDigest: Option<Digest<RunnerCapacityState>>,
    transitions: seq<CapacityTransition>)
  {
    function Leases(): seq<CapacityLease> { LeasesIn(transitions) }

    function Releases(): seq<CapacityRelease> { ReleasesIn(transitions) }

    function ActiveLeases(): seq<CapacityLease> { Unreleased(Leases(), ReleasedIds(Releases())) }
  }

  datatype CapacityError =
    | NotBoundToRunner | DoesNotReplay | RequestDoesNotReproduce | AuthorizationForAnotherRunner
    | CapacityExhausted | NoFreeSlot | AuthorizationAlreadyLeased | SessionAlreadyActive | PredecessorNotReleased
    | StaleTransition | LeaseSnapshotMismatch | LeaseRunnerMismatch | SlotOutOfRange | SlotOccupied
    | DuplicateLease | ReleaseSnapshotMismatch | NoSingleActiveLease | ReleaseIdentityMismatch
    | OutcomeDoesNotReproduce | OutcomeNotForLease | OutcomeSessionMismatch
    | SessionNotRevoked | SessionDoesNotOwnLease | TransitionDoesNotReproduce

  // ---------------------------------------------------------------- views of a history

  function LeasesIn(ts: seq<CapacityTransition>): seq<CapacityLease> {
    if ts == [] then [] else
      var t := ts[|ts| - 1];
      LeasesIn(ts[..|ts| - 1]) + if t.Reserve? then [t.lease] else []
  }

  function ReleasesIn(ts: seq<CapacityTransition>): seq<CapacityRelease> {
    if ts == [] then [] else
      var t := ts[|ts| - 1];
      ReleasesIn(ts[..|ts| - 1]) + if t.Release? then [t.release] else []
  }

  function ReleasedIds(releases: seq<CapacityRelease>): set<StableId<CapacityLease>> {
    set r <- releases :: r.leaseId
  }

  function Unreleased(leases: seq<CapacityLease>, released: set<StableId<CapacityLease>>): seq<CapacityLease> {
    if leases == [] then [] else
      var l := leases[|leases| - 1];
      Unreleased(leases[..|leases| - 1], released) + if StableId(l) in released then [] else [l]
  }

  function OccupiedSlots(s: RunnerCapacityState): set<nat> {
    set l <- s.ActiveLeases() :: l.slot
  }

  predicate ActiveKey(s: RunnerCapacityState, key: (string, nat)) {
    exists l <- s.ActiveLeases() :: l.Key() == key
  }

  // ---------------------------------------------------------------- transitions

  function InitialCapacityState(runner: RunnerCapabilities): RunnerCapacityState {
    RunnerCapacityState(runner.runnerId, Sha256(runner), runner.maxParallelism, 0, None, [])
  }

  predicate BoundToRunner(s: RunnerCapacityState, runner: RunnerCapabilities) {
    && s.runnerId == runner.runnerId
    && s.runnerCapabilityDigest == Sha256(runner)
    && s.maxParallelism == runner.maxParallelism
  }

  /** `r` is the terminal, non-completed release a retry of the given attempt must name. */
  predicate ReleasesPredecessor(r: CapacityRelease, key: (string, nat), physicalAttempt: nat,
                                previousInvocationId: Option<string>,
                                previousReceiptDigest: Option<Digest<PhysicalReceipt>>)
  {
    && r.cause.TerminalOutcome?
    && (r.sessionId, r.logicalAttempt) == key
    && r.physicalAttempt + 1 == physicalAttempt
    && Some(r.invocationId) == previousInvocationId
    && Some(r.cause.receiptDigest) == previousReceiptDigest
    && r.cause.transportStatus != Completed
  }

  predicate PredecessorReleased(s: RunnerCapacityState, key: (string, nat), physicalAttempt: nat,
                                previousInvocationId: Option<string>,
                                previousReceiptDigest: Option<Digest<PhysicalReceipt>>)
  {
    if physicalAttempt == 1 then previousInvocationId.None? && previousReceiptDigest.None?
    else exists r <- s.Releases() ::
        ReleasesPredecessor(r, key, physicalAttempt, previousInvocationId, previousReceiptDigest)
  }

  predicate CopiesIdentity(r: CapacityRelease, l: CapacityLease) {
    && r.leaseId == StableId(l)
    && r.leaseDigest == Sha256(l)
    && r.runnerId == l.runnerId
    && r.sessionId == l.sessionId
    && r.logicalAttempt == l.logicalAttempt
    && r.authorizationId == l.authorizationId
    && r.authorizationDigest == l.authorizationDigest
    && r.invocationId == l.invocationId
    && r.physicalAttempt == l.physicalAttempt
  }

  function Advance(s: RunnerCapacityState, t: CapacityTransition): RunnerCapacityState {
    s.(generation := s.generation + 1, previousStateDigest := Some(Sha256(s)), transitions := s.transitions + [t])
  }

  /** The active leases with the given id and digest. */
  function Matches(active: seq<CapacityLease>, id: StableId<CapacityLease>, digest: Digest<CapacityLease>)
    : seq<CapacityLease>
  {
    if active == [] then [] else
      var l := active[|active| - 1];
      Matches(active[..|active| - 1], id, digest) + if StableId(l) == id && Sha256(l) == digest then [l] else []
  }

  function ApplyTransition(s: RunnerCapacityState, t: CapacityTransition): Result<RunnerCapacityState, CapacityError> {
    if t.expectedStateDigest != Sha256(s) then Failure(StaleTransition)
    else match t
      case Reserve(_, lease) =>
        if lease.expectedStateDigest != Sha256(s) then Failure(LeaseSnapshotMismatch)
        else if lease.runnerId != s.runnerId || lease.runnerCapabilityDigest != s.runnerCapabilityDigest then
          Failure(LeaseRunnerMismatch)
        else if lease.slot >= s.maxParallelism then Failure(SlotOutOfRange)
        else if |s.ActiveLeases()| >= s.maxParallelism || lease.slot in OccupiedSlots(s) then Failure(SlotOccupied)
        else if exists x <- s.Leases() :: StableId(x) == StableId(lease)
                                       || x.authorizationDigest == lease.authorizationDigest then
          Failure(DuplicateLease)
        else if ActiveKey(s, lease.Key()) then Failure(SessionAlreadyActive)
        else if !PredecessorReleased(s, lease.Key(), lease.physicalAttempt,
                                     lease.previousInvocationId, lease.previousReceiptDigest) then
          Failure(PredecessorNotReleased)
        else Success(Advance(s, t))
      case Release(_, release) =>
        if release.expectedStateDigest != Sha256(s) then Failure(ReleaseSnapshotMismatch)
        else
          var matches := Matches(s.ActiveLeases(), release.leaseId, release.leaseDigest);
          if |matches| != 1 then Failure(NoSingleActiveLease)
          else if !CopiesIdentity(release, matches[0]) then Failure(ReleaseIdentityMismatch)
          else Success(Advance(s, t))
  }

  /** Applies a whole history to a runner's genesis state. */
  function Replay(runner: RunnerCapabilities, ts: seq<CapacityTransition>): Option<RunnerCapacityState> {
    if ts == [] then Some(InitialCapacityState(runner))
    else match Replay(runner, ts[..|ts| - 1])
      case None => None
      case Some(s) =>
        match ApplyTransition(s, ts[|ts| - 1])
        case Failure(_) => None
        case Success(next) => Some(next)
  }

  /** A capacity state is canonical for a runner when its own history reproduces it exactly. */
  predicate Replays(s: RunnerCapacityState, runner: RunnerCapabilities) {
    BoundToRunner(s, runner) && Replay(runner, s.transitions) == Some(s)
  }

  method VerifyCapacityState(s: RunnerCapacityState, runner: RunnerCapabilities) returns (ok: bool)
    ensures ok <==> Replays(s, runner)
  {
    if !BoundToRunner(s, runner) {
      return false;
    }
    hide ApplyTransition, Replay;
    var current := InitialCapacityState(runner);
    for i := 0 to |s.transitions|
      invariant Replay(runner, s.transitions[..i]) == Some(current)
    {
      ReplayUnfold(runner, s.transitions, i);
      var next := ApplyTransition(current, s.transitions[i]);
      if next.Failure? {
        ReplayPrefixClosed(runner, s.transitions, i + 1);
        return false;
      }
      current := next.value;
    }
    ReplayAll(runner, s.transitions);
    return current == s;
  }

  // ---------------------------------------------------------------- replay

  lemma ReplayUnfold(runner: RunnerCapabilities, ts: seq<CapacityTransition>, k: nat)
    requires k < |ts| && Replay(runner, ts[..k]).Some?
    ensures var next := ApplyTransition(Replay(runner, ts[..k]).value, ts[k]);
            Replay(runner, ts[..k + 1]) == if next.Success? then Some(next.value) else None
  {
    hide ApplyTransition;
    assert ts[..k + 1][..k] == ts[..k];
  }

  lemma ReplayAll(runner: RunnerCapabilities, ts: seq<CapacityTransition>)
    ensures Replay(runner, ts[..|ts|]) == Replay(runner, ts)
  {
    assert ts[..|ts|] == ts;
  }

  lemma {:induction false} ReplayPrefixClosed(runner: RunnerCapabilities, ts: seq<CapacityTransition>, k: nat)
    requires k <= |ts| && Replay(runner, ts[..k]).None?
    ensures Replay(runner, ts).None?
    decreases |ts|
  {
    hide ApplyTransition;
    if k == |ts| {
      assert ts[..k] == ts;
    } else {
      var front := ts[..|ts| - 1];
      assert front[..k] == ts[..k];
      ReplayPrefixClosed(runner, front, k);
    }
  }

  lemma ApplyAdvances(s: RunnerCapacityState, t: CapacityTransition)
    requires ApplyTransition(s, t).Success?
    ensures ApplyTransition(s, t).value == Advance(s, t)
  {
  }

  /** What replay produces: the runner's own binding, the history itself, a generation that counts it. */
  lemma {:induction false} ReplayShape(runner: RunnerCapabilities, ts: seq<CapacityTransition>)
    requires Replay(runner, ts).Some?
    ensures var s := Replay(runner, ts).value;
            BoundToRunner(s, runner) && s.transitions == ts && s.generation == |ts| && Replays(s, runner)
  {
    hide ApplyTransition;
    if ts != [] {
      var front, last := ts[..|ts| - 1], ts[|ts| - 1];
      ReplayShape(runner, front);
      ApplyAdvances(Replay(runner, front).value, last);
      assert ts == front + [last];
    }
  }

  /** Every prefix of a canonical history is canonical, and the next transition was accepted on it. */
  lemma ReplayStep(runner: RunnerCapabilities, ts: seq<CapacityTransition>, k: nat)
    requires Replay(runner, ts).Some? && k < |ts|
    ensures Replay(runner, ts[..k]).Some? && Replay(runner, ts[..k + 1]).Some?
    ensures ApplyTransition(Replay(runner, ts[..k]).value, ts[k]) == Success(Replay(runner, ts[..k + 1]).value)
  {
    hide ApplyTransition;
    if Replay(runner, ts[..k]).None? {
      ReplayPrefixClosed(runner, ts, k);
    }
    if Replay(runner, ts[..k + 1]).None? {
      ReplayPrefixClosed(runner, ts, k + 1);
    }
    ReplayUnfold(runner, ts, k);
  }
}
