/**
  The durable capacity head (src/general_execution/durable.py): one row per runner, advanced only by
  compare-and-swap.  Each SQLite transaction is a function from table to table; the store class
  performs it on its own table.
 */
module DurableCapacity {
  import opened Canonical
  import opened Physical
  import opened Capacity
  import opened AllocatorSafety
  import opened CapacityGrants

  datatype SnapshotPayload = SnapshotPayload(state: RunnerCapacityState, stateDigest: Digest<RunnerCapacityState>)

  datatype HeadRow = HeadRow(
    capabilityDigest: Digest<RunnerCapabilities>, stateDigest: Digest<RunnerCapacityState>, generation: nat,
    snapshotDigest: Digest<SnapshotPayload>,
    snapshot: SnapshotPayload, snapshotOwnDigest: Digest<SnapshotPayload>)

  datatype DurableHead = DurableHead(
    runnerId: string, capabilityDigest: Digest<RunnerCapabilities>, stateDigest: Digest<RunnerCapacityState>,
    generation: nat, snapshotDigest: Digest<SnapshotPayload>)

  datatype DurableError =
    | InitialDoesNotReplay | HeadExists | NoHead | CapabilitiesChanged | SnapshotDigestMismatch
    | SnapshotStateMismatch | SnapshotDoesNotReplay | HeadMetadataMismatch | CandidateDoesNotReplay
    | StaleHead | NotOneGeneration | PredecessorMismatch | HistoryNotExtended | CompareAndSwapFailed

  type Heads = map<string, HeadRow>

  function SnapshotOf(s: RunnerCapacityState): SnapshotPayload { SnapshotPayload(s, Sha256(s)) }

  function EncodeRow(s: RunnerCapacityState): HeadRow {
    HeadRow(s.runnerCapabilityDigest, Sha256(s), s.generation, Sha256(SnapshotOf(s)), SnapshotOf(s),
            Sha256(SnapshotOf(s)))
  }

  function HeadOf(s: RunnerCapacityState): DurableHead {
    DurableHead(s.runnerId, s.runnerCapabilityDigest, Sha256(s), s.generation, Sha256(SnapshotOf(s)))
  }

  function DecodeRow(row: HeadRow, runner: RunnerCapabilities): Result<RunnerCapacityState, DurableError> {
    var s := row.snapshot.state;
    if row.capabilityDigest != Sha256(runner) then Failure(CapabilitiesChanged)
    else if row.snapshotOwnDigest != Sha256(row.snapshot) then Failure(SnapshotDigestMismatch)
    else if row.snapshot.stateDigest != Sha256(s) then Failure(SnapshotStateMismatch)
    else if !Replays(s, runner) then Failure(SnapshotDoesNotReplay)
    else if row.stateDigest != Sha256(s) || row.generation != s.generation
         || row.snapshotDigest != row.snapshotOwnDigest then Failure(HeadMetadataMismatch)
    else Success(s)
  }

  // ---------------------------------------------------------------- transactions

  function InitializeTx(heads: Heads, runner: RunnerCapabilities, state: Option<RunnerCapacityState>)
    : (Heads, Result<DurableHead, DurableError>)
  {
    var s := if state.Some? then state.value else InitialCapacityState(runner);
    if !Replays(s, runner) then (heads, Failure(InitialDoesNotReplay))
    else if runner.runnerId in heads then
      match DecodeRow(heads[runner.runnerId], runner)
      case Failure(e) => (heads, Failure(e))
      case Success(existing) =>
        if existing != s then (heads, Failure(HeadExists)) else (heads, Success(HeadOf(existing)))
    else (heads[s.runnerId := EncodeRow(s)], Success(HeadOf(s)))
  }

  function LoadTx(heads: Heads, runner: RunnerCapabilities): Result<(RunnerCapacityState, DurableHead), DurableError> {
    if runner.runnerId !in heads then Failure(NoHead)
    else match DecodeRow(heads[runner.runnerId], runner)
      case Failure(e) => Failure(e)
      case Success(s) => Success((s, HeadOf(s)))
  }

  function CommitTx(heads: Heads, runner: RunnerCapabilities, expected: Digest<RunnerCapacityState>,
                    next: RunnerCapacityState): (Heads, Result<DurableHead, DurableError>)
  {
    if !Replays(next, runner) then (heads, Failure(CandidateDoesNotReplay))
    else if runner.runnerId !in heads then (heads, Failure(NoHead))
    else
      var row := heads[runner.runnerId];
      match DecodeRow(row, runner)
      case Failure(e) => (heads, Failure(e))
      case Success(current) =>
        if Sha256(current) != expected then (heads, Failure(StaleHead))
        else if next.generation != current.generation + 1 then (heads, Failure(NotOneGeneration))
        else if next.previousStateDigest != Some(Sha256(current)) then (heads, Failure(PredecessorMismatch))
        else if AllButLast(next.transitions) != current.transitions then (heads, Failure(HistoryNotExtended))
        else if row.stateDigest != expected || row.generation != current.generation then
          (heads, Failure(CompareAndSwapFailed))
        else (heads[runner.runnerId := EncodeRow(next)], Success(HeadOf(next)))
  }

  /** Python's `transitions[:-1]`, which is empty on an empty history */
  function AllButLast(ts: seq<CapacityTransition>): seq<CapacityTransition> {
    if ts == [] then [] else ts[..|ts| - 1]
  }

  class SqliteCapacityHeadStore {
    var heads: Heads

    constructor ()
      ensures heads == map[]
    {
      heads := map[];
    }

    method Initialize(runner: RunnerCapabilities, state: Option<RunnerCapacityState>)
      returns (r: Result<DurableHead, DurableError>)
      modifies this
      ensures (heads, r) == InitializeTx(old(heads), runner, state)
    {
      hide Replay;
      var s := if state.Some? then state.value else InitialCapacityState(runner);
      var ok := VerifyCapacityState(s, runner);
      if !ok {
        return Failure(InitialDoesNotReplay);
      }
      if runner.runnerId in heads {
        var decoded := DecodeRow(heads[runner.runnerId], runner);
        match decoded {
          case Failure(e) => return Failure(e);
          case Success(existing) =>
            if existing != s {
              return Failure(HeadExists);
            }
            return Success(HeadOf(existing));
        }
      }
      heads := heads[s.runnerId := EncodeRow(s)];
      return Success(HeadOf(s));
    }

    method Load(runner: RunnerCapabilities) returns (r: Result<(RunnerCapacityState, DurableHead), DurableError>)
      ensures r == LoadTx(heads, runner)
    {
      if runner.runnerId !in heads {
        return Failure(NoHead);
      }
      var decoded := DecodeRow(heads[runner.runnerId], runner);
      if decoded.Failure? {
        return Failure(decoded.error);
      }
      return Success((decoded.value, HeadOf(decoded.value)));
    }

    method Commit(runner: RunnerCapabilities, expected: Digest<RunnerCapacityState>, next: RunnerCapacityState)
      returns (r: Result<DurableHead, DurableError>)
      modifies this
      ensures (heads, r) == CommitTx(old(heads), runner, expected, next)
    {
      hide Replay;
      var ok := VerifyCapacityState(next, runner);
      if !ok {
        return Failure(CandidateDoesNotReplay);
      }
      if runner.runnerId !in heads {
        return Failure(NoHead);
      }
      var row := heads[runner.runnerId];
      var decoded := DecodeRow(row, runner);
      if decoded.Failure? {
        return Failure(decoded.error);
      }
      var current := decoded.value;
      if Sha256(current) != expected {
        return Failure(StaleHead);
      }
      if next.generation != current.generation + 1 {
        return Failure(NotOneGeneration);
      }
      if next.previousStateDigest != Some(Sha256(current)) {
        return Failure(PredecessorMismatch);
      }
      if AllButLast(next.transitions) != current.transitions {
        return Failure(HistoryNotExtended);
      }
      if row.stateDigest != expected || row.generation != current.generation {
        return Failure(CompareAndSwapFailed);
      }
      heads := heads[runner.runnerId := EncodeRow(next)];
      return Success(HeadOf(next));
    }
  }

  // ---------------------------------------------------------------- what every transaction keeps

  /** The row of a runner is the encoding of a state that replays for the runner whose capabilities it binds. */
  ghost predicate ValidRow(id: string, row: HeadRow) {
    && row.capabilityDigest.Sha256?
    && row.capabilityDigest.preimage.runnerId == id
    && Replays(row.snapshot.state, row.capabilityDigest.preimage)
    && row == EncodeRow(row.snapshot.state)
  }

  ghost predicate ValidHeads(heads: Heads) {
    forall id <- heads :: ValidRow(id, heads[id])
  }

  /** Every runner keeps its head, its capabilities and its committed history. */
  ghost predicate HeadsGrow(before: Heads, after: Heads) {
    forall id <- before ::
      && id in after
      && after[id].capabilityDigest == before[id].capabilityDigest
      && before[id].snapshot.state.transitions <= after[id].snapshot.state.transitions
  }

  lemma InitializeKeeps(heads: Heads, runner: RunnerCapabilities, state: Option<RunnerCapacityState>)
    requires ValidHeads(heads)
    ensures var (after, r) := InitializeTx(heads, runner, state);
            && ValidHeads(after) && HeadsGrow(heads, after)
            && (r.Failure? || runner.runnerId in heads ==> after == heads)
  {
    hide Replay;
  }

  /** On a valid table a commit is accepted exactly when the caller read the current head and offers a
      state the allocator itself would produce from it; anything else leaves the table untouched. */
  lemma CommitAcceptsSuccessors(heads: Heads, runner: RunnerCapabilities, expected: Digest<RunnerCapacityState>,
                                next: RunnerCapacityState)
    requires ValidHeads(heads) && runner.runnerId in heads
    requires heads[runner.runnerId].capabilityDigest == Sha256(runner)
    ensures var current := heads[runner.runnerId].snapshot.state;
            var (after, r) := CommitTx(heads, runner, expected, next);
            && (r.Success? <==> expected == Sha256(current) && IsSuccessor(current, next))
            && (r.Success? ==> after == heads[runner.runnerId := EncodeRow(next)] && r.value == HeadOf(next))
            && (r.Failure? ==> after == heads)
  {
    hide Replay, ApplyTransition;
    var current := heads[runner.runnerId].snapshot.state;
    if IsSuccessor(current, next) {
      var t :| ApplyTransition(current, t) == Success(next);
      CommitReplays(current, runner, t);
      assert AllButLast(current.transitions + [t]) == current.transitions;
    }
    if CommitTx(heads, runner, expected, next).1.Success? {
      ReplayShape(runner, current.transitions);
      ReplayShape(runner, next.transitions);
      var k := |current.transitions|;
      ReplayStep(runner, next.transitions, k);
      assert next.transitions[..k + 1] == next.transitions;
    }
  }

  ghost predicate IsSuccessor(current: RunnerCapacityState, next: RunnerCapacityState) {
    exists t :: ApplyTransition(current, t) == Success(next)
  }

  /** No committed transition is ever lost: a commit appends exactly one transition to one runner's history. */
  lemma CommitKeeps(heads: Heads, runner: RunnerCapabilities, expected: Digest<RunnerCapacityState>,
                    next: RunnerCapacityState)
    requires ValidHeads(heads)
    ensures var (after, r) := CommitTx(heads, runner, expected, next);
            && ValidHeads(after) && HeadsGrow(heads, after)
            && (r.Failure? ==> after == heads)
            && (r.Success? ==>
                  && runner.runnerId in heads
                  && after == heads[runner.runnerId := EncodeRow(next)]
                  && expected == Sha256(heads[runner.runnerId].snapshot.state)
                  && heads[runner.runnerId].snapshot.state.transitions < next.transitions
                  && |next.transitions| == |heads[runner.runnerId].snapshot.state.transitions| + 1)
  {
    hide Replay, ApplyTransition;
    if CommitTx(heads, runner, expected, next).1.Success? {
      CommitAcceptsSuccessors(heads, runner, expected, next);
      var current := heads[runner.runnerId].snapshot.state;
      var t :| ApplyTransition(current, t) == Success(next);
      CommitReplays(current, runner, t);
    }
  }

  /** The final compare-and-swap of a commit cannot fail: the row was decoded under the same lock. */
  lemma SwapNeverFails(heads: Heads, runner: RunnerCapabilities, expected: Digest<RunnerCapacityState>,
                       next: RunnerCapacityState)
    ensures CommitTx(heads, runner, expected, next).1 != Failure(CompareAndSwapFailed)
  {
    hide Replay;
  }
}
