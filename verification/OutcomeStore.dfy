/**
  The store object over the outbox and its outcome table (src/general_execution/observed.py,
  `SqliteDurableObservedOutcomeStore`, which extends dispatch.py's store), and the restart-driven
  release that reads it beside the capacity store.
 */
module OutcomeStore {
  import opened Canonical
  import opened Physical
  import opened Capacity
  import opened CapacityGrants
  import opened DurableCapacity
  import opened Dispatch

  /** What `begin_submission` does when nothing else runs between its two reads and its commit. */
  function BeginAloneTx(intents: Intents, heads: Heads, id: IntentId, expected: Digest<IntentState>,
                        runner: RunnerCapabilities): (Intents, Result<(IntentState, DispatchPermit), DispatchError>)
  {
    match LoadIntentTx(intents, id)
    case Failure(e) => (intents, Failure(e))
    case Success(current) =>
      if Sha256(current) != expected then (intents, Failure(StaleState))
      else if !current.Prepared? then (intents, Failure(NotPrepared))
      else match LoadTx(heads, runner)
        case Failure(_) => (intents, Failure(CapacityHeadUnavailable))
        case Success(loaded) =>
          match ValidateIntent(current.intent, loaded.0, runner)
          case Failure(e) => (intents, Failure(e))
          case Success(_) =>
            var begun := BeginState(current);
            match CommitIntentTx(intents, current, begun)
            case (after, Failure(e)) => (after, Failure(e))
            case (after, Success(committed)) => (after, Success((committed, PermitFor(begun).value)))
  }

  /** What a restart-driven release does when nothing else runs between its reads and its commit. */
  function ReleaseAloneTx(intents: Intents, outcomes: Outcomes, heads: Heads, id: IntentId, ctx: ExecutionContext)
    : (Heads, Result<ReleaseRecovery, DispatchError>)
  {
    match LoadIntentTx(intents, id)
    case Failure(e) => (heads, Failure(e))
    case Success(state) =>
      if !state.Observed? then (heads, Failure(NotObserved))
      else match LoadOutcomeRow(outcomes, state, id)
        case Failure(e) => (heads, Failure(e))
        case Success(record) =>
          if !VerifyPhysicalOutcome(ctx, record.outcome) then (heads, Failure(OutcomeNoLongerVerifies))
          else ReleaseRecordTx(heads, ctx, record)
  }

  /** The part of it that works on the capacity head */
  function ReleaseRecordTx(heads: Heads, ctx: ExecutionContext, record: ObservedOutcome)
    : (Heads, Result<ReleaseRecovery, DispatchError>)
  {
    match LoadTx(heads, ctx.runner)
    case Failure(e) => (heads, Failure(Durable(e)))
    case Success(loaded) =>
      match PlanRelease(loaded.0, ctx, record)
      case Refuse(e) => (heads, Failure(e))
      case Answer(recovery) => (heads, Success(recovery))
      case CommitRelease(current, next, grant) =>
        match CommitTx(heads, ctx.runner, Sha256(current), next)
        case (after, Success(head)) => (after, Success(CommittedRecovery(record, next, grant, head)))
        case (after, Failure(e)) => (after, FallbackTx(after, ctx, record, e))
  }

  /** After a refused commit: answer from the head that won, or re-raise. */
  function FallbackTx(heads: Heads, ctx: ExecutionContext, record: ObservedOutcome, refused: DurableError)
    : Result<ReleaseRecovery, DispatchError>
  {
    match LoadTx(heads, ctx.runner)
    case Failure(e) => Failure(Durable(e))
    case Success(latest) =>
      match AlreadyReleased(latest.0, record)
      case Failure(e) => Failure(e)
      case Success(None) => Failure(Durable(refused))
      case Success(Some(recovery)) => Success(recovery)
  }

  class SqliteDurableObservedOutcomeStore {
    var intents: Intents
    var outcomes: Outcomes

    constructor ()
      ensures intents == map[] && outcomes == map[]
    {
      intents, outcomes := map[], map[];
    }

    method Initialize(intent: DispatchIntent) returns (r: Result<IntentState, DispatchError>)
      modifies this`intents
      ensures (intents, r) == InitializeIntentTx(old(intents), intent)
    {
      var id, state := StableId(intent), Prepared(intent);
      if id in intents {
        var existing := DecodeIntent(intents[id]);
        if existing.Failure? {
          return Failure(existing.error);
        }
        if existing.value != state {
          return Failure(IntentExists);
        }
        return Success(existing.value);
      }
      if exists other <- intents :: intents[other].leaseId == intent.leaseId {
        return Failure(LeaseHasIntent);
      }
      intents := intents[id := EncodeIntent(state)];
      return Success(state);
    }

    method Load(id: IntentId) returns (r: Result<IntentState, DispatchError>)
      ensures r == LoadIntentTx(intents, id)
    {
      if id !in intents {
        return Failure(IntentMissing);
      }
      r := DecodeIntent(intents[id]);
    }

    method CommitState(current: IntentState, next: IntentState) returns (r: Result<IntentState, DispatchError>)
      modifies this`intents
      ensures (intents, r) == CommitIntentTx(old(intents), current, next)
    {
      var id := StableId(current.intent);
      if next.intent != current.intent {
        return Failure(IntentIdentityChanged);
      }
      if !next.Follows(current) {
        return Failure(StatePredecessorMismatch);
      }
      var durable := Load(id);
      if durable.Failure? {
        return Failure(durable.error);
      }
      if durable.value != current {
        return Failure(StaleState);
      }
      intents := intents[id := EncodeIntent(next)];
      return Success(next);
    }

    /** Reads this store, then the capacity store, then commits here: submission is unknown from then on. */
    method BeginSubmission(id: IntentId, expected: Digest<IntentState>, capacity: SqliteCapacityHeadStore,
                           runner: RunnerCapabilities)
      returns (r: Result<(IntentState, DispatchPermit), DispatchError>)
      modifies this`intents
      ensures (intents, r) == BeginAloneTx(old(intents), capacity.heads, id, expected, runner)
    {
      var loaded := Load(id);
      if loaded.Failure? {
        return Failure(loaded.error);
      }
      var current := loaded.value;
      if Sha256(current) != expected {
        return Failure(StaleState);
      }
      if !current.Prepared? {
        return Failure(NotPrepared);
      }
      var head := capacity.Load(runner);
      if head.Failure? {
        return Failure(CapacityHeadUnavailable);
      }
      var lease := ValidateIntent(current.intent, head.value.0, runner);
      if lease.Failure? {
        return Failure(lease.error);
      }
      var committed := CommitState(current, BeginState(current));
      if committed.Failure? {
        return Failure(committed.error);
      }
      return Success((committed.value, PermitFor(committed.value).value));
    }

    method LoadObservedOutcome(id: IntentId) returns (r: Result<ObservedOutcome, DispatchError>)
      ensures r == match LoadIntentTx(intents, id)
                   case Failure(e) => Failure(e)
                   case Success(state) => LoadOutcomeRow(outcomes, state, id)
    {
      var state := Load(id);
      if state.Failure? {
        return Failure(state.error);
      }
      if !state.value.Observed? {
        return Failure(if id in outcomes then OutcomeBytesPresent else NotObserved);
      }
      if id !in outcomes {
        return Failure(OutcomeBytesMissing);
      }
      r := DecodeOutcome(outcomes[id], state.value);
    }

    method RecordObserved(id: IntentId, expected: Digest<IntentState>, ctx: ExecutionContext,
                          outcome: PhysicalOutcomeBundle) returns (r: Result<IntentState, DispatchError>)
      modifies this
      ensures (intents, outcomes, r) == RecordObservedTx(old(intents), old(outcomes), id, expected, ctx, outcome)
    {
      hide VerifyIntrinsicOutcome, VerifyDispatchRequest;
      if !VerifyPhysicalOutcome(ctx, outcome) {
        return Failure(OutcomeDoesNotVerify);
      }
      var loaded := Load(id);
      if loaded.Failure? {
        return Failure(loaded.error);
      }
      var current := loaded.value;
      if current.Observed? {
        if expected != Sha256(current) && expected != current.previousStateDigest {
          return Failure(StaleState);
        }
        if id !in outcomes {
          return Failure(OutcomeBytesMissing);
        }
        var existing := DecodeOutcome(outcomes[id], current);
        if existing.Failure? {
          return Failure(existing.error);
        }
        if existing.value.outcome != outcome {
          return Failure(DifferentOutcome);
        }
        return Success(current);
      }
      if expected != Sha256(current) {
        return Failure(StaleState);
      }
      if !current.SubmissionUnknown? {
        return Failure(NotSubmissionUnknown);
      }
      if id in outcomes {
        return Failure(OutcomeBytesPresent);
      }
      if !OutcomeForIntent(current.intent, outcome) {
        return Failure(OutcomeNotForIntent);
      }
      var next := ObservedState(current, outcome);
      if !OutcomeMatchesState(next, outcome) {
        return Failure(OutcomeNotForIntent);
      }
      var record := RecordOf(next, outcome);
      if exists other <- outcomes :: outcomes[other].authorizationId == record.authorizationId
                                  || outcomes[other].invocationId == record.invocationId {
        return Failure(UniquenessRejected);
      }
      intents := intents[id := EncodeIntent(next)];
      outcomes := outcomes[id := record];
      return Success(next);
    }
  }

  method ReleaseObservedCapacityAfterRestart(dispatch: SqliteDurableObservedOutcomeStore,
                                             capacity: SqliteCapacityHeadStore, id: IntentId, ctx: ExecutionContext)
    returns (r: Result<ReleaseRecovery, DispatchError>)
    modifies capacity
    ensures (capacity.heads, r) == ReleaseAloneTx(dispatch.intents, dispatch.outcomes, old(capacity.heads), id, ctx)
  {
    hide VerifyIntrinsicOutcome, VerifyDispatchRequest, CommitTx, PlanRelease, AlreadyReleased, LoadTx, DecodeOutcome;
    var state := dispatch.Load(id);
    if state.Failure? {
      return Failure(state.error);
    }
    if !state.value.Observed? {
      return Failure(NotObserved);
    }
    var record := dispatch.LoadObservedOutcome(id);
    if record.Failure? {
      return Failure(record.error);
    }
    if !VerifyPhysicalOutcome(ctx, record.value.outcome) {
      return Failure(OutcomeNoLongerVerifies);
    }
    var loaded := capacity.Load(ctx.runner);
    if loaded.Failure? {
      return Failure(Durable(loaded.error));
    }
    var plan := PlanRelease(loaded.value.0, ctx, record.value);
    match plan {
      case Refuse(e) => return Failure(e);
      case Answer(recovery) => return Success(recovery);
      case CommitRelease(current, next, grant) =>
        var committed := capacity.Commit(ctx.runner, Sha256(current), next);
        if committed.Success? {
          return Success(CommittedRecovery(record.value, next, grant, committed.value));
        }
        var latest := capacity.Load(ctx.runner);
        if latest.Failure? {
          return Failure(Durable(latest.error));
        }
        var recovered := AlreadyReleased(latest.value.0, record.value);
        if recovered.Failure? {
          return Failure(recovered.error);
        }
        if recovered.value.Some? {
          return Success(recovered.value.value);
        }
        return Failure(Durable(committed.error));
    }
  }
}
