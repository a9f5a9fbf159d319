/** Executor activation (src/general_execution/executor_activation.py): values, store and driver. */
module Activation {
  import opened Canonical

  /** The fields of a launch receipt that activation reads; `remainder` stands for the others. */
  datatype LaunchReceipt = LaunchReceipt(
    receiptId: string, orderDigest: string, admitted: bool, executionTriggered: bool, workstreamId: string,
    owner: Option<string>, repository: Option<string>, executor: Option<string>, launchId: Option<string>,
    dispatchIdentity: Option<string>, authorityRef: Option<string>, authorityBindingDigest: Option<string>,
    remainder: string)

  datatype ActivationCapability = ActivationCapability(
    executor: string, adapterId: string, adapterVersion: string, evidenceRef: string, evidenceDigest: string,
    available: bool)

  datatype ActivationIntent = ActivationIntent(
    receiptId: string, receiptDigest: Digest<LaunchReceipt>, orderDigest: string, workstreamId: string,
    launchId: string, dispatchIdentity: string, owner: string, repository: string, executor: string,
    authorityRef: Option<string>, authorityBindingDigest: Option<string>,
    capabilityDigest: Digest<ActivationCapability>)

  datatype Outcome = ExecutorAccepted(nativeExecutionRef: string) | ConditionWait(conditionRef: string)
    | FailedActivation(failureReason: string)

  datatype Observation = Observation(
    activationId: StableId<ActivationIntent>, dispatchIdentity: string, executor: string, outcome: Outcome,
    evidenceRef: string, evidenceDigest: string)

  datatype ActivationState =
    | Prepared(intent: ActivationIntent)
    | ActivationUnknown(intent: ActivationIntent, previousStateDigest: Digest<ActivationState>)
    | Terminal(intent: ActivationIntent, previousStateDigest: Digest<ActivationState>,
               observationDigest: Digest<Observation>, outcome: Outcome)
  {
    function Revision(): nat {
      match this
      case Prepared(_) => 0
      case ActivationUnknown(_, _) => 1
      case Terminal(_, _, _, _) => 2
    }
  }

  datatype ActivationRow = ActivationRow(activationId: StableId<ActivationIntent>, stateDigest: Digest<ActivationState>,
                                         revision: nat, state: ActivationState)

  type Activations = map<string, ActivationRow>

  datatype ActivationError =
    | NotAdmitted | AlreadyTriggered | IncompleteIdentity | ExecutorMismatch | AdapterMismatch | BoundToAnotherIntent
    | UniquenessRejected | RowMetadataMismatch | NoActivation | IntentChanged | PredecessorMismatch | SwapConflict
    | NotActivationUnknown | ObservationIdentityMismatch | ObservationDispatchMismatch | ObservationExecutorMismatch

  datatype ReplayStatus = Created | Recovered | AlreadyRecorded

  datatype ActivationResult = ActivationResult(state: ActivationState, replayStatus: ReplayStatus)

  predicate Present(text: Option<string>) { text.Some? && text.value != "" }

  function PrepareExecutorActivation(receipt: LaunchReceipt, capability: ActivationCapability)
    : Result<ActivationIntent, ActivationError>
  {
    if !receipt.admitted then Failure(NotAdmitted)
    else if receipt.executionTriggered then Failure(AlreadyTriggered)
    else if !(Present(receipt.launchId) && Present(receipt.dispatchIdentity) && Present(receipt.owner)
              && Present(receipt.repository) && Present(receipt.executor)) then Failure(IncompleteIdentity)
    else if receipt.executor.value != capability.executor then Failure(ExecutorMismatch)
    else Success(ActivationIntent(
      receipt.receiptId, Sha256(receipt), receipt.orderDigest, receipt.workstreamId, receipt.launchId.value,
      receipt.dispatchIdentity.value, receipt.owner.value, receipt.repository.value, receipt.executor.value,
      receipt.authorityRef, receipt.authorityBindingDigest, Sha256(capability)))
  }

  function BeginActivation(intent: ActivationIntent): ActivationState {
    ActivationUnknown(intent, Sha256(Prepared(intent)))
  }

  function ObserveActivation(state: ActivationState, observation: Observation): Result<ActivationState, ActivationError> {
    if !state.ActivationUnknown? then Failure(NotActivationUnknown)
    else if observation.activationId != StableId(state.intent) then Failure(ObservationIdentityMismatch)
    else if observation.dispatchIdentity != state.intent.dispatchIdentity then Failure(ObservationDispatchMismatch)
    else if observation.executor != state.intent.executor then Failure(ObservationExecutorMismatch)
    else Success(Terminal(state.intent, Sha256(state), Sha256(observation), observation.outcome))
  }

  function ConditionWaitObservation(intent: ActivationIntent, capability: ActivationCapability): Observation {
    Observation(StableId(intent), intent.dispatchIdentity, intent.executor,
                ConditionWait("executor://" + intent.executor + "/available"), capability.evidenceRef,
                capability.evidenceDigest)
  }

  /** What a driver observes: the adapter's answer, or a wait when the executor is not available. */
  function Observed(intent: ActivationIntent, capability: ActivationCapability, answer: Observation): Observation {
    if capability.available then answer else ConditionWaitObservation(intent, capability)
  }

  // ---------------------------------------------------------------- transactions

  function EncodeActivation(state: ActivationState): ActivationRow {
    ActivationRow(StableId(state.intent), Sha256(state), state.Revision(), state)
  }

  function DecodeActivation(row: ActivationRow, dispatchIdentity: string): Result<ActivationState, ActivationError> {
    if row.state.intent.dispatchIdentity == dispatchIdentity && row == EncodeActivation(row.state) then Success(row.state)
    else Failure(RowMetadataMismatch)
  }

  function InitializeActivationTx(rows: Activations, intent: ActivationIntent)
    : (Activations, Result<ActivationState, ActivationError>)
  {
    var id, state := intent.dispatchIdentity, Prepared(intent);
    if id in rows then
      match DecodeActivation(rows[id], id)
      case Failure(e) => (rows, Failure(e))
      case Success(existing) =>
        if existing.intent != intent then (rows, Failure(BoundToAnotherIntent)) else (rows, Success(existing))
    else if exists other <- rows :: rows[other].activationId == StableId(intent) then (rows, Failure(UniquenessRejected))
    else (rows[id := EncodeActivation(state)], Success(state))
  }

  function LoadActivationTx(rows: Activations, dispatchIdentity: string): Result<ActivationState, ActivationError> {
    if dispatchIdentity !in rows then Failure(NoActivation) else DecodeActivation(rows[dispatchIdentity], dispatchIdentity)
  }

  function SwapTx(rows: Activations, previous: ActivationState, next: ActivationState)
    : (Activations, Result<ActivationState, ActivationError>)
  {
    var id := previous.intent.dispatchIdentity;
    if previous.intent != next.intent then (rows, Failure(IntentChanged))
    else if next.Prepared? || next.previousStateDigest != Sha256(previous) then (rows, Failure(PredecessorMismatch))
    else if !(id in rows && rows[id].stateDigest == Sha256(previous) && rows[id].revision == previous.Revision()) then
      (rows, Failure(SwapConflict))
    else (rows[id := rows[id].(stateDigest := Sha256(next), revision := next.Revision(), state := next)], Success(next))
  }

  class SqliteExecutorActivationStore {
    var rows: Activations

    constructor ()
      ensures rows == map[]
    {
      rows := map[];
    }

    method Initialize(intent: ActivationIntent) returns (r: Result<ActivationState, ActivationError>)
      modifies this
      ensures (rows, r) == InitializeActivationTx(old(rows), intent)
    {
      var id, state := intent.dispatchIdentity, Prepared(intent);
      if id in rows {
        var existing := DecodeActivation(rows[id], id);
        if existing.Failure? {
          return Failure(existing.error);
        }
        if existing.value.intent != intent {
          return Failure(BoundToAnotherIntent);
        }
        return Success(existing.value);
      }
      if exists other <- rows :: rows[other].activationId == StableId(intent) {
        return Failure(UniquenessRejected);
      }
      rows := rows[id := EncodeActivation(state)];
      return Success(state);
    }

    method Load(dispatchIdentity: string) returns (r: Result<ActivationState, ActivationError>)
      ensures r == LoadActivationTx(rows, dispatchIdentity)
    {
      if dispatchIdentity !in rows {
        return Failure(NoActivation);
      }
      return DecodeActivation(rows[dispatchIdentity], dispatchIdentity);
    }

    method CompareAndSwap(previous: ActivationState, next: ActivationState) returns (r: Result<ActivationState, ActivationError>)
      modifies this
      ensures (rows, r) == SwapTx(old(rows), previous, next)
    {
      if previous.intent != next.intent {
        return Failure(IntentChanged);
      }
      if next.Prepared? || next.previousStateDigest != Sha256(previous) {
        return Failure(PredecessorMismatch);
      }
      var id := previous.intent.dispatchIdentity;
      if !(id in rows && rows[id].stateDigest == Sha256(previous) && rows[id].revision == previous.Revision()) {
        return Failure(SwapConflict);
      }
      rows := rows[id := rows[id].(stateDigest := Sha256(next), revision := next.Revision(), state := next)];
      return Success(next);
    }
  }

  // ---------------------------------------------------------------- one driver

  /** The call after its adapter has answered; `begun` is the durable activation_unknown state it drives. */
  function FinishTx(rows: Activations, begun: ActivationState, observation: Observation, replay: ReplayStatus)
    : (Activations, Result<ActivationResult, ActivationError>)
  {
    match ObserveActivation(begun, observation)
    case Failure(e) => (rows, Failure(e))
    case Success(observed) =>
      match SwapTx(rows, begun, observed)
      case (rows', Success(committed)) => (rows', Success(ActivationResult(committed, replay)))
      case (_, Failure(conflict)) =>
        match LoadActivationTx(rows, begun.intent.dispatchIdentity)
        case Failure(e) => (rows, Failure(e))
        case Success(current) =>
          if current == observed then (rows, Success(ActivationResult(current, AlreadyRecorded)))
          else (rows, Failure(conflict))
  }

  /** The whole call with nothing interleaved; `answer` is what the adapter would return. */
  function ActivateAloneTx(rows: Activations, receipt: LaunchReceipt, capability: ActivationCapability,
                           adapterCapability: ActivationCapability, answer: Observation)
    : (Activations, Result<ActivationResult, ActivationError>)
  {
    if adapterCapability != capability then (rows, Failure(AdapterMismatch))
    else match PrepareExecutorActivation(receipt, capability)
      case Failure(e) => (rows, Failure(e))
      case Success(intent) =>
        match InitializeActivationTx(rows, intent)
        case (_, Failure(e)) => (rows, Failure(e))
        case (rows1, Success(state)) =>
          var observation := Observed(intent, capability, answer);
          match state
          case Terminal(_, _, _, _) => (rows1, Success(ActivationResult(state, AlreadyRecorded)))
          case ActivationUnknown(_, _) => FinishTx(rows1, state, observation, Recovered)
          case Prepared(_) =>
            match SwapTx(rows1, state, BeginActivation(intent))
            case (_, Failure(e)) => (rows1, Failure(e))
            case (rows2, Success(begun)) => FinishTx(rows2, begun, observation, Created)
  }

  method ActivateOrReconcileExecutor(store: SqliteExecutorActivationStore, receipt: LaunchReceipt,
                                     capability: ActivationCapability, adapterCapability: ActivationCapability,
                                     answer: Observation)
    returns (r: Result<ActivationResult, ActivationError>)
    modifies store
    ensures (store.rows, r) == ActivateAloneTx(old(store.rows), receipt, capability, adapterCapability, answer)
  {
    hide DecodeActivation, PrepareExecutorActivation, ConditionWaitObservation;
    if adapterCapability != capability {
      return Failure(AdapterMismatch);
    }
    var prepared := PrepareExecutorActivation(receipt, capability);
    if prepared.Failure? {
      return Failure(prepared.error);
    }
    var intent := prepared.value;
    var initialized := store.Initialize(intent);
    if initialized.Failure? {
      return Failure(initialized.error);
    }
    var state := initialized.value;
    if state.Terminal? {
      return Success(ActivationResult(state, AlreadyRecorded));
    }
    var replay := Recovered;
    if state.Prepared? {
      var begun := store.CompareAndSwap(state, BeginActivation(intent));
      if begun.Failure? {
        return Failure(begun.error);
      }
      state := begun.value;
      replay := Created;
    }
    var observation := Observed(intent, capability, answer);
    var observed := ObserveActivation(state, observation);
    if observed.Failure? {
      return Failure(observed.error);
    }
    var committed := store.CompareAndSwap(state, observed.value);
    if committed.Success? {
      return Success(ActivationResult(committed.value, replay));
    }
    var current := store.Load(state.intent.dispatchIdentity);
    if current.Failure? {
      return Failure(current.error);
    }
    if current.value == observed.value {
      return Success(ActivationResult(current.value, AlreadyRecorded));
    }
    return Failure(committed.error);
  }
}
