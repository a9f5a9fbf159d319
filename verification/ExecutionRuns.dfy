/**
  Every interleaving of clients and crashes over the two databases.  A step is one SQLite
  transaction or read; between its steps a client keeps only what it has read, which may be stale,
  and a crash discards it.  Capacity commits and outcome records take arbitrary arguments, so they
  cover clients holding any snapshot at all.
 */
module ExecutionRuns {
  import opened Canonical
  import opened Physical
  import opened Capacity
  import opened CapacityGrants
  import opened DurableCapacity
  import opened Dispatch
  import opened OutcomeStore

  datatype Client =
    | Idle
    | BeginRead(current: IntentState)
    | BeginChecked(current: IntentState)
    | ReleaseChecked(ctx: ExecutionContext, id: IntentId)
    | ReleaseState(ctx: ExecutionContext, id: IntentId, state: IntentState)
    | ReleaseRecord(ctx: ExecutionContext, record: ObservedOutcome)
    | ReleasePlanned(ctx: ExecutionContext, record: ObservedOutcome, snapshot: RunnerCapacityState,
                     next: RunnerCapacityState, grant: ReleaseGrant)
    | ReleaseRefused(ctx: ExecutionContext, record: ObservedOutcome, error: DurableError)

  /** `begun` logs successful `begin_submission` calls, `returned` the answers of completed releases. */
  datatype World = World(
    heads: Heads, intents: Intents, outcomes: Outcomes, clients: map<nat, Client>,
    begun: seq<IntentId>, returned: seq<(IntentId, ReleaseRecovery)>)

  datatype Step =
    | InitializeHead(runner: RunnerCapabilities, state: Option<RunnerCapacityState>)
    | CommitHead(runner: RunnerCapabilities, expected: Digest<RunnerCapacityState>, next: RunnerCapacityState)
    | InitializeIntent(intent: DispatchIntent)
    | RecordObserved(id: IntentId, expectedState: Digest<IntentState>, ctx: ExecutionContext,
                     outcome: PhysicalOutcomeBundle)
    | BeginLoad(client: nat, id: IntentId, expectedState: Digest<IntentState>)
    | BeginValidate(client: nat, runner: RunnerCapabilities)
    | BeginCommit(client: nat)
    | ReleaseLoad(client: nat, id: IntentId, ctx: ExecutionContext)
    | ReleaseReadState(client: nat)
    | ReleaseReadOutcome(client: nat)
    | ReleaseReadHead(client: nat)
    | ReleaseCommit(client: nat)
    | ReleaseReload(client: nat)
    | Crash(client: nat)

  const EMPTY_WORLD := World(map[], map[], map[], map[], [], [])

  function Local(w: World, c: nat): Client { if c in w.clients then w.clients[c] else Idle }

  function Become(w: World, c: nat, local: Client): World { w.(clients := w.clients[c := local]) }

  function Return(w: World, c: nat, recovery: ReleaseRecovery): World {
    Become(w, c, Idle).(returned := w.returned + [(recovery.intentId, recovery)])
  }

  function AfterBeginLoad(w: World, c: nat, id: IntentId, expected: Digest<IntentState>): World {
    match LoadIntentTx(w.intents, id)
    case Failure(_) => Become(w, c, Idle)
    case Success(current) =>
      Become(w, c, if expected == Sha256(current) && current.Prepared? then BeginRead(current) else Idle)
  }

  function AfterBeginValidate(w: World, c: nat, current: IntentState, runner: RunnerCapabilities): World {
    match LoadTx(w.heads, runner)
    case Failure(_) => Become(w, c, Idle)
    case Success(loaded) =>
      Become(w, c, if ValidateIntent(current.intent, loaded.0, runner).Success? then BeginChecked(current) else Idle)
  }

  function AfterBeginCommit(w: World, c: nat, current: IntentState): World {
    match CommitIntentTx(w.intents, current, BeginState(current))
    case (_, Failure(_)) => Become(w, c, Idle)
    case (intents, Success(_)) =>
      Become(w, c, Idle).(intents := intents, begun := w.begun + [StableId(current.intent)])
  }

  function AfterReadOutcome(w: World, c: nat, ctx: ExecutionContext, id: IntentId, state: IntentState): World {
    match LoadOutcomeRow(w.outcomes, state, id)
    case Failure(_) => Become(w, c, Idle)
    case Success(record) =>
      Become(w, c, if VerifyPhysicalOutcome(ctx, record.outcome) then ReleaseRecord(ctx, record) else Idle)
  }

  function AfterReadHead(w: World, c: nat, ctx: ExecutionContext, record: ObservedOutcome): World {
    match LoadTx(w.heads, ctx.runner)
    case Failure(_) => Become(w, c, Idle)
    case Success(loaded) =>
      match PlanRelease(loaded.0, ctx, record)
      case Refuse(_) => Become(w, c, Idle)
      case Answer(recovery) => Return(w, c, recovery)
      case CommitRelease(snapshot, next, grant) => Become(w, c, ReleasePlanned(ctx, record, snapshot, next, grant))
  }

  function AfterReleaseCommit(w: World, c: nat, ctx: ExecutionContext, record: ObservedOutcome,
                              snapshot: RunnerCapacityState, next: RunnerCapacityState, grant: ReleaseGrant): World
  {
    match CommitTx(w.heads, ctx.runner, Sha256(snapshot), next)
    case (_, Failure(e)) => Become(w, c, ReleaseRefused(ctx, record, e))
    case (heads, Success(head)) => Return(w, c, CommittedRecovery(record, next, grant, head)).(heads := heads)
  }

  function AfterReload(w: World, c: nat, ctx: ExecutionContext, record: ObservedOutcome, refused: DurableError): World {
    match FallbackTx(w.heads, ctx, record, refused)
    case Failure(_) => Become(w, c, Idle)
    case Success(recovery) => Return(w, c, recovery)
  }

  function Next(w: World, step: Step): World {
    match step
    case InitializeHead(runner, state) => w.(heads := InitializeTx(w.heads, runner, state).0)
    case CommitHead(runner, expected, next) => w.(heads := CommitTx(w.heads, runner, expected, next).0)
    case InitializeIntent(intent) => w.(intents := InitializeIntentTx(w.intents, intent).0)
    case RecordObserved(id, expected, ctx, outcome) =>
      var (intents, outcomes, _) := RecordObservedTx(w.intents, w.outcomes, id, expected, ctx, outcome);
      w.(intents := intents, outcomes := outcomes)
    case BeginLoad(c, id, expected) => AfterBeginLoad(w, c, id, expected)
    case BeginValidate(c, runner) =>
      (match Local(w, c) case BeginRead(current) => AfterBeginValidate(w, c, current, runner) case _ => w)
    case BeginCommit(c) =>
      (match Local(w, c) case BeginChecked(current) => AfterBeginCommit(w, c, current) case _ => w)
    case ReleaseLoad(c, id, ctx) =>
      (match LoadIntentTx(w.intents, id)
       case Failure(_) => Become(w, c, Idle)
       case Success(state) => Become(w, c, if state.Observed? then ReleaseChecked(ctx, id) else Idle))
    case ReleaseReadState(c) =>
      (match Local(w, c)
       case ReleaseChecked(ctx, id) =>
         (match LoadIntentTx(w.intents, id)
          case Failure(_) => Become(w, c, Idle)
          case Success(state) => Become(w, c, ReleaseState(ctx, id, state)))
       case _ => w)
    case ReleaseReadOutcome(c) =>
      (match Local(w, c) case ReleaseState(ctx, id, state) => AfterReadOutcome(w, c, ctx, id, state) case _ => w)
    case ReleaseReadHead(c) =>
      (match Local(w, c) case ReleaseRecord(ctx, record) => AfterReadHead(w, c, ctx, record) case _ => w)
    case ReleaseCommit(c) =>
      (match Local(w, c)
       case ReleasePlanned(ctx, record, snapshot, next, grant) =>
         AfterReleaseCommit(w, c, ctx, record, snapshot, next, grant)
       case _ => w)
    case ReleaseReload(c) =>
      (match Local(w, c) case ReleaseRefused(ctx, record, error) => AfterReload(w, c, ctx, record, error) case _ => w)
    case Crash(c) => Become(w, c, Idle)
  }

  /** The world after a run of steps from two empty databases */
  function After(steps: seq<Step>): World {
    if steps == [] then EMPTY_WORLD else Next(After(steps[..|steps| - 1]), steps[|steps| - 1])
  }
}
