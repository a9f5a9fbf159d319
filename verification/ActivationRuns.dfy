/**
  Any number of activation drivers over one store, with crashes.  A step is one store transaction or one
  adapter call; between steps a driver keeps only what it has read.
 */
module ActivationRuns {
  import opened Canonical
  import opened Activation

  datatype Driver =
    | Idle
    | MustBegin(capability: ActivationCapability, intent: ActivationIntent)
    | MayCall(capability: ActivationCapability, begun: ActivationState)
    | MustCommit(capability: ActivationCapability, begun: ActivationState, observed: ActivationState)
    | MustReload(capability: ActivationCapability, begun: ActivationState, observed: ActivationState)

  /** `called` logs the intents handed to an adapter, `returned` the states of successful calls. */
  datatype World = World(rows: Activations, drivers: map<nat, Driver>, called: seq<ActivationIntent>,
                         returned: seq<ActivationState>)

  datatype Step =
    | Start(driver: nat, receipt: LaunchReceipt, capability: ActivationCapability)
    | Begin(driver: nat)
    | Call(driver: nat, answer: Observation)
    | Commit(driver: nat)
    | Reload(driver: nat)
    | Crash(driver: nat)

  function Local(w: World, d: nat): Driver { if d in w.drivers then w.drivers[d] else Idle }

  function Become(w: World, d: nat, local: Driver): World { w.(drivers := w.drivers[d := local]) }

  function Return(w: World, d: nat, state: ActivationState): World {
    Become(w, d, Idle).(returned := w.returned + [state])
  }

  function AfterStart(w: World, d: nat, receipt: LaunchReceipt, capability: ActivationCapability): World {
    match PrepareExecutorActivation(receipt, capability)
    case Failure(_) => Become(w, d, Idle)
    case Success(intent) =>
      match InitializeActivationTx(w.rows, intent)
      case (_, Failure(_)) => Become(w, d, Idle)
      case (rows, Success(state)) =>
        var next := w.(rows := rows);
        match state
        case Prepared(_) => Become(next, d, MustBegin(capability, intent))
        case ActivationUnknown(_, _) => Become(next, d, MayCall(capability, state))
        case Terminal(_, _, _, _) => Return(next, d, state)
  }

  function AfterBegin(w: World, d: nat, capability: ActivationCapability, intent: ActivationIntent): World {
    match SwapTx(w.rows, Prepared(intent), BeginActivation(intent))
    case (_, Failure(_)) => Become(w, d, Idle)
    case (rows, Success(begun)) => Become(w.(rows := rows), d, MayCall(capability, begun))
  }

  function AfterCall(w: World, d: nat, capability: ActivationCapability, begun: ActivationState, answer: Observation): World {
    var called := if capability.available then w.called + [begun.intent] else w.called;
    match ObserveActivation(begun, Observed(begun.intent, capability, answer))
    case Failure(_) => Become(w, d, Idle).(called := called)
    case Success(observed) => Become(w, d, MustCommit(capability, begun, observed)).(called := called)
  }

  function AfterCommit(w: World, d: nat, capability: ActivationCapability, begun: ActivationState, observed: ActivationState)
    : World
  {
    match SwapTx(w.rows, begun, observed)
    case (_, Failure(_)) => Become(w, d, MustReload(capability, begun, observed))
    case (rows, Success(committed)) => Return(w.(rows := rows), d, committed)
  }

  function AfterReload(w: World, d: nat, begun: ActivationState, observed: ActivationState): World {
    match LoadActivationTx(w.rows, begun.intent.dispatchIdentity)
    case Failure(_) => Become(w, d, Idle)
    case Success(current) => if current == observed then Return(w, d, current) else Become(w, d, Idle)
  }

  function Next(w: World, step: Step): World {
    match step
    case Start(d, receipt, capability) => AfterStart(w, d, receipt, capability)
    case Begin(d) => (match Local(w, d) case MustBegin(c, intent) => AfterBegin(w, d, c, intent) case _ => w)
    case Call(d, answer) => (match Local(w, d) case MayCall(c, begun) => AfterCall(w, d, c, begun, answer) case _ => w)
    case Commit(d) => (match Local(w, d) case MustCommit(c, begun, observed) => AfterCommit(w, d, c, begun, observed) case _ => w)
    case Reload(d) => (match Local(w, d) case MustReload(_, begun, observed) => AfterReload(w, d, begun, observed) case _ => w)
    case Crash(d) => Become(w, d, Idle)
  }

  function After(steps: seq<Step>): World {
    if steps == [] then World(map[], map[], [], []) else Next(After(steps[..|steps| - 1]), steps[|steps| - 1])
  }

  // ---------------------------------------------------------------- invariant

  ghost predicate ValidActivation(id: string, row: ActivationRow) {
    && row.state.intent.dispatchIdentity == id
    && row == EncodeActivation(row.state)
    && (row.state.ActivationUnknown? ==> row.state == BeginActivation(row.state.intent))
    && (row.state.Terminal? ==> row.state.previousStateDigest == Sha256(BeginActivation(row.state.intent)))
  }

  ghost predicate ValidRows(rows: Activations) { forall id <- rows :: ValidActivation(id, rows[id]) }

  /** The intent's activation is durably unknown or already observed. */
  ghost predicate Begun(rows: Activations, intent: ActivationIntent) {
    && intent.dispatchIdentity in rows
    && rows[intent.dispatchIdentity].state.intent == intent
    && !rows[intent.dispatchIdentity].state.Prepared?
  }

  /** What a driver knows stays true of the store. */
  ghost predicate DriverOk(rows: Activations, driver: Driver) {
    match driver
    case Idle => true
    case MustBegin(capability, intent) =>
      intent.dispatchIdentity in rows && rows[intent.dispatchIdentity].state.intent == intent
      && intent.capabilityDigest == Sha256(capability)
    case MayCall(capability, begun) => Drives(rows, capability, begun)
    case MustCommit(capability, begun, observed) =>
      Drives(rows, capability, begun) && observed.Terminal? && observed.intent == begun.intent
      && observed.previousStateDigest == Sha256(begun)
    case MustReload(capability, begun, observed) =>
      Drives(rows, capability, begun) && observed.Terminal? && observed.intent == begun.intent
      && observed.previousStateDigest == Sha256(begun)
      && rows[begun.intent.dispatchIdentity].state.Terminal?
  }

  ghost predicate Drives(rows: Activations, capability: ActivationCapability, begun: ActivationState) {
    && begun == BeginActivation(begun.intent) && begun.intent.capabilityDigest == Sha256(capability)
    && Begun(rows, begun.intent)
  }

  ghost predicate ReturnOk(rows: Activations, state: ActivationState) {
    state.Terminal? && state.intent.dispatchIdentity in rows && rows[state.intent.dispatchIdentity].state == state
  }

  ghost predicate Inv(w: World) {
    && ValidRows(w.rows)
    && (forall d <- w.drivers :: DriverOk(w.rows, w.drivers[d]))
    && (forall intent <- w.called :: Begun(w.rows, intent))
    && (forall state <- w.returned :: ReturnOk(w.rows, state))
  }

  /** Rows keep their intent, only move forward, and are final once observed. */
  ghost predicate RowsGrow(before: Activations, after: Activations) {
    forall id <- before ::
      && id in after && after[id].state.intent == before[id].state.intent
      && (after[id] == before[id] || before[id].state.Revision() < after[id].state.Revision())
  }

  lemma DriverStays(before: Activations, after: Activations, driver: Driver)
    requires RowsGrow(before, after) && DriverOk(before, driver)
    ensures DriverOk(after, driver)
  {
  }

  lemma ReturnStays(before: Activations, after: Activations, state: ActivationState)
    requires RowsGrow(before, after) && ReturnOk(before, state)
    ensures ReturnOk(after, state)
  {
    assert after[state.intent.dispatchIdentity].state.Revision() <= 2;
  }

  /** Growing rows and one driver moving to a phase it may be in keep the invariant. */
  lemma KeepInv(w: World, rows: Activations, d: nat, local: Driver, called: seq<ActivationIntent>, returned: seq<ActivationState>)
    requires Inv(w) && ValidRows(rows) && RowsGrow(w.rows, rows) && DriverOk(rows, local)
    requires forall intent <- called :: intent in w.called || Begun(rows, intent)
    requires forall state <- returned :: state in w.returned || ReturnOk(rows, state)
    ensures Inv(World(rows, w.drivers[d := local], called, returned))
  {
    hide DriverOk, ReturnOk, ValidRows;
    forall e | e in w.drivers ensures DriverOk(rows, w.drivers[e]) { DriverStays(w.rows, rows, w.drivers[e]); }
    forall state | state in w.returned ensures ReturnOk(rows, state) { ReturnStays(w.rows, rows, state); }
  }

  lemma InitializeKeeps(rows: Activations, intent: ActivationIntent)
    requires ValidRows(rows)
    ensures var (after, r) := InitializeActivationTx(rows, intent);
            && ValidRows(after) && RowsGrow(rows, after)
            && (r.Success? ==> intent.dispatchIdentity in after && after[intent.dispatchIdentity].state == r.value
                               && r.value.intent == intent)
            && (r.Failure? ==> r.error == BoundToAnotherIntent && after == rows)
  {
  }

  lemma SwapKeeps(rows: Activations, previous: ActivationState, next: ActivationState)
    requires ValidRows(rows) && previous.Revision() < next.Revision()
    requires previous.Prepared? ==> next == BeginActivation(previous.intent)
    requires next.Terminal? ==> next.previousStateDigest == Sha256(BeginActivation(next.intent))
    ensures var (after, r) := SwapTx(rows, previous, next);
            && ValidRows(after) && RowsGrow(rows, after)
            && (r.Success? ==> after[previous.intent.dispatchIdentity].state == next == r.value
                               && previous.intent.dispatchIdentity in rows
                               && rows[previous.intent.dispatchIdentity].state == previous)
            && (r.Failure? ==> after == rows)
            && (next.intent == previous.intent && !next.Prepared? && next.previousStateDigest == Sha256(previous) ==>
                  (r.Success? <==> previous.intent.dispatchIdentity in rows
                                   && rows[previous.intent.dispatchIdentity].state == previous))
  {
    var id := previous.intent.dispatchIdentity;
    if id in rows { assert ValidActivation(id, rows[id]); }
  }

  lemma LocalOk(w: World, d: nat)
    requires Inv(w)
    ensures DriverOk(w.rows, Local(w, d))
  {
  }

  lemma GrowsReflexive(rows: Activations)
    ensures RowsGrow(rows, rows)
  {
  }

  lemma StartKeeps(w: World, d: nat, receipt: LaunchReceipt, capability: ActivationCapability)
    requires Inv(w)
    ensures var after := AfterStart(w, d, receipt, capability); Inv(after) && RowsGrow(w.rows, after.rows)
  {
    hide Inv, InitializeActivationTx, ValidRows;
    InvRows(w);
    GrowsReflexive(w.rows);
    KeepInv(w, w.rows, d, Idle, w.called, w.returned);
    if PrepareExecutorActivation(receipt, capability).Success? {
      var intent := PrepareExecutorActivation(receipt, capability).value;
      InitializeKeeps(w.rows, intent);
      var (rows, r) := InitializeActivationTx(w.rows, intent);
      if r.Success? {
        RowShape(rows, intent.dispatchIdentity);
        match r.value
        case Prepared(_) => KeepInv(w, rows, d, MustBegin(capability, intent), w.called, w.returned);
        case ActivationUnknown(_, _) => KeepInv(w, rows, d, MayCall(capability, r.value), w.called, w.returned);
        case Terminal(_, _, _, _) => KeepInv(w, rows, d, Idle, w.called, w.returned + [r.value]);
      }
    }
  }

  lemma InvRows(w: World)
    requires Inv(w)
    ensures ValidRows(w.rows)
  {
  }

  lemma RowShape(rows: Activations, id: string)
    requires ValidRows(rows) && id in rows
    ensures ValidActivation(id, rows[id])
  {
  }

  lemma DriverStepKeeps(w: World, step: Step)
    requires Inv(w) && !step.Start?
    ensures Inv(Next(w, step)) && RowsGrow(w.rows, Next(w, step).rows)
  {
    hide Inv, SwapTx, ValidRows, LoadActivationTx;
    InvRows(w);
    GrowsReflexive(w.rows);
    var d := step.driver;
    LocalOk(w, d);
    KeepInv(w, w.rows, d, Idle, w.called, w.returned);
    match (step, Local(w, d)) {
      case (Begin(_), MustBegin(c, intent)) =>
        SwapKeeps(w.rows, Prepared(intent), BeginActivation(intent));
        var (rows, r) := SwapTx(w.rows, Prepared(intent), BeginActivation(intent));
        if r.Success? { KeepInv(w, rows, d, MayCall(c, r.value), w.called, w.returned); }
      case (Call(_, answer), MayCall(c, begun)) => CallKeeps(w, d, c, begun, answer);
      case (Commit(_), MustCommit(c, begun, observed)) => CommitKeeps(w, d, c, begun, observed);
      case (Reload(_), MustReload(_, begun, observed)) => ReloadKeeps(w, d, begun, observed);
      case _ =>
    }
  }

  lemma CallKeeps(w: World, d: nat, c: ActivationCapability, begun: ActivationState, answer: Observation)
    requires Inv(w) && Drives(w.rows, c, begun)
    ensures var after := AfterCall(w, d, c, begun, answer); Inv(after) && RowsGrow(w.rows, after.rows)
  {
    hide Inv, ValidRows, ConditionWaitObservation;
    InvRows(w);
    GrowsReflexive(w.rows);
    var called := if c.available then w.called + [begun.intent] else w.called;
    var r := ObserveActivation(begun, Observed(begun.intent, c, answer));
    KeepInv(w, w.rows, d, if r.Success? then MustCommit(c, begun, r.value) else Idle, called, w.returned);
  }

  lemma CommitKeeps(w: World, d: nat, c: ActivationCapability, begun: ActivationState, observed: ActivationState)
    requires Inv(w) && DriverOk(w.rows, MustCommit(c, begun, observed))
    ensures var after := AfterCommit(w, d, c, begun, observed); Inv(after) && RowsGrow(w.rows, after.rows)
  {
    hide Inv, ValidRows, SwapTx;
    InvRows(w);
    GrowsReflexive(w.rows);
    SwapKeeps(w.rows, begun, observed);
    var (rows, r) := SwapTx(w.rows, begun, observed);
    if r.Success? {
      KeepInv(w, rows, d, Idle, w.called, w.returned + [r.value]);
    } else {
      RowShape(w.rows, begun.intent.dispatchIdentity);
      KeepInv(w, w.rows, d, MustReload(c, begun, observed), w.called, w.returned);
    }
  }

  lemma ReloadKeeps(w: World, d: nat, begun: ActivationState, observed: ActivationState)
    requires Inv(w) && observed.Terminal? && observed.intent == begun.intent
    ensures var after := AfterReload(w, d, begun, observed); Inv(after) && RowsGrow(w.rows, after.rows)
  {
    hide Inv, ValidRows;
    InvRows(w);
    GrowsReflexive(w.rows);
    KeepInv(w, w.rows, d, Idle, w.called, w.returned);
    if LoadActivationTx(w.rows, begun.intent.dispatchIdentity) == Success(observed) {
      KeepInv(w, w.rows, d, Idle, w.called, w.returned + [observed]);
    }
  }

  lemma {:induction false} RunKeeps(steps: seq<Step>, k: nat)
    requires k <= |steps|
    ensures Inv(After(steps)) && RowsGrow(After(steps[..k]).rows, After(steps).rows)
    decreases |steps|
  {
    hide Inv, Next, RowsGrow;
    if steps == [] {
      EmptyWorld();
    } else {
      var front, last := steps[..|steps| - 1], steps[|steps| - 1];
      RunKeeps(front, if k <= |front| then k else 0);
      if last.Start? {
        StartStep(After(front), last);
      } else {
        DriverStepKeeps(After(front), last);
      }
      if k == |steps| {
        assert steps[..k] == steps;
        GrowsReflexive(After(steps).rows);
      } else {
        assert front[..k] == steps[..k];
        GrowsTransitive(After(steps[..k]).rows, After(front).rows, After(steps).rows);
      }
    }
  }

  lemma EmptyWorld()
    ensures Inv(World(map[], map[], [], [])) && RowsGrow(map[], map[])
  {
  }

  lemma StartStep(w: World, step: Step)
    requires Inv(w) && step.Start?
    ensures Inv(Next(w, step)) && RowsGrow(w.rows, Next(w, step).rows)
  {
    hide Inv, AfterStart;
    StartKeeps(w, step.driver, step.receipt, step.capability);
  }

  lemma GrowsTransitive(a: Activations, b: Activations, c: Activations)
    requires RowsGrow(a, b) && RowsGrow(b, c)
    ensures RowsGrow(a, c)
  {
  }
}
