/** What every interleaving of activation drivers and crashes guarantees. */
module ActivationConfluence {
  import opened Canonical
  import opened Activation
  import opened ActivationRuns

  /** A dispatch identity is bound to one intent for ever, its status only advances, and once observed it is final. */
  lemma OneIntentPerIdentity(steps: seq<Step>, k: nat, id: string)
    requires k <= |steps| && id in After(steps[..k]).rows
    ensures id in After(steps).rows
    ensures var before, now := After(steps[..k]).rows[id].state, After(steps).rows[id].state;
            && now.intent == before.intent
            && before.Revision() <= now.Revision()
            && (before.Terminal? ==> now == before)
  {
    hide After;
    RunKeeps(steps, k);
  }

  /** An adapter has been handed an intent only after that intent's activation_unknown state was durable. */
  lemma CallsFollowUnknown(steps: seq<Step>, k: nat)
    requires k < |steps|
    ensures forall intent <- After(steps[..k + 1]).called :: Begun(After(steps[..k]).rows, intent)
  {
    hide After, Inv;
    RunKeeps(steps[..k], k);
    RunKeeps(steps[..k + 1], k + 1);
    assert steps[..k + 1][..k] == steps[..k];
    AfterUnfold(steps, k);
    CallLeavesRows(After(steps[..k]), steps[k]);
  }

  lemma AfterUnfold(steps: seq<Step>, k: nat)
    requires k < |steps|
    ensures After(steps[..k + 1]) == Next(After(steps[..k]), steps[k])
  {
    hide Next;
    assert steps[..k + 1][..k] == steps[..k];
  }

  lemma CallLeavesRows(w: World, step: Step)
    requires Inv(w) && Inv(Next(w, step))
    ensures forall intent <- Next(w, step).called :: Begun(w.rows, intent)
  {
    hide SwapTx, InitializeActivationTx, LoadActivationTx, PrepareExecutorActivation, ObserveActivation, Begun, DriverOk,
         ReturnOk, ValidRows;
    assert Next(w, step).called == w.called || Next(w, step).rows == w.rows;
  }

  /** Whatever adapters answer, all successful calls for a dispatch identity report the same terminal state,
      and it is the one the store holds. */
  lemma ReturnsAgree(steps: seq<Step>, i: nat, j: nat)
    requires i < |After(steps).returned| && j < |After(steps).returned|
    requires After(steps).returned[i].intent.dispatchIdentity == After(steps).returned[j].intent.dispatchIdentity
    ensures After(steps).returned[i] == After(steps).returned[j]
    ensures ReturnOk(After(steps).rows, After(steps).returned[i])
  {
    hide After;
    RunKeeps(steps, |steps|);
    var w := After(steps);
    assert w.returned[i] in w.returned && w.returned[j] in w.returned;
  }

  // ---------------------------------------------------------------- adapters that are functions of the intent

  /** The terminal state an intent leads to when its adapter always answers it the same way */
  function OutcomeOf(intent: ActivationIntent, adapter: ActivationIntent -> Observation): Result<ActivationState, ActivationError> {
    match intent.capabilityDigest
    case Sha256(capability) =>
      ObserveActivation(BeginActivation(intent), Observed(intent, capability, adapter(intent)))
    case Foreign(_) => Failure(AdapterMismatch)
  }

  /** Every adapter answer along the run is the adapter's answer to the intent it was given. */
  ghost predicate Functional(steps: seq<Step>, adapter: ActivationIntent -> Observation) {
    forall k | 0 <= k < |steps| && steps[k].Call? && Local(After(steps[..k]), steps[k].driver).MayCall? ::
      steps[k].answer == adapter(Local(After(steps[..k]), steps[k].driver).begun.intent)
  }

  ghost predicate DriverExpected(driver: Driver, adapter: ActivationIntent -> Observation) {
    match driver
    case MustCommit(_, _, observed) => OutcomeOf(observed.intent, adapter) == Success(observed)
    case MustReload(_, _, observed) => OutcomeOf(observed.intent, adapter) == Success(observed)
    case _ => true
  }

  ghost predicate Expected(w: World, adapter: ActivationIntent -> Observation) {
    && (forall id <- w.rows :: w.rows[id].state.Terminal? ==>
          OutcomeOf(w.rows[id].state.intent, adapter) == Success(w.rows[id].state))
    && (forall d <- w.drivers :: DriverExpected(w.drivers[d], adapter))
  }

  lemma ExpectedStep(w: World, step: Step, adapter: ActivationIntent -> Observation)
    requires Inv(w) && Expected(w, adapter)
    requires step.Call? && Local(w, step.driver).MayCall? ==> step.answer == adapter(Local(w, step.driver).begun.intent)
    ensures Expected(Next(w, step), adapter)
  {
    LocalOk(w, step.driver);
    ExpectedLocal(w, step.driver, adapter);
    ExpectedIdle(w, step.driver, adapter);
    hide Inv, Expected, AfterStart, AfterCall, AfterCommit, Begun, ValidRows;
    match (step, Local(w, step.driver)) {
      case (Start(d, receipt, capability), _) => ExpectedStart(w, d, receipt, capability, adapter);
      case (Begin(d), MustBegin(_, intent)) => ExpectedBegin(w, d, intent, adapter);
      case (Call(d, answer), MayCall(c, begun)) => ExpectedCall(w, d, c, begun, answer, adapter);
      case (Commit(d), MustCommit(c, begun, observed)) => ExpectedCommit(w, d, c, begun, observed, adapter);
      case _ =>
    }
  }

  lemma ExpectedIdle(w: World, d: nat, adapter: ActivationIntent -> Observation)
    requires Expected(w, adapter)
    ensures Expected(Become(w, d, Idle), adapter)
    ensures forall returned, called :: Expected(Become(w, d, Idle).(returned := returned, called := called), adapter)
  {
    hide OutcomeOf;
  }

  lemma ExpectedStart(w: World, d: nat, receipt: LaunchReceipt, capability: ActivationCapability,
                      adapter: ActivationIntent -> Observation)
    requires Expected(w, adapter)
    ensures Expected(AfterStart(w, d, receipt, capability), adapter)
  {
    hide OutcomeOf, PrepareExecutorActivation;
  }

  lemma ExpectedBegin(w: World, d: nat, intent: ActivationIntent, adapter: ActivationIntent -> Observation)
    requires Expected(w, adapter)
    ensures forall c :: Expected(AfterBegin(w, d, c, intent), adapter)
  {
    hide OutcomeOf;
  }

  lemma ExpectedCall(w: World, d: nat, c: ActivationCapability, begun: ActivationState, answer: Observation,
                     adapter: ActivationIntent -> Observation)
    requires Expected(w, adapter) && answer == adapter(begun.intent)
    requires begun == BeginActivation(begun.intent) && begun.intent.capabilityDigest == Sha256(c)
    ensures Expected(AfterCall(w, d, c, begun, answer), adapter)
  {
    hide ConditionWaitObservation;
  }

  lemma ExpectedCommit(w: World, d: nat, c: ActivationCapability, begun: ActivationState, observed: ActivationState,
                       adapter: ActivationIntent -> Observation)
    requires Expected(w, adapter) && OutcomeOf(observed.intent, adapter) == Success(observed)
    ensures Expected(AfterCommit(w, d, c, begun, observed), adapter)
  {
    hide OutcomeOf;
  }

  lemma ExpectedLocal(w: World, d: nat, adapter: ActivationIntent -> Observation)
    requires Expected(w, adapter)
    ensures DriverExpected(Local(w, d), adapter)
  {
    hide OutcomeOf;
  }

  lemma {:induction false} RunExpected(steps: seq<Step>, adapter: ActivationIntent -> Observation)
    requires Functional(steps, adapter)
    ensures Expected(After(steps), adapter)
  {
    hide Next, Inv, Expected;
    if steps == [] {
      NothingExpected(adapter);
    } else {
      var front, last := steps[..|steps| - 1], steps[|steps| - 1];
      assert forall k | 0 <= k <= |front| :: front[..k] == steps[..k];
      RunExpected(front, adapter);
      RunKeeps(front, |front|);
      assert steps[..|steps| - 1] == front;
      ExpectedStep(After(front), last, adapter);
    }
  }

  lemma NothingExpected(adapter: ActivationIntent -> Observation)
    ensures Expected(World(map[], map[], [], []), adapter)
  {
  }

  /** The state is what the adapter answers about the intent, if the executor the intent was prepared for is available,
      and else the wait for that executor. */
  ghost predicate Determined(state: ActivationState, adapter: ActivationIntent -> Observation) {
    && state.Terminal? && state.intent.capabilityDigest.Sha256?
    && if state.intent.capabilityDigest.preimage.available then
         state.outcome == adapter(state.intent).outcome && state.observationDigest == Sha256(adapter(state.intent))
       else state.outcome == ConditionWait("executor://" + state.intent.executor + "/available")
  }

  lemma OutcomeIsDetermined(state: ActivationState, adapter: ActivationIntent -> Observation)
    requires OutcomeOf(state.intent, adapter) == Success(state)
    ensures Determined(state, adapter)
  {
  }

  /** Confluence: with an adapter that is a function of the intent, every driver that loses the final
      compare-and-swap finds its own state on reload, so it returns instead of raising; and every successful
      call reports the one terminal state that its intent determines. */
  lemma Confluence(steps: seq<Step>, adapter: ActivationIntent -> Observation, d: nat)
    requires Functional(steps, adapter)
    ensures var w := After(steps);
            && (Local(w, d).MustReload? ==>
                  LoadActivationTx(w.rows, Local(w, d).begun.intent.dispatchIdentity) == Success(Local(w, d).observed))
            && (forall state <- w.returned :: OutcomeOf(state.intent, adapter) == Success(state) && Determined(state, adapter))
  {
    hide After, OutcomeOf, Functional, Determined;
    RunExpected(steps, adapter);
    RunKeeps(steps, |steps|);
    LocalOk(After(steps), d);
    forall state | state in After(steps).returned && OutcomeOf(state.intent, adapter) == Success(state)
      ensures Determined(state, adapter)
    {
      OutcomeIsDetermined(state, adapter);
    }
  }

  // ---------------------------------------------------------------- one call is a run

  function AfterActivate(w: World, d: nat, receipt: LaunchReceipt, capability: ActivationCapability, answer: Observation): World {
    AfterFinish(Next(Next(w, Start(d, receipt, capability)), Begin(d)), d, answer)
  }

  function AfterFinish(w: World, d: nat, answer: Observation): World {
    Next(Next(Next(w, Call(d, answer)), Commit(d)), Reload(d))
  }

  ghost predicate Finished(w: World, after: World, d: nat, rows: Activations, r: Result<ActivationResult, ActivationError>) {
    && after.rows == rows && Local(after, d) == Idle
    && after.returned == w.returned + if r.Success? then [r.value.state] else []
  }

  lemma IdleSkips(w: World, d: nat, answer: Observation)
    requires Local(w, d) == Idle
    ensures Next(w, Begin(d)) == w && Next(w, Call(d, answer)) == w && Next(w, Commit(d)) == w && Next(w, Reload(d)) == w
  {
    hide AfterBegin, AfterCall, AfterCommit, AfterReload, AfterStart;
  }

  lemma FinishIsARun(w: World, d: nat, answer: Observation, replay: ReplayStatus)
    requires Local(w, d).MayCall?
    ensures var l := Local(w, d);
            var (rows, r) := FinishTx(w.rows, l.begun, Observed(l.begun.intent, l.capability, answer), replay);
            Finished(w, AfterFinish(w, d, answer), d, rows, r)
  {
    hide ObserveActivation, SwapTx, LoadActivationTx, Observed;
    var l := Local(w, d);
    var w1 := Next(w, Call(d, answer));
    if Local(w1, d).MustCommit? {
      CommitIsARun(w1, d);
    } else {
      IdleSkips(w1, d, answer);
    }
  }

  lemma CommitIsARun(w: World, d: nat)
    requires Local(w, d).MustCommit?
    ensures var after, l := Next(Next(w, Commit(d)), Reload(d)), Local(w, d);
            var (rows, swapped) := SwapTx(w.rows, l.begun, l.observed);
            var current := LoadActivationTx(w.rows, l.begun.intent.dispatchIdentity);
            && after.rows == rows && Local(after, d) == Idle
            && after.returned == w.returned + (if swapped.Success? then [swapped.value]
                                               else if current == Success(l.observed) then [l.observed] else [])
            && (swapped.Failure? ==> rows == w.rows)
  {
    hide LoadActivationTx;
  }

  /** `activate_or_reconcile_executor` with nothing interleaved is its five steps in a row. */
  lemma ActivateAloneIsARun(w: World, d: nat, receipt: LaunchReceipt, capability: ActivationCapability, answer: Observation)
    ensures var (rows, r) := ActivateAloneTx(w.rows, receipt, capability, capability, answer);
            Finished(w, AfterActivate(w, d, receipt, capability, answer), d, rows, r)
  {
    hide PrepareExecutorActivation, InitializeActivationTx, SwapTx, FinishTx, Observed, AfterFinish;
    var w1 := Next(w, Start(d, receipt, capability));
    var w2 := Next(w1, Begin(d));
    StartOutcome(w, d, receipt, capability);
    SwapReturnsNext(w1.rows, capability);
    if Local(w2, d).MayCall? {
      FinishIsARun(w2, d, answer, if Local(w1, d).MustBegin? then Created else Recovered);
    } else {
      IdleSkips(w2, d, answer);
      FinishSkips(w2, d, answer);
    }
  }

  lemma FinishSkips(w: World, d: nat, answer: Observation)
    requires Local(w, d) == Idle
    ensures AfterFinish(w, d, answer) == w
  {
    hide Next;
    IdleSkips(w, d, answer);
  }

  lemma SwapReturnsNext(rows: Activations, capability: ActivationCapability)
    ensures forall previous, next :: var (after, r) := SwapTx(rows, previous, next);
              if r.Success? then r.value == next && next.intent == previous.intent else after == rows
  {
  }

  lemma StartOutcome(w: World, d: nat, receipt: LaunchReceipt, capability: ActivationCapability)
    ensures var prepared := PrepareExecutorActivation(receipt, capability);
            prepared.Success? ==>
              var (rows, r) := InitializeActivationTx(w.rows, prepared.value);
              if r.Success? then r.value.intent == prepared.value else rows == w.rows
  {
    hide PrepareExecutorActivation;
  }
}
