/**
  What an activation records, in terms of the receipt, the capability and the adapter's answer: for one call on
  a fresh dispatch identity, and for every state that any run of drivers returns.
 */
module ActivationLaws {
  import opened Canonical
  import opened Activation
  import opened ActivationRuns

  /** An admitted launch, not yet triggered, that names everything activation needs and the capability's executor */
  ghost predicate Activatable(receipt: LaunchReceipt, capability: ActivationCapability) {
    && receipt.admitted && !receipt.executionTriggered
    && (forall text <- {receipt.launchId, receipt.dispatchIdentity, receipt.owner, receipt.repository} ::
          text.Some? && |text.value| > 0)
    && receipt.executor == Some(capability.executor) && |capability.executor| > 0
  }

  ghost predicate BindsReceipt(intent: ActivationIntent, receipt: LaunchReceipt, capability: ActivationCapability) {
    && intent.receiptDigest == Sha256(receipt) && intent.capabilityDigest == Sha256(capability)
    && intent.receiptId == receipt.receiptId && intent.orderDigest == receipt.orderDigest
    && intent.workstreamId == receipt.workstreamId && Some(intent.launchId) == receipt.launchId
    && Some(intent.dispatchIdentity) == receipt.dispatchIdentity && Some(intent.owner) == receipt.owner
    && Some(intent.repository) == receipt.repository && Some(intent.executor) == receipt.executor
    && intent.authorityRef == receipt.authorityRef && intent.authorityBindingDigest == receipt.authorityBindingDigest
  }

  /** The observation is about this activation: its intent, its identity and its executor. */
  ghost predicate Names(answer: Observation, intent: ActivationIntent) {
    && answer.activationId == StableId(intent)
    && answer.dispatchIdentity == intent.dispatchIdentity
    && answer.executor == intent.executor
  }

  /** The terminal state follows the begun one and records the observation's outcome under its digest. */
  ghost predicate Records(state: ActivationState, answer: Observation) {
    && state.Terminal?
    && state.outcome == answer.outcome && state.observationDigest == Sha256(answer)
    && state.previousStateDigest == Sha256(ActivationUnknown(state.intent, Sha256(Prepared(state.intent))))
  }

  /** The observation of an executor that is not there, which no adapter made */
  ghost predicate Unavailable(wait: Observation, intent: ActivationIntent, capability: ActivationCapability) {
    && Names(wait, intent)
    && wait.outcome == ConditionWait("executor://" + intent.executor + "/available")
    && wait.evidenceRef == capability.evidenceRef && wait.evidenceDigest == capability.evidenceDigest
  }

  lemma PreparesExactly(receipt: LaunchReceipt, capability: ActivationCapability)
    ensures var r := PrepareExecutorActivation(receipt, capability);
            && (r.Success? <==> Activatable(receipt, capability))
            && (r.Success? ==> BindsReceipt(r.value, receipt, capability))
  {
    var texts := {receipt.launchId, receipt.dispatchIdentity, receipt.owner, receipt.repository};
    assert receipt.launchId in texts && receipt.dispatchIdentity in texts && receipt.owner in texts && receipt.repository in texts;
  }

  lemma IntentUnique(a: ActivationIntent, b: ActivationIntent, receipt: LaunchReceipt, capability: ActivationCapability)
    requires BindsReceipt(a, receipt, capability) && BindsReceipt(b, receipt, capability)
    ensures a == b
  {
  }

  /** Only an activation whose fate is unknown can be observed, and only by an observation about it. */
  lemma ObservesExactly(state: ActivationState, answer: Observation)
    ensures var r := ObserveActivation(state, answer);
            && (r.Success? <==> state.ActivationUnknown? && Names(answer, state.intent))
            && (r.Success? ==> r.value == Terminal(state.intent, Sha256(state), Sha256(answer), answer.outcome))
  {
  }

  /** A row is read back exactly if it is the encoding of its state under the identity asked for. */
  lemma DecodesExactly(row: ActivationRow, dispatchIdentity: string, state: ActivationState)
    ensures DecodeActivation(row, dispatchIdentity) == Success(state)
       <==> && dispatchIdentity == state.intent.dispatchIdentity
            && row == ActivationRow(StableId(state.intent), Sha256(state),
                                    if state.Prepared? then 0 else if state.ActivationUnknown? then 1 else 2, state)
  {
  }

  /** The first call for a dispatch identity succeeds if and only if the adapter has the capability, the receipt is
      activatable with it, and an available executor's adapter answers this very intent.  The state it leaves is
      the adapter's outcome if the executor is available and a wait for the executor if not; an answer about
      something else leaves the activation durably unknown, and an earlier refusal leaves no trace. */
  lemma FreshActivation(rows: Activations, receipt: LaunchReceipt, capability: ActivationCapability,
                        adapterCapability: ActivationCapability, answer: Observation)
    requires ValidRows(rows) && (receipt.dispatchIdentity.Some? ==> receipt.dispatchIdentity.value !in rows)
    ensures var (after, r) := ActivateAloneTx(rows, receipt, capability, adapterCapability, answer);
            if adapterCapability != capability || !Activatable(receipt, capability) then r.Failure? && after == rows
            else exists intent: ActivationIntent, observation: Observation ::
              && BindsReceipt(intent, receipt, capability)
              && (if capability.available then observation == answer else Unavailable(observation, intent, capability))
              && (r.Success? <==> Names(observation, intent))
              && (r.Success? ==>
                    && r.value.replayStatus == Created && r.value.state.intent == intent
                    && Records(r.value.state, observation)
                    && after == rows[intent.dispatchIdentity := ActivationRow(StableId(intent), Sha256(r.value.state), 2, r.value.state)])
              && (r.Failure? ==>
                    var begun := ActivationUnknown(intent, Sha256(Prepared(intent)));
                    after == rows[intent.dispatchIdentity := ActivationRow(StableId(intent), Sha256(begun), 1, begun)])
  {
    PreparesExactly(receipt, capability);
    if adapterCapability == capability && Activatable(receipt, capability) {
      hide PrepareExecutorActivation, Activatable;
      var intent := PrepareExecutorActivation(receipt, capability).value;
      FreshRow(rows, intent);
      FreshFinish(rows, intent, capability, answer);
      var (after, r) := ActivateAloneTx(rows, receipt, capability, adapterCapability, answer);
      var observation := Observed(intent, capability, answer);
      assert if capability.available then observation == answer else Unavailable(observation, intent, capability);
    }
  }

  lemma FreshRow(rows: Activations, intent: ActivationIntent)
    requires ValidRows(rows) && intent.dispatchIdentity !in rows
    ensures var state := Prepared(intent);
            InitializeActivationTx(rows, intent)
            == (rows[intent.dispatchIdentity := ActivationRow(StableId(intent), Sha256(state), 0, state)], Success(state))
  {
    forall other | other in rows ensures rows[other].activationId != StableId(intent) {
      assert ValidActivation(other, rows[other]);
    }
  }

  lemma FreshFinish(rows: Activations, intent: ActivationIntent, capability: ActivationCapability, answer: Observation)
    ensures var id, prepared := intent.dispatchIdentity, Prepared(intent);
            var begun := ActivationUnknown(intent, Sha256(prepared));
            var rows1 := rows[id := ActivationRow(StableId(intent), Sha256(prepared), 0, prepared)];
            var rows2 := rows[id := ActivationRow(StableId(intent), Sha256(begun), 1, begun)];
            var observation := Observed(intent, capability, answer);
            var (after, r) := FinishTx(rows2, begun, observation, Created);
            && SwapTx(rows1, prepared, BeginActivation(intent)) == (rows2, Success(begun))
            && (r.Success? <==> Names(observation, intent))
            && (r.Failure? ==> after == rows2)
            && (r.Success? ==>
                  && r.value.replayStatus == Created && r.value.state.intent == intent && Records(r.value.state, observation)
                  && after == rows[id := ActivationRow(StableId(intent), Sha256(r.value.state), 2, r.value.state)])
  {
    hide Observed;
    var id, prepared, begun := intent.dispatchIdentity, Prepared(intent), BeginActivation(intent);
    var first := ActivationRow(StableId(intent), Sha256(prepared), 0, prepared);
    var second := ActivationRow(StableId(intent), Sha256(begun), 1, begun);
    assert rows[id := first][id := second] == rows[id := second];
    var r := ObserveActivation(begun, Observed(intent, capability, answer));
    if r.Success? {
      var last := ActivationRow(StableId(intent), Sha256(r.value), 2, r.value);
      assert rows[id := second][id := last] == rows[id := last];
    }
  }

  // ---------------------------------------------------------------- every run

  /** Some driver of the run was started with a receipt and this capability that make the intent. */
  ghost predicate Offered(steps: seq<Step>, intent: ActivationIntent, capability: ActivationCapability) {
    exists s <- steps ::
      && s.Start? && s.capability == capability
      && Activatable(s.receipt, capability) && BindsReceipt(intent, s.receipt, capability)
  }

  /** The state records, for a launch the run offered, what an adapter call of the run answered about that launch,
      or, if its executor is not available, the wait for it. */
  ghost predicate Sourced(steps: seq<Step>, state: ActivationState) {
    && state.Terminal?
    && exists capability: ActivationCapability ::
         && Offered(steps, state.intent, capability)
         && if capability.available then
              exists s <- steps :: s.Call? && Names(s.answer, state.intent) && Records(state, s.answer)
            else
              exists wait :: Unavailable(wait, state.intent, capability) && Records(state, wait)
  }

  ghost predicate DriverSourced(steps: seq<Step>, driver: Driver) {
    match driver
    case Idle => true
    case MustBegin(capability, intent) => Offered(steps, intent, capability)
    case MayCall(capability, begun) => Offered(steps, begun.intent, capability)
    case MustCommit(_, _, observed) => Sourced(steps, observed)
    case MustReload(_, _, observed) => Sourced(steps, observed)
  }

  ghost predicate AllSourced(steps: seq<Step>, w: World) {
    && (forall id <- w.rows :: w.rows[id].state.Terminal? ==> Sourced(steps, w.rows[id].state))
    && (forall d <- w.drivers :: DriverSourced(steps, w.drivers[d]))
    && (forall state <- w.returned :: Sourced(steps, state))
  }

  lemma SourcesStay(steps: seq<Step>, step: Step, w: World)
    requires AllSourced(steps, w)
    ensures AllSourced(steps + [step], w)
  {
    hide Activatable, BindsReceipt, Names, Records, Unavailable;
    assert forall s <- steps :: s in steps + [step];
    forall state | Sourced(steps, state) ensures Sourced(steps + [step], state) {
    }
    forall driver | DriverSourced(steps, driver) ensures DriverSourced(steps + [step], driver) {
    }
  }

  /** One driver moves on, and what it moves to, writes and returns has its source in the run. */
  lemma KeepSourced(steps: seq<Step>, w: World, rows: Activations, d: nat, local: Driver, called: seq<ActivationIntent>,
                    returned: seq<ActivationState>)
    requires AllSourced(steps, w) && DriverSourced(steps, local)
    requires forall id <- rows :: rows[id].state.Terminal? ==> Sourced(steps, rows[id].state)
    requires forall state <- returned :: state in w.returned || Sourced(steps, state)
    ensures AllSourced(steps, World(rows, w.drivers[d := local], called, returned))
  {
    hide Sourced, DriverSourced;
  }

  lemma StartSourced(steps: seq<Step>, w: World, d: nat, receipt: LaunchReceipt, capability: ActivationCapability)
    requires AllSourced(steps, w) && Inv(w) && Start(d, receipt, capability) in steps
    ensures AllSourced(steps, AfterStart(w, d, receipt, capability))
  {
    hide AllSourced, Sourced, Inv, BindsReceipt, Activatable, PrepareExecutorActivation, InitializeActivationTx;
    TerminalRowsSourced(steps, w);
    KeepSourced(steps, w, w.rows, d, Idle, w.called, w.returned);
    PreparesExactly(receipt, capability);
    if PrepareExecutorActivation(receipt, capability).Success? {
      var intent := PrepareExecutorActivation(receipt, capability).value;
      var (rows, r) := InitializeActivationTx(w.rows, intent);
      InitializeSourced(steps, w, intent);
      assert Offered(steps, intent, capability);
      if r.Success? {
        match r.value
        case Prepared(_) => KeepSourced(steps, w, rows, d, MustBegin(capability, intent), w.called, w.returned);
        case ActivationUnknown(_, _) => KeepSourced(steps, w, rows, d, MayCall(capability, r.value), w.called, w.returned);
        case Terminal(_, _, _, _) => KeepSourced(steps, w, rows, d, Idle, w.called, w.returned + [r.value]);
      }
    }
  }

  lemma TerminalRowsSourced(steps: seq<Step>, w: World)
    requires AllSourced(steps, w)
    ensures forall id <- w.rows :: w.rows[id].state.Terminal? ==> Sourced(steps, w.rows[id].state)
  {
    hide Sourced, DriverSourced;
  }

  lemma InitializeSourced(steps: seq<Step>, w: World, intent: ActivationIntent)
    requires AllSourced(steps, w) && Inv(w)
    ensures var (rows, r) := InitializeActivationTx(w.rows, intent);
            && (forall id <- rows :: rows[id].state.Terminal? ==> Sourced(steps, rows[id].state))
            && (r.Success? ==> r.value.intent == intent && (r.value.Terminal? ==> Sourced(steps, r.value)))
  {
    hide Sourced, DriverSourced, DriverOk, ReturnOk;
  }

  lemma CallSourced(steps: seq<Step>, w: World, d: nat, capability: ActivationCapability, begun: ActivationState,
                    answer: Observation)
    requires AllSourced(steps, w) && Call(d, answer) in steps
    requires Offered(steps, begun.intent, capability) && begun == BeginActivation(begun.intent)
    ensures AllSourced(steps, AfterCall(w, d, capability, begun, answer))
  {
    hide AllSourced, Offered;
    TerminalRowsSourced(steps, w);
    var called := if capability.available then w.called + [begun.intent] else w.called;
    var observation := Observed(begun.intent, capability, answer);
    var r := ObserveActivation(begun, observation);
    KeepSourced(steps, w, w.rows, d, Idle, called, w.returned);
    if r.Success? {
      assert Names(observation, r.value.intent) && Records(r.value, observation);
      assert if capability.available then Call(d, observation) in steps else Unavailable(observation, r.value.intent, capability);
      KeepSourced(steps, w, w.rows, d, MustCommit(capability, begun, r.value), called, w.returned);
    }
  }

  lemma SwapSourced(steps: seq<Step>, rows: Activations, previous: ActivationState, next: ActivationState)
    requires forall id <- rows :: rows[id].state.Terminal? ==> Sourced(steps, rows[id].state)
    requires next.Terminal? ==> Sourced(steps, next)
    ensures var (after, r) := SwapTx(rows, previous, next);
            && (forall id <- after :: after[id].state.Terminal? ==> Sourced(steps, after[id].state))
            && (r.Success? ==> r.value == next)
  {
    hide Sourced;
  }

  lemma StepSourced(steps: seq<Step>, w: World, step: Step)
    requires AllSourced(steps, w) && Inv(w) && step in steps
    ensures AllSourced(steps, Next(w, step))
  {
    hide AllSourced, Inv, SwapTx, Sourced, Offered, AfterStart, AfterCall, LoadActivationTx;
    TerminalRowsSourced(steps, w);
    LocalSourced(steps, w, step.driver);
    LocalOk(w, step.driver);
    KeepSourced(steps, w, w.rows, step.driver, Idle, w.called, w.returned);
    match (step, Local(w, step.driver)) {
      case (Start(d, receipt, capability), _) => StartSourced(steps, w, d, receipt, capability);
      case (Begin(d), MustBegin(c, intent)) =>
        SwapSourced(steps, w.rows, Prepared(intent), BeginActivation(intent));
        var (rows, r) := SwapTx(w.rows, Prepared(intent), BeginActivation(intent));
        if r.Success? { KeepSourced(steps, w, rows, d, MayCall(c, r.value), w.called, w.returned); }
      case (Call(d, answer), MayCall(c, begun)) => CallSourced(steps, w, d, c, begun, answer);
      case (Commit(d), MustCommit(c, begun, observed)) =>
        SwapSourced(steps, w.rows, begun, observed);
        var (rows, r) := SwapTx(w.rows, begun, observed);
        if r.Success? {
          KeepSourced(steps, w, rows, d, Idle, w.called, w.returned + [observed]);
        } else {
          KeepSourced(steps, w, w.rows, d, MustReload(c, begun, observed), w.called, w.returned);
        }
      case (Reload(d), MustReload(_, _, observed)) =>
        KeepSourced(steps, w, w.rows, d, Idle, w.called, w.returned + [observed]);
      case _ =>
    }
  }

  lemma LocalSourced(steps: seq<Step>, w: World, d: nat)
    requires AllSourced(steps, w)
    ensures DriverSourced(steps, Local(w, d))
  {
    hide Sourced, Offered;
  }

  lemma {:induction false} RunSourced(steps: seq<Step>)
    ensures AllSourced(steps, After(steps))
  {
    hide AllSourced, Next, Inv;
    if steps == [] {
      NothingSourced();
    } else {
      var front, last := steps[..|steps| - 1], steps[|steps| - 1];
      assert steps == front + [last];
      RunSourced(front);
      RunKeeps(front, |front|);
      SourcesStay(front, last, After(front));
      StepSourced(steps, After(front), last);
    }
  }

  lemma NothingSourced()
    ensures AllSourced([], World(map[], map[], [], []))
  {
  }

  /** Provenance over every interleaving of drivers and crashes: a state that a call returns, or that the store
      holds as terminal, records for a launch that some driver of the run was given what an adapter call of the run
      answered about that very launch; and the wait for the executor if the launch's capability is not available. */
  lemma TerminalStatesHaveASource(steps: seq<Step>)
    ensures forall state <- After(steps).returned :: Sourced(steps, state)
    ensures forall id <- After(steps).rows :: After(steps).rows[id].state.Terminal? ==> Sourced(steps, After(steps).rows[id].state)
  {
    hide After, Sourced;
    RunSourced(steps);
  }
}
