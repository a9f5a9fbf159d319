/** The step-by-step proof of the run invariant, and the safety results it gives for whole runs. */
module ExecutionSafety {
  import opened Canonical
  import opened Physical
  import opened Capacity
  import opened AllocatorSafety
  import opened CapacityGrants
  import opened DurableCapacity
  import opened Dispatch
  import opened OutcomeStore
  import opened ExecutionRuns
  import opened ExecutionInvariant

  // ---------------------------------------------------------------- assembling the invariant

  lemma KeepInv(w: World, after: World)
    requires Inv(w) && Grows(w, after) && StoresOk(after.heads, after.intents, after.outcomes) && BegunOk(after)
    requires forall c <- after.clients :: (c in w.clients && after.clients[c] == w.clients[c]) || ClientOk(after, after.clients[c])
    requires forall i | |w.returned| <= i < |after.returned| :: ReturnOk(after, after.returned[i].0, after.returned[i].1)
    ensures Inv(after)
  {
    hide ClientOk, ReturnOk, StoresOk, Grows, BegunOk;
    forall c <- after.clients ensures ClientOk(after, after.clients[c]) {
      if c in w.clients && after.clients[c] == w.clients[c] {
        ClientStays(w, after, w.clients[c]);
      }
    }
    forall i | 0 <= i < |after.returned| ensures ReturnOk(after, after.returned[i].0, after.returned[i].1) {
      if i < |w.returned| {
        ReturnedPrefix(w, after);
        ReturnStays(w, after, w.returned[i].0, w.returned[i].1);
      }
    }
  }

  lemma ReturnedPrefix(w: World, after: World)
    requires Grows(w, after)
    ensures w.returned <= after.returned
  {
  }

  lemma BegunStays(w: World, after: World)
    requires BegunOk(w) && IntentsGrow(w.intents, after.intents) && after.begun == w.begun
    ensures BegunOk(after)
  {
  }

  /** A step that only moves one client's locals. */
  lemma LocalStep(w: World, c: nat, local: Client)
    requires Inv(w) && ClientOk(w, local)
    ensures Inv(Become(w, c, local)) && Grows(w, Become(w, c, local))
  {
    hide StoresOk, ReturnOk, LeaseKnown, PlanRelease, VerifyPhysicalOutcome;
    KeepInv(w, Become(w, c, local));
  }

  /** A step that changes the capacity table only. */
  lemma HeadStep(w: World, heads: Heads)
    requires Inv(w) && ValidHeads(heads) && HeadsGrow(w.heads, heads)
    ensures Inv(w.(heads := heads)) && Grows(w, w.(heads := heads))
  {
    hide ValidHeads, ValidIntents, OutcomesAgree, SubmittedKnown, HeadsGrow, ClientOk, ReturnOk;
    SubmittedStay(w.heads, heads, w.intents);
    KeepInv(w, w.(heads := heads));
  }

  /** A step that changes the outbox database only. */
  lemma OutboxStep(w: World, intents: Intents, outcomes: Outcomes)
    requires Inv(w) && StoresOk(w.heads, intents, outcomes)
    requires IntentsGrow(w.intents, intents) && OutcomesGrow(w.outcomes, outcomes)
    ensures var after := w.(intents := intents, outcomes := outcomes); Inv(after) && Grows(w, after)
  {
    hide StoresOk, ClientOk, ReturnOk, IntentsGrow, OutcomesGrow;
    var after := w.(intents := intents, outcomes := outcomes);
    BegunStays(w, after);
    KeepInv(w, after);
  }

  /** A step that returns an answer backed by the durable history. */
  lemma ReturnStep(w: World, c: nat, recovery: ReleaseRecovery)
    requires Inv(w) && ReturnOk(w, recovery.intentId, recovery)
    ensures Inv(Return(w, c, recovery)) && Grows(w, Return(w, c, recovery))
  {
    hide StoresOk, ReleaseMatchesRecord, ReleasesIn, LeaseKnown, PlanRelease, VerifyPhysicalOutcome;
    KeepInv(w, Return(w, c, recovery));
  }

  // ---------------------------------------------------------------- begin_submission

  lemma BeginValidateKeeps(w: World, c: nat, current: IntentState, runner: RunnerCapabilities)
    requires Inv(w)
    ensures Inv(AfterBeginValidate(w, c, current, runner)) && Grows(w, AfterBeginValidate(w, c, current, runner))
  {
    hide Inv, Grows, ValidateIntent, LoadTx, LeaseKnown;
    InvStores(w);
    if LoadTx(w.heads, runner).Success? && ValidateIntent(current.intent, LoadTx(w.heads, runner).value.0, runner).Success? {
      ValidatedLeaseKnown(w.heads, current.intent, runner);
      LocalStep(w, c, BeginChecked(current));
    } else {
      LocalStep(w, c, Idle);
    }
  }

  lemma InvStores(w: World)
    requires Inv(w)
    ensures StoresOk(w.heads, w.intents, w.outcomes) && ValidHeads(w.heads) && ValidIntents(w.intents)
    ensures OutcomesAgree(w.intents, w.outcomes)
  {
  }

  lemma BeginCommitStepKeeps(w: World, c: nat, current: IntentState)
    requires Inv(w) && LeaseKnown(w.heads, current.intent)
    ensures Inv(AfterBeginCommit(w, c, current)) && Grows(w, AfterBeginCommit(w, c, current))
  {
    hide StoresOk, CommitIntentTx, LeaseKnown, PlanRelease, VerifyPhysicalOutcome, ReturnOk;
    match CommitIntentTx(w.intents, current, BeginState(current))
    case (_, Failure(_)) => LocalStep(w, c, Idle);
    case (intents, Success(_)) =>
      BeginCommitKeeps(w.heads, w.intents, w.outcomes, current);
      var after := AfterBeginCommit(w, c, current);
      assert after.begun == w.begun + [StableId(current.intent)];
      KeepInv(w, after);
  }

  // ---------------------------------------------------------------- release after restart

  lemma ReadRecordIsRetained(w: World, ctx: ExecutionContext, id: IntentId, state: IntentState)
    requires ValidIntents(w.intents) && ClientOk(w, ReleaseState(ctx, id, state))
    requires LoadOutcomeRow(w.outcomes, state, id).Success?
    requires VerifyPhysicalOutcome(ctx, LoadOutcomeRow(w.outcomes, state, id).value.outcome)
    ensures Retained(w, ctx, LoadOutcomeRow(w.outcomes, state, id).value)
  {
    hide VerifyPhysicalOutcome, VerifyIntrinsicOutcome, OutcomeMatchesState;
  }

  lemma ReadOutcomeKeeps(w: World, c: nat, ctx: ExecutionContext, id: IntentId, state: IntentState)
    requires Inv(w) && ClientOk(w, ReleaseState(ctx, id, state))
    ensures Inv(AfterReadOutcome(w, c, ctx, id, state)) && Grows(w, AfterReadOutcome(w, c, ctx, id, state))
  {
    hide Inv, Grows, VerifyPhysicalOutcome, LoadOutcomeRow, Retained, StoresOk, ValidHeads, ValidIntents, OutcomesAgree,
         Become;
    InvStores(w);
    match LoadOutcomeRow(w.outcomes, state, id)
    case Failure(_) => LocalStep(w, c, Idle);
    case Success(record) =>
      if VerifyPhysicalOutcome(ctx, record.outcome) {
        ReadRecordIsRetained(w, ctx, id, state);
        LocalStep(w, c, ReleaseRecord(ctx, record));
      } else {
        LocalStep(w, c, Idle);
      }
  }

  /** A retained record belongs to the runner of every context its outcome verifies in. */
  lemma RetainedRunner(w: World, ctx: ExecutionContext, record: ObservedOutcome)
    requires Inv(w) && Retained(w, ctx, record)
    ensures record.intentId in w.intents && record.runnerId == ctx.runner.runnerId
    ensures record.outcomeDigest == Sha256(record.outcome) && record.receiptDigest == Sha256(record.outcome.receipt)
    ensures record.transportStatus == record.outcome.receipt.transportStatus
  {
    hide VerifyIntrinsicOutcome, SubmittedKnown, ClientOk, ReturnOk, BegunOk, ValidHeads;
    assert w.intents[record.intentId].state.Observed?;
  }

  lemma ReadHeadKeeps(w: World, c: nat, ctx: ExecutionContext, record: ObservedOutcome)
    requires Inv(w) && Retained(w, ctx, record)
    ensures Inv(AfterReadHead(w, c, ctx, record)) && Grows(w, AfterReadHead(w, c, ctx, record))
  {
    hide Inv, Grows, PlanRelease, LoadTx, AlreadyReleased, Retained, StoresOk, ValidHeads, ValidIntents, OutcomesAgree,
         Become, Return, Replays;
    InvStores(w);
    match LoadTx(w.heads, ctx.runner)
    case Failure(_) => LocalStep(w, c, Idle);
    case Success(loaded) =>
      LoadReadsHead(w.heads, ctx.runner);
      match PlanRelease(loaded.0, ctx, record)
      case Refuse(_) => LocalStep(w, c, Idle);
      case Answer(recovery) =>
        AnswerIsReleased(loaded.0, ctx, record);
        AnswerStep(w, c, ctx, record, recovery);
      case CommitRelease(snapshot, next, grant) =>
        PlanIsOnSnapshot(loaded.0, ctx, record);
        LocalStep(w, c, ReleasePlanned(ctx, record, snapshot, next, grant));
  }

  lemma AnswerIsReleased(s: RunnerCapacityState, ctx: ExecutionContext, record: ObservedOutcome)
    requires PlanRelease(s, ctx, record).Answer?
    ensures AlreadyReleased(s, record) == Success(Some(PlanRelease(s, ctx, record).recovery))
  {
    hide ReleaseForOutcome, AlreadyReleased, MatchingLeases;
  }

  lemma PlanIsOnSnapshot(s: RunnerCapacityState, ctx: ExecutionContext, record: ObservedOutcome)
    requires PlanRelease(s, ctx, record).CommitRelease?
    ensures PlanRelease(s, ctx, record).current == s
  {
    hide ReleaseForOutcome, AlreadyReleased, MatchingLeases;
  }

  /** Answering from the current head that the release is already canonical. */
  lemma AnswerStep(w: World, c: nat, ctx: ExecutionContext, record: ObservedOutcome, recovery: ReleaseRecovery)
    requires Inv(w) && Retained(w, ctx, record) && ctx.runner.runnerId in w.heads
    requires AlreadyReleased(History(w.heads, ctx.runner.runnerId), record) == Success(Some(recovery))
    ensures Inv(Return(w, c, recovery)) && Grows(w, Return(w, c, recovery))
  {
    hide Inv, Grows, AlreadyReleased, ReleaseMatchesRecord, ReleasesIn;
    AlreadyReleasedNames(History(w.heads, ctx.runner.runnerId), record);
    RetainedRunner(w, ctx, record);
    ReturnStep(w, c, recovery);
  }

  lemma ReleaseCommitKeeps(w: World, c: nat, ctx: ExecutionContext, record: ObservedOutcome,
                           snapshot: RunnerCapacityState, next: RunnerCapacityState, grant: ReleaseGrant)
    requires Inv(w) && ClientOk(w, ReleasePlanned(ctx, record, snapshot, next, grant))
    ensures var after := AfterReleaseCommit(w, c, ctx, record, snapshot, next, grant); Inv(after) && Grows(w, after)
  {
    hide Inv, Grows, PlanRelease, ReleaseMatchesRecord, ReleasesIn, CommitTx, VerifyPhysicalOutcome, StoresOk, ValidHeads,
         ValidIntents, OutcomesAgree, HeadsGrow, Replays;
    InvStores(w);
    match CommitTx(w.heads, ctx.runner, Sha256(snapshot), next)
    case (_, Failure(e)) => LocalStep(w, c, ReleaseRefused(ctx, record, e));
    case (heads, Success(head)) =>
      CommitKeeps(w.heads, ctx.runner, Sha256(snapshot), next);
      HeadStep(w, heads);
      var moved := w.(heads := heads);
      RetainedRunner(w, ctx, record);
      PlannedReleaseNames(snapshot, ctx, record);
      var recovery := CommittedRecovery(record, next, grant, head);
      ReturnStep(moved, c, recovery);
      GrowsTransitive(w, moved, Return(moved, c, recovery));
  }

  lemma ReloadKeeps(w: World, c: nat, ctx: ExecutionContext, record: ObservedOutcome, refused: DurableError)
    requires Inv(w) && Retained(w, ctx, record)
    ensures Inv(AfterReload(w, c, ctx, record, refused)) && Grows(w, AfterReload(w, c, ctx, record, refused))
  {
    hide Inv, Grows, LoadTx, AlreadyReleased, Retained, StoresOk, ValidHeads, ValidIntents, OutcomesAgree, Become, Return,
         Replays;
    InvStores(w);
    match FallbackTx(w.heads, ctx, record, refused)
    case Failure(_) => LocalStep(w, c, Idle);
    case Success(recovery) =>
      LoadReadsHead(w.heads, ctx.runner);
      AnswerStep(w, c, ctx, record, recovery);
  }

  // ---------------------------------------------------------------- every step, every run

  lemma HeadsGrowTransitive(a: Heads, b: Heads, c: Heads)
    requires HeadsGrow(a, b) && HeadsGrow(b, c)
    ensures HeadsGrow(a, c)
  {
  }

  lemma GrowsTransitive(a: World, b: World, c: World)
    requires Grows(a, b) && Grows(b, c)
    ensures Grows(a, c)
  {
    hide HeadsGrow;
    HeadsGrowTransitive(a.heads, b.heads, c.heads);
  }

  lemma GrowsReflexive(w: World)
    ensures Grows(w, w)
  {
  }

  lemma ReadStateKeeps(w: World, c: nat, ctx: ExecutionContext, id: IntentId)
    requires Inv(w)
    ensures LoadIntentTx(w.intents, id).Success? ==>
              ClientOk(w, ReleaseState(ctx, id, LoadIntentTx(w.intents, id).value))
  {
  }

  lemma LocalOk(w: World, c: nat)
    requires Inv(w)
    ensures ClientOk(w, Local(w, c))
  {
  }

  lemma StepKeeps(w: World, step: Step)
    requires Inv(w)
    ensures Inv(Next(w, step)) && Grows(w, Next(w, step))
  {
    hide Inv, Grows, InitializeTx, CommitTx, LoadTx, InitializeIntentTx, RecordObservedTx, LoadIntentTx, CommitIntentTx,
         PlanRelease, ValidateIntent, VerifyPhysicalOutcome, LoadOutcomeRow, FallbackTx, LeaseKnown, StoresOk,
         ValidHeads, ValidIntents, OutcomesAgree, HeadsGrow, IntentsGrow, OutcomesGrow, AfterBeginValidate,
         AfterBeginCommit, AfterReadOutcome, AfterReadHead, AfterReleaseCommit, AfterReload;
    InvStores(w);
    GrowsReflexive(w);
    match step
    case InitializeHead(runner, state) =>
      InitializeKeeps(w.heads, runner, state);
      HeadStep(w, InitializeTx(w.heads, runner, state).0);
    case CommitHead(runner, expected, next) =>
      CommitKeeps(w.heads, runner, expected, next);
      HeadStep(w, CommitTx(w.heads, runner, expected, next).0);
    case InitializeIntent(intent) =>
      InitializeIntentKeeps(w.heads, w.intents, w.outcomes, intent);
      SameOutcomes(w.outcomes);
      OutboxStep(w, InitializeIntentTx(w.intents, intent).0, w.outcomes);
    case RecordObserved(id, expected, ctx, outcome) =>
      RecordObservedKeeps(w.heads, w.intents, w.outcomes, id, expected, ctx, outcome);
      var (intents, outcomes, _) := RecordObservedTx(w.intents, w.outcomes, id, expected, ctx, outcome);
      OutboxStep(w, intents, outcomes);
    case _ =>
      LocalOk(w, step.client);
      ClientStepKeeps(w, step);
  }

  lemma SameOutcomes(outcomes: Outcomes)
    ensures OutcomesGrow(outcomes, outcomes)
  {
  }

  predicate ClientStep(step: Step) {
    !step.InitializeHead? && !step.CommitHead? && !step.InitializeIntent? && !step.RecordObserved?
  }

  lemma ClientStepKeeps(w: World, step: Step)
    requires Inv(w) && ClientStep(step) && ClientOk(w, Local(w, step.client))
    ensures Inv(Next(w, step)) && Grows(w, Next(w, step))
  {
    hide Inv, Grows, LoadTx, LoadIntentTx, PlanRelease, VerifyPhysicalOutcome, LeaseKnown, AfterBeginValidate,
         AfterBeginCommit, AfterReadOutcome, AfterReadHead, AfterReleaseCommit, AfterReload;
    GrowsReflexive(w);
    var c := step.client;
    match step
    case BeginLoad(_, id, expected) =>
      match LoadIntentTx(w.intents, id) {
        case Failure(_) => LocalStep(w, c, Idle);
        case Success(current) =>
          LocalStep(w, c, if expected == Sha256(current) && current.Prepared? then BeginRead(current) else Idle);
      }
    case BeginValidate(_, runner) =>
      match Local(w, c) {
        case BeginRead(current) => BeginValidateKeeps(w, c, current, runner);
        case _ =>
      }
    case BeginCommit(_) =>
      match Local(w, c) {
        case BeginChecked(current) => BeginCommitStepKeeps(w, c, current);
        case _ =>
      }
    case ReleaseLoad(_, id, ctx) =>
      match LoadIntentTx(w.intents, id) {
        case Failure(_) => LocalStep(w, c, Idle);
        case Success(state) => LocalStep(w, c, if state.Observed? then ReleaseChecked(ctx, id) else Idle);
      }
    case ReleaseReadState(_) =>
      match Local(w, c) {
        case ReleaseChecked(ctx, id) =>
          ReadStateKeeps(w, c, ctx, id);
          match LoadIntentTx(w.intents, id) {
            case Failure(_) => LocalStep(w, c, Idle);
            case Success(state) => LocalStep(w, c, ReleaseState(ctx, id, state));
          }
        case _ =>
      }
    case ReleaseReadOutcome(_) =>
      match Local(w, c) {
        case ReleaseState(ctx, id, state) => ReadOutcomeKeeps(w, c, ctx, id, state);
        case _ =>
      }
    case ReleaseReadHead(_) =>
      match Local(w, c) {
        case ReleaseRecord(ctx, record) => ReadHeadKeeps(w, c, ctx, record);
        case _ =>
      }
    case ReleaseCommit(_) =>
      match Local(w, c) {
        case ReleasePlanned(ctx, record, snapshot, next, grant) =>
          ReleaseCommitKeeps(w, c, ctx, record, snapshot, next, grant);
        case _ =>
      }
    case ReleaseReload(_) =>
      match Local(w, c) {
        case ReleaseRefused(ctx, record, error) => ReloadKeeps(w, c, ctx, record, error);
        case _ =>
      }
    case Crash(_) => LocalStep(w, c, Idle);
  }

  lemma {:induction false} RunKeepsInv(steps: seq<Step>)
    ensures Inv(After(steps))
  {
    hide Next;
    if steps == [] {
    } else {
      hide Inv;
      RunKeepsInv(steps[..|steps| - 1]);
      StepKeeps(After(steps[..|steps| - 1]), steps[|steps| - 1]);
    }
  }

  /** Nothing durable is lost between any two points of a run. */
  lemma {:induction false} RunGrows(steps: seq<Step>, k: nat)
    requires k <= |steps|
    ensures Grows(After(steps[..k]), After(steps))
    decreases |steps|
  {
    hide Next, Grows;
    if k == |steps| {
      assert steps[..k] == steps;
      GrowsReflexive(After(steps));
    } else {
      var front := steps[..|steps| - 1];
      assert front[..k] == steps[..k];
      RunGrows(front, k);
      RunKeepsInv(front);
      StepKeeps(After(front), steps[|steps| - 1]);
      GrowsTransitive(After(steps[..k]), After(front), After(steps));
    }
  }
}
