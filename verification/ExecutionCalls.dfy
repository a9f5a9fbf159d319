/** The store calls that read both databases are runs of the interleaving model: their steps, one after another. */
module ExecutionCalls {
  import opened Canonical
  import opened Physical
  import opened Capacity
  import opened AllocatorSafety
  import opened CapacityGrants
  import opened DurableCapacity
  import opened Dispatch
  import opened OutcomeStore
  import opened ExecutionRuns
  import opened ExecutionInvariant
  import opened ExecutionSafety
  import opened ExecutionTheorems

  function AfterBegin(w: World, c: nat, id: IntentId, expected: Digest<IntentState>, runner: RunnerCapabilities): World {
    Next(Next(Next(w, BeginLoad(c, id, expected)), BeginValidate(c, runner)), BeginCommit(c))
  }

  function AfterRelease(w: World, c: nat, id: IntentId, ctx: ExecutionContext): World {
    var read := Next(Next(Next(w, ReleaseLoad(c, id, ctx)), ReleaseReadState(c)), ReleaseReadOutcome(c));
    Next(Next(Next(read, ReleaseReadHead(c)), ReleaseCommit(c)), ReleaseReload(c))
  }

  /** Appending the steps of a call to a run takes the world of the run through the call. */
  lemma CallsExtendRuns(steps: seq<Step>, c: nat, id: IntentId, expected: Digest<IntentState>, runner: RunnerCapabilities,
                        ctx: ExecutionContext)
    ensures After(steps + [BeginLoad(c, id, expected)] + [BeginValidate(c, runner)] + [BeginCommit(c)])
         == AfterBegin(After(steps), c, id, expected, runner)
    ensures After(steps + [ReleaseLoad(c, id, ctx)] + [ReleaseReadState(c)] + [ReleaseReadOutcome(c)] + [ReleaseReadHead(c)]
                  + [ReleaseCommit(c)] + [ReleaseReload(c)])
         == AfterRelease(After(steps), c, id, ctx)
  {
    hide After, Next;
    var b1 := steps + [BeginLoad(c, id, expected)];
    var b2 := b1 + [BeginValidate(c, runner)];
    OneMoreStep(steps, BeginLoad(c, id, expected));
    OneMoreStep(b1, BeginValidate(c, runner));
    OneMoreStep(b2, BeginCommit(c));
    var r1 := steps + [ReleaseLoad(c, id, ctx)];
    var r2 := r1 + [ReleaseReadState(c)];
    var r3 := r2 + [ReleaseReadOutcome(c)];
    var r4 := r3 + [ReleaseReadHead(c)];
    var r5 := r4 + [ReleaseCommit(c)];
    OneMoreStep(steps, ReleaseLoad(c, id, ctx));
    OneMoreStep(r1, ReleaseReadState(c));
    OneMoreStep(r2, ReleaseReadOutcome(c));
    OneMoreStep(r3, ReleaseReadHead(c));
    OneMoreStep(r4, ReleaseCommit(c));
    OneMoreStep(r5, ReleaseReload(c));
  }

  /** A step of a client that is not at that point of a call does nothing. */
  lemma IdleSkips(w: World, c: nat, runner: RunnerCapabilities)
    requires Local(w, c) == Idle
    ensures Next(w, BeginValidate(c, runner)) == w && Next(w, BeginCommit(c)) == w
    ensures Next(w, ReleaseReadState(c)) == w && Next(w, ReleaseReadOutcome(c)) == w && Next(w, ReleaseReadHead(c)) == w
    ensures Next(w, ReleaseCommit(c)) == w && Next(w, ReleaseReload(c)) == w
  {
    hide InitializeTx, CommitTx, InitializeIntentTx, RecordObservedTx, LoadIntentTx, AfterBeginLoad, AfterBeginValidate,
         AfterBeginCommit, AfterReadOutcome, AfterReadHead, AfterReleaseCommit, AfterReload;
  }

  /** `begin_submission` with nothing interleaved is its three steps in a row. */
  lemma BeginAloneIsARun(w: World, c: nat, id: IntentId, expected: Digest<IntentState>, runner: RunnerCapabilities)
    ensures var after := AfterBegin(w, c, id, expected, runner);
            var (intents, r) := BeginAloneTx(w.intents, w.heads, id, expected, runner);
            && after.intents == intents && after.heads == w.heads && after.outcomes == w.outcomes
            && after.begun == w.begun + (if r.Success? then [StableId(r.value.0.intent)] else [])
            && after.returned == w.returned && Local(after, c) == Idle
  {
    hide LoadIntentTx, LoadTx, ValidateIntent, CommitIntentTx, Next;
    var w1 := AfterBeginLoad(w, c, id, expected);
    BeginLoadStep(w, c, id, expected);
    if Local(w1, c).BeginRead? {
      BeginReadSteps(w1, c, Local(w1, c).current, runner);
      BeginChecks(w1, c, Local(w1, c).current, runner);
    } else {
      IdleSkips(w1, c, runner);
    }
  }

  lemma BeginChecks(w: World, c: nat, current: IntentState, runner: RunnerCapabilities)
    requires Local(w, c) == BeginRead(current)
    ensures var after := Next(AfterBeginValidate(w, c, current, runner), BeginCommit(c));
            var loaded := LoadTx(w.heads, runner);
            var committed := CommitIntentTx(w.intents, current, BeginState(current));
            var ok := loaded.Success? && ValidateIntent(current.intent, loaded.value.0, runner).Success?
                      && committed.1.Success?;
            && after.intents == (if ok then committed.0 else w.intents)
            && after.heads == w.heads && after.outcomes == w.outcomes
            && after.begun == w.begun + (if ok then [StableId(current.intent)] else [])
            && after.returned == w.returned && Local(after, c) == Idle
            && (if committed.1.Success? then committed.1.value.intent == current.intent else committed.0 == w.intents)
  {
    hide LoadTx, ValidateIntent, CommitIntentTx, Next;
    var w1 := AfterBeginValidate(w, c, current, runner);
    CommittedIsNext(w.intents, current);
    if Local(w1, c).BeginChecked? {
      BeginCheckedStep(w1, c, current);
    } else {
      IdleSkips(w1, c, runner);
    }
  }

  lemma BeginLoadStep(w: World, c: nat, id: IntentId, expected: Digest<IntentState>)
    ensures Next(w, BeginLoad(c, id, expected)) == AfterBeginLoad(w, c, id, expected)
  {
    hide InitializeTx, CommitTx, InitializeIntentTx, RecordObservedTx, LoadIntentTx, AfterBeginLoad, AfterBeginValidate,
         AfterBeginCommit, AfterReadOutcome, AfterReadHead, AfterReleaseCommit, AfterReload;
  }

  lemma BeginReadSteps(w: World, c: nat, current: IntentState, runner: RunnerCapabilities)
    requires Local(w, c) == BeginRead(current)
    ensures Next(w, BeginValidate(c, runner)) == AfterBeginValidate(w, c, current, runner)
  {
    hide InitializeTx, CommitTx, InitializeIntentTx, RecordObservedTx, LoadIntentTx, AfterBeginLoad, AfterBeginValidate,
         AfterBeginCommit, AfterReadOutcome, AfterReadHead, AfterReleaseCommit, AfterReload;
  }

  lemma BeginCheckedStep(w: World, c: nat, current: IntentState)
    requires Local(w, c) == BeginChecked(current)
    ensures Next(w, BeginCommit(c)) == AfterBeginCommit(w, c, current)
  {
    hide InitializeTx, CommitTx, InitializeIntentTx, RecordObservedTx, LoadIntentTx, AfterBeginLoad, AfterBeginValidate,
         AfterBeginCommit, AfterReadOutcome, AfterReadHead, AfterReleaseCommit, AfterReload;
  }

  lemma CommittedIsNext(intents: Intents, current: IntentState)
    ensures var (after, r) := CommitIntentTx(intents, current, BeginState(current));
            if r.Success? then r.value == BeginState(current) else after == intents
  {
  }

  /** `release_observed_capacity_after_restart` with nothing interleaved is its six steps in a row. */
  lemma ReleaseAloneIsARun(w: World, c: nat, id: IntentId, ctx: ExecutionContext)
    ensures var after := AfterRelease(w, c, id, ctx);
            var (heads, r) := ReleaseAloneTx(w.intents, w.outcomes, w.heads, id, ctx);
            Finished(w, after, c, heads, r)
  {
    hide LoadIntentTx, LoadTx, LoadOutcomeRow, PlanRelease, CommitTx, FallbackTx, VerifyPhysicalOutcome, Next, AfterReadHead,
         AfterReleaseCommit, AfterReload;
    var read := Next(Next(Next(w, ReleaseLoad(c, id, ctx)), ReleaseReadState(c)), ReleaseReadOutcome(c));
    ReleaseReads(w, c, id, ctx);
    match Local(read, c) {
      case ReleaseRecord(_, record) => ReleaseDecides(read, c, ctx, record);
      case _ => IdleSkips(read, c, ctx.runner);
    }
  }

  /** The reads of the outbox: the client ends with the record the call works on, or gives up. */
  lemma ReleaseReads(w: World, c: nat, id: IntentId, ctx: ExecutionContext)
    ensures var read := Next(Next(Next(w, ReleaseLoad(c, id, ctx)), ReleaseReadState(c)), ReleaseReadOutcome(c));
            var state := LoadIntentTx(w.intents, id);
            && read == Become(read, c, Local(read, c)) && read == w.(clients := read.clients)
            && Local(read, c)
               == (if state.Success? && state.value.Observed? && LoadOutcomeRow(w.outcomes, state.value, id).Success?
                      && VerifyPhysicalOutcome(ctx, LoadOutcomeRow(w.outcomes, state.value, id).value.outcome)
                   then ReleaseRecord(ctx, LoadOutcomeRow(w.outcomes, state.value, id).value) else Idle)
  {
    hide LoadIntentTx, LoadOutcomeRow, VerifyPhysicalOutcome, InitializeTx, CommitTx, InitializeIntentTx, RecordObservedTx,
         AfterBeginLoad, AfterBeginValidate, AfterBeginCommit, AfterReadHead, AfterReleaseCommit, AfterReload;
  }

  /** One client has gone from `w` to `after`, where it is idle again, having changed no more than the heads
      and having logged the answer, if it has one. */
  ghost predicate Finished(w: World, after: World, c: nat, heads: Heads, r: Result<ReleaseRecovery, DispatchError>) {
    && after.heads == heads && after.intents == w.intents && after.outcomes == w.outcomes && after.begun == w.begun
    && after.returned == w.returned + (if r.Success? then [(r.value.intentId, r.value)] else [])
    && Local(after, c) == Idle
  }

  /** The decision on the head, the commit and the fallback */
  lemma ReleaseDecides(w: World, c: nat, ctx: ExecutionContext, record: ObservedOutcome)
    requires Local(w, c) == ReleaseRecord(ctx, record)
    ensures Finished(w, Next(Next(Next(w, ReleaseReadHead(c)), ReleaseCommit(c)), ReleaseReload(c)), c,
                     ReleaseRecordTx(w.heads, ctx, record).0, ReleaseRecordTx(w.heads, ctx, record).1)
  {
    hide LoadTx, PlanRelease, CommitTx, FallbackTx, Next;
    var w1 := AfterReadHead(w, c, ctx, record);
    ReadHeadStep(w, c, ctx, record);
    if Local(w1, c).ReleasePlanned? {
      PlannedFinishes(w1, c);
    } else {
      IdleSkips(w1, c, ctx.runner);
    }
  }

  lemma PlannedFinishes(w: World, c: nat)
    requires Local(w, c).ReleasePlanned?
    ensures var p := Local(w, c);
            var (after, r) := CommitTx(w.heads, p.ctx.runner, Sha256(p.snapshot), p.next);
            Finished(w, Next(Next(w, ReleaseCommit(c)), ReleaseReload(c)), c, after,
                     match r case Success(head) => Success(CommittedRecovery(p.record, p.next, p.grant, head))
                             case Failure(e) => FallbackTx(after, p.ctx, p.record, e))
  {
    hide CommitTx, FallbackTx, Next;
    var p := Local(w, c);
    var w1 := AfterReleaseCommit(w, c, p.ctx, p.record, p.snapshot, p.next, p.grant);
    CommitStep(w, c);
    RefusedCommit(w.heads, p.ctx.runner, Sha256(p.snapshot), p.next);
    if Local(w1, c).ReleaseRefused? {
      ReloadStep(w1, c);
    } else {
      IdleSkips(w1, c, p.ctx.runner);
    }
  }

  lemma ReadHeadStep(w: World, c: nat, ctx: ExecutionContext, record: ObservedOutcome)
    requires Local(w, c) == ReleaseRecord(ctx, record)
    ensures Next(w, ReleaseReadHead(c)) == AfterReadHead(w, c, ctx, record)
  {
    hide InitializeTx, CommitTx, InitializeIntentTx, RecordObservedTx, LoadIntentTx, AfterBeginLoad, AfterBeginValidate,
         AfterBeginCommit, AfterReadOutcome, AfterReadHead, AfterReleaseCommit, AfterReload;
  }

  lemma CommitStep(w: World, c: nat)
    requires Local(w, c).ReleasePlanned?
    ensures var p := Local(w, c);
            Next(w, ReleaseCommit(c)) == AfterReleaseCommit(w, c, p.ctx, p.record, p.snapshot, p.next, p.grant)
  {
    hide InitializeTx, CommitTx, InitializeIntentTx, RecordObservedTx, LoadIntentTx, AfterBeginLoad, AfterBeginValidate,
         AfterBeginCommit, AfterReadOutcome, AfterReadHead, AfterReleaseCommit, AfterReload;
  }

  lemma ReloadStep(w: World, c: nat)
    requires Local(w, c).ReleaseRefused?
    ensures Next(w, ReleaseReload(c)) == AfterReload(w, c, Local(w, c).ctx, Local(w, c).record, Local(w, c).error)
  {
    hide InitializeTx, CommitTx, InitializeIntentTx, RecordObservedTx, LoadIntentTx, AfterBeginLoad, AfterBeginValidate,
         AfterBeginCommit, AfterReadOutcome, AfterReadHead, AfterReleaseCommit, AfterReload;
  }

  lemma RefusedCommit(heads: Heads, runner: RunnerCapabilities, expected: Digest<RunnerCapacityState>,
                      next: RunnerCapacityState)
    ensures CommitTx(heads, runner, expected, next).1.Failure? ==> CommitTx(heads, runner, expected, next).0 == heads
  {
    hide Replay;
  }

  /** The runner holds the active lease that the intent names, exactly as the intent describes it. */
  ghost predicate HoldsLease(heads: Heads, intent: DispatchIntent, runner: RunnerCapabilities) {
    && runner.runnerId == intent.runnerId && Sha256(runner) == intent.runnerCapabilityDigest
    && runner.runnerId in heads && heads[runner.runnerId].capabilityDigest == Sha256(runner)
    && exists l <- History(heads, runner.runnerId).ActiveLeases() ::
         StableId(l) == intent.leaseId && Sha256(l) == intent.leaseDigest && IntentMatchesLease(intent, l)
  }

  lemma ValidatesExactly(s: RunnerCapacityState, intent: DispatchIntent, runner: RunnerCapabilities)
    requires Replays(s, runner) && AllocatorSafe(s)
    ensures ValidateIntent(intent, s, runner).Success?
       <==> && runner.runnerId == intent.runnerId && Sha256(runner) == intent.runnerCapabilityDigest
            && exists l <- s.ActiveLeases() ::
                 StableId(l) == intent.leaseId && Sha256(l) == intent.leaseDigest && IntentMatchesLease(intent, l)
  {
    hide Replay, LeasesIn, ReleasesIn, Unreleased, Matches;
    var matches := Matches(s.ActiveLeases(), intent.leaseId, intent.leaseDigest);
    AtMostOneMatch(s.ActiveLeases(), intent.leaseId, intent.leaseDigest);
    MatchesMember(s.ActiveLeases(), intent.leaseId, intent.leaseDigest);
    if |matches| == 1 { assert matches[0] in matches; }
    forall l | l in s.ActiveLeases() && StableId(l) == intent.leaseId && Sha256(l) == intent.leaseDigest
      ensures l in matches && |matches| == 1 && matches[0] == l
    {
    }
  }

  /** In every run a submission begins if and only if the caller names the prepared state and the runner still
      holds the intent's lease; it then hands out the permit for the new state. */
  lemma SubmissionBeginsExactly(steps: seq<Step>, id: IntentId, expected: Digest<IntentState>, runner: RunnerCapabilities)
    requires id in After(steps).intents
    ensures var w := After(steps);
            var state, (after, r) := w.intents[id].state, BeginAloneTx(w.intents, w.heads, id, expected, runner);
            && (r.Success? <==> state.Prepared? && expected == Sha256(state) && HoldsLease(w.heads, state.intent, runner))
            && (r.Success? ==> r.value == (BeginState(state), PermitFor(BeginState(state)).value))
            && after == (if r.Success? then w.intents[id := EncodeIntent(BeginState(state))] else w.intents)
  {
    hide After, Inv, ValidateIntent, IntentMatchesLease, AllocatorSafe, Replay, LeasesIn, ReleasesIn, Unreleased, LeaseKnown,
         OutcomesAgree;
    RunKeepsInv(steps);
    var w := After(steps);
    InvStores(w);
    var state := w.intents[id].state;
    if runner.runnerId in w.heads && w.heads[runner.runnerId].capabilityDigest == Sha256(runner) {
      assert ValidRow(runner.runnerId, w.heads[runner.runnerId]);
      HeadsStayCanonical(steps, runner.runnerId);
      ValidatesExactly(History(w.heads, runner.runnerId), state.intent, runner);
    }
  }
}
