/**
  Runs of one portfolio from its genesis state: any mixture of accepted transitions and human decisions,
  each taken on the durable state the one before it left.
 */
module LaneRuns {
  import opened Canonical
  import opened Ordering
  import opened Text
  import opened Portfolio
  import opened AspTransition
  import opened LaneSafety
  import opened HumanGateDecisions
  import opened PortfolioStore
  import opened PortfolioHistory

  datatype LaneStep =
    | Transit(request: TransitionRequest)
    | Decide(decision: HumanGateDecision, actor: string, decisionRef: string)

  datatype LaneHead = LaneHead(state: PortfolioState, checkpoint: Option<ExecutionCheckpoint>)

  /** Requests and decisions are built from constructed policies, grants and decisions. */
  predicate WellBuilt(step: LaneStep) {
    match step
    case Transit(request) =>
      request.policy.Valid() && (request.authorityGrant.Some? ==> request.authorityGrant.value.Valid())
    case Decide(decision, _, _) => ValidDecision(decision)
  }

  function Take(head: LaneHead, step: LaneStep): Option<LaneHead> {
    match step
    case Transit(request) =>
      (match ApplyActiveTransition(head.state, request)
       case Failure(_) => None
       case Success(r) => Some(LaneHead(r.newState, Some(r.checkpoint))))
    case Decide(decision, actor, decisionRef) =>
      (match DecideHumanGate(head.state, head.checkpoint, decision, actor, decisionRef)
       case Failure(_) => None
       case Success(d) => Some(LaneHead(d.state, Some(d.checkpoint))))
  }

  /** The head after the steps, or None if one of them is refused */
  function Run(genesis: PortfolioState, steps: seq<LaneStep>): Option<LaneHead> {
    if steps == [] then Some(LaneHead(genesis, None))
    else match Run(genesis, steps[..|steps| - 1])
      case None => None
      case Some(head) => Take(head, steps[|steps| - 1])
  }

  ghost predicate GoodRun(genesis: PortfolioState, steps: seq<LaneStep>) {
    genesis.Valid() && genesis.generation == 0 && (forall s <- steps :: WellBuilt(s)) && Run(genesis, steps).Some?
  }

  /** The effect of a transition accepted on a state */
  function EffectOf(state: PortfolioState, step: LaneStep): Effect {
    if step.Transit? && AdmittedRule(state, step.request).Success? then AdmittedRule(state, step.request).value.effect
    else NoEffect
  }

  lemma TakeKeeps(head: LaneHead, step: LaneStep)
    requires head.state.Valid() && WellBuilt(step) && Take(head, step).Some?
    ensures var next := Take(head, step).value;
            && next.state.Valid()
            && next.state.generation == head.state.generation + 1
            && next.state.previousStateDigest == Some(Sha256(head.state))
            && next.checkpoint.Some? && next.checkpoint.value.Valid() && next.checkpoint.value.Binds(next.state)
            && next.state.WorkItems() == (if EffectOf(head.state, step) == PromoteSecondary
                                        then head.state.WorkItems() - {head.state.active.WorkItem()} else head.state.WorkItems())
            && |next.state.passive| == (if EffectOf(head.state, step) == PromoteSecondary
                                        then |head.state.passive| - 1 else |head.state.passive|)
  {
    hide PortfolioState.Valid, PortfolioState.WellFormed, ExecutionCheckpoint.Valid, NextLanes, AdmittedRule, ValidDecision,
         NewCheckpoint, DecidedCheckpoint;
    match step
    case Transit(request) => StepKeepsLanes(head.state, request);
    case Decide(decision, actor, decisionRef) =>
      DecisionNeverFailsLate(head.state, head.checkpoint, decision, actor, decisionRef);
  }

  /** Every accepted step is a commit the durable store accepts from whoever read the current head, and
      recovery then returns exactly the state and checkpoint of the step. */
  lemma StepIsDurable(rows: PortfolioRows, checkpoints: CheckpointRows, head: LaneHead, step: LaneStep)
    requires ValidStore(rows, checkpoints) && head.state.Valid() && WellBuilt(step) && Take(head, step).Some?
    requires head.state.portfolioId in rows && Current(rows, head.state.portfolioId) == head.state
    ensures Take(head, step).value.checkpoint.Some?
    ensures var id, next := head.state.portfolioId, Take(head, step).value;
            var (rows', checkpoints', r) :=
              CommitPortfolioTx(rows, checkpoints, id, Sha256(head.state), next.state, next.checkpoint.value);
            && r.Success? && ValidStore(rows', checkpoints')
            && RecoverTx(rows', checkpoints', id).Success?
            && RecoverTx(rows', checkpoints', id).value.0 == next.state
            && RecoverTx(rows', checkpoints', id).value.1 == next.checkpoint
  {
    hide Take, ValidStore, PortfolioState.Valid, ExecutionCheckpoint.Valid, CommitPortfolioTx, RecoverTx, WellBuilt,
         PortfolioState.WorkItems;
    TakeKeeps(head, step);
    TakeStaysInPortfolio(head, step);
    var id, next := head.state.portfolioId, Take(head, step).value;
    CommitAcceptsExactly(rows, checkpoints, id, Sha256(head.state), next.state, next.checkpoint.value);
    CommitKeepsStore(rows, checkpoints, id, Sha256(head.state), next.state, next.checkpoint.value);
    var (rows', checkpoints', _) :=
      CommitPortfolioTx(rows, checkpoints, id, Sha256(head.state), next.state, next.checkpoint.value);
    RecoveryReturnsHead(rows', checkpoints', id);
  }

  lemma TakeStaysInPortfolio(head: LaneHead, step: LaneStep)
    requires Take(head, step).Some?
    ensures Take(head, step).value.state.portfolioId == head.state.portfolioId
  {
    hide NextLanes, AdmittedRule, NewCheckpoint, DecidedCheckpoint, ExecutionCheckpoint.Valid, PortfolioState.WellFormed;
  }

  lemma RunUnfold(genesis: PortfolioState, steps: seq<LaneStep>) returns (front: seq<LaneStep>, last: LaneStep)
    requires steps != [] && GoodRun(genesis, steps)
    ensures steps == front + [last] && front == steps[..|steps| - 1] && last == steps[|steps| - 1]
    ensures GoodRun(genesis, front) && WellBuilt(last)
    ensures Take(Run(genesis, front).value, last) == Run(genesis, steps)
  {
    hide WellBuilt, Take;
    front, last := steps[..|steps| - 1], steps[|steps| - 1];
    assert last in steps;
  }

  lemma {:induction false} RunPrefix(genesis: PortfolioState, steps: seq<LaneStep>, k: nat)
    requires GoodRun(genesis, steps) && k <= |steps|
    ensures GoodRun(genesis, steps[..k])
    decreases |steps|
  {
    hide GoodRun, Run;
    if k == |steps| {
      assert steps[..k] == steps;
    } else {
      var front, last := RunUnfold(genesis, steps);
      assert front[..k] == steps[..k];
      RunPrefix(genesis, front, k);
    }
  }

  /** Promotions along a run */
  function Promotions(genesis: PortfolioState, steps: seq<LaneStep>): nat {
    if steps == [] then 0
    else
      var front := steps[..|steps| - 1];
      Promotions(genesis, front)
      + match Run(genesis, front)
        case None => 0
        case Some(head) => if EffectOf(head.state, steps[|steps| - 1]) == PromoteSecondary then 1 else 0
  }

  /** Every run keeps a well-formed portfolio whose generation counts its steps and whose current
      checkpoint binds it; work items only ever leave, one per promotion, so a portfolio with N passive
      items sees at most N promotions. */
  lemma {:induction false} RunKeepsPortfolio(genesis: PortfolioState, steps: seq<LaneStep>)
    requires GoodRun(genesis, steps)
    ensures var head := Run(genesis, steps).value;
            && head.state.Valid() && head.state.generation == |steps|
            && (head.checkpoint.Some? <==> steps != [])
            && (head.checkpoint.Some? ==> head.checkpoint.value.Valid() && head.checkpoint.value.Binds(head.state))
            && head.state.WorkItems() <= genesis.WorkItems()
            && |genesis.passive| == |head.state.passive| + Promotions(genesis, steps)
            && Promotions(genesis, steps) <= |genesis.passive|
  {
    hide Take, WellBuilt, PortfolioState.Valid, PortfolioState.WorkItems, ExecutionCheckpoint.Valid, EffectOf;
    if steps != [] {
      var front, last := RunUnfold(genesis, steps);
      RunKeepsPortfolio(genesis, front);
      TakeKeeps(Run(genesis, front).value, last);
    }
  }

  // ---------------------------------------------------------------- wake admissions

  /** The step rotates the lanes on the strength of this admission. */
  predicate Consumes(state: PortfolioState, step: LaneStep, admission: PassiveWakeAdmission) {
    && step.Transit?
    && step.request.wakeAdmission == Some(admission)
    && ApplyActiveTransition(state, step.request).Success?
  }

  lemma ConsumedGeneration(state: PortfolioState, step: LaneStep, admission: PassiveWakeAdmission)
    requires Consumes(state, step, admission)
    ensures admission.portfolioGeneration == state.generation
  {
    hide AdmittedRule, NewCheckpoint, ExecutionCheckpoint.Valid, PortfolioState.WellFormed, SortBy, KindsProblem, FindPassive,
         AuthorityProblem, MatchTransitionRule, Checked, ParkedActive;
  }

  /** Along a run a wake admission is consumed at most once. */
  lemma WakeConsumedOnce(genesis: PortfolioState, steps: seq<LaneStep>, i: nat, j: nat, admission: PassiveWakeAdmission)
    requires GoodRun(genesis, steps) && i < |steps| && j < |steps|
    requires Run(genesis, steps[..i]).Some? && Consumes(Run(genesis, steps[..i]).value.state, steps[i], admission)
    requires Run(genesis, steps[..j]).Some? && Consumes(Run(genesis, steps[..j]).value.state, steps[j], admission)
    ensures i == j
  {
    hide GoodRun, Run, Consumes, PortfolioState.Valid, ExecutionCheckpoint.Valid;
    RunPrefix(genesis, steps, i);
    RunPrefix(genesis, steps, j);
    RunKeepsPortfolio(genesis, steps[..i]);
    RunKeepsPortfolio(genesis, steps[..j]);
    ConsumedGeneration(Run(genesis, steps[..i]).value.state, steps[i], admission);
    ConsumedGeneration(Run(genesis, steps[..j]).value.state, steps[j], admission);
  }

  // ---------------------------------------------------------------- authority

  /** A transition that takes the Active item out of human_gate, under a grant bound to the policy, the rule
      and its boundary, and leaves it Active. */
  predicate ExitsByGrant(state: PortfolioState, step: LaneStep) {
    && state.active.state == HumanGate
    && step.Transit? && step.request.authorityGrant.Some?
    && AdmittedRule(state, step.request).Success?
    && var rule := AdmittedRule(state, step.request).value;
    && !Rotating(rule.effect)
    && rule.authorityMode == PreauthorizedRequired
    && GrantBinds(step.request.policy, rule, step.request.authorityGrant.value)
  }

  /** How one step moves the Active item out of a gate, and where the authority it then carries comes from */
  ghost predicate AuthorityAccounted(before: PortfolioState, step: LaneStep, after: PortfolioEntry) {
    && (before.active.state == HumanGate && after.workId == before.active.workId && after.state != HumanGate ==>
          if step.Decide? then after.state in {Rework, Failed} && after.authorityRef.None?
          else ExitsByGrant(before, step))
    && (ExitsByGrant(before, step) ==>
          && after.workId == before.active.workId
          && after.authorityRef == Some(step.request.authorityGrant.value.authorityRef))
    && (after.authorityRef.Some? && !ExitsByGrant(before, step) ==>
          after.workId == before.active.workId && after.authorityRef == before.active.authorityRef)
  }

  lemma StepAuthority(head: LaneHead, step: LaneStep)
    requires head.state.Valid() && WellBuilt(step) && Take(head, step).Some?
    ensures AuthorityAccounted(head.state, step, Take(head, step).value.state.active)
  {
    hide ExitsByGrant, PortfolioState.Valid, PortfolioState.WellFormed, ApplyActiveTransition, ValidDecision,
         ExecutionCheckpoint.Valid, DecidedCheckpoint, AuthorityAccounted, TransitionPolicy.Valid, PortfolioEntry.Valid;
    match step
    case Decide(decision, _, _) => DecisionAccounted(head.state, step, decision);
    case Transit(request) => TransitAccounted(head.state, request);
  }

  lemma DecisionAccounted(state: PortfolioState, step: LaneStep, decision: HumanGateDecision)
    requires ValidDecision(decision) && step.Decide?
    ensures AuthorityAccounted(state, step, DecidedActive(state.active, decision))
  {
    hide Blank, AdmittedRule;
  }

  lemma TransitAccounted(state: PortfolioState, request: TransitionRequest)
    requires state.Valid() && request.policy.Valid() && ApplyActiveTransition(state, request).Success?
    ensures AuthorityAccounted(state, Transit(request), ApplyActiveTransition(state, request).value.newState.active)
  {
    hide SortBy, AdmittedRule, ExecutionCheckpoint.Valid, NewCheckpoint, NextLanes, PortfolioState.WellFormed,
         PortfolioState.Valid, TransitionPolicy.Valid, AuthorityAccounted;
    NextActiveAccounted(state, request, AdmittedRule(state, request).value);
  }

  lemma NextActiveAccounted(state: PortfolioState, request: TransitionRequest, rule: TransitionRule)
    requires state.Valid() && request.policy.Valid() && AdmittedRule(state, request) == Success(rule)
    requires NextLanes(state, request, rule).Success?
    ensures AuthorityAccounted(state, Transit(request), NextLanes(state, request, rule).value.active)
  {
    AdmittedRuleIsValid(state, request);
    hide AdmittedRule, RotatedLanes, PortfolioEntry.Valid, TransitionPolicy.Valid, Blank, Sorted, SortedBy, GrantBinds;
    if Rotating(rule.effect) { RotatedActive(state, request, rule); }
  }

  lemma RotatedActive(state: PortfolioState, request: TransitionRequest, rule: TransitionRule)
    requires RotatedLanes(state, request, rule).Success?
    ensures RotatedLanes(state, request, rule).value.active == PromotedActive(state.secondary)
  {
    hide SecondaryFromWake, ParkedActive, SortBy;
  }

  ghost predicate NoExitFrom(genesis: PortfolioState, steps: seq<LaneStep>, i: nat) {
    forall j | i <= j < |steps| && Run(genesis, steps[..j]).Some? ::
      !ExitsByGrant(Run(genesis, steps[..j]).value.state, steps[j])
  }

  /** Step `i` is the last exit from a gate, and it was this item's, under a grant of this reference. */
  ghost predicate LastGrantedAt(genesis: PortfolioState, steps: seq<LaneStep>, i: nat, workId: string, authorityRef: string)
    requires i < |steps|
  {
    && Run(genesis, steps[..i]).Some?
    && Run(genesis, steps[..i]).value.state.active.workId == workId
    && ExitsByGrant(Run(genesis, steps[..i]).value.state, steps[i])
    && steps[i].request.authorityGrant.value.authorityRef == authorityRef
    && NoExitFrom(genesis, steps, i + 1)
  }

  /** Authority provenance: the authority the Active item carries at the end of a run is what that very item
      carried in the genesis state, if no item has left a gate under a grant since, or else the reference of
      the last such grant, which let this item out. */
  lemma {:induction false} AuthorityProvenance(genesis: PortfolioState, steps: seq<LaneStep>)
    requires GoodRun(genesis, steps)
    ensures var active := Run(genesis, steps).value.state.active;
            active.authorityRef.Some? ==>
              || (&& active.authorityRef == genesis.active.authorityRef && active.workId == genesis.active.workId
                  && NoExitFrom(genesis, steps, 0))
              || exists i | 0 <= i < |steps| :: LastGrantedAt(genesis, steps, i, active.workId, active.authorityRef.value)
  {
    hide Take, WellBuilt, ExitsByGrant, PortfolioState.Valid, NoExitFrom;
    if steps == [] {
      NoExitAtAll(genesis);
    } else {
      var front, last := RunUnfold(genesis, steps);
      AuthorityProvenance(genesis, front);
      RunKeepsPortfolio(genesis, front);
      var head, active := Run(genesis, front).value, Run(genesis, steps).value.state.active;
      StepAuthority(head, last);
      if active.authorityRef.Some? {
        if ExitsByGrant(head.state, last) {
          NoExitAfterLast(genesis, steps);
          assert LastGrantedAt(genesis, steps, |front|, active.workId, active.authorityRef.value);
        } else if i :| 0 <= i < |front| && LastGrantedAt(genesis, front, i, active.workId, active.authorityRef.value) {
          assert front[..i] == steps[..i];
          NoExitExtends(genesis, front, last, i + 1);
          assert LastGrantedAt(genesis, steps, i, active.workId, active.authorityRef.value);
        } else {
          NoExitExtends(genesis, front, last, 0);
        }
      }
    }
  }

  lemma NoExitAtAll(genesis: PortfolioState)
    ensures NoExitFrom(genesis, [], 0)
  {
  }

  lemma NoExitAfterLast(genesis: PortfolioState, steps: seq<LaneStep>)
    ensures NoExitFrom(genesis, steps, |steps|)
  {
  }

  lemma NoExitExtends(genesis: PortfolioState, front: seq<LaneStep>, last: LaneStep, i: nat)
    requires NoExitFrom(genesis, front, i) && Run(genesis, front).Some?
    requires !ExitsByGrant(Run(genesis, front).value.state, last)
    ensures NoExitFrom(genesis, front + [last], i)
  {
    hide ExitsByGrant, Run;
    var steps := front + [last];
    assert steps[..|front|] == front;
    assert forall j | 0 <= j < |front| :: steps[..j] == front[..j];
  }

  /** Along a run, a work item leaves a human gate while staying Active only under a bound grant, whose
      reference it then carries, or by a decision to rework or failed, which leaves it without authority. */
  lemma GateExits(genesis: PortfolioState, steps: seq<LaneStep>, i: nat)
    requires GoodRun(genesis, steps) && i < |steps|
    ensures GoodRun(genesis, steps[..i]) && GoodRun(genesis, steps[..i + 1])
    ensures AuthorityAccounted(Run(genesis, steps[..i]).value.state, steps[i],
                               Run(genesis, steps[..i + 1]).value.state.active)
  {
    hide Take, WellBuilt, AuthorityAccounted, PortfolioState.Valid;
    RunPrefix(genesis, steps, i + 1);
    var front, last := RunUnfold(genesis, steps[..i + 1]);
    assert front == steps[..i] && last == steps[i];
    RunKeepsPortfolio(genesis, front);
    StepAuthority(Run(genesis, front).value, last);
  }
}
