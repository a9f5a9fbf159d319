/**
  The values the lane machine works on: portfolio entries and states (portfolio_state.py), transition
  rules and policies (transition_policy.py) and execution checkpoints (execution_checkpoint.py).  Each
  `Valid` is what the Python constructor of that class insists on, apart from the format of its texts.
 */
module Portfolio {
  import opened Canonical
  import opened Ordering
  import opened Text

  datatype Role = ActiveRole | SecondaryRole | PassiveRole

  datatype Lifecycle = Ready | Running | Verifying | Complete | WaitingExternal | Rework | DiRequired | HumanGate
    | Failed | Parked

  datatype BlockerKind = ExternalDependency | Time | Infrastructure | EvidenceMissing | Authorization | Authority | Unknown

  datatype PortfolioBlocker = PortfolioBlocker(kind: BlockerKind, detail: string, evidenceRefs: seq<string>)

  datatype WakeCondition = WakeCondition(kind: string, value: string)

  datatype PortfolioEntry = PortfolioEntry(
    workId: string, role: Role, state: Lifecycle, objective: string, activeGate: string, nextActionRef: string,
    sourceRevision: string, evidenceRequired: seq<string>, authorityBoundary: Option<string>,
    authorityRef: Option<string>, blockers: seq<PortfolioBlocker>, wakeCondition: Option<WakeCondition>,
    checkpointRef: Option<string>)
  {
    function WorkItem(): Charter {
      Charter(workId, objective, activeGate, sourceRevision, evidenceRequired, checkpointRef)
    }

    predicate Valid() {
      && (forall i, j | 0 <= i < j < |blockers| :: blockers[i] != blockers[j])
      && match role
         case ActiveRole =>
           && state != Parked
           && (wakeCondition.Some? ==> state == WaitingExternal)
           && (state == WaitingExternal ==> blockers != [])
           && (state == HumanGate ==>
                 authorityBoundary.Some? && exists b <- blockers :: b.kind == Authorization || b.kind == Authority)
         case SecondaryRole => state == Ready && blockers == [] && wakeCondition.None?
         case PassiveRole => state == Parked && blockers != [] && wakeCondition.Some?
    }
  }

  /** What makes a work item the same item wherever it stands: everything its lane and lifecycle do not decide */
  datatype Charter = Charter(workId: string, objective: string, activeGate: string, sourceRevision: string,
                             evidenceRequired: seq<string>, checkpointRef: Option<string>)

  const WORK_ORDER: (PortfolioEntry, PortfolioEntry) -> bool :=
    (a: PortfolioEntry, b: PortfolioEntry) => Before(a.workId, b.workId)

  datatype PortfolioState = PortfolioState(
    portfolioId: string, generation: nat, active: PortfolioEntry, secondary: PortfolioEntry,
    passive: seq<PortfolioEntry>, previousStateDigest: Option<Digest<PortfolioState>>)
  {
    /** What the state itself requires of valid entries */
    predicate WellFormed() {
      && active.role == ActiveRole
      && secondary.role == SecondaryRole
      && (forall e <- passive :: e.role == PassiveRole)
      && SortedBy(WORK_ORDER, passive)
      && active.workId != secondary.workId
      && (forall e <- passive :: e.workId != active.workId && e.workId != secondary.workId)
      && (generation == 0 <==> previousStateDigest.None?)
    }

    predicate Valid() {
      WellFormed() && active.Valid() && secondary.Valid() && forall e <- passive :: e.Valid()
    }

    function WorkItems(): set<Charter> { {active.WorkItem(), secondary.WorkItem()} + set e <- passive :: e.WorkItem() }
  }

  // ---------------------------------------------------------------- policies

  datatype Event = ExecutionStarted | ExecutionCompleted | VerificationPassed | VerificationFailed | ExternalBlocker
    | DiagnosisRequired | AuthorityRequired | WakeSatisfied | FatalFailure

  datatype Effect = NoEffect | PromoteSecondary | ParkActive | WakePassive | RequestDi | StopHumanGate

  datatype AuthorityMode = NoAuthority | PreauthorizedRequired | HumanRequired

  datatype TransitionRule = TransitionRule(
    ruleId: string, fromState: Lifecycle, event: Event, toState: Lifecycle, nextActionRef: string, effect: Effect,
    requiredEvidence: seq<string>, authorityMode: AuthorityMode, authorityBoundary: Option<string>)
  {
    predicate Valid() {
      && !Blank(nextActionRef)
      && (authorityMode == NoAuthority <==> authorityBoundary.None?)
      && (authorityMode == HumanRequired ==> toState == HumanGate && effect == StopHumanGate)
      && (fromState == HumanGate ==> authorityMode == PreauthorizedRequired)
      && (effect == PromoteSecondary ==> event == VerificationPassed && toState == Complete)
      && (effect == ParkActive ==> event == ExternalBlocker && toState == Parked)
      && (effect == WakePassive ==> fromState == Parked && event == WakeSatisfied && toState == Ready)
      && (effect == RequestDi ==> toState == DiRequired)
      && (effect == StopHumanGate ==> authorityMode == HumanRequired)
    }
  }

  datatype TransitionPolicy = TransitionPolicy(policyId: string, revision: string, rules: seq<TransitionRule>)
  {
    predicate Valid() {
      && rules != []
      && (forall r <- rules :: r.Valid())
      && (forall i, j | 0 <= i < j < |rules| :: Before(rules[i].ruleId, rules[j].ruleId))
      && (forall i, j | 0 <= i < j < |rules| :: (rules[i].fromState, rules[i].event) != (rules[j].fromState, rules[j].event))
    }
  }

  function MatchingRules(rules: seq<TransitionRule>, from: Lifecycle, event: Event): (r: seq<TransitionRule>)
    ensures forall x <- r :: x in rules && x.fromState == from && x.event == event
  {
    if rules == [] then []
    else (if rules[0].fromState == from && rules[0].event == event then [rules[0]] else [])
         + MatchingRules(rules[1..], from, event)
  }

  function MatchTransitionRule(policy: TransitionPolicy, from: Lifecycle, event: Event): (r: Option<TransitionRule>)
    ensures r.Some? ==> r.value in policy.rules && r.value.fromState == from && r.value.event == event
  {
    var matches := MatchingRules(policy.rules, from, event);
    if |matches| != 1 then None else
      assert matches[0] in matches;
      Some(matches[0])
  }

  /** In a valid policy a state and an event never match two rules, so matching is a lookup. */
  lemma MatchIsLookup(policy: TransitionPolicy, from: Lifecycle, event: Event, rule: TransitionRule)
    requires policy.Valid()
    ensures MatchTransitionRule(policy, from, event) == Some(rule)
       <==> rule in policy.rules && rule.fromState == from && rule.event == event
  {
    if rule in policy.rules && rule.fromState == from && rule.event == event {
      OnlyMatch(policy.rules, rule);
    }
  }

  lemma {:induction false} OnlyMatch(rules: seq<TransitionRule>, rule: TransitionRule)
    requires forall i, j | 0 <= i < j < |rules| ::
               (rules[i].fromState, rules[i].event) != (rules[j].fromState, rules[j].event)
    ensures rule in rules ==> MatchingRules(rules, rule.fromState, rule.event) == [rule]
    ensures (forall x <- rules :: (x.fromState, x.event) != (rule.fromState, rule.event)) ==>
              MatchingRules(rules, rule.fromState, rule.event) == []
  {
    if rules != [] {
      var head, tail := rules[0], rules[1..];
      assert rules == [head] + tail;
      OnlyMatch(tail, rule);
      forall x | x in tail ensures (x.fromState, x.event) != (head.fromState, head.event) {
        var k :| 0 <= k < |tail| && tail[k] == x;
        assert rules[k + 1] == x;
      }
    }
  }

  // ---------------------------------------------------------------- checkpoints

  datatype HumanGateDecisionKind = Reject | Supersede

  datatype HumanGateDecision = HumanGateDecision(
    eventId: string, portfolioId: string, expectedGeneration: nat, expectedStateDigest: Digest<PortfolioState>,
    pendingActionRef: string, decision: HumanGateDecisionKind, reason: string, targetState: Lifecycle,
    nextActionRef: string, observedAt: string, evidence: seq<CheckpointEvidence>, canonicalRefs: seq<Reference>)

  datatype HumanGateDecisionReceipt = HumanGateDecisionReceipt(
    eventId: string, portfolioId: string, expectedGeneration: nat, expectedStateDigest: Digest<PortfolioState>,
    pendingActionRef: string, authorityBoundary: string, decision: HumanGateDecisionKind,
    decisionDigest: Digest<HumanGateDecision>, targetState: Lifecycle, nextActionRef: string, providerActor: string,
    decisionRef: string)

  /** The digest of evidence a caller brings is foreign text; a human decision adds evidence of its own receipt. */
  datatype CheckpointEvidence = CheckpointEvidence(kind: string, locator: string, digest: Digest<HumanGateDecisionReceipt>)

  /** A canonical reference is caller text or names the policy and the rule of a transition. */
  datatype Reference = TextRef(text: string) | PolicyRef(policy: Digest<TransitionPolicy>) | RuleRef(rule: Digest<TransitionRule>)

  predicate BlankRef(r: Reference) { r.TextRef? && Blank(r.text) }

  lemma DistinctShort<T>(x: T)
    ensures Distinct([x]) && Distinct<T>([])
  {
  }

  datatype ExecutionCheckpoint = ExecutionCheckpoint(
    portfolioId: string, portfolioGeneration: nat, portfolioStateDigest: Digest<PortfolioState>, workId: string,
    role: Role, stateBefore: Lifecycle, stateAfter: Lifecycle, actionRef: string, sourceRevision: string,
    observedAt: string, summary: string, evidence: seq<CheckpointEvidence>, canonicalRefs: seq<Reference>,
    uncertainties: seq<string>, nextTransitionRefs: seq<string>, authorityStop: bool, authorityBoundary: Option<string>)
  {
    predicate Valid() {
      && !Blank(actionRef) && !Blank(observedAt) && !Blank(summary)
      && evidence != [] && Distinct(evidence)
      && canonicalRefs != [] && Distinct(canonicalRefs) && (forall r <- canonicalRefs :: !BlankRef(r))
      && Distinct(uncertainties) && (forall u <- uncertainties :: !Blank(u))
      && Distinct(nextTransitionRefs) && (forall n <- nextTransitionRefs :: !Blank(n))
      && (if authorityStop then
            authorityBoundary.Some? && stateAfter == HumanGate && nextTransitionRefs == []
          else
            authorityBoundary.None? && (nextTransitionRefs != [] || stateAfter == Complete || stateAfter == Failed))
      && (role == PassiveRole ==> stateAfter == Parked)
    }

    predicate Binds(state: PortfolioState) {
      && portfolioId == state.portfolioId
      && portfolioGeneration == state.generation
      && portfolioStateDigest == Sha256(state)
    }
  }
}
