/**
  When a transition of the Active work item is accepted and what it then makes, in terms of the rule, the evidence,
  the authority and the lanes before it; and what that means for every step of a run.
 */
module LaneLaws {
  import opened Canonical
  import opened Ordering
  import opened Text
  import opened Portfolio
  import opened AspTransition
  import opened LaneSafety
  import opened HumanGateDecisions
  import opened LaneRuns

  // ---------------------------------------------------------------- rules, evidence and authority

  ghost predicate Carries(evidence: set<CheckpointEvidence>, kind: string) { exists e <- evidence :: e.kind == kind }

  /** There is evidence, of every kind that the rule asks for and that its effect needs whatever the rule asks for. */
  ghost predicate Supports(evidence: set<CheckpointEvidence>, rule: TransitionRule) {
    && evidence != {}
    && (forall kind <- rule.requiredEvidence :: Carries(evidence, kind))
    && (rule.effect == PromoteSecondary ==> Carries(evidence, "verifier_pass"))
    && (rule.effect == ParkActive ==> Carries(evidence, "external_blocker") && Carries(evidence, "no_internal_work"))
    && (rule.effect == WakePassive ==> Carries(evidence, "wake_condition_satisfied"))
  }

  /** A rule that needs prior authority gets a grant made for it, this policy and its boundary; any other rule none. */
  ghost predicate Authorizes(grant: Option<TransitionAuthorityGrant>, policy: TransitionPolicy, rule: TransitionRule) {
    if rule.authorityMode == PreauthorizedRequired then
      && grant.Some?
      && grant.value.policyDigest == Sha256(policy) && grant.value.ruleDigest == Sha256(rule)
      && rule.authorityBoundary == Some(grant.value.authorityBoundary)
    else grant.None?
  }

  lemma KindsSuffice(rule: TransitionRule, evidence: set<CheckpointEvidence>)
    ensures KindsProblem(rule, evidence).None? <==> Supports(evidence, rule)
  {
    forall kind: string ensures kind in Kinds(evidence) <==> Carries(evidence, kind) {
    }
    assert (forall kind <- rule.requiredEvidence :: Carries(evidence, kind))
      <==> (set k | k in rule.requiredEvidence) <= Kinds(evidence);
  }

  /** The policy's rule for what happens to Active, supported by evidence and authority */
  ghost predicate Rules(state: PortfolioState, request: TransitionRequest, rule: TransitionRule) {
    && !Blank(request.actionRef) && !Blank(request.observedAt) && !Blank(request.summary) && request.canonicalRefs != []
    && rule in request.policy.rules && rule.fromState == state.active.state && rule.event == request.event
    && rule.effect != WakePassive
    && (forall i, j | 0 <= i < j < |request.evidence| :: request.evidence[i] != request.evidence[j])
    && Supports((set e <- request.evidence), rule)
    && Authorizes(request.authorityGrant, request.policy, rule)
  }

  lemma AuthorityExactly(policy: TransitionPolicy, rule: TransitionRule, grant: Option<TransitionAuthorityGrant>)
    ensures AuthorityProblem(policy, rule, grant).None? <==> Authorizes(grant, policy, rule)
  {
  }

  lemma EvidenceExactly(rule: TransitionRule, evidence: seq<CheckpointEvidence>)
    ensures EvidenceProblem(rule, evidence).None?
       <==> Supports((set e <- evidence), rule) && forall i, j | 0 <= i < j < |evidence| :: evidence[i] != evidence[j]
  {
    hide KindsProblem;
    KindsSuffice(rule, Collected(evidence));
    assert Collected(evidence) == set e <- evidence;
    assert evidence != [] ==> evidence[0] in Collected(evidence);
  }

  lemma AdmitsRuleExactly(state: PortfolioState, request: TransitionRequest, rule: TransitionRule)
    requires request.policy.Valid()
    ensures AdmittedRule(state, request) == Success(rule) <==> Rules(state, request, rule)
  {
    hide Blank, EvidenceProblem, AuthorityProblem, MatchTransitionRule, TransitionPolicy.Valid, Supports, Authorizes;
    MatchIsLookup(request.policy, state.active.state, request.event, rule);
    EvidenceExactly(rule, request.evidence);
    AuthorityExactly(request.policy, rule, request.authorityGrant);
  }

  // ---------------------------------------------------------------- waking

  /** The passive item of this id and the policy's rule for waking one, supported by evidence and authority */
  ghost predicate Wakes(state: PortfolioState, policy: TransitionPolicy, workId: string, item: PortfolioEntry,
                        rule: TransitionRule, evidence: set<CheckpointEvidence>, grant: Option<TransitionAuthorityGrant>)
  {
    && item in state.passive && item.workId == workId && item.wakeCondition.Some?
    && rule in policy.rules && rule.fromState == Parked && rule.event == WakeSatisfied && rule.effect == WakePassive
    && Supports(evidence, rule) && Authorizes(grant, policy, rule)
  }

  ghost predicate AdmissionFor(a: PassiveWakeAdmission, state: PortfolioState, policy: TransitionPolicy, item: PortfolioEntry,
                               rule: TransitionRule)
  {
    && a.portfolioId == state.portfolioId && a.portfolioGeneration == state.generation
    && a.portfolioStateDigest == Sha256(state) && a.workId == item.workId
    && item.wakeCondition.Some? && a.wakeConditionDigest == Sha256(item.wakeCondition.value)
    && a.policyDigest == Sha256(policy) && a.ruleDigest == Sha256(rule) && a.nextActionRef == rule.nextActionRef
  }

  lemma FindsExactly(state: PortfolioState, workId: string, item: PortfolioEntry)
    requires state.Valid()
    ensures FindPassive(state, workId) == Some(item) <==> item in state.passive && item.workId == workId
  {
    hide SortedBy, PortfolioEntry.Valid;
    if item in state.passive && item.workId == workId {
      OnlyWithWorkId(state.passive, item);
    }
  }

  lemma {:induction false} OnlyWithWorkId(entries: seq<PortfolioEntry>, item: PortfolioEntry)
    requires SortedBy(WORK_ORDER, entries)
    ensures item in entries ==> WithWorkId(entries, item.workId) == [item]
    ensures (forall e <- entries :: e.workId != item.workId) ==> WithWorkId(entries, item.workId) == []
  {
    hide SortedBy;
    if entries != [] {
      var head, tail := entries[0], entries[1..];
      assert entries == [head] + tail;
      SortedTail(WORK_ORDER, head, tail);
      OnlyWithWorkId(tail, item);
      WorkOrder();
      forall e | e in tail ensures e.workId != head.workId {
        SameWorkSameOrder(head, e);
      }
    }
  }

  /** A passive item and a rule of the policy for satisfied wake conditions; a valid state and a valid policy have at
      most one of each. */
  ghost predicate Candidates(state: PortfolioState, policy: TransitionPolicy, workId: string, item: PortfolioEntry,
                             rule: TransitionRule)
  {
    && item in state.passive && item.workId == workId
    && rule in policy.rules && rule.fromState == Parked && rule.event == WakeSatisfied
  }

  lemma CandidatesFound(state: PortfolioState, policy: TransitionPolicy, workId: string, item: PortfolioEntry, rule: TransitionRule)
    requires state.Valid() && policy.Valid()
    ensures Candidates(state, policy, workId, item, rule)
       <==> FindPassive(state, workId) == Some(item) && MatchTransitionRule(policy, Parked, WakeSatisfied) == Some(rule)
    ensures Candidates(state, policy, workId, item, rule) ==> item.wakeCondition.Some?
  {
    hide FindPassive, MatchTransitionRule, TransitionPolicy.Valid, SortedBy;
    FindsExactly(state, workId, item);
    MatchIsLookup(policy, Parked, WakeSatisfied, rule);
  }

  /** A passive item may be woken if and only if the policy's rule for it is a waking rule that evidence and authority
      support; the admission names the state, the item, what it waits for and the rule. */
  lemma AdmitsWakeExactly(state: PortfolioState, policy: TransitionPolicy, workId: string, evidence: seq<CheckpointEvidence>,
                          grant: Option<TransitionAuthorityGrant>, item: PortfolioEntry, rule: TransitionRule)
    requires state.Valid() && policy.Valid() && Candidates(state, policy, workId, item, rule)
    ensures var r, given := AdmitPassiveWake(state, policy, workId, evidence, grant), (set e <- evidence);
            && (r.Success? <==>
                  && (forall i, j | 0 <= i < j < |evidence| :: evidence[i] != evidence[j])
                  && Wakes(state, policy, workId, item, rule, given, grant))
            && (r.Success? ==>
                  && AdmissionFor(r.value, state, policy, item, rule) && r.value.evidence == given && r.value.authorityGrant == grant)
  {
    hide EvidenceProblem, AuthorityProblem, MatchTransitionRule, TransitionPolicy.Valid, Supports, Authorizes, FindPassive,
         PortfolioState.Valid;
    CandidatesFound(state, policy, workId, item, rule);
    EvidenceExactly(rule, evidence);
    AuthorityExactly(policy, rule, grant);
    assert Collected(evidence) == set e <- evidence;
  }

  /** The woken item: the same work, on deck, with the rule's next action and nothing it waits for */
  function OnDeck(item: PortfolioEntry, rule: TransitionRule): PortfolioEntry {
    PortfolioEntry(item.workId, SecondaryRole, Ready, item.objective, item.activeGate, rule.nextActionRef,
                   item.sourceRevision, item.evidenceRequired, None, None, [], None, item.checkpointRef)
  }

  /** An admission is consumed if and only if it names this very state, what the item waits for and the policy's waking
      rule, and carries evidence and authority for that rule; the item then comes on deck. */
  lemma ConsumesWakeExactly(state: PortfolioState, policy: TransitionPolicy, a: PassiveWakeAdmission, item: PortfolioEntry,
                            rule: TransitionRule)
    requires state.Valid() && policy.Valid() && Candidates(state, policy, a.workId, item, rule)
    ensures var r := SecondaryFromWake(state, policy, a);
            && (r.Success? <==>
                  && Wakes(state, policy, a.workId, item, rule, a.evidence, a.authorityGrant)
                  && AdmissionFor(a, state, policy, item, rule))
            && (r.Success? ==> r.value.0 == OnDeck(item, rule))
  {
    hide KindsProblem, AuthorityProblem, MatchTransitionRule, TransitionPolicy.Valid, Supports, Authorizes, FindPassive,
         PortfolioState.Valid, SortBy;
    CandidatesFound(state, policy, a.workId, item, rule);
    KindsSuffice(rule, a.evidence);
    AuthorityExactly(policy, rule, a.authorityGrant);
    WokenIsValid(item, rule);
    hide PortfolioEntry.Valid;
  }

  /** Neither goes without an item and a rule. */
  lemma WakeNeedsCandidates(state: PortfolioState, policy: TransitionPolicy, workId: string, evidence: seq<CheckpointEvidence>,
                            grant: Option<TransitionAuthorityGrant>, a: PassiveWakeAdmission)
    returns (item: PortfolioEntry, rule: TransitionRule)
    requires state.Valid() && policy.Valid()
    requires || AdmitPassiveWake(state, policy, workId, evidence, grant).Success?
             || (a.workId == workId && SecondaryFromWake(state, policy, a).Success?)
    ensures Candidates(state, policy, workId, item, rule)
  {
    hide EvidenceProblem, KindsProblem, AuthorityProblem, MatchTransitionRule, TransitionPolicy.Valid, FindPassive,
         PortfolioState.Valid, PortfolioEntry.Valid, SortBy;
    item := FindPassive(state, workId).value;
    rule := MatchTransitionRule(policy, Parked, WakeSatisfied).value;
    CandidatesFound(state, policy, workId, item, rule);
  }

  // ---------------------------------------------------------------- the lanes after a step

  ghost predicate WakesBy(state: PortfolioState, policy: TransitionPolicy, a: PassiveWakeAdmission) {
    exists item, rule ::
      && Candidates(state, policy, a.workId, item, rule)
      && Wakes(state, policy, a.workId, item, rule, a.evidence, a.authorityGrant) && AdmissionFor(a, state, policy, item, rule)
  }

  /** Active can stand in the target state with the blockers and the wake condition it would then have. */
  ghost predicate CanStand(entry: PortfolioEntry, target: Lifecycle) {
    if entry.state == HumanGate then target !in {Parked, WaitingExternal, HumanGate}
    else if entry.state == WaitingExternal && target != WaitingExternal then target !in {Parked, HumanGate}
    else
      && target != Parked
      && (entry.wakeCondition.Some? ==> target == WaitingExternal)
      && (target == WaitingExternal ==> entry.blockers != [])
      && (target == HumanGate ==>
            entry.authorityBoundary.Some? && exists b <- entry.blockers :: b.kind == Authorization || b.kind == Authority)
  }

  /** Promotion and parking consume a wake admission, and parking an Active that waits for something outside; no other
      step consumes one, and unless it stops at a human gate it must lead to a state Active can stand in. */
  ghost predicate LanesAllow(state: PortfolioState, request: TransitionRequest, rule: TransitionRule) {
    && request.replacementSecondary.None?
    && if rule.effect == PromoteSecondary || rule.effect == ParkActive then
         && request.wakeAdmission.Some? && WakesBy(state, request.policy, request.wakeAdmission.value)
         && (rule.effect == ParkActive ==> state.active.state == WaitingExternal && state.active.wakeCondition.Some?)
       else
         request.wakeAdmission.None? && (rule.effect != StopHumanGate ==> CanStand(state.active, rule.toState))
  }

  /** Secondary takes over, ready and without authority of its own. */
  function TakesOver(entry: PortfolioEntry): PortfolioEntry {
    PortfolioEntry(entry.workId, ActiveRole, Ready, entry.objective, entry.activeGate, entry.nextActionRef,
                   entry.sourceRevision, entry.evidenceRequired, None, None, [], None, entry.checkpointRef)
  }

  /** Active steps back with what it waits for. */
  function StepsBack(entry: PortfolioEntry, rule: TransitionRule): PortfolioEntry {
    PortfolioEntry(entry.workId, PassiveRole, Parked, entry.objective, entry.activeGate, rule.nextActionRef,
                   entry.sourceRevision, entry.evidenceRequired, None, None, entry.blockers, entry.wakeCondition,
                   entry.checkpointRef)
  }

  /** Active stops for a human, blocked on the rule's boundary with the evidence at hand. */
  ghost predicate StopsFor(after: PortfolioEntry, entry: PortfolioEntry, rule: TransitionRule, evidence: seq<CheckpointEvidence>) {
    && rule.authorityBoundary.Some? && |after.blockers| == 1
    && after == PortfolioEntry(entry.workId, entry.role, HumanGate, entry.objective, entry.activeGate, rule.nextActionRef,
                               entry.sourceRevision, entry.evidenceRequired, rule.authorityBoundary, None, after.blockers,
                               None, entry.checkpointRef)
    && var blocker := after.blockers[0];
       && blocker.kind == Authority && blocker.detail == rule.authorityBoundary.value
       && Increasing(blocker.evidenceRefs)
       && forall ref :: ref in blocker.evidenceRefs <==> exists e <- evidence :: e.locator == ref
  }

  /** Active moves on: out of a gate with the grant's authority, out of waiting with nothing left to wait for, and
      otherwise as it stands. */
  function MovesOn(entry: PortfolioEntry, rule: TransitionRule, grant: Option<TransitionAuthorityGrant>): PortfolioEntry {
    var clears := entry.state == HumanGate || (entry.state == WaitingExternal && rule.toState != WaitingExternal);
    PortfolioEntry(entry.workId, entry.role, rule.toState, entry.objective, entry.activeGate, rule.nextActionRef,
                   entry.sourceRevision, entry.evidenceRequired,
                   if entry.state == HumanGate then None else entry.authorityBoundary,
                   if entry.state == HumanGate && grant.Some? then Some(grant.value.authorityRef) else entry.authorityRef,
                   if clears then [] else entry.blockers, if clears then None else entry.wakeCondition, entry.checkpointRef)
  }

  ghost predicate LanesAre(state: PortfolioState, request: TransitionRequest, rule: TransitionRule, active: PortfolioEntry,
                           secondary: PortfolioEntry, passive: seq<PortfolioEntry>)
  {
    if rule.effect == PromoteSecondary || rule.effect == ParkActive then
      && request.wakeAdmission.Some?
      && active == TakesOver(state.secondary)
      && (exists item, wake ::
            && Candidates(state, request.policy, request.wakeAdmission.value.workId, item, wake) && secondary == OnDeck(item, wake))
      && SortedBy(WORK_ORDER, passive)
      && forall e :: e in passive <==> || (e in state.passive && e.workId != secondary.workId)
                                       || (rule.effect == ParkActive && e == StepsBack(state.active, rule))
    else
      && secondary == state.secondary && passive == state.passive
      && if rule.effect == StopHumanGate then StopsFor(active, state.active, rule, request.evidence)
         else active == MovesOn(state.active, rule, request.authorityGrant)
  }

  lemma LanesExactly(state: PortfolioState, request: TransitionRequest, rule: TransitionRule)
    requires state.Valid() && request.policy.Valid() && AdmittedRule(state, request) == Success(rule)
    ensures var r := NextLanes(state, request, rule);
            && (r.Success? <==> LanesAllow(state, request, rule))
            && (r.Success? ==> LanesAre(state, request, rule, r.value.active, r.value.secondary, r.value.passive))
  {
    AdmittedRuleIsValid(state, request);
    hide AdmittedRule, RotatedLanes, TransitionPolicy.Valid, MovedActive, AuthorityStoppedActive, LanesAre, LanesAllow;
    if Rotating(rule.effect) {
      RotatesExactly(state, request, rule);
    } else if rule.effect == StopHumanGate {
      StopsExactly(state.active, rule, request.evidence);
      hide LanesAre, LanesAllow;
      StaysExactly(state, request, rule);
    } else {
      MovesExactly(state.active, rule, request.policy, request.authorityGrant);
      StaysExactly(state, request, rule);
    }
  }

  lemma StaysExactly(state: PortfolioState, request: TransitionRequest, rule: TransitionRule)
    requires !Rotating(rule.effect)
    requires rule.effect == StopHumanGate ==>
               var r := AuthorityStoppedActive(state.active, rule, request.evidence);
               r.Success? && StopsFor(r.value, state.active, rule, request.evidence)
    requires rule.effect != StopHumanGate ==>
               var r := MovedActive(state.active, rule, request.authorityGrant);
               && (r.Success? <==> CanStand(state.active, rule.toState))
               && (r.Success? ==> r.value == MovesOn(state.active, rule, request.authorityGrant))
    ensures var r := NextLanes(state, request, rule);
            && (r.Success? <==> LanesAllow(state, request, rule))
            && (r.Success? ==> LanesAre(state, request, rule, r.value.active, r.value.secondary, r.value.passive))
  {
    hide AuthorityStoppedActive, MovedActive, StopsFor, CanStand, MovesOn;
  }

  lemma StopsExactly(entry: PortfolioEntry, rule: TransitionRule, evidence: seq<CheckpointEvidence>)
    requires entry.Valid() && entry.role == ActiveRole && rule.Valid() && rule.effect == StopHumanGate
    ensures var r := AuthorityStoppedActive(entry, rule, evidence);
            r.Success? && StopsFor(r.value, entry, rule, evidence)
  {
    hide Sorted, Blank;
  }

  lemma MovesExactly(entry: PortfolioEntry, rule: TransitionRule, policy: TransitionPolicy, grant: Option<TransitionAuthorityGrant>)
    requires entry.Valid() && entry.role == ActiveRole && rule.Valid() && rule.fromState == entry.state
    requires AuthorityProblem(policy, rule, grant).None?
    ensures var r := MovedActive(entry, rule, grant);
            && (r.Success? <==> CanStand(entry, rule.toState))
            && (r.Success? ==> r.value == MovesOn(entry, rule, grant))
  {
    hide Blank, GrantBinds;
  }

  lemma RotatesExactly(state: PortfolioState, request: TransitionRequest, rule: TransitionRule)
    requires state.Valid() && request.policy.Valid() && Rotating(rule.effect)
    ensures var r := NextLanes(state, request, rule);
            && (r.Success? <==> LanesAllow(state, request, rule))
            && (r.Success? ==> LanesAre(state, request, rule, r.value.active, r.value.secondary, r.value.passive))
  {
    hide SecondaryFromWake, SortBy, SortedBy, StrictOrder, TransitionPolicy.Valid, WakesBy, Candidates;
    if request.wakeAdmission.Some? {
      var a := request.wakeAdmission.value;
      WakesByExactly(state, request.policy, a);
      if SecondaryFromWake(state, request.policy, a).Success? {
        WokenShape(state, request.policy, a);
        var rest := SecondaryFromWake(state, request.policy, a).value.1;
        if rule.effect == ParkActive && ParkedActive(state.active, rule).Success? {
          ParkedInOrder(rest, ParkedActive(state.active, rule).value);
        }
      }
    }
  }

  lemma WakesByExactly(state: PortfolioState, policy: TransitionPolicy, a: PassiveWakeAdmission)
    requires state.Valid() && policy.Valid()
    ensures var r := SecondaryFromWake(state, policy, a);
            && (r.Success? <==> WakesBy(state, policy, a))
            && (r.Success? ==> exists item, wake :: Candidates(state, policy, a.workId, item, wake) && r.value.0 == OnDeck(item, wake))
  {
    hide SecondaryFromWake, Candidates, Wakes, AdmissionFor, PortfolioState.Valid, TransitionPolicy.Valid;
    if SecondaryFromWake(state, policy, a).Success? {
      var item, rule := WakeNeedsCandidates(state, policy, a.workId, [], None, a);
      ConsumesWakeExactly(state, policy, a, item, rule);
    }
    if item, rule :| && Candidates(state, policy, a.workId, item, rule)
                     && Wakes(state, policy, a.workId, item, rule, a.evidence, a.authorityGrant)
                     && AdmissionFor(a, state, policy, item, rule) {
      ConsumesWakeExactly(state, policy, a, item, rule);
    }
  }

  // ---------------------------------------------------------------- one step

  /** Some occurrence of `x` comes before every occurrence of `y`. */
  ghost predicate Precedes(s: seq<Reference>, x: Reference, y: Reference) { exists p | 0 <= p < |s| :: s[p] == x && y !in s[..p] }

  /** Keeping first occurrences keeps their order. */
  lemma {:induction false} FirstOccurrencesInOrder(s: seq<Reference>)
    ensures forall i, j | 0 <= i < j < |Deduplicated(s)| :: Precedes(s, Deduplicated(s)[i], Deduplicated(s)[j])
  {
    if s != [] {
      var front, last := s[..|s| - 1], s[|s| - 1];
      assert s == front + [last];
      FirstOccurrencesInOrder(front);
      var r, r' := Deduplicated(s), Deduplicated(front);
      forall i, j | 0 <= i < j < |r| ensures Precedes(s, r[i], r[j]) {
        var p;
        if j < |r'| {
          assert r[i] == r'[i] && r[j] == r'[j];
          p :| 0 <= p < |front| && front[p] == r'[i] && r'[j] !in front[..p];
        } else {
          assert r'[i] in front;
          p :| 0 <= p < |front| && front[p] == r'[i];
          assert forall x <- front[..p] :: x in front;
        }
        assert s[..p] == front[..p] && s[p] == r[i];
      }
    }
  }

  /** The checkpoint of a step repeats the request, names the policy and the rule, and says where Active went and what
      may come next: nothing after a stop or an end. */
  ghost predicate CheckpointTells(c: ExecutionCheckpoint, state: PortfolioState, request: TransitionRequest, rule: TransitionRule,
                                  next: PortfolioState)
  {
    var stop := rule.authorityMode == HumanRequired;
    && (c.portfolioId, c.portfolioGeneration, c.portfolioStateDigest) == (next.portfolioId, next.generation, Sha256(next))
    && (c.workId, c.role, c.sourceRevision) == (state.active.workId, ActiveRole, state.active.sourceRevision)
    && (c.stateBefore, c.stateAfter) == (state.active.state, rule.toState)
    && (c.actionRef, c.observedAt, c.summary) == (request.actionRef, request.observedAt, request.summary)
    && c.evidence == request.evidence && c.uncertainties == request.uncertainties
    && RefersTo(c.canonicalRefs, request, rule)
    && c.nextTransitionRefs == (if stop || rule.toState == Complete || rule.toState == Failed then [] else [rule.nextActionRef])
    && (c.authorityStop <==> stop)
    && c.authorityBoundary == (if stop then rule.authorityBoundary else None)
  }

  /** The references, without repeats: the caller's, the policy, the rule and the grant's */
  ghost predicate RefersTo(refs: seq<Reference>, request: TransitionRequest, rule: TransitionRule) {
    && (forall i, j | 0 <= i < j < |refs| :: refs[i] != refs[j])
    && forall ref :: ref in refs <==>
         || (ref.TextRef? && ref.text in request.canonicalRefs)
         || ref == PolicyRef(Sha256(request.policy)) || ref == RuleRef(Sha256(rule))
         || (request.authorityGrant.Some? && ref == TextRef(request.authorityGrant.value.authorityRef))
  }

  lemma ReferencesExactly(request: TransitionRequest, rule: TransitionRule)
    ensures RefersTo(Deduplicated(TextRefs(request.canonicalRefs) + [PolicyRef(Sha256(request.policy)), RuleRef(Sha256(rule))]
                                  + (if request.authorityGrant.Some? then [TextRef(request.authorityGrant.value.authorityRef)] else [])),
                     request, rule)
  {
    var texts := TextRefs(request.canonicalRefs);
    forall ref ensures ref in texts <==> ref.TextRef? && ref.text in request.canonicalRefs {
      if ref.TextRef? && ref.text in request.canonicalRefs {
        var i :| 0 <= i < |request.canonicalRefs| && request.canonicalRefs[i] == ref.text;
        assert texts[i] == ref;
      }
    }
  }

  /** What an accepted step makes of a state */
  ghost predicate Makes(state: PortfolioState, request: TransitionRequest, rule: TransitionRule, r: PortfolioTransitionResult) {
    var next, rotates := r.newState, rule.effect == PromoteSecondary || rule.effect == ParkActive;
    && next.portfolioId == state.portfolioId && next.generation == state.generation + 1
    && next.previousStateDigest == Some(Sha256(state))
    && LanesAre(state, request, rule, next.active, next.secondary, next.passive)
    && CheckpointTells(r.checkpoint, state, request, rule, next)
    && r.previousStateDigest == Sha256(state) && r.policyDigest == Sha256(request.policy) && r.ruleDigest == Sha256(rule)
    && r.effect == rule.effect
    && r.replacementSecondaryWorkId == (if rotates then Some(next.secondary.workId) else None)
    && r.authorityGrantDigest == (if request.authorityGrant.Some? then Some(Sha256(request.authorityGrant.value)) else None)
    && r.wakeAdmissionDigest == (if rotates && request.wakeAdmission.Some? then Some(Sha256(request.wakeAdmission.value)) else None)
  }

  /** A transition is accepted if and only if the policy's rule for what happens to Active is supported by evidence and
      authority, the lanes allow its effect, and the caller's references and uncertainties are well formed; and it makes
      exactly what the rule says. */
  lemma StepsExactly(state: PortfolioState, request: TransitionRequest, rule: TransitionRule)
    requires state.Valid() && request.policy.Valid() && (request.authorityGrant.Some? ==> request.authorityGrant.value.Valid())
    requires rule in request.policy.rules && rule.fromState == state.active.state && rule.event == request.event
    ensures var r := ApplyActiveTransition(state, request);
            && (r.Success? <==> Rules(state, request, rule) && LanesAllow(state, request, rule) && CallerTexts(request))
            && (r.Success? ==> Makes(state, request, rule, r.value))
  {
    hide AdmittedRule, NextLanes, SortBy, SortedBy, LanesAllow, LanesAre, Rules, CallerTexts, TransitionPolicy.Valid, RefersTo,
         PortfolioEntry.Valid, ExecutionCheckpoint.Valid, CheckpointTells, NewCheckpoint, AuthorityProblem;
    AdmitsRuleExactly(state, request, rule);
    OnlyThisRule(state, request, rule);
    if AdmittedRule(state, request) == Success(rule) {
      LanesExactly(state, request, rule);
      var lanes := NextLanes(state, request, rule);
      AuthorityGiven(state, request, rule);
      if lanes.Success? {
        LanesKept(state, request, rule);
        SortedStays(lanes.value.passive);
        var next := NewState(state, lanes.value);
        CheckpointValidExactly(state, request, next);
        CheckpointMade(state, request, rule, next);
      }
    }
  }

  lemma OnlyThisRule(state: PortfolioState, request: TransitionRequest, rule: TransitionRule)
    requires request.policy.Valid()
    requires rule in request.policy.rules && rule.fromState == state.active.state && rule.event == request.event
    ensures AdmittedRule(state, request).Success? ==> AdmittedRule(state, request).value == rule
  {
    hide Blank, EvidenceProblem, AuthorityProblem, MatchTransitionRule, TransitionPolicy.Valid;
    MatchIsLookup(request.policy, state.active.state, request.event, rule);
  }

  lemma AuthorityGiven(state: PortfolioState, request: TransitionRequest, rule: TransitionRule)
    requires AdmittedRule(state, request) == Success(rule)
    ensures rule.authorityMode == PreauthorizedRequired <==> request.authorityGrant.Some?
    ensures Rotating(rule.effect) && NextLanes(state, request, rule).Success? ==> request.wakeAdmission.Some?
  {
    hide Blank, EvidenceProblem, MatchTransitionRule, SecondaryFromWake, ParkedActive;
  }

  lemma CheckpointMade(state: PortfolioState, request: TransitionRequest, rule: TransitionRule, next: PortfolioState)
    ensures CheckpointTells(NewCheckpoint(state, request, rule, next), state, request, rule, next)
  {
    hide Deduplicated, TextRefs, RefersTo;
    ReferencesExactly(request, rule);
  }

  lemma AcceptedHasARule(state: PortfolioState, request: TransitionRequest) returns (rule: TransitionRule)
    requires request.policy.Valid() && ApplyActiveTransition(state, request).Success?
    ensures rule in request.policy.rules && rule.fromState == state.active.state && rule.event == request.event
  {
    hide NextLanes, NewCheckpoint, ExecutionCheckpoint.Valid, PortfolioState.WellFormed;
    rule := AdmittedRule(state, request).value;
    AdmitsRuleExactly(state, request, rule);
  }

  /** A run goes on with every step that its head accepts, and with no other. */
  lemma RunsGoOn(genesis: PortfolioState, steps: seq<LaneStep>, step: LaneStep)
    requires GoodRun(genesis, steps) && WellBuilt(step)
    ensures var head := Run(genesis, steps).value;
            && (GoodRun(genesis, steps + [step]) <==> Take(head, step).Some?)
            && Run(genesis, steps + [step]) == Take(head, step)
            && (step.Transit? ==>
                  var r := ApplyActiveTransition(head.state, step.request);
                  Take(head, step) == if r.Success? then Some(LaneHead(r.value.newState, Some(r.value.checkpoint))) else None)
            && (step.Decide? ==>
                  var r := DecideHumanGate(head.state, head.checkpoint, step.decision, step.actor, step.decisionRef);
                  Take(head, step) == if r.Success? then Some(LaneHead(r.value.state, Some(r.value.checkpoint))) else None)
  {
    hide ApplyActiveTransition, DecideHumanGate, PortfolioState.Valid, WellBuilt;
    assert (steps + [step])[..|steps|] == steps;
  }

  /** Along every run each transition was supported by a rule of its policy, with the evidence and the authority the
      rule and its effect need, and made what the rule says. */
  lemma StepsOfARun(genesis: PortfolioState, steps: seq<LaneStep>, i: nat) returns (rule: TransitionRule)
    requires GoodRun(genesis, steps) && i < |steps| && steps[i].Transit?
    ensures Run(genesis, steps[..i]).Some? && Run(genesis, steps[..i + 1]).Some?
    ensures var before, request := Run(genesis, steps[..i]).value.state, steps[i].request;
            && Rules(before, request, rule) && LanesAllow(before, request, rule)
            && ApplyActiveTransition(before, request).Success?
            && Makes(before, request, rule, ApplyActiveTransition(before, request).value)
            && Run(genesis, steps[..i + 1]).value
               == LaneHead(ApplyActiveTransition(before, request).value.newState,
                           Some(ApplyActiveTransition(before, request).value.checkpoint))
  {
    hide Rules, LanesAllow, Makes, ApplyActiveTransition, PortfolioState.Valid, CallerTexts;
    RunPrefix(genesis, steps, i + 1);
    var front, last := RunUnfold(genesis, steps[..i + 1]);
    assert front == steps[..i] && last == steps[i];
    RunKeepsPortfolio(genesis, front);
    rule := AcceptedHasARule(Run(genesis, front).value.state, last.request);
    StepsExactly(Run(genesis, front).value.state, last.request, rule);
  }

  /** In particular a transition takes Active out of a human gate only under a grant made for the policy, the rule and
      its boundary; unless the lanes rotate, the item then stands where the rule says and carries that grant. */
  lemma GateLeftUnderGrant(genesis: PortfolioState, steps: seq<LaneStep>, i: nat) returns (rule: TransitionRule)
    requires GoodRun(genesis, steps) && i < |steps| && steps[i].Transit? && Run(genesis, steps[..i]).Some?
    requires Run(genesis, steps[..i]).value.state.active.state == HumanGate
    ensures Run(genesis, steps[..i + 1]).Some? && steps[i].request.authorityGrant.Some?
    ensures var before, request := Run(genesis, steps[..i]).value.state.active, steps[i].request;
            var after, grant := Run(genesis, steps[..i + 1]).value.state.active, request.authorityGrant.value;
            && rule in request.policy.rules && rule.fromState == HumanGate && rule.event == request.event
            && grant.policyDigest == Sha256(request.policy) && grant.ruleDigest == Sha256(rule)
            && rule.authorityBoundary == Some(grant.authorityBoundary)
            && (rule.effect != PromoteSecondary && rule.effect != ParkActive ==>
                  after.workId == before.workId && after.state == rule.toState && after.authorityRef == Some(grant.authorityRef))
  {
    hide Supports, LanesAllow, CheckpointTells, ApplyActiveTransition, Run, PortfolioState.Valid, StopsFor;
    rule := StepsOfARun(genesis, steps, i);
    assert steps[i] in steps;
    GateRules(steps[i].request.policy, rule);
  }

  lemma GateRules(policy: TransitionPolicy, rule: TransitionRule)
    requires policy.Valid() && rule in policy.rules && rule.fromState == HumanGate
    ensures rule.authorityMode == PreauthorizedRequired && rule.effect != StopHumanGate
  {
    hide Blank, Before;
    assert rule.Valid();
  }
}
