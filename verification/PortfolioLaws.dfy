/** What the validity of states, policies and checkpoints comes to, and that every run keeps it. */
module PortfolioLaws {
  import opened Canonical
  import opened Ordering
  import opened Text
  import opened Portfolio
  import opened AspTransition
  import opened LaneSafety
  import opened HumanGateDecisions
  import opened LaneRuns

  ghost predicate BlockedOnAuthority(e: PortfolioEntry) {
    e.authorityBoundary.Some? && exists b <- e.blockers :: b.kind == Authorization || b.kind == Authority
  }

  /** Three lanes of different work: one item Active and not parked, one on deck that waits for nothing, and parked items
      in id order, each with what it waits for and when to wake.  Active waits only with a blocker and stands at a human
      gate only blocked on authority. */
  ghost predicate Sane(s: PortfolioState) {
    && s.active.role == ActiveRole && s.active.state != Parked
    && (s.active.state == WaitingExternal ==> s.active.blockers != [])
    && (s.active.wakeCondition.Some? ==> s.active.state == WaitingExternal)
    && (s.active.state == HumanGate ==> BlockedOnAuthority(s.active))
    && s.secondary.role == SecondaryRole && s.secondary.state == Ready
    && s.secondary.blockers == [] && s.secondary.wakeCondition.None?
    && (forall e <- s.passive :: e.role == PassiveRole && e.state == Parked && e.blockers != [] && e.wakeCondition.Some?)
    && (forall e <- [s.active, s.secondary] + s.passive ::
          forall i, j | 0 <= i < j < |e.blockers| :: e.blockers[i] != e.blockers[j])
    && (forall i, j | 0 <= i < j < |s.passive| :: Before(s.passive[i].workId, s.passive[j].workId))
    && s.active.workId != s.secondary.workId
    && (forall e <- s.passive :: e.workId != s.active.workId && e.workId != s.secondary.workId)
    && (s.generation == 0 <==> s.previousStateDigest.None?)
  }

  lemma ValidIsSane(s: PortfolioState)
    ensures s.Valid() <==> Sane(s)
  {
    hide Before;
    var all := [s.active, s.secondary] + s.passive;
    assert all[0] == s.active && all[1] == s.secondary && s.active in all && s.secondary in all;
    assert forall e <- s.passive :: e in all;
    assert forall e <- all :: e == s.active || e == s.secondary || e in s.passive;
    if Sane(s) {
      forall i, j | 0 <= i < j < |s.passive| ensures WORK_ORDER(s.passive[i], s.passive[j]) {
        assert Before(s.passive[i].workId, s.passive[j].workId);
      }
    }
    if s.Valid() {
      forall i, j | 0 <= i < j < |s.passive| ensures Before(s.passive[i].workId, s.passive[j].workId) {
        assert WORK_ORDER(s.passive[i], s.passive[j]);
      }
    }
  }

  /** What a rule may be: a boundary goes with authority; a human rule stops at the gate and only such a rule does; the
      gate is left only with prior authority; promotion, parking and waking each have their one event and target. */
  ghost predicate SaneRule(r: TransitionRule) {
    && !Blank(r.nextActionRef)
    && (r.authorityBoundary.Some? <==> r.authorityMode != NoAuthority)
    && (r.authorityMode == HumanRequired <==> r.effect == StopHumanGate)
    && (r.effect == StopHumanGate ==> r.toState == HumanGate)
    && (r.fromState == HumanGate ==> r.authorityMode == PreauthorizedRequired)
    && (r.effect == PromoteSecondary ==> (r.event, r.toState) == (VerificationPassed, Complete))
    && (r.effect == ParkActive ==> (r.event, r.toState) == (ExternalBlocker, Parked))
    && (r.effect == WakePassive ==> (r.fromState, r.event, r.toState) == (Parked, WakeSatisfied, Ready))
    && (r.effect == RequestDi ==> r.toState == DiRequired)
  }

  lemma ValidPolicyIsSane(policy: TransitionPolicy)
    ensures policy.Valid()
       <==> && policy.rules != [] && (forall r <- policy.rules :: SaneRule(r))
            && (forall i, j | 0 <= i < j < |policy.rules| ::
                  && Before(policy.rules[i].ruleId, policy.rules[j].ruleId)
                  && (policy.rules[i].fromState, policy.rules[i].event) != (policy.rules[j].fromState, policy.rules[j].event))
  {
    hide Blank, Before;
    forall r: TransitionRule ensures r.Valid() <==> SaneRule(r) {
    }
    hide TransitionRule.Valid;
    hide SaneRule;
  }

  /** A checkpoint has evidence and references without repeats; it stops for authority at a human gate with nothing to
      follow, and otherwise says what follows unless the work is complete or failed. */
  ghost predicate SaneCheckpoint(c: ExecutionCheckpoint) {
    && !Blank(c.actionRef) && !Blank(c.observedAt) && !Blank(c.summary)
    && c.evidence != [] && (forall i, j | 0 <= i < j < |c.evidence| :: c.evidence[i] != c.evidence[j])
    && c.canonicalRefs != [] && (forall i, j | 0 <= i < j < |c.canonicalRefs| :: c.canonicalRefs[i] != c.canonicalRefs[j])
    && (forall r <- c.canonicalRefs :: r.TextRef? ==> !Blank(r.text))
    && (forall i, j | 0 <= i < j < |c.uncertainties| :: c.uncertainties[i] != c.uncertainties[j])
    && (forall u <- c.uncertainties :: !Blank(u))
    && (forall i, j | 0 <= i < j < |c.nextTransitionRefs| :: c.nextTransitionRefs[i] != c.nextTransitionRefs[j])
    && (forall n <- c.nextTransitionRefs :: !Blank(n))
    && (c.authorityStop <==> c.authorityBoundary.Some?)
    && (c.authorityStop ==> c.stateAfter == HumanGate && c.nextTransitionRefs == [])
    && (!c.authorityStop && c.nextTransitionRefs == [] ==> c.stateAfter == Complete || c.stateAfter == Failed)
    && (c.role == PassiveRole ==> c.stateAfter == Parked)
  }

  lemma ValidCheckpointIsSane(c: ExecutionCheckpoint)
    ensures c.Valid() <==> SaneCheckpoint(c)
  {
    hide Blank;
  }

  /** A decision names what it decides on and sends the item to rework, with an action of its own, or to failure, with
      none; a superseding one brings superseding evidence. */
  ghost predicate SaneDecision(d: HumanGateDecision) {
    && d.expectedGeneration != 0 && !Blank(d.observedAt) && !Blank(d.nextActionRef)
    && (match d.targetState
        case Rework => |d.nextActionRef| >= 9 && d.nextActionRef[..9] == "action://"
        case Failed => d.nextActionRef == "action://none"
        case _ => false)
    && d.evidence != [] && (forall i, j | 0 <= i < j < |d.evidence| :: d.evidence[i] != d.evidence[j])
    && (d.decision == Reject || exists e <- d.evidence :: e.kind == "superseding_evidence")
    && d.canonicalRefs != [] && (forall i, j | 0 <= i < j < |d.canonicalRefs| :: d.canonicalRefs[i] != d.canonicalRefs[j])
    && (forall r <- d.canonicalRefs :: r.TextRef? ==> !Blank(r.text))
  }

  lemma ValidDecisionIsSane(d: HumanGateDecision)
    ensures ValidDecision(d) <==> SaneDecision(d)
  {
    hide Blank;
    assert |"action://"| == 9;
  }

  /** Two entries are the same work exactly if they agree in everything but lane and lifecycle. */
  lemma SameWork(a: PortfolioEntry, b: PortfolioEntry)
    ensures a.WorkItem() == b.WorkItem()
       <==> && (a.workId, a.objective, a.activeGate) == (b.workId, b.objective, b.activeGate)
            && (a.sourceRevision, a.evidenceRequired, a.checkpointRef) == (b.sourceRevision, b.evidenceRequired, b.checkpointRef)
  {
  }

  lemma WorkOfAState(s: PortfolioState, c: Charter)
    ensures c in s.WorkItems() <==> exists e <- [s.active, s.secondary] + s.passive :: e.WorkItem() == c
  {
    hide PortfolioEntry.WorkItem;
    var all := [s.active, s.secondary] + s.passive;
    assert all[0] == s.active && all[1] == s.secondary && s.active in all && s.secondary in all;
    assert forall e <- s.passive :: e in all;
    assert forall e <- all :: e == s.active || e == s.secondary || e in s.passive;
  }

  /** Every run that starts with sane lanes ends with sane lanes and, after any step, with a sane checkpoint that names
      the state it was taken on. */
  lemma RunsStaySane(genesis: PortfolioState, steps: seq<LaneStep>)
    requires Sane(genesis) && genesis.generation == 0 && (forall s <- steps :: WellBuilt(s)) && Run(genesis, steps).Some?
    ensures var head := Run(genesis, steps).value;
            && Sane(head.state) && head.state.generation == |steps|
            && (head.checkpoint.Some? <==> steps != [])
            && (head.checkpoint.Some? ==>
                  && SaneCheckpoint(head.checkpoint.value)
                  && head.checkpoint.value.portfolioId == head.state.portfolioId
                  && head.checkpoint.value.portfolioGeneration == |steps|
                  && head.checkpoint.value.portfolioStateDigest == Sha256(head.state))
  {
    hide Sane, SaneCheckpoint, PortfolioState.Valid, ExecutionCheckpoint.Valid, Run, WellBuilt, PortfolioState.WorkItems;
    ValidIsSane(genesis);
    RunKeepsPortfolio(genesis, steps);
    var head := Run(genesis, steps).value;
    ValidIsSane(head.state);
    if head.checkpoint.Some? { ValidCheckpointIsSane(head.checkpoint.value); }
  }
}
