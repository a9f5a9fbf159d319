/** What one accepted step of the lane machine keeps. */
module LaneSafety {
  import opened Canonical
  import opened Ordering
  import opened Text
  import opened Portfolio
  import opened AspTransition

  // ---------------------------------------------------------------- passive items in id order

  lemma WorkOrder()
    ensures StrictOrder(WORK_ORDER)
    ensures forall a, b :: WORK_ORDER(a, b) || a.workId == b.workId || WORK_ORDER(b, a)
  {
    StringOrderIsTotal();
    forall a: PortfolioEntry, b: PortfolioEntry, c: PortfolioEntry
      ensures !WORK_ORDER(a, a)
      ensures WORK_ORDER(a, b) && WORK_ORDER(b, c) ==> WORK_ORDER(a, c)
      ensures WORK_ORDER(a, b) || a.workId == b.workId || WORK_ORDER(b, a)
    {
      assert !STRING_ORDER(a.workId, a.workId);
      assert STRING_ORDER(a.workId, b.workId) == WORK_ORDER(a, b);
      assert STRING_ORDER(b.workId, a.workId) == WORK_ORDER(b, a);
      assert STRING_ORDER(b.workId, c.workId) == WORK_ORDER(b, c);
      assert STRING_ORDER(a.workId, c.workId) == WORK_ORDER(a, c);
    }
  }

  lemma SortedStays(entries: seq<PortfolioEntry>)
    requires SortedBy(WORK_ORDER, entries)
    ensures SortBy(WORK_ORDER, entries) == entries
  {
    hide StrictOrder, SortBy;
    WorkOrder();
    SortedAndSame(WORK_ORDER, entries);
    SortedUnique(WORK_ORDER, SortBy(WORK_ORDER, entries), entries);
  }

  lemma {:induction false} WithoutOne(entries: seq<PortfolioEntry>, workId: string)
    requires SortedBy(WORK_ORDER, entries)
    ensures var rest := WithoutWorkId(entries, workId);
            && SortedBy(WORK_ORDER, rest)
            && (forall e :: e in rest <==> e in entries && e.workId != workId)
            && (if exists e <- entries :: e.workId == workId then |rest| == |entries| - 1 else rest == entries)
  {
    hide SortedBy, StrictOrder;
    if entries == [] {
    } else {
      var head, tail := entries[0], entries[1..];
      assert entries == [head] + tail;
      SortedTail(WORK_ORDER, head, tail);
      WithoutOne(tail, workId);
      if head.workId == workId {
        WorkOrder();
        forall e | e in tail ensures e.workId != workId {
          assert WORK_ORDER(head, e) && !WORK_ORDER(e, e);
          SameWorkSameOrder(head, e);
        }
        assert WithoutWorkId(entries, workId) == WithoutWorkId(tail, workId);
      } else {
        SortedCons(WORK_ORDER, head, WithoutWorkId(tail, workId));
      }
    }
  }

  lemma SameWorkSameOrder(a: PortfolioEntry, b: PortfolioEntry)
    ensures a.workId == b.workId ==> WORK_ORDER(a, b) == WORK_ORDER(b, b)
  {
  }

  /** Parking adds one item under a fresh id and keeps the others. */
  lemma ParkedInOrder(passive: seq<PortfolioEntry>, parked: PortfolioEntry)
    requires SortedBy(WORK_ORDER, passive) && forall e <- passive :: e.workId != parked.workId
    ensures var r := SortBy(WORK_ORDER, passive + [parked]);
            && SortedBy(WORK_ORDER, r) && |r| == |passive| + 1
            && forall e :: e in r <==> e == parked || e in passive
  {
    hide SortBy, StrictOrder;
    WorkOrder();
    var all := passive + [parked];
    forall i, j | 0 <= i < j < |all| ensures WORK_ORDER(all[i], all[j]) || WORK_ORDER(all[j], all[i]) {
      assert j == |passive| ==> all[i] in passive;
    }
    SortedAndSame(WORK_ORDER, all);
  }

  // ---------------------------------------------------------------- accepted steps

  lemma AdmittedRuleIsValid(state: PortfolioState, request: TransitionRequest)
    requires request.policy.Valid() && AdmittedRule(state, request).Success?
    ensures var rule := AdmittedRule(state, request).value;
            && rule.Valid() && rule in request.policy.rules
            && rule.fromState == state.active.state && rule.event == request.event && rule.effect != WakePassive
            && request.evidence != [] && Distinct(request.evidence)
            && AuthorityProblem(request.policy, rule, request.authorityGrant).None?
            && !Blank(request.actionRef) && !Blank(request.observedAt) && !Blank(request.summary)
            && request.canonicalRefs != []
  {
    hide Blank, KindsProblem, TransitionRule.Valid;
  }

  /** Waking takes exactly the admitted item out of the passive lane and leaves the rest in order. */
  lemma WokenShape(state: PortfolioState, policy: TransitionPolicy, admission: PassiveWakeAdmission)
    requires state.Valid() && SecondaryFromWake(state, policy, admission).Success?
    ensures var (woken, rest) := SecondaryFromWake(state, policy, admission).value;
            && woken.Valid() && woken.role == SecondaryRole && woken.workId == admission.workId
            && (exists e <- state.passive :: e.WorkItem() == woken.WorkItem())
            && SortedBy(WORK_ORDER, rest) && |rest| == |state.passive| - 1
            && forall e :: e in rest <==> e in state.passive && e.workId != admission.workId
  {
    hide SortBy, StrictOrder, PortfolioEntry.Valid, KindsProblem, SortedBy;
    WithoutOne(state.passive, admission.workId);
    SortedStays(WithoutWorkId(state.passive, admission.workId));
  }

  /** The lanes an accepted step moves to, before they are put into a state */
  ghost predicate GoodLanes(state: PortfolioState, rule: TransitionRule, lanes: Lanes) {
    && lanes.active.Valid() && lanes.secondary.Valid() && (forall e <- lanes.passive :: e.Valid())
    && lanes.active.role == ActiveRole && lanes.secondary.role == SecondaryRole
    && (forall e <- lanes.passive :: e.role == PassiveRole)
    && SortedBy(WORK_ORDER, lanes.passive)
    && lanes.active.workId != lanes.secondary.workId
    && (forall e <- lanes.passive :: e.workId != lanes.active.workId && e.workId != lanes.secondary.workId)
    && lanes.active.WorkItem() == (if Rotating(rule.effect) then state.secondary.WorkItem() else state.active.WorkItem())
    && LaneItems(lanes) == (if rule.effect == PromoteSecondary then state.WorkItems() - {state.active.WorkItem()} else state.WorkItems())
    && |lanes.passive| == (if rule.effect == PromoteSecondary then |state.passive| - 1 else |state.passive|)
  }

  function LaneItems(lanes: Lanes): set<Charter> {
    {lanes.active.WorkItem(), lanes.secondary.WorkItem()} + Items(lanes.passive)
  }

  lemma RotationKeepsLanes(state: PortfolioState, request: TransitionRequest, rule: TransitionRule)
    requires state.Valid() && Rotating(rule.effect) && RotatedLanes(state, request, rule).Success?
    ensures GoodLanes(state, rule, RotatedLanes(state, request, rule).value)
  {
    hide SortBy, StrictOrder, SecondaryFromWake, SortedBy;
    WokenShape(state, request.policy, request.wakeAdmission.value);
    var (woken, rest) := SecondaryFromWake(state, request.policy, request.wakeAdmission.value).value;
    var lanes := RotatedLanes(state, request, rule).value;
    ItemsAfterWaking(state, woken, rest);
    if rule.effect == ParkActive {
      var parked := ParkedActive(state.active, rule).value;
      ParkedInOrder(rest, parked);
      ItemsOf(lanes.passive, rest, parked);
    }
  }

  function Items(entries: seq<PortfolioEntry>): set<Charter> { set e <- entries :: e.WorkItem() }

  lemma ItemsOf(all: seq<PortfolioEntry>, rest: seq<PortfolioEntry>, one: PortfolioEntry)
    requires forall e :: e in all <==> e == one || e in rest
    ensures Items(all) == Items(rest) + {one.WorkItem()}
  {
    assert one in all;
  }

  lemma ItemsAfterWaking(state: PortfolioState, woken: PortfolioEntry, rest: seq<PortfolioEntry>)
    requires SortedBy(WORK_ORDER, state.passive) && exists e <- state.passive :: e.WorkItem() == woken.WorkItem()
    requires forall e :: e in rest <==> e in state.passive && e.workId != woken.workId
    ensures Items(state.passive) == Items(rest) + {woken.WorkItem()}
  {
    hide SortedBy;
    var item :| item in state.passive && item.WorkItem() == woken.WorkItem();
    forall e | e in state.passive && e.workId == woken.workId ensures e == item {
      SameWorkSameEntry(state.passive, e, item);
    }
  }

  lemma SameWorkSameEntry(entries: seq<PortfolioEntry>, a: PortfolioEntry, b: PortfolioEntry)
    requires SortedBy(WORK_ORDER, entries) && a in entries && b in entries && a.workId == b.workId
    ensures a == b
  {
    var i :| 0 <= i < |entries| && entries[i] == a;
    var j :| 0 <= j < |entries| && entries[j] == b;
    WorkOrder();
    SameWorkSameOrder(a, b);
    SameWorkSameOrder(b, a);
  }

  lemma StayKeepsLanes(state: PortfolioState, request: TransitionRequest, rule: TransitionRule)
    requires state.Valid() && !Rotating(rule.effect) && NextLanes(state, request, rule).Success?
    ensures GoodLanes(state, rule, NextLanes(state, request, rule).value)
  {
    hide SortedBy, PortfolioEntry.Valid;
  }

  /** Lane conservation: every accepted step yields a well-formed portfolio and checkpoint that follow the
      state it started from, and only promotion changes the work items: it drops exactly the old Active. */
  lemma StepKeepsLanes(state: PortfolioState, request: TransitionRequest)
    requires state.Valid() && request.policy.Valid() && ApplyActiveTransition(state, request).Success?
    ensures var r := ApplyActiveTransition(state, request).value;
            && r.newState.Valid()
            && r.newState.portfolioId == state.portfolioId
            && r.newState.generation == state.generation + 1
            && r.newState.previousStateDigest == Some(Sha256(state)) == Some(r.previousStateDigest)
            && r.checkpoint.Valid() && r.checkpoint.Binds(r.newState)
            && r.newState.WorkItems()
                 == (if r.effect == PromoteSecondary then state.WorkItems() - {state.active.WorkItem()} else state.WorkItems())
            && |r.newState.passive| == (if r.effect == PromoteSecondary then |state.passive| - 1 else |state.passive|)
            && r.newState.active.WorkItem() == (if Rotating(r.effect) then state.secondary.WorkItem() else state.active.WorkItem())
  {
    hide SortBy, SortedBy, NextLanes, RotatedLanes, ExecutionCheckpoint.Valid, NewCheckpoint, AdmittedRule, PortfolioEntry.Valid;
    var rule := AdmittedRule(state, request).value;
    var lanes := NextLanes(state, request, rule).value;
    LanesKept(state, request, rule);
    SortedStays(lanes.passive);
    assert NewState(state, lanes).WorkItems() == LaneItems(lanes);
    CheckpointBinds(state, request, rule, NewState(state, lanes));
  }

  lemma LanesKept(state: PortfolioState, request: TransitionRequest, rule: TransitionRule)
    requires state.Valid() && NextLanes(state, request, rule).Success?
    ensures GoodLanes(state, rule, NextLanes(state, request, rule).value)
  {
    hide GoodLanes, RotatedLanes, PortfolioState.Valid;
    if Rotating(rule.effect) { RotationKeepsLanes(state, request, rule); } else { StayKeepsLanes(state, request, rule); }
  }

  lemma CheckpointBinds(state: PortfolioState, request: TransitionRequest, rule: TransitionRule, next: PortfolioState)
    ensures NewCheckpoint(state, request, rule, next).Binds(next)
  {
  }

  /** Parking keeps what the item waits for: it stands in the passive lane with the blockers and the wake
      condition it had, and the woken item takes its place on deck. */
  lemma ParkedItemCanWake(state: PortfolioState, request: TransitionRequest)
    requires state.Valid() && request.policy.Valid() && ApplyActiveTransition(state, request).Success?
    requires ApplyActiveTransition(state, request).value.effect == ParkActive
    ensures var next := ApplyActiveTransition(state, request).value.newState;
            && (exists p <- next.passive :: p.WorkItem() == state.active.WorkItem() && p.blockers == state.active.blockers
                                         && p.wakeCondition == state.active.wakeCondition && p.authorityRef.None?)
            && (exists e <- state.passive :: e.WorkItem() == next.secondary.WorkItem())
  {
    hide SortBy, SortedBy, AdmittedRule, ExecutionCheckpoint.Valid, NewCheckpoint, NextLanes, PortfolioState.WellFormed;
    var rule := AdmittedRule(state, request).value;
    var lanes := NextLanes(state, request, rule).value;
    LanesKept(state, request, rule);
    SortedStays(lanes.passive);
    ParkedLane(state, request, rule);
  }

  lemma ParkedLane(state: PortfolioState, request: TransitionRequest, rule: TransitionRule)
    requires state.Valid() && rule.effect == ParkActive && NextLanes(state, request, rule).Success?
    ensures var lanes := NextLanes(state, request, rule).value;
            && (exists p <- lanes.passive :: p.WorkItem() == state.active.WorkItem() && p.blockers == state.active.blockers
                                          && p.wakeCondition == state.active.wakeCondition && p.authorityRef.None?)
            && (exists e <- state.passive :: e.WorkItem() == lanes.secondary.WorkItem())
  {
    hide SortBy, SortedBy, SecondaryFromWake;
    WokenShape(state, request.policy, request.wakeAdmission.value);
    ParkedInOrder(SecondaryFromWake(state, request.policy, request.wakeAdmission.value).value.1,
                  ParkedActive(state.active, rule).value);
  }

  // ---------------------------------------------------------------- late constructor checks

  /** The two caller texts no earlier check looks at */
  predicate CallerTexts(request: TransitionRequest) {
    && (forall r <- request.canonicalRefs :: !Blank(r))
    && Distinct(request.uncertainties) && (forall u <- request.uncertainties :: !Blank(u))
  }

  lemma CheckpointValidExactly(state: PortfolioState, request: TransitionRequest, next: PortfolioState)
    requires request.policy.Valid() && (request.authorityGrant.Some? ==> request.authorityGrant.value.Valid())
    requires AdmittedRule(state, request).Success?
    ensures NewCheckpoint(state, request, AdmittedRule(state, request).value, next).Valid() <==> CallerTexts(request)
  {
    AdmittedRuleIsValid(state, request);
    hide Blank, AdmittedRule, Distinct, Deduplicated, TextRefs, AuthorityProblem;
    var rule := AdmittedRule(state, request).value;
    RefsNotBlank(request.canonicalRefs, NewCheckpoint(state, request, rule, next).canonicalRefs, request.authorityGrant);
    DistinctShort(rule.nextActionRef);
  }

  lemma RefsNotBlank(texts: seq<string>, refs: seq<Reference>, grant: Option<TransitionAuthorityGrant>)
    requires texts != [] && (grant.Some? ==> grant.value.Valid())
    requires exists p, r :: refs == Deduplicated(TextRefs(texts) + [PolicyRef(p), RuleRef(r)]
                                       + (if grant.Some? then [TextRef(grant.value.authorityRef)] else []))
    ensures refs != [] && ((forall r <- refs :: !BlankRef(r)) <==> forall t <- texts :: !Blank(t))
  {
    hide Blank, Distinct, Deduplicated;
    var all := TextRefs(texts);
    assert forall i | 0 <= i < |texts| :: all[i] in refs;
    assert all[0] in refs;
    forall t | t in texts ensures TextRef(t) in refs {
      var k :| 0 <= k < |texts| && texts[k] == t;
      assert all[k] == TextRef(t);
    }
    forall r | r in refs && r.TextRef? ensures r.text in texts || (grant.Some? && r.text == grant.value.authorityRef) {
      if r in all {
        var k :| 0 <= k < |all| && all[k] == r;
      }
    }
  }

  const LATE_ERRORS := {InvalidEntry, InvalidState, NoBoundary, LeavingGateNeedsGrant, InvalidCheckpoint}

  /** Once the checks on rule, evidence, authority and wake admission have passed, the constructors of the
      new entries and of the new state never refuse, the boundary and grant re-checks never fire, and the
      checkpoint is refused exactly for a blank reference or blank or repeated uncertainties. */
  lemma LateChecksNeverFail(state: PortfolioState, request: TransitionRequest)
    requires state.Valid() && request.policy.Valid()
    requires request.authorityGrant.Some? ==> request.authorityGrant.value.Valid()
    ensures var r := ApplyActiveTransition(state, request);
            && (r.Failure? && r.error != InvalidCheckpoint ==> r.error !in LATE_ERRORS)
            && (r == Failure(InvalidCheckpoint) ==> !CallerTexts(request))
            && (r.Success? ==> CallerTexts(request))
  {
    hide SortBy, SortedBy, NextLanes, RotatedLanes, ExecutionCheckpoint.Valid, NewCheckpoint, AdmittedRule,
         PortfolioEntry.Valid, CallerTexts;
    AdmissionErrors(state, request);
    if AdmittedRule(state, request).Success? {
      var rule := AdmittedRule(state, request).value;
      LaneErrors(state, request);
      if NextLanes(state, request, rule).Success? {
        var lanes := NextLanes(state, request, rule).value;
        LanesKept(state, request, rule);
        SortedStays(lanes.passive);
        CheckpointValidExactly(state, request, NewState(state, lanes));
      }
    }
  }

  lemma AdmissionErrors(state: PortfolioState, request: TransitionRequest)
    ensures AdmittedRule(state, request).Failure? ==>
              AdmittedRule(state, request).error !in LATE_ERRORS
  {
  }

  lemma LaneErrors(state: PortfolioState, request: TransitionRequest)
    requires state.Valid() && request.policy.Valid() && AdmittedRule(state, request).Success?
    ensures var lanes := NextLanes(state, request, AdmittedRule(state, request).value);
            lanes.Failure? ==> lanes.error !in LATE_ERRORS
  {
    AdmittedRuleIsValid(state, request);
    hide SortedBy, AdmittedRule, Blank, RotatedLanes, MovedActive, AuthorityStoppedActive;
    var rule := AdmittedRule(state, request).value;
    if Rotating(rule.effect) {
      RotatedErrors(state, request, rule);
    } else {
      MovedErrors(state.active, request.policy, rule, request.authorityGrant, request.evidence);
    }
  }

  lemma MovedErrors(entry: PortfolioEntry, policy: TransitionPolicy, rule: TransitionRule,
                    grant: Option<TransitionAuthorityGrant>, evidence: seq<CheckpointEvidence>)
    requires entry.Valid() && entry.role == ActiveRole && rule.Valid() && rule.fromState == entry.state
    requires AuthorityProblem(policy, rule, grant).None?
    ensures MovedActive(entry, rule, grant).Failure? ==> MovedActive(entry, rule, grant).error == IncompatibleTarget
    ensures rule.effect == StopHumanGate ==> AuthorityStoppedActive(entry, rule, evidence).Success?
  {
    hide Blank, GrantBinds, Sorted;
  }

  lemma WakeErrors(state: PortfolioState, policy: TransitionPolicy, admission: PassiveWakeAdmission)
    ensures var r := SecondaryFromWake(state, policy, admission); r.Failure? ==> r.error !in LATE_ERRORS
  {
    hide SortBy, FindPassive, MatchTransitionRule;
  }

  lemma RotatedErrors(state: PortfolioState, request: TransitionRequest, rule: TransitionRule)
    requires state.Valid()
    ensures var r := RotatedLanes(state, request, rule); r.Failure? ==> r.error !in LATE_ERRORS
  {
    hide SortBy, SortedBy, SecondaryFromWake;
    if request.wakeAdmission.Some? { WakeErrors(state, request.policy, request.wakeAdmission.value); }
  }

  lemma AdmissionNamesState(state: PortfolioState, policy: TransitionPolicy, admission: PassiveWakeAdmission)
    ensures SecondaryFromWake(state, policy, admission).Success? ==>
              admission.portfolioStateDigest == Sha256(state) && admission.policyDigest == Sha256(policy)
  {
    hide SortBy, KindsProblem, FindPassive, Checked, MatchTransitionRule, AuthorityProblem, Woken, WithoutWorkId;
  }

  lemma AdmissionGoodOnItsState(state: PortfolioState, policy: TransitionPolicy, workId: string,
                                evidence: seq<CheckpointEvidence>, grant: Option<TransitionAuthorityGrant>)
    requires AdmitPassiveWake(state, policy, workId, evidence, grant).Success?
    ensures SecondaryFromWake(state, policy, AdmitPassiveWake(state, policy, workId, evidence, grant).value).Success?
  {
    hide SortBy, KindsProblem, AuthorityProblem, MatchTransitionRule, WithoutWorkId, Distinct, WithWorkId;
    WokenIsValid(FindPassive(state, workId).value, MatchTransitionRule(policy, Parked, WakeSatisfied).value);
    hide PortfolioEntry.Valid, Woken;
  }

  lemma WokenIsValid(item: PortfolioEntry, rule: TransitionRule)
    ensures Woken(item, rule).Valid()
  {
  }

  /** A wake admission is good on exactly the state and policy it was made for. */
  lemma AdmissionConsumedOnItsState(state: PortfolioState, policy: TransitionPolicy, workId: string,
                                    evidence: seq<CheckpointEvidence>, grant: Option<TransitionAuthorityGrant>,
                                    later: PortfolioState, laterPolicy: TransitionPolicy)
    requires AdmitPassiveWake(state, policy, workId, evidence, grant).Success?
    ensures SecondaryFromWake(later, laterPolicy, AdmitPassiveWake(state, policy, workId, evidence, grant).value).Success?
       <==> later == state && laterPolicy == policy
  {
    AdmissionGoodOnItsState(state, policy, workId, evidence, grant);
    AdmissionNamesState(later, laterPolicy, AdmitPassiveWake(state, policy, workId, evidence, grant).value);
    hide SecondaryFromWake, FindPassive, EvidenceProblem, AuthorityProblem, MatchTransitionRule;
  }
}
