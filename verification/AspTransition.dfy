/** The lane machine (src/general_execution/asp_transition.py): one accepted step of the Active work item. */
module AspTransition {
  import opened Canonical
  import opened Ordering
  import opened Text
  import opened Portfolio

  datatype TransitionAuthorityGrant = TransitionAuthorityGrant(
    policyDigest: Digest<TransitionPolicy>, ruleDigest: Digest<TransitionRule>, authorityBoundary: string,
    authorityRef: string, authorityDigest: string)
  {
    predicate Valid() { !Blank(authorityRef) }
  }

  /** Evidence is kept canonically sorted and without duplicates, that is, as a set. */
  datatype PassiveWakeAdmission = PassiveWakeAdmission(
    portfolioId: string, portfolioGeneration: nat, portfolioStateDigest: Digest<PortfolioState>, workId: string,
    wakeConditionDigest: Digest<WakeCondition>, policyDigest: Digest<TransitionPolicy>,
    ruleDigest: Digest<TransitionRule>, evidence: set<CheckpointEvidence>, nextActionRef: string,
    authorityGrant: Option<TransitionAuthorityGrant>)

  datatype TransitionRequest = TransitionRequest(
    policy: TransitionPolicy, event: Event, evidence: seq<CheckpointEvidence>, actionRef: string, observedAt: string,
    summary: string, canonicalRefs: seq<string>, uncertainties: seq<string>,
    replacementSecondary: Option<PortfolioEntry>, wakeAdmission: Option<PassiveWakeAdmission>,
    authorityGrant: Option<TransitionAuthorityGrant>)

  datatype PortfolioTransitionResult = PortfolioTransitionResult(
    previousStateDigest: Digest<PortfolioState>, policyDigest: Digest<TransitionPolicy>,
    ruleDigest: Digest<TransitionRule>, effect: Effect, newState: PortfolioState, checkpoint: ExecutionCheckpoint,
    replacementSecondaryWorkId: Option<string>, authorityGrantDigest: Option<Digest<TransitionAuthorityGrant>>,
    wakeAdmissionDigest: Option<Digest<PassiveWakeAdmission>>)

  datatype AspError =
    | BlankArgument | NoCanonicalRefs | NoRule | WakeNotForActive | NoEvidence | DuplicateEvidence
    | PolicyEvidenceMissing | EffectEvidenceMissing | OrdinaryConsumesGrant | HumanStopsBeforeGrant | GrantRequired
    | GrantNotBound | PassiveNotUnique | NoWakeCondition | NotAWakeRule | StaleAdmission | AdmissionConditionMismatch
    | AdmissionRuleMismatch | ReplacementNotAuthorized | NoWakeAdmission | NotWaitingExternal | NothingToWaitFor
    | NonRotatingConsumes | NoBoundary | LeavingGateNeedsGrant | IncompatibleTarget
    | InvalidEntry | InvalidState | InvalidCheckpoint

  predicate Rotating(effect: Effect) { effect == PromoteSecondary || effect == ParkActive }

  // ---------------------------------------------------------------- evidence and authority

  function MandatoryKinds(effect: Effect): set<string> {
    match effect
    case PromoteSecondary => {"verifier_pass"}
    case ParkActive => {"external_blocker", "no_internal_work"}
    case WakePassive => {"wake_condition_satisfied"}
    case _ => {}
  }

  function Kinds(evidence: set<CheckpointEvidence>): set<string> { set e <- evidence :: e.kind }

  function Collected(evidence: seq<CheckpointEvidence>): set<CheckpointEvidence> { set e | e in evidence }

  function KindsProblem(rule: TransitionRule, evidence: set<CheckpointEvidence>): Option<AspError> {
    if evidence == {} then Some(NoEvidence)
    else if !((set k | k in rule.requiredEvidence) <= Kinds(evidence)) then Some(PolicyEvidenceMissing)
    else if !(MandatoryKinds(rule.effect) <= Kinds(evidence)) then Some(EffectEvidenceMissing)
    else None
  }

  function EvidenceProblem(rule: TransitionRule, evidence: seq<CheckpointEvidence>): Option<AspError> {
    if evidence == [] then Some(NoEvidence)
    else if !Distinct(evidence) then Some(DuplicateEvidence)
    else KindsProblem(rule, Collected(evidence))
  }

  predicate GrantBinds(policy: TransitionPolicy, rule: TransitionRule, grant: TransitionAuthorityGrant) {
    && grant.policyDigest == Sha256(policy)
    && grant.ruleDigest == Sha256(rule)
    && Some(grant.authorityBoundary) == rule.authorityBoundary
  }

  function AuthorityProblem(policy: TransitionPolicy, rule: TransitionRule, grant: Option<TransitionAuthorityGrant>)
    : Option<AspError>
  {
    match rule.authorityMode
    case NoAuthority => if grant.Some? then Some(OrdinaryConsumesGrant) else None
    case HumanRequired => if grant.Some? then Some(HumanStopsBeforeGrant) else None
    case PreauthorizedRequired =>
      if grant.None? then Some(GrantRequired)
      else if !GrantBinds(policy, rule, grant.value) then Some(GrantNotBound)
      else None
  }

  // ---------------------------------------------------------------- waking a passive item

  function WithWorkId(entries: seq<PortfolioEntry>, workId: string): (r: seq<PortfolioEntry>)
    ensures forall e <- r :: e in entries && e.workId == workId
  {
    if entries == [] then []
    else (if entries[0].workId == workId then [entries[0]] else []) + WithWorkId(entries[1..], workId)
  }

  function WithoutWorkId(entries: seq<PortfolioEntry>, workId: string): seq<PortfolioEntry> {
    if entries == [] then []
    else (if entries[0].workId == workId then [] else [entries[0]]) + WithoutWorkId(entries[1..], workId)
  }

  function FindPassive(state: PortfolioState, workId: string): (r: Option<PortfolioEntry>)
    ensures r.Some? ==> r.value in state.passive && r.value.workId == workId
  {
    var matches := WithWorkId(state.passive, workId);
    if |matches| != 1 then None else
      assert matches[0] in matches;
      Some(matches[0])
  }

  function AdmitPassiveWake(state: PortfolioState, policy: TransitionPolicy, workId: string,
                            evidence: seq<CheckpointEvidence>, grant: Option<TransitionAuthorityGrant>)
    : Result<PassiveWakeAdmission, AspError>
  {
    var item := FindPassive(state, workId);
    if item.None? then Failure(PassiveNotUnique)
    else if item.value.wakeCondition.None? then Failure(NoWakeCondition)
    else
      var matched := MatchTransitionRule(policy, Parked, WakeSatisfied);
      if matched.None? then Failure(NoRule)
      else
        var rule := matched.value;
        if rule.effect != WakePassive then Failure(NotAWakeRule)
        else if EvidenceProblem(rule, evidence).Some? then Failure(EvidenceProblem(rule, evidence).value)
        else if AuthorityProblem(policy, rule, grant).Some? then Failure(AuthorityProblem(policy, rule, grant).value)
        else Success(PassiveWakeAdmission(
          state.portfolioId, state.generation, Sha256(state), item.value.workId,
          Sha256(item.value.wakeCondition.value), Sha256(policy), Sha256(rule), Collected(evidence),
          rule.nextActionRef, grant))
  }

  function Woken(item: PortfolioEntry, rule: TransitionRule): PortfolioEntry {
    item.(role := SecondaryRole, state := Ready, nextActionRef := rule.nextActionRef, blockers := [],
          wakeCondition := None, authorityBoundary := None, authorityRef := None)
  }

  function Checked(entry: PortfolioEntry, error: AspError): Result<PortfolioEntry, AspError> {
    if entry.Valid() then Success(entry) else Failure(error)
  }

  function SecondaryFromWake(state: PortfolioState, policy: TransitionPolicy, admission: PassiveWakeAdmission)
    : Result<(PortfolioEntry, seq<PortfolioEntry>), AspError>
  {
    if || admission.portfolioId != state.portfolioId || admission.portfolioGeneration != state.generation
       || admission.portfolioStateDigest != Sha256(state) || admission.policyDigest != Sha256(policy) then
      Failure(StaleAdmission)
    else
      var item := FindPassive(state, admission.workId);
      if item.None? then Failure(PassiveNotUnique)
      else if item.value.wakeCondition.None? then Failure(NoWakeCondition)
      else if Sha256(item.value.wakeCondition.value) != admission.wakeConditionDigest then
        Failure(AdmissionConditionMismatch)
      else
        var matched := MatchTransitionRule(policy, Parked, WakeSatisfied);
        if matched.None? then Failure(NoRule)
        else
          var rule := matched.value;
          if || rule.effect != WakePassive || Sha256(rule) != admission.ruleDigest
             || rule.nextActionRef != admission.nextActionRef then
            Failure(AdmissionRuleMismatch)
          else if KindsProblem(rule, admission.evidence).Some? then
            Failure(KindsProblem(rule, admission.evidence).value)
          else if AuthorityProblem(policy, rule, admission.authorityGrant).Some? then
            Failure(AuthorityProblem(policy, rule, admission.authorityGrant).value)
          else match Checked(Woken(item.value, rule), InvalidEntry)
            case Failure(e) => Failure(e)
            case Success(entry) =>
              Success((entry, SortBy(WORK_ORDER, WithoutWorkId(state.passive, item.value.workId))))
  }

  // ---------------------------------------------------------------- the lanes after a step

  datatype Lanes = Lanes(active: PortfolioEntry, secondary: PortfolioEntry, passive: seq<PortfolioEntry>)

  function PromotedActive(entry: PortfolioEntry): PortfolioEntry {
    entry.(role := ActiveRole, state := Ready, blockers := [], wakeCondition := None, authorityBoundary := None,
           authorityRef := None)
  }

  function ParkedActive(entry: PortfolioEntry, rule: TransitionRule): Result<PortfolioEntry, AspError> {
    if entry.state != WaitingExternal then Failure(NotWaitingExternal)
    else if entry.blockers == [] || entry.wakeCondition.None? then Failure(NothingToWaitFor)
    else Checked(entry.(role := PassiveRole, state := Parked, nextActionRef := rule.nextActionRef,
                        authorityBoundary := None, authorityRef := None), InvalidEntry)
  }

  function AuthorityStoppedActive(entry: PortfolioEntry, rule: TransitionRule, evidence: seq<CheckpointEvidence>)
    : Result<PortfolioEntry, AspError>
  {
    if rule.authorityBoundary.None? then Failure(NoBoundary)
    else
      var blocker := PortfolioBlocker(Authority, rule.authorityBoundary.value, Sorted(set e | e in evidence :: e.locator));
      Checked(entry.(state := HumanGate, nextActionRef := rule.nextActionRef, authorityBoundary := rule.authorityBoundary,
                     authorityRef := None, blockers := [blocker], wakeCondition := None), InvalidEntry)
  }

  function RotatedLanes(state: PortfolioState, request: TransitionRequest, rule: TransitionRule): Result<Lanes, AspError> {
    if request.replacementSecondary.Some? then Failure(ReplacementNotAuthorized)
    else if request.wakeAdmission.None? then Failure(NoWakeAdmission)
    else match SecondaryFromWake(state, request.policy, request.wakeAdmission.value)
      case Failure(e) => Failure(e)
      case Success(woken) =>
        match Checked(PromotedActive(state.secondary), InvalidEntry)
        case Failure(e) => Failure(e)
        case Success(active) =>
          if rule.effect == PromoteSecondary then Success(Lanes(active, woken.0, woken.1))
          else match ParkedActive(state.active, rule)
            case Failure(e) => Failure(e)
            case Success(parked) => Success(Lanes(active, woken.0, SortBy(WORK_ORDER, woken.1 + [parked])))
  }

  function MovedActive(entry: PortfolioEntry, rule: TransitionRule, grant: Option<TransitionAuthorityGrant>)
    : Result<PortfolioEntry, AspError>
  {
    if entry.state == HumanGate then
      if grant.None? then Failure(LeavingGateNeedsGrant)
      else Checked(entry.(state := rule.toState, nextActionRef := rule.nextActionRef, authorityBoundary := None,
                          authorityRef := Some(grant.value.authorityRef), blockers := [], wakeCondition := None),
                   IncompatibleTarget)
    else if entry.state == WaitingExternal && rule.toState != WaitingExternal then
      Checked(entry.(state := rule.toState, nextActionRef := rule.nextActionRef, blockers := [], wakeCondition := None),
              IncompatibleTarget)
    else Checked(entry.(state := rule.toState, nextActionRef := rule.nextActionRef), IncompatibleTarget)
  }

  function NextLanes(state: PortfolioState, request: TransitionRequest, rule: TransitionRule): Result<Lanes, AspError> {
    if Rotating(rule.effect) then RotatedLanes(state, request, rule)
    else if request.replacementSecondary.Some? || request.wakeAdmission.Some? then Failure(NonRotatingConsumes)
    else
      var active := if rule.effect == StopHumanGate then AuthorityStoppedActive(state.active, rule, request.evidence)
                    else MovedActive(state.active, rule, request.authorityGrant);
      if active.Failure? then Failure(active.error)
      else Success(Lanes(active.value, state.secondary, state.passive))
  }

  // ---------------------------------------------------------------- one step

  /** `dict.fromkeys`: the first occurrence of every value */
  function Deduplicated<T(==, !new)>(s: seq<T>): (r: seq<T>)
    ensures Distinct(r) && forall x :: x in r <==> x in s
  {
    if s == [] then []
    else
      var front, last := Deduplicated(s[..|s| - 1]), s[|s| - 1];
      assert s == s[..|s| - 1] + [last];
      if last in front then front else front + [last]
  }

  function TextRefs(texts: seq<string>): (r: seq<Reference>)
    ensures |r| == |texts| && forall i | 0 <= i < |r| :: r[i] == TextRef(texts[i])
  {
    seq(|texts|, i requires 0 <= i < |texts| => TextRef(texts[i]))
  }

  function NewState(state: PortfolioState, lanes: Lanes): PortfolioState {
    PortfolioState(state.portfolioId, state.generation + 1, lanes.active, lanes.secondary,
                   SortBy(WORK_ORDER, lanes.passive), Some(Sha256(state)))
  }

  function NewCheckpoint(state: PortfolioState, request: TransitionRequest, rule: TransitionRule, next: PortfolioState)
    : ExecutionCheckpoint
  {
    var stop := rule.authorityMode == HumanRequired;
    ExecutionCheckpoint(
      next.portfolioId, next.generation, Sha256(next), state.active.workId, ActiveRole, state.active.state, rule.toState,
      request.actionRef, state.active.sourceRevision, request.observedAt, request.summary, request.evidence,
      Deduplicated(TextRefs(request.canonicalRefs) + [PolicyRef(Sha256(request.policy)), RuleRef(Sha256(rule))]
                   + (if request.authorityGrant.Some? then [TextRef(request.authorityGrant.value.authorityRef)] else [])),
      request.uncertainties,
      if stop || rule.toState == Complete || rule.toState == Failed then [] else [rule.nextActionRef],
      stop, if stop then rule.authorityBoundary else None)
  }

  /** The rule that matches, once the checks that precede any change have passed */
  function AdmittedRule(state: PortfolioState, request: TransitionRequest): Result<TransitionRule, AspError> {
    if Blank(request.actionRef) || Blank(request.observedAt) || Blank(request.summary) then Failure(BlankArgument)
    else if request.canonicalRefs == [] then Failure(NoCanonicalRefs)
    else
      var matched := MatchTransitionRule(request.policy, state.active.state, request.event);
      if matched.None? then Failure(NoRule)
      else
        var rule := matched.value;
        if rule.effect == WakePassive then Failure(WakeNotForActive)
        else if EvidenceProblem(rule, request.evidence).Some? then Failure(EvidenceProblem(rule, request.evidence).value)
        else
          var problem := AuthorityProblem(request.policy, rule, request.authorityGrant);
          if problem.Some? then Failure(problem.value) else Success(rule)
  }

  function ApplyActiveTransition(state: PortfolioState, request: TransitionRequest)
    : Result<PortfolioTransitionResult, AspError>
  {
    var admitted := AdmittedRule(state, request);
    if admitted.Failure? then Failure(admitted.error)
    else
      var rule := admitted.value;
      var lanes := NextLanes(state, request, rule);
      if lanes.Failure? then Failure(lanes.error)
      else
        var next := NewState(state, lanes.value);
        if !next.WellFormed() then Failure(InvalidState)
        else
          var checkpoint := NewCheckpoint(state, request, rule, next);
          if !checkpoint.Valid() then Failure(InvalidCheckpoint)
          else
            var rotating := Rotating(rule.effect) && request.wakeAdmission.Some?;
            Success(PortfolioTransitionResult(
              Sha256(state), Sha256(request.policy), Sha256(rule), rule.effect, next, checkpoint,
              if rotating then Some(lanes.value.secondary.workId) else None,
              if rule.authorityMode == PreauthorizedRequired && request.authorityGrant.Some? then
                Some(Sha256(request.authorityGrant.value)) else None,
              if rotating then Some(Sha256(request.wakeAdmission.value)) else None))
  }
}
