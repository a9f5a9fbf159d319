/** A concrete portfolio whose durable human decision is reported as a recovery mismatch. */
module HumanGateWitness {
  import opened Canonical
  import opened Ordering
  import opened Text
  import opened Portfolio
  import opened AspTransition
  import opened LaneSafety
  import opened HumanGateDecisions
  import opened PortfolioStore
  import opened PortfolioHistory
  import opened LaneRuns
  import opened HumanGate

  const STOP_RULE :=
    TransitionRule("rule-1", Running, AuthorityRequired, Lifecycle.HumanGate, "action://ask", StopHumanGate, [],
                   HumanRequired, Some("release"))
  const RESUME_RULE :=
    TransitionRule("rule-2", Rework, ExecutionStarted, Running, "action://run", NoEffect, [], NoAuthority, None)
  const POLICY := TransitionPolicy("policy", "1", [STOP_RULE, RESUME_RULE])

  const EVIDENCE := CheckpointEvidence("log", "log://1", Foreign("digest"))

  const WORKING :=
    PortfolioEntry("work-a", ActiveRole, Running, "objective", "gate", "action://work", "rev", [], None, None, [], None, None)
  const WAITING :=
    PortfolioEntry("work-b", SecondaryRole, Ready, "objective", "gate", "action://work", "rev", [], None, None, [], None, None)
  const GENESIS := PortfolioState("portfolio", 0, WORKING, WAITING, [], None)

  function RequestFor(event: Event): TransitionRequest {
    TransitionRequest(POLICY, event, [EVIDENCE], "action", "now", "summary", ["ref"], [], None, None, None)
  }

  lemma PolicyValid()
    ensures POLICY.Valid()
  {
    hide Before, Blank, TransitionRule.Valid;
    RulesValid();
    RuleIdsOrdered();
  }

  lemma RulesValid()
    ensures STOP_RULE.Valid() && RESUME_RULE.Valid()
  {
    NotBlankText("action://ask");
    NotBlankText("action://run");
    hide Blank;
  }

  lemma NotBlankText(text: string)
    requires text != "" && !IsSpace(text[0])
    ensures !Blank(text)
  {
    assert text[0] in text;
  }

  lemma RuleIdsOrdered()
    ensures Before("rule-1", "rule-2")
  {
    SharedPrefix("rule-", "1", "2");
    assert "rule-" + "1" == "rule-1" && "rule-" + "2" == "rule-2";
  }

  lemma {:induction false} SharedPrefix(prefix: string, a: string, b: string)
    requires Before(a, b)
    ensures Before(prefix + a, prefix + b)
  {
    if prefix == "" {
      assert prefix + a == a && prefix + b == b;
    } else {
      SharedPrefix(prefix[1..], a, b);
      assert (prefix + a)[1..] == prefix[1..] + a && (prefix + b)[1..] == prefix[1..] + b;
    }
  }

  /** The Active item moves by the given rule of the policy. */
  lemma StepTaken(head: LaneHead, rule: TransitionRule)
    requires head.state.Valid() && rule in POLICY.rules && rule.fromState == head.state.active.state
    requires rule == RESUME_RULE ==> head.state.active.blockers == []
    ensures WellBuilt(Transit(RequestFor(rule.event))) && Take(head, Transit(RequestFor(rule.event))).Some?
    ensures var next := Take(head, Transit(RequestFor(rule.event))).value;
            && next.state.active.state == rule.toState && next.state.active.nextActionRef == rule.nextActionRef
            && next.state.active.authorityBoundary
               == (if rule == STOP_RULE then Some("release") else head.state.active.authorityBoundary)
            && next.checkpoint.Some? && next.checkpoint.value.authorityStop == (rule == STOP_RULE)
            && next.checkpoint.value.authorityBoundary == (if rule == STOP_RULE then Some("release") else None)
  {
    hide SortBy, SortedBy, PortfolioState.WellFormed, PortfolioState.Valid, ExecutionCheckpoint.Valid, AdmittedRule, NextLanes,
         TransitionPolicy.Valid;
    PolicyValid();
    var request := RequestFor(rule.event);
    RuleAdmitted(head.state, rule);
    ActiveMoves(head.state, rule);
    TextsFine(rule.event);
    LateChecksNeverFail(head.state, request);
    CheckpointOf(head.state, request, rule);
  }

  lemma CheckpointOf(state: PortfolioState, request: TransitionRequest, rule: TransitionRule)
    ensures forall next :: var c := NewCheckpoint(state, request, rule, next);
              && c.authorityStop == (rule.authorityMode == HumanRequired)
              && c.authorityBoundary == if c.authorityStop then rule.authorityBoundary else None
  {
    hide Deduplicated;
  }

  lemma RuleAdmitted(state: PortfolioState, rule: TransitionRule)
    requires rule in POLICY.rules && rule.fromState == state.active.state
    ensures AdmittedRule(state, RequestFor(rule.event)) == Success(rule)
  {
    hide Blank, MatchTransitionRule, TransitionPolicy.Valid, EvidenceProblem;
    PolicyValid();
    MatchIsLookup(POLICY, state.active.state, rule.event, rule);
    NotBlankText("action");
    NotBlankText("now");
    NotBlankText("summary");
    EvidenceFine(rule);
  }

  lemma EvidenceFine(rule: TransitionRule)
    requires rule in POLICY.rules
    ensures EvidenceProblem(rule, [EVIDENCE]) == None
  {
    assert EVIDENCE in Collected([EVIDENCE]);
  }

  lemma ActiveMoves(state: PortfolioState, rule: TransitionRule)
    requires state.Valid() && rule in POLICY.rules && rule.fromState == state.active.state
    requires rule == RESUME_RULE ==> state.active.blockers == []
    ensures var lanes := NextLanes(state, RequestFor(rule.event), rule);
            && lanes.Success? && lanes.value.active.state == rule.toState
            && lanes.value.active.nextActionRef == rule.nextActionRef
            && lanes.value.active.authorityBoundary
               == (if rule == STOP_RULE then Some("release") else state.active.authorityBoundary)
  {
    hide SortedBy, Sorted;
  }

  lemma TextsFine(event: Event)
    ensures CallerTexts(RequestFor(event))
  {
    NotBlankText("ref");
  }

  // ---------------------------------------------------------------- the decision

  const ACTOR := TRUSTED_ACTOR
  const DECISION_REF := "decision://1"

  function DecisionOn(gated: PortfolioState): HumanGateDecision {
    HumanGateDecision("event", "portfolio", gated.generation, Sha256(gated), "action://ask", Reject, "no", Rework,
                      "action://rework", "now", [EVIDENCE], [TextRef("ref")])
  }

  lemma DecisionIsValid(gated: PortfolioState)
    requires gated.generation > 0
    ensures ValidDecision(DecisionOn(gated))
  {
    hide Blank;
    NotBlankText("action://rework");
    NotBlankText("now");
    NotBlankText("ref");
    assert "action://rework"[..9] == "action://";
  }

  /** At its gate the item can be sent to rework, which clears what it waited for. */
  lemma DecisionTaken(head: LaneHead)
    requires head.state.Valid() && head.state.generation > 0
    requires head.state.active.state == Lifecycle.HumanGate && head.state.active.nextActionRef == "action://ask"
    requires head.state.active.authorityBoundary == Some("release")
    requires head.checkpoint.Some? && head.checkpoint.value.authorityStop
    requires head.checkpoint.value.authorityBoundary == Some("release")
    ensures var d := DecisionOn(head.state);
            var r := DecideHumanGate(head.state, head.checkpoint, d, ACTOR, DECISION_REF);
            && ValidDecision(d) && r.Success?
            && r.value.state.active.state == Rework && r.value.state.active.blockers == []
  {
    hide PortfolioState.Valid, PortfolioState.WellFormed, ExecutionCheckpoint.Valid, ValidDecision, DecidedCheckpoint,
         PortfolioEntry.Valid;
    DecisionIsValid(head.state);
    NotBlankText(DECISION_REF);
    hide Blank;
    DecisionNeverFailsLate(head.state, head.checkpoint, DecisionOn(head.state), ACTOR, DECISION_REF);
  }

  // ---------------------------------------------------------------- the tables

  lemma GenesisValid()
    ensures GENESIS.Valid()
  {
  }

  function Started(): seq<StoreStep> { [InitializeStep(GENESIS)] }

  lemma StartedTables()
    ensures Constructed(InitializeStep(GENESIS))
    ensures Tables(Started()) == (map["portfolio" := EncodePortfolio(GENESIS, None)], map[])
    ensures Current(Tables(Started()).0, "portfolio") == GENESIS
  {
    hide PortfolioState.Valid;
    GenesisValid();
    assert Started()[..0] == [];
  }

  /** The store of a portfolio whose Active item has just been stopped at its gate */
  lemma ReachesGate() returns (steps: seq<StoreStep>, gated: LaneHead)
    ensures (forall s <- steps :: Constructed(s)) && ValidStore(Tables(steps).0, Tables(steps).1)
    ensures "portfolio" in Tables(steps).0 && Current(Tables(steps).0, "portfolio") == gated.state
    ensures RecoverTx(Tables(steps).0, Tables(steps).1, "portfolio").Success?
    ensures RecoverTx(Tables(steps).0, Tables(steps).1, "portfolio").value.1 == gated.checkpoint
    ensures gated.state.Valid() && gated.state.generation > 0 && gated.state.portfolioId == "portfolio"
    ensures gated.state.active.state == Lifecycle.HumanGate && gated.state.active.nextActionRef == "action://ask"
    ensures gated.state.active.authorityBoundary == Some("release")
    ensures gated.checkpoint.Some? && gated.checkpoint.value.authorityStop
    ensures gated.checkpoint.value.authorityBoundary == Some("release")
  {
    hide Tables, ValidStore, PortfolioState.Valid, ExecutionCheckpoint.Valid, Take, WellBuilt, RecoverTx, CommitPortfolioTx;
    GenesisValid();
    StartedTables();
    StoreRun(Started(), 0);
    var head, step := LaneHead(GENESIS, None), Transit(RequestFor(AuthorityRequired));
    StepTaken(head, STOP_RULE);
    gated := Take(head, step).value;
    TakeKeeps(head, step);
    TakeStaysInPortfolio(head, step);
    var (rows, checkpoints) := Tables(Started());
    StepIsDurable(rows, checkpoints, head, step);
    var commit := CommitStep("portfolio", Sha256(GENESIS), gated.state, gated.checkpoint.value);
    steps := Started() + [commit];
    OneMoreTransaction(Started(), commit);
    RecoveredRow(Tables(steps).0, Tables(steps).1, "portfolio");
    RecoveryReturnsHead(Tables(steps).0, Tables(steps).1, "portfolio");
  }

  lemma RecoveredRow(rows: PortfolioRows, checkpoints: CheckpointRows, id: string)
    ensures RecoverTx(rows, checkpoints, id).Success? ==> id in rows
  {
    hide DecodePortfolio, ExecutionCheckpoint.Valid;
  }

  lemma OneMoreTransaction(steps: seq<StoreStep>, step: StoreStep)
    ensures Tables(steps + [step]) == Perform(Tables(steps), step)
  {
    hide Perform;
    assert (steps + [step])[..|steps|] == steps;
  }

  lemma EffectDurable(rows: PortfolioRows, checkpoints: CheckpointRows, d: HumanGateDecision)
    requires ValidStore(rows, checkpoints) && ValidDecision(d) && d.portfolioId in rows
    requires ConsumeTx(rows, checkpoints, d, ACTOR, DECISION_REF).2.Success?
    ensures var (rows', checkpoints', r) := ConsumeTx(rows, checkpoints, d, ACTOR, DECISION_REF);
            var id, s := d.portfolioId, r.value.state;
            && ValidStore(rows', checkpoints') && id in rows' && Current(rows', id) == s && s.Valid()
            && s.portfolioId == id && s.generation > 0
            && (id, s.generation) in checkpoints' && checkpoints'[(id, s.generation)].checkpoint == r.value.checkpoint
  {
    hide ValidStore, PortfolioState.Valid, ExecutionCheckpoint.Valid, RecoverTx, DecideHumanGate, CommitPortfolioTx, StoreGrows,
         ValidDecision, Blank;
    DecisionTakesEffect(rows, checkpoints, d, ACTOR, DECISION_REF);
    var (rows', checkpoints', r) := ConsumeTx(rows, checkpoints, d, ACTOR, DECISION_REF);
    var recovered := RecoverTx(rows, checkpoints, d.portfolioId).value;
    DecidedPortfolio(recovered.0, recovered.1, d, ACTOR, DECISION_REF);
    CurrentIsValid(rows', checkpoints', d.portfolioId);
    RecoveryReturnsHead(rows', checkpoints', d.portfolioId);
  }

  /** A reachable store and a decision that takes effect there, and one more accepted step of the same portfolio
      after which the call's cold re-read reports a mismatch although the decision is durable. */
  lemma DecisionCanBeReportedLost() returns (steps: seq<StoreStep>, d: HumanGateDecision, next: LaneHead)
    ensures forall s <- steps :: Constructed(s)
    ensures ConsumeTx(Tables(steps).0, Tables(steps).1, d, ACTOR, DECISION_REF).2.Success? && next.checkpoint.Some?
    ensures var (rows, checkpoints, r) := ConsumeTx(Tables(steps).0, Tables(steps).1, d, ACTOR, DECISION_REF);
            var decided := Decided(r.value.receipt, r.value.state, r.value.checkpoint);
            var (later, laterCheckpoints, committed) :=
              CommitPortfolioTx(rows, checkpoints, d.portfolioId, Sha256(decided.state), next.state, next.checkpoint.value);
            && committed.Success? && d.portfolioId in later
            && Extends(decided.state, Current(later, d.portfolioId))
            && ReadBack(later, laterCheckpoints, decided) == Failure(ColdRecoveryMismatch)
  {
    hide Tables, ValidStore, PortfolioState.Valid, ExecutionCheckpoint.Valid, Take, WellBuilt, RecoverTx, CommitPortfolioTx,
         ConsumeTx, ReadBack, DecideHumanGate, ValidDecision, Extends, StoreGrows;
    var gated;
    steps, gated := ReachesGate();
    var (rows, checkpoints) := Tables(steps);
    d := DecisionOn(gated.state);
    DecisionTaken(gated);
    RecoveryReturnsHead(rows, checkpoints, "portfolio");
    DecisionTakesEffect(rows, checkpoints, d, ACTOR, DECISION_REF);
    EffectDurable(rows, checkpoints, d);
    var (rows', checkpoints', r) := ConsumeTx(rows, checkpoints, d, ACTOR, DECISION_REF);
    var decided := Decided(r.value.receipt, r.value.state, r.value.checkpoint);
    var head, step := LaneHead(decided.state, Some(decided.checkpoint)), Transit(RequestFor(ExecutionStarted));
    StepTaken(head, RESUME_RULE);
    TakeKeeps(head, step);
    TakeStaysInPortfolio(head, step);
    next := Take(head, step).value;
    LaterCommitHidesDecision(rows', checkpoints', decided, next.state, next.checkpoint.value);
  }
}
