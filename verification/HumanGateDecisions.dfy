/**
  A human reject or supersede of a work item stopped at a human gate
  (src/general_execution/human_gate_decision.py): what it checks and the state and checkpoint it makes.
 */
module HumanGateDecisions {
  import opened Canonical
  import opened Ordering
  import opened Text
  import opened Portfolio

  const TRUSTED_ACTOR := "Waterfound"

  datatype DecisionError =
    | UntrustedActor | BlankDecisionRef | NotHumanGate | NoAuthorityStop | StaleDecision | PendingActionMismatch
    | NoGateBoundary | BoundaryMismatch | InvalidDecidedEntry | InvalidDecidedState | InvalidDecidedCheckpoint

  /** What the constructor of a decision insists on */
  predicate ValidDecision(d: HumanGateDecision) {
    && 1 <= d.expectedGeneration
    && !Blank(d.nextActionRef) && !Blank(d.observedAt)
    && (d.targetState == Rework || d.targetState == Failed)
    && (d.targetState == Failed ==> d.nextActionRef == "action://none")
    && (d.targetState == Rework ==> "action://" <= d.nextActionRef)
    && d.evidence != [] && Distinct(d.evidence)
    && (d.decision == Supersede ==> exists e <- d.evidence :: e.kind == "superseding_evidence")
    && d.canonicalRefs != [] && Distinct(d.canonicalRefs) && (forall r <- d.canonicalRefs :: !BlankRef(r))
  }

  function ReceiptOf(d: HumanGateDecision, boundary: string, actor: string, decisionRef: string): HumanGateDecisionReceipt {
    HumanGateDecisionReceipt(d.eventId, d.portfolioId, d.expectedGeneration, d.expectedStateDigest, d.pendingActionRef,
                             boundary, d.decision, Sha256(d), d.targetState, d.nextActionRef, actor, decisionRef)
  }

  function DecisionText(d: HumanGateDecision): string {
    "Waterfound " + (if d.decision == Reject then "reject" else "supersede") + " decision for " + d.pendingActionRef
    + ": " + d.reason
  }

  function DecidedActive(entry: PortfolioEntry, d: HumanGateDecision): PortfolioEntry {
    entry.(state := d.targetState, nextActionRef := d.nextActionRef, authorityBoundary := None, authorityRef := None,
           blockers := [], wakeCondition := None)
  }

  function DecidedState(state: PortfolioState, d: HumanGateDecision): PortfolioState {
    state.(generation := state.generation + 1, active := DecidedActive(state.active, d),
           previousStateDigest := Some(Sha256(state)))
  }

  function DecidedCheckpoint(next: PortfolioState, d: HumanGateDecision, receipt: HumanGateDecisionReceipt)
    : ExecutionCheckpoint
  {
    ExecutionCheckpoint(
      next.portfolioId, next.generation, Sha256(next), next.active.workId, ActiveRole, HumanGate, d.targetState,
      "human-decision://" + d.eventId, next.active.sourceRevision, d.observedAt, DecisionText(d),
      d.evidence + [CheckpointEvidence("human_gate_decision", receipt.decisionRef, Sha256(receipt))],
      if TextRef(receipt.decisionRef) in d.canonicalRefs then d.canonicalRefs
      else d.canonicalRefs + [TextRef(receipt.decisionRef)],
      [], if d.targetState == Failed then [] else [d.nextActionRef], false, None)
  }

  datatype Decided = Decided(receipt: HumanGateDecisionReceipt, state: PortfolioState, checkpoint: ExecutionCheckpoint)

  function DecideHumanGate(state: PortfolioState, checkpoint: Option<ExecutionCheckpoint>, d: HumanGateDecision,
                           actor: string, decisionRef: string): Result<Decided, DecisionError>
  {
    if actor != TRUSTED_ACTOR then Failure(UntrustedActor)
    else if Blank(decisionRef) then Failure(BlankDecisionRef)
    else if state.active.state != HumanGate then Failure(NotHumanGate)
    else if checkpoint.None? || !checkpoint.value.authorityStop then Failure(NoAuthorityStop)
    else if d.expectedGeneration != state.generation || d.expectedStateDigest != Sha256(state) then Failure(StaleDecision)
    else if d.pendingActionRef != state.active.nextActionRef then Failure(PendingActionMismatch)
    else if state.active.authorityBoundary.None? then Failure(NoGateBoundary)
    else if checkpoint.value.authorityBoundary != state.active.authorityBoundary then Failure(BoundaryMismatch)
    else
      var receipt := ReceiptOf(d, state.active.authorityBoundary.value, actor, decisionRef);
      var next := DecidedState(state, d);
      if !next.active.Valid() then Failure(InvalidDecidedEntry)
      else if !next.WellFormed() then Failure(InvalidDecidedState)
      else
        var decided := DecidedCheckpoint(next, d, receipt);
        if !decided.Valid() then Failure(InvalidDecidedCheckpoint) else Success(Decided(receipt, next, decided))
  }

  /** The receipt binds the decision by digest, so it cannot already be among the decision's own evidence. */
  lemma ReceiptIsNewEvidence(d: HumanGateDecision, receipt: HumanGateDecisionReceipt, kind: string, locator: string)
    requires receipt.decisionDigest == Sha256(d)
    ensures CheckpointEvidence(kind, locator, Sha256(receipt)) !in d.evidence
  {
    forall e | e in d.evidence ensures e.digest != Sha256(receipt) {
      var k :| 0 <= k < |d.evidence| && d.evidence[k] == e;
    }
  }

  lemma DecidedStateValid(state: PortfolioState, d: HumanGateDecision)
    requires state.Valid() && ValidDecision(d)
    ensures DecidedState(state, d).Valid()
  {
    hide SortedBy, Blank;
  }

  lemma DecidedCheckpointValid(next: PortfolioState, d: HumanGateDecision, receipt: HumanGateDecisionReceipt)
    requires ValidDecision(d) && receipt.decisionDigest == Sha256(d) && !Blank(receipt.decisionRef)
    ensures DecidedCheckpoint(next, d, receipt).Valid()
  {
    hide Blank, DecisionText, Distinct;
    var evidence := CheckpointEvidence("human_gate_decision", receipt.decisionRef, Sha256(receipt));
    ReceiptIsNewEvidence(d, receipt, "human_gate_decision", receipt.decisionRef);
    DistinctSnoc(d.evidence, evidence);
    if TextRef(receipt.decisionRef) !in d.canonicalRefs {
      DistinctSnoc(d.canonicalRefs, TextRef(receipt.decisionRef));
    }
    TextsNotBlank(d);
    DistinctShort<string>(d.nextActionRef);
  }

  lemma TextsNotBlank(d: HumanGateDecision)
    ensures !Blank(DecisionText(d)) && !Blank("human-decision://" + d.eventId)
  {
    hide Blank;
    var rest := (if d.decision == Reject then "reject" else "supersede") + " decision for " + d.pendingActionRef
                + ": " + d.reason;
    NotBlankPrefix("Waterfound ", rest);
    assert DecisionText(d) == "Waterfound " + rest;
    NotBlankPrefix("human-decision://", d.eventId);
  }

  lemma DistinctSnoc<T>(s: seq<T>, x: T)
    requires Distinct(s) && x !in s
    ensures Distinct(s + [x])
  {
  }

  lemma NotBlankPrefix(prefix: string, text: string)
    requires prefix != "" && !IsSpace(prefix[0])
    ensures !Blank(prefix + text)
  {
    assert (prefix + text)[0] in prefix + text;
  }

  /** A decision succeeds exactly when its guards hold; the constructors behind them never refuse. */
  lemma DecisionNeverFailsLate(state: PortfolioState, checkpoint: Option<ExecutionCheckpoint>, d: HumanGateDecision,
                               actor: string, decisionRef: string)
    requires state.Valid() && ValidDecision(d)
    ensures var r := DecideHumanGate(state, checkpoint, d, actor, decisionRef);
            && (r.Failure? ==> r.error !in {InvalidDecidedEntry, InvalidDecidedState, InvalidDecidedCheckpoint, NoGateBoundary})
            && (r.Success? ==> r.value.state.Valid() && r.value.checkpoint.Valid() && r.value.checkpoint.Binds(r.value.state))
  {
    hide SortedBy, Blank, ValidDecision, PortfolioEntry.Valid, ExecutionCheckpoint.Valid, DecidedCheckpoint, Distinct;
    if state.active.state == HumanGate { GateHasBoundary(state); }
    DecidedStateValid(state, d);
    if state.active.authorityBoundary.Some? && !Blank(decisionRef) {
      DecidedCheckpointValid(DecidedState(state, d), d, ReceiptOf(d, state.active.authorityBoundary.value, actor, decisionRef));
      DecidedCheckpointBinds(DecidedState(state, d), d, ReceiptOf(d, state.active.authorityBoundary.value, actor, decisionRef));
    }
  }

  lemma GateHasBoundary(state: PortfolioState)
    requires state.Valid() && state.active.state == HumanGate
    ensures state.active.authorityBoundary.Some?
  {
  }

  lemma DecidedCheckpointBinds(next: PortfolioState, d: HumanGateDecision, receipt: HumanGateDecisionReceipt)
    ensures DecidedCheckpoint(next, d, receipt).Binds(next)
  {
  }
}
