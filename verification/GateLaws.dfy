/** When a human decision is taken and what it then makes, in terms of the decision and the gate it answers. */
module GateLaws {
  import opened Canonical
  import opened Text
  import opened Portfolio
  import opened HumanGateDecisions
  import opened PortfolioStore
  import opened PortfolioHistory
  import opened HumanGate

  /** The trusted actor decides about this very state, which stands at the gate with its stop and its pending action. */
  ghost predicate AnswersGate(d: HumanGateDecision, state: PortfolioState, checkpoint: Option<ExecutionCheckpoint>,
                              actor: string, decisionRef: string)
  {
    && actor == "Waterfound" && !Blank(decisionRef)
    && d.expectedGeneration == state.generation && d.expectedStateDigest == Sha256(state)
    && state.active.state == HumanGate && d.pendingActionRef == state.active.nextActionRef
    && checkpoint.Some? && checkpoint.value.authorityStop
    && checkpoint.value.authorityBoundary == state.active.authorityBoundary
  }

  /** The receipt repeats the decision, who took it where, and the boundary of the gate. */
  ghost predicate Receipts(r: HumanGateDecisionReceipt, d: HumanGateDecision, state: PortfolioState, actor: string,
                           decisionRef: string)
  {
    && (r.eventId, r.portfolioId, r.expectedGeneration) == (d.eventId, d.portfolioId, d.expectedGeneration)
    && r.expectedStateDigest == d.expectedStateDigest && r.decisionDigest == Sha256(d)
    && (r.pendingActionRef, r.decision, r.targetState) == (d.pendingActionRef, d.decision, d.targetState)
    && (r.nextActionRef, r.providerActor, r.decisionRef) == (d.nextActionRef, actor, decisionRef)
    && state.active.authorityBoundary == Some(r.authorityBoundary)
  }

  /** Active goes where the decision sends it, with its next action and without authority or anything to wait for;
      the other lanes stay. */
  ghost predicate Sends(next: PortfolioState, state: PortfolioState, d: HumanGateDecision) {
    var a := state.active;
    && (next.portfolioId, next.generation, next.previousStateDigest) == (state.portfolioId, state.generation + 1, Some(Sha256(state)))
    && (next.secondary, next.passive) == (state.secondary, state.passive)
    && next.active == PortfolioEntry(a.workId, a.role, d.targetState, a.objective, a.activeGate, d.nextActionRef,
                                     a.sourceRevision, a.evidenceRequired, None, None, [], None, a.checkpointRef)
  }

  /** The checkpoint tells of the decision, with its evidence and then the receipt's. */
  ghost predicate Tells(c: ExecutionCheckpoint, next: PortfolioState, d: HumanGateDecision, receipt: HumanGateDecisionReceipt) {
    && (c.portfolioId, c.portfolioGeneration, c.portfolioStateDigest) == (next.portfolioId, next.generation, Sha256(next))
    && (c.workId, c.role, c.sourceRevision) == (next.active.workId, ActiveRole, next.active.sourceRevision)
    && (c.stateBefore, c.stateAfter) == (HumanGate, d.targetState)
    && (c.actionRef, c.observedAt) == ("human-decision://" + d.eventId, d.observedAt)
    && c.summary == "Waterfound " + (match d.decision case Reject => "reject" case Supersede => "supersede")
                    + " decision for " + d.pendingActionRef + ": " + d.reason
    && c.evidence == d.evidence + [CheckpointEvidence("human_gate_decision", receipt.decisionRef, Sha256(receipt))]
    && d.canonicalRefs <= c.canonicalRefs && TextRef(receipt.decisionRef) in c.canonicalRefs
    && (forall i, j | 0 <= i < j < |c.canonicalRefs| :: c.canonicalRefs[i] != c.canonicalRefs[j])
    && (forall r <- c.canonicalRefs :: r in d.canonicalRefs || r == TextRef(receipt.decisionRef))
    && c.uncertainties == [] && !c.authorityStop && c.authorityBoundary.None?
    && (d.targetState == Failed ==> c.nextTransitionRefs == []) && (d.targetState == Rework ==> c.nextTransitionRefs == [d.nextActionRef])
  }

  /** A decision is taken if and only if it answers the gate of the state; then the receipt repeats it, Active goes where
      it says, and the checkpoint tells so. */
  lemma DecidesExactly(state: PortfolioState, checkpoint: Option<ExecutionCheckpoint>, d: HumanGateDecision, actor: string,
                       decisionRef: string)
    requires state.Valid() && ValidDecision(d)
    ensures var r := DecideHumanGate(state, checkpoint, d, actor, decisionRef);
            && (r.Success? <==> AnswersGate(d, state, checkpoint, actor, decisionRef))
            && (r.Success? ==>
                  && Receipts(r.value.receipt, d, state, actor, decisionRef) && Sends(r.value.state, state, d)
                  && Tells(r.value.checkpoint, r.value.state, d, r.value.receipt))
  {
    hide PortfolioState.Valid, Blank, PortfolioEntry.Valid, ExecutionCheckpoint.Valid, PortfolioState.WellFormed,
         DecidedCheckpoint, Receipts, Sends, Tells, ReceiptOf, DecidedState;
    DecisionNeverFailsLate(state, checkpoint, d, actor, decisionRef);
    if state.active.authorityBoundary.Some? {
      var receipt := ReceiptOf(d, state.active.authorityBoundary.value, actor, decisionRef);
      ReceiptMade(state, d, actor, decisionRef);
      StateMade(state, d);
      CheckpointMade(DecidedState(state, d), d, receipt);
    }
  }

  lemma ReceiptMade(state: PortfolioState, d: HumanGateDecision, actor: string, decisionRef: string)
    requires state.active.authorityBoundary.Some?
    ensures Receipts(ReceiptOf(d, state.active.authorityBoundary.value, actor, decisionRef), d, state, actor, decisionRef)
  {
  }

  lemma StateMade(state: PortfolioState, d: HumanGateDecision)
    ensures Sends(DecidedState(state, d), state, d)
  {
  }

  lemma CheckpointMade(next: PortfolioState, d: HumanGateDecision, receipt: HumanGateDecisionReceipt)
    requires ValidDecision(d)
    ensures Tells(DecidedCheckpoint(next, d, receipt), next, d, receipt)
  {
    hide Blank;
  }

  /** On a valid store, a decision that answers the durable gate is durable after the call and is what the call returns:
      the head's Active is where the decision sent it. */
  lemma EffectExactly(rows: PortfolioRows, checkpoints: CheckpointRows, d: HumanGateDecision, actor: string, decisionRef: string)
    requires ValidStore(rows, checkpoints) && ValidDecision(d) && d.portfolioId in rows
    ensures RecoverTx(rows, checkpoints, d.portfolioId).Success?
    ensures var (rows', checkpoints', r) := ConsumeTx(rows, checkpoints, d, actor, decisionRef);
            var state, checkpoint := Current(rows, d.portfolioId), RecoverTx(rows, checkpoints, d.portfolioId).value.1;
            && (r.Success? <==> AnswersGate(d, state, checkpoint, actor, decisionRef))
            && (r.Success? ==>
                  && d.portfolioId in rows' && Sends(Current(rows', d.portfolioId), state, d)
                  && r.value.state == Current(rows', d.portfolioId)
                  && Receipts(r.value.receipt, d, state, actor, decisionRef)
                  && Tells(r.value.checkpoint, r.value.state, d, r.value.receipt)
                  && (d.portfolioId, state.generation + 1) in checkpoints'
                  && checkpoints'[(d.portfolioId, state.generation + 1)].checkpoint == r.value.checkpoint)
            && (r.Failure? ==> rows' == rows && checkpoints' == checkpoints)
  {
    hide RecoverTx, DecideHumanGate, ValidStore, StoreGrows, PortfolioState.Valid, ExecutionCheckpoint.Valid, ValidDecision,
         AnswersGate, Receipts, Tells, ConsumeTx;
    DecisionTakesEffect(rows, checkpoints, d, actor, decisionRef);
    var (rows', checkpoints', r) := ConsumeTx(rows, checkpoints, d, actor, decisionRef);
    var state, checkpoint := Current(rows, d.portfolioId), RecoverTx(rows, checkpoints, d.portfolioId).value.1;
    CurrentIsValid(rows, checkpoints, d.portfolioId);
    DecidesExactly(state, checkpoint, d, actor, decisionRef);
    if r.Success? {
      EffectCommitted(rows, checkpoints, d, actor, decisionRef);
    }
  }

  lemma EffectCommitted(rows: PortfolioRows, checkpoints: CheckpointRows, d: HumanGateDecision, actor: string, decisionRef: string)
    requires ConsumeTx(rows, checkpoints, d, actor, decisionRef).2.Success?
    ensures var (_, checkpoints', r) := ConsumeTx(rows, checkpoints, d, actor, decisionRef);
            var key := (r.value.state.portfolioId, r.value.state.generation);
            key in checkpoints' && checkpoints'[key].checkpoint == r.value.checkpoint
  {
    hide RecoverTx, DecideHumanGate, DecodePortfolio, CheckpointTaken;
  }
}
