/**
  Consuming a human decision against the durable portfolio
  (src/general_execution/human_gate_decision.py, `consume_human_gate_decision`).
 */
module HumanGate {
  import opened Canonical
  import opened Text
  import opened Portfolio
  import opened HumanGateDecisions
  import opened PortfolioStore
  import opened PortfolioHistory

  datatype HumanGateDecisionResult = HumanGateDecisionResult(
    receipt: HumanGateDecisionReceipt, state: PortfolioState, checkpoint: ExecutionCheckpoint,
    recoveryDigest: Digest<PortfolioRecoveryReport>)

  datatype ConsumeError = Refused(decisionError: DecisionError) | Persistence(error: PersistenceError) | ColdRecoveryMismatch

  function ReadBack(rows: PortfolioRows, checkpoints: CheckpointRows, decided: Decided)
    : Result<HumanGateDecisionResult, ConsumeError>
  {
    match RecoverTx(rows, checkpoints, decided.state.portfolioId)
    case Failure(e) => Failure(Persistence(e))
    case Success((s, checkpoint, report)) =>
      if s != decided.state || checkpoint != Some(decided.checkpoint) then Failure(ColdRecoveryMismatch)
      else Success(HumanGateDecisionResult(decided.receipt, s, decided.checkpoint, Sha256(report)))
  }

  /** The whole call with nothing interleaved */
  function ConsumeTx(rows: PortfolioRows, checkpoints: CheckpointRows, d: HumanGateDecision, actor: string, decisionRef: string)
    : (PortfolioRows, CheckpointRows, Result<HumanGateDecisionResult, ConsumeError>)
  {
    if actor != TRUSTED_ACTOR then (rows, checkpoints, Failure(Refused(UntrustedActor)))
    else if Blank(decisionRef) then (rows, checkpoints, Failure(Refused(BlankDecisionRef)))
    else match RecoverTx(rows, checkpoints, d.portfolioId)
      case Failure(e) => (rows, checkpoints, Failure(Persistence(e)))
      case Success((s, checkpoint, _)) =>
        match DecideHumanGate(s, checkpoint, d, actor, decisionRef)
        case Failure(e) => (rows, checkpoints, Failure(Refused(e)))
        case Success(decided) =>
          match CommitPortfolioTx(rows, checkpoints, s.portfolioId, Sha256(s), decided.state, decided.checkpoint)
          case (_, _, Failure(e)) => (rows, checkpoints, Failure(Persistence(e)))
          case (rows', checkpoints', Success(_)) => (rows', checkpoints', ReadBack(rows', checkpoints', decided))
  }

  method ConsumeHumanGateDecision(store: SqlitePortfolioHeadStore, d: HumanGateDecision, actor: string, decisionRef: string)
    returns (r: Result<HumanGateDecisionResult, ConsumeError>)
    modifies store
    ensures (store.rows, store.checkpoints, r) == ConsumeTx(old(store.rows), old(store.checkpoints), d, actor, decisionRef)
  {
    hide Blank, RecoverTx, DecideHumanGate, CommitPortfolioTx;
    RefusedCommitChangesNothing(store.rows, store.checkpoints);
    if actor != TRUSTED_ACTOR {
      return Failure(Refused(UntrustedActor));
    }
    if Blank(decisionRef) {
      return Failure(Refused(BlankDecisionRef));
    }
    var recovered := store.RecoverAfterRestart(d.portfolioId);
    if recovered.Failure? {
      return Failure(Persistence(recovered.error));
    }
    var (s, checkpoint, _) := recovered.value;
    var decision := DecideHumanGate(s, checkpoint, d, actor, decisionRef);
    if decision.Failure? {
      return Failure(Refused(decision.error));
    }
    var decided := decision.value;
    var committed := store.Commit(s.portfolioId, Sha256(s), decided.state, decided.checkpoint);
    if committed.Failure? {
      return Failure(Persistence(committed.error));
    }
    DecidedPortfolio(s, checkpoint, d, actor, decisionRef);
    var reread := store.RecoverAfterRestart(s.portfolioId);
    if reread.Failure? {
      return Failure(Persistence(reread.error));
    }
    var (s', checkpoint', report) := reread.value;
    if s' != decided.state || checkpoint' != Some(decided.checkpoint) {
      return Failure(ColdRecoveryMismatch);
    }
    return Success(HumanGateDecisionResult(decided.receipt, s', decided.checkpoint, Sha256(report)));
  }

  lemma RefusedCommitChangesNothing(rows: PortfolioRows, checkpoints: CheckpointRows)
    ensures forall id, expected, next, checkpoint ::
              var (rows', checkpoints', r) := CommitPortfolioTx(rows, checkpoints, id, expected, next, checkpoint);
              r.Failure? ==> rows' == rows && checkpoints' == checkpoints
  {
    hide DecodePortfolio, CheckpointTaken;
  }

  lemma DecidedPortfolio(s: PortfolioState, checkpoint: Option<ExecutionCheckpoint>, d: HumanGateDecision, actor: string,
                         decisionRef: string)
    requires DecideHumanGate(s, checkpoint, d, actor, decisionRef).Success?
    ensures var decided := DecideHumanGate(s, checkpoint, d, actor, decisionRef).value;
            decided.state == DecidedState(s, d) && decided.state.portfolioId == s.portfolioId
            && Follows(s, decided.state)
  {
    hide Blank, ExecutionCheckpoint.Valid, DecidedCheckpoint, PortfolioState.WellFormed;
  }

  /** On a valid store the call takes effect exactly when the decision itself is good for the durable head:
      then head and checkpoint are durably the decided ones and are what the call returns, and otherwise
      nothing changes.  The commit and the cold re-read never refuse. */
  lemma DecisionTakesEffect(rows: PortfolioRows, checkpoints: CheckpointRows, d: HumanGateDecision, actor: string,
                            decisionRef: string)
    requires ValidStore(rows, checkpoints) && ValidDecision(d) && d.portfolioId in rows
    ensures RecoverTx(rows, checkpoints, d.portfolioId).Success?
    ensures var (rows', checkpoints', r) := ConsumeTx(rows, checkpoints, d, actor, decisionRef);
            var recovered := RecoverTx(rows, checkpoints, d.portfolioId).value;
            var decision := DecideHumanGate(recovered.0, recovered.1, d, actor, decisionRef);
            && recovered.0 == Current(rows, d.portfolioId)
            && (r.Success? <==> decision.Success?)
            && (r.Failure? ==> r.error.Refused? && rows' == rows && checkpoints' == checkpoints)
            && (r.Success? ==>
                  && ValidStore(rows', checkpoints') && StoreGrows(rows, checkpoints, rows', checkpoints')
                  && d.portfolioId in rows' && Current(rows', d.portfolioId) == r.value.state == decision.value.state
                  && r.value.checkpoint == decision.value.checkpoint && r.value.receipt == decision.value.receipt)
  {
    hide Blank, RecoverTx, DecideHumanGate, CommitPortfolioTx, ValidStore, StoreGrows, PortfolioState.Valid,
         ExecutionCheckpoint.Valid, ValidDecision;
    RecoveryReturnsHead(rows, checkpoints, d.portfolioId);
    var id := d.portfolioId;
    var (s, checkpoint, _) := RecoverTx(rows, checkpoints, id).value;
    CurrentIsValid(rows, checkpoints, id);
    EarlyRefusals(s, checkpoint, d, actor, decisionRef);
    if DecideHumanGate(s, checkpoint, d, actor, decisionRef).Success? {
      var decided := DecideHumanGate(s, checkpoint, d, actor, decisionRef).value;
      DecidedPortfolio(s, checkpoint, d, actor, decisionRef);
      DecisionNeverFailsLate(s, checkpoint, d, actor, decisionRef);
      CommitAcceptsExactly(rows, checkpoints, id, Sha256(s), decided.state, decided.checkpoint);
      CommitKeepsStore(rows, checkpoints, id, Sha256(s), decided.state, decided.checkpoint);
      var (rows', checkpoints', _) := CommitPortfolioTx(rows, checkpoints, id, Sha256(s), decided.state, decided.checkpoint);
      RecoveryReturnsHead(rows', checkpoints', id);
    }
  }

  /** With other clients at work between the commit and the cold re-read, the call reports success exactly if
      the head is still the decided one; otherwise it reports a mismatch although the decision is durable,
      part of the history of the later head. */
  lemma ReadBackExactly(rows: PortfolioRows, checkpoints: CheckpointRows, later: PortfolioRows, laterCheckpoints: CheckpointRows,
                        decided: Decided)
    requires ValidStore(rows, checkpoints) && ValidStore(later, laterCheckpoints)
    requires StoreGrows(rows, checkpoints, later, laterCheckpoints)
    requires var s := decided.state;
             && s.portfolioId in rows && s.generation > 0 && Current(rows, s.portfolioId) == s
             && (s.portfolioId, s.generation) in checkpoints
             && checkpoints[(s.portfolioId, s.generation)].checkpoint == decided.checkpoint
    ensures var id, r := decided.state.portfolioId, ReadBack(later, laterCheckpoints, decided);
            && id in later && Extends(decided.state, Current(later, id))
            && (r.Success? <==> Current(later, id) == decided.state)
            && (r.Success? ==> r.value.state == decided.state && r.value.checkpoint == decided.checkpoint)
            && (r.Failure? ==> r.error == ColdRecoveryMismatch)
  {
    hide RecoverTx, ValidStore;
    RecoveryReturnsHead(later, laterCheckpoints, decided.state.portfolioId);
  }

  /** A decision taken on a head that has moved before the commit is refused, and changes nothing. */
  lemma MovedHeadRefusesDecision(rows: PortfolioRows, checkpoints: CheckpointRows, later: PortfolioRows,
                                 laterCheckpoints: CheckpointRows, checkpoint: Option<ExecutionCheckpoint>,
                                 d: HumanGateDecision, actor: string, decisionRef: string)
    requires ValidStore(rows, checkpoints) && ValidStore(later, laterCheckpoints) && ValidDecision(d)
    requires StoreGrows(rows, checkpoints, later, laterCheckpoints) && d.portfolioId in rows
    requires DecideHumanGate(Current(rows, d.portfolioId), checkpoint, d, actor, decisionRef).Success?
    ensures var s, id := Current(rows, d.portfolioId), d.portfolioId;
            var decided := DecideHumanGate(s, checkpoint, d, actor, decisionRef).value;
            var (rows', checkpoints', r) :=
              CommitPortfolioTx(later, laterCheckpoints, id, Sha256(s), decided.state, decided.checkpoint);
            && id in later && (r.Success? <==> Current(later, id) == s)
            && (r.Failure? ==> rows' == later && checkpoints' == laterCheckpoints)
  {
    hide ValidStore, DecideHumanGate, CommitPortfolioTx, PortfolioState.Valid, ExecutionCheckpoint.Valid, ValidDecision;
    var s := Current(rows, d.portfolioId);
    CurrentIsValid(rows, checkpoints, d.portfolioId);
    DecidedPortfolio(s, checkpoint, d, actor, decisionRef);
    DecisionNeverFailsLate(s, checkpoint, d, actor, decisionRef);
    var decided := DecideHumanGate(s, checkpoint, d, actor, decisionRef).value;
    CommitAcceptsExactly(later, laterCheckpoints, d.portfolioId, Sha256(s), decided.state, decided.checkpoint);
  }

  /** Any commit that lands between a decision's commit and its re-read makes the call report a mismatch,
      although the decision stays durable. */
  lemma LaterCommitHidesDecision(rows: PortfolioRows, checkpoints: CheckpointRows, decided: Decided, next: PortfolioState,
                                 checkpoint: ExecutionCheckpoint)
    requires ValidStore(rows, checkpoints) && next.Valid() && checkpoint.Valid()
    requires var s := decided.state;
             && s.portfolioId in rows && s.generation > 0 && Current(rows, s.portfolioId) == s
             && (s.portfolioId, s.generation) in checkpoints
             && checkpoints[(s.portfolioId, s.generation)].checkpoint == decided.checkpoint
    requires Follows(decided.state, next) && checkpoint.Binds(next)
    ensures var id := decided.state.portfolioId;
            var (later, laterCheckpoints, r) :=
              CommitPortfolioTx(rows, checkpoints, id, Sha256(decided.state), next, checkpoint);
            && r.Success? && id in later && Extends(decided.state, Current(later, id))
            && ReadBack(later, laterCheckpoints, decided) == Failure(ColdRecoveryMismatch)
  {
    hide ValidStore, CommitPortfolioTx, PortfolioState.Valid, ExecutionCheckpoint.Valid, ReadBack, StoreGrows, Extends;
    var id := decided.state.portfolioId;
    CommitAcceptsExactly(rows, checkpoints, id, Sha256(decided.state), next, checkpoint);
    CommitKeepsStore(rows, checkpoints, id, Sha256(decided.state), next, checkpoint);
    var (later, laterCheckpoints, _) := CommitPortfolioTx(rows, checkpoints, id, Sha256(decided.state), next, checkpoint);
    ReadBackExactly(rows, checkpoints, later, laterCheckpoints, decided);
  }

  /** The tables the three transactions of the call meet when others run in between: those it recovers from, those
      it commits to, and those it reads back; and the answer it gives then */
  datatype Database = Database(rows: PortfolioRows, checkpoints: CheckpointRows)

  function Committed(at: Database, id: string, expected: Digest<PortfolioState>, decided: Decided)
    : (Database, Result<DurablePortfolioHead, PersistenceError>)
  {
    var (rows, checkpoints, r) :=
      CommitPortfolioTx(at.rows, at.checkpoints, id, expected, decided.state, decided.checkpoint);
    (Database(rows, checkpoints), r)
  }

  function Interleaved(first: Database, second: Database, third: Database, d: HumanGateDecision, actor: string, decisionRef: string)
    : Result<HumanGateDecisionResult, ConsumeError>
  {
    if actor != TRUSTED_ACTOR then Failure(Refused(UntrustedActor))
    else if Blank(decisionRef) then Failure(Refused(BlankDecisionRef))
    else match RecoverTx(first.rows, first.checkpoints, d.portfolioId)
      case Failure(e) => Failure(Persistence(e))
      case Success((s, checkpoint, _)) =>
        match DecideHumanGate(s, checkpoint, d, actor, decisionRef)
        case Failure(e) => Failure(Refused(e))
        case Success(decided) =>
          match Committed(second, s.portfolioId, Sha256(s), decided)
          case (_, Failure(e)) => Failure(Persistence(e))
          case (_, Success(_)) => ReadBack(third.rows, third.checkpoints, decided)
  }

  /** With nothing interleaved that is the call as one transaction. */
  lemma AloneIsInterleaved(at: Database, d: HumanGateDecision, actor: string, decisionRef: string)
    ensures var (rows, checkpoints, r) := ConsumeTx(at.rows, at.checkpoints, d, actor, decisionRef);
            Interleaved(at, at, Database(rows, checkpoints), d, actor, decisionRef) == r
  {
    hide Blank, RecoverTx, DecideHumanGate, CommitPortfolioTx, ReadBack;
  }

  ghost predicate Continues(a: Database, b: Database) {
    ValidStore(b.rows, b.checkpoints) && StoreGrows(a.rows, a.checkpoints, b.rows, b.checkpoints)
  }

  /** Whatever other clients commit in between, the call succeeds if and only if the decision is good for the
      head it recovered, that head had not moved when it committed, and the decided head had not moved when it
      read back; and the decision is durable as soon as its commit met an unmoved head. */
  lemma InterleavedDecision(first: Database, second: Database, third: Database, d: HumanGateDecision, actor: string,
                            decisionRef: string)
    requires ValidStore(first.rows, first.checkpoints) && ValidDecision(d) && d.portfolioId in first.rows
    requires RecoverTx(first.rows, first.checkpoints, d.portfolioId).Success?
    requires Continues(first, second)
    requires var s := Current(first.rows, d.portfolioId);
             var decision := DecideHumanGate(s, RecoverTx(first.rows, first.checkpoints, d.portfolioId).value.1, d, actor, decisionRef);
             decision.Success? ==> Continues(Committed(second, d.portfolioId, Sha256(s), decision.value).0, third)
    ensures d.portfolioId in second.rows
    ensures var id, s := d.portfolioId, Current(first.rows, d.portfolioId);
            var decision := DecideHumanGate(s, RecoverTx(first.rows, first.checkpoints, id).value.1, d, actor, decisionRef);
            var r := Interleaved(first, second, third, d, actor, decisionRef);
            && (r.Success? ==> decision.Success?)
            && (decision.Success? ==>
                  && id in third.rows
                  && (r.Success? <==> Current(second.rows, id) == s && Current(third.rows, id) == decision.value.state)
                  && (Current(second.rows, id) == s ==> Extends(decision.value.state, Current(third.rows, id))))
  {
    hide Blank, RecoverTx, DecideHumanGate, CommitPortfolioTx, ValidStore, StoreGrows, PortfolioState.Valid,
         ExecutionCheckpoint.Valid, ValidDecision, ReadBack, Extends;
    var id, s := d.portfolioId, Current(first.rows, d.portfolioId);
    RecoveryReturnsHead(first.rows, first.checkpoints, id);
    CurrentIsValid(first.rows, first.checkpoints, id);
    RowsStay(first, second, id);
    var checkpoint := RecoverTx(first.rows, first.checkpoints, id).value.1;
    EarlyRefusals(s, checkpoint, d, actor, decisionRef);
    if DecideHumanGate(s, checkpoint, d, actor, decisionRef).Success? {
      var decided := DecideHumanGate(s, checkpoint, d, actor, decisionRef).value;
      DecidedPortfolio(s, checkpoint, d, actor, decisionRef);
      DecisionNeverFailsLate(s, checkpoint, d, actor, decisionRef);
      MovedHeadRefusesDecision(first.rows, first.checkpoints, second.rows, second.checkpoints, checkpoint, d, actor, decisionRef);
      var (after, r) := Committed(second, id, Sha256(s), decided);
      CommitAcceptsExactly(second.rows, second.checkpoints, id, Sha256(s), decided.state, decided.checkpoint);
      CommitKeepsStore(second.rows, second.checkpoints, id, Sha256(s), decided.state, decided.checkpoint);
      RowsStay(after, third, id);
      if r.Success? {
        ReadBackExactly(after.rows, after.checkpoints, third.rows, third.checkpoints, decided);
      }
    }
  }

  lemma RowsStay(a: Database, b: Database, id: string)
    requires Continues(a, b) && id in a.rows
    ensures id in b.rows
  {
  }

  lemma CurrentIsValid(rows: PortfolioRows, checkpoints: CheckpointRows, id: string)
    requires ValidStore(rows, checkpoints) && id in rows
    ensures Current(rows, id).Valid() && Current(rows, id).portfolioId == id
  {
    hide PortfolioState.Valid, BindsAt;
    assert ValidPortfolio(rows, checkpoints, id);
  }

  lemma EarlyRefusals(s: PortfolioState, checkpoint: Option<ExecutionCheckpoint>, d: HumanGateDecision, actor: string,
                      decisionRef: string)
    ensures actor != TRUSTED_ACTOR || Blank(decisionRef) ==> DecideHumanGate(s, checkpoint, d, actor, decisionRef).Failure?
  {
    hide Blank;
  }
}
