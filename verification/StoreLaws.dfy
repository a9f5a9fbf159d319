/** What the portfolio store reads back and what it refuses to overwrite, whatever its tables hold. */
module StoreLaws {
  import opened Canonical
  import opened Portfolio
  import opened PortfolioStore

  function HeadText(s: PortfolioState, latest: Option<Digest<ExecutionCheckpoint>>): DurablePortfolioHead {
    DurablePortfolioHead(s.portfolioId, s.generation, Sha256(s), Sha256(Snapshot(s, Sha256(s))), latest)
  }

  /** The row is the encoding of a valid state of this portfolio, with a checkpoint exactly after generation zero. */
  ghost predicate Holds(row: PortfolioRow, portfolioId: string, s: PortfolioState) {
    && s.Valid() && s.portfolioId == portfolioId
    && row == PortfolioRow(Sha256(s), s.generation, Sha256(Snapshot(s, Sha256(s))), Snapshot(s, Sha256(s)),
                           Sha256(Snapshot(s, Sha256(s))), row.latestCheckpointDigest)
    && (row.latestCheckpointDigest.None? <==> s.generation == 0)
  }

  lemma RowDecodesExactly(row: PortfolioRow, portfolioId: string, s: PortfolioState, head: DurablePortfolioHead)
    ensures DecodePortfolio(row, portfolioId) == Success((s, head))
       <==> Holds(row, portfolioId, s) && head == HeadText(s, row.latestCheckpointDigest)
  {
    hide PortfolioState.Valid;
  }

  /** The current checkpoint is the valid one that the head names, stored under the head's generation and binding its
      state; at generation zero there is none. */
  ghost predicate HasCheckpoint(row: PortfolioRow, checkpoints: CheckpointRows, s: PortfolioState, c: Option<ExecutionCheckpoint>) {
    var key := (s.portfolioId, s.generation);
    if s.generation == 0 then c.None? && key !in checkpoints
    else
      && c.Some? && c.value.Valid() && key in checkpoints
      && checkpoints[key] == CheckpointRow(StableId(c.value), Sha256(c.value), c.value)
      && row.latestCheckpointDigest == Some(Sha256(c.value))
      && c.value.portfolioId == s.portfolioId && c.value.portfolioGeneration == s.generation
      && c.value.portfolioStateDigest == Sha256(s)
  }

  /** Recovery succeeds on exactly the tables whose head is an encoded valid state with its own checkpoint, and reports
      that head. */
  lemma RecoversExactly(rows: PortfolioRows, checkpoints: CheckpointRows, portfolioId: string, s: PortfolioState,
                        c: Option<ExecutionCheckpoint>, report: PortfolioRecoveryReport)
    ensures RecoverTx(rows, checkpoints, portfolioId) == Success((s, c, report))
       <==> && portfolioId in rows && Holds(rows[portfolioId], portfolioId, s)
            && HasCheckpoint(rows[portfolioId], checkpoints, s, c)
            && report == PortfolioRecoveryReport(portfolioId, s.generation, Sha256(s), Sha256(Snapshot(s, Sha256(s))),
                                                 rows[portfolioId].latestCheckpointDigest, c.Some?)
  {
    hide PortfolioState.Valid, ExecutionCheckpoint.Valid, DecodePortfolio, Holds;
    if portfolioId in rows {
      var row := rows[portfolioId];
      if Holds(row, portfolioId, s) {
        RowDecodesExactly(row, portfolioId, s, HeadText(s, row.latestCheckpointDigest));
        HeldMetadata(row, portfolioId, s);
      }
      var decoded := DecodePortfolio(row, portfolioId);
      if decoded.Success? {
        RowDecodesExactly(row, portfolioId, decoded.value.0, decoded.value.1);
        HeldMetadata(row, portfolioId, decoded.value.0);
      }
    }
  }

  lemma HeldMetadata(row: PortfolioRow, portfolioId: string, s: PortfolioState)
    requires Holds(row, portfolioId, s)
    ensures row.generation == s.generation && s.portfolioId == portfolioId
    ensures row.latestCheckpointDigest.None? <==> s.generation == 0
  {
    hide PortfolioState.Valid;
  }

  /** A recovery verifies if and only if the head is of the state, a checkpoint that binds the state and is the one the
      head names is there exactly after generation zero, and the report is the one report of that. */
  lemma RecoveryVerifiesExactly(s: PortfolioState, head: DurablePortfolioHead, c: Option<ExecutionCheckpoint>,
                                report: PortfolioRecoveryReport)
    ensures VerifyPortfolioRecovery(s, head, c, report)
       <==> && (head.portfolioId, head.generation, head.stateDigest) == (s.portfolioId, s.generation, Sha256(s))
            && (c.Some? <==> s.generation != 0)
            && (c.Some? ==>
                  && head.latestCheckpointDigest == Some(Sha256(c.value))
                  && (c.value.portfolioId, c.value.portfolioGeneration, c.value.portfolioStateDigest)
                     == (s.portfolioId, s.generation, Sha256(s)))
            && report == PortfolioRecoveryReport(s.portfolioId, s.generation, Sha256(s), head.snapshotDigest,
                                                 head.latestCheckpointDigest, s.generation != 0)
  {
  }

  /** Whatever the tables hold, a commit that succeeds stores its checkpoint under a free key and repeats no identifier
      and no digest of a stored checkpoint. */
  lemma CommitOverwritesNothing(rows: PortfolioRows, checkpoints: CheckpointRows, portfolioId: string,
                                expected: Digest<PortfolioState>, next: PortfolioState, checkpoint: ExecutionCheckpoint)
    requires CommitPortfolioTx(rows, checkpoints, portfolioId, expected, next, checkpoint).2.Success?
    ensures (portfolioId, next.generation) !in checkpoints
    ensures forall other <- checkpoints :: && checkpoints[other].checkpointId != StableId(checkpoint)
                                          && checkpoints[other].checkpointDigest != Sha256(checkpoint)
  {
    hide DecodePortfolio;
  }
}
