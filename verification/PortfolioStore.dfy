/**
  The durable portfolio head and its checkpoint history (src/general_execution/portfolio_persistence.py).
  Each SQLite transaction is a function on the two tables; the store class performs it on its own.
 */
module PortfolioStore {
  import opened Canonical
  import opened Ordering
  import opened Portfolio

  datatype Snapshot = Snapshot(state: PortfolioState, stateDigest: Digest<PortfolioState>)

  datatype PortfolioRow = PortfolioRow(
    stateDigest: Digest<PortfolioState>, generation: nat, snapshotDigest: Digest<Snapshot>, snapshot: Snapshot,
    snapshotOwnDigest: Digest<Snapshot>, latestCheckpointDigest: Option<Digest<ExecutionCheckpoint>>)

  datatype CheckpointRow = CheckpointRow(
    checkpointId: StableId<ExecutionCheckpoint>, checkpointDigest: Digest<ExecutionCheckpoint>,
    checkpoint: ExecutionCheckpoint)

  datatype DurablePortfolioHead = DurablePortfolioHead(
    portfolioId: string, generation: nat, stateDigest: Digest<PortfolioState>, snapshotDigest: Digest<Snapshot>,
    latestCheckpointDigest: Option<Digest<ExecutionCheckpoint>>)

  datatype PersistenceError =
    | NotGenerationZero | SnapshotDigestMismatch | InvalidSnapshotState | SnapshotStateMismatch | IdentityMismatch
    | MetadataMismatch | HeadCheckpointMismatch | DifferentState | NoPortfolio | CommitIdentityMismatch | StaleHead
    | NotOneGeneration | PredecessorMismatch | CheckpointIdentity | CheckpointGeneration | CheckpointStateDigest
    | DuplicateCheckpoint | SwapFailed | CheckpointAtZero | CheckpointMissing | InvalidCheckpoint
    | CheckpointIdMismatch | CheckpointDigestMismatch | LatestCheckpointMismatch | CheckpointNotBound
    | RecoveryNotReproduced

  type PortfolioRows = map<string, PortfolioRow>
  type CheckpointRows = map<(string, nat), CheckpointRow>

  function SnapshotOf(s: PortfolioState): Snapshot { Snapshot(s, Sha256(s)) }

  function EncodePortfolio(s: PortfolioState, latest: Option<Digest<ExecutionCheckpoint>>): PortfolioRow {
    PortfolioRow(Sha256(s), s.generation, Sha256(SnapshotOf(s)), SnapshotOf(s), Sha256(SnapshotOf(s)), latest)
  }

  function EncodeCheckpoint(c: ExecutionCheckpoint): CheckpointRow { CheckpointRow(StableId(c), Sha256(c), c) }

  function HeadFor(s: PortfolioState, snapshotDigest: Digest<Snapshot>, latest: Option<Digest<ExecutionCheckpoint>>)
    : Result<DurablePortfolioHead, PersistenceError>
  {
    if (s.generation == 0) != latest.None? then Failure(HeadCheckpointMismatch)
    else Success(DurablePortfolioHead(s.portfolioId, s.generation, Sha256(s), snapshotDigest, latest))
  }

  function DecodePortfolio(row: PortfolioRow, portfolioId: string)
    : Result<(PortfolioState, DurablePortfolioHead), PersistenceError>
  {
    var s := row.snapshot.state;
    if row.snapshotOwnDigest != Sha256(row.snapshot) then Failure(SnapshotDigestMismatch)
    else if !s.Valid() then Failure(InvalidSnapshotState)
    else if row.snapshot.stateDigest != Sha256(s) then Failure(SnapshotStateMismatch)
    else if s.portfolioId != portfolioId then Failure(IdentityMismatch)
    else if row.stateDigest != Sha256(s) || row.generation != s.generation || row.snapshotDigest != row.snapshotOwnDigest then
      Failure(MetadataMismatch)
    else match HeadFor(s, row.snapshotOwnDigest, row.latestCheckpointDigest)
      case Failure(e) => Failure(e)
      case Success(head) => Success((s, head))
  }

  // ---------------------------------------------------------------- transactions

  function InitializePortfolioTx(rows: PortfolioRows, s: PortfolioState)
    : (PortfolioRows, Result<DurablePortfolioHead, PersistenceError>)
  {
    if s.generation != 0 || s.previousStateDigest.Some? then (rows, Failure(NotGenerationZero))
    else if s.portfolioId in rows then
      match DecodePortfolio(rows[s.portfolioId], s.portfolioId)
      case Failure(e) => (rows, Failure(e))
      case Success(existing) =>
        if existing.0 != s then (rows, Failure(DifferentState)) else (rows, Success(existing.1))
    else (rows[s.portfolioId := EncodePortfolio(s, None)], HeadFor(s, Sha256(SnapshotOf(s)), None))
  }

  /** A row the checkpoint table's primary key and its two UNIQUE columns would reject */
  predicate CheckpointTaken(checkpoints: CheckpointRows, key: (string, nat), row: CheckpointRow) {
    || key in checkpoints
    || exists other <- checkpoints :: checkpoints[other].checkpointId == row.checkpointId
                                   || checkpoints[other].checkpointDigest == row.checkpointDigest
  }

  function CommitPortfolioTx(rows: PortfolioRows, checkpoints: CheckpointRows, portfolioId: string,
                             expected: Digest<PortfolioState>, next: PortfolioState, checkpoint: ExecutionCheckpoint)
    : (PortfolioRows, CheckpointRows, Result<DurablePortfolioHead, PersistenceError>)
  {
    if next.portfolioId != portfolioId then (rows, checkpoints, Failure(CommitIdentityMismatch))
    else if portfolioId !in rows then (rows, checkpoints, Failure(NoPortfolio))
    else
      var row := rows[portfolioId];
      match DecodePortfolio(row, portfolioId)
      case Failure(e) => (rows, checkpoints, Failure(e))
      case Success(decoded) =>
        var current, key := decoded.0, (portfolioId, next.generation);
        if Sha256(current) != expected then (rows, checkpoints, Failure(StaleHead))
        else if next.generation != current.generation + 1 then (rows, checkpoints, Failure(NotOneGeneration))
        else if next.previousStateDigest != Some(Sha256(current)) then (rows, checkpoints, Failure(PredecessorMismatch))
        else if checkpoint.portfolioId != portfolioId then (rows, checkpoints, Failure(CheckpointIdentity))
        else if checkpoint.portfolioGeneration != next.generation then (rows, checkpoints, Failure(CheckpointGeneration))
        else if checkpoint.portfolioStateDigest != Sha256(next) then (rows, checkpoints, Failure(CheckpointStateDigest))
        else if CheckpointTaken(checkpoints, key, EncodeCheckpoint(checkpoint)) then
          (rows, checkpoints, Failure(DuplicateCheckpoint))
        else if row.stateDigest != expected || row.generation != current.generation then
          (rows, checkpoints, Failure(SwapFailed))
        else
          (rows[portfolioId := EncodePortfolio(next, Some(Sha256(checkpoint)))],
           checkpoints[key := EncodeCheckpoint(checkpoint)],
           HeadFor(next, Sha256(SnapshotOf(next)), Some(Sha256(checkpoint))))
  }

  function LoadRecoveryTx(rows: PortfolioRows, checkpoints: CheckpointRows, portfolioId: string)
    : Result<(PortfolioState, DurablePortfolioHead, Option<ExecutionCheckpoint>), PersistenceError>
  {
    if portfolioId !in rows then Failure(NoPortfolio)
    else match DecodePortfolio(rows[portfolioId], portfolioId)
      case Failure(e) => Failure(e)
      case Success(decoded) =>
        var (s, head) := decoded;
        var key := (portfolioId, rows[portfolioId].generation);
        if s.generation == 0 then
          if head.latestCheckpointDigest.Some? || key in checkpoints then Failure(CheckpointAtZero)
          else Success((s, head, None))
        else if key !in checkpoints then Failure(CheckpointMissing)
        else
          var row := checkpoints[key];
          if !row.checkpoint.Valid() then Failure(InvalidCheckpoint)
          else if row.checkpointId != StableId(row.checkpoint) then Failure(CheckpointIdMismatch)
          else if row.checkpointDigest != Sha256(row.checkpoint) then Failure(CheckpointDigestMismatch)
          else if Some(Sha256(row.checkpoint)) != head.latestCheckpointDigest then Failure(LatestCheckpointMismatch)
          else if !row.checkpoint.Binds(s) then Failure(CheckpointNotBound)
          else Success((s, head, Some(row.checkpoint)))
  }

  datatype PortfolioRecoveryReport = PortfolioRecoveryReport(
    portfolioId: string, generation: nat, stateDigest: Digest<PortfolioState>, snapshotDigest: Digest<Snapshot>,
    latestCheckpointDigest: Option<Digest<ExecutionCheckpoint>>, checkpointPresent: bool)

  predicate VerifyPortfolioRecovery(s: PortfolioState, head: DurablePortfolioHead, checkpoint: Option<ExecutionCheckpoint>,
                                    report: PortfolioRecoveryReport)
  {
    && s.portfolioId == head.portfolioId && Sha256(s) == head.stateDigest && s.generation == head.generation
    && report.portfolioId == s.portfolioId && report.generation == s.generation && report.stateDigest == Sha256(s)
    && report.snapshotDigest == head.snapshotDigest && report.latestCheckpointDigest == head.latestCheckpointDigest
    && (if s.generation == 0 then checkpoint.None? && !report.checkpointPresent
        else
          && checkpoint.Some? && report.checkpointPresent
          && checkpoint.value.Binds(s) && Some(Sha256(checkpoint.value)) == head.latestCheckpointDigest)
  }

  function RecoverTx(rows: PortfolioRows, checkpoints: CheckpointRows, portfolioId: string)
    : Result<(PortfolioState, Option<ExecutionCheckpoint>, PortfolioRecoveryReport), PersistenceError>
  {
    match LoadRecoveryTx(rows, checkpoints, portfolioId)
    case Failure(e) => Failure(e)
    case Success(loaded) =>
      var (s, head, checkpoint) := loaded;
      var report := PortfolioRecoveryReport(s.portfolioId, s.generation, Sha256(s), head.snapshotDigest,
                                            head.latestCheckpointDigest, checkpoint.Some?);
      if !VerifyPortfolioRecovery(s, head, checkpoint, report) then Failure(RecoveryNotReproduced)
      else Success((s, checkpoint, report))
  }

  class SqlitePortfolioHeadStore {
    var rows: PortfolioRows
    var checkpoints: CheckpointRows

    constructor ()
      ensures rows == map[] && checkpoints == map[]
    {
      rows, checkpoints := map[], map[];
    }

    method Initialize(s: PortfolioState) returns (r: Result<DurablePortfolioHead, PersistenceError>)
      modifies this`rows
      ensures (rows, r) == InitializePortfolioTx(old(rows), s)
    {
      if s.generation != 0 || s.previousStateDigest.Some? {
        return Failure(NotGenerationZero);
      }
      if s.portfolioId in rows {
        var existing := DecodePortfolio(rows[s.portfolioId], s.portfolioId);
        if existing.Failure? {
          return Failure(existing.error);
        }
        if existing.value.0 != s {
          return Failure(DifferentState);
        }
        return Success(existing.value.1);
      }
      rows := rows[s.portfolioId := EncodePortfolio(s, None)];
      return HeadFor(s, Sha256(SnapshotOf(s)), None);
    }

    method LoadRecoverySnapshot(portfolioId: string)
      returns (r: Result<(PortfolioState, DurablePortfolioHead, Option<ExecutionCheckpoint>), PersistenceError>)
      ensures r == LoadRecoveryTx(rows, checkpoints, portfolioId)
    {
      hide DecodePortfolio, ExecutionCheckpoint.Valid;
      if portfolioId !in rows {
        return Failure(NoPortfolio);
      }
      var decoded := DecodePortfolio(rows[portfolioId], portfolioId);
      if decoded.Failure? {
        return Failure(decoded.error);
      }
      var (s, head) := decoded.value;
      var key := (portfolioId, rows[portfolioId].generation);
      if s.generation == 0 {
        if head.latestCheckpointDigest.Some? || key in checkpoints {
          return Failure(CheckpointAtZero);
        }
        return Success((s, head, None));
      }
      if key !in checkpoints {
        return Failure(CheckpointMissing);
      }
      var row := checkpoints[key];
      if !row.checkpoint.Valid() {
        return Failure(InvalidCheckpoint);
      }
      if row.checkpointId != StableId(row.checkpoint) {
        return Failure(CheckpointIdMismatch);
      }
      if row.checkpointDigest != Sha256(row.checkpoint) {
        return Failure(CheckpointDigestMismatch);
      }
      if Some(Sha256(row.checkpoint)) != head.latestCheckpointDigest {
        return Failure(LatestCheckpointMismatch);
      }
      if !row.checkpoint.Binds(s) {
        return Failure(CheckpointNotBound);
      }
      return Success((s, head, Some(row.checkpoint)));
    }

    method Commit(portfolioId: string, expected: Digest<PortfolioState>, next: PortfolioState,
                  checkpoint: ExecutionCheckpoint) returns (r: Result<DurablePortfolioHead, PersistenceError>)
      modifies this
      ensures (rows, checkpoints, r)
           == CommitPortfolioTx(old(rows), old(checkpoints), portfolioId, expected, next, checkpoint)
    {
      hide DecodePortfolio, CheckpointTaken;
      if next.portfolioId != portfolioId {
        return Failure(CommitIdentityMismatch);
      }
      if portfolioId !in rows {
        return Failure(NoPortfolio);
      }
      var row := rows[portfolioId];
      var decoded := DecodePortfolio(row, portfolioId);
      if decoded.Failure? {
        return Failure(decoded.error);
      }
      var current, key := decoded.value.0, (portfolioId, next.generation);
      if Sha256(current) != expected {
        return Failure(StaleHead);
      }
      if next.generation != current.generation + 1 {
        return Failure(NotOneGeneration);
      }
      if next.previousStateDigest != Some(Sha256(current)) {
        return Failure(PredecessorMismatch);
      }
      if checkpoint.portfolioId != portfolioId {
        return Failure(CheckpointIdentity);
      }
      if checkpoint.portfolioGeneration != next.generation {
        return Failure(CheckpointGeneration);
      }
      if checkpoint.portfolioStateDigest != Sha256(next) {
        return Failure(CheckpointStateDigest);
      }
      if CheckpointTaken(checkpoints, key, EncodeCheckpoint(checkpoint)) {
        return Failure(DuplicateCheckpoint);
      }
      if row.stateDigest != expected || row.generation != current.generation {
        return Failure(SwapFailed);
      }
      checkpoints := checkpoints[key := EncodeCheckpoint(checkpoint)];
      rows := rows[portfolioId := EncodePortfolio(next, Some(Sha256(checkpoint)))];
      return HeadFor(next, Sha256(SnapshotOf(next)), Some(Sha256(checkpoint)));
    }

    method RecoverAfterRestart(portfolioId: string)
      returns (r: Result<(PortfolioState, Option<ExecutionCheckpoint>, PortfolioRecoveryReport), PersistenceError>)
      ensures r == RecoverTx(rows, checkpoints, portfolioId)
    {
      hide LoadRecoveryTx, VerifyPortfolioRecovery;
      var loaded := LoadRecoverySnapshot(portfolioId);
      if loaded.Failure? {
        return Failure(loaded.error);
      }
      var (s, head, checkpoint) := loaded.value;
      var report := PortfolioRecoveryReport(s.portfolioId, s.generation, Sha256(s), head.snapshotDigest,
                                            head.latestCheckpointDigest, checkpoint.Some?);
      if !VerifyPortfolioRecovery(s, head, checkpoint, report) {
        return Failure(RecoveryNotReproduced);
      }
      return Success((s, checkpoint, report));
    }
  }

  // ---------------------------------------------------------------- histories

  /** Through its predecessor digests a state carries its whole history. */
  predicate Chained(s: PortfolioState)
    decreases s
  {
    if s.generation == 0 then s.previousStateDigest.None?
    else
      && s.previousStateDigest.Some? && s.previousStateDigest.value.Sha256?
      && var previous := s.previousStateDigest.value.preimage;
      && previous.portfolioId == s.portfolioId && previous.generation + 1 == s.generation && Chained(previous)
  }

  /** The state of an earlier generation */
  function Ancestor(s: PortfolioState, generation: nat): PortfolioState
    requires Chained(s) && generation <= s.generation
    decreases s
  {
    if generation == s.generation then s else Ancestor(s.previousStateDigest.value.preimage, generation)
  }

  /** The head row encodes a valid state with its history; checkpoints exist for exactly its generations
      from 1 on, and each binds the state of its generation. */
  ghost predicate ValidPortfolio(rows: PortfolioRows, checkpoints: CheckpointRows, id: string)
    requires id in rows
  {
    var row := rows[id];
    var s := row.snapshot.state;
    && s.Valid() && s.portfolioId == id && Chained(s)
    && row == EncodePortfolio(s, row.latestCheckpointDigest)
    && (forall g: nat :: (id, g) in checkpoints <==> 1 <= g <= s.generation)
    && (forall g: nat | 1 <= g <= s.generation :: BindsAt(checkpoints, s, g))
    && row.latestCheckpointDigest
       == (if s.generation == 0 then None else Some(checkpoints[(id, s.generation)].checkpointDigest))
  }

  ghost predicate BindsAt(checkpoints: CheckpointRows, s: PortfolioState, g: nat)
    requires Chained(s) && g <= s.generation
  {
    var key := (s.portfolioId, g);
    && key in checkpoints
    && checkpoints[key] == EncodeCheckpoint(checkpoints[key].checkpoint)
    && checkpoints[key].checkpoint.Valid()
    && checkpoints[key].checkpoint.Binds(Ancestor(s, g))
  }

  ghost predicate ValidStore(rows: PortfolioRows, checkpoints: CheckpointRows) {
    && (forall id <- rows :: ValidPortfolio(rows, checkpoints, id))
    && (forall key <- checkpoints :: key.0 in rows)
  }
}
