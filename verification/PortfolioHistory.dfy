/** What any number of concurrent commits to the portfolio store keep, and what a recovery finds. */
module PortfolioHistory {
  import opened Canonical
  import opened Ordering
  import opened Portfolio
  import opened PortfolioStore

  lemma {:induction false} AncestorShape(s: PortfolioState, g: nat)
    requires Chained(s) && g <= s.generation
    ensures Chained(Ancestor(s, g)) && Ancestor(s, g).generation == g && Ancestor(s, g).portfolioId == s.portfolioId
    decreases s
  {
    if g < s.generation { AncestorShape(s.previousStateDigest.value.preimage, g); }
  }

  /** Successor states share every earlier ancestor. */
  lemma SuccessorAncestors(s: PortfolioState, next: PortfolioState)
    requires Chained(s) && Follows(s, next)
    ensures Chained(next) && Ancestor(next, next.generation) == next
    ensures forall g: nat | g <= s.generation :: Ancestor(next, g) == Ancestor(s, g)
  {
  }

  predicate Follows(current: PortfolioState, next: PortfolioState) {
    && next.portfolioId == current.portfolioId
    && next.generation == current.generation + 1
    && next.previousStateDigest == Some(Sha256(current))
  }

  function Current(rows: PortfolioRows, id: string): PortfolioState
    requires id in rows
  {
    rows[id].snapshot.state
  }

  lemma DecodesValid(rows: PortfolioRows, checkpoints: CheckpointRows, id: string)
    requires id in rows && ValidPortfolio(rows, checkpoints, id)
    ensures var s := Current(rows, id);
            DecodePortfolio(rows[id], id)
            == Success((s, DurablePortfolioHead(id, s.generation, Sha256(s), Sha256(SnapshotOf(s)),
                                                rows[id].latestCheckpointDigest)))
  {
    hide PortfolioState.Valid, BindsAt;
  }

  /** A checkpoint that binds a new generation is not in the table, under any key. */
  lemma FreshCheckpoint(rows: PortfolioRows, checkpoints: CheckpointRows, id: string, next: PortfolioState,
                        checkpoint: ExecutionCheckpoint)
    requires ValidStore(rows, checkpoints) && id in rows && Follows(Current(rows, id), next) && checkpoint.Binds(next)
    ensures !CheckpointTaken(checkpoints, (id, next.generation), EncodeCheckpoint(checkpoint))
  {
    hide PortfolioState.Valid, ExecutionCheckpoint.Valid;
    assert ValidPortfolio(rows, checkpoints, id);
    forall key | key in checkpoints ensures checkpoints[key].checkpoint != checkpoint {
      CheckpointAt(rows, checkpoints, key);
    }
    forall key | key in checkpoints ensures checkpoints[key] == EncodeCheckpoint(checkpoints[key].checkpoint) {
      CheckpointAt(rows, checkpoints, key);
    }
  }

  lemma CheckpointAt(rows: PortfolioRows, checkpoints: CheckpointRows, key: (string, nat))
    requires ValidStore(rows, checkpoints) && key in checkpoints
    ensures checkpoints[key] == EncodeCheckpoint(checkpoints[key].checkpoint)
    ensures (checkpoints[key].checkpoint.portfolioId, checkpoints[key].checkpoint.portfolioGeneration) == key
  {
    hide PortfolioState.Valid, ExecutionCheckpoint.Valid;
    var s := Current(rows, key.0);
    assert ValidPortfolio(rows, checkpoints, key.0);
    assert (key.0, key.1) in checkpoints;
    assert BindsAt(checkpoints, s, key.1);
    AncestorShape(s, key.1);
  }

  /** On a valid store a commit succeeds exactly when the caller read the current head and offers a state
      that follows it together with a checkpoint that binds it; in particular no duplicate checkpoint is
      ever met and the final compare-and-swap never fails. */
  lemma CommitAcceptsExactly(rows: PortfolioRows, checkpoints: CheckpointRows, id: string, expected: Digest<PortfolioState>,
                             next: PortfolioState, checkpoint: ExecutionCheckpoint)
    requires ValidStore(rows, checkpoints) && id in rows
    ensures var (rows', checkpoints', r) := CommitPortfolioTx(rows, checkpoints, id, expected, next, checkpoint);
            && (r.Success? <==> expected == Sha256(Current(rows, id)) && Follows(Current(rows, id), next)
                                && checkpoint.Binds(next))
            && (if r.Success? then
                  && rows' == rows[id := EncodePortfolio(next, Some(Sha256(checkpoint)))]
                  && checkpoints' == checkpoints[(id, next.generation) := EncodeCheckpoint(checkpoint)]
                else rows' == rows && checkpoints' == checkpoints)
  {
    hide PortfolioState.Valid, ExecutionCheckpoint.Valid, DecodePortfolio, CheckpointTaken;
    assert ValidPortfolio(rows, checkpoints, id);
    DecodesValid(rows, checkpoints, id);
    if Follows(Current(rows, id), next) && checkpoint.Binds(next) {
      FreshCheckpoint(rows, checkpoints, id, next, checkpoint);
    }
  }

  /** Later tables keep every portfolio's history and every checkpoint. */
  ghost predicate StoreGrows(rows: PortfolioRows, checkpoints: CheckpointRows, rows': PortfolioRows,
                             checkpoints': CheckpointRows)
  {
    && (forall id <- rows :: id in rows' && Extends(Current(rows, id), Current(rows', id)))
    && (forall key <- checkpoints :: key in checkpoints' && checkpoints'[key] == checkpoints[key])
  }

  ghost predicate Extends(earlier: PortfolioState, later: PortfolioState) {
    Chained(later) && earlier.generation <= later.generation && Ancestor(later, earlier.generation) == earlier
  }

  lemma CommitKeepsStore(rows: PortfolioRows, checkpoints: CheckpointRows, id: string, expected: Digest<PortfolioState>,
                         next: PortfolioState, checkpoint: ExecutionCheckpoint)
    requires ValidStore(rows, checkpoints) && next.Valid() && checkpoint.Valid()
    ensures var (rows', checkpoints', r) := CommitPortfolioTx(rows, checkpoints, id, expected, next, checkpoint);
            ValidStore(rows', checkpoints') && StoreGrows(rows, checkpoints, rows', checkpoints')
  {
    hide PortfolioState.Valid, ExecutionCheckpoint.Valid, CommitPortfolioTx, ValidPortfolio, BindsAt;
    StoreGrowsReflexive(rows, checkpoints);
    if id !in rows {
      NoSuchPortfolio(rows, checkpoints, id, expected, next, checkpoint);
    } else {
      CommitAcceptsExactly(rows, checkpoints, id, expected, next, checkpoint);
      if CommitPortfolioTx(rows, checkpoints, id, expected, next, checkpoint).2.Success? {
        AppendKeepsStore(rows, checkpoints, id, next, checkpoint);
      }
    }
  }

  lemma NoSuchPortfolio(rows: PortfolioRows, checkpoints: CheckpointRows, id: string, expected: Digest<PortfolioState>,
                        next: PortfolioState, checkpoint: ExecutionCheckpoint)
    requires id !in rows
    ensures var (rows', checkpoints', _) := CommitPortfolioTx(rows, checkpoints, id, expected, next, checkpoint);
            rows' == rows && checkpoints' == checkpoints
  {
  }

  lemma StoreGrowsReflexive(rows: PortfolioRows, checkpoints: CheckpointRows)
    requires ValidStore(rows, checkpoints)
    ensures StoreGrows(rows, checkpoints, rows, checkpoints)
  {
    hide PortfolioState.Valid, BindsAt;
    assert forall id <- rows :: ValidPortfolio(rows, checkpoints, id);
  }

  lemma AppendKeepsStore(rows: PortfolioRows, checkpoints: CheckpointRows, id: string, next: PortfolioState,
                         checkpoint: ExecutionCheckpoint)
    requires ValidStore(rows, checkpoints) && id in rows && Follows(Current(rows, id), next)
    requires next.Valid() && checkpoint.Valid() && checkpoint.Binds(next)
    ensures var rows' := rows[id := EncodePortfolio(next, Some(Sha256(checkpoint)))];
            var checkpoints' := checkpoints[(id, next.generation) := EncodeCheckpoint(checkpoint)];
            ValidStore(rows', checkpoints') && StoreGrows(rows, checkpoints, rows', checkpoints')
  {
    hide PortfolioState.Valid, ExecutionCheckpoint.Valid, ValidPortfolio;
    var rows' := rows[id := EncodePortfolio(next, Some(Sha256(checkpoint)))];
    var checkpoints' := checkpoints[(id, next.generation) := EncodeCheckpoint(checkpoint)];
    CurrentIsChained(rows, checkpoints, id);
    SuccessorAncestors(Current(rows, id), next);
    AppendedPortfolio(rows, checkpoints, id, next, checkpoint);
    forall other | other in rows && other != id ensures ValidPortfolio(rows', checkpoints', other) {
      OtherPortfolio(rows, checkpoints, rows', checkpoints', other);
    }
    forall other | other in rows ensures Extends(Current(rows, other), Current(rows', other)) {
      CurrentIsChained(rows, checkpoints, other);
    }
    assert (id, next.generation) !in checkpoints;
  }

  lemma CurrentIsChained(rows: PortfolioRows, checkpoints: CheckpointRows, id: string)
    requires ValidStore(rows, checkpoints) && id in rows
    ensures Chained(Current(rows, id)) && Current(rows, id).portfolioId == id
    ensures forall g: nat :: (id, g) in checkpoints <==> 1 <= g <= Current(rows, id).generation
  {
    hide PortfolioState.Valid, BindsAt;
    assert ValidPortfolio(rows, checkpoints, id);
  }

  lemma AppendedPortfolio(rows: PortfolioRows, checkpoints: CheckpointRows, id: string, next: PortfolioState,
                          checkpoint: ExecutionCheckpoint)
    requires ValidStore(rows, checkpoints) && id in rows && Follows(Current(rows, id), next)
    requires next.Valid() && checkpoint.Valid() && checkpoint.Binds(next)
    ensures ValidPortfolio(rows[id := EncodePortfolio(next, Some(Sha256(checkpoint)))],
                           checkpoints[(id, next.generation) := EncodeCheckpoint(checkpoint)], id)
  {
    hide PortfolioState.Valid, ExecutionCheckpoint.Valid;
    var s := Current(rows, id);
    assert ValidPortfolio(rows, checkpoints, id);
    SuccessorAncestors(s, next);
    var checkpoints' := checkpoints[(id, next.generation) := EncodeCheckpoint(checkpoint)];
    forall g: nat | 1 <= g <= next.generation ensures BindsAt(checkpoints', next, g) {
      if g <= s.generation {
        assert BindsAt(checkpoints, s, g);
        assert Ancestor(next, g) == Ancestor(s, g);
      }
    }
  }

  lemma OtherPortfolio(rows: PortfolioRows, checkpoints: CheckpointRows, rows': PortfolioRows, checkpoints': CheckpointRows,
                       id: string)
    requires id in rows && ValidPortfolio(rows, checkpoints, id) && id in rows' && rows'[id] == rows[id]
    requires forall g: nat :: (id, g) in checkpoints' <==> (id, g) in checkpoints
    requires forall g: nat | (id, g) in checkpoints :: checkpoints'[(id, g)] == checkpoints[(id, g)]
    ensures ValidPortfolio(rows', checkpoints', id)
  {
    hide PortfolioState.Valid, ExecutionCheckpoint.Valid;
    var s := Current(rows, id);
    forall g: nat | 1 <= g <= s.generation ensures BindsAt(checkpoints', s, g) {
      assert BindsAt(checkpoints, s, g);
    }
  }

  lemma InitializeKeepsStore(rows: PortfolioRows, checkpoints: CheckpointRows, s: PortfolioState)
    requires ValidStore(rows, checkpoints) && s.Valid()
    ensures ValidStore(InitializePortfolioTx(rows, s).0, checkpoints)
    ensures StoreGrows(rows, checkpoints, InitializePortfolioTx(rows, s).0, checkpoints)
  {
    hide PortfolioState.Valid, ExecutionCheckpoint.Valid, ValidPortfolio, BindsAt, DecodePortfolio;
    StoreGrowsReflexive(rows, checkpoints);
    var rows' := InitializePortfolioTx(rows, s).0;
    if rows' != rows {
      NewPortfolio(rows, checkpoints, s);
      forall other | other in rows ensures ValidPortfolio(rows', checkpoints, other) {
        OtherPortfolio(rows, checkpoints, rows', checkpoints, other);
      }
    }
  }

  lemma NewPortfolio(rows: PortfolioRows, checkpoints: CheckpointRows, s: PortfolioState)
    requires ValidStore(rows, checkpoints) && s.Valid() && s.generation == 0 && s.portfolioId !in rows
    requires s.previousStateDigest.None?
    ensures ValidPortfolio(rows[s.portfolioId := EncodePortfolio(s, None)], checkpoints, s.portfolioId)
  {
    hide PortfolioState.Valid;
    assert forall g: nat :: (s.portfolioId, g) !in checkpoints;
  }

  /** Recovery succeeds on every valid store and returns the head with the checkpoint of its generation. */
  lemma RecoveryReturnsHead(rows: PortfolioRows, checkpoints: CheckpointRows, id: string)
    requires ValidStore(rows, checkpoints) && id in rows
    ensures var r := RecoverTx(rows, checkpoints, id);
            && r.Success? && r.value.0 == Current(rows, id)
            && (if Current(rows, id).generation == 0 then r.value.1.None?
                else
                  && r.value.1.Some? && r.value.1.value.Valid() && r.value.1.value.Binds(Current(rows, id))
                  && (id, Current(rows, id).generation) in checkpoints
                  && checkpoints[(id, Current(rows, id).generation)].checkpoint == r.value.1.value)
  {
    hide PortfolioState.Valid, ExecutionCheckpoint.Valid, DecodePortfolio;
    var s := Current(rows, id);
    assert ValidPortfolio(rows, checkpoints, id);
    DecodesValid(rows, checkpoints, id);
    if s.generation > 0 {
      assert BindsAt(checkpoints, s, s.generation);
    } else {
      assert (id, 0) !in checkpoints;
    }
  }

  // ---------------------------------------------------------------- runs of concurrent clients

  /** Clients hold arbitrary snapshots, so their transactions take arbitrary arguments. */
  datatype StoreStep =
    | InitializeStep(state: PortfolioState)
    | CommitStep(portfolioId: string, expected: Digest<PortfolioState>, next: PortfolioState,
                 checkpoint: ExecutionCheckpoint)

  predicate Constructed(step: StoreStep) {
    match step
    case InitializeStep(s) => s.Valid()
    case CommitStep(_, _, next, checkpoint) => next.Valid() && checkpoint.Valid()
  }

  function Perform(tables: (PortfolioRows, CheckpointRows), step: StoreStep): (PortfolioRows, CheckpointRows) {
    match step
    case InitializeStep(s) => (InitializePortfolioTx(tables.0, s).0, tables.1)
    case CommitStep(id, expected, next, checkpoint) =>
      var (rows, checkpoints, _) := CommitPortfolioTx(tables.0, tables.1, id, expected, next, checkpoint);
      (rows, checkpoints)
  }

  function Tables(steps: seq<StoreStep>): (PortfolioRows, CheckpointRows) {
    if steps == [] then (map[], map[]) else Perform(Tables(steps[..|steps| - 1]), steps[|steps| - 1])
  }

  /** In every reachable pair of tables, checkpoints exist for exactly the generations 1 to g of each
      portfolio and bind that generation's state; and nothing an earlier moment held is ever lost. */
  lemma {:induction false} StoreRun(steps: seq<StoreStep>, k: nat)
    requires (forall s <- steps :: Constructed(s)) && k <= |steps|
    ensures var (rows, checkpoints) := Tables(steps); ValidStore(rows, checkpoints)
    ensures var (rows, checkpoints) := Tables(steps[..k]);
            var (rows', checkpoints') := Tables(steps);
            ValidStore(rows, checkpoints) && StoreGrows(rows, checkpoints, rows', checkpoints')
    decreases |steps|
  {
    hide ValidStore, StoreGrows, CommitPortfolioTx, InitializePortfolioTx, PortfolioState.Valid, ExecutionCheckpoint.Valid;
    if steps == [] {
      EmptyStore();
    } else {
      var front, last := steps[..|steps| - 1], steps[|steps| - 1];
      assert steps == front + [last] && last in steps;
      assert forall s <- front :: s in steps;
      StoreRun(front, if k <= |front| then k else 0);
      var (rows, checkpoints) := Tables(front);
      match last {
        case InitializeStep(s) => InitializeKeepsStore(rows, checkpoints, s);
        case CommitStep(id, expected, next, checkpoint) =>
          CommitKeepsStore(rows, checkpoints, id, expected, next, checkpoint);
      }
      var (rows', checkpoints') := Tables(steps);
      if k == |steps| {
        assert steps[..k] == steps;
        StoreGrowsReflexive(rows', checkpoints');
      } else {
        assert front[..k] == steps[..k];
        var (rows0, checkpoints0) := Tables(steps[..k]);
        StoreGrowsTransitive(rows0, checkpoints0, rows, checkpoints, rows', checkpoints');
      }
    }
  }

  lemma EmptyStore()
    ensures ValidStore(map[], map[]) && StoreGrows(map[], map[], map[], map[])
  {
  }

  lemma {:induction false} AncestorOfAncestor(s: PortfolioState, mid: nat, g: nat)
    requires Chained(s) && g <= mid <= s.generation
    ensures Chained(Ancestor(s, mid)) && Ancestor(s, mid).generation == mid
    ensures Ancestor(Ancestor(s, mid), g) == Ancestor(s, g)
    decreases s
  {
    AncestorShape(s, mid);
    if mid < s.generation { AncestorOfAncestor(s.previousStateDigest.value.preimage, mid, g); }
  }

  lemma StoreGrowsTransitive(r0: PortfolioRows, c0: CheckpointRows, r1: PortfolioRows, c1: CheckpointRows,
                             r2: PortfolioRows, c2: CheckpointRows)
    requires StoreGrows(r0, c0, r1, c1) && StoreGrows(r1, c1, r2, c2)
    ensures StoreGrows(r0, c0, r2, c2)
  {
    forall id | id in r0 ensures id in r2 && Extends(Current(r0, id), Current(r2, id)) {
      assert Extends(Current(r0, id), Current(r1, id)) && Extends(Current(r1, id), Current(r2, id));
      AncestorOfAncestor(Current(r2, id), Current(r1, id).generation, Current(r0, id).generation);
    }
  }

  /** Two stores whose head rows carry the same state digest have the same head state and went through the
      same states, and their checkpoints bind the same state in every generation. */
  lemma SameHeadSameHistory(rows: PortfolioRows, checkpoints: CheckpointRows, rows': PortfolioRows,
                            checkpoints': CheckpointRows, id: string)
    requires ValidStore(rows, checkpoints) && ValidStore(rows', checkpoints') && id in rows && id in rows'
    requires rows[id].stateDigest == rows'[id].stateDigest
    ensures Current(rows, id) == Current(rows', id) && Chained(Current(rows, id))
    ensures forall g: nat | g <= Current(rows, id).generation :: Ancestor(Current(rows, id), g) == Ancestor(Current(rows', id), g)
    ensures forall g: nat | 1 <= g <= Current(rows, id).generation ::
              && (id, g) in checkpoints && (id, g) in checkpoints'
              && checkpoints[(id, g)].checkpoint.portfolioStateDigest == checkpoints'[(id, g)].checkpoint.portfolioStateDigest
  {
    hide PortfolioState.Valid, ExecutionCheckpoint.Valid;
    assert ValidPortfolio(rows, checkpoints, id) && ValidPortfolio(rows', checkpoints', id);
    forall g: nat | 1 <= g <= Current(rows, id).generation
      ensures && (id, g) in checkpoints && (id, g) in checkpoints'
              && checkpoints[(id, g)].checkpoint.portfolioStateDigest == checkpoints'[(id, g)].checkpoint.portfolioStateDigest
    {
      assert BindsAt(checkpoints, Current(rows, id), g) && BindsAt(checkpoints', Current(rows', id), g);
    }
  }

  /** Equal histories of states do not fix the checkpoints: the same successor can be committed with any
      checkpoint that binds it, and the two stores then agree on the state digest and not on the checkpoint. */
  lemma CheckpointsMayDiffer(rows: PortfolioRows, checkpoints: CheckpointRows, id: string, next: PortfolioState,
                             a: ExecutionCheckpoint, b: ExecutionCheckpoint)
    requires ValidStore(rows, checkpoints) && id in rows && Follows(Current(rows, id), next)
    requires a.Binds(next) && b.Binds(next) && a != b
    ensures var expected, key := Sha256(Current(rows, id)), (id, next.generation);
            var (rows', checkpoints', r) := CommitPortfolioTx(rows, checkpoints, id, expected, next, a);
            var (rows'', checkpoints'', r') := CommitPortfolioTx(rows, checkpoints, id, expected, next, b);
            && r.Success? && r'.Success? && rows'[id].stateDigest == rows''[id].stateDigest
            && checkpoints'[key].checkpoint == a && checkpoints''[key].checkpoint == b
  {
    hide ValidStore, CommitPortfolioTx;
    CommitAcceptsExactly(rows, checkpoints, id, Sha256(Current(rows, id)), next, a);
    CommitAcceptsExactly(rows, checkpoints, id, Sha256(Current(rows, id)), next, b);
  }
}
