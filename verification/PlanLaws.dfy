/** The precomputation plan in terms of the fields of its tasks. */
module PlanLaws {
  import opened Canonical
  import opened Ordering
  import opened Text
  import opened PrecomputationPlan

  /** Two tasks of one wave never list the same shared-state key. */
  lemma NoSharedKeyInAWave(eligible: Tasks, materialized: set<string>, waves: seq<seq<string>>, w: nat, a: string, b: string)
    requires WavesSoFar(eligible, materialized, waves) && w < |waves| && a in waves[w] && b in waves[w] && a != b
    ensures a in eligible && b in eligible && forall k <- eligible[a].sharedStateKeys :: k !in eligible[b].sharedStateKeys
  {
    hide Scheduled;
    assert Wave(eligible, materialized, Scheduled(waves[..w]), waves[w]);
    assert Ready(eligible, materialized, Scheduled(waves[..w]), a) && Ready(eligible, materialized, Scheduled(waves[..w]), b);
    assert !Conflict(eligible, a, b);
  }

  /** A task whose dependencies were all there goes to a later wave only for a key that a smaller id of this
      wave lists too. */
  lemma LeftOutForASharedKey(eligible: Tasks, materialized: set<string>, waves: seq<seq<string>>, w: nat, id: string)
    requires WavesSoFar(eligible, materialized, waves) && w < |waves| && id in eligible
    requires forall v | 0 <= v <= w :: id !in waves[v]
    requires forall d <- eligible[id].dependsOn :: d in materialized || exists v | 0 <= v < w :: d in waves[v]
    ensures exists other <- waves[w] ::
              && other in eligible && Before(other, id)
              && exists k <- eligible[id].sharedStateKeys :: k in eligible[other].sharedStateKeys
  {
    var done := Scheduled(waves[..w]);
    assert Wave(eligible, materialized, done, waves[w]);
    ScheduledMembers(waves, w);
    hide Scheduled;
    assert Ready(eligible, materialized, done, id);
    var other :| other in waves[w] && Before(other, id) && Conflict(eligible, id, other);
  }

  lemma ScheduledMembers(waves: seq<seq<string>>, w: nat)
    requires w <= |waves|
    ensures forall id :: id in Scheduled(waves[..w]) <==> exists v | 0 <= v < w :: id in waves[v]
  {
    forall id | id in Scheduled(waves[..w]) ensures exists v | 0 <= v < w :: id in waves[v] {
      var wave :| wave in waves[..w] && id in wave;
      var v :| 0 <= v < w && waves[..w][v] == wave;
      assert id in waves[v];
    }
    forall v, id | 0 <= v < w && id in waves[v] ensures id in Scheduled(waves[..w]) {
      assert waves[..w][v] == waves[v];
      assert waves[v] in waves[..w];
    }
  }

  /** Everything a scheduled task depends on is already materialized or stands in an earlier wave. */
  lemma DependenciesComeFirst(eligible: Tasks, materialized: set<string>, waves: seq<seq<string>>, w: nat, id: string)
    requires WavesSoFar(eligible, materialized, waves) && w < |waves| && id in waves[w]
    ensures id in eligible
    ensures forall d <- eligible[id].dependsOn :: d in materialized || exists v | 0 <= v < w :: d in waves[v]
  {
    assert Wave(eligible, materialized, Scheduled(waves[..w]), waves[w]);
    ScheduledMembers(waves, w);
    assert Ready(eligible, materialized, Scheduled(waves[..w]), id);
  }

  /** The selection lists the waves one after another. */
  lemma {:induction false} WavesInOrder(waves: seq<seq<string>>, wave: seq<string>, later: seq<seq<string>>)
    ensures InOrder([]) == [] && InOrder([wave]) == wave
    ensures InOrder(waves + later) == InOrder(waves) + InOrder(later)
    decreases |later|
  {
    assert [wave][..0] == [];
    if later == [] {
      assert waves + later == waves;
    } else {
      var front, last := later[..|later| - 1], later[|later| - 1];
      assert (waves + later)[..|waves + later| - 1] == waves + front;
      WavesInOrder(waves, wave, front);
    }
  }

  /** A task with nothing against computing it ahead of the gate */
  ghost predicate Harmless(t: PredictiveTask) {
    t.sideEffectFree && !t.irreversible && !t.requiresAuthority && !t.requiresObservedGateOutcome
  }

  /** The reasons a deferred task is reported with, in order: everything against it, or, for a harmless task, that
      something it depends on is deferred. */
  ghost predicate Explains(reasons: seq<string>, t: PredictiveTask) {
    && Increasing(reasons)
    && ("side_effectful" in reasons <==> !t.sideEffectFree)
    && ("irreversible" in reasons <==> t.irreversible)
    && ("requires_authority" in reasons <==> t.requiresAuthority)
    && ("requires_observed_gate_outcome" in reasons <==> t.requiresObservedGateOutcome)
    && ("dependency_not_precomputable" in reasons <==> Harmless(t))
    && forall why <- reasons :: why in {"side_effectful", "irreversible", "requires_authority",
                                        "requires_observed_gate_outcome", "dependency_not_precomputable"}
  }

  lemma ReasonsExplain(t: PredictiveTask)
    ensures Explains(ReasonFor(t), t)
  {
    hide Sorted, PredictiveTask.Why;
    WhyMembers(t);
    if t.Precomputable() {
      var only := ["dependency_not_precomputable"];
      assert ReasonFor(t) == only;
      assert forall why :: why in only <==> why == "dependency_not_precomputable";
      ReasonsDiffer();
    } else {
      assert forall why :: why in ReasonFor(t) <==> why in t.Why();
    }
  }

  lemma WhyMembers(t: PredictiveTask)
    ensures "side_effectful" in t.Why() <==> !t.sideEffectFree
    ensures "irreversible" in t.Why() <==> t.irreversible
    ensures "requires_authority" in t.Why() <==> t.requiresAuthority
    ensures "requires_observed_gate_outcome" in t.Why() <==> t.requiresObservedGateOutcome
    ensures t.Why() <= {"side_effectful", "irreversible", "requires_authority", "requires_observed_gate_outcome"}
    ensures "dependency_not_precomputable" !in t.Why()
  {
    ReasonsDiffer();
  }

  lemma ReasonsDiffer()
    ensures "dependency_not_precomputable" !in {"side_effectful", "irreversible", "requires_authority", "requires_observed_gate_outcome"}
    ensures "side_effectful" !in {"irreversible", "requires_authority", "requires_observed_gate_outcome"}
    ensures "irreversible" !in {"requires_authority", "requires_observed_gate_outcome"}
    ensures "requires_authority" != "requires_observed_gate_outcome"
  {
    assert "dependency_not_precomputable"[0] == 'd' && "side_effectful"[0] == 's' && "irreversible"[0] == 'i';
    assert "requires_authority"[9] == 'a' && "requires_observed_gate_outcome"[9] == 'o';
    assert "requires_authority"[0] == 'r' && "requires_observed_gate_outcome"[0] == 'r';
  }

  /** A plan splits the tasks: the selected ones are harmless; every other one is deferred, and its reasons say what
      is against it or that a task it depends on is deferred too. */
  lemma PlanSplitsTasks(tasks: seq<PredictiveTask>, materialized: set<string>, plan: Plan, t: PredictiveTask)
    requires DistinctTasks(tasks) && PlanFor(tasks, materialized, plan) && t in tasks
    requires forall x <- tasks, d <- x.dependsOn :: d in materialized || exists y <- tasks :: y.taskId == d
    ensures t.taskId in plan.selectedTaskIds <==> t.taskId !in plan.deferredTaskIds
    ensures t.taskId in plan.selectedTaskIds ==> Harmless(t)
    ensures t.taskId in plan.deferredTaskIds ==>
              && (exists r <- plan.reasons :: r.0 == t.taskId && Explains(r.1, t))
              && (Harmless(t) ==> exists d <- t.dependsOn :: d in plan.deferredTaskIds)
  {
    hide Scheduled, Sorted, WavesSoFar, Explains, ReasonFor;
    var id := t.taskId;
    assert id in TaskIds(tasks);
    OnlyTask(tasks, t);
    SelectedOnce(Eligible(tasks), materialized, plan.waves);
    SelectsLeastFixpoint(Eligible(tasks), materialized, plan.waves, {});
    if id in plan.deferredTaskIds {
      ReasonsExplain(t);
      var i :| 0 <= i < |plan.deferredTaskIds| && plan.deferredTaskIds[i] == id;
      assert plan.reasons[i] in plan.reasons;
      if Harmless(t) {
        KnownDependencies(tasks, materialized);
        DeferredHasDeferredDependency(tasks, materialized, plan, id);
      }
    } else {
      assert id in Scheduled(plan.waves);
    }
  }

  /** Tasks are distinct as long as each one added has an id of its own. */
  lemma DistinctOneByOne(tasks: seq<PredictiveTask>, t: PredictiveTask)
    ensures DistinctTasks([])
    ensures DistinctTasks(tasks + [t]) <==> DistinctTasks(tasks) && forall x <- tasks :: x.taskId != t.taskId
  {
    var all := tasks + [t];
    if DistinctTasks(all) {
      forall i, j | 0 <= i < j < |tasks| ensures tasks[i].taskId != tasks[j].taskId {
        assert all[i].taskId != all[j].taskId;
      }
      forall x | x in tasks ensures x.taskId != t.taskId {
        var i :| 0 <= i < |tasks| && tasks[i] == x;
        assert all[i].taskId != all[|tasks|].taskId;
      }
    }
  }

  lemma OnlyTask(tasks: seq<PredictiveTask>, t: PredictiveTask)
    requires DistinctTasks(tasks) && t in tasks
    ensures t.taskId in TaskIds(tasks) && TaskOf(tasks, t.taskId) == t
    ensures t.taskId in Eligible(tasks) <==> Harmless(t)
    ensures t.taskId in Eligible(tasks) ==> Eligible(tasks)[t.taskId] == t
  {
  }

  lemma KnownDependencies(tasks: seq<PredictiveTask>, materialized: set<string>)
    ensures DependenciesKnown(tasks, TaskIds(tasks) + materialized)
       <==> forall x <- tasks, d <- x.dependsOn :: d in materialized || exists y <- tasks :: y.taskId == d
  {
    if DependenciesKnown(tasks, TaskIds(tasks) + materialized) {
      forall x, d | x in tasks && d in x.dependsOn ensures d in materialized || exists y <- tasks :: y.taskId == d {
        assert d in TaskIds(tasks) + materialized;
      }
    }
  }

  /** What is already materialized is named by the texts given, white space at their ends apart. */
  lemma MaterializedTexts(texts: seq<string>, m: string)
    ensures m in MaterializedSet(texts) <==> exists t <- texts :: Strip(t) == m
  {
    if m in MaterializedSet(texts) {
      var i :| 0 <= i < |texts| && Stripped(texts)[i] == m;
      assert Strip(texts[i]) == m;
    }
    if t :| t in texts && Strip(t) == m {
      var i :| 0 <= i < |texts| && texts[i] == t;
      assert Stripped(texts)[i] == m;
      assert m in Stripped(texts);
    }
  }
}
