/**
  The wave scheduler for work that may be computed ahead of a gate
  (src/general_execution/predictive_sovereign_execution.py, `build_precomputation_plan`).
 */
module PrecomputationPlan {
  import opened Canonical
  import opened Ordering
  import opened Text

  datatype PredictiveTask = PredictiveTask(
    taskId: string, evidencePredicate: string, dependsOn: seq<string>, sharedStateKeys: seq<string>,
    sideEffectFree: bool, irreversible: bool, requiresAuthority: bool, requiresObservedGateOutcome: bool)
  {
    function Dependencies(): set<string> { set d | d in dependsOn }

    function Keys(): set<string> { set k | k in sharedStateKeys }

    function Why(): set<string> {
      (if sideEffectFree then {} else {"side_effectful"})
      + (if irreversible then {"irreversible"} else {})
      + (if requiresAuthority then {"requires_authority"} else {})
      + (if requiresObservedGateOutcome then {"requires_observed_gate_outcome"} else {})
    }

    predicate Precomputable() { sideEffectFree && !irreversible && !requiresAuthority && !requiresObservedGateOutcome }
  }

  datatype Plan = Plan(
    currentGateRef: string, selectedTaskIds: seq<string>, deferredTaskIds: seq<string>,
    waves: seq<seq<string>>, reasons: seq<(string, seq<string>)>)

  datatype PlanError = BlankText | DuplicateMaterialized | DuplicateTasks | UnknownDependencies

  function TaskIds(tasks: seq<PredictiveTask>): set<string> { set t <- tasks :: t.taskId }

  predicate DistinctTasks(tasks: seq<PredictiveTask>) {
    forall i, j | 0 <= i < j < |tasks| :: tasks[i].taskId != tasks[j].taskId
  }

  function Stripped(texts: seq<string>): (r: seq<string>)
    ensures |r| == |texts| && forall i | 0 <= i < |r| :: r[i] == Strip(texts[i])
  {
    seq(|texts|, i requires 0 <= i < |texts| => Strip(texts[i]))
  }

  predicate DependenciesKnown(tasks: seq<PredictiveTask>, known: set<string>) {
    forall t <- tasks, d <- t.dependsOn :: d in known
  }

  // ---------------------------------------------------------------- schedules

  type Tasks = map<string, PredictiveTask>

  /** All tasks in some wave */
  function Scheduled(waves: seq<seq<string>>): set<string> { set w <- waves, id <- w :: id }

  function InOrder(waves: seq<seq<string>>): seq<string> {
    if waves == [] then [] else InOrder(waves[..|waves| - 1]) + waves[|waves| - 1]
  }

  /** Not yet scheduled, with every dependency materialized or scheduled */
  predicate Ready(eligible: Tasks, materialized: set<string>, done: set<string>, id: string) {
    id in eligible && id !in done && forall d <- eligible[id].dependsOn :: d in materialized || d in done
  }

  /** Both list the same shared-state key. */
  predicate Conflict(eligible: Tasks, a: string, b: string)
    requires a in eligible && b in eligible
  {
    exists k <- eligible[a].sharedStateKeys :: k in eligible[b].sharedStateKeys
  }

  /** A wave is a conflict-free choice among the ready tasks that leaves one out only for a smaller id. */
  ghost predicate Wave(eligible: Tasks, materialized: set<string>, done: set<string>, wave: seq<string>) {
    && wave != []
    && Increasing(wave)
    && (forall id <- wave :: Ready(eligible, materialized, done, id))
    && (forall a, b | a in wave && b in wave && a != b :: !Conflict(eligible, a, b))
    && (forall id | Ready(eligible, materialized, done, id) && id !in wave ::
          exists other <- wave :: Before(other, id) && Conflict(eligible, id, other))
  }

  ghost predicate WavesSoFar(eligible: Tasks, materialized: set<string>, waves: seq<seq<string>>) {
    forall w | 0 <= w < |waves| :: Wave(eligible, materialized, Scheduled(waves[..w]), waves[w])
  }

  /** Waves up to the point where nothing more is ready */
  ghost predicate Schedule(eligible: Tasks, materialized: set<string>, waves: seq<seq<string>>) {
    && WavesSoFar(eligible, materialized, waves)
    && forall id :: !Ready(eligible, materialized, Scheduled(waves), id)
  }

  // ---------------------------------------------------------------- the scheduler

  /** `eligible` and `reasons` as the first loop leaves them */
  ghost predicate Partitioned(tasks: seq<PredictiveTask>, eligible: Tasks, reasons: map<string, seq<string>>) {
    && (forall t <- tasks ::
          if t.Precomputable() then t.taskId in eligible && eligible[t.taskId] == t && t.taskId !in reasons
          else t.taskId !in eligible && t.taskId in reasons && reasons[t.taskId] == Sorted(t.Why()))
    && (forall id <- eligible :: eligible[id] in tasks && eligible[id].taskId == id)
    && (forall id <- reasons :: id in TaskIds(tasks))
  }

  method PartitionTasks(tasks: seq<PredictiveTask>) returns (eligible: Tasks, reasons: map<string, seq<string>>)
    requires DistinctTasks(tasks)
    ensures Partitioned(tasks, eligible, reasons)
  {
    hide Partitioned, Sorted;
    eligible, reasons := map[], map[];
    PartitionNone();
    for i := 0 to |tasks|
      invariant Partitioned(tasks[..i], eligible, reasons)
    {
      var task := tasks[i];
      assert tasks[..i + 1] == tasks[..i] + [task];
      PartitionOne(tasks[..i], task, eligible, reasons);
      if task.Why() != {} {
        reasons := reasons[task.taskId := Sorted(task.Why())];
      } else {
        eligible := eligible[task.taskId := task];
      }
    }
    assert tasks[..|tasks|] == tasks;
  }

  lemma PartitionNone()
    ensures Partitioned([], map[], map[])
  {
  }

  lemma PartitionOne(tasks: seq<PredictiveTask>, task: PredictiveTask, eligible: Tasks, reasons: map<string, seq<string>>)
    requires Partitioned(tasks, eligible, reasons) && forall t <- tasks :: t.taskId != task.taskId
    ensures if task.Why() != {} then Partitioned(tasks + [task], eligible, reasons[task.taskId := Sorted(task.Why())])
            else Partitioned(tasks + [task], eligible[task.taskId := task], reasons)
  {
    hide Sorted;
    WhyNotPrecomputable(task);
    hide PredictiveTask.Why, PredictiveTask.Precomputable;
    assert forall t <- tasks + [task] :: t in tasks || t == task;
    assert forall t <- tasks :: t in tasks + [task];
    assert task in tasks + [task];
  }

  lemma WhyNotPrecomputable(task: PredictiveTask)
    ensures task.Why() == {} <==> task.Precomputable()
  {
    if !task.Precomputable() {
      assert "side_effectful" in task.Why() || "irreversible" in task.Why() || "requires_authority" in task.Why()
          || "requires_observed_gate_outcome" in task.Why();
    }
  }

  /** The greedy pass over the ready tasks in id order */
  method PickWave(eligible: Tasks, materialized: set<string>, done: set<string>, ready: seq<string>) returns (wave: seq<string>)
    requires ready != [] && Increasing(ready)
    requires forall id :: id in ready <==> Ready(eligible, materialized, done, id)
    ensures Wave(eligible, materialized, done, wave)
  {
    hide Before, Ready, Greedy;
    assert forall i | 0 <= i < |ready| :: ready[i] in ready;
    ReadyIsEligible(eligible, materialized, done);
    wave := [];
    var usedKeys: set<string> := {};
    GreedyNone(eligible);
    for i := 0 to |ready|
      invariant i > 0 ==> wave != []
      invariant forall id <- wave :: id in eligible
      invariant usedKeys == KeysOf(eligible, wave)
      invariant Greedy(eligible, ready[..i], wave)
    {
      var id := ready[i];
      var keys := eligible[id].Keys();
      assert ready[..i + 1] == ready[..i] + [id];
      GreedyOne(eligible, ready[..i], wave, id);
      if keys * usedKeys == {} {
        wave := wave + [id];
        usedKeys := usedKeys + keys;
      }
    }
    assert ready[..|ready|] == ready;
    GreedyIsWave(eligible, materialized, done, ready, wave);
  }

  function KeysOf(eligible: Tasks, wave: seq<string>): set<string>
    requires forall id <- wave :: id in eligible
  {
    set id <- wave, k <- eligible[id].Keys() :: k
  }

  /** What the greedy pass has chosen from the ids considered so far */
  ghost predicate Greedy(eligible: Tasks, considered: seq<string>, wave: seq<string>) {
    && (forall id <- considered :: id in eligible)
    && Increasing(wave) && (forall id <- wave :: id in considered)
    && (forall a, b | a in wave && b in wave && a != b :: !Conflict(eligible, a, b))
    && (forall id | id in considered && id !in wave ::
          exists other <- wave :: Before(other, id) && Conflict(eligible, id, other))
  }

  lemma GreedyNone(eligible: Tasks)
    ensures Greedy(eligible, [], []) && KeysOf(eligible, []) == {}
  {
  }

  lemma GreedyOne(eligible: Tasks, considered: seq<string>, wave: seq<string>, id: string)
    requires Greedy(eligible, considered, wave) && id in eligible && forall x <- considered :: Before(x, id)
    ensures forall x <- wave :: x in eligible
    ensures if eligible[id].Keys() * KeysOf(eligible, wave) == {} then
              && Greedy(eligible, considered + [id], wave + [id])
              && KeysOf(eligible, wave + [id]) == KeysOf(eligible, wave) + eligible[id].Keys()
            else Greedy(eligible, considered + [id], wave) && wave != []
  {
    hide Before;
    if eligible[id].Keys() * KeysOf(eligible, wave) == {} {
      IncreasingSnoc(wave, id);
      forall x | x in wave ensures !Conflict(eligible, x, id) && !Conflict(eligible, id, x) {
        forall k | k in eligible[x].sharedStateKeys ensures k !in eligible[id].sharedStateKeys {
          assert k in eligible[x].Keys();
          assert k in KeysOf(eligible, wave) && k !in eligible[id].Keys() * KeysOf(eligible, wave);
        }
      }
    } else {
      var k :| k in eligible[id].Keys() && k in KeysOf(eligible, wave);
      var other :| other in wave && k in eligible[other].Keys();
      assert k in eligible[id].sharedStateKeys && k in eligible[other].sharedStateKeys;
      assert Before(other, id) && Conflict(eligible, id, other);
    }
  }

  lemma GreedyIsWave(eligible: Tasks, materialized: set<string>, done: set<string>, ready: seq<string>, wave: seq<string>)
    requires wave != [] && Greedy(eligible, ready, wave)
    requires forall id :: id in ready <==> Ready(eligible, materialized, done, id)
    ensures Wave(eligible, materialized, done, wave)
  {
    hide Before, Ready, Conflict;
    ReadyIsEligible(eligible, materialized, done);
  }

  lemma ReadyIsEligible(eligible: Tasks, materialized: set<string>, done: set<string>)
    ensures forall id | Ready(eligible, materialized, done, id) :: id in eligible
  {
  }

  method BuildWaves(eligible: Tasks, materialized: set<string>) returns (waves: seq<seq<string>>, remaining: set<string>)
    ensures Schedule(eligible, materialized, waves)
    ensures remaining == eligible.Keys - Scheduled(waves)
  {
    hide Wave, Scheduled;
    waves := [];
    remaining := eligible.Keys;
    var selected: set<string> := {};
    ScheduledNone();
    while remaining != {}
      invariant WavesSoFar(eligible, materialized, waves)
      invariant selected == Scheduled(waves) && remaining == eligible.Keys - selected
      decreases |remaining|
    {
      var ready := Sorted(set id | id in remaining && eligible[id].Dependencies() <= materialized + selected);
      forall id ensures id in ready <==> Ready(eligible, materialized, selected, id) {
        if id in eligible { DependenciesIn(eligible[id], materialized + selected); }
      }
      if ready == [] {
        break;
      }
      // A wave is never empty, so the fallback to the first ready task is never taken.
      var wave := PickWave(eligible, materialized, selected, ready);
      WaveShape(eligible, materialized, selected, wave);
      ScheduledOne(waves, wave);
      ghost var before := remaining;
      WavesGrow(eligible, materialized, waves, wave);
      waves := waves + [wave];
      selected := selected + set id | id in wave;
      remaining := remaining - set id | id in wave;
      assert wave[0] in before && remaining < before;
    }
  }

  lemma DependenciesIn(task: PredictiveTask, known: set<string>)
    ensures task.Dependencies() <= known <==> forall d <- task.dependsOn :: d in known
  {
    assert task.Dependencies() <= known ==> forall d <- task.dependsOn :: d in task.Dependencies();
  }

  lemma ScheduledNone()
    ensures Scheduled([]) == {}
  {
  }

  lemma ScheduledOne(waves: seq<seq<string>>, wave: seq<string>)
    ensures Scheduled(waves + [wave]) == Scheduled(waves) + set id | id in wave
  {
    assert forall w <- waves :: w in waves + [wave];
    assert wave in waves + [wave];
  }

  lemma WaveShape(eligible: Tasks, materialized: set<string>, done: set<string>, wave: seq<string>)
    requires Wave(eligible, materialized, done, wave)
    ensures wave != [] && forall id <- wave :: id in eligible && id !in done
    ensures wave[0] in wave
  {
  }

  lemma WavesGrow(eligible: Tasks, materialized: set<string>, waves: seq<seq<string>>, wave: seq<string>)
    requires WavesSoFar(eligible, materialized, waves) && Wave(eligible, materialized, Scheduled(waves), wave)
    ensures WavesSoFar(eligible, materialized, waves + [wave])
  {
    hide Wave, Scheduled;
    var all := waves + [wave];
    assert all[..|waves|] == waves;
    assert forall w | 0 <= w < |waves| :: all[..w] == waves[..w];
  }

  // ---------------------------------------------------------------- the plan

  function TaskOf(tasks: seq<PredictiveTask>, id: string): (r: PredictiveTask)
    requires id in TaskIds(tasks)
    ensures r in tasks && r.taskId == id
  {
    if tasks[0].taskId == id then tasks[0]
    else
      assert tasks == [tasks[0]] + tasks[1..];
      TaskOf(tasks[1..], id)
  }

  function Eligible(tasks: seq<PredictiveTask>): Tasks {
    map id | id in TaskIds(tasks) && TaskOf(tasks, id).Precomputable() :: TaskOf(tasks, id)
  }

  function ReasonFor(task: PredictiveTask): seq<string> {
    if task.Precomputable() then ["dependency_not_precomputable"] else Sorted(task.Why())
  }

  ghost predicate PlanFor(tasks: seq<PredictiveTask>, materialized: set<string>, plan: Plan) {
    && Schedule(Eligible(tasks), materialized, plan.waves)
    && plan.selectedTaskIds == InOrder(plan.waves)
    && plan.deferredTaskIds == Sorted(TaskIds(tasks) - Scheduled(plan.waves))
    && |plan.reasons| == |plan.deferredTaskIds|
    && forall i | 0 <= i < |plan.reasons| ::
         && plan.deferredTaskIds[i] in TaskIds(tasks)
         && plan.reasons[i] == (plan.deferredTaskIds[i], ReasonFor(TaskOf(tasks, plan.deferredTaskIds[i])))
  }

  lemma PartitionedIsEligible(tasks: seq<PredictiveTask>, eligible: Tasks, reasons: map<string, seq<string>>)
    requires DistinctTasks(tasks) && Partitioned(tasks, eligible, reasons)
    ensures eligible == Eligible(tasks)
    ensures forall id <- TaskIds(tasks) :: id !in eligible ==> id in reasons && reasons[id] == ReasonFor(TaskOf(tasks, id))
    ensures forall id <- eligible :: id !in reasons
    ensures eligible.Keys <= TaskIds(tasks)
  {
    hide Sorted, PredictiveTask.Why;
    forall id | id in TaskIds(tasks)
      ensures id in eligible <==> TaskOf(tasks, id).Precomputable()
      ensures id in eligible ==> eligible[id] == TaskOf(tasks, id)
    {
      var t := TaskOf(tasks, id);
      assert t in tasks;
    }
  }

  method BuildPrecomputationPlan(currentGateRef: string, tasks: seq<PredictiveTask>, alreadyMaterialized: seq<string>)
    returns (r: Result<Plan, PlanError>)
    ensures r == Failure(BlankText) <==> Blank(currentGateRef) || exists m <- alreadyMaterialized :: Blank(m)
    ensures r == Failure(DuplicateMaterialized)
       <==> !Blank(currentGateRef) && (forall m <- alreadyMaterialized :: !Blank(m))
            && !Distinct(Stripped(alreadyMaterialized))
    ensures r.Success?
       <==> && !Blank(currentGateRef) && (forall m <- alreadyMaterialized :: !Blank(m))
            && Distinct(Stripped(alreadyMaterialized)) && DistinctTasks(tasks)
            && DependenciesKnown(tasks, TaskIds(tasks) + MaterializedSet(alreadyMaterialized))
    ensures r.Success? ==>
              r.value.currentGateRef == currentGateRef && PlanFor(tasks, MaterializedSet(alreadyMaterialized), r.value)
  {
    hide Blank, Sorted, Partitioned, Schedule, Scheduled, DistinctTasks, DependenciesKnown, Eligible, Distinct;
    if Blank(currentGateRef) || exists m <- alreadyMaterialized :: Blank(m) {
      return Failure(BlankText);
    }
    if !Distinct(Stripped(alreadyMaterialized)) {
      return Failure(DuplicateMaterialized);
    }
    var materialized := MaterializedSet(alreadyMaterialized);
    if !DistinctTasks(tasks) {
      return Failure(DuplicateTasks);
    }
    if !DependenciesKnown(tasks, TaskIds(tasks) + materialized) {
      return Failure(UnknownDependencies);
    }
    var eligible, reasons := PartitionTasks(tasks);
    PartitionedIsEligible(tasks, eligible, reasons);
    var waves, remaining := BuildWaves(eligible, materialized);
    reasons := MarkLate(tasks, eligible, reasons, remaining);
    var deferred := Sorted(TaskIds(tasks) - Scheduled(waves));
    assert forall i | 0 <= i < |deferred| :: deferred[i] in deferred;
    return Success(Plan(currentGateRef, InOrder(waves), deferred, waves,
                        seq(|deferred|, i requires 0 <= i < |deferred| => (deferred[i], reasons[deferred[i]]))));
  }

  /** The last loop: every task still remaining gets its one reason. */
  method MarkLate(tasks: seq<PredictiveTask>, eligible: Tasks, before: map<string, seq<string>>, remaining: set<string>)
    returns (reasons: map<string, seq<string>>)
    requires eligible == Eligible(tasks) && remaining <= eligible.Keys
    requires forall id <- TaskIds(tasks) :: id !in eligible ==> id in before && before[id] == ReasonFor(TaskOf(tasks, id))
    requires forall id <- eligible :: id !in before
    ensures forall id <- TaskIds(tasks) :: id !in eligible || id in remaining ==>
              id in reasons && reasons[id] == ReasonFor(TaskOf(tasks, id))
  {
    hide Sorted, Eligible, ReasonFor;
    reasons := before;
    var late := Sorted(remaining);
    assert forall j | 0 <= j < |late| :: late[j] in late;
    for i := 0 to |late|
      invariant forall id <- TaskIds(tasks) :: id !in eligible ==> id in reasons && reasons[id] == ReasonFor(TaskOf(tasks, id))
      invariant forall j | 0 <= j < i :: late[j] in reasons && reasons[late[j]] == ["dependency_not_precomputable"]
      invariant forall j | i <= j < |late| :: late[j] !in reasons
    {
      LateReason();
      LaterDiffer(late, i);
      var why := EarlierReasons(reasons, late[i]) + {"dependency_not_precomputable"};
      assert why == {"dependency_not_precomputable"};
      reasons := reasons[late[i] := Sorted(why)];
    }
    forall id | id in remaining ensures id in reasons && reasons[id] == ["dependency_not_precomputable"] {
      assert id in late;
    }
    forall id | id in remaining ensures id in TaskIds(tasks) && ReasonFor(TaskOf(tasks, id)) == ["dependency_not_precomputable"] {
      EligibleTask(tasks, id);
    }
  }

  function EarlierReasons(reasons: map<string, seq<string>>, id: string): set<string> {
    if id in reasons then set why | why in reasons[id] else {}
  }

  function MaterializedSet(texts: seq<string>): set<string> { set m <- Stripped(texts) :: m }

  lemma LateReason()
    ensures Sorted({"dependency_not_precomputable"}) == ["dependency_not_precomputable"]
  {
    var id := "dependency_not_precomputable";
    assert id in Sorted({id});
    IncreasingUnique(Sorted({id}), [id]);
  }

  lemma LaterDiffer(late: seq<string>, i: nat)
    requires Increasing(late) && i < |late|
    ensures forall j | 0 <= j < |late| && j != i :: late[j] != late[i]
  {
    Irreflexive(late[i]);
  }

  lemma EligibleTask(tasks: seq<PredictiveTask>, id: string)
    requires id in Eligible(tasks)
    ensures id in TaskIds(tasks) && ReasonFor(TaskOf(tasks, id)) == ["dependency_not_precomputable"]
  {
  }

  // ---------------------------------------------------------------- what a schedule selects

  /** The eligible tasks whose dependencies are all materialized or done */
  function Enabled(eligible: Tasks, materialized: set<string>, done: set<string>): set<string> {
    set id | id in eligible && forall d <- eligible[id].dependsOn :: d in materialized || d in done
  }

  lemma {:induction false} WavesStayBelow(eligible: Tasks, materialized: set<string>, waves: seq<seq<string>>, closed: set<string>)
    requires WavesSoFar(eligible, materialized, waves) && Enabled(eligible, materialized, closed) <= closed
    ensures Scheduled(waves) <= closed
    ensures Scheduled(waves) <= Enabled(eligible, materialized, Scheduled(waves))
  {
    if waves != [] {
      var front, last := waves[..|waves| - 1], waves[|waves| - 1];
      assert waves == front + [last];
      assert forall w | 0 <= w < |front| :: front[..w] == waves[..w];
      WavesStayBelow(eligible, materialized, front, closed);
      ScheduledOne(front, last);
      assert Wave(eligible, materialized, Scheduled(front), last);
    }
  }

  /** Despite key conflicts, the selected tasks are exactly the least set closed under "eligible and all
      dependencies materialized or selected". */
  lemma SelectsLeastFixpoint(eligible: Tasks, materialized: set<string>, waves: seq<seq<string>>, closed: set<string>)
    requires Schedule(eligible, materialized, waves)
    ensures Enabled(eligible, materialized, Scheduled(waves)) == Scheduled(waves)
    ensures Enabled(eligible, materialized, closed) <= closed ==> Scheduled(waves) <= closed
  {
    hide Scheduled, WavesSoFar;
    WavesStayBelow(eligible, materialized, waves, eligible.Keys);
    if Enabled(eligible, materialized, closed) <= closed {
      WavesStayBelow(eligible, materialized, waves, closed);
    }
    forall id | id in Enabled(eligible, materialized, Scheduled(waves)) ensures id in Scheduled(waves) {
      assert !Ready(eligible, materialized, Scheduled(waves), id);
    }
  }

  /** No task is scheduled twice, and the selection lists exactly the scheduled tasks. */
  lemma {:induction false} SelectedOnce(eligible: Tasks, materialized: set<string>, waves: seq<seq<string>>)
    requires WavesSoFar(eligible, materialized, waves)
    ensures Distinct(InOrder(waves)) && forall id :: id in InOrder(waves) <==> id in Scheduled(waves)
  {
    hide Scheduled, Before;
    if waves != [] {
      var front, last := waves[..|waves| - 1], waves[|waves| - 1];
      assert waves == front + [last];
      assert forall w | 0 <= w < |front| :: front[..w] == waves[..w];
      SelectedOnce(eligible, materialized, front);
      ScheduledOne(front, last);
      assert Wave(eligible, materialized, Scheduled(front), last);
      AppendDistinct(InOrder(front), last);
    } else {
      ScheduledNone();
    }
  }

  lemma AppendDistinct(a: seq<string>, b: seq<string>)
    requires Distinct(a) && Increasing(b) && forall x <- b :: x !in a
    ensures Distinct(a + b)
  {
    hide Before;
    forall i, j | 0 <= i < j < |b| ensures b[i] != b[j] {
      Irreflexive(b[i]);
    }
    assert forall j | 0 <= j < |b| :: b[j] in b;
  }

  /** An eligible task is deferred only because one of its dependencies is a deferred task. */
  lemma DeferredHasDeferredDependency(tasks: seq<PredictiveTask>, materialized: set<string>, plan: Plan, id: string)
    requires PlanFor(tasks, materialized, plan) && DependenciesKnown(tasks, TaskIds(tasks) + materialized)
    requires id in plan.deferredTaskIds && id in Eligible(tasks)
    ensures exists d <- Eligible(tasks)[id].dependsOn :: d in plan.deferredTaskIds
  {
    hide Scheduled, Sorted, WavesSoFar;
    SelectsLeastFixpoint(Eligible(tasks), materialized, plan.waves, {});
    var task := Eligible(tasks)[id];
    assert task in tasks;
    assert id !in Enabled(Eligible(tasks), materialized, Scheduled(plan.waves));
    var d :| d in task.dependsOn && d !in materialized && d !in Scheduled(plan.waves);
    assert d in TaskIds(tasks) + materialized;
    assert d in TaskIds(tasks) - Scheduled(plan.waves);
  }

  // ---------------------------------------------------------------- the plan is determined

  lemma WaveUnique(eligible: Tasks, materialized: set<string>, done: set<string>, a: seq<string>, b: seq<string>)
    requires Wave(eligible, materialized, done, a) && Wave(eligible, materialized, done, b)
    ensures a == b
  {
    hide Before, Conflict;
    var differing := (set id | id in a && id !in b) + (set id | id in b && id !in a);
    if differing != {} {
      var x := Least(differing);
      var inside, outside := if x in a then a else b, if x in a then b else a;
      var y :| y in outside && Before(y, x) && Conflict(eligible, x, y);
      if y in differing { Transitive(x, y, x); }
      Irreflexive(x);
    }
    assert forall id :: id in a <==> id in b by {
      forall id ensures id in a <==> id in b { assert id !in differing; }
    }
    IncreasingUnique(a, b);
  }

  /** Readiness, key conflicts and the id order leave the scheduler no choice. */
  lemma {:induction false} ScheduleUnique(eligible: Tasks, materialized: set<string>, a: seq<seq<string>>, b: seq<seq<string>>)
    requires Schedule(eligible, materialized, a) && Schedule(eligible, materialized, b)
    ensures a == b
  {
    hide Wave, Scheduled;
    CommonPrefix(eligible, materialized, a, b, if |a| <= |b| then |a| else |b|);
    assert |a| < |b| ==> b[..|a|] == a;
    assert |b| < |a| ==> a[..|b|] == b;
    if |a| < |b| { NextWaveIsReady(eligible, materialized, Scheduled(a), b[|a|]); }
    if |b| < |a| { NextWaveIsReady(eligible, materialized, Scheduled(b), a[|b|]); }
    assert a[..|a|] == a && b[..|b|] == b;
  }

  lemma NextWaveIsReady(eligible: Tasks, materialized: set<string>, done: set<string>, wave: seq<string>)
    requires Wave(eligible, materialized, done, wave)
    ensures wave != [] && Ready(eligible, materialized, done, wave[0])
  {
  }

  lemma {:induction false} CommonPrefix(eligible: Tasks, materialized: set<string>, a: seq<seq<string>>, b: seq<seq<string>>,
                                        k: nat)
    requires WavesSoFar(eligible, materialized, a) && WavesSoFar(eligible, materialized, b) && k <= |a| && k <= |b|
    ensures a[..k] == b[..k]
    decreases k
  {
    hide Wave, Scheduled;
    if k > 0 {
      CommonPrefix(eligible, materialized, a, b, k - 1);
      WaveUnique(eligible, materialized, Scheduled(a[..k - 1]), a[k - 1], b[k - 1]);
      assert a[..k] == a[..k - 1] + [a[k - 1]] && b[..k] == b[..k - 1] + [b[k - 1]];
    }
  }

  /** The plan depends only on which tasks there are, not on the order they are listed in. */
  lemma PlanIsOrderIndependent(a: seq<PredictiveTask>, b: seq<PredictiveTask>, materialized: set<string>, p: Plan, q: Plan)
    requires DistinctTasks(a) && DistinctTasks(b) && forall t :: t in a <==> t in b
    requires PlanFor(a, materialized, p) && PlanFor(b, materialized, q)
    ensures p == q.(currentGateRef := p.currentGateRef)
  {
    hide Schedule, Scheduled, Sorted, ReasonFor;
    SameTasks(a, b);
    ScheduleUnique(Eligible(a), materialized, p.waves, q.waves);
    forall i | 0 <= i < |p.reasons| ensures p.reasons[i] == q.reasons[i] {
      assert p.deferredTaskIds[i] in TaskIds(a);
    }
    assert p.reasons == q.reasons;
  }

  lemma SameTasks(a: seq<PredictiveTask>, b: seq<PredictiveTask>)
    requires DistinctTasks(a) && DistinctTasks(b) && forall t :: t in a <==> t in b
    ensures TaskIds(a) == TaskIds(b) && Eligible(a) == Eligible(b)
    ensures forall id <- TaskIds(a) :: TaskOf(a, id) == TaskOf(b, id)
  {
    hide PredictiveTask.Precomputable;
    forall id | id in TaskIds(a) ensures TaskOf(a, id) == TaskOf(b, id) {
      assert TaskOf(a, id) in a && TaskOf(b, id) in a;
    }
  }
}
