/** Selection of the next task: block what cannot run, mark what can, take the best. */
module Selection {
  import opened Options
  import opened Plans
  import opened Graphs
  import opened Scheduler

  predicate HasStatus(tasks: seq<PlanTask>, id: string, status: TaskStatus) {
    exists t | t in tasks :: t.taskId == id && t.status == status
  }

  predicate Waiting(t: PlanTask) {
    t.status == Pending || t.status == Ready
  }

  predicate Doomed(tasks: seq<PlanTask>, t: PlanTask) {
    Waiting(t) && exists d | d in t.dependencies :: HasStatus(tasks, d, Failed) || HasStatus(tasks, d, Blocked)
  }

  predicate Runnable(tasks: seq<PlanTask>, t: PlanTask) {
    Waiting(t) && forall d | d in t.dependencies :: HasStatus(tasks, d, Completed)
  }

  function BlockTask(tasks: seq<PlanTask>, t: PlanTask): PlanTask {
    if Doomed(tasks, t) then t.(status := Blocked, failureReason := Some("blocked_by_failed_dependency")) else t
  }

  /** Waiting tasks below a failed or blocked one become blocked, judged by the statuses found. */
  function Blocking(tasks: seq<PlanTask>): (r: seq<PlanTask>)
    ensures |r| == |tasks| && forall i | 0 <= i < |r| :: r[i] == BlockTask(tasks, tasks[i])
  {
    seq(|tasks|, i requires 0 <= i < |tasks| => BlockTask(tasks, tasks[i]))
  }

  function ReadyTask(tasks: seq<PlanTask>, t: PlanTask): PlanTask {
    if Runnable(tasks, t) then t.(status := Ready) else t
  }

  function Readying(tasks: seq<PlanTask>): (r: seq<PlanTask>)
    ensures |r| == |tasks| && forall i | 0 <= i < |r| :: r[i] == ReadyTask(tasks, tasks[i])
  {
    seq(|tasks|, i requires 0 <= i < |tasks| => ReadyTask(tasks, tasks[i]))
  }

  /** `i` is a runnable task of least priority number, the earliest listed among equals. */
  ghost predicate Preferred(tasks: seq<PlanTask>, i: nat) {
    && i < |tasks| && Runnable(tasks, tasks[i])
    && forall j | 0 <= j < |tasks| && Runnable(tasks, tasks[j]) ::
         tasks[i].priority < tasks[j].priority || (tasks[i].priority == tasks[j].priority && i <= j)
  }

  /** The index of the best runnable task. */
  function Choice(tasks: seq<PlanTask>): (best: Option<nat>)
    ensures best.Some? ==> Preferred(tasks, best.value)
    ensures best.None? <==> forall i | 0 <= i < |tasks| :: !Runnable(tasks, tasks[i])
  {
    BestUpTo(tasks, |tasks|)
  }

  function BestUpTo(tasks: seq<PlanTask>, n: nat): (best: Option<nat>)
    requires n <= |tasks|
    ensures best.Some? ==>
              && best.value < n && Runnable(tasks, tasks[best.value])
              && forall j | 0 <= j < n && Runnable(tasks, tasks[j]) ::
                   || tasks[best.value].priority < tasks[j].priority
                   || (tasks[best.value].priority == tasks[j].priority && best.value <= j)
    ensures best.None? <==> forall j | 0 <= j < n :: !Runnable(tasks, tasks[j])
  {
    if n == 0 then None
    else
      var before := BestUpTo(tasks, n - 1);
      if Runnable(tasks, tasks[n - 1])
         && (before.None? || tasks[n - 1].priority < tasks[before.value].priority)
      then Some(n - 1)
      else before
  }

  datatype Selected = Rejected(reason: Termination) | Settling(tasks: seq<PlanTask>, choice: Option<nat>)

  /** `DependencyScheduler.select`: the error it raises, or the updated plan and its choice. */
  ghost function Selecting(tasks: seq<PlanTask>): Selected
    requires DistinctIds(tasks)
  {
    var error := Verdict(tasks);
    if error.Some? then Rejected(error.value)
    else Settling(Readying(Blocking(tasks)), Choice(Blocking(tasks)))
  }

  /** The dict of statuses built by `select`. */
  method Statuses(tasks: seq<PlanTask>) returns (statuses: map<string, TaskStatus>)
    requires DistinctIds(tasks)
    ensures statuses.Keys == Ids(tasks)
    ensures forall id, s | id in statuses :: statuses[id] == s <==> HasStatus(tasks, id, s)
  {
    statuses := map t | t in tasks :: t.taskId := t.status;
    forall id, s | id in statuses ensures statuses[id] == s <==> HasStatus(tasks, id, s) {
      var t :| t in tasks && t.taskId == id;
      assert statuses[id] == t.status;
    }
  }

  ghost predicate KnownDependencies(tasks: seq<PlanTask>) {
    forall i, d | 0 <= i < |tasks| && d in tasks[i].dependencies :: d in Ids(tasks)
  }

  /** The first loop of `select`. */
  method BlockDoomed(plan: seq<PlanTask>) returns (tasks: seq<PlanTask>)
    requires DistinctIds(plan) && KnownDependencies(plan)
    ensures tasks == Blocking(plan)
  {
    var statuses := Statuses(plan);
    tasks := plan;
    for i := 0 to |plan|
      invariant |tasks| == |plan|
      invariant forall j | 0 <= j < |plan| :: tasks[j] == if j < i then BlockTask(plan, plan[j]) else plan[j]
    {
      var failed := exists d | d in plan[i].dependencies :: statuses[d] == Failed || statuses[d] == Blocked;
      if Waiting(plan[i]) && failed {
        tasks := tasks[i := plan[i].(status := Blocked, failureReason := Some("blocked_by_failed_dependency"))];
      }
    }
  }

  /** The `ready` list of `select`, as places in the plan. */
  method ReadyPlaces(tasks: seq<PlanTask>) returns (ready: seq<nat>)
    requires DistinctIds(tasks) && KnownDependencies(tasks)
    ensures forall k | 0 <= k < |ready| :: ready[k] < |tasks| && Runnable(tasks, tasks[ready[k]])
    ensures forall i: nat | i < |tasks| && Runnable(tasks, tasks[i]) :: i in ready
  {
    var statuses := Statuses(tasks);
    ready := [];
    for i := 0 to |tasks|
      invariant forall k | 0 <= k < |ready| :: ready[k] < i && Runnable(tasks, tasks[ready[k]])
      invariant forall j: nat | j < i && Runnable(tasks, tasks[j]) :: j in ready
    {
      if Waiting(tasks[i]) && forall d | d in tasks[i].dependencies :: statuses[d] == Completed {
        ready := ready + [i];
      }
    }
  }

  /** The second loop of `select`. */
  method MarkReady(tasks: seq<PlanTask>, ready: seq<nat>) returns (marked: seq<PlanTask>)
    requires forall k | 0 <= k < |ready| :: ready[k] < |tasks| && Runnable(tasks, tasks[ready[k]])
    requires forall i: nat | i < |tasks| && Runnable(tasks, tasks[i]) :: i in ready
    ensures marked == Readying(tasks)
  {
    marked := tasks;
    for k := 0 to |ready|
      invariant |marked| == |tasks|
      invariant forall j: nat | j < |tasks| ::
                  marked[j] == if j in ready[..k] then tasks[j].(status := Ready) else tasks[j]
    {
      marked := marked[ready[k] := marked[ready[k]].(status := Ready)];
    }
    assert ready[..|ready|] == ready;
    assert forall j: nat | j < |tasks| :: j in ready <==> Runnable(tasks, tasks[j]);
  }

  /** `min(ready, key=...)`: least priority, then first in the plan. */
  method Least(tasks: seq<PlanTask>, ready: seq<nat>) returns (best: nat)
    requires ready != []
    requires forall k | 0 <= k < |ready| :: ready[k] < |tasks| && Runnable(tasks, tasks[ready[k]])
    requires forall i: nat | i < |tasks| && Runnable(tasks, tasks[i]) :: i in ready
    ensures Preferred(tasks, best)
  {
    best := ready[0];
    for k := 1 to |ready|
      invariant best in ready[..k]
      invariant forall m | 0 <= m < k ::
                  || tasks[best].priority < tasks[ready[m]].priority
                  || (tasks[best].priority == tasks[ready[m]].priority && best <= ready[m])
    {
      var t, b := tasks[ready[k]], tasks[best];
      if t.priority < b.priority || (t.priority == b.priority && ready[k] < best) {
        best := ready[k];
      }
    }
  }

  /** At most one place is preferred, so it is the choice. */
  lemma PreferredIsChoice(tasks: seq<PlanTask>, i: nat)
    requires Preferred(tasks, i)
    ensures Choice(tasks) == Some(i)
  {
    var best := Choice(tasks);
    assert best.Some?;
    assert Preferred(tasks, best.value);
  }

  lemma BlockingKeepsIds(tasks: seq<PlanTask>)
    ensures Ids(Blocking(tasks)) == Ids(tasks)
  {
    var bs := Blocking(tasks);
    forall id ensures id in Ids(bs) <==> id in Ids(tasks) {
      if id in Ids(tasks) {
        var k :| 0 <= k < |tasks| && tasks[k].taskId == id;
        assert bs[k].taskId == id;
      }
      if id in Ids(bs) {
        var k :| 0 <= k < |bs| && bs[k].taskId == id;
        assert tasks[k].taskId == id;
      }
    }
  }

  lemma BlockingKeepsGraph(tasks: seq<PlanTask>)
    requires DistinctIds(tasks) && KnownDependencies(tasks)
    ensures DistinctIds(Blocking(tasks)) && KnownDependencies(Blocking(tasks))
  {
    BlockingKeepsIds(tasks);
  }

  lemma SoundIsKnown(tasks: seq<PlanTask>)
    requires DistinctIds(tasks) && Sound(Dependencies(tasks))
    ensures KnownDependencies(tasks)
  {
    forall i, d | 0 <= i < |tasks| && d in tasks[i].dependencies ensures d in Ids(tasks) {
      assert Edge(Dependencies(tasks), tasks[i].taskId, d);
    }
  }

  /** `DependencyScheduler.select`. */
  method Select(plan: seq<PlanTask>) returns (result: Selected)
    requires DistinctIds(plan)
    ensures result == Selecting(plan)
  {
    var error := Validate(plan);
    if error.Some? {
      return Rejected(error.value);
    }
    SoundIsKnown(plan);
    BlockingKeepsGraph(plan);
    var tasks := BlockDoomed(plan);
    var marked, choice := PickReady(tasks);
    return Settling(marked, choice);
  }

  /** The rest of `select`, on the statuses after blocking. */
  method PickReady(tasks: seq<PlanTask>) returns (marked: seq<PlanTask>, choice: Option<nat>)
    requires DistinctIds(tasks) && KnownDependencies(tasks)
    ensures marked == Readying(tasks) && choice == Choice(tasks)
  {
    var ready := ReadyPlaces(tasks);
    marked := MarkReady(tasks, ready);
    if ready == [] {
      return marked, None;
    }
    var best := Least(tasks, ready);
    PreferredIsChoice(tasks, best);
    return marked, Some(best);
  }
}
