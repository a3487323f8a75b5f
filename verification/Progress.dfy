/** Scheduling makes progress: an acyclic plan whose tasks are waiting or completed, not all
    completed, always has a runnable task. */
module Progress {
  import opened Options
  import opened Plans
  import opened Graphs
  import opened Review
  import opened Scheduler
  import opened Selection

  /** No task has failed or is blocked or stuck running. */
  ghost predicate Lively(tasks: seq<PlanTask>) {
    forall i | 0 <= i < |tasks| :: Waiting(tasks[i]) || tasks[i].status == Completed
  }

  /** Following unfinished dependencies down the ranking ends at a runnable task. */
  lemma {:induction false} Descend(tasks: seq<PlanTask>, rank: map<string, nat>, i: nat) returns (r: nat)
    requires DistinctIds(tasks) && Lively(tasks) && i < |tasks| && Waiting(tasks[i])
    requires Closed(Dependencies(tasks)) && Ranking(Dependencies(tasks), rank)
    requires tasks[i].taskId in rank
    ensures r < |tasks| && Runnable(tasks, tasks[r])
    decreases rank[tasks[i].taskId]
  {
    hide Runnable, HasStatus;
    if Runnable(tasks, tasks[i]) {
      return i;
    }
    var d := Obstacle(tasks, i);
    assert Edge(Dependencies(tasks), tasks[i].taskId, d);
    var k :| 0 <= k < |tasks| && tasks[k].taskId == d;
    CompletedTask(tasks, k);
    r := Descend(tasks, rank, k);
  }

  lemma Obstacle(tasks: seq<PlanTask>, i: nat) returns (d: string)
    requires i < |tasks| && Waiting(tasks[i]) && !Runnable(tasks, tasks[i])
    ensures d in tasks[i].dependencies && !HasStatus(tasks, d, Completed)
  {
    d :| d in tasks[i].dependencies && !HasStatus(tasks, d, Completed);
  }

  lemma CompletedTask(tasks: seq<PlanTask>, k: nat)
    requires k < |tasks|
    ensures tasks[k].status == Completed ==> HasStatus(tasks, tasks[k].taskId, Completed)
  {
  }

  lemma SomethingIsRunnable(tasks: seq<PlanTask>) returns (r: nat)
    requires DistinctIds(tasks) && Verdict(tasks) == None && Lively(tasks) && !AllCompleted(tasks)
    ensures r < |tasks| && Runnable(tasks, tasks[r])
  {
    hide Runnable;
    var t :| t in tasks && t.status != Completed;
    var i :| 0 <= i < |tasks| && tasks[i] == t;
    var rank :| Ranking(Dependencies(tasks), rank);
    assert tasks[i].taskId in Dependencies(tasks);
    r := Descend(tasks, rank, i);
  }

  /** Nothing is blocked, and the choice exists. */
  lemma LivelyPlanIsServed(tasks: seq<PlanTask>)
    requires DistinctIds(tasks) && Verdict(tasks) == None && Lively(tasks) && !AllCompleted(tasks)
    ensures Blocking(tasks) == tasks && Choice(tasks).Some?
    ensures Lively(Readying(tasks)) && !AllCompleted(Readying(tasks))
  {
    hide Verdict, Runnable, BestUpTo;
    NothingDoomed(tasks);
    var r := SomethingIsRunnable(tasks);
    ReadyingStaysLively(tasks);
  }

  lemma NothingDoomed(tasks: seq<PlanTask>)
    requires Lively(tasks)
    ensures Blocking(tasks) == tasks
  {
    forall id ensures !HasStatus(tasks, id, Failed) && !HasStatus(tasks, id, Blocked) {
    }
  }

  lemma ReadyingStaysLively(tasks: seq<PlanTask>)
    requires Lively(tasks) && !AllCompleted(tasks)
    ensures Lively(Readying(tasks)) && !AllCompleted(Readying(tasks))
  {
    hide HasStatus;
    var t :| t in tasks && t.status != Completed;
    var i :| 0 <= i < |tasks| && tasks[i] == t;
    assert Readying(tasks)[i] in Readying(tasks);
  }
}
