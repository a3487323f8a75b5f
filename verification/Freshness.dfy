/** What a running task can see: for its direct and transitive dependencies, the evidence they
    left under the current plan, and never that of a like-named task of an earlier plan. */
module Freshness {
  import opened Options
  import opened Json
  import opened Plans
  import opened Graphs
  import opened Memory
  import opened References
  import opened Scheduler
  import opened Selection
  import opened Graph
  import opened Runs
  import opened Accounting
  import opened Epochs

  /** `a` is a direct or transitive dependency of `task`. */
  ghost predicate Ancestor(g: Graphs.Graph, task: string, a: string) {
    exists w :: Path(g, w, task, a)
  }

  ghost predicate Path(g: Graphs.Graph, w: seq<string>, task: string, a: string) {
    |w| >= 2 && Walk(g, w) && w[0] == task && w[|w| - 1] == a
  }

  /** Everything a completed task stands on has completed. */
  lemma {:induction false} AncestorsRan(tasks: seq<PlanTask>, h: History, w: seq<string>)
    requires DistinctIds(tasks) && Ordered(tasks, h)
    requires w != [] && Walk(Dependencies(tasks), w) && Ran(h, w[0], Completed)
    ensures Ran(h, w[|w| - 1], Completed)
  {
    hide Dependencies;
    if |w| > 1 {
      assert Edge(Dependencies(tasks), w[0], w[1]);
      var x :| x in h && x.taskId == w[0] && x.status == Completed;
      var i :| 0 <= i < |h| && h[i] == x;
      assert Ran(h[..i], w[1], Completed);
      var y :| y in h[..i] && y.taskId == w[1] && y.status == Completed;
      assert y in h;
      AncestorsRan(tasks, h, w[1..]);
    }
  }

  /** All ancestors of a runnable task have run and completed under this plan. */
  lemma RunnableAncestorsRan(tasks: seq<PlanTask>, h: History, i: nat, a: string)
    requires DistinctIds(tasks) && Ordered(tasks, h) && Reflected(tasks, h)
    requires i < |tasks| && Runnable(tasks, tasks[i]) && Ancestor(Dependencies(tasks), tasks[i].taskId, a)
    ensures Ran(h, a, Completed)
  {
    hide Ordered, Reflected, HasStatus;
    var w :| Path(Dependencies(tasks), w, tasks[i].taskId, a);
    assert Edge(Dependencies(tasks), w[0], w[1]);
    assert w[1] in tasks[i].dependencies;
    CompletedHasRun(tasks, h, w[1]);
    AncestorsRan(tasks, h, w[1..]);
  }

  /** Evidence in the later part hides that of the earlier part. */
  lemma {:induction false} LatestInSuffix(evidence: seq<ToolEvidence>, from: nat, id: string)
    requires from <= |evidence|
    ensures Latest(evidence[from..], id).Some? ==>
              Latest(evidence, id) == Some(from + Latest(evidence[from..], id).value)
  {
    if from < |evidence| {
      var last := |evidence| - 1;
      assert evidence[from..][|evidence[from..]| - 1] == evidence[last];
      assert evidence[from..][..|evidence[from..]| - 1] == evidence[..last][from..];
      LatestInSuffix(evidence[..last], from, id);
    }
  }

  lemma RanLeftEvidence(m: WorkingMemory, from: nat, id: string)
    requires Documented(m) && from <= |m.executions| && Ran(m.executions[from..], id, Completed)
    ensures Latest(m.evidence[from..], id).Some?
  {
    var h := m.executions[from..];
    var x :| x in h && x.taskId == id && x.status == Completed;
    var j :| 0 <= j < |h| && h[j] == x;
    assert m.executions[from + j] == x && m.evidence[from..][j] == m.evidence[from + j];
  }

  /** The task a reference names. */
  ghost predicate Names(reference: string, id: string) {
    Partition(reference).Some? && Partition(reference).value.0 == id
  }

  /** Every reference of the task names one of its ancestors. */
  ghost predicate RefersToAncestors(tasks: seq<PlanTask>, t: PlanTask)
    requires DistinctIds(tasks)
  {
    t.call.Some? ==>
      forall r | r in ReferencesIn(Obj(t.call.value.arguments)) ::
        exists a :: Names(r, a) && Ancestor(Dependencies(tasks), t.taskId, a)
  }

  lemma ReferenceIsFresh(evidence: seq<ToolEvidence>, from: nat, reference: string, id: string)
    requires from <= |evidence| && Names(reference, id) && Latest(evidence[from..], id).Some?
    ensures ResolveReference(reference, evidence) == ResolveReference(reference, evidence[from..])
  {
    LatestInSuffix(evidence, from, id);
  }

  /** Task `i` is current and stands, directly or not, on task `a`. */
  ghost predicate StandsOn(s: State, i: nat, a: string) {
    && AtTask(s, i) && DistinctIds(s.plan.value.tasks)
    && Ancestor(Dependencies(s.plan.value.tasks), s.plan.value.tasks[i].taskId, a)
  }

  /** The `e`-th evidence is the latest success of `a`, recorded since the plan was adopted, and
      the only evidence under that name since then. */
  ghost predicate OwnEvidence(s: State, a: string, e: nat) {
    && s.epoch <= e < |s.memory.evidence| == |s.memory.executions|
    && Latest(s.memory.evidence, a) == Some(e)
    && s.memory.executions[e].taskId == a && s.memory.executions[e].status == Completed
    && forall j | s.epoch <= j < |s.memory.evidence| && s.memory.evidence[j].taskId == a :: j == e
  }

  lemma AncestorLeftEvidence(s: State, i: nat, a: string) returns (e: nat)
    requires Topological(ExecutorNode, s) && StandsOn(s, i, a)
    ensures OwnEvidence(s, a, e)
  {
    hide ValidTask, Reflected, Runnable, Dependencies, IndexOf;
    var p := PreparedPlace(s);
    SamePlace(s, i, p);
    RunnableAncestorsRan(s.plan.value.tasks, Current(s), i, a);
    RanLeftEvidence(s.memory, s.epoch, a);
    LatestInSuffix(s.memory.evidence, s.epoch, a);
    e := s.epoch + Latest(s.memory.evidence[s.epoch..], a).value;
    OnlyOnce(s, e, a);
  }

  /** When a task is about to run, each reference to an ancestor finds that ancestor's own
      evidence of this epoch. */
  lemma AncestorEvidenceIsCurrent(env: Env, k: nat, i: nat, a: string)
    requires env.Valid() && env.FreshPlans()
    ensures var c := At(env, k);
            c.node == ExecutorNode && StandsOn(c.state, i, a) ==> exists e: nat :: OwnEvidence(c.state, a, e)
  {
    hide At, Env.Valid, Env.FreshPlans, StandsOn, OwnEvidence, Topological;
    AlwaysTopological(env, k);
    if At(env, k).node == ExecutorNode && StandsOn(At(env, k).state, i, a) {
      var e := AncestorLeftEvidence(At(env, k).state, i, a);
    }
  }

  lemma SamePlace(s: State, i: nat, j: nat)
    requires PlanValid(s) && AtTask(s, i) && AtTask(s, j)
    ensures i == j
  {
  }

  lemma OnlyOnce(s: State, e: nat, a: string)
    requires InOrder(s) && s.plan.Some? && s.epoch <= e < |s.memory.evidence| && s.memory.evidence[e].taskId == a
    ensures forall j | s.epoch <= j < |s.memory.evidence| && s.memory.evidence[j].taskId == a :: j == e
  {
    var h := Current(s);
    forall j | s.epoch <= j < |s.memory.evidence| && s.memory.evidence[j].taskId == a ensures j == e {
      assert h[j - s.epoch] == s.memory.executions[j] && h[e - s.epoch] == s.memory.executions[e];
    }
  }

  /** Task `i` is current, has a call, and refers to its ancestors only. */
  ghost predicate Referring(s: State, i: nat) {
    && AtTask(s, i) && DistinctIds(s.plan.value.tasks)
    && s.plan.value.tasks[i].call.Some? && RefersToAncestors(s.plan.value.tasks, s.plan.value.tasks[i])
  }

  /** The references of task `i` name the same values without the evidence of earlier plans. */
  ghost predicate ResolvesFreshly(s: State, i: nat)
    requires Referring(s, i)
  {
    && s.epoch <= |s.memory.evidence|
    && var arguments := Obj(s.plan.value.tasks[i].call.value.arguments);
       forall r :: Replaced(arguments, r, s.memory.evidence) <==> Replaced(arguments, r, s.memory.evidence[s.epoch..])
  }

  lemma ReferringResolvesFreshly(s: State, i: nat)
    requires Topological(ExecutorNode, s) && Referring(s, i)
    ensures ResolvesFreshly(s, i)
  {
    hide ValidTask, Ordered, Reflected, Runnable, Dependencies, IndexOf, ReferencesIn, Resolve,
         Replaced, ResolveReference;
    var p := PreparedPlace(s);
    SamePlace(s, i, p);
    var arguments := Obj(s.plan.value.tasks[i].call.value.arguments);
    forall r | r in ReferencesIn(arguments)
      ensures ResolveReference(r, s.memory.evidence) == ResolveReference(r, s.memory.evidence[s.epoch..])
    {
      var a :| Names(r, a) && Ancestor(Dependencies(s.plan.value.tasks), s.plan.value.tasks[i].taskId, a);
      RunnableAncestorsRan(s.plan.value.tasks, Current(s), i, a);
      RanLeftEvidence(s.memory, s.epoch, a);
      ReferenceIsFresh(s.memory.evidence, s.epoch, r, a);
    }
    ResolveByReferences(arguments, s.memory.evidence, s.memory.evidence[s.epoch..]);
    forall v ensures Replaced(arguments, v, s.memory.evidence) <==>
                     Replaced(arguments, v, s.memory.evidence[s.epoch..])
    {
      ResolveReplaces(arguments, v, s.memory.evidence);
      ResolveReplaces(arguments, v, s.memory.evidence[s.epoch..]);
    }
  }

  /** Reference freshness: the arguments a task runs with are those its references resolve to
      against this epoch's evidence alone; all evidence of earlier plans could be erased. */
  lemma ArgumentsAreFresh(env: Env, k: nat, i: nat)
    requires env.Valid() && env.FreshPlans()
    ensures var c := At(env, k);
            c.node == ExecutorNode && Referring(c.state, i) ==> ResolvesFreshly(c.state, i)
  {
    hide At, Env.Valid, Env.FreshPlans, Referring, ResolvesFreshly, Topological;
    AlwaysTopological(env, k);
    if At(env, k).node == ExecutorNode && Referring(At(env, k).state, i) {
      ReferringResolvesFreshly(At(env, k).state, i);
    }
  }

  lemma PreparedIsUntried(s: State, i: nat)
    requires Topological(ExecutorNode, s) && AtTask(s, i)
    ensures s.plan.value.tasks[i].attempts == 0
  {
    hide ValidTask, Ordered, Ran, HasStatus;
    var p := PreparedPlace(s);
    SamePlace(s, i, p);
    assert MarkedBy(s.plan.value.tasks[i], Current(s));
  }

  /** A task always runs on its first attempt, so the attempt limit of the executor node is
      never what ends a run. */
  lemma AttemptIsFirst(env: Env, k: nat, i: nat)
    requires env.Valid() && env.FreshPlans()
    ensures var c := At(env, k);
            c.node == ExecutorNode && AtTask(c.state, i) ==>
              c.state.plan.value.tasks[i].attempts == 0 < env.config.maxTaskAttempts
  {
    hide At, Env.FreshPlans, AtTask, Topological;
    AlwaysTopological(env, k);
    if At(env, k).node == ExecutorNode && AtTask(At(env, k).state, i) {
      PreparedIsUntried(At(env, k).state, i);
    }
  }
}
