/** What the result of an orchestration run tells its caller. */
module Reports {
  import opened Options
  import opened Plans
  import Graphs
  import opened Memory
  import opened Review
  import opened Notices
  import opened Scheduler
  import opened Graph
  import opened Runs
  import opened Accounting
  import opened Epochs
  import opened Justified
  import opened Outcomes
  import opened Traces
  import opened Claims
  import SmoothRuns
  import opened Orchestrator
  import opened Rules

  ghost function ReportOf(s: State): OrchestrationResult {
    Summary(s.memory, s.plan, s.reason, s.response, s.counters)
  }

  /** The result of a prepared run names the reason the run ended for, never the default one, says
      completed exactly when that is completion, and repeats what the run ended with: its sentence,
      its plan, its memory, the tools and the tasks in the order they ran, its counters. */
  lemma ReportIsTrue(env: Env)
    requires env.Valid()
    ensures var r, s := ReportOf(Final(env)), Final(env);
            && s.reason == Some(r.reason)
            && (r.completed <==> s.reason == Some(Completion))
            && (r.reason == MemoryFailure <==> !env.writeOk)
            && r.response == s.response && r.plan == s.plan && r.counters == s.counters
            && r.episodes == s.memory.episodes && r.reviews == s.memory.reviews && r.reflections == s.memory.reflections
            && r.evidence == s.memory.evidence && |r.toolSequence| == |s.memory.evidence|
            && (forall i | 0 <= i < |r.toolSequence| :: r.toolSequence[i] == s.memory.evidence[i].toolName)
            && |r.executionOrder| == |s.memory.executions|
            && (forall i | 0 <= i < |r.executionOrder| :: r.executionOrder[i] == s.memory.executions[i].taskId)
  {
    hide At, Final, Env.Valid;
    MemoryFailureMeansUnwritten(env);
  }

  /** A run whose tools could not be prepared fails with one counted failure, without a plan or a
      step; that is what is remembered, and reported unless it could not be written. */
  lemma UnpreparedReport(env: Env)
    ensures var r, m := ReportOf(Unprepared(env)), Unprepared(env).memory;
            && !r.completed && r.plan == None && r.executionOrder == [] && r.toolSequence == [] && r.evidence == []
            && r.episodes == [] && r.reviews == [] && r.reflections == []
            && r.counters.failures == 1 && r.counters.steps == 0 && r.counters.toolCalls == 0
            && r.counters.modelCalls == 0 && r.counters.plannerCalls == 0 && r.counters.reviewerCalls == 0
            && m.finalOutcome == Some("failed") && m.currentPlan == None && m.executions == [] && m.reviews == []
            && r.reason == (if env.writeOk then ExecutorFailure else MemoryFailure)
            && r.response == if env.writeOk then "Orchestration could not prepare its discovered tool boundary."
                             else "Orchestration ended, but episodic memory persistence failed."
  {
    hide Text;
    BoundarySays();
    PersistenceSays();
  }

  lemma BoundarySays()
    ensures Text(BoundaryFailed) == "Orchestration could not prepare its discovered tool boundary."
  {
  }

  /** A result that says completed lists, from the adoption of its plan on, every task of that plan
      once, each after all it depends on, with the tool its plan names; and the last calls of the
      run are exactly the planned calls of these tasks, in the same order, with the arguments their
      references resolved to on the evidence before them. */
  lemma CompletedReport(env: Env)
    requires Wired(env) && ReportOf(Final(env)).completed
    ensures var r, s := ReportOf(Final(env)), Final(env);
            && env.writeOk && r.plan.Some? && ValidPlan(r.plan.value) && AllCompleted(r.plan.value.tasks)
            && s.epoch <= |r.executionOrder| == |r.toolSequence| == |r.evidence|
            && multiset(r.executionOrder[s.epoch..]) == multiset(IdList(r.plan.value.tasks))
            && Respects(r.plan.value.tasks, r.executionOrder, s.epoch)
            && (forall i | s.epoch <= i < |r.evidence| ::
                  Useful(r.evidence[i]) && r.evidence[i].taskId == r.executionOrder[i])
            && |r.executionOrder| - s.epoch <= |s.trace|
            && (forall i: nat | s.epoch <= i < |r.executionOrder| :: CallReported(r, s.trace, i))
  {
    hide At, Final, Env.Valid, Env.FreshPlans, HasUnsupportedClaim, ValidTask, AllCompleted, Built, Useful,
         Respects, Ordered, Dependencies, CallReported, Matched;
    ReportIsTrue(env);
    CompletionIsJustified(env);
    var r, s := ReportOf(Final(env)), Final(env);
    var h := Current(s);
    assert TaskIds(h) == r.executionOrder[s.epoch..];
    OrderOfReport(r.plan.value.tasks, h, r.executionOrder, s.epoch);
    FinalIsMatched(env);
    UsefulIsWell(s);
    CallsReported(s);
  }

  /** The report names the tool planned for the task at place `i`, and the call at that place,
      counted from the end, is the task's. */
  ghost predicate CallReported(r: OrchestrationResult, trace: seq<Invocation>, i: nat)
    requires r.plan.Some?
  {
    var tasks, j := r.plan.value.tasks, |trace| - |r.executionOrder| + i;
    && i < |r.executionOrder| && i < |r.toolSequence| && i < |r.evidence| && 0 <= j < |trace|
    && exists k | 0 <= k < |tasks| ::
         && tasks[k].taskId == r.executionOrder[i] && r.toolSequence[i] == trace[j].tool
         && Called(tasks[k], r.evidence[..i], trace[j])
  }

  lemma FinalIsMatched(env: Env)
    requires env.Valid()
    ensures Matched(Final(env))
  {
    hide At, Final, Env.Valid, CalledAt;
    var p := FinalIsPersisted(env);
    AlwaysMatched(env, p);
    var s := At(env, p).state;
    PersistRests(env, s);
    SameTasksReflexive(s);
    UnmovedStaysMatched(s, Persist(env, s));
  }

  lemma UsefulIsWell(s: State)
    requires forall i | s.epoch <= i < |s.memory.evidence| :: Useful(s.memory.evidence[i])
    ensures AllWell(s)
  {
  }

  lemma CallsReported(s: State)
    requires Matched(s) && s.plan.Some? && AllWell(s)
    ensures var r := ReportOf(s);
            && |r.executionOrder| - s.epoch <= |s.trace|
            && forall i: nat | s.epoch <= i < |r.executionOrder| :: CallReported(r, s.trace, i)
  {
    hide Called, AllWell;
    forall i: nat | s.epoch <= i < |s.memory.executions| ensures CallReported(ReportOf(s), s.trace, i) {
      assert CalledAt(s, i);
    }
  }

  /** In the default wiring a completed run's response says exactly what its evidence shows. */
  lemma CompletedResponseIsExact(env: Env)
    requires Wired(env) && DefaultText(env) && ReportOf(Final(env)).completed
    ensures var r := ReportOf(Final(env));
            && (Says(r.response, "refund completed") <==> Decided(r.evidence, "approved"))
            && (Says(r.response, "pending human approval") <==> Decided(r.evidence, "pending_human_approval"))
            && (Says(r.response, "ticket was created") <==> TicketIsOpen(r.evidence))
  {
    hide At, Final, Env.Valid, Env.FreshPlans, DefaultText, BuildFinalResponse, Says, Decided, TicketIsOpen;
    ReportIsTrue(env);
    SmoothRuns.CompletedText(env);
    BuiltTextIsExact(Final(env).memory.evidence);
  }

  /** From the given place on, nothing is listed before all it depends on. */
  ghost predicate Respects(tasks: seq<PlanTask>, order: seq<string>, epoch: nat)
    requires DistinctIds(tasks)
  {
    && epoch <= |order|
    && forall i, j | epoch <= i < |order| && order[i] in Dependencies(tasks) && j in Dependencies(tasks)[order[i]] ::
         j in order[epoch..i]
  }

  lemma OrderOfReport(tasks: seq<PlanTask>, h: History, order: seq<string>, epoch: nat)
    requires DistinctIds(tasks) && Ordered(tasks, h)
    requires epoch <= |order| && TaskIds(h) == order[epoch..]
    ensures Respects(tasks, order, epoch)
  {
    hide Dependencies;
    forall i, j | epoch <= i < |order| && order[i] in Dependencies(tasks) && j in Dependencies(tasks)[order[i]]
      ensures j in order[epoch..i]
    {
      var k := i - epoch;
      assert order[epoch..][k] == order[i] == h[k].taskId;
      assert Graphs.Edge(Dependencies(tasks), h[k].taskId, j);
      var x :| x in h[..k] && x.taskId == j && x.status == Completed;
      var m :| 0 <= m < k && h[m] == x;
      assert order[epoch..i][m] == order[epoch..][m] == h[m].taskId;
    }
  }
}
