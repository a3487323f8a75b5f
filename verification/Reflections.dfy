/** What a run keeps in its memory: the plan it is on, and for each reflection the review it is
    about. */
module Reflections {
  import opened Options
  import opened Plans
  import opened Memory
  import opened Scheduler
  import opened Selection
  import opened Keys
  import References
  import opened Notices
  import opened Graph
  import opened Runs
  import opened Effects
  import opened Accounting
  import Ledger

  /** The text, or another one in its place when it is empty or missing. */
  ghost function Given(text: Option<string>, instead: string): string {
    match text
    case None => instead
    case Some(s) => if s == "" then instead else s
  }

  /** Reflection `j` is about this review of that task. */
  ghost predicate Copies(reflection: Reflection, j: nat, review: ReviewResult, taskId: string) {
    && reflection.number == j + 1 && reflection.taskId == Some(taskId)
    && reflection.failureType == Given(review.failureType, "insufficient_evidence")
    && reflection.reason == review.reason && reflection.missingEvidence == review.missingEvidence
    && reflection.recommended == match review.recommended
                                 case None => Replan
                                 case Some(decision) => decision
  }

  /** Reflection `j` is about a review that asked for it. */
  ghost predicate AboutReview(m: WorkingMemory, j: nat)
    requires j < |m.reflections|
  {
    exists i: nat ::
      && i < |m.reviews| && i < |m.executions| && m.reviews[i].decision == Reflect
      && Copies(m.reflections[j], j, m.reviews[i], m.executions[i].taskId)
  }

  /** Until the run ends, memory holds the plan in force; the task being reviewed is the one executed
      last; a reflection is due for a review that asked for it; and every reflection is about one. */
  ghost predicate Remembered(node: Node, s: State) {
    && (!Ending(node) ==> s.memory.currentPlan == s.plan)
    && (node == ReviewerNode || node == ReflectionNode ==>
          && s.memory.executions != []
          && s.current == Some(s.memory.executions[|s.memory.executions| - 1].taskId))
    && (node == ReflectionNode ==>
          s.memory.reviews != [] && s.memory.reviews[|s.memory.reviews| - 1].decision == Reflect
          && |s.memory.reviews| == |s.memory.executions|)
    && (!Ending(node) ==> s.counters.reflections == |s.memory.reflections|)
    && forall j: nat | j < |s.memory.reflections| :: AboutReview(s.memory, j)
  }

  /** Reviews and history only grow, and reflections stay. */
  lemma ReflectionsStay(s: State, t: State)
    requires forall j: nat | j < |s.memory.reflections| :: AboutReview(s.memory, j)
    requires t.memory.reflections == s.memory.reflections
    requires s.memory.reviews <= t.memory.reviews && s.memory.executions <= t.memory.executions
    ensures forall j: nat | j < |t.memory.reflections| :: AboutReview(t.memory, j)
  {
    hide Copies;
    forall j: nat | j < |t.memory.reflections| ensures AboutReview(t.memory, j) {
      assert AboutReview(s.memory, j);
      var i: nat :| && i < |s.memory.reviews| && i < |s.memory.executions| && s.memory.reviews[i].decision == Reflect
                    && Copies(s.memory.reflections[j], j, s.memory.reviews[i], s.memory.executions[i].taskId);
      assert t.memory.reviews[i] == s.memory.reviews[i] && t.memory.executions[i] == s.memory.executions[i];
    }
  }

  lemma PlannerRemembers(env: Env, node: Node, s: State)
    requires env.Valid() && PlanValid(s) && Remembered(node, s) && (node == Planner || node == ReplanNode)
    ensures var t := InvokePlanner(env, s, Counted(s.counters), node == ReplanNode);
            Remembered(Target(t.route), t)
  {
    hide Env.Valid, ValidPlan, Plan, AboutReview, PlanFingerprint, Count, Text, Verdict;
    var c := Counted(s.counters);
    Ledger.AttemptsGiven(env);
    PlannedIsValid(env, if node == ReplanNode then c.(replans := c.replans + 1) else c, 1);
    var t := InvokePlanner(env, s, c, node == ReplanNode);
    ReflectionsStay(s, t);
  }

  lemma SchedulerRemembers(s: State, c: Counters)
    requires PlanSound(s) && Remembered(SchedulerNode, s) && c == Counted(s.counters)
    ensures var t := Schedule(s, c);
            Remembered(Target(t.route), t)
  {
    hide Schedule, ValidPlan, Verdict, SettledPlan, Blocking, Readying, Choice, AboutReview, Text, Stuck;
    ScheduleEffect(s, c);
    ReflectionsStay(s, Schedule(s, c));
  }

  lemma ExecutorRemembers(env: Env, s: State, c: Counters)
    requires PlanSound(s) && Placed(s) && Remembered(ExecutorNode, s) && c == Counted(s.counters)
    ensures var t := ExecuteCurrent(env, s, c);
            Remembered(Target(t.route), t)
  {
    hide ValidPlan, Verdict, Ids, Execute, IndexOf, AboutReview, Text, SameTasks;
    IndexOfMember(s.plan.value.tasks, s.current.value);
    var i := IndexOf(s.plan.value.tasks, s.current.value).value;
    ExecutionKeeps(env, s.plan.value.tasks[i], s.memory.evidence, c, s.taskFingerprints, s.sideEffects);
    ReflectionsStay(s, ExecuteCurrent(env, s, c));
  }

  lemma ExecutionKeeps(env: Env, task: PlanTask, evidence: seq<ToolEvidence>, c: Counters,
                       repeated: map<string, nat>, sideEffects: set<string>)
    ensures var o := Execute(env, task, evidence, c, repeated, sideEffects);
            o.Finished? ==> o.execution.taskId == task.taskId && o.counters.reflections == c.reflections
  {
    hide References.Resolve, CanonicalCall, EvidenceOf, ResultOf, Count, Text;
  }

  lemma ActRemembers(s: State, current: PlanTask, memory: WorkingMemory, c: Counters, review: ReviewResult,
                     candidate: string)
    ensures var t := ActOnReview(s, current, memory, c, review, candidate);
            && t.memory == memory.(finalOutcome := t.memory.finalOutcome) && t.plan == s.plan && t.current == s.current
            && (t.route == ToReflection <==> review.decision == Reflect)
            && t.counters.reflections == c.reflections
  {
    hide FailReason;
  }

  lemma ReviewerRemembers(env: Env, s: State, c: Counters)
    requires Placed(s) && Remembered(ReviewerNode, s) && c == Counted(s.counters)
    requires |s.memory.reviews| + 1 == |s.memory.executions|
    ensures var t := ReviewCurrent(env, s, c);
            Remembered(Target(t.route), t)
  {
    hide IndexOf, Ids, ReviewOf, ActOnReview, Candidate, AboutReview, Text;
    IndexOfMember(s.plan.value.tasks, s.current.value);
    var tasks, memory := s.plan.value.tasks, s.memory.(currentPlan := s.plan);
    var task := tasks[IndexOf(tasks, s.current.value).value];
    var asked := c.(reviewerCalls := c.reviewerCalls + 1);
    var reply := ReviewOf(env, c.reviewerCalls, tasks, task, memory);
    if reply.Reviewed? {
      ActRemembers(s, task, memory.(reviews := memory.reviews + [reply.review]), asked, reply.review,
                   Candidate(env, tasks, memory).GetOr(""));
    }
    var t := ReviewCurrent(env, s, c);
    ReflectionsStay(s, t);
    if reply.Reviewed? {
      var u := ActOnReview(s, task, memory.(reviews := memory.reviews + [reply.review]), asked, reply.review,
                           Candidate(env, tasks, memory).GetOr(""));
      RouteOfAct(s, task, memory.(reviews := memory.reviews + [reply.review]), asked, reply.review,
                 Candidate(env, tasks, memory).GetOr(""));
    }
  }

  lemma RouteOfAct(s: State, current: PlanTask, memory: WorkingMemory, c: Counters, review: ReviewResult,
                   candidate: string)
    ensures var t := ActOnReview(s, current, memory, c, review, candidate);
            t.route in {ToScheduler, ToReflection, ToReplan, ToPersist}
  {
    hide FailReason;
  }

  lemma ReflectionRemembers(env: Env, s: State, c: Counters)
    requires Remembered(ReflectionNode, s) && c == Counted(s.counters)
    ensures var t := ReflectOnReview(env, s, c);
            Remembered(Target(t.route), t)
  {
    hide Text;
    var t := ReflectOnReview(env, s, c);
    if t.route == ToReplan {
      var last, m := |s.memory.reflections|, |s.memory.reviews| - 1;
      forall j: nat | j < |t.memory.reflections| ensures AboutReview(t.memory, j) {
        if j < last {
          assert AboutReview(s.memory, j);
          var i: nat :| && i < |s.memory.reviews| && i < |s.memory.executions|
                        && s.memory.reviews[i].decision == Reflect
                        && Copies(s.memory.reflections[j], j, s.memory.reviews[i], s.memory.executions[i].taskId);
          assert t.memory.reflections[j] == s.memory.reflections[j];
        } else {
          assert Copies(t.memory.reflections[last], last, t.memory.reviews[m], t.memory.executions[m].taskId);
        }
      }
    } else {
      ReflectionsStay(s, t);
    }
  }

  lemma IdleRemembers(env: Env, k: Configuration)
    requires env.Valid() && Accounting.Sound(env, k) && Idle(env, k) && Remembered(k.node, k.state)
    ensures var n := Step(env, k); Remembered(n.node, n.state)
  {
    hide Env.Valid, PlanSound, Placed, AboutReview, Text;
    if k.node == RetrieveMemory {
      Ledger.FirstNodesHaveSteps(env, k);
    }
    ReflectionsStay(k.state, Step(env, k).state);
  }

  lemma RememberedAfterStep(env: Env, k: Configuration)
    requires env.Valid() && Accounting.Sound(env, k) && Remembered(k.node, k.state)
    requires k.node == ReviewerNode ==> |k.state.memory.reviews| + 1 == |k.state.memory.executions|
    ensures var n := Step(env, k); Remembered(n.node, n.state)
  {
    hide Env.Valid, ValidPlan, PlanSound, Placed, Accounted, Remembered, InvokePlanner, Schedule, ExecuteCurrent,
         ReviewCurrent, ReflectOnReview, Retrieve, Persist, OutOfSteps;
    var s, c := k.state, Counted(k.state.counters);
    if Idle(env, k) {
      IdleRemembers(env, k);
    } else {
      match k.node
      case Planner => PlannerRemembers(env, Planner, s);
      case ReplanNode => PlannerRemembers(env, ReplanNode, s);
      case SchedulerNode => SchedulerRemembers(s, c);
      case ExecutorNode => ExecutorRemembers(env, s, c);
      case ReviewerNode => ReviewerRemembers(env, s, c);
      case ReflectionNode => ReflectionRemembers(env, s, c);
      case _ =>
    }
  }

  /** At every moment of every run, for every planner, tool and reviewer. */
  lemma {:induction false} AlwaysRemembered(env: Env, k: nat)
    requires env.Valid()
    ensures Remembered(At(env, k).node, At(env, k).state)
  {
    hide RunNode, Step, Env.Valid, Accounting.Sound, Remembered, Ledger.Limited, Ledger.Failures, Ledger.Overruled;
    if k > 0 {
      AlwaysRemembered(env, k - 1);
      AlwaysSound(env, k - 1);
      Ledger.AlwaysBalanced(env, k - 1);
      NextOf(env, k - 1);
      RememberedAfterStep(env, At(env, k - 1));
    } else {
      NothingRemembered();
    }
  }

  lemma NothingRemembered()
    ensures Remembered(RetrieveMemory, INITIAL)
  {
  }
}
