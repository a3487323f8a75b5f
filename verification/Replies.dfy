/** Runs of the evidence reviewer, read off what the tools reply: which replies such a run has
    had, what it has spent on them, and when it can end UNSUPPORTED_COMPLETION_CLAIM. */
module Replies {
  import opened Options
  import opened Json
  import opened Plans
  import opened Memory
  import opened Review
  import opened Scheduler
  import opened Selection
  import opened Graph
  import opened Answers
  import opened Runs
  import opened Effects
  import opened Accounting
  import opened Epochs
  import opened Progress
  import opened Justified
  import opened Denials
  import opened Traces
  import Ledger

  /** The reply is no success and not worth another attempt: the reviewer fails the run for it. */
  ghost predicate Hopeless(reply: ToolReply) {
    exists kind, ambiguous :: FailedWith(reply, kind, false, ambiguous)
  }

  /** How many of the first `n` replies send the run back to the planner. */
  ghost function Setbacks(tools: nat -> ToolReply, n: nat): nat {
    if n == 0 then 0 else Setbacks(tools, n - 1) + if UsefulReply(tools(n - 1)) then 0 else 1
  }

  /** How many successes with data end with reply `n - 1`. */
  ghost function Streak(tools: nat -> ToolReply, n: nat): nat {
    if n == 0 || !UsefulReply(tools(n - 1)) then 0 else Streak(tools, n - 1) + 1
  }

  /** Reply `n` is a permanent failure under the reviewer's name for a denied claim, none before it
      was hopeless, no streak of successes is enough to complete the longest plan, and the budgets
      last until it is reviewed: a call and three steps for each reply, a replan, a reflection and
      two more steps for each setback. */
  ghost predicate Deniable(config: Config, tools: nat -> ToolReply, n: nat) {
    && SaysDenial(tools(n)) && (forall m: nat | m < n :: !Hopeless(tools(m)))
    && (forall m: nat | m <= n :: Streak(tools, m) < MAX_TASKS)
    && n < config.maxToolCalls
    && Setbacks(tools, n) <= config.maxReplans && Setbacks(tools, n) <= config.maxReflections
    && 2 + 3 * (n + 1) + 2 * Setbacks(tools, n) <= config.maxSteps
  }

  // ---------------------------------------------------------------------
  // The invariant

  /** The evidence reviewed so far. */
  function Reviewed(node: Node, s: State): int {
    |s.memory.evidence| - if node == ReviewerNode then 1 else 0
  }

  /** Each reply so far left one piece of evidence and none was hopeless, but perhaps the one now to
      be reviewed; each setback cost a reflection and a replan; and the current plan began where
      the streak did. */
  ghost predicate Paced(env: Env, node: Node, s: State) {
    var c, e, n := s.counters, s.memory.evidence, Reviewed(node, s);
    && 0 <= n <= |s.trace| <= |e|
    && (forall i: nat | i < n :: MadeOf(e[i], env.tools(i)) && !Hopeless(env.tools(i)))
    && (node == ReviewerNode ==> if |s.trace| == n then Uncalled(e[n])
                              else MadeOf(e[n], env.tools(n)) && e[n].toolName == s.trace[n].tool)
    && (node == ReflectionNode ==> Setbacks(env.tools, n) == c.reflections + 1)
    && (node != ReflectionNode ==> Setbacks(env.tools, n) == c.reflections)
    && c.reflections == c.replans + (if node == ReplanNode then 1 else 0)
    && (forall m: nat | m <= n :: Streak(env.tools, m) < MAX_TASKS)
    && (node == ReflectionNode || node == ReplanNode ==> Streak(env.tools, n) == 0)
    && (node == SchedulerNode || node == ExecutorNode || node == ReviewerNode ==> Streak(env.tools, n) + s.epoch == n)
  }

  ghost predicate Spelled(env: Env, node: Node, s: State) {
    && (!Ending(node) ==> Paced(env, node, s))
    && (node == PersistMemory && s.reason == Some(UnsupportedCompletionClaim) ==>
          exists n: nat :: Deniable(env.config, env.tools, n))
  }

  lemma MadeIsUseful(e: ToolEvidence, reply: ToolReply)
    requires MadeOf(e, reply)
    ensures Useful(e) <==> UsefulReply(reply)
    ensures Hopeless(reply) <==> !e.ok && !e.retryable
    ensures SaysDenial(reply) <==> Forged(e)
  {
    hide FailedWith;
    ReplyIsOne(reply);
    GaveIsNoFailure(reply);
  }

  // ---------------------------------------------------------------------
  // A plan is completed by as many executions as it has tasks

  lemma {:induction false} Fewer(h: History, ids: set<string>)
    requires forall i, j | 0 <= i < j < |h| :: h[i].taskId != h[j].taskId
    requires forall i | 0 <= i < |h| :: h[i].taskId in ids
    ensures |h| <= |ids|
    ensures |h| == |ids| ==> forall id | id in ids :: exists i | 0 <= i < |h| :: h[i].taskId == id
  {
    if h != [] {
      var last := |h| - 1;
      var rest := ids - {h[last].taskId};
      assert h[last].taskId in ids && |rest| == |ids| - 1;
      Fewer(h[..last], rest);
      if |h| == |ids| {
        forall id | id in ids ensures exists i | 0 <= i < |h| :: h[i].taskId == id {
          if id != h[last].taskId {
            assert id in rest;
            var i :| 0 <= i < |h[..last]| && h[..last][i].taskId == id;
            assert h[i].taskId == id;
          }
        }
      }
    }
  }

  lemma {:induction false} IdsAreFew(tasks: seq<PlanTask>)
    ensures |Ids(tasks)| <= |tasks|
  {
    if tasks == [] {
      assert Ids(tasks) == {};
    } else {
      var last := |tasks| - 1;
      IdsAreFew(tasks[..last]);
      assert tasks == tasks[..last] + [tasks[last]];
      assert Ids(tasks) == Ids(tasks[..last]) + {tasks[last].taskId};
    }
  }

  /** While a plan is not completed and all it executed succeeded, it has executed less than its
      tasks. */
  lemma UnfinishedIsShort(tasks: seq<PlanTask>, h: History)
    requires DistinctIds(tasks) && Ordered(tasks, h) && Reflected(tasks, h) && !AllCompleted(tasks)
    requires forall i | 0 <= i < |h| :: h[i].status == Completed
    ensures |h| < |tasks|
  {
    Fewer(h, Ids(tasks));
    IdsAreFew(tasks);
    if |h| == |Ids(tasks)| {
      forall i | 0 <= i < |tasks| ensures tasks[i].status == Completed {
        var k :| 0 <= k < |h| && h[k].taskId == tasks[i].taskId;
        assert h[k] in h;
        assert MarkedBy(tasks[i], h);
      }
    }
  }

  lemma EpochIsShort(env: Env, k: nat)
    requires Wired(env)
    ensures var c := At(env, k);
            c.node == SchedulerNode ==> |c.state.memory.evidence| - c.state.epoch < MAX_TASKS
  {
    hide At, Env.Valid, Env.FreshPlans, Ordered, Reflected, AllCompleted, ValidTask, Lively, HasUnsupportedClaim, Built;
    AlwaysTopological(env, k);
    AlwaysSupported(env, k);
    var s := At(env, k).state;
    if At(env, k).node == SchedulerNode {
      forall i | 0 <= i < |Current(s)| ensures Current(s)[i].status == Completed {
        assert Useful(s.memory.evidence[s.epoch + i]);
      }
      UnfinishedIsShort(s.plan.value.tasks, Current(s));
    }
  }

  // ---------------------------------------------------------------------
  // The nodes

  lemma PacedAfterExecutor(env: Env, s: State, c: Counters)
    requires PlanSound(s) && Placed(s) && Paced(env, ExecutorNode, s) && c == Counted(s.counters)
    requires c.toolCalls == |s.trace|
    ensures var t := ExecuteCurrent(env, s, c);
            Spelled(env, Target(t.route), t)
  {
    hide ExecuteCurrent, Verdict, ValidTask, Ids, IndexOf, SameTasks, Uncalled, Paced, Deniable, EvidenceOf;
    IndexOfMember(s.plan.value.tasks, s.current.value);
    var i := IndexOf(s.plan.value.tasks, s.current.value).value;
    var t := ExecuteCurrent(env, s, c);
    ExecuteEffect(env, s, c, i);
    ExecutionCalls(env, s, c, i);
    if Executed(s, i, t) {
      var call := s.plan.value.tasks[i].call.value;
      EvidenceIsMade(s.plan.value.tasks[i], call.name, env.tools(c.toolCalls));
      ExecutionIsPaced(env, s, t);
    }
  }

  /** One more execution is to be reviewed. */
  lemma ExecutionIsPaced(env: Env, s: State, t: State)
    requires Paced(env, ExecutorNode, s) && |t.memory.evidence| == |s.memory.evidence| + 1
    requires t.memory.evidence[..|s.memory.evidence|] == s.memory.evidence && t.epoch == s.epoch
    requires t.counters.reflections == s.counters.reflections && t.counters.replans == s.counters.replans
    requires var e := t.memory.evidence[|s.memory.evidence|];
             if |t.trace| == |s.trace| then Uncalled(e)
             else
               && |t.trace| == |s.trace| + 1 && MadeOf(e, env.tools(|s.trace|))
               && e.toolName == t.trace[|s.trace|].tool
    ensures Paced(env, ReviewerNode, t)
  {
    hide MadeOf, Hopeless, Uncalled, Setbacks, Streak;
  }

  lemma UncalledIsNotForged(e: ToolEvidence)
    requires Uncalled(e)
    ensures !Forged(e) && !Useful(e) && !Inconclusive(e)
  {
    assert |DENIED| != |"unknown_tool"| && |DENIED| != |"invalid_evidence_reference"|;
  }

  /** Where the reviewer leads, by the evidence last in memory. */
  lemma ReviewLeads(env: Env, s: State, c: Counters)
    requires env.reviewer == EvidenceBased && PlanValid(s) && Supported(env, ReviewerNode, s)
    ensures s.plan.Some? && s.current.Some? && s.memory.evidence != []
    ensures var t, e := ReviewCurrent(env, s, c), s.memory.evidence[|s.memory.evidence| - 1];
            && (t.route == ToScheduler ==> Useful(e)) && (t.route == ToReflection ==> Inconclusive(e))
            && (t.route == ToPersist || t.route == ToScheduler || t.route == ToReflection)
            && Unmoved(s, t) && t.epoch == s.epoch && SameBudget(c, t.counters)
  {
    hide ReviewCurrent, ValidPlan, HasUnsupportedClaim, AllCompleted, JustRan, Env.Valid, Backed, IndexOf,
         Useful, Inconclusive;
    var i := JustRanPlace(s);
    EvidencePresent(s, i);
    ReviewEffect(env, s, c);
    EvidenceVerdict(env, s, c, i);
  }

  /** The reviewer goes on only after a reply that was not hopeless. */
  lemma PacedAfterReviewer(env: Env, s: State, c: Counters)
    requires env.reviewer == EvidenceBased && PlanValid(s) && Supported(env, ReviewerNode, s)
    requires Paced(env, ReviewerNode, s) && c == Counted(s.counters)
    requires var t := ReviewCurrent(env, s, c);
             t.route == ToScheduler ==> |t.memory.evidence| - t.epoch < MAX_TASKS
    ensures var t := ReviewCurrent(env, s, c);
            !Ending(Target(t.route)) ==> Paced(env, Target(t.route), t)
  {
    hide ReviewCurrent, PlanValid, Supported, Env.Valid, MadeOf, Hopeless, UsefulReply, Uncalled,
         Useful, Inconclusive, Forged, Paced, Unmoved;
    ReviewLeads(env, s, c);
    var n := |s.memory.evidence| - 1;
    var e := s.memory.evidence[n];
    UsefulOrNot(e);
    var t := ReviewCurrent(env, s, c);
    if t.route != ToPersist {
      LastIsMade(env, s);
      MadeIsUseful(e, env.tools(n));
      PacedOn(env, s, t, Target(t.route));
    }
  }

  /** Evidence without a call ends the run. */
  lemma LastIsMade(env: Env, s: State)
    requires Paced(env, ReviewerNode, s)
    ensures var n := |s.memory.evidence| - 1;
            && 0 <= n
            && (Useful(s.memory.evidence[n]) || Inconclusive(s.memory.evidence[n]) ==>
                  MadeOf(s.memory.evidence[n], env.tools(n)) && |s.trace| == n + 1)
  {
    hide MadeOf, Hopeless, Uncalled, Useful, Inconclusive, Forged;
    var n := |s.memory.evidence| - 1;
    if |s.trace| == n {
      UncalledIsNotForged(s.memory.evidence[n]);
    }
  }

  /** One more reply has been reviewed. */
  lemma PacedOn(env: Env, s: State, t: State, next: Node)
    requires Paced(env, ReviewerNode, s) && s.memory.evidence != []
    requires Unmoved(s, t) && t.epoch == s.epoch
    requires t.counters.reflections == s.counters.reflections && t.counters.replans == s.counters.replans
    requires var n := |s.memory.evidence| - 1;
             && MadeOf(s.memory.evidence[n], env.tools(n)) && |s.trace| == n + 1 && !Hopeless(env.tools(n))
             && (next == SchedulerNode || next == ReflectionNode)
             && (next == SchedulerNode ==>
                   UsefulReply(env.tools(n)) && |t.memory.evidence| - t.epoch < MAX_TASKS)
             && (next == ReflectionNode ==> !UsefulReply(env.tools(n)))
    ensures Paced(env, next, t)
  {
    hide MadeOf, Hopeless, Uncalled, UsefulReply, Setbacks, Streak;
    OneMoreReply(env.tools, |s.memory.evidence| - 1);
  }

  /** The setbacks and the streak after one more reply. */
  lemma OneMoreReply(tools: nat -> ToolReply, m: nat)
    ensures Setbacks(tools, m + 1) == Setbacks(tools, m) + if UsefulReply(tools(m)) then 0 else 1
    ensures Streak(tools, m + 1) == if UsefulReply(tools(m)) then Streak(tools, m) + 1 else 0
  {
  }

  lemma UsefulOrNot(e: ToolEvidence)
    ensures Inconclusive(e) ==> !Useful(e) && (e.ok || e.retryable)
    ensures Useful(e) ==> e.ok
  {
  }

  /** A denial under review is of a reply that denies, within the budgets. */
  lemma DenialIsPaid(env: Env, s: State)
    requires LastSays(s) && Paced(env, ReviewerNode, s)
    requires Accounted(env, ReviewerNode, s) && Ledger.Limited(env, s) && s.counters.steps < env.config.maxSteps
    ensures exists n: nat :: Deniable(env.config, env.tools, n)
  {
    hide MadeOf, Hopeless, SaysDenial, Forged, Uncalled, Setbacks, Streak, Count;
    var n: nat := |s.memory.evidence| - 1;
    var e := s.memory.evidence[n];
    if |s.trace| == n {
      UncalledIsNotForged(e);
      assert false;
    }
    MadeIsUseful(e, env.tools(n));
    assert Deniable(env.config, env.tools, n);
  }

  lemma DenialIsReviewed(env: Env, s: State, c: Counters)
    requires env.reviewer == EvidenceBased && DefaultText(env) && PlanValid(s) && Supported(env, ReviewerNode, s)
    ensures var t := ReviewCurrent(env, s, c);
            t.route == ToPersist && t.reason == Some(UnsupportedCompletionClaim) ==> LastSays(s)
  {
    hide ReviewCurrent, PlanValid, Supported, DefaultText, Forged;
    DeniedAfterReviewer(env, s, c);
    ReviewLeads(env, s, c);
  }

  /** Nothing is executed or reviewed from `s` to `t`. */
  lemma PacedAcross(env: Env, node: Node, s: State, next: Node, t: State)
    requires Paced(env, node, s) && Unmoved(s, t)
    requires node != ReviewerNode && next != ReviewerNode && next != ReflectionNode
    requires t.counters.reflections == s.counters.reflections + if node == ReflectionNode then 1 else 0
    requires t.counters.reflections == t.counters.replans + if next == ReplanNode then 1 else 0
    requires next == ReplanNode ==> node == ReflectionNode
    requires next == SchedulerNode || next == ExecutorNode ==>
               || (node == SchedulerNode && t.epoch == s.epoch)
               || (t.epoch == |s.memory.evidence| && Streak(env.tools, |s.memory.evidence|) == 0)
    ensures Paced(env, next, t)
  {
    hide MadeOf, Hopeless, Uncalled, Setbacks, Streak;
  }

  lemma OthersPaced(env: Env, node: Node, s: State)
    requires Wired(env) && Accounting.Sound(env, Configuration(node, s)) && Paced(env, node, s)
    requires node != ReviewerNode && node != ExecutorNode && !Ending(node)
    ensures var t := Work(env, node, s, Counted(s.counters));
            Spelled(env, Next(node, t.route), t)
  {
    hide Env.Valid, Env.FreshPlans, ValidPlan, PlanSound, Placed, InvokePlanner, Schedule, ExecuteCurrent,
         ReviewCurrent, ReflectOnReview, Retrieve, Paced, Streak, Deniable, SameTasks;
    var c, t := Counted(s.counters), Work(env, node, s, Counted(s.counters));
    PacesOf(env, node, s);
    NoStreak(env.tools);
    match node
    case RetrieveMemory => RetrieveRests(env, s, c); RetrieveCounts(env, s, c); PacedAcross(env, node, s, Planner, t);
    case Planner => PlannerPaced(env, node, s);
    case ReplanNode => PlannerPaced(env, node, s);
    case SchedulerNode =>
      SchedulerShape(s, c);
      ScheduleKeeps(s, c);
      SchedulerEnds(s, c);
      if t.route == ToExecutor {
        PacedAcross(env, node, s, ExecutorNode, t);
      }
    case ReflectionNode =>
      ReflectEffect(env, s, c);
      if t.route == ToReplan {
        PacedAcross(env, node, s, ReplanNode, t);
      }
    case _ =>
  }

  lemma PacesOf(env: Env, node: Node, s: State)
    requires Paced(env, node, s)
    ensures s.counters.reflections == s.counters.replans + if node == ReplanNode then 1 else 0
    ensures node == ReplanNode ==> Streak(env.tools, |s.memory.evidence|) == 0
  {
    hide MadeOf, Hopeless, Uncalled, Setbacks, Streak;
  }

  lemma RetrieveCounts(env: Env, s: State, c: Counters)
    ensures Retrieve(env, s, c).counters == c
  {
  }

  lemma PlannerPaced(env: Env, node: Node, s: State)
    requires Wired(env) && Accounting.Sound(env, Configuration(node, s)) && Paced(env, node, s)
    requires node == Planner || node == ReplanNode
    ensures var t := InvokePlanner(env, s, Counted(s.counters), node == ReplanNode);
            Spelled(env, Target(t.route), t)
  {
    hide Env.Valid, Env.FreshPlans, ValidPlan, PlanSound, Placed, InvokePlanner, Paced, Streak, Deniable, SameTasks;
    var c := Counted(s.counters);
    PacesOf(env, node, s);
    NoStreak(env.tools);
    PlannerEffect(env, s, c, node == ReplanNode);
    var t := InvokePlanner(env, s, c, node == ReplanNode);
    if t.route == ToScheduler {
      PacedAcross(env, node, s, SchedulerNode, t);
    }
  }

  lemma NoStreak(tools: nat -> ToolReply)
    ensures Streak(tools, 0) == 0
  {
  }

  lemma SchedulerEnds(s: State, c: Counters)
    ensures InertPlan(Deadlock) && !InertPlan(UnsupportedCompletionClaim)
  {
  }

  lemma SpelledAfterStep(env: Env, k: Configuration)
    requires Wired(env) && DefaultText(env) && Accounting.Sound(env, k) && Supported(env, k.node, k.state)
    requires Ledger.Limited(env, k.state) && Spelled(env, k.node, k.state)
    requires var n := Step(env, k);
             n.node == SchedulerNode ==> |n.state.memory.evidence| - n.state.epoch < MAX_TASKS
    ensures var n := Step(env, k); Spelled(env, n.node, n.state)
  {
    hide Env.Valid, Env.FreshPlans, DefaultText, ValidPlan, PlanSound, Supported, Ledger.Limited, Deniable,
         Work, Persist, OutOfSteps, Paced, ExecuteCurrent, ReviewCurrent, Ids, LastSays;
    var s, c := k.state, Counted(k.state.counters);
    if Ending(k.node) {
    } else if s.counters.steps >= env.config.maxSteps {
      OutOfStepsRests(s);
      OutOfStepsRoute(s);
      if k.node == RetrieveMemory {
        Ledger.FirstNodesHaveSteps(env, k);
      }
    } else if k.node == ExecutorNode {
      WorkOf(env, ExecutorNode, s);
      PacedAfterExecutor(env, s, c);
    } else if k.node == ReviewerNode {
      WorkOf(env, ReviewerNode, s);
      PacedAfterReviewer(env, s, c);
      DenialIsReviewed(env, s, c);
      if Step(env, k).node == PersistMemory && Step(env, k).state.reason == Some(UnsupportedCompletionClaim) {
        DenialIsPaid(env, s);
      }
    } else {
      OthersPaced(env, k.node, s);
    }
  }

  /** With the evidence reviewer and the built-in text, at every moment of every run. */
  lemma {:induction false} AlwaysSpelled(env: Env, k: nat)
    requires Wired(env) && DefaultText(env)
    ensures Spelled(env, At(env, k).node, At(env, k).state)
  {
    hide RunNode, Step, Env.Valid, Env.FreshPlans, DefaultText, Supported, Accounting.Sound, Ledger.Limited,
         Ledger.Balanced, Spelled;
    if k > 0 {
      AlwaysSpelled(env, k - 1);
      AlwaysSound(env, k - 1);
      AlwaysSupported(env, k - 1);
      Ledger.AlwaysBalanced(env, k - 1);
      NextOf(env, k - 1);
      EpochIsShort(env, k);
      SpelledAfterStep(env, At(env, k - 1));
    } else {
      NothingReplied(env);
    }
  }

  lemma NothingReplied(env: Env)
    ensures Spelled(env, RetrieveMemory, INITIAL)
  {
  }

  /** A default-wired run that ends UNSUPPORTED_COMPLETION_CLAIM was told so by a reply that denies,
      after replies none of which was hopeless, within its budgets. */
  lemma DenialNeedsReplies(env: Env) returns (n: nat)
    requires Wired(env) && DefaultText(env) && Final(env).reason == Some(UnsupportedCompletionClaim)
    ensures Deniable(env.config, env.tools, n)
  {
    hide At, Final, Env.Valid, Env.FreshPlans, DefaultText, Deniable, Paced;
    var p := FinalIsPersisted(env);
    AlwaysSpelled(env, p);
    PersistRests(env, At(env, p).state);
    n :| Deniable(env.config, env.tools, n);
  }

  // ---------------------------------------------------------------------
  // What each reply leads to

  /** Reply `n` is the one now to be reviewed. */
  ghost predicate UnderReview(env: Env, k: nat, n: nat)
    requires env.Valid()
  {
    var s := At(env, k).state;
    && At(env, k).node == ReviewerNode && s.counters.steps < env.config.maxSteps
    && |s.memory.evidence| == |s.trace| == n + 1
  }

  /** What a run ends for when a reply fails it. */
  ghost predicate EndsFor(kind: string, ambiguous: bool, reason: Termination) {
    if ambiguous || kind == "unsafe_retry_blocked" then reason == UnsafeRetryBlocked
    else if kind == "unsupported_completion_claim" then reason == UnsupportedCompletionClaim
    else reason == ExecutorFailure
  }

  /** The reviewer in a default-wired run, by the reply alone: data goes on or completes, no data
      goes back to the planner, and so does a retryable failure, unless it is a support ticket
      that may have been created; that ends the run, as any other failure does. */
  lemma ReplyDecides(env: Env, k: nat, n: nat)
    requires Wired(env) && DefaultText(env) && UnderReview(env, k, n)
    ensures var next, reply := At(env, k + 1), env.tools(n);
            && (UsefulReply(reply) ==> next.node == SchedulerNode || next.node == PersistMemory)
            && (Gave(reply, []) ==> next.node == ReflectionNode)
            && forall kind, retryable, ambiguous | FailedWith(reply, kind, retryable, ambiguous) ::
                 if retryable && !(ambiguous && At(env, k).state.trace[n].tool == "create_support_ticket") then
                   next.node == ReflectionNode
                 else
                   && next.node == PersistMemory && next.state.reason.Some?
                   && EndsFor(kind, retryable && ambiguous, next.state.reason.value)
  {
    hide At, Work, Env.Valid, Env.FreshPlans, DefaultText, ReviewCurrent, JustRan, Backed, IndexOf, PlanSound, Placed,
         AllCompleted, MadeOf, HasUnsupportedClaim, Setbacks, Streak, Hopeless, Deniable, Uncalled, EndsFor;
    var s := At(env, k).state;
    var c := Counted(s.counters);
    AlwaysSound(env, k);
    AlwaysSupported(env, k);
    AlwaysSpelled(env, k);
    NextOf(env, k);
    WorkOf(env, ReviewerNode, s);
    var i := JustRanPlace(s);
    EvidencePresent(s, i);
    ReviewLeads(env, s, c);
    EvidenceVerdict(env, s, c, i);
    var e := s.memory.evidence[n];
    MadeDecides(e, env.tools(n));
    if !e.ok && !Inconclusive(e) {
      FailureVerdict(env, s, c, i);
    }
  }

  lemma MadeDecides(e: ToolEvidence, reply: ToolReply)
    requires MadeOf(e, reply)
    ensures UsefulReply(reply) ==> e.ok && Useful(e)
    ensures Gave(reply, []) ==> e.ok && Inconclusive(e)
    ensures forall kind, r, a | FailedWith(reply, kind, r, a) ::
              && !e.ok && (Inconclusive(e) <==> r && !(a && e.toolName == "create_support_ticket"))
              && (!Inconclusive(e) ==> EndsFor(kind, r && a, EndOfFailure(e)))
  {
    hide FailedWith, Gave;
    ReplyIsOne(reply);
    GaveIsNoFailure(reply);
  }

  /** A support ticket that may have been created is not opened again: the run ends
      UNSAFE_RETRY_BLOCKED, without another reflection, plan or call. */
  lemma AmbiguousTicketEndsRun(env: Env, k: nat, n: nat, kind: string)
    requires Wired(env) && DefaultText(env) && UnderReview(env, k, n)
    requires At(env, k).state.trace[n].tool == "create_support_ticket" && FailedWith(env.tools(n), kind, true, true)
    ensures env.writeOk ==> Final(env).reason == Some(UnsafeRetryBlocked)
    ensures Final(env).trace == At(env, k).state.trace
    ensures var c, d := At(env, k).state.counters, Final(env).counters;
            && d.replans == c.replans && d.reflections == c.reflections && d.plannerCalls == c.plannerCalls
            && d.toolCalls == c.toolCalls
  {
    hide At, Final, Env.Valid, Env.FreshPlans, DefaultText, ReviewCurrent, PlanSound, Placed, FailedWith, UsefulReply,
         Gave, IndexOf, Work;
    ReplyDecides(env, k, n);
    var s := At(env, k).state;
    AlwaysSound(env, k);
    NextOf(env, k);
    WorkOf(env, ReviewerNode, s);
    PlaceKnown(s);
    ReviewEffect(env, s, Counted(s.counters));
    Ledger.ReviewRecords(env, s, Counted(s.counters), IndexOf(s.plan.value.tasks, s.current.value).value);
    var p := FinalIsPersisted(env);
    assert p == k + 1;
    PersistRests(env, At(env, p).state);
    FinalKeeps(env, At(env, p).state);
    if env.writeOk {
      WrittenKeepsReason(env, At(env, p).state);
    }
  }

  lemma PlaceKnown(s: State)
    requires Placed(s)
    ensures s.plan.Some? && s.current.Some? && IndexOf(s.plan.value.tasks, s.current.value).Some?
  {
    IndexOfMember(s.plan.value.tasks, s.current.value);
  }

  lemma WrittenKeepsReason(env: Env, s: State)
    requires env.writeOk
    ensures Persist(env, s).reason == s.reason
  {
  }
}
