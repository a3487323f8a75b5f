# Verified model of the after-sales agents

A Dafny model of three connected parts of the repository, with the parts around them left
arbitrary: every theorem holds for all planner replies, provider turns, tool results, reviews,
transport failures and interleavings, unless it says otherwise.

1. **Orchestration.** `Graph` models the node functions and edges of the multi-agent graph,
   `Runs.At` the configuration after any number of nodes, and `Orchestrator` the class whose
   methods count a step, copy state and write back what the node returns; each method is proved
   equal to its node, and `Run` to end in the final state of the run. `Scheduler` and
   `Selection` are the depth-first validation and the selection, `References` the evidence
   references, `Review` and `Claims` the evidence reviewer and the completion text. Two history
   variables are added to the state: the trace of tool invocations and the place in the
   execution history where the current plan was adopted (its epoch). `Rules` states what every
   step of a run does, with `Planning`, `Execution`, `Verdicts` and `Reflections` for the nodes
   that need more, in terms of the replies alone. `Answers`, `Origins` and `Traces` say where
   evidence and calls come from, `Quotes` and `Denials` what the reviews quote of them, `Replies`
   and `DeniedRuns` which replies of the tools can end a run denied, and `Reports` what the
   returned result tells its caller.
2. **The single-agent loop.** `AgentLoop` gives the phases as recursive functions, `AgentLaws`
   and `AgentRuns` what they keep, and `AgentRuntime` the nested loops themselves, proved equal
   to them, over the controller of `Reliability`; `AgentStory` tells the history of a run by the
   replies alone (read by `AgentReplies`), and `AgentRetries` says which events report all their
   retries. A history of attempts is kept beside the messages; provider and tools may answer
   differently after different histories.
3. **The refund service.** `Refunds` is one request served alone, `RefundRaces` any number of
   requests in small steps, `Refusals` why they are turned down, `RefundOrders` and
   `RefundTwins` when their interleavings look like a sequential order, and `RefundService` the
   tables and sessions as classes. `ExactlyOnce` puts the agent loop in front of the service: a
   call may never run, lose its reply, or still be under way in the database while its own
   retries and other clients' calls proceed.

`Json`, `JsonOrder`, `JsonFaithful`, `JsonScan` and `Keys` model the compact sorted-key JSON text
(escaping as in section 7 of RFC 8259) behind the comparison keys and fingerprints.

What the theorems assume:

- `Env.Valid` (orchestration) is the range checks of the configuration and the plan validators.
  `Config.Valid` (agent) is the same for the reliability settings.
- Fresh plans: every task PENDING with no attempts. The status of a task is part of what a
  planner may return, so the theorems on epochs, freshness, progress and completion say so
  (`Env.FreshPlans`); at-most-once, step accounting, termination and the ledger do not need it.
- The reviewer: `Justified`, `Verdicts`, `Outcomes`, `Quotes`, `Denials`, `Replies`, `DeniedRuns`,
  `Rules.EveryReviewByTheRules`, `Reports.CompletedReport` and the completion-time theorems are
  about the evidence reviewer (`Wired`); everything else holds for an arbitrary one.
  `DefaultText` says that the completion text is the built-in one.
- `TellsJson` (only for at-most-once by arguments): a tool's dict is JSON, keys distinct.
- Amounts are whole cents, delays are reals, codes drawn for rows are not constrained beyond the
  two unique columns modelled (key and order).

Where the code does not do what one would first claim:

- A failed memory retrieval makes a terminal update but its edge leads to the planner all the
  same; its reason is always replaced later (`Ledger.FailedRetrievalStillPlans`,
  `Accounting.MemoryFailureMeansUnwritten`).
- The default wiring can end UNSUPPORTED_COMPLETION_CLAIM, not because of its own text but when
  a tool reports a permanent failure of that very type, which the reviewer passes on
  (`Denials.DenialIsTheToolsWord`, exactly then; `Forgery` is such a run). Which sequences of
  replies it can happen on, for some planner, is settled by `DeniedRuns.RepliesDecide`.
- In the same way a review can say `missing_completion_response` although there is a completion
  text: when a tool reported a failure of that type (`Quotes.MissingIsQuoted`, exactly then;
  `Forgery.ForgedMissingIsReviewed` is such a run).
- An event's retries are not always its attempts less one: the exit for a timeout that is not
  retryable records none. `AgentRetries.RetriesAreNoted` says that the two differ in exactly that
  case after more than one attempt, and `LateRunLosesItsRetry` is such a run.
- With its two lookups on different states of the table, `create_refund` can turn a request away
  with 409 because of the refund made meanwhile under its own key. `RefundOrders` proves that
  this is the only anomaly and that it cannot occur when both lookups see one snapshot, and
  `RefundTwins` which requests can meet it: every interleaving of a set of requests looks like a
  sequential order exactly when no request that would be accepted is sent twice under its key,
  and then like one that keeps to the time of the calls.

## Model

| member | source | states |
|---|---|---|
| JsonFaithful.DumpsFaithful | app/reliability/control.py:25-33 | the compact, sorted-key text of two JSON values is equal exactly when the values are equal up to the order of object keys, with either setting of `ensure_ascii` |
| JsonOrder.SameIffNormalFormsEqual | app/reliability/control.py:25-31 | two values are equal up to key order exactly when their recursively key-sorted forms are identical |
| JsonScan.NoValueBehindColon | app/reliability/control.py:18-33 | the text of one value is never the text of another behind a colon, which is why name and arguments can be told apart in a key |
| Keys.CanonicalCallFaithful | app/reliability/control.py:18-33 | for all tool names, colons included, two calls with well-formed arguments share a comparison key exactly when they name the same tool with equal arguments, key order aside |
| Keys.PlanFingerprintFaithful | app/orchestration/scheduler.py:97-114 | two valid plans share a fingerprint exactly when they list the same work in the same order; plan id, goal, status, attempts, failure reason, dependency order and argument key order are all that it ignores |
| Graphs.AcyclicHasNoCycle | app/orchestration/scheduler.py:42-57 | a graph in which every task can rank above its dependencies has no cycle |
| Scheduler.DepthFirstSearch.constructor | app/orchestration/scheduler.py:38-40 | the search starts with both sets empty |
| Scheduler.DepthFirstSearch.Visit | app/orchestration/scheduler.py:42-54 | the recursive visit terminates (each nested visit leaves fewer tasks unvisited); it reports a cycle only where one exists, and otherwise restores the chain being visited, adds the task to the visited set and keeps a ranking of everything visited |
| Scheduler.DepthFirstSearch.VisitDependencies | app/orchestration/scheduler.py:51-52 | after the loop every dependency is visited, or a cycle exists |
| Scheduler.DepthFirstSearch.Enter | app/orchestration/scheduler.py:50-50 | the task joins the visiting set and the chain, nothing else moves |
| Scheduler.DepthFirstSearch.Leave | app/orchestration/scheduler.py:53-54 | the task leaves the chain and is visited, ranked above everything it depends on |
| Scheduler.CloseWalk | app/orchestration/scheduler.py:43-47 | meeting a task that is being visited closes a genuine cycle |
| Scheduler.CheckDependencies | app/orchestration/scheduler.py:24-36 | passes exactly the plans whose dependencies are known and that have no self-loop |
| Scheduler.SearchForCycle | app/orchestration/scheduler.py:38-57 | reports a cycle only if there is one, and otherwise a ranking exists |
| Scheduler.Validate | app/orchestration/scheduler.py:23-57 | returns normally exactly when all dependencies are known, none is a self-loop and a ranking exists; reports CYCLIC_DEPENDENCY exactly when a real cycle exists, and INVALID_DEPENDENCY exactly when a dependency is unknown or a self-loop |
| Selection.Choice | app/orchestration/scheduler.py:75-86 | the chosen task is ready and least by priority, then by place in the plan; there is none exactly when nothing is ready |
| Selection.Statuses | app/orchestration/scheduler.py:61-61 | the dict built from the tasks gives each id its status |
| Selection.BlockDoomed | app/orchestration/scheduler.py:61-72 | blocks exactly the waiting tasks with a failed or blocked dependency, judged by the statuses found at entry |
| Selection.ReadyPlaces | app/orchestration/scheduler.py:74-80 | finds exactly the waiting tasks all of whose dependencies are completed |
| Selection.MarkReady | app/orchestration/scheduler.py:81-82 | marks exactly those ready |
| Selection.Least | app/orchestration/scheduler.py:85-86 | picks the least by priority, ties to the earlier |
| Selection.PickReady | app/orchestration/scheduler.py:74-86 | the marked tasks and the choice, or none |
| Selection.Select | app/orchestration/scheduler.py:59-86 | the whole of select: the validation error, or blocking, readying and the choice in that order |
| References.Partition | app/orchestration/executor.py:36-36 | splits at the first dot and nowhere else |
| References.Latest | app/orchestration/executor.py:39-42 | finds the last successful evidence of a task, or that there is none |
| References.SplitCuts | app/orchestration/executor.py:46-46 | a path is cut at every dot: joined again the parts are the text, and no part holds a dot |
| References.ReferenceNames | app/orchestration/executor.py:35-50 | a reference resolves to a value exactly when its text is a dot-free task id, a dot and a non-empty dotted path, some evidence is the last successful one of that id, and following the path field by field from that evidence's data, through dicts only, ends in the value |
| References.ResolveReplaces | app/orchestration/executor.py:53-63 | resolution yields exactly the value in which every one-field `$ref` object is replaced by what its text refers to, field by field in the last successful evidence, and nothing else changes; it fails exactly when there is none |
| References.ResolveByReferences | app/orchestration/executor.py:53-63 | resolved arguments depend on the evidence only through what each reference inside them resolves to |
| Review.RefundStatusIsLatest | app/orchestration/reviewer.py:36-43 | the reported status is that of the latest successful evidence carrying a verdict; there is none exactly when no evidence does |
| Claims.ClaimsAreChecked | app/orchestration/reviewer.py:46-64 | a text is refused exactly when, in lower case, it holds one of the five refund phrases while the latest verdict in the evidence is not approval, or one of the three ticket phrases while no successful ticket evidence has status `open` |
| Claims.BuiltTextIsExact | app/orchestration/reviewer.py:174-188 | the built completion text says `refund completed` exactly when the latest verdict in the evidence is approval, `pending human approval` exactly when that is the verdict, and `ticket was created` exactly when the evidence shows an open ticket: neither too much nor too little |
| Claims.BuiltResponseIsSupported | app/orchestration/reviewer.py:174-188 | for every memory the built completion text passes the claim check; what the text says is settled by `Claims.BuiltTextIsExact` |
| Claims.CompletionTextIsRefusedWithoutApproval | app/orchestration/reviewer.py:55-64 | the claim check is not idle: the text of an approved refund is refused when the evidence shows no approval |
| Claims.ContainsIffOccurs | app/orchestration/reviewer.py:55-64 | the substring test of the claim check is occurrence at some position |
| Runs.PlannedIsValid | app/orchestration/graph.py:297-336 | a plan that leaves the planner loop was validated, and the loop touches neither steps, replans, reflections nor tool calls |
| Runs.At | app/orchestration/graph.py:115-160 | the configuration after any number of nodes; its plan, if any, satisfies the plan validators |
| Effects.PlannerEffect | app/orchestration/graph.py:256-384 | planner and replan node either stop the run, changing nothing executed, or adopt a validated plan with no current task, and count at most the one replan |
| Effects.ScheduleEffect | app/orchestration/graph.py:386-436 | on a validated plan the scheduler node never sees a scheduler error, and dispatches the settled plan |
| Effects.ExecuteEffect | app/orchestration/graph.py:438-513 | the executor node adds exactly one agreeing pair of evidence and history, and at most one invocation (exactly one on success), or stops the run |
| Effects.ReviewEffect | app/orchestration/graph.py:515-608 | a review changes neither plan, history, evidence nor budgets; it leads to one of four nodes, with a reason whenever the run ends |
| Effects.ReflectEffect | app/orchestration/graph.py:610-645 | reflection counts itself and leads to replanning, or stops at its budget |
| Planning.PlanByTheReplies | app/orchestration/graph.py:282-358 | the planner loop, by the replies alone: it retries the failures that may pass while attempts and model calls are left, counting each, and ends with the next reply (a plan whose graph is closed and acyclic, or the reason and sentence of its failure) or for want of a model call |
| Execution.ExecutionByTheRules | app/orchestration/executor.py:84-184 | the executor node, in the order the source asks: attempts spent, no handler, unknown tool, call budget, a reference that names nothing, a call made too often, an effect that must not be repeated, and else one call with the arguments in which references are replaced, whose evidence is made of the tool's reply; with the reason, sentence, task, history and counters each leaves |
| Execution.EveryExecutionByTheRules | app/orchestration/graph.py:438-513 | so it is at every entry of the executor node in every run, for every planner and reviewer |
| Rules.SchedulingByTheRules | app/orchestration/graph.py:386-436 | which tasks the scheduler node blocks, and with which reason, which it marks ready, which one it hands over, and DEADLOCK exactly when none is due and one has failed or is blocked, NO_READY_TASK when none has |
| Rules.EveryStepByTheRules | app/orchestration/graph.py:81-113 | every step of every run, whatever planner, tools and reviewer answer, follows its node's rules: what is remembered and counted, where it leads, and for which reason and with which sentence it ends the run; and plans of the same work are taken as often as noted, never more than the limit allows |
| Rules.EveryReviewByTheRules | app/orchestration/reviewer.py:70-140 | with the evidence reviewer, the review the run acts on judges the last evidence by the rules, and after useful evidence goes on while a task is open, and else fails or completes as the text claims too much or not |
| Reflections.AlwaysRemembered | app/orchestration/graph.py:610-645 | in every run each reflection is the copy of a review that asked for it: numbered in order, of the task reviewed, with its type, reason, missing evidence and recommendation, or their defaults |
| Accounting.SoundAfterStep | app/orchestration/graph.py:208-220 | every node keeps state shape and exact accounting |
| Accounting.AlwaysSound | app/orchestration/graph.py:208-220 | in every run: at each entry of the scheduler, reflection and replan nodes steps = 2 + replans + reflections + 3 x executions, one more at the executor and one less at the reviewer; tool calls equal the invocations made; and every defensive branch for missing plan, task or review is unreachable |
| Accounting.NodesAreSteps | app/orchestration/graph.py:208-220 | until the run persists, nodes executed equal steps counted |
| Accounting.PersistenceIsLast | app/orchestration/graph.py:81-100 | nothing changes after persistence |
| Accounting.RunsEnd | app/orchestration/graph.py:152-163 | every run persists exactly once, after at most max steps + 1 other nodes, under the recursion limit |
| Accounting.NothingAfterTermination | app/orchestration/graph.py:81-113 | after a terminal update by any node but retrieval, no tool or planner is called |
| Accounting.MemoryFailureMeansUnwritten | app/orchestration/graph.py:647-674 | MEMORY_FAILURE is reported exactly when the episode could not be written; the reason a failed retrieval leaves is never the one reported |
| Ledger.AlwaysBalanced | app/orchestration/graph.py:256-645 | in every run model calls, tool calls, replans, reflections and repetitions of a plan stay within their budgets; at every node planner calls = 1 + replans + retries, reviews keep pace with executions, and failures are exactly the retries of the planner, the failed executions and the completed ones that a review overruled; when the run is about to persist the same holds up to its last node, as `FinalLedger` says |
| Ledger.FinalLedger | app/orchestration/graph.py:256-693 | a finished run has counted exactly those failures, and one more exactly when the planner failed for good or the reviewer raised; a planner out of model calls was not asked, and a review that raised was asked for but not recorded |
| Ledger.PlanCounts | app/orchestration/graph.py:297-358 | the planner loop makes one call more than it retries, counts one failure for each retry, and never exceeds the model-call budget |
| Ledger.FailedRetrievalStillPlans | app/orchestration/graph.py:222-254 | a failed retrieval asks for the run to be persisted with MEMORY_FAILURE, and the planner node runs and calls the planner next all the same |
| AtMostOnce.InvokedOnce | app/orchestration/executor.py:116-135 | one more invocation keeps counts, limits and the side-effect set in step with the trace |
| AtMostOnce.AlwaysOnce | app/orchestration/graph.py:479-513 | in every run, at every moment: the stored count of each call is its count in the invocation trace and at most `repeated_task_limit`; the stored side effects are those made; and a side effect that is not idempotent occurs once |
| Traces.SideEffectsAtMostOnce | app/orchestration/executor.py:115-140 | with tools that answer in JSON, a side-effecting tool not declared idempotent is never invoked twice with equal resolved arguments, across all replans, reviews and outcomes |
| Traces.AlwaysJson | app/orchestration/executor.py:53-63 | with tools that answer in JSON, the arguments of every call of every run are JSON |
| Traces.AlwaysMatched | app/orchestration/executor.py:84-184 | in every run, for every planner and reviewer: while all executions under the current plan succeed, the last calls made are the planned calls of the tasks executed, one for each, in order, with the arguments their references resolve to |
| Epochs.OrderGrows | app/orchestration/scheduler.py:59-86 | running a ready task extends a partial topological order |
| Epochs.AlwaysTopological | app/orchestration/graph.py:386-513 | for fresh plans and any reviewer, at every moment: the executions since the plan was adopted list each task at most once, each after all its dependencies completed in that epoch, and the statuses are those of that history |
| Freshness.AncestorEvidenceIsCurrent | app/orchestration/executor.py:35-50 | when a task is about to run, the latest successful evidence of each direct or transitive dependency is the one it recorded in this epoch, the only one of that name since adoption |
| Freshness.AncestorLeftEvidence | app/orchestration/executor.py:39-42 | the same of every state that satisfies the invariant of the executor node |
| Freshness.ArgumentsAreFresh | app/orchestration/executor.py:53-63 | the arguments of a task whose references name its ancestors resolve as if all evidence of earlier plans were erased |
| Freshness.ReferringResolvesFreshly | app/orchestration/executor.py:53-63 | the same of every state that satisfies the invariant of the executor node |
| Freshness.AttemptIsFirst | app/orchestration/graph.py:469-478 | a task always runs on its first attempt: the attempt limit of the executor node is never what ends a run |
| Progress.Descend | app/orchestration/scheduler.py:59-86 | following unfinished dependencies down a ranking reaches a ready task |
| Progress.LivelyPlanIsServed | app/orchestration/scheduler.py:59-86 | an acyclic plan of waiting and completed tasks, not all completed, has nothing to block and a task to run, and stays so |
| Justified.EvidenceVerdict | app/orchestration/reviewer.py:70-140 | the outcome of a review of the task just executed, in both directions: continue, complete, deny, never replan |
| Justified.AlwaysSupported | app/orchestration/graph.py:515-608 | with the evidence reviewer and fresh plans: whenever the scheduler runs, everything executed in this epoch left useful evidence and something is runnable |
| Verdicts.AlwaysJudged | app/orchestration/reviewer.py:70-140 | at every moment of every run with the evidence reviewer: each review is, field by field, the one the rules give for the evidence at its place |
| Outcomes.SchedulerAlwaysServes | app/orchestration/graph.py:405-436 | select never raises inside the scheduler node, which always leads to the executor |
| Outcomes.NeverStuck | app/orchestration/graph.py:405-422 | no run ends in DEADLOCK or NO_READY_TASK |
| Verdicts.ToolessReview | app/orchestration/reviewer.py:102-140 | asked by itself about a task that names no tool, the reviewer misses no evidence: it goes on exactly while a task is open, reports a missing text exactly when there is none, and completes exactly when the text claims nothing unsupported |
| Quotes.MissingIsQuoted | app/orchestration/reviewer.py:113-120 | at every moment of every run with the evidence reviewer a review speaks of `missing_completion_response` exactly when it passes on a failure of that type reported by the tool just run: the branch for a missing text is never taken |
| Quotes.CompletionIsNeverMissing | app/orchestration/reviewer.py:113-120 | with tools that never report that type, no review of any run has it |
| Outcomes.CompletionIsJustified | app/orchestration/graph.py:515-581 | a run that says completed wrote its episode, has all tasks of its plan completed, an execution history since adoption that is a permutation of the plan and a linear extension of its graph, non-empty successful evidence for each, a response that is the one built from that plan and evidence and makes no unsupported claim, and, without replans, as many tool calls as evidence, executions and tasks |
| Outcomes.CompletedPlanIsExtended | app/orchestration/scheduler.py:88-90 | a completed plan was executed as a permutation and linear extension |
| Outcomes.AlwaysTallied | app/orchestration/graph.py:438-513 | successful evidence never outnumbers invocations, nor invocations evidence |
| Denials.DenialIsTheToolsWord | app/orchestration/graph.py:583-602 | in the default wiring a run not cut by its step budget or the store ends UNSUPPORTED_COMPLETION_CLAIM exactly when its last execution failed for good under that very type |
| Denials.CandidToolsAreNeverDenied | app/orchestration/graph.py:583-602 | with tools that never report a permanent failure of that type, retryable ones allowed, default wiring never ends so |
| Answers.EvidenceIsMade | app/orchestration/executor.py:141-184 | what the evidence of a call says, by the tool's reply alone: success exactly when the dict says `ok` and has a data dict, which is the evidence's; otherwise a failure of the type the reply's error names, retryable and ambiguous exactly when the error's own flags are literally true |
| Replies.AlwaysSpelled | app/orchestration/graph.py:438-645 | in default-wired runs each piece of evidence reviewed is made of the reply at its place, by the tool of the call at its place, none was hopeless unless it ended the run, and replans and reflections are exactly the setbacks among the replies |
| Replies.ReplyDecides | app/orchestration/graph.py:515-608 | in a default-wired run the reply under review decides where the run goes: data leads on, no data and retryable failures lead to reflection, other failures and ambiguous tickets end the run for the reason that the failure type gives |
| Replies.AmbiguousTicketEndsRun | app/orchestration/reviewer.py:81-87 | when the reply to `create_support_ticket` is a failure that is retryable and ambiguous, the run ends UNSAFE_RETRY_BLOCKED, with no further reflection, replan, planner call or tool call |
| Replies.DenialNeedsReplies | app/orchestration/graph.py:583-602 | a default-wired run that ends denied had a reply that denies, after replies none of which was a permanent failure, with no streak of successes long enough to complete the longest plan, and with the call, step, replan and reflection budgets lasting till then |
| DeniedRuns.RepliesDecide | app/orchestration/graph.py:583-602 | for every configuration and every sequence of replies: some default-wired run, whose plans all pass the plan constructors, ends UNSUPPORTED_COMPLETION_CLAIM on them exactly when such a reply is among them |
| DeniedRuns.DenialComes | app/orchestration/graph.py:256-608 | with a planner that has a fresh plan of independent tasks for every replan, such replies do end the run so |
| Origins.AlwaysClear | app/orchestration/executor.py:116-184 | a kind of evidence that neither the tools' replies nor the executor's own refusals produce is never in the memory of any run |
| Forgery.ForgedFailureEndsDenied | app/orchestration/graph.py:583-602 | a one-task plan whose tool reports a permanent failure of that type does end so in the default wiring |
| Forgery.ForgedMissingIsReviewed | app/orchestration/reviewer.py:77-120 | and one whose tool reports `missing_completion_response` is reviewed with that type, and ends EXECUTOR_FAILURE |
| Smooth.IdealProgress | app/orchestration/scheduler.py:59-86 | in the ideal course of a smooth plan each turn completes one task and the next one exists |
| SmoothRuns.ReachesRound | app/orchestration/graph.py:386-608 | while steps last, a run of a smooth plan is where the ideal course says |
| SmoothRuns.CompletionTime | app/orchestration/graph.py:386-608 | once the planner, after any number of retryable failures its budget allows, returns a fresh, valid n-task plan whose calls resolve, fit the limits and return data, the run completes in exactly 3n + 2 steps and n tool calls, those of the ideal course in its order |
| SmoothRuns.DefaultCompletionTime | app/orchestration/graph.py:386-608 | with the built-in completion text the same holds with no assumption on the text, and the response is the text built from the evidence |
| SmoothRuns.TooFewSteps | app/orchestration/graph.py:208-220 | with a smaller step budget it ends MAX_STEPS_EXCEEDED with the counter equal to the maximum |
| Orchestrator.MultiAgentOrchestrator.constructor | app/orchestration/graph.py:117-133 | the initial state |
| Orchestrator.MultiAgentOrchestrator.Terminate | app/orchestration/graph.py:676-693 | the terminal update, and nothing else |
| Orchestrator.MultiAgentOrchestrator.NextStep | app/orchestration/graph.py:208-220 | one more step, or the terminal update when none is left |
| Orchestrator.MultiAgentOrchestrator.RetrieveMemory | app/orchestration/graph.py:222-248 | is the retrieval node |
| Orchestrator.MultiAgentOrchestrator.PlanningLoop | app/orchestration/graph.py:282-358 | the `while True` loop is the recursive planner, for every sequence of replies |
| Orchestrator.MultiAgentOrchestrator.CallPlanner | app/orchestration/graph.py:256-384 | is the planner and the replan node |
| Orchestrator.MultiAgentOrchestrator.Adopt | app/orchestration/graph.py:360-384 | repeated plans are refused, others counted and adopted |
| Orchestrator.MultiAgentOrchestrator.Take | app/orchestration/graph.py:377-384 | the fields written with a new plan |
| Orchestrator.MultiAgentOrchestrator.RunScheduler | app/orchestration/graph.py:386-436 | is the scheduler node, through the imperative select |
| Orchestrator.MultiAgentOrchestrator.HandOver | app/orchestration/graph.py:410-436 | the fields written once a task, or none, is selected |
| Orchestrator.MultiAgentOrchestrator.ExecuteTask | app/orchestration/executor.py:84-184 | the executor agent on its copies, for every outcome; what each outcome must be is stated by `Execution.ExecutionByTheRules` |
| Orchestrator.MultiAgentOrchestrator.RunExecutor | app/orchestration/graph.py:438-513 | is the executor node |
| Orchestrator.MultiAgentOrchestrator.ExecuteAt | app/orchestration/graph.py:456-513 | the executor node once its task is found |
| Orchestrator.MultiAgentOrchestrator.Record | app/orchestration/graph.py:492-513 | the fields written after an execution |
| Orchestrator.MultiAgentOrchestrator.RunReviewer | app/orchestration/graph.py:515-608 | is the reviewer node |
| Orchestrator.MultiAgentOrchestrator.Act | app/orchestration/graph.py:562-608 | follows the decision; a failing decision leaves the recorded one alone |
| Orchestrator.MultiAgentOrchestrator.RunReflection | app/orchestration/graph.py:610-645 | is the reflection node |
| Orchestrator.MultiAgentOrchestrator.PersistMemory | app/orchestration/graph.py:647-674 | is the persistence node |
| Orchestrator.MultiAgentOrchestrator.Visit | app/orchestration/graph.py:81-113 | each node method is its node of the graph |
| Orchestrator.MultiAgentOrchestrator.InvokeGraph | app/orchestration/graph.py:152-163 | following the edges ends in the final state of the run, after fewer nodes than the recursion limit |
| Orchestrator.MultiAgentOrchestrator.Run | app/orchestration/graph.py:115-206 | the final state of the run, or the persisted preparation failure, and the result assembled from it |
| Reports.ReportIsTrue | app/orchestration/graph.py:164-206 | the result names the reason the run ended for, never the default one; it says completed exactly when that reason is completion, and MEMORY_FAILURE exactly when the episode could not be written; response, plan, evidence, counters, and tools and tasks in order are those the run ended with |
| Reports.CompletedReport | app/orchestration/graph.py:164-206 | a result that says completed lists, from the adoption of its plan on, each task of that plan once and after all it depends on, with non-empty successful evidence and the tool its plan names; and the last calls of the run are exactly the planned calls of these tasks, in the same order, with their resolved arguments |
| Reports.CompletedResponseIsExact | app/orchestration/reviewer.py:174-188 | in default wiring the response of a completed run says of refund and ticket exactly what the evidence of its result shows |
| Reports.UnpreparedReport | app/orchestration/graph.py:140-150 | when the tools cannot be prepared the result is a failure with one counted failure, no plan and no step, remembered as failed, and reported so unless it could not be written |
| Reliability.DelayGrowsToItsCap | app/reliability/models.py:35-40 | delays never fall from one attempt to the next, are never negative and never exceed the cap |
| Reliability.DelayMultiplies | app/reliability/models.py:35-40 | no delay before the first attempt, the initial one before the second, and from then on each delay is the multiplier times the one before, cut at the cap |
| Reliability.TotalDelayBounded | app/reliability/models.py:35-40 | an operation of k attempts sleeps at most (k-1) caps and, for a multiplier above 1, at most the geometric sum |
| Reliability.GeometricBound | app/reliability/models.py:35-40 | the geometric bound without division, for every multiplier |
| Reliability.CurrentEffectsAreGuarded | app/reliability/models.py:66-74 | in every accepted configuration a ticket is never retry-safe, and a refund only with a non-blank idempotency key |
| Reliability.DefaultsAreAccepted | app/reliability/models.py:9-74 | the default limits pass their validators; under them a provider turn sleeps at most 0.75 seconds and a tool call 0.25, every tool but the two mutating ones is retry-safe, a refund exactly with a non-blank key, and a ticket never |
| Reliability.ReliabilityController.constructor | app/reliability/control.py:36-45 | all counters start at zero |
| Reliability.ReliabilityController.RecordFailure | app/reliability/control.py:66-86 | one more failure, one more in a row |
| Reliability.ReliabilityController.RecordSuccess | app/reliability/control.py:88-89 | the row of failures ends |
| Reliability.ReliabilityController.RecordValidatedCall | app/reliability/control.py:63-64 | one more repeat of that call |
| Reliability.ReliabilityController.Retry | app/reliability/control.py:96-100 | one more retry and its delay |
| AgentReplies.ResultTells | app/agent/runtime.py:504-552 | what the loop is given for each reply of a tool: the timeout dict, retryable and ambiguous, the exception's dict, the tool's own dict, or the one for an unusable result |
| AgentReplies.ResultReads | app/agent/runtime.py:504-635 | a reply is read as success exactly when it is a dict with `ok` literally true; a failure is read with its own type and message, or their defaults, and as worth another attempt exactly when it is a timeout or its error is literally retryable |
| AgentStory.RunIsTold | app/agent/runtime.py:108-456 | of every run, by the replies alone: an attempt that fails in passing is followed by another attempt of the same turn or call, where attempts and safety allow, or ends the run; any other is followed by the next call or turn; every event reports the last attempt of its call and their number; the recorded failures are the failed attempts in order, each with type, message, number and tool; and the run ends for the reason, and with the sentence, that its last attempt calls for |
| AgentStory.FailuresAreRepeated | app/agent/runtime.py:270-443 | while attempts, calls and failures are left and repeating is safe, a passing failure is followed by another attempt of the same turn or call |
| AgentStory.TimeoutsEnd | app/agent/runtime.py:323-421 | a timeout of a call that is not safe to repeat ends the run UNSAFE_RETRY_BLOCKED while attempts are left, and a timeout of the last attempt ends it TOOL_TIMEOUT |
| AgentStory.RaisedIsFinal | app/agent/runtime.py:541-552 | an attempt whose tool raised is never repeated, and an event reports its exception |
| AgentStory.AnswersAreHeard | app/agent/runtime.py:290-310 | every answered attempt has its own event: the answer, the attempts its call took and one retry less |
| AgentStory.LaterAnswerIsHeard | app/agent/runtime.py:270-414 | a call that times out first and then answers leaves the answer as an ok event with two attempts and one retry |
| AgentLaws.AttemptsAddUp | app/agent/runtime.py:130-443 | every attempt was a provider turn, a successful call or a failure |
| AgentLaws.BlocksAppend | app/agent/runtime.py:223-239 | a transcript extended by an assistant message and the answers to all its calls is a transcript |
| AgentRuns.ProviderKept | app/agent/runtime.py:145-221 | the provider loop keeps the books and the transcript, ends truthfully, and is the same without its second look at the budget |
| AgentRuns.CallKept | app/agent/runtime.py:272-443 | the loop over one call keeps the books, answers the call exactly once with the event it records, ends truthfully, and is the same without its second look at the budget |
| AgentRuns.CallsKept | app/agent/runtime.py:250-443 | a turn answers all its calls in order, or ends truthfully |
| AgentRuns.TurnsKept | app/agent/runtime.py:130-454 | the same of the outer loop |
| AgentRuns.RunIsClosed | app/agent/runtime.py:108-456 | every run ends in a result, never in the trailing assertion; its books are kept; its reason and status are true of the state it leaves; its events are the answers in the transcript, but perhaps the last; and it is the run without the budget re-checks |
| AgentRuns.AccountingLaw | app/agent/runtime.py:130-454 | model calls + tool calls = steps + events + retries; the attempts of the events sum to the tool calls; failures + provider turns + successful events = model calls + tool calls |
| AgentRuns.BudgetsHold | app/agent/runtime.py:130-155 | steps, model calls and tool calls stay within their budgets and are the calls actually made |
| AgentRuns.ProviderSeesTranscripts | app/agent/runtime.py:122-125 | at every provider call the messages are system, user and complete blocks of an assistant message with its answers in order |
| AgentRuns.FailureRunsAreShort | app/agent/runtime.py:188-198 | consecutive failures is the length of the trailing run of failed attempts, and below its limit whenever an attempt starts |
| AgentRuns.CallsAreLimited | app/agent/runtime.py:261-318 | only retry-safe calls were attempted again, and per key the successful events are the recorded repeats, within the limit |
| AgentRuns.SleepIsBounded | app/agent/runtime.py:588-615 | the sleep of a run is one delay for each retry, at most retries times the larger cap |
| AgentRuns.ProviderSleep | app/agent/runtime.py:145-221 | a provider turn of k calls sleeps exactly the total delay of k attempts |
| AgentRuns.CallSleep | app/agent/runtime.py:272-443 | and so does a tool call |
| AgentRetries.RetriesAreNoted | app/agent/runtime.py:270-443 | an event's retries differ from its attempts less one exactly when it is the last of a run ended TOOL_TIMEOUT by a failure that is not retryable after more than one attempt, and never for a success |
| AgentRetries.LateRunLosesItsRetry | app/agent/runtime.py:270-421 | a retry-safe call that first fails retryably and then times out for good ends with two attempts and no retries recorded |
| AgentRuntime.AgentRuntime.constructor | app/agent/runtime.py:122-128 | the opening messages and a fresh controller |
| AgentRuntime.AgentRuntime.AskProvider | app/agent/runtime.py:157-161 | one model call, seen by the provider with the current messages |
| AgentRuntime.AgentRuntime.ProviderLoop | app/agent/runtime.py:144-221 | the provider retry loop, for every reply |
| AgentRuntime.AgentRuntime.ExecuteTool | app/agent/runtime.py:283-289 | one tool call and its normalised result |
| AgentRuntime.AgentRuntime.Note | app/agent/runtime.py:296-303 | one event |
| AgentRuntime.AgentRuntime.Tell | app/agent/runtime.py:304-310 | one tool message |
| AgentRuntime.AgentRuntime.TryCall | app/agent/runtime.py:283-322 | one attempt and what the controller records of it |
| AgentRuntime.AgentRuntime.CallLoop | app/agent/runtime.py:270-443 | the retry loop of one call, for every reply |
| AgentRuntime.AgentRuntime.AfterFailure | app/agent/runtime.py:323-443 | what follows a failed attempt, exit by exit |
| AgentRuntime.AgentRuntime.CallsLoop | app/agent/runtime.py:250-443 | the loop over the calls of a turn |
| AgentRuntime.AgentRuntime.TakeTurn | app/agent/runtime.py:142-454 | one turn of the outer loop |
| AgentRuntime.AgentRuntime.Run | app/agent/runtime.py:108-456 | the run, and the result object reporting its counters; the trailing assertion is never reached |
| AgentRuntime.ReportIsTold | app/agent/runtime.py:660-706 | the result object repeats status, reason, response, events and steps; its counts are those of the attempts made, and its failure details the failed attempts in order |
| Refunds.FingerprintFaithful | app/services.py:57-63 | the text that is hashed is equal exactly for equal order, amount in cents and reason |
| Refunds.CentsInjective | app/services.py:57-63 | two-decimal amounts print differently |
| Refunds.ByKey | app/services.py:70-74 | finds a row under the key, or that there is none |
| Refunds.ServedKeepsStore | app/services.py:66-108 | a request keeps both unique columns and loses no row, and every row stays justified: its order exists, covers the amount and was at least 7 days late, its currency is the order's, and it is pending human approval exactly when above 100000 cents and approved otherwise |
| Refunds.ServedIsStored | app/services.py:66-108 | a refund returned is stored under its key for its request, as the only row of that key and of that order, and justified in the same terms |
| Refunds.ServeByTheRules | app/services.py:66-108 | the answer to every request: under a key in use its refund again for the same request and 409 for another; under a free key 404 for an unknown order, 409 for a refunded one, 422 for too much or too early, and else a refund with the request's fields, its status and currency as above, under that key |
| RefundRaces.StepIsLocal | app/services.py:66-108 | a step reads and writes its own request and the table only |
| RefundRaces.StepKeepsTable | app/services.py:66-108 | every step keeps the table valid, loses no row, and keeps every request's phase backed by the table |
| RefundRaces.RunKeepsTable | app/services.py:66-108 | so does every interleaving of any number of requests, with or without snapshot reads |
| RefundRaces.OneRefundEach | app/services.py:94-106 | in every interleaving an order has at most one refund, and so has a key |
| RefundRaces.AnswersAreSole | app/services.py:66-108 | in every interleaving a refund returned, created, found or recovered, is for the request of its caller, under its key, the only one of that key and of that order, and justified by order, delay and threshold |
| Refusals.RefusalsAreTrue | app/services.py:66-108 | in every interleaving of any requests every refusal is true: 404 only of an unknown order, 422 only of an amount above the order's or a shipment not 7 days late, 409 only when a row of another request holds the key or one holds the order, each with its own words |
| RefundRaces.RecoveryFindsItsOwn | app/services.py:97-106 | after an integrity error a same-fingerprint hit by key is the refund of the request itself and its order's only one |
| RefundOrders.StepExplained | app/services.py:66-108 | every step keeps the requests that have taken effect explained by serving them one after the other, self-conflicts aside; a request takes effect with its answer, or, if it is to be turned down for itself, with its first lookup |
| RefundOrders.RunExplained | app/services.py:66-108 | so does every interleaving |
| RefundOrders.SnapshotRacesAreSerial | app/services.py:66-108 | with both lookups on one snapshot every interleaving gives the refunds and status codes of serving the requests in the order in which they were answered |
| RefundOrders.Fate | app/services.py:70-93 | a request turned down with 404 or 422 after finding its key free would have been turned down so at its first lookup |
| RefundOrders.EffectsExplain | app/services.py:66-108 | an interleaving without self-conflict is linearizable: serving the requests in the order in which they take effect gives its refunds and status codes, and a request answered before another began comes first |
| RefundOrders.RacesAreSerialUnlessSelfConflicted | app/services.py:66-108 | with separate lookups some sequential order explains the interleaving exactly when no request was told "already refunded" because of the refund made under its own key for the same request, and then some order that keeps to the time of the calls does |
| RefundTwins.RequestsDecide | app/services.py:66-108 | for any table and any requests: every complete interleaving with separate lookups looks like some sequential order exactly when no two requests agree in key and content, pass all checks, and find their key free and their order not refunded; and exactly then every one is linearizable |
| RefundTwins.NoTwinsKeepOrder | app/services.py:66-108 | without such twins each complete interleaving looks like some sequential order that puts no request before one answered when it began |
| RefundTwins.TwinsBreakOrder | app/services.py:66-108 | with them some complete interleaving looks like none, whatever the other requests and the table |
| RefundTwins.SelfConflictNeedsTwin | app/services.py:66-108 | a request turned away because of the refund under its own key has a twin among the requests |
| RefundTwins.TwinsConflict | app/services.py:70-85 | when the second twin runs between the lookups of the first, the first is told "already refunded" because of the refund under its own key |
| RefundService.Database.constructor | app/services.py:66-67 | empty tables |
| RefundService.Database.CreateTicket | app/services.py:111-124 | the ticket or the error, and exactly one row on success |
| RefundService.TicketsByTheRules | app/services.py:111-124 | 404 for an unknown customer or a named order that is unknown, 422 for another customer's order, and else a ticket of the request, open, with the order only if one was named |
| RefundService.Database.FindRefund | app/services.py:70-74 | the lookup by key |
| RefundService.Database.CommitRefund | app/services.py:94-97 | inserts exactly when both unique columns allow it |
| RefundService.RefundSession.constructor | app/services.py:66-69 | a request that has not begun |
| RefundService.RefundSession.LookUpKey | app/services.py:70-78 | the first lookup |
| RefundService.RefundSession.LookUpOrder | app/services.py:80-93 | the second lookup and the checks |
| RefundService.RefundSession.Commit | app/services.py:94-97 | the commit |
| RefundService.RefundSession.Recover | app/services.py:97-106 | the lookup after a rollback |
| RefundService.RefundSession.Advance | app/services.py:66-108 | one database operation of a call is one step of the machine |
| RefundService.CreateRefund | app/services.py:66-108 | uninterrupted, the outcome and the table of the sequential service, whose answers `Refunds.ServeByTheRules` settles |
| RefundService.Interleave | app/services.py:66-108 | calls side by side under any schedule are the machine |
| ExactlyOnce.WorldIsGrounded | app/agent/tools.py:92-112 | whatever is tried, delivered, lost or still under way, and whatever refunds other clients request: at most one refund per order and per key, each backed by its request |
| ExactlyOnce.TicketsAreStarted | app/agent/tools.py:92-112 | tickets never outnumber the calls to open one that were started, this agent's and other clients' together |
| ExactlyOnce.RefundsExactlyOnce | app/agent/runtime.py:271-414 | a `create_refund` call that ends ok, however many attempts were lost or overlap it, leaves exactly one refund under its key and for its order, reports that one field by field, justified by order, delay and threshold, and so it stays under every further step of the attempts still under way |
| ExactlyOnce.OutcomesAreReported | app/agent/tools.py:92-185 | the tool's answer says what the service did: the refund field by field, with `completed` exactly when it is approved, or the error with its status code |
| ExactlyOnce.InvalidIsReported | app/agent/tools.py:98-106 | arguments that fail validation are refused with the validator's errors |
| ExactlyOnce.TicketsAreOnFile | app/agent/tools.py:178-185 | a `create_support_ticket` call that ends ok reports a ticket that is on file: open, for a known customer and an order of that customer or none, as asked for |
| ExactlyOnce.TicketsAreNotRetried | app/reliability/control.py:102-111 | a ticket call is attempted once |
| ExactlyOnce.AnsweredRefund | app/agent/tools.py:165-176 | a refund call answered with success, in whatever world it met, finds the refund it reports as the only one of its key and order |

## Left out

- Tracing, spans, OpenTelemetry and `safe_identifier`: they do not affect control flow.
- LangGraph, SQLAlchemy, the MCP client, httpx and anyio: a node runs, its fields are overwritten, an edge is followed; tables are finite with unique columns; a tool call is not run, delivered, lost or still under way.
- Planner and provider internals, prompts, schema validation and the scripted reviewer: arbitrary replies. Exceptions of other kinds than the caught ones, which end a run by propagating, are not modelled.
- The `result` field that the executor stores on a task, episode contents, run ids, goals, latencies and clocks: nothing modelled reads them.
- Sleeping in the planner's retry loop: the policy is the one of `Reliability`, the loop here only counts.
- An orchestration tool that returns something other than a dict, on which the executor's `.get` would raise: tools return dicts or raise here.
- A reviewer node without its task, or a reflection node without a review, which would raise in the source: a terminal update here, and proved unreachable by `Accounting.AlwaysSound`.
- The parts of the task validator about required tools, the presence of a tool call, names and lengths: not assumed, so the theorems cover more plans than a planner can return; `DeniedRuns.RepliesDecide`, which needs plans to exist, does respect them.
- SHA-256 and UUIDs: the request fingerprint is the text that is hashed, and codes are arbitrary.
- A unique clash on a row's code, a missing foreign row and transaction isolation beyond the steps of `RefundRaces`.
- JSON: lone surrogates, NaN and infinities, keys that are not strings and values of other Python types; equality is typed, so `1`, `1.0` and `True` are different values.
- A failure type or message that is not a string is rendered as its JSON text, where Python's `str` would write for instance `None`.
- Case folding in the claim check is that of the ASCII letters; other letters stand for themselves.
- A refund status in evidence that is not hashable, on which the source's set test would raise.
- Outcomes.CompletionIsJustified: the equality of tool calls, evidence and executions is stated for a run without replans; after a replan earlier plans leave evidence of calls that were never made.
- ExactlyOnce.TicketsAreStarted: bounds tickets by started calls, not by distinct ones: two equal ticket calls of the model open two tickets, as in the source.
- Redaction and ranking of the episodic memory, evaluation graders, benchmarks, the skills loader, command-line programs, HTTP routes and seed data: input, output and presentation.
