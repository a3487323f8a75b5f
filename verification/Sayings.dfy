/** The sentences of the single-agent loop. */
module Sayings {
  import opened Json

  datatype Saying =
    | ModelBudgetSpent
    | ProviderExhausted(message: string)
    | ProviderFailedOften
    | NoProviderRetry
    | ToolBudgetSpent
    | CallRepeated(tool: string)
    | NoToolRetry
    | UnsafeRetry(tool: string)
    | ToolsFailedOften
    | ToolExhausted(tool: string, message: string)
    | ToolTimedOut(tool: string, message: string)
    | StepsSpent(steps: nat)
    | ToolExceeded(tool: string)
    | ToolUnusable(tool: string)
    | NoStructuredError

  function Say(s: Saying): string {
    match s
    case ModelBudgetSpent => "Agent stopped before another provider call because its model-call budget was exhausted."
    case ProviderExhausted(message) => "Provider retries were exhausted: " + message
    case ProviderFailedOften => "Agent stopped after consecutive provider failures reached the configured limit."
    case NoProviderRetry => "Agent stopped before retrying the provider because its model-call budget was exhausted."
    case ToolBudgetSpent => "Agent stopped before another tool execution because its tool-call budget was exhausted."
    case CallRepeated(tool) => "Blocked repeated tool call: " + tool + " with identical arguments."
    case NoToolRetry => "Agent stopped before retrying a tool because its tool-call budget was exhausted."
    case UnsafeRetry(tool) =>
      "Automatic retry of side-effecting tool " + tool + " was blocked because it has no strong idempotency guarantee."
    case ToolsFailedOften => "Agent stopped after consecutive execution failures reached the configured limit."
    case ToolExhausted(tool, message) => "Tool " + tool + " failed after its retry limit was exhausted: " + message
    case ToolTimedOut(tool, message) => "Tool " + tool + " timed out: " + message
    case StepsSpent(steps) => "Agent stopped after reaching the maximum of " + Decimal(steps) + " steps."
    case ToolExceeded(tool) => "Tool " + tool + " exceeded its timeout"
    case ToolUnusable(tool) => "Tool " + tool + " returned an unusable result"
    case NoStructuredError => "Tool failure did not include a structured error"
  }
}
