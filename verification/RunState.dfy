/** What a run is, as data, and the limits every step is checked against. */
module RunState {
  import opened Wrappers
  import opened Json
  import opened Messages

  datatype RunStatus = Queued | Running | Paused | Completed | Failed {
    predicate IsTerminal() { Completed? || Failed? }
  }

  datatype ErrorCode =
    | BudgetExceeded | UpstreamRefusal | UpstreamTruncated | ToolFailed | StepFailed | NeedsReview | ToolPending

  const DEFAULT_STEP_ATTEMPTS := 3
  const DEFAULT_RUN_RETRIES := 6
  const DEFAULT_STEP_TIMEOUT := 60.0

  datatype RunLimits = RunLimits(
    maxSteps: int, tokenBudget: int, maxOutputTokens: int,
    maxStepAttempts: int, maxRunRetries: int, stepTimeout: real)
  {
    /** The limits that have a column. */
    function AsStored(): StoredLimits { StoredLimits(maxSteps, tokenBudget, maxOutputTokens) }

    predicate HasDefaults() {
      && maxStepAttempts == DEFAULT_STEP_ATTEMPTS && maxRunRetries == DEFAULT_RUN_RETRIES
      && stepTimeout == DEFAULT_STEP_TIMEOUT
    }
  }

  datatype StoredLimits = StoredLimits(maxSteps: int, tokenBudget: int, maxOutputTokens: int) {
    /** What a load makes of them: the limits without a column come back as their defaults. */
    function AsLoaded(): RunLimits {
      RunLimits(maxSteps, tokenBudget, maxOutputTokens,
                DEFAULT_STEP_ATTEMPTS, DEFAULT_RUN_RETRIES, DEFAULT_STEP_TIMEOUT)
    }
  }

  datatype RunUsage = RunUsage(steps: nat, input: nat, output: nat, cacheRead: nat) {
    function Total(): nat { input + output }

    function Plus(u: Usage): RunUsage {
      RunUsage(steps + 1, input + u.input, output + u.output, cacheRead + u.cacheRead)
    }
  }

  datatype ToolCallRecord = ToolCallRecord(toolUseId: Text, name: Text, ok: bool, detail: Option<Text>)

  /** What the model reads of a call: a failed one gets a result too, with its id. */
  function ResultOf(use: Block, content: Text, isError: bool): Block
    requires use.ToolUseBlock?
  {
    ToolResultBlock(use.id, content, isError)
  }

  function RecordFor(use: Block, content: Text, isError: bool): ToolCallRecord
    requires use.ToolUseBlock?
  {
    ToolCallRecord(use.id, use.name, !isError, if isError then Some(content) else None)
  }

  datatype StepRecord = StepRecord(
    idx: nat, stop: StopReason, usage: Usage, toolCalls: seq<ToolCallRecord>, attempt: nat)

  datatype RunOutcome = RunOutcome(
    status: RunStatus, usage: RunUsage, messages: seq<Message>, steps: seq<StepRecord>,
    answer: Option<Text>, error: Option<ErrorCode>)

  /** A run as it is loaded: everything needed to resume it. */
  datatype RunRecord = RunRecord(
    status: RunStatus, query: Text, limits: RunLimits, usage: RunUsage, messages: seq<Message>,
    steps: seq<StepRecord>, retriesUsed: nat)

  // --- LoopPolicy --------------------------------------------------------------------

  const MIN_VIABLE_OUTPUT_TOKENS := 1024

  /** `LoopPolicy.check`: may one more step be taken? */
  predicate MayStep(limits: RunLimits, usage: RunUsage) {
    usage.steps < limits.maxSteps && limits.tokenBudget - usage.Total() >= MIN_VIABLE_OUTPUT_TOKENS
  }

  /** The lesser of the cap per step and what is left of the budget. */
  function MaxTokensForNextStep(limits: RunLimits, usage: RunUsage): (n: int)
    ensures n <= limits.maxOutputTokens && usage.input + usage.output + n <= limits.tokenBudget
    ensures n == limits.maxOutputTokens || usage.input + usage.output + n == limits.tokenBudget
  {
    var remaining := limits.tokenBudget - usage.Total();
    if limits.maxOutputTokens <= remaining then limits.maxOutputTokens else remaining
  }

  /** The clamp caps the overshoot: at most the input of the step that was allowed. */
  lemma OvershootIsOneInput(limits: RunLimits, usage: RunUsage, spent: Usage)
    requires MayStep(limits, usage) && spent.output <= MaxTokensForNextStep(limits, usage)
    ensures usage.Plus(spent).Total() <= limits.tokenBudget + spent.input
  {
  }
}
