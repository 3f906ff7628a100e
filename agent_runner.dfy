/** The five agent runners (api/agents/{insight,hook,spotlight,amplify,pulse}/index.ts).
    Each builds its prompt, calls the chat-completion API, parses the returned
    content as JSON and packages everything into an `AgentResult`; every
    exception is caught, so a runner always returns a value. The API call and
    `JSON.parse` are parameters: `call` maps the full prompt to what the API did,
    `parse` maps content to a JSON value or the parser's error message. */
module AgentRunner {
  import opened Common
  import opened SharedTypes
  import opened SystemContext

  /** What a `catch` clause can receive: an `Error` with its message, or any
      other thrown value. */
  datatype Thrown = ErrorObject(message: string) | NonError

  /** The parts of a chat-completion response the runners read:
      `choices[0]?.message?.content` and `usage?.{prompt,completion}_tokens`. */
  datatype Completion = Completion(content: Option<string>, promptTokens: Option<nat>, completionTokens: Option<nat>)

  /** The API call either returns a response or throws. */
  datatype CallOutcome = Responded(completion: Completion) | CallThrew(thrown: Thrown)

  const NoContentMessage: string := "No content returned from OpenAI"

  /** `error instanceof Error ? error.message : 'Unknown error'` */
  function CaughtMessage(t: Thrown): string
  {
    match t
    case ErrorObject(m) => m
    case NonError => "Unknown error"
  }

  /** `x || 0` on an optional count: a missing count and 0 both give 0. */
  function OrZero(n: Option<nat>): (r: nat)
    ensures n.Some? ==> r == n.value
    ensures n.None? ==> r == 0
  {
    match n
    case Some(v) => v
    case None => 0
  }

  /** `!content`: the content is missing or the empty string. */
  predicate NoContent(c: Completion)
  {
    c.content.None? || c.content.value == ""
  }

  /** What a runner labelled `agentLabel` promises about its result `r` when the API
      did `outcome`, parsing is `parse` and `elapsed` milliseconds went by. */
  ghost predicate WellPackaged(agentLabel: string, outcome: CallOutcome, parse: string -> Result<Json, string>, elapsed: nat, r: AgentResult)
  {
    // the label and the timing are always set
    && r.agent == agentLabel
    && r.processingTime == elapsed
    // success exactly when the API answered with content that parsed
    && (r.success <==> outcome.Responded? && !NoContent(outcome.completion) && parse(outcome.completion.content.value).Ok?)
    // error is null exactly on success
    && (r.error.None? <==> r.success)
    // a success carries the parsed value and token counts defaulting to 0
    && (r.success ==>
          r.data == parse(outcome.completion.content.value).value
          && r.tokensUsed == Some(TokenUsage(OrZero(outcome.completion.promptTokens), OrZero(outcome.completion.completionTokens))))
    // a failure carries null data, no token counts and the message of what was thrown
    && (!r.success ==> r.data == JNull && r.tokensUsed.None?)
    && (outcome.CallThrew? ==> r.error == Some(CaughtMessage(outcome.thrown)))
    && (outcome.Responded? && NoContent(outcome.completion) ==> r.error == Some(NoContentMessage))
    && (outcome.Responded? && !NoContent(outcome.completion) && parse(outcome.completion.content.value).Err? ==>
          r.error == Some(parse(outcome.completion.content.value).error))
  }

  /** The result record of the `catch` branch. */
  function Failure(agentLabel: string, message: string, elapsed: nat): AgentResult
  {
    AgentResult(agentLabel, false, JNull, Some(message), elapsed, None)
  }

  /** The body shared by the five runners, from the API outcome on. */
  function Package(agentLabel: string, outcome: CallOutcome, parse: string -> Result<Json, string>, elapsed: nat): (r: AgentResult)
    ensures WellPackaged(agentLabel, outcome, parse, elapsed, r)
  {
    match outcome
    case CallThrew(t) => Failure(agentLabel, CaughtMessage(t), elapsed)
    case Responded(c) =>
      if NoContent(c) then Failure(agentLabel, NoContentMessage, elapsed)
      else
        match parse(c.content.value)
        case Err(m) => Failure(agentLabel, m, elapsed)
        case Ok(data) =>
          AgentResult(agentLabel, true, data, None, elapsed, Some(TokenUsage(OrZero(c.promptTokens), OrZero(c.completionTokens))))
  }

  /** `WellPackaged` pins the result down completely: two results that both
      satisfy it are the same record. */
  lemma WellPackagedDeterminesResult(agentLabel: string, outcome: CallOutcome, parse: string -> Result<Json, string>, elapsed: nat, r1: AgentResult, r2: AgentResult)
    requires WellPackaged(agentLabel, outcome, parse, elapsed, r1)
    requires WellPackaged(agentLabel, outcome, parse, elapsed, r2)
    ensures r1 == r2
  {
  }

  /** A runner: build the prompt for `agentLabel`, call the API with it, package. */
  function RunAgent(agentLabel: string, agentPrompt: string, transcript: string,
                    call: string -> CallOutcome, parse: string -> Result<Json, string>, elapsed: nat): (r: AgentResult)
    ensures WellPackaged(agentLabel, call(BuildSystemPrompt(agentLabel, agentPrompt, transcript)), parse, elapsed, r)
  {
    Package(agentLabel, call(BuildSystemPrompt(agentLabel, agentPrompt, transcript)), parse, elapsed)
  }

  /** `runInsightAgent(transcript)`; `agentPrompt` stands for `INSIGHT_PROMPT`. */
  function RunInsightAgent(transcript: string, agentPrompt: string,
                           call: string -> CallOutcome, parse: string -> Result<Json, string>, elapsed: nat): (r: AgentResult)
    ensures WellPackaged("Insight", call(BuildSystemPrompt("Insight", agentPrompt, transcript)), parse, elapsed, r)
  {
    RunAgent("Insight", agentPrompt, transcript, call, parse, elapsed)
  }

  /** `runHookAgent(transcript)`; `agentPrompt` stands for `HOOK_PROMPT`. */
  function RunHookAgent(transcript: string, agentPrompt: string,
                        call: string -> CallOutcome, parse: string -> Result<Json, string>, elapsed: nat): (r: AgentResult)
    ensures WellPackaged("Hook", call(BuildSystemPrompt("Hook", agentPrompt, transcript)), parse, elapsed, r)
  {
    RunAgent("Hook", agentPrompt, transcript, call, parse, elapsed)
  }

  /** `runSpotlightAgent(transcript)`; `agentPrompt` stands for `SPOTLIGHT_PROMPT`. */
  function RunSpotlightAgent(transcript: string, agentPrompt: string,
                             call: string -> CallOutcome, parse: string -> Result<Json, string>, elapsed: nat): (r: AgentResult)
    ensures WellPackaged("Spotlight", call(BuildSystemPrompt("Spotlight", agentPrompt, transcript)), parse, elapsed, r)
  {
    RunAgent("Spotlight", agentPrompt, transcript, call, parse, elapsed)
  }

  /** `runAmplifyAgent(transcript)`; `agentPrompt` stands for `AMPLIFY_PROMPT`. */
  function RunAmplifyAgent(transcript: string, agentPrompt: string,
                           call: string -> CallOutcome, parse: string -> Result<Json, string>, elapsed: nat): (r: AgentResult)
    ensures WellPackaged("Amplify", call(BuildSystemPrompt("Amplify", agentPrompt, transcript)), parse, elapsed, r)
  {
    RunAgent("Amplify", agentPrompt, transcript, call, parse, elapsed)
  }

  /** `runPulseAgent(transcript)`; `agentPrompt` stands for `PULSE_PROMPT`. */
  function RunPulseAgent(transcript: string, agentPrompt: string,
                         call: string -> CallOutcome, parse: string -> Result<Json, string>, elapsed: nat): (r: AgentResult)
    ensures WellPackaged("Pulse", call(BuildSystemPrompt("Pulse", agentPrompt, transcript)), parse, elapsed, r)
  {
    RunAgent("Pulse", agentPrompt, transcript, call, parse, elapsed)
  }

  /** The runner of agent `n`, as the re-run handler's `switch` selects it. */
  function RunNamedAgent(n: AgentName, transcript: string, agentPrompt: string,
                         call: string -> CallOutcome, parse: string -> Result<Json, string>, elapsed: nat): (r: AgentResult)
    ensures WellPackaged(n.Label(), call(BuildSystemPrompt(n.Label(), agentPrompt, transcript)), parse, elapsed, r)
  {
    match n
    case Insight => RunInsightAgent(transcript, agentPrompt, call, parse, elapsed)
    case Hook => RunHookAgent(transcript, agentPrompt, call, parse, elapsed)
    case Spotlight => RunSpotlightAgent(transcript, agentPrompt, call, parse, elapsed)
    case Amplify => RunAmplifyAgent(transcript, agentPrompt, call, parse, elapsed)
    case Pulse => RunPulseAgent(transcript, agentPrompt, call, parse, elapsed)
  }
}
