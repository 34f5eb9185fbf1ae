/** The shapes of src/types.ts, together with the OpenAI chat-message shapes
    that src/agent.ts pushes onto its conversation history. */
module Types {
  import opened Wrappers
  import opened JsonValue

  /** A tool registered by the caller. Its `execute` capability lives outside
      the model and is supplied to the conversation loop as an oracle. */
  datatype Tool = Tool(name: string, description: string, inputSchema: Option<Json>)

  /** One tool call of an assistant reply: provider-assigned id, call type
      (only "function" calls are dispatched), tool name and the raw argument
      text the model produced. */
  datatype ToolCall = ToolCall(id: string, callType: string, name: string, arguments: string)

  /** The assistant message of a chat completion: its text (`None` for null)
      and its tool calls (empty when the reply has none). */
  datatype Completion = Completion(content: Option<string>, toolCalls: seq<ToolCall>)

  /** An entry of the conversation history. */
  datatype Message =
    | SystemMessage(text: string)
    | UserMessage(text: string)
    | AssistantMessage(reply: Completion)
    | ToolMessage(toolCallId: string, text: string)

  /** The function declaration sent to the model for one tool. */
  datatype ToolSchema = ToolSchema(name: string, description: string, parameters: Json)

  /** One chat-completion request of the conversation loop: the model, the
      history so far, the tool declarations (sent with tool choice "auto"
      when there are any) and the default parameters spread into the call. */
  datatype Request = Request(model: string, messages: seq<Message>, tools: seq<ToolSchema>, params: map<string, Json>)

  /** What the transport gives back: a response whose first choice carries a
      message or not, or a thrown error (with the `stage` property the error
      object may carry). */
  datatype Reply =
    | Received(message: Option<Completion>)
    | Fault(error: string, stage: Option<string>)

  /** Lifecycle event payloads; an error is represented by its message. */
  datatype Event =
    | AgentStart(input: string)
    | LLMStart(prompt: seq<Message>, model: string, params: map<string, Json>)
    | LLMEnd(response: Reply)
    | ToolStart(toolName: string, toolInput: Json)
    | ToolEnd(toolName: string, output: string)
    | Observation(content: string)
    | AgentEnd(finalAnswer: string)
    | AgentError(error: string, stage: string)

  /** The eight optional observers of `AgentCallbacks`. */
  datatype Hook = OnAgentStart | OnLLMStart | OnLLMEnd | OnToolStart | OnToolEnd | OnObservation | OnAgentEnd | OnAgentError

  /** The observer slot an event is delivered to. */
  function HookOf(e: Event): Hook {
    match e
    case AgentStart(_) => OnAgentStart
    case LLMStart(_, _, _) => OnLLMStart
    case LLMEnd(_) => OnLLMEnd
    case ToolStart(_, _) => OnToolStart
    case ToolEnd(_, _) => OnToolEnd
    case Observation(_) => OnObservation
    case AgentEnd(_) => OnAgentEnd
    case AgentError(_, _) => OnAgentError
  }

  /** A caller-supplied observer; `throws` says for which payloads it raises. */
  datatype Observer<-T> = Observer(throws: T -> bool)

  /** The registered observers; a hook that is not a key has no observer. */
  type Callbacks = map<Hook, Observer<Event>>

  /** `AgentConfig`: every field may be absent. */
  datatype Config = Config(
    apiKey: Option<string>,
    modelEndpoint: Option<string>,
    defaultModel: Option<string>,
    defaultParameters: Option<map<string, Json>>,
    tools: Option<seq<Tool>>,
    callbacks: Option<Callbacks>,
    systemPrompt: Option<string>)

  /** The six categories of a writing suggestion. */
  datatype SuggestionType = Grammar | Style | Clarity | Conciseness | Tone | Other

  /** `WritingSuggestion`. The position is passed through as whatever object
      value the model supplied. */
  datatype WritingSuggestion = WritingSuggestion(
    kind: SuggestionType,
    originalText: string,
    suggestedText: string,
    explanation: Option<string>,
    confidence: Option<real>,
    position: Option<Json>)
}
