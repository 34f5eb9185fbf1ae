/** The conversation loop of `AgentImplementation.run` (src/agent.ts:55-185)
    as a specification over values: the history it accumulates, the
    lifecycle events it emits, the requests it sends and the outcome it
    returns or throws. The imperative loop itself is `Agent.Agent.Run`,
    proved equal to `RunSpec`. */
module Conversation {
  import opened Wrappers
  import opened JsonValue
  import opened Types
  import opened Utils
  import opened Sequences

  const NotConfigured := "Agent is not configured with an API key. Call configureAgent first."
  const NoMessage := "No message received from LLM."
  const NoAnswer := "Agent could not reach a final answer within the turn limit."
  const DefaultModel := "gpt-4o"
  const DefaultStage := "agent_run"
  const DefaultMaxTurns := 5

  /** Everything outside the loop that it calls: the chat-completion
      transport (given the call's index and its request), `JSON.parse` and
      the `execute` capabilities of the registered tools. */
  datatype Backend = Backend(
    complete: (nat, Request) -> Reply,
    parseJson: string -> Result<Json, string>,
    execute: (Tool, Json) -> Result<string, string>)

  /** How `run` settles: it resolves to an answer or rejects with an error. */
  datatype Outcome = Answer(text: string) | Thrown(message: string)

  /** A truthy optional string: present and non-empty. */
  predicate IsText(s: Option<string>) {
    s.Some? && s.value != ""
  }

  function Max0(n: int): nat {
    if n < 0 then 0 else n
  }

  predicate IsPrefix<T(==)>(a: seq<T>, b: seq<T>) {
    |a| <= |b| && b[..|a|] == a
  }

  /** The history before the first turn: the system prompt when one is
      configured, then the caller's input. */
  function Seed(config: Config, input: string): seq<Message> {
    (if IsText(config.systemPrompt) then [SystemMessage(config.systemPrompt.value)] else [])
    + [UserMessage(input)]
  }

  /** `{ type: 'object', properties: {} }`, declared for a tool without a schema. */
  const EmptyObjectSchema := Obj(map["type" := Str("object"), "properties" := Obj(map[])])

  /** The function declarations built from the configured tools, in order. */
  function ToolSchemas(tools: Option<seq<Tool>>): seq<ToolSchema> {
    if tools.None? then [] else
    seq(|tools.value|, k requires 0 <= k < |tools.value| =>
      ToolSchema(tools.value[k].name, tools.value[k].description, tools.value[k].inputSchema.GetOr(EmptyObjectSchema)))
  }

  /** The request of one turn: the configured model (default "gpt-4o"), the
      whole history, the tool declarations and the default parameters. */
  function RequestFor(config: Config, history: seq<Message>): Request {
    Request(config.defaultModel.GetOr(DefaultModel), history, ToolSchemas(config.tools),
            config.defaultParameters.GetOr(map[]))
  }

  /** `JSON.parse(arguments || '{}')`. */
  function ArgumentsOf(backend: Backend, call: ToolCall): Result<Json, string> {
    backend.parseJson(if call.arguments == "" then "{}" else call.arguments)
  }

  /** What dispatching one function call adds: its tool message and the
      lifecycle events it emits, in order. */
  datatype Dispatched = Dispatched(reply: Message, events: seq<Event>)

  /** The stage tags of the error events among `events`, in order. */
  function ErrorStages(events: seq<Event>): seq<string> {
    if events == [] then []
    else (if events[0].AgentError? then [events[0].stage] else []) + ErrorStages(events[1..])
  }

  /** The stage at which dispatching `call` fails, if it does: its arguments
      are not JSON, no configured tool has its name, or the tool throws. */
  function FailedStage(config: Config, backend: Backend, call: ToolCall): Option<string> {
    match ArgumentsOf(backend, call)
    case Failure(_) => Some("tool_args_parse")
    case Success(args) =>
      match FindTool(call.name, config.tools)
      case None => Some("tool_find")
      case Some(tool) => if backend.execute(tool, args).Failure? then Some("tool_execute") else None
  }

  /** One function call: its tool message and events (`DispatchOneIsolated`
      states what they are). */
  function DispatchOne(config: Config, backend: Backend, call: ToolCall): (d: Dispatched)
    ensures d.reply.ToolMessage? && d.reply.toolCallId == call.id
  {
    match ArgumentsOf(backend, call)
    case Failure(e) =>
      var msg := "Failed to parse arguments for tool " + call.name + ": " + e;
      Dispatched(ToolMessage(call.id, "Error: " + msg), [AgentError(msg, "tool_args_parse")])
    case Success(args) =>
      match FindTool(call.name, config.tools)
      case None =>
        var msg := "LLM tried to call unknown tool: " + call.name;
        Dispatched(ToolMessage(call.id, "Error: " + msg), [AgentError(msg, "tool_find")])
      case Some(tool) => Invoke(backend, call, tool, args)
  }

  /** Running the tool a call names, with its parsed arguments. */
  function Invoke(backend: Backend, call: ToolCall, tool: Tool, args: Json): Dispatched {
    match backend.execute(tool, args)
    case Success(output) =>
      Dispatched(ToolMessage(call.id, output), [ToolStart(tool.name, args), ToolEnd(tool.name, output), Observation(output)])
    case Failure(e) =>
      var msg := "Error executing tool " + tool.name + ": " + e;
      Dispatched(ToolMessage(call.id, "Error: " + msg), [ToolStart(tool.name, args), AgentError(e, "tool_execute")])
  }

  /** One function call, isolated from every other: a failure to parse its
      arguments, an unknown tool name or a throwing tool becomes an
      `Error: ...` tool message plus exactly one error event tagged with that
      stage; otherwise the tool's output becomes the tool message, the events
      are the tool's start, end and observation, and no error is emitted. */
  lemma DispatchOneIsolated(config: Config, backend: Backend, call: ToolCall)
    ensures var d := DispatchOne(config, backend, call);
            var stage := FailedStage(config, backend, call);
            && (stage.Some? ==> ErrorStages(d.events) == [stage.value] && IsPrefix("Error: ", d.reply.text))
            && (stage.None? ==> ErrorStages(d.events) == [] && |d.events| == 3
                                && d.events[1] == ToolEnd(call.name, d.reply.text) && d.events[2] == Observation(d.reply.text))
            && (stage.None? ==>
                  && ArgumentsOf(backend, call).Success? && FindTool(call.name, config.tools).Some?
                  && d.events[0] == ToolStart(call.name, ArgumentsOf(backend, call).value)
                  && backend.execute(FindTool(call.name, config.tools).value, ArgumentsOf(backend, call).value).Success?
                  && d.reply.text
                     == backend.execute(FindTool(call.name, config.tools).value, ArgumentsOf(backend, call).value).value)
  {
    var d := DispatchOne(config, backend, call);
    match ArgumentsOf(backend, call)
    case Failure(e) =>
      var msg := "Failed to parse arguments for tool " + call.name + ": " + e;
      ErrorStageOfOne(AgentError(msg, "tool_args_parse"));
      assert ("Error: " + msg)[..7] == "Error: ";
    case Success(args) =>
      match FindTool(call.name, config.tools)
      case None =>
        var msg := "LLM tried to call unknown tool: " + call.name;
        ErrorStageOfOne(AgentError(msg, "tool_find"));
        assert ("Error: " + msg)[..7] == "Error: ";
      case Some(tool) =>
        var start := ToolStart(tool.name, args);
        match backend.execute(tool, args)
        case Success(output) =>
          assert d.events == [start] + ([ToolEnd(tool.name, output)] + [Observation(output)]);
          ErrorStageOfOne(start);
          ErrorStageOfOne(ToolEnd(tool.name, output));
          ErrorStageOfOne(Observation(output));
          ErrorStagesConcat([start], [ToolEnd(tool.name, output)] + [Observation(output)]);
          ErrorStagesConcat([ToolEnd(tool.name, output)], [Observation(output)]);
        case Failure(e) =>
          var msg := "Error executing tool " + tool.name + ": " + e;
          assert d.events == [start] + [AgentError(e, "tool_execute")];
          ErrorStageOfOne(start);
          ErrorStageOfOne(AgentError(e, "tool_execute"));
          ErrorStagesConcat([start], [AgentError(e, "tool_execute")]);
          assert ("Error: " + msg)[..7] == "Error: ";
  }

  lemma ErrorStageOfOne(e: Event)
    ensures ErrorStages([e]) == if e.AgentError? then [e.stage] else []
  {
    assert [e][1..] == [];
  }

  /** The loop's state: history, emitted events and requests sent so far. */
  datatype Progress = Progress(history: seq<Message>, emitted: seq<Event>, requests: seq<Request>)

  /** One iteration of the inner `for (const toolCall of message.tool_calls)`. */
  function DispatchCall(config: Config, backend: Backend, call: ToolCall, s: Progress): Progress {
    if call.callType != "function" then s
    else
      var d := DispatchOne(config, backend, call);
      Progress(s.history + [d.reply], s.emitted + d.events, s.requests)
  }

  /** The whole inner loop, in received order. */
  function DispatchAll(config: Config, backend: Backend, calls: seq<ToolCall>, s: Progress): Progress
    decreases |calls|
  {
    if calls == [] then s
    else DispatchAll(config, backend, calls[1..], DispatchCall(config, backend, calls[0], s))
  }

  /** How the turn loop ended: by `break` or exhaustion with the answer found
      so far ("" for none), or by an exception reaching the outer `catch`. */
  datatype Stop = Finished(answer: string) | Crashed(error: string, stage: Option<string>)

  datatype LoopEnd = LoopEnd(stop: Stop, state: Progress)

  /** Where one iteration of the turn loop leads: to the next turn, or out
      of the loop by `break` or by an exception. */
  datatype Step = Next(state: Progress) | Done(end: LoopEnd)

  /** The state a step leaves behind, whichever way it goes. */
  function After(r: Step): Progress {
    if r.Next? then r.state else r.end.state
  }

  /** One iteration of the turn loop: send the history, record the reply,
      then dispatch its tool calls and go on, stop on non-empty content, stop
      on the last turn, or go on. */
  function TurnStep(config: Config, backend: Backend, maxTurns: int, turn: nat, s: Progress): Step {
    var request := RequestFor(config, s.history);
    var sent := Progress(s.history, s.emitted + [LLMStart(s.history, request.model, request.params)],
                         s.requests + [request]);
    var reply := backend.complete(turn, request);
    if reply.Fault? then Done(LoopEnd(Crashed(reply.error, reply.stage), sent))
    else
      var heard := sent.(emitted := sent.emitted + [LLMEnd(reply)]);
      if reply.message.None? then Done(LoopEnd(Crashed(NoMessage, None), heard))
      else
        var message := reply.message.value;
        var next := heard.(history := heard.history + [AssistantMessage(message)]);
        if |message.toolCalls| > 0 then Next(DispatchAll(config, backend, message.toolCalls, next))
        else if IsText(message.content) then Done(LoopEnd(Finished(message.content.value), next))
        else if turn == maxTurns - 1 then Done(LoopEnd(Finished(""), next))
        else Next(next)
  }

  /** The turn loop from turn `turn` on. */
  function Turns(config: Config, backend: Backend, maxTurns: int, turn: nat, s: Progress): LoopEnd
    decreases maxTurns - turn
  {
    if turn >= maxTurns then LoopEnd(Finished(""), s)
    else
      match TurnStep(config, backend, maxTurns, turn, s)
      case Done(e) => e
      case Next(t) => Turns(config, backend, maxTurns, turn + 1, t)
  }

  /** Index of the last assistant message whose content is a string (possibly
      empty), or -1: `history.filter(m => m.role === 'assistant' && typeof
      m.content === 'string').pop()`. */
  function LastTextual(h: seq<Message>): (i: int)
    ensures -1 <= i < |h|
    ensures i >= 0 ==> HasStringContent(h[i])
    ensures forall j :: i < j < |h| ==> !HasStringContent(h[j])
  {
    if h == [] then -1
    else if HasStringContent(h[|h| - 1]) then |h| - 1
    else LastTextual(h[..|h| - 1])
  }

  /** An assistant message whose content is a string, possibly empty. */
  predicate HasStringContent(m: Message) {
    m.AssistantMessage? && m.reply.content.Some?
  }

  /** The answer when the loop ended without one: the content of the last
      assistant message with string content when that content is non-empty,
      otherwise the fixed message. An empty last content is not skipped in
      favour of an earlier one. */
  function Fallback(h: seq<Message>): (r: string)
    ensures r != ""
    ensures forall i :: 0 <= i < |h| && HasStringContent(h[i]) && (forall j :: i < j < |h| ==> !HasStringContent(h[j])) ==>
              r == (if h[i].reply.content.value != "" then h[i].reply.content.value else NoAnswer)
    ensures (forall i :: 0 <= i < |h| ==> !HasStringContent(h[i])) ==> r == NoAnswer
  {
    var i := LastTextual(h);
    if i >= 0 && h[i].reply.content.value != "" then h[i].reply.content.value else NoAnswer
  }

  /** `error.stage || 'agent_run'`. */
  function StageOf(stage: Option<string>): string {
    if IsText(stage) then stage.value else DefaultStage
  }

  /** Everything one call of `run` produces. */
  datatype RunTrace = RunTrace(outcome: Outcome, history: seq<Message>, emitted: seq<Event>, requests: seq<Request>)

  /** `run(input, maxTurns)` against the configuration and the client handle. */
  function RunSpec(config: Config, client: Option<string>, backend: Backend, input: string, maxTurns: int): RunTrace {
    if client.None? then RunTrace(Thrown(NotConfigured), [], [], [])
    else
      var end := Turns(config, backend, maxTurns, 0, Progress(Seed(config, input), [AgentStart(input)], []));
      var s := end.state;
      match end.stop
      case Crashed(error, stage) =>
        var tag := StageOf(stage);
        RunTrace(Thrown("Agent run failed on stage '" + tag + "': " + error),
                 s.history, s.emitted + [AgentError(error, tag)], s.requests)
      case Finished(answer) =>
        var final := if answer != "" then answer else Fallback(s.history);
        RunTrace(Answer(final), s.history, s.emitted + [AgentEnd(final)], s.requests)
  }

  /** The observer an event is handed to. */
  function ObserverFor(callbacks: Callbacks, e: Event): Option<Observer<Event>> {
    if HookOf(e) in callbacks then Some(callbacks[HookOf(e)]) else None
  }

  /** The observer invocations made while `events` are emitted in order, each
      through `triggerCallback`. */
  function Deliver(callbacks: Callbacks, events: seq<Event>): seq<Delivery<Event>>
    decreases |events|
  {
    if events == [] then []
    else
      var last := events[|events| - 1];
      TriggerCallback(ObserverFor(callbacks, last), last, Deliver(callbacks, events[..|events| - 1]))
  }

  // ---------------------------------------------------------------------
  // The tool-call block

  /** The ids of the calls of type "function", in order. */
  function FunctionCallIds(calls: seq<ToolCall>): seq<string> {
    if calls == [] then []
    else (if calls[0].callType == "function" then [calls[0].id] else []) + FunctionCallIds(calls[1..])
  }

  /** The failure stages of the function calls, in order. */
  function FailedStages(config: Config, backend: Backend, calls: seq<ToolCall>): seq<string> {
    if calls == [] then []
    else
      var stage := FailedStage(config, backend, calls[0]);
      (if calls[0].callType == "function" && stage.Some? then [stage.value] else [])
      + FailedStages(config, backend, calls[1..])
  }

  /** `block` answers the calls with ids `ids`: one tool message per id, in order. */
  predicate Answers(block: seq<Message>, ids: seq<string>) {
    |block| == |ids| && forall k :: 0 <= k < |ids| ==> block[k].ToolMessage? && block[k].toolCallId == ids[k]
  }

  lemma AnswersConcat(a: seq<Message>, b: seq<Message>, x: seq<string>, y: seq<string>)
    requires Answers(a, x) && Answers(b, y)
    ensures Answers(a + b, x + y)
  {
  }

  lemma {:induction false} ErrorStagesConcat(a: seq<Event>, b: seq<Event>)
    ensures ErrorStages(a + b) == ErrorStages(a) + ErrorStages(b)
    decreases |a|
  {
    if a != [] {
      assert (a + b)[1..] == a[1..] + b;
      ErrorStagesConcat(a[1..], b);
    } else {
      assert a + b == b;
    }
  }

  /** The tool messages the inner loop appends, one per function call. */
  function Replies(config: Config, backend: Backend, calls: seq<ToolCall>): seq<Message> {
    if calls == [] then []
    else
      (if calls[0].callType == "function" then [DispatchOne(config, backend, calls[0]).reply] else [])
      + Replies(config, backend, calls[1..])
  }

  /** The events the inner loop emits, call after call. */
  function CallEvents(config: Config, backend: Backend, calls: seq<ToolCall>): seq<Event> {
    if calls == [] then []
    else
      (if calls[0].callType == "function" then DispatchOne(config, backend, calls[0]).events else [])
      + CallEvents(config, backend, calls[1..])
  }

  /** The inner loop only appends, and never sends a request. */
  lemma {:induction false} DispatchAllAppends(config: Config, backend: Backend, calls: seq<ToolCall>, s: Progress)
    ensures DispatchAll(config, backend, calls, s)
         == Progress(s.history + Replies(config, backend, calls), s.emitted + CallEvents(config, backend, calls), s.requests)
    decreases |calls|
  {
    if calls == [] {
      assert s.history + [] == s.history && s.emitted + [] == s.emitted;
    } else {
      var t := DispatchCall(config, backend, calls[0], s);
      DispatchAllAppends(config, backend, calls[1..], t);
      if calls[0].callType == "function" {
        var d := DispatchOne(config, backend, calls[0]);
        AppendAssoc(s.history, [d.reply], Replies(config, backend, calls[1..]));
        AppendAssoc(s.emitted, d.events, CallEvents(config, backend, calls[1..]));
      }
    }
  }

  lemma {:induction false} RepliesAnswer(config: Config, backend: Backend, calls: seq<ToolCall>)
    ensures Answers(Replies(config, backend, calls), FunctionCallIds(calls))
    decreases |calls|
  {
    if calls != [] {
      RepliesAnswer(config, backend, calls[1..]);
      var head := if calls[0].callType == "function" then [calls[0].id] else [];
      var first := if calls[0].callType == "function" then [DispatchOne(config, backend, calls[0]).reply] else [];
      AnswersConcat(first, Replies(config, backend, calls[1..]), head, FunctionCallIds(calls[1..]));
    }
  }

  lemma {:induction false} CallEventsErrors(config: Config, backend: Backend, calls: seq<ToolCall>)
    ensures ErrorStages(CallEvents(config, backend, calls)) == FailedStages(config, backend, calls)
    decreases |calls|
  {
    if calls != [] {
      CallEventsErrors(config, backend, calls[1..]);
      var first := if calls[0].callType == "function" then DispatchOne(config, backend, calls[0]).events else [];
      ErrorStagesConcat(first, CallEvents(config, backend, calls[1..]));
      DispatchOneIsolated(config, backend, calls[0]);
    }
  }

  /** The inner loop sends nothing, only appends to the history and the
      events, gives every function call exactly one tool message carrying its
      id in order (whatever happened to the calls before it), skips every
      other call, and emits one error event per failed call, in order. */
  lemma DispatchAllAnswers(config: Config, backend: Backend, calls: seq<ToolCall>, s: Progress)
    ensures var r := DispatchAll(config, backend, calls, s);
            && r.requests == s.requests
            && IsPrefix(s.history, r.history) && IsPrefix(s.emitted, r.emitted)
            && Answers(r.history[|s.history|..], FunctionCallIds(calls))
            && ErrorStages(r.emitted[|s.emitted|..]) == FailedStages(config, backend, calls)
  {
    DispatchAllAppends(config, backend, calls, s);
    RepliesAnswer(config, backend, calls);
    CallEventsErrors(config, backend, calls);
    var r := DispatchAll(config, backend, calls, s);
    assert r.history[|s.history|..] == Replies(config, backend, calls);
    assert r.emitted[|s.emitted|..] == CallEvents(config, backend, calls);
  }

  // ---------------------------------------------------------------------
  // The shape of the history

  /** After the seed, a history is a run of assistant messages, each followed
      by one tool message per function call it requested, in order. */
  ghost predicate Paired(h: seq<Message>)
    decreases |h|
  {
    h == [] ||
    (h[0].AssistantMessage? &&
     var ids := FunctionCallIds(h[0].reply.toolCalls);
     1 + |ids| <= |h| && Answers(h[1..1 + |ids|], ids) && Paired(h[1 + |ids|..]))
  }

  /** An assistant message followed by the answers to its function calls is
      paired. */
  lemma PairedTurn(m: Completion, block: seq<Message>)
    requires Answers(block, FunctionCallIds(m.toolCalls))
    ensures Paired([AssistantMessage(m)] + block)
  {
    var g := [AssistantMessage(m)] + block;
    assert g[1..1 + |block|] == block;
    assert g[1 + |block|..] == [];
  }

  /** A turn put in front of a paired history keeps it paired. */
  lemma PairedCons(m: Completion, block: seq<Message>, rest: seq<Message>)
    requires Answers(block, FunctionCallIds(m.toolCalls)) && Paired(rest)
    ensures Paired([AssistantMessage(m)] + block + rest)
  {
    var g := [AssistantMessage(m)] + block + rest;
    assert g[0] == AssistantMessage(m);
    assert g[1..1 + |block|] == block;
    assert g[1 + |block|..] == rest;
  }

  /** The length of the first turn of a non-empty paired history. */
  function FirstTurnLength(h: seq<Message>): nat
    requires h != [] && h[0].AssistantMessage?
  {
    1 + |FunctionCallIds(h[0].reply.toolCalls)|
  }

  /** Appending to a paired history only lengthens what follows its first
      turn. */
  lemma PairedConcatStep(h: seq<Message>, g: seq<Message>)
    requires Paired(h) && h != []
    requires Paired(h[FirstTurnLength(h)..] + g)
    ensures Paired(h + g)
  {
    var m := h[0].reply;
    var n := FirstTurnLength(h);
    SplitThree(h, n);
    PairedCons(m, h[1..n], h[n..] + g);
    AppendThree([h[0]], h[1..n], h[n..], g);
  }

  /** Paired histories concatenate. */
  lemma {:induction false} PairedConcat(h: seq<Message>, g: seq<Message>)
    requires Paired(h) && Paired(g)
    ensures Paired(h + g)
    decreases |h|
  {
    if h == [] {
      assert h + g == g;
    } else {
      PairedConcat(h[FirstTurnLength(h)..], g);
      PairedConcatStep(h, g);
    }
  }

  lemma PrefixExtend<T>(a: seq<T>, b: seq<T>, x: seq<T>)
    requires IsPrefix(a, b)
    ensures IsPrefix(a, b + x)
  {
    assert (b + x)[..|a|] == b[..|a|];
  }

  lemma PrefixTrans<T>(a: seq<T>, b: seq<T>, c: seq<T>)
    requires IsPrefix(a, b) && IsPrefix(b, c)
    ensures IsPrefix(a, c)
  {
    assert c[..|a|] == c[..|b|][..|a|];
  }

  // ---------------------------------------------------------------------
  // The turn loop

  /** The reply the backend gave to the `k`-th request. */
  function ReplyTo(backend: Backend, requests: seq<Request>, k: nat): Reply
    requires k < |requests|
  {
    backend.complete(k, requests[k])
  }

  /** A reply that ends the loop with an answer: a message without tool calls
      and with non-empty content. */
  predicate IsFinal(r: Reply) {
    r.Received? && r.message.Some? && |r.message.value.toolCalls| == 0 && IsText(r.message.value.content)
  }

  /** A reply after which the loop goes on to the next turn, if any. */
  predicate Continues(r: Reply) {
    r.Received? && r.message.Some? && !IsFinal(r)
  }

  /** One turn sends exactly one request, built from the history it starts
      from, and otherwise only appends to the history and the events. */
  lemma StepAppends(config: Config, backend: Backend, maxTurns: int, turn: nat, s: Progress)
    ensures var t := After(TurnStep(config, backend, maxTurns, turn, s));
            && IsPrefix(s.history, t.history) && IsPrefix(s.emitted, t.emitted)
            && t.requests == s.requests + [RequestFor(config, s.history)]
  {
    var request := RequestFor(config, s.history);
    var reply := backend.complete(turn, request);
    var started := s.emitted + [LLMStart(s.history, request.model, request.params)];
    PrefixExtend(s.emitted, s.emitted, [LLMStart(s.history, request.model, request.params)]);
    PrefixExtend(s.emitted, started, [LLMEnd(reply)]);
    if reply.Received? && reply.message.Some? {
      var message := reply.message.value;
      var next := Progress(s.history + [AssistantMessage(message)], started + [LLMEnd(reply)], s.requests + [request]);
      PrefixExtend(s.history, s.history, [AssistantMessage(message)]);
      if |message.toolCalls| > 0 {
        DispatchAllAppends(config, backend, message.toolCalls, next);
        PrefixExtend(s.history, next.history, Replies(config, backend, message.toolCalls));
        PrefixExtend(s.emitted, next.emitted, CallEvents(config, backend, message.toolCalls));
      }
    }
  }

  /** What one turn's reply decides: the loop goes on only after a reply
      that continues it; it crashes on a fault or a missing message; it
      answers with the content of a final reply; it stops without an answer
      only on the last turn. */
  lemma StepReply(config: Config, backend: Backend, maxTurns: int, turn: nat, s: Progress)
    ensures var r := TurnStep(config, backend, maxTurns, turn, s);
            var reply := backend.complete(turn, RequestFor(config, s.history));
            && (r.Next? ==> Continues(reply))
            && (r.Done? && r.end.stop.Crashed? ==>
                  || (reply.Fault? && r.end.stop == Crashed(reply.error, reply.stage))
                  || (reply == Received(None) && r.end.stop == Crashed(NoMessage, None)))
            && (r.Done? && r.end.stop.Finished? && r.end.stop.answer != "" ==>
                  IsFinal(reply) && r.end.stop.answer == reply.message.value.content.value)
            && (r.Done? && r.end.stop == Finished("") ==> turn == maxTurns - 1 && Continues(reply))
  {
  }

  /** The loop only appends: to the history, to the events and to the
      requests; it sends at most one request per turn, and the first request
      it sends carries the history it started from. */
  lemma {:induction false} TurnsAppendOnly(config: Config, backend: Backend, maxTurns: int, turn: nat, s: Progress)
    requires |s.requests| == turn <= Max0(maxTurns)
    ensures var e := Turns(config, backend, maxTurns, turn, s).state;
            && IsPrefix(s.history, e.history) && IsPrefix(s.emitted, e.emitted) && IsPrefix(s.requests, e.requests)
            && |e.requests| <= Max0(maxTurns)
            && (|e.requests| > turn ==> e.requests[turn] == RequestFor(config, s.history))
    decreases maxTurns - turn
  {
    if turn < maxTurns {
      StepAppends(config, backend, maxTurns, turn, s);
      var r := TurnStep(config, backend, maxTurns, turn, s);
      var t := After(r);
      PrefixExtend(s.requests, s.requests, [RequestFor(config, s.history)]);
      if r.Next? {
        TurnsAppendOnly(config, backend, maxTurns, turn + 1, t);
        var e := Turns(config, backend, maxTurns, turn + 1, t).state;
        PrefixTrans(s.history, t.history, e.history);
        PrefixTrans(s.emitted, t.emitted, e.emitted);
        PrefixTrans(s.requests, t.requests, e.requests);
      }
    }
  }

  /** What holds of the loop's state at every turn: the history starts with
      the seed and is paired after it, every request sent carried a prefix of
      the current history, built by `RequestFor`, and each request carried a
      longer history than the one before it. */
  ghost predicate Consistent(config: Config, seed: seq<Message>, s: Progress) {
    && IsPrefix(seed, s.history) && Paired(s.history[|seed|..])
    && (forall k :: 0 <= k < |s.requests| ==>
          IsPrefix(s.requests[k].messages, s.history) && s.requests[k] == RequestFor(config, s.requests[k].messages))
    && (forall k, j :: 0 <= k < j < |s.requests| ==> |s.requests[k].messages| < |s.requests[j].messages|)
  }

  /** At the head of a turn the history has grown past the last request. */
  ghost predicate AtTurnStart(s: Progress) {
    forall k :: 0 <= k < |s.requests| ==> |s.requests[k].messages| < |s.history|
  }

  lemma SendConsistent(config: Config, seed: seq<Message>, s: Progress, emitted: seq<Event>)
    requires Consistent(config, seed, s) && AtTurnStart(s)
    ensures Consistent(config, seed, Progress(s.history, emitted, s.requests + [RequestFor(config, s.history)]))
  {
  }

  lemma ExtendPaired(seed: seq<Message>, h: seq<Message>, m: Completion, block: seq<Message>)
    requires IsPrefix(seed, h) && Paired(h[|seed|..])
    requires Answers(block, FunctionCallIds(m.toolCalls))
    ensures var h' := h + [AssistantMessage(m)] + block;
            IsPrefix(seed, h') && Paired(h'[|seed|..])
  {
    var turn := [AssistantMessage(m)] + block;
    PairedTurn(m, block);
    PairedConcat(h[|seed|..], turn);
    AppendAssoc(h, [AssistantMessage(m)], block);
    DropAppend(h, turn, |seed|);
    PrefixExtend(seed, h, turn);
  }

  /** The requests sent so far and the one about to be sent carry prefixes
      of the history grown by `x`, each built by `RequestFor`. */
  lemma RequestsExtend(config: Config, rs: seq<Request>, h: seq<Message>, x: seq<Message>)
    requires forall k :: 0 <= k < |rs| ==> IsPrefix(rs[k].messages, h) && rs[k] == RequestFor(config, rs[k].messages)
    ensures var rs' := rs + [RequestFor(config, h)];
            forall k :: 0 <= k < |rs'| ==> IsPrefix(rs'[k].messages, h + x) && rs'[k] == RequestFor(config, rs'[k].messages)
  {
    var rs' := rs + [RequestFor(config, h)];
    forall k | 0 <= k < |rs'|
      ensures IsPrefix(rs'[k].messages, h + x) && rs'[k] == RequestFor(config, rs'[k].messages)
    {
      if k < |rs| {
        assert rs'[k] == rs[k];
        PrefixExtend(rs[k].messages, h, x);
      } else {
        assert h[..|h|] == h;
        PrefixExtend(h, h, x);
      }
    }
  }

  /** The request about to be sent carries a longer history than every
      earlier one, and the history then grows past it. */
  lemma RequestsGrow(config: Config, rs: seq<Request>, h: seq<Message>, x: seq<Message>)
    requires forall k, j :: 0 <= k < j < |rs| ==> |rs[k].messages| < |rs[j].messages|
    requires forall k :: 0 <= k < |rs| ==> |rs[k].messages| < |h|
    requires x != []
    ensures var rs' := rs + [RequestFor(config, h)];
            && (forall k, j :: 0 <= k < j < |rs'| ==> |rs'[k].messages| < |rs'[j].messages|)
            && (forall k :: 0 <= k < |rs'| ==> |rs'[k].messages| < |h + x|)
  {
  }

  lemma ExtendConsistent(config: Config, seed: seq<Message>, s: Progress, m: Completion, block: seq<Message>, emitted: seq<Event>)
    requires Consistent(config, seed, s) && AtTurnStart(s)
    requires Answers(block, FunctionCallIds(m.toolCalls))
    ensures var t := Progress(s.history + [AssistantMessage(m)] + block, emitted, s.requests + [RequestFor(config, s.history)]);
            Consistent(config, seed, t) && AtTurnStart(t)
  {
    var x := [AssistantMessage(m)] + block;
    ExtendPaired(seed, s.history, m, block);
    AppendAssoc(s.history, [AssistantMessage(m)], block);
    RequestsExtend(config, s.requests, s.history, x);
    RequestsGrow(config, s.requests, s.history, x);
  }

  /** One turn keeps `Consistent`, and leads to a turn head when it goes on. */
  lemma StepConsistent(config: Config, backend: Backend, maxTurns: int, turn: nat, seed: seq<Message>, s: Progress)
    requires Consistent(config, seed, s) && AtTurnStart(s)
    ensures var r := TurnStep(config, backend, maxTurns, turn, s);
            Consistent(config, seed, After(r)) && (r.Next? ==> AtTurnStart(r.state))
  {
    var request := RequestFor(config, s.history);
    var reply := backend.complete(turn, request);
    var r := TurnStep(config, backend, maxTurns, turn, s);
    if reply.Received? && reply.message.Some? {
      var message := reply.message.value;
      var emitted := s.emitted + [LLMStart(s.history, request.model, request.params)] + [LLMEnd(reply)];
      var next := Progress(s.history + [AssistantMessage(message)], emitted, s.requests + [request]);
      if |message.toolCalls| > 0 {
        DispatchAllAppends(config, backend, message.toolCalls, next);
        RepliesAnswer(config, backend, message.toolCalls);
        var block := Replies(config, backend, message.toolCalls);
        ExtendConsistent(config, seed, s, message, block, After(r).emitted);
      } else {
        ExtendConsistent(config, seed, s, message, [], emitted);
        assert next.history == s.history + [AssistantMessage(message)] + [];
      }
    } else {
      SendConsistent(config, seed, s, After(r).emitted);
    }
  }

  /** The loop keeps `Consistent`. */
  lemma {:induction false} TurnsConsistent(config: Config, backend: Backend, maxTurns: int, turn: nat,
                                           seed: seq<Message>, s: Progress)
    requires |s.requests| == turn
    requires Consistent(config, seed, s) && AtTurnStart(s)
    ensures Consistent(config, seed, Turns(config, backend, maxTurns, turn, s).state)
    decreases maxTurns - turn
  {
    if turn < maxTurns {
      StepConsistent(config, backend, maxTurns, turn, seed, s);
      StepAppends(config, backend, maxTurns, turn, s);
      var r := TurnStep(config, backend, maxTurns, turn, s);
      if r.Next? {
        TurnsConsistent(config, backend, maxTurns, turn + 1, seed, r.state);
      }
    }
  }

  /** How the loop ends, read off the replies: every reply but the last lets
      it continue; it crashes exactly on a transport fault or a reply without
      a message; it answers with the content of the first final reply; and it
      runs out of turns, having sent every request it may, only when no reply
      was final. */
  lemma {:induction false} TurnsStop(config: Config, backend: Backend, maxTurns: int, turn: nat, s: Progress)
    requires |s.requests| == turn <= Max0(maxTurns)
    ensures var e := Turns(config, backend, maxTurns, turn, s);
            var rs := e.state.requests;
            var n := |rs|;
            && (forall k :: turn <= k < n - 1 ==> Continues(ReplyTo(backend, rs, k)))
            && (e.stop.Crashed? ==>
                  n > turn
                  && (|| (ReplyTo(backend, rs, n - 1).Fault?
                          && e.stop == Crashed(ReplyTo(backend, rs, n - 1).error, ReplyTo(backend, rs, n - 1).stage))
                      || (ReplyTo(backend, rs, n - 1) == Received(None) && e.stop == Crashed(NoMessage, None))))
            && (e.stop.Finished? && e.stop.answer != "" ==>
                  n > turn && IsFinal(ReplyTo(backend, rs, n - 1))
                  && e.stop.answer == ReplyTo(backend, rs, n - 1).message.value.content.value)
            && (e.stop == Finished("") ==>
                  n == Max0(maxTurns) && (n > turn ==> Continues(ReplyTo(backend, rs, n - 1))))
    decreases maxTurns - turn
  {
    if turn < maxTurns {
      StepAppends(config, backend, maxTurns, turn, s);
      StepReply(config, backend, maxTurns, turn, s);
      var r := TurnStep(config, backend, maxTurns, turn, s);
      var request := RequestFor(config, s.history);
      assert After(r).requests[turn] == request;
      if r.Next? {
        TurnsStop(config, backend, maxTurns, turn + 1, r.state);
        TurnsAppendOnly(config, backend, maxTurns, turn + 1, r.state);
        var rs := Turns(config, backend, maxTurns, turn + 1, r.state).state.requests;
        assert rs[turn] == request;
      }
    }
  }

  // ---------------------------------------------------------------------
  // Properties of `run`

  /** After the seed the history holds only assistant and tool messages. */
  lemma {:induction false} PairedHasNoPrompts(h: seq<Message>)
    requires Paired(h)
    ensures forall i :: 0 <= i < |h| ==> h[i].AssistantMessage? || h[i].ToolMessage?
    decreases |h|
  {
    if h != [] {
      var ids := FunctionCallIds(h[0].reply.toolCalls);
      PairedHasNoPrompts(h[1 + |ids|..]);
      forall i | 0 <= i < |h|
        ensures h[i].AssistantMessage? || h[i].ToolMessage?
      {
        if 1 <= i < 1 + |ids| {
          assert h[i] == h[1..1 + |ids|][i - 1];
        } else if i >= 1 + |ids| {
          assert h[i] == h[1 + |ids|..][i - 1 - |ids|];
        }
      }
    }
  }

  /** Without a client `run` throws at once: no request, no event, no history. */
  lemma RunWithoutClient(config: Config, backend: Backend, input: string, maxTurns: int)
    ensures var t := RunSpec(config, None, backend, input, maxTurns);
            t.outcome == Thrown(NotConfigured) && t.requests == [] && t.emitted == [] && t.history == []
  {
  }

  /** The history of a run: the optional system prompt and the single user
      message, then only assistant messages each followed by the tool
      messages answering its function calls, in order. Every request carried
      a prefix of that history built by `RequestFor`, the first one exactly
      the seed, each later one a strictly longer extension of the one before. */
  lemma RunHistory(config: Config, client: Option<string>, backend: Backend, input: string, maxTurns: int)
    requires client.Some?
    ensures var t := RunSpec(config, client, backend, input, maxTurns);
            var seed := Seed(config, input);
            && IsPrefix(seed, t.history) && Paired(t.history[|seed|..])
            && (forall i :: |seed| <= i < |t.history| ==> t.history[i].AssistantMessage? || t.history[i].ToolMessage?)
            && (forall k :: 0 <= k < |t.requests| ==>
                  IsPrefix(t.requests[k].messages, t.history) && t.requests[k] == RequestFor(config, t.requests[k].messages))
            && (forall k, j :: 0 <= k < j < |t.requests| ==>
                  IsPrefix(t.requests[k].messages, t.requests[j].messages)
                  && |t.requests[k].messages| < |t.requests[j].messages|)
            && (|t.requests| > 0 ==> t.requests[0].messages == seed)
  {
    var seed := Seed(config, input);
    var s0 := Progress(seed, [AgentStart(input)], []);
    assert seed[|seed|..] == [];
    assert Consistent(config, seed, s0);
    TurnsConsistent(config, backend, maxTurns, 0, seed, s0);
    TurnsAppendOnly(config, backend, maxTurns, 0, s0);
    ConsistentHistory(config, seed, Turns(config, backend, maxTurns, 0, s0).state);
  }

  /** What `Consistent` says about the history and the requests read
      separately: only assistant and tool messages after the seed, and each
      request's history a strict prefix of the next one's. */
  lemma ConsistentHistory(config: Config, seed: seq<Message>, s: Progress)
    requires Consistent(config, seed, s)
    ensures forall i :: |seed| <= i < |s.history| ==> s.history[i].AssistantMessage? || s.history[i].ToolMessage?
    ensures forall k, j :: 0 <= k < j < |s.requests| ==>
              IsPrefix(s.requests[k].messages, s.requests[j].messages)
              && |s.requests[k].messages| < |s.requests[j].messages|
  {
    var h := s.history;
    PairedHasNoPrompts(h[|seed|..]);
    forall i | |seed| <= i < |h|
      ensures h[i].AssistantMessage? || h[i].ToolMessage?
    {
      assert h[i] == h[|seed|..][i - |seed|];
    }
    forall k, j | 0 <= k < j < |s.requests|
      ensures IsPrefix(s.requests[k].messages, s.requests[j].messages)
    {
      assert h[..|s.requests[j].messages|][..|s.requests[k].messages|] == h[..|s.requests[k].messages|];
    }
  }

  /** How `run` settles, read off the replies. It sends at most `maxTurns`
      requests; every reply but the last lets the loop continue; the first
      reply without tool calls and with non-empty content is the answer; a
      transport fault or a missing message makes it throw with the stage;
      and when no reply was final it has used every turn and answers with
      the fallback. It never resolves with an empty answer. */
  lemma RunOutcome(config: Config, client: Option<string>, backend: Backend, input: string, maxTurns: int)
    requires client.Some?
    ensures var t := RunSpec(config, client, backend, input, maxTurns);
            var rs := t.requests;
            var n := |rs|;
            && n <= Max0(maxTurns)
            && (forall k :: 0 <= k < n - 1 ==> Continues(ReplyTo(backend, rs, k)))
            && (n > 0 && IsFinal(ReplyTo(backend, rs, n - 1)) ==>
                  t.outcome == Answer(ReplyTo(backend, rs, n - 1).message.value.content.value))
            && (n > 0 && ReplyTo(backend, rs, n - 1).Fault? ==>
                  var r := ReplyTo(backend, rs, n - 1);
                  t.outcome == Thrown("Agent run failed on stage '" + StageOf(r.stage) + "': " + r.error))
            && (n > 0 && ReplyTo(backend, rs, n - 1) == Received(None) ==>
                  t.outcome == Thrown("Agent run failed on stage '" + DefaultStage + "': " + NoMessage))
            && (n == 0 || Continues(ReplyTo(backend, rs, n - 1)) ==>
                  n == Max0(maxTurns) && t.outcome == Answer(Fallback(t.history)))
            && (t.outcome.Answer? ==> t.outcome.text != "")
  {
    var s0 := Progress(Seed(config, input), [AgentStart(input)], []);
    TurnsStop(config, backend, maxTurns, 0, s0);
    TurnsAppendOnly(config, backend, maxTurns, 0, s0);
  }

  /** The events of a run open with the start event and close with the end
      event carrying the answer or the error event carrying the stage. */
  lemma RunEvents(config: Config, client: Option<string>, backend: Backend, input: string, maxTurns: int)
    requires client.Some?
    ensures var t := RunSpec(config, client, backend, input, maxTurns);
            && |t.emitted| >= 2 && t.emitted[0] == AgentStart(input)
            && (t.outcome.Answer? ==> t.emitted[|t.emitted| - 1] == AgentEnd(t.outcome.text))
            && (t.outcome.Thrown? ==> t.emitted[|t.emitted| - 1].AgentError?)
            && (|t.requests| > 0 && ReplyTo(backend, t.requests, |t.requests| - 1).Fault? ==>
                  var r := ReplyTo(backend, t.requests, |t.requests| - 1);
                  t.emitted[|t.emitted| - 1] == AgentError(r.error, StageOf(r.stage)))
            && (|t.requests| > 0 && ReplyTo(backend, t.requests, |t.requests| - 1) == Received(None) ==>
                  t.emitted[|t.emitted| - 1] == AgentError(NoMessage, DefaultStage))
  {
    var s0 := Progress(Seed(config, input), [AgentStart(input)], []);
    TurnsAppendOnly(config, backend, maxTurns, 0, s0);
    ErrorEventOf(config, backend, input, maxTurns);
  }

  /** The error event that closes a run which threw, stated by the last reply. */
  lemma ErrorEventOf(config: Config, backend: Backend, input: string, maxTurns: int)
    ensures var end := Turns(config, backend, maxTurns, 0, Progress(Seed(config, input), [AgentStart(input)], []));
            var rs := end.state.requests;
            var t := RunSpec(config, Some(""), backend, input, maxTurns);
            && t.requests == rs
            && (|rs| > 0 && ReplyTo(backend, rs, |rs| - 1).Fault? ==>
                  var r := ReplyTo(backend, rs, |rs| - 1);
                  t.emitted == end.state.emitted + [AgentError(r.error, StageOf(r.stage))])
            && (|rs| > 0 && ReplyTo(backend, rs, |rs| - 1) == Received(None) ==>
                  t.emitted == end.state.emitted + [AgentError(NoMessage, DefaultStage)])
  {
    var s0 := Progress(Seed(config, input), [AgentStart(input)], []);
    TurnsStop(config, backend, maxTurns, 0, s0);
  }

  // ---------------------------------------------------------------------
  // Observers

  /** The observer invocations, read front to back: one per event whose hook
      has an observer, in emission order, carrying that event. */
  function Notified(callbacks: Callbacks, events: seq<Event>): seq<Delivery<Event>> {
    if events == [] then []
    else
      var e := events[0];
      (if HookOf(e) in callbacks then [Delivery(e, callbacks[HookOf(e)].throws(e))] else [])
      + Notified(callbacks, events[1..])
  }

  lemma {:induction false} NotifiedSnoc(callbacks: Callbacks, events: seq<Event>, e: Event)
    ensures Notified(callbacks, events + [e])
         == Notified(callbacks, events)
            + (if HookOf(e) in callbacks then [Delivery(e, callbacks[HookOf(e)].throws(e))] else [])
    decreases |events|
  {
    var last := if HookOf(e) in callbacks then [Delivery(e, callbacks[HookOf(e)].throws(e))] else [];
    if events == [] {
      assert [e][1..] == [];
      assert Notified(callbacks, [e]) == last + Notified(callbacks, []);
    } else {
      var x := events[0];
      var first := if HookOf(x) in callbacks then [Delivery(x, callbacks[HookOf(x)].throws(x))] else [];
      assert (events + [e])[0] == x && (events + [e])[1..] == events[1..] + [e];
      NotifiedSnoc(callbacks, events[1..], e);
      calc {
        Notified(callbacks, events + [e]);
        first + Notified(callbacks, events[1..] + [e]);
        first + (Notified(callbacks, events[1..]) + last);
        (first + Notified(callbacks, events[1..])) + last;
        Notified(callbacks, events) + last;
      }
    }
  }

  /** Emitting events one by one through `triggerCallback` invokes every
      registered observer once per event of its hook, in emission order, and
      nothing else, whether or not earlier observers threw. */
  lemma {:induction false} DeliverInOrder(callbacks: Callbacks, events: seq<Event>)
    ensures Deliver(callbacks, events) == Notified(callbacks, events)
    decreases |events|
  {
    if events != [] {
      var init := events[..|events| - 1];
      var last := events[|events| - 1];
      DeliverInOrder(callbacks, init);
      NotifiedSnoc(callbacks, init, last);
      assert init + [last] == events;
    }
  }

  lemma {:induction false} DispatchAllIgnoresCallbacks(config: Config, c: Option<Callbacks>, backend: Backend,
                                                      calls: seq<ToolCall>, s: Progress)
    ensures DispatchAll(config.(callbacks := c), backend, calls, s) == DispatchAll(config, backend, calls, s)
    decreases |calls|
  {
    if calls != [] {
      var config' := config.(callbacks := c);
      assert DispatchCall(config', backend, calls[0], s) == DispatchCall(config, backend, calls[0], s);
      DispatchAllIgnoresCallbacks(config, c, backend, calls[1..], DispatchCall(config, backend, calls[0], s));
    }
  }

  lemma {:induction false} TurnsIgnoreCallbacks(config: Config, c: Option<Callbacks>, backend: Backend,
                                                maxTurns: int, turn: nat, s: Progress)
    ensures Turns(config.(callbacks := c), backend, maxTurns, turn, s) == Turns(config, backend, maxTurns, turn, s)
    decreases maxTurns - turn
  {
    if turn < maxTurns {
      var config' := config.(callbacks := c);
      assert RequestFor(config', s.history) == RequestFor(config, s.history);
      var reply := backend.complete(turn, RequestFor(config, s.history));
      if reply.Received? && reply.message.Some? {
        var request := RequestFor(config, s.history);
        var message := reply.message.value;
        var next := Progress(s.history + [AssistantMessage(message)],
                             s.emitted + [LLMStart(s.history, request.model, request.params)] + [LLMEnd(reply)],
                             s.requests + [request]);
        if |message.toolCalls| > 0 {
          DispatchAllIgnoresCallbacks(config, c, backend, message.toolCalls, next);
          TurnsIgnoreCallbacks(config, c, backend, maxTurns, turn + 1, DispatchAll(config, backend, message.toolCalls, next));
        } else {
          TurnsIgnoreCallbacks(config, c, backend, maxTurns, turn + 1, next);
        }
      }
    }
  }

  /** Observers only watch: which observers are registered, and whether they
      throw, changes neither the outcome nor the history, the events or the
      requests of a run. */
  lemma RunIgnoresObservers(config: Config, c: Option<Callbacks>, client: Option<string>, backend: Backend,
                            input: string, maxTurns: int)
    ensures RunSpec(config.(callbacks := c), client, backend, input, maxTurns) == RunSpec(config, client, backend, input, maxTurns)
  {
    var config' := config.(callbacks := c);
    assert Seed(config', input) == Seed(config, input);
    TurnsIgnoreCallbacks(config, c, backend, maxTurns, 0, Progress(Seed(config, input), [AgentStart(input)], []));
  }

  /** Emitting one more event adds exactly its own delivery. */
  lemma DeliverSnoc(callbacks: Callbacks, events: seq<Event>, e: Event)
    ensures Deliver(callbacks, events + [e]) == TriggerCallback(ObserverFor(callbacks, e), e, Deliver(callbacks, events))
  {
    assert (events + [e])[..|events|] == events;
  }
}
