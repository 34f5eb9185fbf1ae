/** src/agent.ts: the module-level configuration and client handle, and the
    agent operations that use them. */
module Agent {
  import opened Wrappers
  import opened JsonValue
  import opened Types
  import opened Utils
  import opened Configuration
  import opened Conversation
  import opened Suggestions

  /** The agent module's state: the merged configuration (`agentConfig`)
      and the OpenAI client handle (`openaiClient`), represented by the API
      key it was built with. */
  class Agent {
    var config: Config
    var client: Option<string>

    /** The state at module load: the default configuration, no client. */
    constructor()
      ensures config == InitialConfig && client == None
    {
      config := InitialConfig;
      client := None;
    }

    /** `configureAgent(patch)`: merge shallowly, then build a client from the
        merged API key when it is non-empty and drop any client otherwise. */
    method Configure(patch: ConfigPatch)
      modifies this
      ensures config == Merge(old(config), patch)
      ensures client == ClientFor(config)
      ensures client.Some? <==> config.apiKey.Some? && config.apiKey.value != ""
    {
      config := Merge(config, patch);
      if config.apiKey.Some? && config.apiKey.value != "" {
        client := Some(config.apiKey.value);
      } else {
        client := None;
      }
    }

    /** `run(input, maxTurns)`: the conversation loop. It returns how the call
        settled, the history it built, the events it emitted with the observer
        invocations they caused, and the requests it sent. */
    method Run(backend: Backend, input: string, maxTurns: int := DefaultMaxTurns)
      returns (outcome: Outcome, history: seq<Message>, events: seq<Event>,
               notified: seq<Delivery<Event>>, requests: seq<Request>)
      ensures var t := RunSpec(config, client, backend, input, maxTurns);
              outcome == t.outcome && history == t.history && events == t.emitted && requests == t.requests
      ensures notified == Deliver(config.callbacks.GetOr(map[]), events)
    {
      if client.None? {
        outcome, history, events, notified, requests := Thrown(NotConfigured), [], [], [], [];
        return;
      }
      var callbacks := config.callbacks.GetOr(map[]);
      var finalAnswer := "";
      history, events, notified, requests := [], [], [], [];

      events, notified := Emit(callbacks, events, notified, AgentStart(input));
      if IsText(config.systemPrompt) {
        history := history + [SystemMessage(config.systemPrompt.value)];
      }
      history := history + [UserMessage(input)];
      assert history == Seed(config, input) && events == [AgentStart(input)];
      ghost var whole := Turns(config, backend, maxTurns, 0, Progress(history, events, requests));

      var stop: Option<Stop> := None;
      var turn := 0;
      while turn < maxTurns
        invariant stop.None?
        invariant Turns(config, backend, maxTurns, turn, Progress(history, events, requests)) == whole
        invariant notified == Deliver(callbacks, events)
        decreases maxTurns - turn
      {
        history, events, notified, requests, stop := Turn(backend, callbacks, maxTurns, turn, history, events, notified, requests);
        if stop.Some? {
          break;
        }
        turn := turn + 1;
      }
      var end := if stop.Some? then stop.value else Finished("");
      assert whole == LoopEnd(end, Progress(history, events, requests));

      match end
      case Crashed(error, stage) =>
        var tag := StageOf(stage);
        events, notified := Emit(callbacks, events, notified, AgentError(error, tag));
        outcome := Thrown("Agent run failed on stage '" + tag + "': " + error);
      case Finished(finalAnswer) =>
        if finalAnswer == "" {
          finalAnswer := NoAnswer;
          var last := LastTextual(history);
          if last >= 0 && history[last].reply.content.value != "" {
            finalAnswer := history[last].reply.content.value;
          }
        }
        events, notified := Emit(callbacks, events, notified, AgentEnd(finalAnswer));
        outcome := Answer(finalAnswer);
    }

    /** One iteration of the turn loop; `stop` is `None` when the loop goes
        on, and otherwise says how it ended (`break` or an exception). */
    method Turn(backend: Backend, callbacks: Callbacks, maxTurns: int, turn: nat,
                history: seq<Message>, events: seq<Event>, notified: seq<Delivery<Event>>, requests: seq<Request>)
      returns (history': seq<Message>, events': seq<Event>, notified': seq<Delivery<Event>>,
               requests': seq<Request>, stop: Option<Stop>)
      requires notified == Deliver(callbacks, events)
      ensures var r := TurnStep(config, backend, maxTurns, turn, Progress(history, events, requests));
              && Progress(history', events', requests') == After(r)
              && (r.Next? <==> stop.None?)
              && (r.Done? ==> stop == Some(r.end.stop))
      ensures notified' == Deliver(callbacks, events')
    {
      history', events', notified', requests' := history, events, notified, requests;
      var model := config.defaultModel.GetOr(DefaultModel);
      var params := config.defaultParameters.GetOr(map[]);
      var tools := ToolSchemas(config.tools);
      events', notified' := Emit(callbacks, events', notified', LLMStart(history', model, params));
      var request := Request(model, history', tools, params);
      requests' := requests' + [request];
      var reply := backend.complete(turn, request);
      if reply.Fault? {
        return history', events', notified', requests', Some(Crashed(reply.error, reply.stage));
      }
      events', notified' := Emit(callbacks, events', notified', LLMEnd(reply));
      if reply.message.None? {
        return history', events', notified', requests', Some(Crashed(NoMessage, None));
      }
      var message := reply.message.value;
      history' := history' + [AssistantMessage(message)];
      stop := None;
      if |message.toolCalls| > 0 {
        history', events', notified' := DispatchToolCalls(backend, callbacks, message.toolCalls, history', events', notified', requests');
      } else if IsText(message.content) {
        stop := Some(Finished(message.content.value));
      } else if turn == maxTurns - 1 {
        stop := Some(Finished(""));
      }
    }

    /** The inner `for (const toolCall of message.tool_calls)` loop. */
    method DispatchToolCalls(backend: Backend, callbacks: Callbacks, calls: seq<ToolCall>,
                             history: seq<Message>, events: seq<Event>, notified: seq<Delivery<Event>>,
                             ghost requests: seq<Request>)
      returns (history': seq<Message>, events': seq<Event>, notified': seq<Delivery<Event>>)
      requires notified == Deliver(callbacks, events)
      ensures Progress(history', events', requests) == DispatchAll(config, backend, calls, Progress(history, events, requests))
      ensures notified' == Deliver(callbacks, events')
    {
      history', events', notified' := history, events, notified;
      var i := 0;
      while i < |calls|
        invariant 0 <= i <= |calls|
        invariant DispatchAll(config, backend, calls[i..], Progress(history', events', requests))
               == DispatchAll(config, backend, calls, Progress(history, events, requests))
        invariant notified' == Deliver(callbacks, events')
      {
        assert calls[i..][1..] == calls[i + 1..];
        history', events', notified' := DispatchToolCall(backend, callbacks, calls[i], history', events', notified');
        i := i + 1;
      }
      assert calls[|calls|..] == [];
    }

    /** One iteration of the inner loop: a call that is not of type
        "function" is skipped; otherwise its arguments are parsed, its tool
        looked up and run, and exactly one tool message answers it. */
    method DispatchToolCall(backend: Backend, callbacks: Callbacks, call: ToolCall,
                            history: seq<Message>, events: seq<Event>, notified: seq<Delivery<Event>>)
      returns (history': seq<Message>, events': seq<Event>, notified': seq<Delivery<Event>>)
      requires notified == Deliver(callbacks, events)
      ensures call.callType != "function" ==> history' == history && events' == events
      ensures call.callType == "function" ==>
                var d := DispatchOne(config, backend, call);
                history' == history + [d.reply] && events' == events + d.events
      ensures notified' == Deliver(callbacks, events')
    {
      history', events', notified' := history, events, notified;
      if call.callType != "function" {
        return;
      }
      var parsed := backend.parseJson(if call.arguments == "" then "{}" else call.arguments);
      if parsed.Failure? {
        var errorMsg := "Failed to parse arguments for tool " + call.name + ": " + parsed.error;
        events', notified' := Emit(callbacks, events', notified', AgentError(errorMsg, "tool_args_parse"));
        history' := history' + [ToolMessage(call.id, "Error: " + errorMsg)];
        assert ArgumentsOf(backend, call) == parsed;
        assert DispatchOne(config, backend, call).events == [AgentError(errorMsg, "tool_args_parse")];
        return;
      }
      var tool := FindTool(call.name, config.tools);
      if tool.None? {
        var errorMsg := "LLM tried to call unknown tool: " + call.name;
        events', notified' := Emit(callbacks, events', notified', AgentError(errorMsg, "tool_find"));
        history' := history' + [ToolMessage(call.id, "Error: " + errorMsg)];
        assert ArgumentsOf(backend, call) == parsed;
        assert DispatchOne(config, backend, call).events == [AgentError(errorMsg, "tool_find")];
        return;
      }
      assert ArgumentsOf(backend, call) == parsed;
      history', events', notified' := InvokeTool(backend, callbacks, call, tool.value, parsed.value, history', events', notified');
    }

    /** Running a found tool: its output becomes the tool message, and an
        exception it throws becomes an error message and an error event. */
    method InvokeTool(backend: Backend, callbacks: Callbacks, call: ToolCall, tool: Tool, args: Json,
                      history: seq<Message>, events: seq<Event>, notified: seq<Delivery<Event>>)
      returns (history': seq<Message>, events': seq<Event>, notified': seq<Delivery<Event>>)
      requires notified == Deliver(callbacks, events)
      ensures var d := Invoke(backend, call, tool, args);
              history' == history + [d.reply] && events' == events + d.events
      ensures notified' == Deliver(callbacks, events')
    {
      events', notified' := Emit(callbacks, events, notified, ToolStart(tool.name, args));
      var output := backend.execute(tool, args);
      if output.Success? {
        events', notified' := Emit(callbacks, events', notified', ToolEnd(tool.name, output.value));
        events', notified' := Emit(callbacks, events', notified', Observation(output.value));
        history' := history + [ToolMessage(call.id, output.value)];
        assert events' == events + [ToolStart(tool.name, args), ToolEnd(tool.name, output.value), Observation(output.value)];
      } else {
        var errorMsg := "Error executing tool " + tool.name + ": " + output.error;
        events', notified' := Emit(callbacks, events', notified', AgentError(output.error, "tool_execute"));
        history' := history + [ToolMessage(call.id, "Error: " + errorMsg)];
        assert events' == events + [ToolStart(tool.name, args), AgentError(output.error, "tool_execute")];
      }
    }

    /** `getWritingSuggestions(text, options)`: one model call, whose reply
        content is parsed and normalised. A failed call is reported and
        rethrown; content that cannot be parsed is reported and gives no
        suggestions. `complete` answers the request (the system prompt is
        built from its types and budget); `parseJson` is `JSON.parse`. */
    method GetWritingSuggestions(complete: SuggestionRequest -> Reply, parseJson: string -> Result<Json, string>,
                                 showNumber: real -> string, text: string, options: SuggestionOptions)
      returns (result: Result<seq<WritingSuggestion>, string>, events: seq<Event>,
               notified: seq<Delivery<Event>>, request: Option<SuggestionRequest>)
      ensures client.None? ==> result == Failure(NotConfigured) && events == [] && request == None
      ensures client.Some? ==>
                var q := SuggestionRequestFor(config.defaultModel, text, options);
                && request == Some(q)
                && |events| >= 2 && events[0] == AgentStart(StartInput(q.types))
                && (complete(q).Fault? ==>
                      && result == Failure(GenerationFailure + complete(q).error)
                      && events == [AgentStart(StartInput(q.types)), AgentError(complete(q).error, SuggestionsStage)])
                && (complete(q).Received? ==>
                      var p := FromContent(ReplyText(complete(q).message), parseJson, showNumber);
                      && result == Success(p.suggestions)
                      && events == [AgentStart(StartInput(q.types))]
                                    + (if p.error.Some? then [AgentError(p.error.value, ParseStage)] else [])
                                    + [AgentEnd(EndAnswer(|p.suggestions|))])
      ensures notified == Deliver(config.callbacks.GetOr(map[]), events)
    {
      if client.None? {
        result, events, notified, request := Failure(NotConfigured), [], [], None;
        return;
      }
      var q := SuggestionRequestFor(config.defaultModel, text, options);
      var callbacks := config.callbacks.GetOr(map[]);
      events, notified := [], [];
      events, notified := Emit(callbacks, events, notified, AgentStart(StartInput(q.types)));
      request := Some(q);
      var reply := complete(q);
      if reply.Fault? {
        events, notified := Emit(callbacks, events, notified, AgentError(reply.error, SuggestionsStage));
        result := Failure(GenerationFailure + reply.error);
        return;
      }
      var parsed := FromContent(ReplyText(reply.message), parseJson, showNumber);
      if parsed.error.Some? {
        events, notified := Emit(callbacks, events, notified, AgentError(parsed.error.value, ParseStage));
      }
      events, notified := Emit(callbacks, events, notified, AgentEnd(EndAnswer(|parsed.suggestions|)));
      result := Success(parsed.suggestions);
    }
  }

  /** `triggerCallback(callbacks.<hook>, payload)` after the event is emitted:
      the event is appended and its observer, if any, is invoked once. */
  method Emit(callbacks: Callbacks, events: seq<Event>, notified: seq<Delivery<Event>>, e: Event)
    returns (events': seq<Event>, notified': seq<Delivery<Event>>)
    requires notified == Deliver(callbacks, events)
    ensures events' == events + [e]
    ensures notified' == Deliver(callbacks, events')
  {
    DeliverSnoc(callbacks, events, e);
    events' := events + [e];
    notified' := TriggerCallback(ObserverFor(callbacks, e), e, notified);
  }
}
