/** The process-wide configuration of src/agent.ts (lines 17-42): the default
    record, the shallow merge `{ ...agentConfig, ...config }` and the rule that
    decides whether an OpenAI client handle exists. */
module Configuration {
  import opened Wrappers
  import opened JsonValue
  import opened Types

  /** One key of a partial configuration. `Keep` is a key the object literal
      does not have; `Put(v)` is a key it has, where `Put(None)` is a key
      explicitly set to `undefined`, which the spread copies like any other. */
  datatype Patch<T> = Keep | Put(value: Option<T>)

  function Apply<T>(p: Patch<T>, current: Option<T>): Option<T> {
    match p
    case Keep => current
    case Put(v) => v
  }

  /** The partial configuration given to `configureAgent`. */
  datatype ConfigPatch = ConfigPatch(
    apiKey: Patch<string>,
    modelEndpoint: Patch<string>,
    defaultModel: Patch<string>,
    defaultParameters: Patch<map<string, Json>>,
    tools: Patch<seq<Tool>>,
    callbacks: Patch<Callbacks>,
    systemPrompt: Patch<string>)

  /** `configureAgent({})`. */
  const NoChange := ConfigPatch(Keep, Keep, Keep, Keep, Keep, Keep, Keep)

  /** The record the module starts with. */
  const InitialConfig := Config(
    None, None, Some("gpt-4o"), Some(map["temperature" := Num(0.7)]), Some([]), Some(map[]), None)

  /** `{ ...c, ...p }`: every key present in `p` overwrites, every absent key
      keeps its value. */
  function Merge(c: Config, p: ConfigPatch): (r: Config)
    ensures p.apiKey.Keep? ==> r.apiKey == c.apiKey
    ensures p.apiKey.Put? ==> r.apiKey == p.apiKey.value
    ensures p.modelEndpoint.Keep? ==> r.modelEndpoint == c.modelEndpoint
    ensures p.modelEndpoint.Put? ==> r.modelEndpoint == p.modelEndpoint.value
    ensures p.defaultModel.Keep? ==> r.defaultModel == c.defaultModel
    ensures p.defaultModel.Put? ==> r.defaultModel == p.defaultModel.value
    ensures p.defaultParameters.Keep? ==> r.defaultParameters == c.defaultParameters
    ensures p.defaultParameters.Put? ==> r.defaultParameters == p.defaultParameters.value
    ensures p.tools.Keep? ==> r.tools == c.tools
    ensures p.tools.Put? ==> r.tools == p.tools.value
    ensures p.callbacks.Keep? ==> r.callbacks == c.callbacks
    ensures p.callbacks.Put? ==> r.callbacks == p.callbacks.value
    ensures p.systemPrompt.Keep? ==> r.systemPrompt == c.systemPrompt
    ensures p.systemPrompt.Put? ==> r.systemPrompt == p.systemPrompt.value
  {
    Config(
      Apply(p.apiKey, c.apiKey),
      Apply(p.modelEndpoint, c.modelEndpoint),
      Apply(p.defaultModel, c.defaultModel),
      Apply(p.defaultParameters, c.defaultParameters),
      Apply(p.tools, c.tools),
      Apply(p.callbacks, c.callbacks),
      Apply(p.systemPrompt, c.systemPrompt))
  }

  function Then<T>(first: Patch<T>, second: Patch<T>): Patch<T> {
    if second.Put? then second else first
  }

  /** The single partial configuration equivalent to applying `p` then `q`. */
  function ThenPatch(p: ConfigPatch, q: ConfigPatch): ConfigPatch {
    ConfigPatch(
      Then(p.apiKey, q.apiKey),
      Then(p.modelEndpoint, q.modelEndpoint),
      Then(p.defaultModel, q.defaultModel),
      Then(p.defaultParameters, q.defaultParameters),
      Then(p.tools, q.tools),
      Then(p.callbacks, q.callbacks),
      Then(p.systemPrompt, q.systemPrompt))
  }

  /** The client handle `configureAgent` leaves behind: one built with the
      merged API key when that key is truthy (a non-empty string), none
      otherwise. */
  function ClientFor(c: Config): (r: Option<string>)
    ensures r.Some? <==> c.apiKey.Some? && c.apiKey.value != ""
    ensures r.Some? ==> r.value == c.apiKey.value
  {
    if c.apiKey.Some? && c.apiKey.value != "" then Some(c.apiKey.value) else None
  }

  /** Configuring twice is configuring once with the later keys winning. */
  lemma MergeTwice(c: Config, p: ConfigPatch, q: ConfigPatch)
    ensures Merge(Merge(c, p), q) == Merge(c, ThenPatch(p, q))
  {
  }

  /** Re-applying the same partial configuration changes nothing. */
  lemma MergeIdempotent(c: Config, p: ConfigPatch)
    ensures Merge(Merge(c, p), p) == Merge(c, p)
  {
  }

  /** An empty partial configuration changes nothing: in particular it keeps
      a previously configured API key. */
  lemma MergeNoChange(c: Config)
    ensures Merge(c, NoChange) == c
  {
  }
}
