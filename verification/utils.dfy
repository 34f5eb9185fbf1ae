/** src/utils.ts: the guarded observer call and the tool lookup. */
module Utils {
  import opened Wrappers
  import opened Types

  /** One observer invocation as the observer saw it: the payload it was
      given and whether it threw (the exception is logged and swallowed). */
  datatype Delivery<T> = Delivery(data: T, threw: bool)

  /** `triggerCallback(callback, data)`: no-op without an observer; otherwise
      the observer is invoked exactly once with `data`, and whether or not it
      throws, the caller carries on with nothing but this one invocation added
      to the log. */
  function TriggerCallback<T>(callback: Option<Observer<T>>, data: T, log: seq<Delivery<T>>): (r: seq<Delivery<T>>)
    ensures callback.None? ==> r == log
    ensures callback.Some? ==> |r| == |log| + 1 && r[..|log|] == log
    ensures callback.Some? ==> r[|log|] == Delivery(data, callback.value.throws(data))
  {
    match callback
    case None => log
    case Some(observer) => log + [Delivery(data, observer.throws(data))]
  }

  /** Position of the first tool whose name is exactly `name`, or `|tools|`. */
  function FirstNamed(name: string, tools: seq<Tool>): (k: nat)
    ensures k <= |tools|
    ensures forall j :: 0 <= j < k ==> tools[j].name != name
    ensures k < |tools| ==> tools[k].name == name
  {
    if tools == [] then 0
    else if tools[0].name == name then 0
    else 1 + FirstNamed(name, tools[1..])
  }

  /** `findTool(name, tools)`: `tools?.find(tool => tool.name === name)`. */
  function FindTool(name: string, tools: Option<seq<Tool>>): (r: Option<Tool>)
    ensures r.Some? ==> tools.Some? && r.value.name == name
    ensures r.Some? ==> exists k :: 0 <= k < |tools.value| && tools.value[k] == r.value
                                    && forall j :: 0 <= j < k ==> tools.value[j].name != name
    ensures r.None? <==> tools.None? || forall k :: 0 <= k < |tools.value| ==> tools.value[k].name != name
  {
    if tools.None? then None
    else
      var k := FirstNamed(name, tools.value);
      if k < |tools.value| then Some(tools.value[k]) else None
  }
}
