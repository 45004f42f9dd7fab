/**
 * What an Endpoint call looks like from outside: the request handed to
 * `$http`, the answer the transport gives back, the callbacks and alerts the
 * call triggers, and how the returned promise settles.
 */
module Http {
  import opened Wrappers
  import opened JsValue

  /** The transport's answer: a 2xx response or any other failure, with the raw body. */
  datatype Response = Delivered(body: Value) | Failed(body: Value)

  /** Observable effects of a call, in order. */
  datatype Event =
    | SuccessCalled(arg: Value)
    | ErrorCalled(arg: Value)
    | Alert(kind: string, message: Value)

  /** How the call ends: the promise resolves or rejects, or the call itself throws before returning one. */
  datatype Settlement = Resolved(value: Value) | Rejected(reason: Value) | Threw(exn: Value)

  /** The request sent (none when the call stops before `$http`), the settlement and the effects. */
  datatype CallResult = CallResult(request: Option<map<string, Value>>, settlement: Settlement, trace: seq<Event>)

  /** An object literal `{k: options.k, ...}` over the given keys. */
  function Pick(options: map<string, Value>, keys: set<string>): (r: map<string, Value>)
    ensures r.Keys == keys
    ensures forall k :: k in keys ==> r[k] == Lookup(options, k)
  {
    map k | k in keys :: Lookup(options, k)
  }

  /** Counts the callback events of a trace. */
  function Callbacks(trace: seq<Event>): nat
  {
    if trace == [] then 0
    else (if trace[0].Alert? then 0 else 1) + Callbacks(trace[1..])
  }
}
