/**
 * The `Endpoint` service: a call counter, a history of the configs it was
 * given and a verbose flag. `execute` numbers each call, records a copy of
 * the config, stamps object configs with `id` and `verbose` and hands them
 * to the call pipeline; `get`, `post` and `delete` force the method first.
 */
module EndpointService {
  import opened Wrappers
  import opened Strings
  import opened JsValue
  import opened Http
  import EndpointOptions
  import EndpointCall

  /** `config[key] = x` on a lodash object; functions take the write without it being observable. */
  function Stamp(config: Value, key: string, x: Value): (r: Value)
    requires IsLodashObject(config)
    ensures config.Obj? ==> r == Obj(config.props[key := x])
    ensures config.Obj? ==> Prop(r, key) == x
    ensures !config.Obj? ==> r.Arr? == config.Arr? && r.Func? == config.Func?
  {
    match config
    case Obj(p) => Obj(p[key := x])
    case _ => config
  }

  /** The config `execute` delegates: `verbose` becomes `config.verbose || verboseMode`, then `id` the call number. */
  function Tagged(config: Value, verboseMode: Value, id: nat): (r: Value)
    requires IsLodashObject(config)
    ensures config.Obj? ==> r.Obj? && r.props.Keys == config.props.Keys + {"verbose", "id"}
    ensures config.Obj? ==> Prop(r, "id") == Num(id)
    ensures config.Obj? ==> Prop(r, "verbose") == (if Truthy(Prop(config, "verbose")) then Prop(config, "verbose") else verboseMode)
    ensures config.Obj? ==> forall k :: k in config.props && k != "verbose" && k != "id" ==> r.props[k] == config.props[k]
    ensures !config.Obj? ==> r == config
  {
    Stamp(Stamp(config, "verbose", Or(Prop(config, "verbose"), verboseMode)), "id", Num(id))
  }

  /** `get`/`post`/`delete` write `method` on object configs only; any other value passes through untouched. */
  function WithMethod(config: Value, httpMethod: string): (r: Value)
    ensures IsLodashObject(config) <==> IsLodashObject(r)
    ensures config.Obj? ==> r.Obj? && r.props.Keys == config.props.Keys + {"method"}
    ensures config.Obj? ==> Prop(r, "method") == Str(httpMethod)
    ensures config.Obj? ==> forall k :: k in config.props && k != "method" ==> r.props[k] == config.props[k]
    ensures !config.Obj? ==> r == config
  {
    if IsLodashObject(config) then Stamp(config, "method", Str(httpMethod)) else config
  }

  /** The service's `history` array: slot 0 is never written, slot `n` holds the config of call `n`. */
  function HistoryArray(log: seq<Value>): (r: Value)
    ensures r.Arr?
    ensures log == [] ==> r.elems == []
    ensures log != [] ==> |r.elems| == |log| + 1 && r.elems[0] == Undefined
    ensures forall n :: 1 <= n <= |log| ==> Prop(r, NatToString(n)) == log[n - 1]
  {
    assert forall n: nat :: ParseIndex(NatToString(n)) == Some(n) by {
      forall n: nat ensures ParseIndex(NatToString(n)) == Some(n) { ParseIndexOfNat(n); }
    }
    if log == [] then Arr([]) else Arr([Undefined] + log)
  }

  /** What the service hands to the call pipeline, and everything the pipeline's call depends on. */
  datatype Backend = Backend(persistent: map<string, Value>, endpoints: map<string, Value>, envHost: string,
                             rt: Runtime, http: map<string, Value> -> Response)

  class Endpoint {
    var verboseMode: Value
    /** The number of calls so far; call `n` gets id `n`. */
    var counter: nat
    /** The recorded configs, call 1 first. */
    var log: seq<Value>

    ghost predicate Valid()
      reads this
    {
      |log| == counter
    }

    constructor ()
      ensures Valid() && verboseMode == Bool(false) && counter == 0 && log == []
    {
      verboseMode := Bool(false);
      counter := 0;
      log := [];
    }

    /**
     * `execute(config)`: every call, valid or not, takes the next number and
     * records the config as given; an object config is stamped and sent, any
     * other value yields `undefined` and no call.
     */
    method Execute(config: Value, backend: Backend) returns (sent: Value, r: Option<CallResult>)
      requires Valid()
      modifies this
      ensures Valid()
      ensures counter == old(counter) + 1
      ensures log == old(log) + [config]
      ensures verboseMode == old(verboseMode)
      ensures IsLodashObject(config) ==>
        sent == Tagged(config, verboseMode, counter)
        && r == Some(EndpointCall.Call(sent, backend.persistent, backend.endpoints, backend.envHost, backend.rt, backend.http))
      ensures !IsLodashObject(config) ==> sent == config && r == None
    {
      counter := counter + 1;
      log := log + [config];
      if IsLodashObject(config) {
        sent := Tagged(config, verboseMode, counter);
        r := Some(EndpointCall.Call(sent, backend.persistent, backend.endpoints, backend.envHost, backend.rt, backend.http));
      } else {
        sent := config;
        r := None;
      }
    }

    /** `get`, `post` and `delete`: force the method, then `execute`. */
    method Send(config: Value, httpMethod: string, backend: Backend) returns (sent: Value, r: Option<CallResult>)
      requires Valid()
      requires httpMethod in {"GET", "POST", "DELETE"}
      modifies this
      ensures Valid()
      ensures counter == old(counter) + 1
      ensures log == old(log) + [WithMethod(config, httpMethod)]
      ensures verboseMode == old(verboseMode)
      ensures IsLodashObject(config) ==>
        sent == Tagged(WithMethod(config, httpMethod), verboseMode, counter)
        && r == Some(EndpointCall.Call(sent, backend.persistent, backend.endpoints, backend.envHost, backend.rt, backend.http))
      ensures !IsLodashObject(config) ==> sent == config && r == None
    {
      sent, r := Execute(WithMethod(config, httpMethod), backend);
    }

    /** `verbose(b)`: later calls stamp `verbose` with `b` when the config has no truthy `verbose`. */
    method Verbose(b: Value)
      modifies this
      ensures verboseMode == b && counter == old(counter) && log == old(log)
    {
      verboseMode := b;
    }

    method GetHistory() returns (h: Value)
      ensures h == HistoryArray(log)
    {
      h := HistoryArray(log);
    }
  }
}
