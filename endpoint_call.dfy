/**
 * One HTTP call of the Endpoint service: build the options, refuse a
 * non-string URL, send the request, then run the response through
 * `checkResponse`, the error or `parse` and success callbacks, and settle
 * the promise. The transport is a parameter.
 */
module EndpointCall {
  import opened Wrappers
  import opened JsValue
  import opened Http
  import opened EndpointOptions

  const InvalidUrlReason: string := "There was an error."

  /** The options forwarded to `$http`. */
  const RequestKeys: set<string> := {"method", "headers", "url", "cache", "data", "params", "transformResponse"}

  /** `$http` applies a function `transformResponse` to the body; any other value leaves it as it is. */
  function Transform(settings: map<string, Value>, raw: Value, rt: Runtime): Try<Value>
  {
    var t := Lookup(settings, "transformResponse");
    if t.Func? then Invoke(t.fn, [raw], rt) else Ok(raw)
  }

  /**
   * Calls the callback `f(arg)` when `f` is a function, recording `ev`;
   * returns the recorded events and the exception the callback raised, if any.
   */
  function Notify(f: Value, arg: Value, ev: Event, rt: Runtime): (r: (seq<Event>, Option<Value>))
    ensures r.0 == (if f.Func? then [ev] else [])
    ensures !f.Func? || f.fn.User? ==> r.1 == None
  {
    if f.Func? then
      match Invoke(f.fn, [arg], rt)
      case Ok(_) => ([ev], None)
      case Err(e) => ([ev], Some(e))
    else ([], None)
  }

  /**
   * The rejection handler: `error` there names the logging function, so the
   * error callback receives `undefined` and the promise rejects with
   * `undefined` whatever the response was.
   */
  function OnFailed(settings: map<string, Value>, rt: Runtime): (r: (Settlement, seq<Event>))
    ensures r.1 == (if Lookup(settings, "error").Func? then [ErrorCalled(Undefined)] else [])
    ensures r.0.Rejected?
    ensures !Lookup(settings, "error").Func? || Lookup(settings, "error").fn.User? ==> r.0 == Rejected(Undefined)
  {
    var (events, thrown) := Notify(Lookup(settings, "error"), Undefined, ErrorCalled(Undefined), rt);
    (Rejected(if thrown.Some? then thrown.value else Undefined), events)
  }

  /**
   * The fulfilment handler on the transformed body: `checkResponse` when it
   * is a function replaces the envelope; a truthy `error` rejects with the
   * reason after the error callback; otherwise `parse` (if a function)
   * produces the value the success callback receives and the promise
   * resolves with. An exception anywhere in the handler rejects the promise.
   */
  function OnDelivered(settings: map<string, Value>, body: Value, rt: Runtime): (r: (Settlement, seq<Event>))
    ensures r.0.Rejected? || r.0.Resolved?
    ensures |r.1| <= 1
    ensures r.0.Resolved? ==> r.1 == (if Lookup(settings, "success").Func? then [SuccessCalled(r.0.value)] else [])
    ensures forall i :: 0 <= i < |r.1| && r.1[i].ErrorCalled? ==> r.0.Rejected?
  {
    var checkFn := Lookup(settings, "checkResponse");
    var checked := if checkFn.Func? then Invoke(checkFn.fn, [body, Obj(settings)], rt) else Ok(body);
    if checked.Err? then (Rejected(checked.exn), [])
    else
      var envelope := checked.value;
      if !NotNullish(envelope) then (Rejected(TypeError), [])
      else if Truthy(Prop(envelope, "error")) then
        var (events, thrown) := Notify(Lookup(settings, "error"), envelope, ErrorCalled(envelope), rt);
        (Rejected(if thrown.Some? then thrown.value else Prop(envelope, "reason")), events)
      else
        var parseFn := Lookup(settings, "parse");
        var returned := if parseFn.Func? then Invoke(parseFn.fn, [Prop(envelope, "data")], rt) else Ok(Prop(envelope, "data"));
        if returned.Err? then (Rejected(returned.exn), [])
        else
          var (events, thrown) := Notify(Lookup(settings, "success"), returned.value, SuccessCalled(returned.value), rt);
          (if thrown.Some? then Rejected(thrown.value) else Resolved(returned.value), events)
  }

  /**
   * `EndpointCall(config)`: options that cannot be built make the call throw;
   * a URL that is not a string rejects without a request; otherwise the
   * request goes out and the answer settles the promise.
   */
  function Call(config: Value, persistent: map<string, Value>, endpoints: map<string, Value>, envHost: string,
                rt: Runtime, http: map<string, Value> -> Response): (r: CallResult)
    ensures Options(config, persistent, endpoints, envHost, rt).Err? ==>
      r == CallResult(None, Threw(TypeError), [])
    ensures Options(config, persistent, endpoints, envHost, rt).Ok? && !Lookup(Options(config, persistent, endpoints, envHost, rt).value, "url").Str? ==>
      r == CallResult(None, Rejected(Str(InvalidUrlReason)), [])
    ensures r.request.Some? ==>
      Options(config, persistent, endpoints, envHost, rt).Ok?
      && r.request.value == Pick(Options(config, persistent, endpoints, envHost, rt).value, RequestKeys)
      && r.request.value["url"].Str?
    ensures |r.trace| <= 1
    ensures r.settlement.Threw? <==> r.request.None? && !r.settlement.Rejected?
    ensures r.request.Some? && http(r.request.value).Failed? ==>
      (r.settlement, r.trace) == OnFailed(Options(config, persistent, endpoints, envHost, rt).value, rt)
    ensures r.request.Some? && http(r.request.value).Delivered? ==>
      var settings := Options(config, persistent, endpoints, envHost, rt).value;
      match Transform(settings, http(r.request.value).body, rt)
      case Ok(body) => (r.settlement, r.trace) == OnDelivered(settings, body, rt)
      case Err(_) => (r.settlement, r.trace) == OnFailed(settings, rt)
  {
    match Options(config, persistent, endpoints, envHost, rt)
    case Err(e) => CallResult(None, Threw(e), [])
    case Ok(settings) =>
      if !Lookup(settings, "url").Str? then CallResult(None, Rejected(Str(InvalidUrlReason)), [])
      else
        var request := Pick(settings, RequestKeys);
        var outcome := match http(request)
          case Failed(_) => OnFailed(settings, rt)
          case Delivered(raw) =>
            (match Transform(settings, raw, rt)
             case Err(_) => OnFailed(settings, rt)
             case Ok(body) => OnDelivered(settings, body, rt));
        CallResult(Some(request), outcome.0, outcome.1)
  }

  /** A transport failure rejects with `undefined`, after handing `undefined` to a caller's error callback. */
  lemma TransportFailureRejectsUndefined(config: Value, persistent: map<string, Value>, endpoints: map<string, Value>,
                                         envHost: string, rt: Runtime, http: map<string, Value> -> Response)
    requires Options(config, persistent, endpoints, envHost, rt).Ok?
    requires var settings := Options(config, persistent, endpoints, envHost, rt).value;
      Lookup(settings, "url").Str? && http(Pick(settings, RequestKeys)).Failed?
      && (!Lookup(settings, "error").Func? || Lookup(settings, "error").fn.User?)
    ensures var settings := Options(config, persistent, endpoints, envHost, rt).value;
      var r := Call(config, persistent, endpoints, envHost, rt, http);
      r.settlement == Rejected(Undefined)
      && r.trace == (if Lookup(settings, "error").Func? then [ErrorCalled(Undefined)] else [])
  {
  }

  /**
   * An envelope whose `error` is truthy rejects with its `reason`, and a
   * caller's error callback receives the whole envelope.
   */
  lemma ErrorEnvelopeRejects(settings: map<string, Value>, body: Value, rt: Runtime, envelope: Value)
    requires var checkFn := Lookup(settings, "checkResponse");
      (if checkFn.Func? then Invoke(checkFn.fn, [body, Obj(settings)], rt) else Ok(body)) == Ok(envelope)
    requires NotNullish(envelope) && Truthy(Prop(envelope, "error"))
    requires !Lookup(settings, "error").Func? || Lookup(settings, "error").fn.User?
    ensures OnDelivered(settings, body, rt)
      == (Rejected(Prop(envelope, "reason")), if Lookup(settings, "error").Func? then [ErrorCalled(envelope)] else [])
  {
  }

  /**
   * A successful envelope resolves with its `data`, passed through a caller's
   * `parse`, and that value is what a caller's success callback receives.
   */
  lemma SuccessEnvelopeResolves(settings: map<string, Value>, body: Value, rt: Runtime, envelope: Value)
    requires var checkFn := Lookup(settings, "checkResponse");
      (if checkFn.Func? then Invoke(checkFn.fn, [body, Obj(settings)], rt) else Ok(body)) == Ok(envelope)
    requires NotNullish(envelope) && !Truthy(Prop(envelope, "error"))
    requires !Lookup(settings, "parse").Func? || Lookup(settings, "parse").fn.User?
    requires !Lookup(settings, "success").Func? || Lookup(settings, "success").fn.User?
    ensures var parseFn := Lookup(settings, "parse");
      var returned := if parseFn.Func? then rt.call(parseFn.fn.id, [Prop(envelope, "data")]) else Prop(envelope, "data");
      OnDelivered(settings, body, rt)
        == (Resolved(returned), if Lookup(settings, "success").Func? then [SuccessCalled(returned)] else [])
  {
  }

  /**
   * With the default transform and check and no parser, an AdServer answer
   * with a `Result` and without `Success: false` resolves with the `Result`
   * stripped of its `__type` tags.
   */
  lemma AdServerSuccessResolves(settings: map<string, Value>, answer: map<string, Value>, rt: Runtime)
    requires Lookup(settings, "transformResponse") == DefaultTransformFn
    requires Lookup(settings, "checkResponse") == DefaultCheckFn
    requires !Lookup(settings, "parse").Func?
    requires !Lookup(settings, "success").Func? || Lookup(settings, "success").fn.User?
    requires Lookup(answer, "Success") != Bool(false) && Lookup(answer, "Result") != Undefined
    requires StripType(answer["Result"]).Ok?
    ensures Transform(settings, Obj(answer), rt).Ok?
    ensures OnDelivered(settings, Transform(settings, Obj(answer), rt).value, rt).0
      == Resolved(StripType(answer["Result"]).value)
  {
    var envelope := DefaultTransformResponse(Obj(answer), rt);
    assert Transform(settings, Obj(answer), rt) == Ok(envelope);
    CheckResponseSuccess(envelope.props, answer);
    var checked := Obj(envelope.props["data" := StripType(answer["Result"]).value]);
    assert Invoke(DefaultCheckFn.fn, [envelope, Obj(settings)], rt) == Ok(checked);
    assert Prop(checked, "error") == Bool(false) && Prop(checked, "data") == StripType(answer["Result"]).value;
    SuccessEnvelopeResolves(settings, envelope, rt, checked);
  }

  /**
   * With the default transform and check, a body JSON cannot parse (or that
   * parses to null) rejects with `undefined`: the check overwrites the
   * transform's error reason with the missing `ErrorMessage`.
   */
  lemma UnparsableBodyRejectsUndefined(settings: map<string, Value>, raw: Value, rt: Runtime)
    requires Lookup(settings, "transformResponse") == DefaultTransformFn
    requires Lookup(settings, "checkResponse") == DefaultCheckFn
    requires !Lookup(settings, "error").Func? || Lookup(settings, "error").fn.User?
    requires !IsAngularObject(raw) && rt.parseJson(ToStr(raw)) in {None, Some(Null)}
    ensures Transform(settings, raw, rt).Ok?
    ensures OnDelivered(settings, Transform(settings, raw, rt).value, rt).0 == Rejected(Undefined)
  {
    var envelope := DefaultTransformResponse(raw, rt);
    assert Transform(settings, raw, rt) == Ok(envelope);
    UnparsableReasonOverwritten(raw, rt);
    var checked := DefaultCheckResponse(envelope).value;
    assert Invoke(DefaultCheckFn.fn, [envelope, Obj(settings)], rt) == Ok(checked);
    assert Prop(checked, "error") == Bool(true) && Prop(checked, "reason") == Undefined;
    ErrorEnvelopeRejects(settings, envelope, rt, checked);
  }
}
