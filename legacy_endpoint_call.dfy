/**
 * One HTTP call through the older builder: the request always goes out; the
 * success and error callbacks show alerts besides calling the caller's
 * callbacks; a failed response is handed to the error callback as it is.
 */
module LegacyEndpointCall {
  import opened Wrappers
  import opened JsValue
  import opened Http
  import EndpointOptions
  import opened LegacyEndpointOptions

  const DefaultErrorMessage: string := "Something went wrong. Error code 103."

  /** The options forwarded to `$http`. */
  const RequestKeys: set<string> := {"method", "headers", "url", "data", "params", "transformResponse", "ignoreLoadingBar"}

  /** `$http` applies a function `transformResponse` to the body; any other value leaves it as it is. */
  function Transform(settings: map<string, Value>, raw: Value, rt: Runtime): Try<Value>
  {
    var t := Lookup(settings, "transformResponse");
    if t.Func? then LegacyEndpointOptions.Invoke(t.fn, [raw], rt) else Ok(raw)
  }

  /**
   * The text of the error alert: the configured `errorMessage` unless it is
   * null, else the server's truthy `reason` when the data is an object, else
   * the generic message.
   */
  function ErrorAlertMessage(data: Value, errorMessage: Value): (m: Value)
    ensures errorMessage != Null ==> m == errorMessage
    ensures errorMessage == Null && IsAngularObject(data) && Truthy(Prop(data, "reason")) ==> m == Prop(data, "reason")
    ensures errorMessage == Null && !(IsAngularObject(data) && Truthy(Prop(data, "reason"))) ==> m == Str(DefaultErrorMessage)
    ensures errorMessage == Null ==> Truthy(m)
  {
    var serverError := if IsAngularObject(data) then Or(Prop(data, "reason"), Str(DefaultErrorMessage)) else Str(DefaultErrorMessage);
    if errorMessage != Null then errorMessage else serverError
  }

  /** Calls `f(arg)` when `f` is a function, recording `ev`; returns the events and the exception raised, if any. */
  function Notify(f: Value, arg: Value, ev: Event, rt: Runtime): (r: (seq<Event>, Option<Value>))
    ensures r.0 == (if f.Func? then [ev] else [])
    ensures !f.Func? || f.fn.User? ==> r.1 == None
  {
    if f.Func? then
      match LegacyEndpointOptions.Invoke(f.fn, [arg], rt)
      case Ok(_) => ([ev], None)
      case Err(e) => ([ev], Some(e))
    else ([], None)
  }

  /** `errorCallback`: an error alert unless `errorMessage` is `false`, then the caller's error callback. */
  function ErrorCallback(data: Value, settings: map<string, Value>, rt: Runtime): (r: (seq<Event>, Option<Value>))
    ensures var errorMessage := Lookup(settings, "errorMessage");
      var alerts := if errorMessage != Bool(false) then [Alert("error", ErrorAlertMessage(data, errorMessage))] else [];
      r.0 == alerts + (if Lookup(settings, "error").Func? then [ErrorCalled(data)] else [])
  {
    var errorMessage := Lookup(settings, "errorMessage");
    var alerts := if errorMessage != Bool(false) then [Alert("error", ErrorAlertMessage(data, errorMessage))] else [];
    var (events, thrown) := Notify(Lookup(settings, "error"), data, ErrorCalled(data), rt);
    (alerts + events, thrown)
  }

  /** `successCallback`: a success alert unless `successMessage` is null, then the caller's success callback. */
  function SuccessCallback(data: Value, settings: map<string, Value>, rt: Runtime): (r: (seq<Event>, Option<Value>))
    ensures var successMessage := Lookup(settings, "successMessage");
      var alerts := if successMessage != Null then [Alert("success", successMessage)] else [];
      r.0 == alerts + (if Lookup(settings, "success").Func? then [SuccessCalled(data)] else [])
  {
    var successMessage := Lookup(settings, "successMessage");
    var alerts := if successMessage != Null then [Alert("success", successMessage)] else [];
    var (events, thrown) := Notify(Lookup(settings, "success"), data, SuccessCalled(data), rt);
    (alerts + events, thrown)
  }

  /**
   * The rejection handler: the error callback receives the response's data
   * and the promise rejects with its `reason`, which throws when the data is
   * null or undefined.
   */
  function OnFailed(settings: map<string, Value>, data: Value, rt: Runtime): (r: (Settlement, seq<Event>))
    ensures r.0.Rejected?
    ensures r.1 == ErrorCallback(data, settings, rt).0
  {
    var (events, thrown) := ErrorCallback(data, settings, rt);
    if thrown.Some? then (Rejected(thrown.value), events)
    else match GetProp(data, "reason")
      case Ok(reason) => (Rejected(reason), events)
      case Err(e) => (Rejected(e), events)
  }

  /** The fulfilment handler on the transformed body, as in the newer call but with the alerts. */
  function OnDelivered(settings: map<string, Value>, body: Value, rt: Runtime): (r: (Settlement, seq<Event>))
    ensures r.0.Rejected? || r.0.Resolved?
    ensures Callbacks(r.1) <= 1
    ensures r.0.Resolved? ==> r.1 == SuccessCallback(r.0.value, settings, rt).0
  {
    var checkFn := Lookup(settings, "checkResponse");
    var checked := if checkFn.Func? then LegacyEndpointOptions.Invoke(checkFn.fn, [body], rt) else Ok(body);
    if checked.Err? then (Rejected(checked.exn), [])
    else
      var envelope := checked.value;
      if !EndpointOptions.NotNullish(envelope) then (Rejected(TypeError), [])
      else if Truthy(Prop(envelope, "error")) then
        var (events, thrown) := ErrorCallback(envelope, settings, rt);
        assert Callbacks(events) <= 1 by { CallbacksOfAlertThen(events, ErrorCalled(envelope)); }
        (Rejected(if thrown.Some? then thrown.value else Prop(envelope, "reason")), events)
      else
        var parseFn := Lookup(settings, "parse");
        var returned := if parseFn.Func? then LegacyEndpointOptions.Invoke(parseFn.fn, [Prop(envelope, "data")], rt)
                        else Ok(Prop(envelope, "data"));
        if returned.Err? then (Rejected(returned.exn), [])
        else
          var (events, thrown) := SuccessCallback(returned.value, settings, rt);
          assert Callbacks(events) <= 1 by { CallbacksOfAlertThen(events, SuccessCalled(returned.value)); }
          (if thrown.Some? then Rejected(thrown.value) else Resolved(returned.value), events)
  }

  /** An optional alert followed by an optional callback holds at most one callback. */
  lemma CallbacksOfAlertThen(events: seq<Event>, ev: Event)
    requires |events| <= 2
    requires forall i :: 0 <= i < |events| ==> events[i].Alert? || events[i] == ev
    requires |events| == 2 ==> events[0].Alert?
    ensures Callbacks(events) <= 1
  {
    if |events| == 2 {
      assert events[1..] == [events[1]];
    }
  }

  /**
   * `EndpointCall(config)` over the older builder: options that cannot be
   * built make the call throw; otherwise the request always goes out, URL or
   * not, and the answer settles the promise.
   */
  function Call(config: Value, endpoints: map<string, Value>, envHost: string, users: Users, rt: Runtime,
                http: map<string, Value> -> Response): (r: CallResult)
    ensures Options(config, endpoints, envHost, users, rt).Err? ==> r == CallResult(None, Threw(TypeError), [])
    ensures Options(config, endpoints, envHost, users, rt).Ok? ==>
      r.request == Some(Pick(Options(config, endpoints, envHost, users, rt).value.options, RequestKeys))
      && (r.settlement.Rejected? || r.settlement.Resolved?)
    ensures Callbacks(r.trace) <= 1
    ensures Options(config, endpoints, envHost, users, rt).Ok? ==>
      var settings := Options(config, endpoints, envHost, users, rt).value.options;
      var answer := http(Pick(settings, RequestKeys));
      var transformed := Transform(settings, answer.body, rt);
      if answer.Delivered? && transformed.Ok? then (r.settlement, r.trace) == OnDelivered(settings, transformed.value, rt)
      else (r.settlement, r.trace) == OnFailed(settings, if transformed.Ok? then transformed.value else Prop(transformed.exn, "data"), rt)
  {
    match Options(config, endpoints, envHost, users, rt)
    case Err(e) => CallResult(None, Threw(e), [])
    case Ok(built) =>
      var settings := built.options;
      var request := Pick(settings, RequestKeys);
      var transformed := Transform(settings, http(request).body, rt);
      var outcome :=
        if http(request).Delivered? && transformed.Ok? then OnDelivered(settings, transformed.value, rt)
        else
          var data := if transformed.Ok? then transformed.value else Prop(transformed.exn, "data");
          var failed := OnFailed(settings, data, rt);
          assert Callbacks(failed.1) <= 1 by { CallbacksOfAlertThen(failed.1, ErrorCalled(data)); }
          failed;
      CallResult(Some(request), outcome.0, outcome.1)
  }

  /**
   * An envelope whose `error` is truthy rejects with its `reason`, after the
   * error alert and the caller's error callback on the whole envelope.
   */
  lemma ErrorEnvelopeRejects(settings: map<string, Value>, body: Value, rt: Runtime, envelope: Value)
    requires var checkFn := Lookup(settings, "checkResponse");
      (if checkFn.Func? then LegacyEndpointOptions.Invoke(checkFn.fn, [body], rt) else Ok(body)) == Ok(envelope)
    requires EndpointOptions.NotNullish(envelope) && Truthy(Prop(envelope, "error"))
    requires !Lookup(settings, "error").Func? || Lookup(settings, "error").fn.User?
    ensures OnDelivered(settings, body, rt) == (Rejected(Prop(envelope, "reason")), ErrorCallback(envelope, settings, rt).0)
  {
  }

  /**
   * Otherwise the promise resolves with the envelope's `data`, passed through
   * a caller's `parse`, after the success alert and the caller's success
   * callback on that value.
   */
  lemma SuccessEnvelopeResolves(settings: map<string, Value>, body: Value, rt: Runtime, envelope: Value)
    requires var checkFn := Lookup(settings, "checkResponse");
      (if checkFn.Func? then LegacyEndpointOptions.Invoke(checkFn.fn, [body], rt) else Ok(body)) == Ok(envelope)
    requires EndpointOptions.NotNullish(envelope) && !Truthy(Prop(envelope, "error"))
    requires !Lookup(settings, "parse").Func? || Lookup(settings, "parse").fn.User?
    requires !Lookup(settings, "success").Func? || Lookup(settings, "success").fn.User?
    ensures var parseFn := Lookup(settings, "parse");
      var returned := if parseFn.Func? then rt.call(parseFn.fn.id, [Prop(envelope, "data")]) else Prop(envelope, "data");
      OnDelivered(settings, body, rt) == (Resolved(returned), SuccessCallback(returned, settings, rt).0)
  {
  }

  /**
   * With the older default transform and check and no parser, an AdServer
   * answer with a `Result` and without `Success: false` resolves with the
   * `Result` stripped of its `__type` tags.
   */
  lemma AdServerSuccessResolves(settings: map<string, Value>, answer: map<string, Value>, rt: Runtime)
    requires Lookup(settings, "transformResponse") == LegacyTransformFn
    requires Lookup(settings, "checkResponse") == LegacyCheckFn
    requires !Lookup(settings, "parse").Func?
    requires !Lookup(settings, "success").Func? || Lookup(settings, "success").fn.User?
    requires Lookup(answer, "Success") != Bool(false) && Lookup(answer, "Result") != Undefined
    requires EndpointOptions.StripType(answer["Result"]).Ok?
    ensures Transform(settings, Obj(answer), rt).Ok?
    ensures OnDelivered(settings, Transform(settings, Obj(answer), rt).value, rt).0
      == Resolved(EndpointOptions.StripType(answer["Result"]).value)
  {
    var envelope := Transform(settings, Obj(answer), rt).value;
    assert envelope.Obj? && Lookup(envelope.props, "data") == Obj(answer);
    CheckResponseSuccess(envelope.props, answer);
    var checked := Obj(envelope.props["data" := EndpointOptions.StripType(answer["Result"]).value]);
    assert LegacyEndpointOptions.Invoke(LegacyCheckFn.fn, [envelope], rt) == Ok(checked);
    assert Prop(checked, "error") == Bool(false) && Prop(checked, "data") == EndpointOptions.StripType(answer["Result"]).value;
    SuccessEnvelopeResolves(settings, envelope, rt, checked);
  }

  /**
   * The error alert: none when `errorMessage` is `false`; the configured
   * message when one is set; otherwise the server's reason or the generic
   * message. The caller's error callback receives the data.
   */
  lemma ErrorAlerts(data: Value, settings: map<string, Value>, rt: Runtime)
    ensures var events := ErrorCallback(data, settings, rt).0;
      var errorMessage := Lookup(settings, "errorMessage");
      && (errorMessage == Bool(false) ==> forall i :: 0 <= i < |events| ==> !events[i].Alert?)
      && (errorMessage != Bool(false) ==> |events| >= 1 && events[0] == Alert("error", ErrorAlertMessage(data, errorMessage)))
      && (Lookup(settings, "error").Func? <==> ErrorCalled(data) in events)
  {
  }

  /** A transport failure with no data in the response rejects with the TypeError reading its reason raises. */
  lemma FailureWithoutDataThrows(settings: map<string, Value>, data: Value, rt: Runtime)
    requires !EndpointOptions.NotNullish(data)
    requires !Lookup(settings, "error").Func? || Lookup(settings, "error").fn.User?
    ensures OnFailed(settings, data, rt).0 == Rejected(TypeError)
  {
  }

  /** A transport failure with data rejects with the data's `reason`. */
  lemma FailureRejectsWithReason(settings: map<string, Value>, data: Value, rt: Runtime)
    requires EndpointOptions.NotNullish(data)
    requires !Lookup(settings, "error").Func? || Lookup(settings, "error").fn.User?
    ensures OnFailed(settings, data, rt).0 == Rejected(Prop(data, "reason"))
  {
  }
}
