/**
 * The older request-options builder: a shallow `_.assign` of the caller's
 * configuration over the defaults, the signed-in user's token added to the
 * params, the URL built from the constant endpoint registry, `prepare` and
 * jQuery-style form encoding.
 *
 * The assign makes the options share the caller's `params` and `headers`
 * objects, so the token and the form content type are written into the
 * caller's own configuration as well; the builder returns that updated
 * configuration beside the options.
 */
module LegacyEndpointOptions {
  import opened Wrappers
  import opened Strings
  import opened JsValue
  import EndpointOptions

  const LegacyTransformFn: Value := Func(Builtin("legacyDefaultTransformResponse"))
  const LegacyCheckFn: Value := Func(Builtin("legacyDefaultCheckResponse"))
  const FormContentType: string := "application/x-www-form-urlencoded"

  /** The options every request starts from. */
  function Defaults(): map<string, Value>
  {
    map[
      "method" := Str("GET"), "url" := Null, "host" := Null, "path" := Null, "endpoint" := Null,
      "data" := Null, "headers" := Obj(map[]), "payload" := Null, "prepare" := Null, "params" := Obj(map[]),
      "formData" := Bool(false), "admin" := Bool(false), "useToken" := Bool(true),
      "transformResponse" := LegacyTransformFn, "checkResponse" := LegacyCheckFn,
      "parse" := Null, "success" := Null, "error" := Null, "successMessage" := Null, "errorMessage" := Null]
  }

  /** What `User.root()` and `User.target()` return: the signed-in account and the one it runs as. */
  datatype Users = Users(root: Value, target: Value)

  /** The options and the caller's configuration after the builder has written through the shared objects. */
  datatype Built = Built(options: map<string, Value>, caller: Value)

  /** `_.extend(target, source)`: an object target takes the source's properties; other targets are left as they are. */
  function Extend(target: Value, source: map<string, Value>): (r: Value)
    ensures target.Obj? ==> r.Obj? && r.props == target.props + source
    ensures !target.Obj? ==> r == target
  {
    if target.Obj? then Obj(target.props + source) else target
  }

  /** Whether the caller's configuration has its own `key`, which the assigned options then share. */
  predicate Shares(caller: Value, key: string)
  {
    caller.Obj? && key in caller.props
  }

  /** Writes a shared object back into the caller's configuration. */
  function WriteBack(caller: Value, key: string, v: Value): Value
  {
    if Shares(caller, key) then Obj(caller.props[key := v]) else caller
  }

  /** The caller's own `key`, when it has one, is the value the options hold: the two share one object. */
  predicate CallerAgrees(b: Built, key: string)
  {
    Shares(b.caller, key) ==> b.caller.props[key] == Lookup(b.options, key)
  }

  /** The shared objects agree for both `params` and `headers`. */
  predicate Aliased(b: Built)
  {
    CallerAgrees(b, "params") && CallerAgrees(b, "headers")
  }

  /** `after` differs from the caller's `before` at most in the values of `params` and `headers`. */
  predicate OnlyWrites(before: Value, after: Value)
  {
    if before.Obj? then
      after.Obj? && after.props.Keys == before.props.Keys
      && forall k :: k in before.props && k != "params" && k != "headers" ==> after.props[k] == before.props[k]
    else after == before
  }

  /** `{token: admin ? User.root().Token : User.target().Token}`; reading the token of a missing user throws. */
  function GetToken(admin: Value, users: Users): (r: Try<Value>)
    ensures r.Err? <==> !EndpointOptions.NotNullish(if Truthy(admin) then users.root else users.target)
    ensures r.Err? ==> r.exn == TypeError
    ensures r.Ok? ==> r.value == Obj(map["token" := Prop(if Truthy(admin) then users.root else users.target, "Token")])
  {
    var user := if Truthy(admin) then users.root else users.target;
    var token :- GetProp(user, "Token");
    Ok(Obj(map["token" := token]))
  }

  /** With `useToken` truthy, the token is added to the params (and so to the caller's own params object). */
  function AddToken(b: Built, users: Users): (r: Try<Built>)
    ensures !Truthy(Lookup(b.options, "useToken")) ==> r == Ok(b)
    ensures r.Err? ==> r.exn == TypeError
    ensures r.Ok? ==> forall k :: k != "params" ==> Lookup(r.value.options, k) == Lookup(b.options, k)
    ensures r.Ok? && Truthy(Lookup(b.options, "useToken")) ==>
      var user := if Truthy(Lookup(b.options, "admin")) then users.root else users.target;
      Lookup(r.value.options, "params") == Extend(Lookup(b.options, "params"), map["token" := Prop(user, "Token")])
    ensures r.Ok? && Aliased(b) ==> Aliased(r.value)
    ensures r.Ok? ==> OnlyWrites(b.caller, r.value.caller)
  {
    if !Truthy(Lookup(b.options, "useToken")) then Ok(b)
    else
      var token :- GetToken(Lookup(b.options, "admin"), users);
      var params := Extend(Lookup(b.options, "params"), token.props);
      Ok(Built(b.options["params" := params], WriteBack(b.caller, "params", params)))
  }

  /**
   * `getUrl`: host followed by the registry fragment a dotted path names, or
   * by the path itself. A path that is not a string has no `indexOf` (null
   * and undefined cannot be read at all) and throws; an array path is
   * searched for a "." element and, lacking `split`, throws when it has one.
   */
  function GetUrl(options: map<string, Value>, endpoints: map<string, Value>, envHost: string): (r: Try<Value>)
    ensures r.Err? ==> r.exn == TypeError
    ensures var path := Or(Lookup(options, "endpoint"), Lookup(options, "path"));
      !path.Str? && !path.Arr? ==> r == Err(TypeError)
  {
    var host := Or(Lookup(options, "host"), Str(envHost));
    var path := Or(Lookup(options, "endpoint"), Lookup(options, "path"));
    match path
    case Str(s) =>
      var endpoint :- if '.' in s then EndpointOptions.Walk(Obj(endpoints), Split(s, '.')) else Ok(Undefined);
      Ok(EndpointOptions.Concat(host, Or(endpoint, path)))
    case Arr(e) =>
      if Str(".") in e then Err(TypeError) else Ok(EndpointOptions.Concat(host, path))
    case _ => Err(TypeError)
  }

  /** A falsy `url` is replaced by the one `GetUrl` builds. */
  function ResolveUrl(b: Built, endpoints: map<string, Value>, envHost: string): (r: Try<Built>)
    ensures Truthy(Lookup(b.options, "url")) ==> r == Ok(b)
    ensures !Truthy(Lookup(b.options, "url")) ==>
      (r.Ok? <==> GetUrl(b.options, endpoints, envHost).Ok?)
      && (r.Ok? ==> Lookup(r.value.options, "url") == GetUrl(b.options, endpoints, envHost).value)
    ensures r.Err? ==> r.exn == TypeError
    ensures r.Ok? ==> r.value.caller == b.caller
    ensures r.Ok? ==> forall k :: k != "url" ==> Lookup(r.value.options, k) == Lookup(b.options, k)
  {
    if Truthy(Lookup(b.options, "url")) then Ok(b)
    else
      var url :- GetUrl(b.options, endpoints, envHost);
      Ok(Built(b.options["url" := url], b.caller))
  }

  /** Invokes a function value: this builder's own closures here, caller code through the runtime. */
  function Invoke(f: FnRef, args: seq<Value>, rt: Runtime): (r: Try<Value>)
    ensures f.User? ==> r == Ok(rt.call(f.id, args))
    ensures r.Err? ==> r.exn == TypeError
  {
    var arg := if |args| > 0 then args[0] else Undefined;
    match f
    case Builtin(name) =>
      if name == "legacyDefaultTransformResponse" then Ok(EndpointOptions.DefaultTransformResponse(arg, rt))
      else if name == "legacyDefaultCheckResponse" then CheckResponse(arg)
      else Ok(Undefined)
    case User(id) => Ok(rt.call(id, args))
  }

  /** A `prepare` function receives a copy of `data` and its result becomes the data. */
  function Prepare(b: Built, rt: Runtime): (r: Try<Built>)
    ensures !Lookup(b.options, "prepare").Func? ==> r == Ok(b)
    ensures Lookup(b.options, "prepare").Func? && Lookup(b.options, "prepare").fn.User? ==>
      r.Ok? && Lookup(r.value.options, "data") == rt.call(Lookup(b.options, "prepare").fn.id, [Lookup(b.options, "data")])
    ensures r.Err? ==> r.exn == TypeError
    ensures r.Ok? ==> r.value.caller == b.caller
    ensures r.Ok? ==> forall k :: k != "data" ==> Lookup(r.value.options, k) == Lookup(b.options, k)
  {
    var prepare := Lookup(b.options, "prepare");
    if prepare.Func? then
      var data :- Invoke(prepare.fn, [Lookup(b.options, "data")], rt);
      Ok(Built(b.options["data" := data], b.caller))
    else Ok(b)
  }

  /** With `formData`, the (possibly shared) headers get the form content type and the data is `$.param`-encoded. */
  function FormData(b: Built, rt: Runtime): (r: Try<Built>)
    ensures !Truthy(Lookup(b.options, "formData")) ==> r == Ok(b)
    ensures Truthy(Lookup(b.options, "formData")) ==>
      (r.Ok? <==> IsLodashObject(Lookup(b.options, "headers")))
      && (r.Ok? ==> Lookup(r.value.options, "data") == Str(rt.jqueryParam(Lookup(b.options, "data"))))
      && (Lookup(b.options, "headers").Obj? ==>
            r.Ok? && Lookup(r.value.options, "headers")
                       == Obj(Lookup(b.options, "headers").props["Content-Type" := Str(FormContentType)]))
    ensures r.Err? ==> r.exn == TypeError
    ensures r.Ok? ==> forall k :: k != "data" && k != "headers" ==> Lookup(r.value.options, k) == Lookup(b.options, k)
    ensures r.Ok? && Aliased(b) ==> Aliased(r.value)
    ensures r.Ok? ==> OnlyWrites(b.caller, r.value.caller)
  {
    if Truthy(Lookup(b.options, "formData")) then
      var headers :- SetProp(Lookup(b.options, "headers"), "Content-Type", Str(FormContentType));
      Ok(Built(b.options["headers" := headers]["data" := Str(rt.jqueryParam(Lookup(b.options, "data")))],
               WriteBack(b.caller, "headers", headers)))
    else Ok(b)
  }

  /** The steps after the assign, in the order the builder runs them. */
  function Process(b: Built, endpoints: map<string, Value>, envHost: string, users: Users, rt: Runtime): (r: Try<Built>)
    ensures r.Err? ==> r.exn == TypeError
  {
    var withToken :- AddToken(b, users);
    var withUrl :- ResolveUrl(withToken, endpoints, envHost);
    var prepared :- Prepare(withUrl, rt);
    FormData(prepared, rt)
  }

  /** `new EndpointOptions(config)`. */
  function Options(config: Value, endpoints: map<string, Value>, envHost: string, users: Users, rt: Runtime): (r: Try<Built>)
    ensures r.Err? ==> r.exn == TypeError
  {
    Process(Built(Assign(Defaults(), config), config), endpoints, envHost, users, rt)
  }

  /** The AdServer check of this builder: like the newer one, but without an error code. */
  function CheckResponse(envelope: Value): (r: Try<Value>)
    ensures r.Err? ==> r.exn == TypeError
  {
    var data :- GetProp(envelope, "data");
    if !EndpointOptions.NotNullish(data) then Err(TypeError)
    else
    var result := Prop(data, "Result");
    if Prop(data, "Success") == Bool(false) || result == Undefined then
      var e1 :- SetProp(envelope, "error", Bool(true));
      SetProp(e1, "reason", Prop(data, "ErrorMessage"))
    else
      var stripped :- EndpointOptions.StripType(result);
      SetProp(envelope, "data", stripped)
  }

  /** The options other than the four processed ones. */
  predicate Processed(k: string)
  {
    k == "params" || k == "url" || k == "data" || k == "headers"
  }

  lemma ProcessKeepsOtherKeys(b: Built, endpoints: map<string, Value>, envHost: string, users: Users, rt: Runtime, k: string)
    requires Process(b, endpoints, envHost, users, rt).Ok? && !Processed(k)
    ensures Lookup(Process(b, endpoints, envHost, users, rt).value.options, k) == Lookup(b.options, k)
  {
    var withToken := AddToken(b, users).value;
    var withUrl := ResolveUrl(withToken, endpoints, envHost).value;
    var prepared := Prepare(withUrl, rt).value;
    assert Process(b, endpoints, envHost, users, rt) == FormData(prepared, rt);
  }

  /**
   * The assign is shallow and copies undefined: an option the caller has as
   * an own property is exactly the caller's value, undefined included;
   * otherwise it is the default.
   */
  lemma CallerValueReplacesDefault(config: Value, endpoints: map<string, Value>, envHost: string, users: Users,
                                   rt: Runtime, k: string)
    requires Options(config, endpoints, envHost, users, rt).Ok? && !Processed(k)
    ensures Lookup(Options(config, endpoints, envHost, users, rt).value.options, k)
      == (if Shares(config, k) then config.props[k] else Lookup(Defaults(), k))
  {
    ProcessKeepsOtherKeys(Built(Assign(Defaults(), config), config), endpoints, envHost, users, rt, k);
  }

  /**
   * With `useToken` truthy and object params, the params carry the token of
   * the root user when `admin` is truthy and of the target user otherwise.
   */
  lemma TokenInjected(b: Built, endpoints: map<string, Value>, envHost: string, users: Users, rt: Runtime)
    requires Process(b, endpoints, envHost, users, rt).Ok?
    requires Truthy(Lookup(b.options, "useToken")) && Lookup(b.options, "params").Obj?
    ensures var params := Lookup(Process(b, endpoints, envHost, users, rt).value.options, "params");
      var user := if Truthy(Lookup(b.options, "admin")) then users.root else users.target;
      && params.Obj? && params.props.Keys == Lookup(b.options, "params").props.Keys + {"token"}
      && params.props["token"] == Prop(user, "Token")
      && forall k :: k in params.props && k != "token" ==> params.props[k] == Lookup(b.options, "params").props[k]
  {
    var withToken := AddToken(b, users).value;
    var withUrl := ResolveUrl(withToken, endpoints, envHost).value;
    assert Lookup(withUrl.options, "params") == Lookup(withToken.options, "params");
    var prepared := Prepare(withUrl, rt).value;
    assert Lookup(prepared.options, "params") == Lookup(withToken.options, "params");
    assert Process(b, endpoints, envHost, users, rt) == FormData(prepared, rt);
  }

  /** With `useToken` truthy, a missing user makes the builder throw. */
  lemma MissingUserThrows(b: Built, endpoints: map<string, Value>, envHost: string, users: Users, rt: Runtime)
    requires Truthy(Lookup(b.options, "useToken"))
    requires !EndpointOptions.NotNullish(if Truthy(Lookup(b.options, "admin")) then users.root else users.target)
    ensures Process(b, endpoints, envHost, users, rt) == Err(TypeError)
  {
  }

  /** With `useToken` falsy the params are left exactly as the caller gave them. */
  lemma NoTokenParamsUntouched(b: Built, endpoints: map<string, Value>, envHost: string, users: Users, rt: Runtime)
    requires Process(b, endpoints, envHost, users, rt).Ok?
    requires !Truthy(Lookup(b.options, "useToken"))
    ensures Lookup(Process(b, endpoints, envHost, users, rt).value.options, "params") == Lookup(b.options, "params")
  {
    var withUrl := ResolveUrl(b, endpoints, envHost).value;
    var prepared := Prepare(withUrl, rt).value;
    assert Process(b, endpoints, envHost, users, rt) == FormData(prepared, rt);
  }

  /** `GetUrl` depends on the host, endpoint and path options only, so the token step leaves the URL alone. */
  lemma GetUrlReadsHostAndPath(a: map<string, Value>, b: map<string, Value>, endpoints: map<string, Value>, envHost: string)
    requires forall k :: k != "params" ==> Lookup(a, k) == Lookup(b, k)
    ensures GetUrl(a, endpoints, envHost) == GetUrl(b, endpoints, envHost)
  {
    assert Lookup(a, "host") == Lookup(b, "host");
    assert Lookup(a, "path") == Lookup(b, "path");
    assert Lookup(a, "endpoint") == Lookup(b, "endpoint");
  }

  /** The URL sent is the caller's truthy `url`, or else the one `GetUrl` builds from the assigned options. */
  lemma ProcessUrl(b: Built, endpoints: map<string, Value>, envHost: string, users: Users, rt: Runtime)
    requires Process(b, endpoints, envHost, users, rt).Ok?
    ensures var url := Lookup(Process(b, endpoints, envHost, users, rt).value.options, "url");
      && (Truthy(Lookup(b.options, "url")) ==> url == Lookup(b.options, "url"))
      && (!Truthy(Lookup(b.options, "url")) ==>
            GetUrl(b.options, endpoints, envHost).Ok? && url == GetUrl(b.options, endpoints, envHost).value)
  {
    var withToken := AddToken(b, users).value;
    var withUrl := ResolveUrl(withToken, endpoints, envHost).value;
    var prepared := Prepare(withUrl, rt).value;
    assert Process(b, endpoints, envHost, users, rt) == FormData(prepared, rt);
    assert Lookup(withToken.options, "url") == Lookup(b.options, "url");
    GetUrlReadsHostAndPath(withToken.options, b.options, endpoints, envHost);
    assert Lookup(prepared.options, "url") == Lookup(withUrl.options, "url");
  }

  /** The data sent is `prepare`'s result on the caller's data, `$.param`-encoded when `formData` is truthy. */
  lemma ProcessData(b: Built, endpoints: map<string, Value>, envHost: string, users: Users, rt: Runtime, id: nat)
    requires Process(b, endpoints, envHost, users, rt).Ok?
    requires Lookup(b.options, "prepare") == Func(User(id))
    ensures var data := Lookup(Process(b, endpoints, envHost, users, rt).value.options, "data");
      var prepared := rt.call(id, [Lookup(b.options, "data")]);
      && (!Truthy(Lookup(b.options, "formData")) ==> data == prepared)
      && (Truthy(Lookup(b.options, "formData")) ==> data == Str(rt.jqueryParam(prepared)))
  {
    var withToken := AddToken(b, users).value;
    var withUrl := ResolveUrl(withToken, endpoints, envHost).value;
    var prepared := Prepare(withUrl, rt).value;
    assert Process(b, endpoints, envHost, users, rt) == FormData(prepared, rt);
    assert Lookup(withUrl.options, "data") == Lookup(b.options, "data");
    assert Lookup(withUrl.options, "prepare") == Lookup(b.options, "prepare");
    assert Lookup(prepared.options, "formData") == Lookup(b.options, "formData");
  }

  /**
   * Object headers are sent as given, except that `formData` sets their
   * Content-Type to the form encoding; no other header is added or changed.
   */
  lemma ProcessHeaders(b: Built, endpoints: map<string, Value>, envHost: string, users: Users, rt: Runtime)
    requires Process(b, endpoints, envHost, users, rt).Ok? && Lookup(b.options, "headers").Obj?
    ensures var headers := Lookup(Process(b, endpoints, envHost, users, rt).value.options, "headers");
      var given := Lookup(b.options, "headers");
      && (!Truthy(Lookup(b.options, "formData")) ==> headers == given)
      && (Truthy(Lookup(b.options, "formData")) ==> headers == Obj(given.props["Content-Type" := Str(FormContentType)]))
  {
    var withToken := AddToken(b, users).value;
    var withUrl := ResolveUrl(withToken, endpoints, envHost).value;
    var prepared := Prepare(withUrl, rt).value;
    assert Process(b, endpoints, envHost, users, rt) == FormData(prepared, rt);
    assert Lookup(prepared.options, "headers") == Lookup(b.options, "headers");
    assert Lookup(prepared.options, "formData") == Lookup(b.options, "formData");
  }

  /**
   * Aliasing: whenever the caller's configuration has its own `params` or
   * `headers`, the caller ends up holding the very values the options send,
   * token and form content type included; nothing else of the caller's
   * configuration is written.
   */
  lemma CallerSharesParamsAndHeaders(config: Value, endpoints: map<string, Value>, envHost: string, users: Users, rt: Runtime)
    requires Options(config, endpoints, envHost, users, rt).Ok?
    ensures Aliased(Options(config, endpoints, envHost, users, rt).value)
    ensures OnlyWrites(config, Options(config, endpoints, envHost, users, rt).value.caller)
  {
    var b0 := Built(Assign(Defaults(), config), config);
    assert Aliased(b0);
    var withToken := AddToken(b0, users).value;
    var withUrl := ResolveUrl(withToken, endpoints, envHost).value;
    var prepared := Prepare(withUrl, rt).value;
    assert Aliased(prepared) by {
      assert Lookup(prepared.options, "params") == Lookup(withToken.options, "params");
      assert Lookup(prepared.options, "headers") == Lookup(withToken.options, "headers");
    }
    assert Options(config, endpoints, envHost, users, rt) == FormData(prepared, rt);
  }

  /** The legacy check on a failed AdServer answer: error, with the server's message as reason. */
  lemma CheckResponseFailure(envelope: map<string, Value>, data: map<string, Value>)
    requires Lookup(envelope, "data") == Obj(data)
    requires Lookup(data, "Success") == Bool(false) || Lookup(data, "Result") == Undefined
    ensures CheckResponse(Obj(envelope)) == Ok(Obj(envelope["error" := Bool(true)]["reason" := Lookup(data, "ErrorMessage")]))
  {
  }

  /** Otherwise `data` becomes the `Result` stripped of its `__type` tags, and `error` stays as the transform left it. */
  lemma CheckResponseSuccess(envelope: map<string, Value>, data: map<string, Value>)
    requires Lookup(envelope, "data") == Obj(data)
    requires Lookup(data, "Success") != Bool(false) && Lookup(data, "Result") != Undefined
    requires EndpointOptions.StripType(data["Result"]).Ok?
    ensures CheckResponse(Obj(envelope)) == Ok(Obj(envelope["data" := EndpointOptions.StripType(data["Result"]).value]))
  {
  }

  /** The older check throws when the envelope or its data is null or undefined. */
  lemma CheckResponseThrows(envelope: Value)
    requires !EndpointOptions.NotNullish(envelope) || !EndpointOptions.NotNullish(Prop(envelope, "data"))
    ensures CheckResponse(envelope) == Err(TypeError)
  {
  }

  /** A path that is neither a string nor an array makes the legacy builder throw, where the newer one builds no URL. */
  lemma NonStringPathThrows(options: map<string, Value>, endpoints: map<string, Value>, envHost: string)
    requires var path := Or(Lookup(options, "endpoint"), Lookup(options, "path")); !path.Str? && !path.Arr?
    ensures GetUrl(options, endpoints, envHost) == Err(TypeError)
    ensures EndpointOptions.GetUrl(options, endpoints, envHost) == Ok(Undefined)
  {
  }

  /** On string paths the two builders form the same URL. */
  lemma StringPathAgrees(options: map<string, Value>, endpoints: map<string, Value>, envHost: string)
    requires Or(Lookup(options, "endpoint"), Lookup(options, "path")).Str?
    ensures GetUrl(options, endpoints, envHost) == EndpointOptions.GetUrl(options, endpoints, envHost)
  {
  }
}
