/**
 * The request-options builder: merges a caller's configuration over the
 * documented defaults, applies the persistent parameters (a `token` becomes a
 * Bearer Authorization header), resolves the URL against the dotted-path
 * endpoint registry, runs `prepare` on a copy of the data and form-encodes it
 * on request. Also the two default response normalisers, and the registry and
 * persistent-parameter state the factory keeps between calls.
 */
module EndpointOptions {
  import opened Wrappers
  import opened Strings
  import opened JsValue

  const DefaultTransformFn: Value := Func(Builtin("defaultTransformResponse"))
  const DefaultCheckFn: Value := Func(Builtin("defaultCheckResponse"))
  const ParseErrorReason: string := "There was an error. Error code: 011."
  const FormContentType: string := "application/x-www-form-urlencoded"

  /** The options every request starts from; `persistentParams` is carried along for logging. */
  function Defaults(persistent: map<string, Value>): map<string, Value>
  {
    map[
      "method" := Str("GET"), "url" := Null, "host" := Null, "path" := Null, "endpoint" := Null,
      "cache" := Bool(false), "data" := Null, "headers" := Obj(map[]), "payload" := Null,
      "prepare" := Null, "params" := Obj(map[]), "formData" := Bool(false), "useToken" := Bool(true),
      "transformResponse" := DefaultTransformFn, "checkResponse" := DefaultCheckFn,
      "parse" := Null, "success" := Null, "error" := Null, "successMessage" := Null,
      "errorMessage" := Null, "usePersistentParams" := Bool(true),
      "persistentParams" := Obj(persistent), "withCredentials" := Bool(true)]
  }

  /** The option keys no step after the merge touches. */
  predicate PassThrough(k: string)
  {
    k in {"method", "host", "path", "endpoint", "cache", "payload", "prepare", "formData", "useToken",
          "transformResponse", "checkResponse", "parse", "success", "error", "successMessage",
          "errorMessage", "usePersistentParams", "withCredentials"}
  }

  /** `_.merge(dst, src)` at top level: a source that is not a plain object contributes nothing. */
  function MergeInto(dst: map<string, Value>, src: Value): map<string, Value>
  {
    if src.Obj? then Merge(Obj(dst), src).props else dst
  }

  /** Headers the caller set to undefined, which `_.merge` skips, are put back as undefined. */
  function CopyUndefinedHeaders(options: map<string, Value>, config: Value): (r: map<string, Value>)
    ensures r.Keys == options.Keys
    ensures forall k :: k in options && k != "headers" ==> r[k] == options[k]
  {
    var ch := if config.Obj? then Lookup(config.props, "headers") else Undefined;
    if ch.Obj? && "headers" in options && options["headers"].Obj? then
      options["headers" := Obj(options["headers"].props + map k | k in ch.props && ch.props[k] == Undefined :: Undefined)]
    else options
  }

  /** The options after the merge over the defaults, before any processing. */
  function BaseOptions(config: Value, persistent: map<string, Value>): map<string, Value>
  {
    CopyUndefinedHeaders(MergeInto(MergeInto(map[], Obj(Defaults(persistent))), config), config)
  }

  /** Whether persistent parameters are applied to these options. */
  predicate AppliesPersistent(options: map<string, Value>, persistent: map<string, Value>)
  {
    |persistent| > 0 && Truthy(Lookup(options, "useToken")) && Truthy(Lookup(options, "usePersistentParams"))
  }

  /** `_.merge({}, applied, params)`: the caller's params merged over the applied persistent ones. */
  function MergedParams(applied: map<string, Value>, params: Value): map<string, Value>
  {
    MergeInto(MergeInto(map[], Obj(applied)), params)
  }

  /**
   * Persistent parameters are applied when there are any and both `useToken`
   * and `usePersistentParams` are truthy: a truthy `token` becomes the
   * Authorization header, the rest are merged under the caller's params.
   * Writing the header into headers that are not an object throws.
   */
  function ApplyPersistentParams(options: map<string, Value>, persistent: map<string, Value>): (r: Try<map<string, Value>>)
    ensures !AppliesPersistent(options, persistent) ==> r == Ok(options)
    ensures r.Err? <==> AppliesPersistent(options, persistent) && Truthy(Lookup(persistent, "token"))
                        && !IsLodashObject(Lookup(options, "headers"))
    ensures r.Err? ==> r.exn == TypeError
    ensures r.Ok? ==> forall k :: k != "headers" && k != "params" ==> Lookup(r.value, k) == Lookup(options, k)
    ensures r.Ok? && AppliesPersistent(options, persistent) ==>
      Lookup(r.value, "params") == Obj(MergedParams(if Truthy(Lookup(persistent, "token")) then persistent - {"token"} else persistent,
                                                    Lookup(options, "params")))
    ensures r.Ok? && AppliesPersistent(options, persistent) && Truthy(Lookup(persistent, "token")) && Lookup(options, "headers").Obj? ==>
      Lookup(r.value, "headers") == Obj(Lookup(options, "headers").props["Authorization" := Str("Bearer " + ToStr(persistent["token"]))])
    ensures r.Ok? && !Truthy(Lookup(persistent, "token")) ==> Lookup(r.value, "headers") == Lookup(options, "headers")
  {
    if !AppliesPersistent(options, persistent) then Ok(options)
    else
      var token := Lookup(persistent, "token");
      var applied := if Truthy(token) then persistent - {"token"} else persistent;
      var headers :- if Truthy(token)
        then SetProp(Lookup(options, "headers"), "Authorization", Str("Bearer " + ToStr(token)))
        else Ok(Lookup(options, "headers"));
      Ok(options["headers" := headers]["params" := Obj(MergedParams(applied, Lookup(options, "params")))])
  }

  /** `reduce(function (map, key) { return map[key]; }, root)` over the path segments. */
  function Walk(node: Value, keys: seq<string>): (r: Try<Value>)
    ensures r.Err? ==> r.exn == TypeError
    decreases keys
  {
    if keys == [] then Ok(node)
    else
      var next :- GetProp(node, keys[0]);
      Walk(next, keys[1..])
  }

  /** The registry entry a dotted path names; a read through a missing intermediate level throws. */
  function GetEndpointFromPath(path: string, endpoints: map<string, Value>): Try<Value>
  {
    Walk(Obj(endpoints), Split(path, '.'))
  }

  predicate NotNullish(v: Value)
  {
    !v.Undefined? && !v.Null?
  }

  /**
   * `getUrl`: host (the caller's, else the environment's) followed by the
   * registry fragment when a dotted path resolves to a truthy value, else by
   * the path itself; nothing when the path is not a string.
   */
  function GetUrl(options: map<string, Value>, endpoints: map<string, Value>, envHost: string): (r: Try<Value>)
    ensures r.Err? ==> r.exn == TypeError
  {
    var host := Or(Lookup(options, "host"), Str(envHost));
    var path := Or(Lookup(options, "endpoint"), Lookup(options, "path"));
    if !path.Str? then Ok(Undefined)
    else
      var endpoint :- if '.' in path.s then GetEndpointFromPath(path.s, endpoints) else Ok(Undefined);
      Ok(Concat(host, Or(endpoint, path)))
  }

  /** `a + b` where `a` is a string or truthy and `b` is truthy or a string. */
  function Concat(a: Value, b: Value): Value
  {
    if a.Str? || b.Str? || !(Truthy(a) && Truthy(b)) then Str(ToStr(a) + ToStr(b)) else Plus(a, b)
  }

  /** A truthy `url` is kept; otherwise it is built by `GetUrl`. */
  function ResolveUrl(options: map<string, Value>, endpoints: map<string, Value>, envHost: string): (r: Try<map<string, Value>>)
    ensures Truthy(Lookup(options, "url")) ==> r == Ok(options)
    ensures !Truthy(Lookup(options, "url")) ==>
      (r.Ok? <==> GetUrl(options, endpoints, envHost).Ok?)
      && (r.Ok? ==> Lookup(r.value, "url") == GetUrl(options, endpoints, envHost).value)
      && (r.Err? ==> r.exn == TypeError)
    ensures r.Ok? ==> forall k :: k != "url" ==> Lookup(r.value, k) == Lookup(options, k)
  {
    if Truthy(Lookup(options, "url")) then Ok(options)
    else
      var url :- GetUrl(options, endpoints, envHost);
      Ok(options["url" := url])
  }

  /** Invokes a function value; the library's own closures are dispatched here, caller code through the runtime. */
  function Invoke(f: FnRef, args: seq<Value>, rt: Runtime): (r: Try<Value>)
    ensures f.User? ==> r == Ok(rt.call(f.id, args))
    ensures r.Err? ==> r.exn == TypeError
  {
    var arg := if |args| > 0 then args[0] else Undefined;
    match f
    case Builtin(name) =>
      if name == "defaultTransformResponse" then Ok(DefaultTransformResponse(arg, rt))
      else if name == "defaultCheckResponse" then DefaultCheckResponse(arg)
      else Ok(Undefined)
    case User(id) => Ok(rt.call(id, args))
  }

  /** A `prepare` function receives a copy of `data` and its result becomes the data. */
  function Prepare(options: map<string, Value>, rt: Runtime): (r: Try<map<string, Value>>)
    ensures !Lookup(options, "prepare").Func? ==> r == Ok(options)
    ensures Lookup(options, "prepare").Func? && Lookup(options, "prepare").fn.User? ==>
      r.Ok? && Lookup(r.value, "data") == rt.call(Lookup(options, "prepare").fn.id, [Lookup(options, "data")])
    ensures r.Err? ==> r.exn == TypeError
    ensures r.Ok? ==> forall k :: k != "data" ==> Lookup(r.value, k) == Lookup(options, k)
  {
    var prepare := Lookup(options, "prepare");
    if prepare.Func? then
      var data :- Invoke(prepare.fn, [Lookup(options, "data")], rt);
      Ok(options["data" := data])
    else Ok(options)
  }

  /** With `formData`, the content type is set to form encoding and the data serialised. */
  function FormData(options: map<string, Value>, rt: Runtime): (r: Try<map<string, Value>>)
    ensures !Truthy(Lookup(options, "formData")) ==> r == Ok(options)
    ensures Truthy(Lookup(options, "formData")) ==>
      (r.Ok? <==> IsLodashObject(Lookup(options, "headers")))
      && (r.Ok? ==> Lookup(r.value, "data") == Str(rt.serializeParams(Lookup(options, "data"))))
      && (r.Ok? && Lookup(options, "headers").Obj? ==>
            Lookup(r.value, "headers") == Obj(Lookup(options, "headers").props["Content-Type" := Str(FormContentType)]))
    ensures r.Err? ==> r.exn == TypeError
    ensures r.Ok? ==> forall k :: k != "data" && k != "headers" ==> Lookup(r.value, k) == Lookup(options, k)
  {
    if Truthy(Lookup(options, "formData")) then
      var headers :- SetProp(Lookup(options, "headers"), "Content-Type", Str(FormContentType));
      Ok(options["headers" := headers]["data" := Str(rt.serializeParams(Lookup(options, "data")))])
    else Ok(options)
  }

  /**
   * `EndpointOptions.new(config)`: the full request descriptor, or the
   * exception building it raised. Verbose-logging reads `config.verbose`
   * first, so a null or undefined config throws.
   */
  function Options(config: Value, persistent: map<string, Value>, endpoints: map<string, Value>, envHost: string, rt: Runtime)
    : (r: Try<map<string, Value>>)
    ensures !NotNullish(config) ==> r == Err(TypeError)
    ensures r.Err? ==> r.exn == TypeError
  {
    if !NotNullish(config) then Err(TypeError)
    else Process(BaseOptions(config, persistent), persistent, endpoints, envHost, rt)
  }

  /** The steps after the merge, in the order the factory runs them. */
  function Process(base: map<string, Value>, persistent: map<string, Value>, endpoints: map<string, Value>,
                   envHost: string, rt: Runtime): (r: Try<map<string, Value>>)
    ensures r.Err? ==> r.exn == TypeError
  {
    var withParams :- ApplyPersistentParams(base, persistent);
    var withUrl :- ResolveUrl(withParams, endpoints, envHost);
    var prepared :- Prepare(withUrl, rt);
    FormData(prepared, rt)
  }

  /** The envelope `{data, error, reason}` every response stage produces. */
  function Envelope(data: Value, error: bool, reason: Value): Value
  {
    Obj(map["data" := data, "error" := Bool(error), "reason" := reason])
  }

  /**
   * Parses the raw response: objects pass through, anything else goes to
   * JSON.parse; null or unparsable input becomes an error envelope.
   */
  function DefaultTransformResponse(raw: Value, rt: Runtime): (r: Value)
    ensures IsAngularObject(raw) ==> r == Envelope(raw, false, Null)
    ensures !IsAngularObject(raw) && rt.parseJson(ToStr(raw)) in {None, Some(Null)} ==>
      r == Envelope(Bool(false), true, Str(ParseErrorReason))
    ensures !IsAngularObject(raw) && rt.parseJson(ToStr(raw)).Some? && rt.parseJson(ToStr(raw)).value != Null ==>
      r == Envelope(rt.parseJson(ToStr(raw)).value, false, Null)
  {
    var parsed := if IsAngularObject(raw) then Some(raw) else rt.parseJson(ToStr(raw));
    if parsed.None? || parsed.value == Null then Envelope(Bool(false), true, Str(ParseErrorReason))
    else Envelope(parsed.value, false, Null)
  }

  /**
   * `delete x.__type` on the result, or on each element when it is an array;
   * deleting a property of a null or undefined element throws.
   */
  function StripType(result: Value): (r: Try<Value>)
    ensures r.Ok? <==> !result.Arr? || forall i :: 0 <= i < |result.elems| ==> NotNullish(result.elems[i])
    ensures r.Err? ==> r.exn == TypeError
    ensures r.Ok? && result.Obj? ==> r.value == Obj(result.props - {"__type"})
    ensures r.Ok? && result.Arr? ==>
      r.value.Arr? && |r.value.elems| == |result.elems|
      && forall i :: 0 <= i < |result.elems| ==>
           r.value.elems[i] == (if result.elems[i].Obj? then Obj(result.elems[i].props - {"__type"}) else result.elems[i])
    ensures r.Ok? && !result.Obj? && !result.Arr? ==> r.value == result
  {
    match result
    case Arr(e) =>
      if forall i :: 0 <= i < |e| ==> NotNullish(e[i])
      then Ok(Arr(seq(|e|, i requires 0 <= i < |e| => DeleteProp(e[i], "__type"))))
      else Err(TypeError)
    case _ => Ok(DeleteProp(result, "__type"))
  }

  /**
   * The AdServer check: `Success === false` or a missing `Result` marks an
   * error with the server's code and message; otherwise the data becomes the
   * `Result` without its `__type` tags. Reading through missing data throws.
   */
  function DefaultCheckResponse(envelope: Value): (r: Try<Value>)
    ensures r.Err? ==> r.exn == TypeError
  {
    var data :- GetProp(envelope, "data");
    if !NotNullish(data) then Err(TypeError)
    else
    var success := Prop(data, "Success");
    var result := Prop(data, "Result");
    if success == Bool(false) || result == Undefined then
      var e1 :- SetProp(envelope, "error", Bool(true));
      var e2 :- SetProp(e1, "errorCode", Prop(data, "ErrorCode"));
      SetProp(e2, "reason", Prop(data, "ErrorMessage"))
    else
      var stripped :- StripType(result);
      SetProp(envelope, "data", stripped)
  }

  /** The defaults survive the first `_.merge` into `{}` unchanged. */
  lemma DefaultsCopied(persistent: map<string, Value>, k: string)
    requires k != "persistentParams"
    ensures Lookup(MergeInto(map[], Obj(Defaults(persistent))), k) == Lookup(Defaults(persistent), k)
  {
    var d := Defaults(persistent);
    MergeObjectProp(map[], d, k);
    if k in d {
      MergeCopiesDefined(d[k]);
    }
  }

  /**
   * After the merge, an option holds the caller's defined value merged over
   * the default, and the default when the caller leaves it out or sets it to
   * undefined.
   */
  lemma BaseOptionsAt(config: Value, persistent: map<string, Value>, k: string)
    requires k != "persistentParams" && k != "headers"
    ensures config.Obj? && k in config.props && config.props[k] != Undefined ==>
      Lookup(BaseOptions(config, persistent), k) == Merge(Lookup(Defaults(persistent), k), config.props[k])
    ensures !(config.Obj? && k in config.props && config.props[k] != Undefined) ==>
      Lookup(BaseOptions(config, persistent), k) == Lookup(Defaults(persistent), k)
  {
    DefaultsCopied(persistent, k);
    var d0 := MergeInto(map[], Obj(Defaults(persistent)));
    if config.Obj? {
      MergeObjectProp(d0, config.props, k);
    }
  }

  /** The options the steps after the merge write to. */
  predicate Processed(k: string)
  {
    k == "headers" || k == "params" || k == "url" || k == "data"
  }

  /** Every step after the merge leaves the other options alone. */
  lemma ProcessKeepsOtherKeys(base: map<string, Value>, persistent: map<string, Value>, endpoints: map<string, Value>,
                              envHost: string, rt: Runtime, k: string)
    requires Process(base, persistent, endpoints, envHost, rt).Ok?
    requires !Processed(k)
    ensures Lookup(Process(base, persistent, endpoints, envHost, rt).value, k) == Lookup(base, k)
  {
    ProcessSteps(base, persistent, endpoints, envHost, rt);
    var withParams := ApplyPersistentParams(base, persistent).value;
    var withUrl := ResolveUrl(withParams, endpoints, envHost).value;
    var prepared := Prepare(withUrl, rt).value;
  }

  /** The same for the whole builder: options other than the four processed ones are those of the merge. */
  lemma OptionsKeepsOtherKeys(config: Value, persistent: map<string, Value>, endpoints: map<string, Value>,
                              envHost: string, rt: Runtime, k: string)
    requires Options(config, persistent, endpoints, envHost, rt).Ok?
    requires !Processed(k)
    ensures Lookup(Options(config, persistent, endpoints, envHost, rt).value, k) == Lookup(BaseOptions(config, persistent), k)
  {
    ProcessKeepsOtherKeys(BaseOptions(config, persistent), persistent, endpoints, envHost, rt, k);
  }

  /** A primitive value the caller gives for an option is the option's value. */
  lemma CallerFieldWins(config: Value, persistent: map<string, Value>, endpoints: map<string, Value>,
                        envHost: string, rt: Runtime, k: string)
    requires Options(config, persistent, endpoints, envHost, rt).Ok?
    requires !Processed(k) && k != "persistentParams" && config.Obj? && k in config.props
    requires config.props[k] != Undefined && !config.props[k].Obj? && !config.props[k].Arr?
    ensures Lookup(Options(config, persistent, endpoints, envHost, rt).value, k) == config.props[k]
  {
    OptionsKeepsOtherKeys(config, persistent, endpoints, envHost, rt, k);
    BaseOptionsAt(config, persistent, k);
  }

  /**
   * An option the caller leaves out (or sets to undefined) takes its default,
   * or stays undefined when there is none.
   */
  lemma UnspecifiedFieldDefaults(config: Value, persistent: map<string, Value>, endpoints: map<string, Value>,
                                 envHost: string, rt: Runtime, k: string)
    requires Options(config, persistent, endpoints, envHost, rt).Ok?
    requires !Processed(k) && k != "persistentParams"
    requires !config.Obj? || k !in config.props || config.props[k] == Undefined
    ensures Lookup(Options(config, persistent, endpoints, envHost, rt).value, k) == Lookup(Defaults(persistent), k)
  {
    OptionsKeepsOtherKeys(config, persistent, endpoints, envHost, rt, k);
    BaseOptionsAt(config, persistent, k);
  }

  /** The merged headers are an object whenever the caller's are one (or absent). */
  lemma MergedHeadersObject(config: Value, persistent: map<string, Value>)
    requires !config.Obj? || Lookup(config.props, "headers") == Undefined || Lookup(config.props, "headers").Obj?
    ensures var m := MergeInto(MergeInto(map[], Obj(Defaults(persistent))), config);
      "headers" in m && m["headers"].Obj?
  {
    var d0 := MergeInto(map[], Obj(Defaults(persistent)));
    DefaultsCopied(persistent, "headers");
    if config.Obj? {
      MergeObjectProp(d0, config.props, "headers");
    }
  }

  /** A header the caller sets to undefined survives the merge, as undefined. */
  lemma BaseUndefinedHeader(config: Value, persistent: map<string, Value>, h: string)
    requires config.Obj? && "headers" in config.props && config.props["headers"].Obj?
    requires h in config.props["headers"].props && config.props["headers"].props[h] == Undefined
    ensures var hb := Lookup(BaseOptions(config, persistent), "headers");
      hb.Obj? && h in hb.props && hb.props[h] == Undefined
  {
    var merged := MergeInto(MergeInto(map[], Obj(Defaults(persistent))), config);
    MergedHeadersObject(config, persistent);
    assert BaseOptions(config, persistent) == CopyUndefinedHeaders(merged, config);
  }

  /** A successful `Process` ran all four steps, and its result is the last one's. */
  lemma ProcessSteps(base: map<string, Value>, persistent: map<string, Value>, endpoints: map<string, Value>,
                     envHost: string, rt: Runtime)
    requires Process(base, persistent, endpoints, envHost, rt).Ok?
    ensures ApplyPersistentParams(base, persistent).Ok?
    ensures ResolveUrl(ApplyPersistentParams(base, persistent).value, endpoints, envHost).Ok?
    ensures Prepare(ResolveUrl(ApplyPersistentParams(base, persistent).value, endpoints, envHost).value, rt).Ok?
    ensures Process(base, persistent, endpoints, envHost, rt)
      == FormData(Prepare(ResolveUrl(ApplyPersistentParams(base, persistent).value, endpoints, envHost).value, rt).value, rt)
  {
  }

  /** `FormData` only ever adds the Content-Type header: every other header keeps its presence and value. */
  lemma FormDataKeepsHeader(options: map<string, Value>, rt: Runtime, h: string)
    requires FormData(options, rt).Ok? && Lookup(options, "headers").Obj? && h != "Content-Type"
    ensures var headers := Lookup(FormData(options, rt).value, "headers");
      headers.Obj? && (h in headers.props <==> h in Lookup(options, "headers").props)
      && Lookup(headers.props, h) == Lookup(Lookup(options, "headers").props, h)
  {
  }

  /** The steps after the merge only ever add the Authorization and Content-Type headers. */
  lemma ProcessKeepsHeader(base: map<string, Value>, persistent: map<string, Value>, endpoints: map<string, Value>,
                           envHost: string, rt: Runtime, h: string)
    requires Process(base, persistent, endpoints, envHost, rt).Ok?
    requires Lookup(base, "headers").Obj? && h != "Authorization" && h != "Content-Type"
    ensures var headers := Lookup(Process(base, persistent, endpoints, envHost, rt).value, "headers");
      var hb := Lookup(base, "headers").props;
      headers.Obj? && (h in headers.props <==> h in hb) && (h in hb ==> headers.props[h] == hb[h])
  {
    var hb := Lookup(base, "headers").props;
    ProcessSteps(base, persistent, endpoints, envHost, rt);
    var withParams := ApplyPersistentParams(base, persistent).value;
    var hp := Lookup(withParams, "headers");
    assert hp.Obj? && (h in hp.props <==> h in hb) && (h in hb ==> hp.props[h] == hb[h]);
    var withUrl := ResolveUrl(withParams, endpoints, envHost).value;
    var prepared := Prepare(withUrl, rt).value;
    assert Lookup(prepared, "headers") == hp;
    FormDataKeepsHeader(prepared, rt, h);
  }

  /** A header the caller sets to undefined is present, as undefined, in the built options. */
  lemma UndefinedHeaderKept(config: Value, persistent: map<string, Value>, endpoints: map<string, Value>,
                            envHost: string, rt: Runtime, h: string)
    requires config.Obj? && "headers" in config.props && config.props["headers"].Obj?
    requires h in config.props["headers"].props && config.props["headers"].props[h] == Undefined
    requires h != "Authorization" && h != "Content-Type"
    requires Options(config, persistent, endpoints, envHost, rt).Ok?
    ensures var headers := Lookup(Options(config, persistent, endpoints, envHost, rt).value, "headers");
      headers.Obj? && h in headers.props && headers.props[h] == Undefined
  {
    BaseUndefinedHeader(config, persistent, h);
    ProcessKeepsHeader(BaseOptions(config, persistent), persistent, endpoints, envHost, rt, h);
  }

  /**
   * The params after processing: without persistent parameters, or with
   * `useToken` or `usePersistentParams` falsy, exactly the merged params;
   * otherwise the caller's params merged over the persistent parameters
   * (less a truthy token).
   */
  lemma ProcessParams(base: map<string, Value>, persistent: map<string, Value>, endpoints: map<string, Value>,
                      envHost: string, rt: Runtime)
    requires Process(base, persistent, endpoints, envHost, rt).Ok?
    ensures var params := Lookup(Process(base, persistent, endpoints, envHost, rt).value, "params");
      && (!AppliesPersistent(base, persistent) ==> params == Lookup(base, "params"))
      && (AppliesPersistent(base, persistent) && Truthy(Lookup(persistent, "token")) ==>
            params == Obj(MergedParams(persistent - {"token"}, Lookup(base, "params"))))
      && (AppliesPersistent(base, persistent) && !Truthy(Lookup(persistent, "token")) ==>
            params == Obj(MergedParams(persistent, Lookup(base, "params"))))
  {
    ProcessSteps(base, persistent, endpoints, envHost, rt);
    var withParams := ApplyPersistentParams(base, persistent).value;
    var withUrl := ResolveUrl(withParams, endpoints, envHost).value;
    var prepared := Prepare(withUrl, rt).value;
    assert Lookup(prepared, "params") == Lookup(withParams, "params");
  }

  /** With a truthy persistent token applied to object headers, the Authorization header is `"Bearer " + token`. */
  lemma ProcessAuthorization(base: map<string, Value>, persistent: map<string, Value>, endpoints: map<string, Value>,
                             envHost: string, rt: Runtime)
    requires Process(base, persistent, endpoints, envHost, rt).Ok?
    requires AppliesPersistent(base, persistent) && Truthy(Lookup(persistent, "token"))
    requires Lookup(base, "headers").Obj?
    ensures var headers := Lookup(Process(base, persistent, endpoints, envHost, rt).value, "headers");
      headers.Obj? && Lookup(headers.props, "Authorization") == Str("Bearer " + ToStr(persistent["token"]))
  {
    ProcessSteps(base, persistent, endpoints, envHost, rt);
    var withParams := ApplyPersistentParams(base, persistent).value;
    var withUrl := ResolveUrl(withParams, endpoints, envHost).value;
    var prepared := Prepare(withUrl, rt).value;
    assert Lookup(prepared, "headers") == Lookup(withParams, "headers");
    assert |"Authorization"| != |"Content-Type"|;
    FormDataKeepsHeader(prepared, rt, "Authorization");
  }

  /** Applying persistent parameters to headers that are not an object throws. */
  lemma ProcessTokenNeedsObjectHeaders(base: map<string, Value>, persistent: map<string, Value>, endpoints: map<string, Value>,
                                       envHost: string, rt: Runtime)
    requires AppliesPersistent(base, persistent) && Truthy(Lookup(persistent, "token"))
    requires !IsLodashObject(Lookup(base, "headers"))
    ensures Process(base, persistent, endpoints, envHost, rt) == Err(TypeError)
  {
  }

  /**
   * Merging the caller's params over the persistent ones: a defined caller
   * value wins (merged into the persistent one when both are objects), other
   * persistent entries are copied, and nothing else appears.
   */
  lemma CallerParamsWin(applied: map<string, Value>, callerParams: Value, k: string)
    requires callerParams.Obj?
    ensures var r := MergedParams(applied, callerParams);
      && (k in callerParams.props && callerParams.props[k] != Undefined ==>
            k in r && r[k] == Merge(Merge(Undefined, Lookup(applied, k)), callerParams.props[k]))
      && ((k in callerParams.props && callerParams.props[k] != Undefined
            && !callerParams.props[k].Obj? && !callerParams.props[k].Arr?) ==> r[k] == callerParams.props[k])
      && ((k !in callerParams.props || callerParams.props[k] == Undefined) && k in applied && applied[k] != Undefined ==>
            k in r && r[k] == Merge(Undefined, applied[k]))
      && (k in r <==> (k in applied && applied[k] != Undefined) || (k in callerParams.props && callerParams.props[k] != Undefined))
  {
    MergeObjectProp(map[], applied, k);
    MergeObjectProp(MergeInto(map[], Obj(applied)), callerParams.props, k);
  }

  /** A truthy `url` is used unchanged; otherwise the URL is the one `GetUrl` builds from the merged options. */
  lemma ProcessUrl(base: map<string, Value>, persistent: map<string, Value>, endpoints: map<string, Value>,
                   envHost: string, rt: Runtime)
    requires Process(base, persistent, endpoints, envHost, rt).Ok?
    ensures var url := Lookup(Process(base, persistent, endpoints, envHost, rt).value, "url");
      && (Truthy(Lookup(base, "url")) ==> url == Lookup(base, "url"))
      && (!Truthy(Lookup(base, "url")) ==> GetUrl(base, endpoints, envHost).Ok? && url == GetUrl(base, endpoints, envHost).value)
  {
    ProcessSteps(base, persistent, endpoints, envHost, rt);
    var withParams := ApplyPersistentParams(base, persistent).value;
    var withUrl := ResolveUrl(withParams, endpoints, envHost).value;
    var prepared := Prepare(withUrl, rt).value;
    assert Lookup(withParams, "url") == Lookup(base, "url");
    GetUrlReadsHostAndPath(withParams, base, endpoints, envHost);
  }

  /** `GetUrl` depends on the host, endpoint and path options only. */
  lemma GetUrlReadsHostAndPath(a: map<string, Value>, b: map<string, Value>, endpoints: map<string, Value>, envHost: string)
    requires forall k :: k != "headers" && k != "params" ==> Lookup(a, k) == Lookup(b, k)
    ensures GetUrl(a, endpoints, envHost) == GetUrl(b, endpoints, envHost)
  {
    assert Lookup(a, "host") == Lookup(b, "host");
    assert Lookup(a, "path") == Lookup(b, "path");
    assert Lookup(a, "endpoint") == Lookup(b, "endpoint");
  }

  /** A truthy primitive `url` given by the caller is the built URL. */
  lemma AbsoluteUrlWins(config: Value, persistent: map<string, Value>, endpoints: map<string, Value>,
                        envHost: string, rt: Runtime)
    requires Options(config, persistent, endpoints, envHost, rt).Ok?
    requires config.Obj? && "url" in config.props && Truthy(config.props["url"])
    requires !config.props["url"].Obj? && !config.props["url"].Arr?
    ensures Lookup(Options(config, persistent, endpoints, envHost, rt).value, "url") == config.props["url"]
  {
    BaseOptionsAt(config, persistent, "url");
    ProcessUrl(BaseOptions(config, persistent), persistent, endpoints, envHost, rt);
  }

  /** A path that is not a string yields no URL. */
  lemma NonStringPathNoUrl(options: map<string, Value>, endpoints: map<string, Value>, envHost: string)
    requires !Or(Lookup(options, "endpoint"), Lookup(options, "path")).Str?
    ensures GetUrl(options, endpoints, envHost) == Ok(Undefined)
  {
  }

  /** A path without dots is appended to the host as it is. */
  lemma UndottedPathIsLiteral(options: map<string, Value>, endpoints: map<string, Value>, envHost: string)
    requires var path := Or(Lookup(options, "endpoint"), Lookup(options, "path")); path.Str? && '.' !in path.s
    ensures var path := Or(Lookup(options, "endpoint"), Lookup(options, "path"));
      GetUrl(options, endpoints, envHost) == Ok(Str(ToStr(Or(Lookup(options, "host"), Str(envHost))) + path.s))
  {
  }

  /**
   * A dotted path: a truthy registry entry is appended to the host; a falsy or
   * missing one falls back to the literal path; a failed read throws.
   */
  lemma DottedPathLookup(options: map<string, Value>, endpoints: map<string, Value>, envHost: string)
    requires var path := Or(Lookup(options, "endpoint"), Lookup(options, "path")); path.Str? && '.' in path.s
    ensures var path := Or(Lookup(options, "endpoint"), Lookup(options, "path"));
      var host := Or(Lookup(options, "host"), Str(envHost));
      var found := GetEndpointFromPath(path.s, endpoints);
      && (found.Err? ==> GetUrl(options, endpoints, envHost) == Err(TypeError))
      && (found.Ok? && !Truthy(found.value) ==> GetUrl(options, endpoints, envHost) == Ok(Str(ToStr(host) + path.s)))
      && (found.Ok? && Truthy(found.value) ==> GetUrl(options, endpoints, envHost) == Ok(Concat(host, found.value)))
  {
  }

  /** Walking a path in two pieces is walking the first piece, then the second from where it ended. */
  lemma {:induction false} WalkAppend(node: Value, a: seq<string>, b: seq<string>)
    ensures Walk(node, a + b) == (match Walk(node, a) case Ok(mid) => Walk(mid, b) case Err(e) => Err(e))
    decreases a
  {
    if a == [] {
      assert a + b == b;
    } else {
      assert (a + b)[0] == a[0];
      assert (a + b)[1..] == a[1..] + b;
      var step := GetProp(node, a[0]);
      if step.Ok? {
        assert Walk(node, a + b) == Walk(step.value, a[1..] + b);
        assert Walk(node, a) == Walk(step.value, a[1..]);
        WalkAppend(step.value, a[1..], b);
      } else {
        assert Walk(node, a + b) == Err(step.exn);
        assert Walk(node, a) == Err(step.exn);
      }
    }
  }

  /** A key missing from the level the walk has reached reads as undefined. */
  lemma WalkMissingLast(node: Value, keys: seq<string>, parent: Value)
    requires |keys| > 0 && Walk(node, keys[..|keys| - 1]) == Ok(parent)
    requires parent.Obj? && keys[|keys| - 1] !in parent.props
    ensures Walk(node, keys) == Ok(Undefined)
  {
    WalkAppend(node, keys[..|keys| - 1], [keys[|keys| - 1]]);
    assert keys[..|keys| - 1] + [keys[|keys| - 1]] == keys;
  }

  /** Once the walk reads undefined with segments left, the next read throws a TypeError. */
  lemma WalkThroughUndefined(node: Value, keys: seq<string>, i: nat)
    requires i < |keys| && Walk(node, keys[..i]) == Ok(Undefined)
    ensures Walk(node, keys) == Err(TypeError)
  {
    WalkAppend(node, keys[..i], keys[i..]);
    assert keys[..i] + keys[i..] == keys;
  }

  /** A function `prepare` receives the merged data and its result is the data sent, form-encoded when asked. */
  lemma ProcessData(base: map<string, Value>, persistent: map<string, Value>, endpoints: map<string, Value>,
                    envHost: string, rt: Runtime, id: nat)
    requires Process(base, persistent, endpoints, envHost, rt).Ok?
    requires Lookup(base, "prepare") == Func(User(id))
    ensures var data := Lookup(Process(base, persistent, endpoints, envHost, rt).value, "data");
      var prepared := rt.call(id, [Lookup(base, "data")]);
      && (!Truthy(Lookup(base, "formData")) ==> data == prepared)
      && (Truthy(Lookup(base, "formData")) ==> data == Str(rt.serializeParams(prepared)))
  {
    ProcessSteps(base, persistent, endpoints, envHost, rt);
    var withParams := ApplyPersistentParams(base, persistent).value;
    var withUrl := ResolveUrl(withParams, endpoints, envHost).value;
    var prepared := Prepare(withUrl, rt).value;
    assert Lookup(withUrl, "data") == Lookup(base, "data");
    assert Lookup(withUrl, "prepare") == Lookup(base, "prepare");
    assert Lookup(prepared, "formData") == Lookup(base, "formData");
  }

  /** Unparsable or null input, after the default check, is an error whose reason is undefined. */
  lemma UnparsableReasonOverwritten(raw: Value, rt: Runtime)
    requires !IsAngularObject(raw) && rt.parseJson(ToStr(raw)) in {None, Some(Null)}
    ensures DefaultCheckResponse(DefaultTransformResponse(raw, rt)).Ok?
    ensures var e := DefaultCheckResponse(DefaultTransformResponse(raw, rt)).value;
      e.Obj? && e.props["error"] == Bool(true) && e.props["reason"] == Undefined
  {
  }

  /** The default check on a failed AdServer answer: error, the server's code and message as reason. */
  lemma CheckResponseFailure(envelope: map<string, Value>, data: map<string, Value>)
    requires Lookup(envelope, "data") == Obj(data)
    requires Lookup(data, "Success") == Bool(false) || Lookup(data, "Result") == Undefined
    ensures DefaultCheckResponse(Obj(envelope))
      == Ok(Obj(envelope["error" := Bool(true)]["errorCode" := Lookup(data, "ErrorCode")]["reason" := Lookup(data, "ErrorMessage")]))
  {
  }

  /** The default check on a successful answer: the data is the `Result` with `__type` removed. */
  lemma CheckResponseSuccess(envelope: map<string, Value>, data: map<string, Value>)
    requires Lookup(envelope, "data") == Obj(data)
    requires Lookup(data, "Success") != Bool(false) && Lookup(data, "Result") != Undefined
    requires StripType(data["Result"]).Ok?
    ensures DefaultCheckResponse(Obj(envelope)) == Ok(Obj(envelope["data" := StripType(data["Result"]).value]))
  {
  }

  /** The default check throws when the envelope or its data is missing. */
  lemma CheckResponseThrows(envelope: Value)
    requires !envelope.Obj? || !NotNullish(Lookup(envelope.props, "data"))
    requires envelope.Obj? || !envelope.Arr?
    ensures DefaultCheckResponse(envelope) == Err(TypeError)
  {
  }

  /** The module-level state of the factory: the endpoint registry and the persistent parameters. */
  class Registry {
    var persistentParams: map<string, Value>
    var endpoints: map<string, Value>

    constructor ()
      ensures persistentParams == map[] && endpoints == map[]
    {
      persistentParams := map[];
      endpoints := map[];
    }

    /** `setEndpoints`: deep-merges a map of endpoints into the registry, later entries winning. */
    method SetEndpoints(more: Value)
      modifies this
      ensures endpoints == MergeInto(old(endpoints), more)
      ensures persistentParams == old(persistentParams)
    {
      endpoints := MergeInto(endpoints, more);
    }

    method SetPersistentParam(key: string, value: Value)
      modifies this
      ensures persistentParams == old(persistentParams)[key := value]
      ensures endpoints == old(endpoints)
    {
      persistentParams := persistentParams[key := value];
    }

    method UnsetPersistentParam(key: string)
      modifies this
      ensures persistentParams == old(persistentParams) - {key}
      ensures endpoints == old(endpoints)
    {
      persistentParams := persistentParams - {key};
    }

    /** `new(config)` against the current registry and persistent parameters. */
    function New(config: Value, envHost: string, rt: Runtime): Try<map<string, Value>>
      reads this
    {
      Options(config, persistentParams, endpoints, envHost, rt)
    }
  }
}
