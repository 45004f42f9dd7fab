# dashboard-utils core in Dafny

This project models the core of `dashboard-utils`, Enplug's AngularJS utility
library, and proves what its code promises. It covers:

- **Request options** (`EndpointOptions`, and the older `LegacyEndpointOptions`):
  - the caller's configuration is merged over the documented defaults;
  - persistent parameters are applied, with a persistent `token` becoming a Bearer `Authorization` header;
  - the URL is resolved against the dotted-path endpoint registry;
  - `prepare` and form encoding are applied;
  - the two default response normalisers (`defaultTransformResponse` and `defaultCheckResponse`);
  - the registry and persistent-parameter state kept between calls.
- **The call pipeline** (`EndpointCall`, `LegacyEndpointCall`). One call runs through:
  - the invalid-URL guard;
  - the `$http` request;
  - `checkResponse`;
  - the error branch, or the `parse` and success branch;
  - the settlement of the promise.

  The transport is an input. A call's outcome is the request sent, the settlement and the trace of callbacks and alerts (`Http`).
- **The `Endpoint` service** (`EndpointService`): a class with the call counter, the history log and the verbose flag.
- **Environment resolution** (`Environment`, using `Uri` for `encodeURIComponent`/`decodeURIComponent`):
  - valid environment names;
  - the host-name default;
  - reading and writing the `ENVIRONMENT` cookie;
  - the `?environment=` query parameter;
  - the start-up precedence (parameter, then cookie, then host name);
  - the host table.
- **Mixins** (`Mixins`):
  - in-place array helpers (`move`, `toggle`, `pushArray`, `sortBy`) on a `JsArray` class;
  - `emptyObject` on a `JsObject` class;
  - the queries `validString`, `capitalize`, `last`, `findOne` and `pluck`.
- **The timer table** (`Timer`): a `Timers` class with the entry map, the pause flag and the index counter. Each cancel event and each timeout going off is an explicit step.
- **Resource filtering** (`Resources`):
  - the state-flag setter;
  - the order-preserving filter by type list and predicate (a method with a loop, proved against a recursive specification);
  - the decision one poll of an uploading resource takes.

JavaScript values are a datatype (`JsValue.Value`). Functions are references, and the behaviour of caller-supplied code comes from a `Runtime` parameter. So do the foreign functions: JSON.parse, `$httpParamSerializerJQLike` and `$.param`. A thrown exception is an `Err` of the JavaScript value thrown. Lodash 3's `_.merge` and `_.assign`, property reads that throw on `null`/`undefined`, ToString, ToNumber, ToPrimitive, the relational `<`, `+` and truthiness are modelled explicitly.

Where the prose documentation and the code disagree, the model follows the code:

- A dotted path whose last segment is missing from the registry does not fail. `getUrl` falls back to `host + path` (src/Endpoint/EndpointOptions.js:203).
- A missing intermediate segment throws a TypeError inside the `reduce` (src/Endpoint/EndpointOptions.js:220-222).
- A transport failure in the newer call hands `undefined` to the error callback and rejects with `undefined`. At src/Endpoint/EndpointCall.js:136-137 the handler reads `error.data`, and `error` names the module's logging function, not the response.

## Model

| member | source | states |
|---|---|---|
| JsValue.MergeObjectProp | src/Endpoint/EndpointOptions.js:94 | `_.merge` of two objects: a defined source property wins (merged into the destination's), an undefined one never overwrites, and the keys are the destination's plus the source's defined ones |
| JsValue.MergeCopiesDefined | src/Endpoint/EndpointOptions.js:94 | merging a value with no undefined entries into nothing reproduces it exactly |
| JsValue.Holes | src/Mixins/module.js:75-78 | the padding `move` pushes: `n` undefined entries |
| JsValue.ToPrimitive | src/Mixins/module.js:136 | an array, object or function operand of `<` becomes a primitive, and its ToNumber is unchanged |
| Strings.IndexOf | src/Endpoint/EndpointOptions.js:197 | the first position of the character, every earlier one different; the length when absent |
| Strings.Split | src/Endpoint/EndpointOptions.js:219 | `split` yields at least one piece and no piece contains the separator |
| Strings.JoinSplit | src/Environment/Environment.js:187 | joining the pieces of a split gives the string back |
| Strings.SplitJoin | src/Endpoint/EndpointOptions.js:219 | splitting a join of separator-free pieces gives the pieces back |
| Strings.AfterFirstIsSuffix | src/Environment/Environment.js:187 | `split('.').slice(1).join('.')` is the text after the first dot, or "" when there is none |
| Strings.NatToString | src/Endpoint/module.js:169 | the decimal spelling of a call number: digits only, no leading zero |
| Strings.ParseIndexOfNat | src/Endpoint/module.js:169 | the property key written for index `n` denotes array index `n` |
| Strings.TrimStart | src/Environment/Environment.js:108 | `trim` keeps a suffix that does not start with white space |
| Strings.TrimEnd | src/Environment/Environment.js:108 | `trim` keeps a prefix that does not end with white space |
| Strings.DigitsToNumber | src/Mixins/module.js:61 | ToNumber of a digit string is the number it spells |
| Strings.NegatedDigitsToNumber | src/Mixins/module.js:61 | ToNumber of `-` and a digit string is the negated number |
| Strings.StringToNumberOfInt | src/Mixins/module.js:136 | ToNumber of the decimal spelling of any integer gives that integer back |
| Strings.StrLessAsymmetric | src/Mixins/module.js:136 | string `<` never holds both ways |
| Strings.StrLessTransitive | src/Mixins/module.js:136 | string `<` is transitive |
| Strings.StrLessTotal | src/Mixins/module.js:136 | two different strings are ordered one way or the other |
| EndpointOptions.CopyUndefinedHeaders | src/Endpoint/EndpointOptions.js:96-107 | putting back undefined headers touches only `headers` |
| EndpointOptions.DefaultsCopied | src/Endpoint/EndpointOptions.js:67-94 | the defaults survive the first merge into `{}` unchanged |
| EndpointOptions.BaseOptionsAt | src/Endpoint/EndpointOptions.js:94 | after the merge an option is the caller's defined value merged over the default, else the default |
| EndpointOptions.MergedHeadersObject | src/Endpoint/EndpointOptions.js:94 | the merged headers are an object whenever the caller's are an object or absent |
| EndpointOptions.BaseUndefinedHeader | src/Endpoint/EndpointOptions.js:96-107 | a header the caller sets to undefined is present, as undefined, after the merge |
| EndpointOptions.ApplyPersistentParams | src/Endpoint/EndpointOptions.js:112-129 | applied only with persistent params and both `useToken` and `usePersistentParams` truthy. A truthy token becomes `Bearer <token>` in Authorization and leaves the params. The caller's params are merged over the rest. Throws exactly when the token must be written into headers that are not an object |
| EndpointOptions.Walk | src/Endpoint/EndpointOptions.js:220-222 | the `reduce` over the path segments fails only with a TypeError |
| EndpointOptions.WalkAppend | src/Endpoint/EndpointOptions.js:220-222 | walking `a + b` is walking `a`, then `b` from where it ended |
| EndpointOptions.WalkMissingLast | src/Endpoint/EndpointOptions.js:220-222 | a last segment missing from its level reads as undefined |
| EndpointOptions.WalkThroughUndefined | src/Endpoint/EndpointOptions.js:220-222 | once a segment reads undefined, the next read throws a TypeError |
| EndpointOptions.GetUrl | src/Endpoint/EndpointOptions.js:187-207 | `getUrl` can only fail with a TypeError |
| EndpointOptions.NonStringPathNoUrl | src/Endpoint/EndpointOptions.js:192-206 | a path that is not a string yields no URL (undefined) |
| EndpointOptions.UndottedPathIsLiteral | src/Endpoint/EndpointOptions.js:188-203 | a path without a dot is appended to the host as it is; the host is the caller's or the environment's |
| EndpointOptions.DottedPathLookup | src/Endpoint/EndpointOptions.js:197-223 | a dotted path appends a truthy registry entry to the host. A falsy or missing entry falls back to the literal path, and a failed read throws |
| EndpointOptions.GetUrlReadsHostAndPath | src/Endpoint/EndpointOptions.js:187-207 | the URL depends only on `host`, `endpoint` and `path` (not on headers or params) |
| EndpointOptions.ResolveUrl | src/Endpoint/EndpointOptions.js:139-145 | a truthy `url` is kept. Otherwise `url` is what `getUrl` builds, and it fails exactly when that fails. Nothing else changes |
| EndpointOptions.Invoke | src/Endpoint/EndpointCall.js:111 | caller code is called through the runtime; the library's own closures fail only with a TypeError |
| EndpointOptions.Prepare | src/Endpoint/EndpointOptions.js:148-154 | a `prepare` function gets the data and its result becomes the data; nothing else changes |
| EndpointOptions.FormData | src/Endpoint/EndpointOptions.js:156-160 | with `formData`, Content-Type becomes form encoding and the data is serialised. It fails exactly when headers are not an object. Without `formData` nothing changes |
| EndpointOptions.FormDataKeepsHeader | src/Endpoint/EndpointOptions.js:156-160 | form encoding keeps every header other than Content-Type |
| EndpointOptions.Process | src/Endpoint/EndpointOptions.js:111-162 | processing after the merge fails only with a TypeError |
| EndpointOptions.ProcessSteps | src/Endpoint/EndpointOptions.js:111-162 | a successful build ran persistent params, URL, prepare and form data in that order, each succeeding |
| EndpointOptions.Options | src/Endpoint/EndpointOptions.js:94-109 | a null or undefined configuration throws, as verbose logging reads `config.verbose`; every failure is a TypeError |
| EndpointOptions.ProcessKeepsOtherKeys | src/Endpoint/EndpointOptions.js:111-162 | options other than headers, params, url and data are those of the merge |
| EndpointOptions.OptionsKeepsOtherKeys | src/Endpoint/EndpointOptions.js:94-162 | the same for the whole builder, from the configuration |
| EndpointOptions.CallerFieldWins | src/Endpoint/EndpointOptions.js:94 | a primitive value the caller gives for an option is that option's value |
| EndpointOptions.UnspecifiedFieldDefaults | src/Endpoint/EndpointOptions.js:67-94 | an option the caller omits or sets to undefined takes its default |
| EndpointOptions.ProcessKeepsHeader | src/Endpoint/EndpointOptions.js:111-162 | processing adds only Authorization and Content-Type; every other header keeps its presence and value |
| EndpointOptions.UndefinedHeaderKept | src/Endpoint/EndpointOptions.js:96-107 | a header the caller sets to undefined is present, as undefined, in the built options |
| EndpointOptions.ProcessParams | src/Endpoint/EndpointOptions.js:112-129 | when persistent params do not apply, the params are the merged params. Otherwise they are the caller's params merged over the persistent ones, less a truthy token |
| EndpointOptions.ProcessAuthorization | src/Endpoint/EndpointOptions.js:118-121 | an applied truthy token gives `Authorization: Bearer <token>` in the built options |
| EndpointOptions.ProcessTokenNeedsObjectHeaders | src/Endpoint/EndpointOptions.js:118-119 | an applied token with non-object headers makes the builder throw |
| EndpointOptions.CallerParamsWin | src/Endpoint/EndpointOptions.js:124 | on a clash the caller's defined param wins. Other persistent entries are copied, and no other key appears |
| EndpointOptions.ProcessUrl | src/Endpoint/EndpointOptions.js:139-145 | the built URL is the caller's truthy `url`, or the one `getUrl` builds |
| EndpointOptions.AbsoluteUrlWins | src/Endpoint/EndpointOptions.js:139-145 | a truthy primitive `url` from the caller is the built URL |
| EndpointOptions.ProcessData | src/Endpoint/EndpointOptions.js:148-158 | the data sent is `prepare`'s result on the merged data, form-serialised when `formData` is set |
| EndpointOptions.DefaultTransformResponse | src/Endpoint/EndpointOptions.js:40-63 | an object passes through as data. Unparsable or null input gives an error envelope with reason "There was an error. Error code: 011.". Otherwise the parsed value is the data |
| EndpointOptions.StripType | src/Endpoint/EndpointOptions.js:244-250 | `__type` is removed from an object result or from each object element. Other values are kept, and a null or undefined element throws |
| EndpointOptions.DefaultCheckResponse | src/Endpoint/EndpointOptions.js:233-254 | the default check fails only with a TypeError |
| EndpointOptions.CheckResponseFailure | src/Endpoint/EndpointOptions.js:237-241 | `Success === false` or no `Result` marks an error with the server's `ErrorCode` and `ErrorMessage` |
| EndpointOptions.CheckResponseSuccess | src/Endpoint/EndpointOptions.js:242-251 | otherwise the data becomes `Result` with `__type` stripped |
| EndpointOptions.CheckResponseThrows | src/Endpoint/EndpointOptions.js:235-237 | a missing envelope or data makes the check throw |
| EndpointOptions.UnparsableReasonOverwritten | src/Endpoint/EndpointOptions.js:237-241 | after the default check, unparsable input is an error whose reason is undefined |
| EndpointOptions.Registry.constructor | src/Endpoint/EndpointOptions.js:30-31 | both the registry and the persistent parameters start empty |
| EndpointOptions.Registry.SetEndpoints | src/Endpoint/EndpointOptions.js:262-264 | deep-merges new endpoints into the registry; persistent parameters unchanged |
| EndpointOptions.Registry.SetPersistentParam | src/Endpoint/EndpointOptions.js:266-268 | sets one persistent parameter; registry unchanged |
| EndpointOptions.Registry.UnsetPersistentParam | src/Endpoint/EndpointOptions.js:270-272 | removes one persistent parameter; registry unchanged |
| EndpointFixtures.SplitTwo | src/Endpoint/EndpointOptions.js:219 | a path of two dot-free segments splits into exactly those two keys |
| EndpointFixtures.EntryLookup | src/Endpoint/EndpointOptions.js:219-222 | a path `group.name` through a registry entry that holds `name` resolves to that fragment |
| EndpointFixtures.VenueLookup | src/Endpoint/constants/Endpoints.js:365-367 | `Venue.r` resolves to `/venueinfo` |
| EndpointFixtures.MissingGroupLookup | src/Endpoint/EndpointOptions.js:219-222 | a path through a missing group throws |
| EndpointFixtures.DottedPathOnly | src/Endpoint/services/EndpointOptions.js:84-96 | both builders give a dotted path the same URL: a failed read throws, a truthy fragment is appended, an empty one falls back to the path |
| EndpointFixtures.VenueUrl | src/Endpoint/constants/Endpoints.js:367 | both builders send `Venue.r` to `host + "/venueinfo"` |
| EndpointFixtures.AuthUrl | src/Endpoint/constants/Endpoints.js:72 | `Auth.r` is falsy, so both builders send it to `host + "Auth.r"` |
| EndpointFixtures.MissingGroupThrows | src/Endpoint/EndpointOptions.js:219-222 | both builders throw on a missing group |
| EndpointFixtures.UndottedUrl | src/Endpoint/EndpointOptions.js:197-203 | the literal path `/venueinfo` is appended as it is |
| EndpointCall.Notify | src/Endpoint/EndpointCall.js:58-77 | a callback is recorded exactly when it is a function; caller code never throws |
| EndpointCall.OnFailed | src/Endpoint/EndpointCall.js:134-137 | a failed transport rejects; caller code gets undefined and the rejection is undefined |
| EndpointCall.OnDelivered | src/Endpoint/EndpointCall.js:107-133 | the handler settles with at most one callback. A resolution carries exactly the success callback with the resolved value, and an error callback only comes with a rejection |
| EndpointCall.Call | src/Endpoint/EndpointCall.js:86-147 | a configuration that cannot be built throws. A non-string URL rejects with "There was an error." and sends no request. A request carries the forwarded options and a string URL. A transport failure, or a transform that throws, settles as the rejection handler does; a delivered and transformed body settles as the fulfilment handler does on it. At most one callback runs |
| EndpointCall.TransportFailureRejectsUndefined | src/Endpoint/EndpointCall.js:134-137 | a transport failure rejects with undefined after handing undefined to the error callback |
| EndpointCall.ErrorEnvelopeRejects | src/Endpoint/EndpointCall.js:109-122 | a checked envelope with truthy `error` rejects with its reason, the error callback gets the envelope, and parse and success do not run |
| EndpointCall.SuccessEnvelopeResolves | src/Endpoint/EndpointCall.js:123-133 | otherwise the call resolves with `parse(data)` (or `data`), which is what the success callback receives |
| EndpointCall.AdServerSuccessResolves | src/Endpoint/EndpointCall.js:99-133 | with the default transform and check, a successful AdServer answer resolves with its `Result` stripped of `__type` |
| EndpointCall.UnparsableBodyRejectsUndefined | src/Endpoint/EndpointCall.js:109-122 | with the defaults, an unparsable body rejects with undefined |
| EndpointService.Stamp | src/Endpoint/module.js:171-172 | writing a property of an object config sets just that property |
| EndpointService.Tagged | src/Endpoint/module.js:170-172 | an object config gets `verbose = config.verbose \|\| verboseMode` and `id`; the rest is unchanged and non-objects pass through |
| EndpointService.WithMethod | src/Endpoint/module.js:191-220 | `get`/`post`/`delete` overwrite `method` on object configs only |
| EndpointService.HistoryArray | src/Endpoint/module.js:165-169 | slot 0, never written, reads undefined and slot `n` holds the config of call `n` |
| EndpointService.Endpoint.constructor | src/Endpoint/module.js:163-165 | no calls yet, verbose off, empty history |
| EndpointService.Endpoint.Execute | src/Endpoint/module.js:167-179 | every call, valid or not, increments the counter by one and logs the config as given. An object config is tagged and sent; anything else sends nothing |
| EndpointService.Endpoint.Send | src/Endpoint/module.js:191-220 | forces the method, then executes |
| EndpointService.Endpoint.Verbose | src/Endpoint/module.js:222-225 | sets the verbose flag only |
| EndpointService.Endpoint.GetHistory | src/Endpoint/module.js:227-229 | returns the history array of the calls made |
| LegacyEndpointOptions.Extend | src/Endpoint/services/EndpointOptions.js:37 | `_.extend` adds the source's properties to an object and leaves other values alone |
| LegacyEndpointOptions.GetToken | src/Endpoint/services/EndpointOptions.js:111-113 | the root user's token when `admin` is truthy, the target's otherwise. A missing user throws |
| LegacyEndpointOptions.AddToken | src/Endpoint/services/EndpointOptions.js:36-38 | with `useToken`, the params (shared with the caller) get the token. Nothing else changes, and the caller is written only through params and headers |
| LegacyEndpointOptions.GetUrl | src/Endpoint/services/EndpointOptions.js:84-96 | a path that is neither a string nor an array throws |
| LegacyEndpointOptions.ResolveUrl | src/Endpoint/services/EndpointOptions.js:46-48 | a truthy `url` is kept; otherwise `url` becomes what GetUrl builds, failing exactly when GetUrl does, and nothing else changes |
| LegacyEndpointOptions.Invoke | src/Endpoint/services/EndpointCall.js:55 | caller code runs through the runtime; failures are TypeErrors |
| LegacyEndpointOptions.Prepare | src/Endpoint/services/EndpointOptions.js:50-54 | `prepare`'s result on the data becomes the data; nothing else changes |
| LegacyEndpointOptions.FormData | src/Endpoint/services/EndpointOptions.js:55-58 | with `formData`, object headers (shared with the caller) get `Content-Type: application/x-www-form-urlencoded` and the data is `$.param`-encoded; it fails exactly on non-object headers, and nothing else changes |
| LegacyEndpointOptions.Process | src/Endpoint/services/EndpointOptions.js:36-59 | processing fails only with a TypeError |
| LegacyEndpointOptions.GetUrlReadsHostAndPath | src/Endpoint/services/EndpointOptions.js:84-96 | the URL depends on host, endpoint and path only, so writing the token into params leaves it alone |
| LegacyEndpointOptions.ProcessUrl | src/Endpoint/services/EndpointOptions.js:46-48 | the URL sent is the caller's truthy `url`, or else the one GetUrl builds from the assigned options |
| LegacyEndpointOptions.ProcessData | src/Endpoint/services/EndpointOptions.js:50-58 | the data sent is `prepare`'s result on the caller's data, `$.param`-encoded when `formData` is truthy |
| LegacyEndpointOptions.ProcessHeaders | src/Endpoint/services/EndpointOptions.js:55-57 | object headers are sent as given, with only the form Content-Type added under `formData` |
| LegacyEndpointOptions.Options | src/Endpoint/services/EndpointOptions.js:6-60 | the older builder fails only with a TypeError |
| LegacyEndpointOptions.CheckResponse | src/Endpoint/services/EndpointOptions.js:151-168 | the older check fails only with a TypeError |
| LegacyEndpointOptions.ProcessKeepsOtherKeys | src/Endpoint/services/EndpointOptions.js:36-59 | options other than params, url, data and headers are those of the assign |
| LegacyEndpointOptions.CallerValueReplacesDefault | src/Endpoint/services/EndpointOptions.js:34 | the caller's own property is the option, undefined included; otherwise the default |
| LegacyEndpointOptions.TokenInjected | src/Endpoint/services/EndpointOptions.js:36-38 | the params are the caller's plus `token` (overwriting any caller token): root when `admin`, target otherwise |
| LegacyEndpointOptions.MissingUserThrows | src/Endpoint/services/EndpointOptions.js:112 | with `useToken`, a missing user makes the builder throw |
| LegacyEndpointOptions.NoTokenParamsUntouched | src/Endpoint/services/EndpointOptions.js:36 | with `useToken` falsy the params are as given |
| LegacyEndpointOptions.CallerSharesParamsAndHeaders | src/Endpoint/services/EndpointOptions.js:34-58 | the caller's own params and headers end up equal to those sent; nothing else of the caller changes |
| LegacyEndpointOptions.CheckResponseFailure | src/Endpoint/services/EndpointOptions.js:154-156 | a failed answer marks an error with `ErrorMessage` and no error code |
| LegacyEndpointOptions.CheckResponseSuccess | src/Endpoint/services/EndpointOptions.js:157-165 | otherwise `data` becomes the `Result` stripped of `__type` |
| LegacyEndpointOptions.CheckResponseThrows | src/Endpoint/services/EndpointOptions.js:151-154 | a null or undefined envelope or `data` throws a TypeError |
| LegacyEndpointOptions.NonStringPathThrows | src/Endpoint/services/EndpointOptions.js:86-89 | a non-string, non-array path throws in the older builder and yields no URL in the newer |
| LegacyEndpointOptions.StringPathAgrees | src/Endpoint/services/EndpointOptions.js:84-96 | on string paths both builders form the same URL |
| LegacyEndpointCall.ErrorAlertMessage | src/Endpoint/services/EndpointCall.js:28-30 | alert text: the configured message unless null. Otherwise the object data's truthy `reason`, else "Something went wrong. Error code 103." |
| LegacyEndpointCall.Notify | src/Endpoint/services/EndpointCall.js:10-37 | a callback is recorded exactly when it is a function |
| LegacyEndpointCall.ErrorCallback | src/Endpoint/services/EndpointCall.js:25-37 | an error alert unless `errorMessage === false`, then the error callback |
| LegacyEndpointCall.SuccessCallback | src/Endpoint/services/EndpointCall.js:10-18 | a success alert unless `successMessage` is null, then the success callback |
| LegacyEndpointCall.OnFailed | src/Endpoint/services/EndpointCall.js:75-79 | a failure rejects after the error callback has run on the data |
| LegacyEndpointCall.OnDelivered | src/Endpoint/services/EndpointCall.js:53-74 | settles with at most one callback; a resolution ran the success alert and callback on the resolved value. The exact settlement is stated by ErrorEnvelopeRejects and SuccessEnvelopeResolves |
| LegacyEndpointCall.Call | src/Endpoint/services/EndpointCall.js:42-80 | options that cannot be built throw. Otherwise the request always goes out with the forwarded options. A delivered answer whose transform succeeds settles as the fulfilment handler does on the transformed body; any other answer settles as the rejection handler does on its (transformed) data. At most one callback runs |
| LegacyEndpointCall.ErrorAlerts | src/Endpoint/services/EndpointCall.js:25-37 | no alert when `errorMessage === false`; otherwise the alert comes first. The error callback runs exactly when it is a function |
| LegacyEndpointCall.FailureWithoutDataThrows | src/Endpoint/services/EndpointCall.js:78 | a failure without data rejects with the TypeError of reading `reason` |
| LegacyEndpointCall.FailureRejectsWithReason | src/Endpoint/services/EndpointCall.js:78 | a failure with data rejects with `data.reason` |
| LegacyEndpointCall.ErrorEnvelopeRejects | src/Endpoint/services/EndpointCall.js:54-65 | a checked envelope with truthy `error` rejects with its `reason`, after the error alert and the error callback on the envelope |
| LegacyEndpointCall.SuccessEnvelopeResolves | src/Endpoint/services/EndpointCall.js:66-74 | otherwise the call resolves with `parse(data)` (or `data`), after the success alert and the success callback on that value |
| LegacyEndpointCall.AdServerSuccessResolves | src/Endpoint/services/EndpointCall.js:53-74 | with the older default transform and check, a successful AdServer answer resolves with its `Result` stripped of `__type` |
| Uri.DecodeEncode | src/Environment/Environment.js:88 | `decodeURIComponent(encodeURIComponent(s)) == s` for every string |
| Uri.EncodeUnreserved | src/Environment/Environment.js:147 | unreserved text is encoded as itself |
| Uri.EncodedAlphabet | src/Environment/Environment.js:147 | encoded text contains only unreserved characters and `%` |
| Uri.MalformedFails | src/Environment/Environment.js:88 | a lone `%`, a bad hex digit, a stray continuation byte, an overlong form and an encoded surrogate all throw |
| Uri.DecodeURIComponent | src/Environment/Environment.js:88 | text without `%` decodes to itself |
| Environment.DomainEnv | src/Environment/Environment.js:56-62 | every mapped domain names a valid environment |
| Environment.GetDefault | src/Environment/Environment.js:185-196 | the default is always a valid environment |
| Environment.DefaultOfSubdomain | src/Environment/Environment.js:187-195 | only the first label is dropped; the rest must be a known domain, else production |
| Environment.DefaultWithoutDomain | src/Environment/Environment.js:185-196 | a host name without a dot falls back to production |
| Environment.CookieIndex | src/Environment/Environment.js:100-116 | the first cookie piece at or after `from` with the encoded name |
| Environment.FindCookie | src/Environment/Environment.js:100-116 | the `reduce` gives null exactly when no piece has the encoded name |
| Environment.GetCookie | src/Environment/Environment.js:93-117 | no key gives null; otherwise null exactly when no `;`-separated piece of the cookie text carries the encoded key as its name |
| Environment.Expiry | src/Environment/Environment.js:129-144 | a number gives `max-age=n`, a string `expires=s`, a falsy value or any other type nothing |
| Environment.Attributes | src/Environment/Environment.js:149-164 | the attribute fields, each only when given, in the order expiry, `domain=`, `path=`, `secure` |
| Environment.JoinFieldsCons | src/Environment/Environment.js:167 | `join('; ')` puts `"; "` after the first field exactly when more follow |
| Environment.SetCookie | src/Environment/Environment.js:120-168 | false exactly for an empty or reserved key. Otherwise the text is `key=value`, followed by `"; "` and the attribute fields joined by `"; "` when any are given |
| Environment.EncodedIsPlain | src/Environment/Environment.js:147 | an encoded key or value contains no `;`, `=` or white space |
| Environment.PieceOfPair | src/Environment/Environment.js:108 | the written pair reads back as the encoded name and value |
| Environment.PairReadsBack | src/Environment/Environment.js:93-117 | `getCookie` finds the written pair whatever attributes follow it |
| Environment.SetThenGet | src/Environment/Environment.js:93-168 | whatever `setCookie` writes for a key, `getCookie` reads back as the encoded value |
| Environment.FirstMatch | src/Environment/Environment.js:74-75 | the leftmost `[?&]name=` match, no earlier one |
| Environment.ValueLength | src/Environment/Environment.js:74 | the captured value runs up to the first `&` or `#` |
| Environment.PlusToSpace | src/Environment/Environment.js:88 | every `+` becomes a space, all else unchanged |
| Environment.GetParameterByName | src/Environment/Environment.js:69-89 | null exactly without a match. A malformed escape is a URIError, and a result is always null or a string |
| Environment.RawOfWritten | src/Environment/Environment.js:74-75 | in `?name=raw` ended by `&`, `#` or the end, the capture is `raw` |
| Environment.ParameterReadsBack | src/Environment/Environment.js:69-89 | an encoded parameter value reads back as the value |
| Environment.EnvCookieIsSetCookie | src/Environment/Environment.js:265-266 | `setEnv` writes what `setCookie(cookieName, env)` writes |
| Environment.Choose | src/Environment/Environment.js:262-285 | start-up picks a valid environment; any cookie written names it |
| Environment.ParameterFirst | src/Environment/Environment.js:271-274 | a valid query parameter decides |
| Environment.CookieSecond | src/Environment/Environment.js:277-280 | else a valid cookie decides |
| Environment.HostLast | src/Environment/Environment.js:284 | else the host-name default decides |
| Environment.ChooseWrites | src/Environment/Environment.js:265-284 | the cookie is written unless the cookie decided |
| Environment.Initial | src/Environment/Environment.js:262-285 | start-up fails exactly when reading the query parameter throws |
| Environment.ChoicePersists | src/Environment/Environment.js:262-285 | a later start-up without a valid parameter reads the written choice back and writes nothing |
| Environment.EnvNamesAreUnreserved | src/Environment/Environment.js:265-266 | the environment names need no escaping |
| Environment.Hosts | src/Environment/Environment.js:220-238 | each environment has non-empty adserver, monitoring and social URLs |
| Environment.Provider.Host | src/Environment/Environment.js:240-245 | `host(type)` is the named service URL (undefined when there is none), and without a type the ad server |
| Environment.ExactlyOneDeployment | src/Environment/Environment.js:203-218 | after start-up exactly one of `isProduction`, `isStaging`, `isDev` holds |
| Environment.DevUsesStagingServers | src/Environment/Environment.js:220-238 | dev and staging share servers; production's differ |
| Mixins.ValidString | src/Mixins/module.js:56-62 | false for non-strings. A truthy length is a minimum compared after ToNumber, and one that converts to NaN admits nothing; a falsy length asks for a non-empty string |
| Mixins.ValidStringText | src/Mixins/module.js:61 | a minimum length given as text is compared as the number the text spells |
| Mixins.ValidStringNumericText | src/Mixins/module.js:61 | so `validString("abc", "2")` holds: decimal text as the length is its number |
| Mixins.ValidStringOneElementArray | src/Mixins/module.js:61 | a one-element array `[n]` as the length is compared as `n` |
| Mixins.Capitalize | src/Mixins/module.js:287-294 | upper-cases the first character (ASCII letters only) and keeps the rest |
| Mixins.SpliceStart | src/Mixins/module.js:80 | a splice start inside the array is itself; every start is clamped |
| Mixins.Padded | src/Mixins/module.js:73-79 | the loop's padding: the array followed by undefined entries up to index `newIdx` when that is at or past the end |
| Mixins.Moved | src/Mixins/module.js:72-81 | `move` as a function of the array: for a valid `oldIdx`, the result is `newIdx + 1` long when moving past the end and keeps the length otherwise |
| Mixins.MoveInside | src/Mixins/module.js:72-81 | moving inside the array is a permutation that puts the element at `newIdx` and keeps the others in order |
| Mixins.MovePastEnd | src/Mixins/module.js:73-80 | moving past the end pads with undefined to length `newIdx + 1`, the element last |
| Mixins.JsArray.Move | src/Mixins/module.js:72-81 | the array becomes the moved sequence, and the return value is empty |
| Mixins.IndexOfValue | src/Mixins/module.js:188 | `indexOf`: the first (structurally) equal element, or the length when there is none |
| Mixins.Toggled | src/Mixins/module.js:184-197 | `toggle` as a function of the array: an absent value is appended; a present one is removed once, the rest of the multiset unchanged |
| Mixins.ToggleCounts | src/Mixins/module.js:184-197 | toggling removes one `v` if present, else adds one, and leaves other elements alone |
| Mixins.ToggleTwiceAbsent | src/Mixins/module.js:184-197 | toggling an absent value twice restores the array |
| Mixins.JsArray.Toggle | src/Mixins/module.js:184-197 | the array becomes the toggled sequence, and the array itself is returned |
| Mixins.Spread | src/Mixins/module.js:158 | `concat.apply([], arguments)`: every non-array argument occurs in the result and every array argument's elements are all in it |
| Mixins.SpreadScalars | src/Mixins/module.js:158 | without array arguments, exactly the arguments are pushed |
| Mixins.SpreadAppend | src/Mixins/module.js:158 | spreading distributes over concatenation |
| Mixins.JsArray.PushArray | src/Mixins/module.js:153-165 | the spread arguments are appended in order |
| Mixins.JsArray.Last | src/Mixins/module.js:170-178 | the final element, undefined when empty |
| Mixins.Less | src/Mixins/module.js:136 | JS `<`: two strings compare by code points, two numbers numerically, and undefined on either side is never less |
| Mixins.LessAsymmetric | src/Mixins/module.js:136 | `<`, with its string and number conversions, never holds both ways |
| Mixins.LessText | src/Mixins/module.js:136 | a number compared with text that spells a number is compared with that number |
| Mixins.LessNumberText | src/Mixins/module.js:136 | so `1 < "2"` holds, and a number and decimal text compare as numbers both ways round |
| Mixins.CompareBy | src/Mixins/module.js:129-139 | the property comparator returns -1, 0 or 1 |
| Mixins.Compare | src/Mixins/module.js:109-127 | the first property with a non-zero comparison decides |
| Mixins.CompareAntisymmetric | src/Mixins/module.js:109-139 | swapping the operands negates the comparison |
| Mixins.Insert | src/Mixins/module.js:141-147 | insertion adds exactly the element |
| Mixins.InsertSorted | src/Mixins/module.js:141-147 | insertion keeps a sorted sequence sorted |
| Mixins.InsertionSort | src/Mixins/module.js:141-147 | sorting permutes the elements |
| Mixins.InsertionSortSorted | src/Mixins/module.js:141-147 | the sorted result is in comparator order |
| Mixins.DefinedElements | src/Mixins/module.js:141-147 | the elements that are not undefined, with their multiplicities |
| Mixins.SortedResult | src/Mixins/module.js:141-147 | the sort throws only a TypeError and only when an element is null; with no property or no null element it returns |
| Mixins.SortByPermutes | src/Mixins/module.js:141-147 | a `sortBy` that returns permutes the array: defined elements in comparator order, then the undefined ones |
| Mixins.SortByNullThrows | src/Mixins/module.js:136 | a null element beside another defined one makes a sort by any property throw, because its property is read; with no property nothing is read |
| Mixins.JsArray.SortBy | src/Mixins/module.js:141-147 | the array becomes the sorted result and is returned; when the comparator throws, the array is unchanged and the TypeError is thrown |
| Mixins.FirstKey | src/Mixins/module.js:210 | the query's first key is the least key |
| Mixins.JsArray.FindOne | src/Mixins/module.js:203-233 | null exactly when nothing matches; otherwise the first matching element |
| Mixins.Plucked | src/Mixins/module.js:269-278 | plucking throws exactly on a null or undefined element, with a TypeError |
| Mixins.PluckOwned | src/Mixins/module.js:269-278 | when every element owns the property, `pluck` lists those values in order |
| Mixins.Owners | src/Mixins/module.js:273 | the positions of exactly the elements that own the property, in increasing order |
| Mixins.PluckContents | src/Mixins/module.js:269-278 | in general `pluck` lists the own values of exactly the owning elements, in their order; the others are skipped |
| Mixins.JsArray.Pluck | src/Mixins/module.js:266-281 | a non-string query gives `[]`; otherwise the loop yields exactly the plucked result: the own values of the owning elements in order (PluckContents), or a TypeError on a null or undefined element |
| Mixins.JsArray.constructor | src/Mixins/module.js:153-198 | the array holds the given items |
| Mixins.JsObject.constructor | src/Mixins/module.js:38-45 | the object holds the given properties |
| Mixins.JsObject.Empty | src/Mixins/module.js:38-45 | every own property is deleted |
| Timer.Without | src/Timer/Timer.js:25-31 | the entries whose event differs, unchanged |
| Timer.Timers.constructor | src/Timer/Timer.js:10-12 | empty table, not paused, counter 0 |
| Timer.Timers.Add | src/Timer/Timer.js:62-98 | returns the counter, then increments it. `func` runs now exactly when `immediateStart === true`, and the entry is stored and scheduled |
| Timer.Timers.Cancel | src/Timer/Timer.js:14-23 | reports whether the entry existed, removes it, keeps the rest |
| Timer.Timers.CancelTimers | src/Timer/Timer.js:25-31 | removes exactly the entries with that event |
| Timer.Timers.OnLocationChangeStart | src/Timer/Timer.js:44-47 | removes `pageChange` and `resolve` entries |
| Timer.Timers.OnUserUpdated | src/Timer/Timer.js:49-51 | removes `pageChange` entries only |
| Timer.Timers.OnPageHidden | src/Timer/Timer.js:53 | pauses; nothing else changes |
| Timer.Timers.OnPageVisible | src/Timer/Timer.js:54 | unpauses; nothing else changes |
| Timer.Timers.CancelAll | src/Timer/Timer.js:104-110 | the table ends empty and unpaused |
| Timer.Timers.FireAsWritten | src/Timer/Timer.js:63-72 | as written: `func` runs unless paused and a new entry is added. The fired entry stays without a pending timeout |
| Timer.Timers.Fire | src/Timer/Timer.js:63-72 | with the own slot deleted: the table keeps its size and every entry is pending |
| Resources.StateFlag | src/Resources/module.js:48-61 | each of the four states has its flag; other states have none |
| Resources.SetResourceState | src/Resources/module.js:47-63 | throws exactly on null or undefined |
| Resources.SetResourceStateFlags | src/Resources/module.js:47-63 | an object gets exactly its state's flag; other values are unchanged |
| Resources.Types | src/Resources/module.js:20-28 | a single type is a one-element list; a falsy value means no type filter |
| Resources.Admit | src/Resources/module.js:26-38 | the test cannot throw without a throwing filter |
| Resources.AdmitDecides | src/Resources/module.js:26-40 | kept exactly when the type is listed (or there is no list) and the filter returns truthy. A throwing filter throws |
| Resources.Visit | src/Resources/module.js:25-40 | one element is flagged, then tested; either step may throw |
| Resources.Kept | src/Resources/module.js:18-45 | the result is no longer than the input |
| Resources.Flags | src/Resources/module.js:24-25 | every input is flagged, in order |
| Resources.FilterResources | src/Resources/module.js:18-45 | the loop computes the specified filter, and every input gets its flags |
| Resources.KeptIsSubsequence | src/Resources/module.js:18-45 | the result is an order-preserving subsequence of the flagged input |
| Resources.AdmittedAreKept | src/Resources/module.js:26-42 | every flagged input that passes both tests is in the result |
| Resources.KeptOnlyAdmitted | src/Resources/module.js:26-42 | everything in the result is a flagged input that passes both tests |
| Resources.PollStep | src/Resources/module.js:73-84 | `Ready` resolves with the resource, another state checks again, the error callback rejects, and with no callback nothing settles |

## Left out

- Logging: `debug`, `warn`, `error`, `checkForMissingParams`, the absolute-URL warning and `$log` calls. It has no effect on results, except that `debug(config, …)` reads `config.verbose`, which is modelled as the TypeError on a null configuration.
- `$http`, `$q` and `$timeout` are not executed. The transport's answer is a parameter, promises are a `Settlement`, and a timeout going off is the `Fire` step.
- JSON.parse, `$httpParamSerializerJQLike`, `$.param` and the behaviour of caller-supplied functions are fields of the `Runtime` parameter.
- Caller code never throws in the model.
- `Environment.host()`, as used by `getUrl`, is the `envHost` parameter.
- `_.cloneDeep` is the identity: values are immutable here, so the copy `prepare` and `history` receive cannot be changed by the caller's later writes. The newer builder's `_.merge` copies, so no object is shared with the caller there. The older builder's sharing of `params` and `headers` is modelled through `Built.caller`.
- Inherited (prototype) properties, property enumeration order and getters are not modelled. `findOne`'s "first key" is taken to be the least key in string order.
- Numbers are integers: NaN, Infinity, floating point and `-0` are out. So is the `Infinity` and `Date` expiry of `setCookie`.
- Strings are sequences of Unicode scalar values. The lone surrogates for which `encodeURIComponent` throws cannot occur. `length`, `charAt` and `<` therefore count and compare scalar values, where JavaScript counts and compares UTF-16 code units: `validString("😀", 2)` holds in JavaScript (length 2) and not here (Mixins.ValidString), and JavaScript orders `"😀"` before `"\uFFFD"` (0xD83D < 0xFFFD) where Strings.StrLess orders them the other way.
- A function's source text is not modelled in ToString.
- Three limits of the value model: an array hole is an undefined entry, so slot 0 of the endpoint history, which the source never writes (src/Endpoint/module.js:169), is seen by `forEach`, `_.pluck` and `Object.keys` where JavaScript skips it; JsValue.SetProp leaves an array (for a non-index key) or a function unchanged where JavaScript stores the property, which matters for `headers` given as an array or a function in both FormData steps; and a function value owns no properties, so its `length` and `name` are not seen by `pluck` and `findOne`.
- `document.cookie` is the text last written. The browser's cookie jar (merging cookies, expiry, domain and path scoping) is not modelled.
- `getParameterByName` matches `name` literally. The source escapes `[` and `]` and otherwise builds a regular expression from the name; the only name it is given, `environment`, has no special characters.
- The `noisy` loading iframe and its `finally` (src/Endpoint/EndpointCall.js:29-51, 92-96, 138-140), and the `document.domain` assignment at start-up, are left out as DOM side effects.
- The provider's `$get` and the read-only property definitions of the environment names are left out.
- `findWhere` (src/Mixins/module.js:240-260) is left out: it returns an undeclared variable and always throws a ReferenceError.
- `validJSON` is left out: it is a JSON library round-trip.
- `angular.isUndefinedOrNull` appears only as the predicate `Mixins.Nullish`.
- Timer.Timers.Fire: the `resolve` branch, which waits on the promise the callback returns (src/Timer/Timer.js:73-80), is not modelled. The step requires an entry whose event is not `resolve`.
- Timer.Timers.FireAsWritten: the same restriction to entries whose event is not `resolve`.
- The resource service's Endpoint wrappers (`loadGraphics`, `loadResourcesByUser` and the rest, src/Resources/module.js:89 onward) and the scheduling of `checkResourceState` are left out. Only the decision one poll takes is modelled.
- EndpointOptions.GetUrl: its own contract states only the error kind; DottedPathLookup, UndottedPathIsLiteral and NonStringPathNoUrl state its result.
- EndpointOptions.Process: its own contract states only the error kind; ProcessParams, ProcessUrl, ProcessData, ProcessAuthorization and ProcessKeepsHeader state its result.
- EndpointOptions.Options: its own contract states the null-configuration throw and the error kind; OptionsKeepsOtherKeys, CallerFieldWins, UnspecifiedFieldDefaults and UndefinedHeaderKept state its result.
- EndpointOptions.DefaultCheckResponse: its own contract states only the error kind; CheckResponseFailure, CheckResponseSuccess and CheckResponseThrows state its result.
- LegacyEndpointOptions.GetUrl: its own contract states the throw on non-string paths; StringPathAgrees states its result on strings.
- LegacyEndpointOptions.Process: its own contract states only the error kind; TokenInjected and NoTokenParamsUntouched (params), ProcessUrl (url), ProcessData (data), ProcessHeaders (object headers) and ProcessKeepsOtherKeys (everything else) state its result.
- LegacyEndpointOptions.Options: its own contract states only the error kind; CallerValueReplacesDefault and CallerSharesParamsAndHeaders state its result.
- LegacyEndpointOptions.CheckResponse: its own contract states only the error kind; CheckResponseFailure, CheckResponseSuccess and CheckResponseThrows state its result.
- Resources.Kept: its own contract bounds only the length. Its content is stated by KeptIsSubsequence, AdmittedAreKept and KeptOnlyAdmitted.
- Mixins.Capitalize: only ASCII letters are upper-cased. JavaScript's `toUpperCase` applies Unicode's full case mapping, which also maps `é` to `É` and turns `ß` into `SS` (so the result can be longer than the input). Those tables are not part of this model, and neither is `charAt(0)` taking half of a surrogate pair.
- Mixins.IndexOfValue: `indexOf` compares with `===`, which compares objects, arrays and functions by identity. Values here have no identity, so such operands are compared structurally: an equal but distinct object counts as found.
- Mixins.ToggleCounts: the same structural comparison, so toggling an object equal to, but distinct from, an element removes that element where the source appends the new object.
- Mixins.JsArray.Toggle: the same structural comparison as IndexOfValue.
- Mixins.JsArray.FindOne: `item[property] === value` and `item === query` compare object, array and function operands structurally here, not by identity, so an equal but distinct object value matches.
- Mixins.JsArray.SortBy: the order is that of a stable insertion sort. ECMAScript requires a stable sort, which fixes the order when the comparator is consistent; when it is not (elements lacking the property compare equal to everything, and mixed strings and numbers need not be transitive), the order is implementation-defined, and the model picks this one.
- Mixins.CompareBy: the comparator reads undefined from a null operand, where the source throws. The throw is modelled one level up: SortedResult fails before any null element would be compared. A function operand converts through a stand-in for its source text.
- Mixins.Compare: inherits CompareBy's reading of a null operand; SortedResult models the throw.
- Mixins.ValidString: ToNumber of text covers the decimal integer syntax (with white space and a sign). Text spelling a fraction, an exponent, a hexadecimal, binary or octal literal or `Infinity` converts to NaN here, because numbers are integers in this model.
- Mixins.Less: the same ToNumber of text as ValidString.
- EndpointCall.Transform and LegacyEndpointCall.Transform: Angular also accepts an array of functions as `transformResponse` and applies them in turn. Only a single function is modelled; any other value leaves the body as it is.
- The upload, confirm, browser and Apps services, the endpoint constant files (two entries serve as fixtures) and the build scripts are not part of this model.

## Findings

| source | as written | input that shows it | evidently intended | confidence | as-written member | corrected member |
|---|---|---|---|---|---|---|
| src/Timer/Timer.js:68 | when a timeout goes off, its closure deletes `timers[i]`, where `i` is the module counter: the next unused index, not the timer's own | `add(f, 10, false, 'pageChange')` returns 0. When that timeout goes off, entry 0 stays in the table beside the new entry 1, so `cancel(0)` still reports true and the table grows by one stale entry per firing | delete the fired timer's own entry, so the table holds exactly the pending timers | not executed | Timer.Timers.FireAsWritten | Timer.Timers.Fire |
