/**
 * The `Environment` provider: which of the three deployments (`prod`,
 * `staging`, `dev`) the page talks to. It is decided once, at start-up,
 * from the `?environment=` query parameter, then the `ENVIRONMENT` cookie,
 * then the host name, and a query-parameter or host-name choice is written
 * back to the cookie. The page's location and `document.cookie` are inputs
 * here, and the cookie write is an output.
 */
module Environment {
  import opened Wrappers
  import opened Strings
  import opened JsValue
  import opened Uri

  const Production: string := "prod"
  const Staging: string := "staging"
  const Dev: string := "dev"

  const CookieName: string := "ENVIRONMENT"
  /** The query parameter: the cookie name in lower case. */
  const ParamName: string := "environment"

  /** `isValidEnvValue(value)`: strictly equal to one of the three names. */
  predicate IsValidEnvValue(v: Value)
  {
    v == Str(Production) || v == Str(Staging) || v == Str(Dev)
  }

  /** The deployment a domain (the host name without its first label) belongs to. */
  function DomainEnv(domain: string): (r: Option<string>)
    ensures r.Some? ==> IsValidEnvValue(Str(r.value))
  {
    if domain == "enplug.com" || domain == "enplug.net" then Some(Production)
    else if domain == "enplug.in" then Some(Staging)
    else if domain == "enplug.local" || domain == "enplug.loc" then Some(Dev)
    else None
  }

  /** `getDefault()`: the deployment of the host's domain, production when the domain is unknown. */
  function GetDefault(hostname: string): (env: string)
    ensures IsValidEnvValue(Str(env))
  {
    DomainEnv(AfterFirst(hostname, '.')).GetOr(Production)
  }

  /** Only the first label of the host name is dropped: the rest must be a known domain as a whole. */
  lemma DefaultOfSubdomain(sub: string, domain: string)
    requires '.' !in sub
    ensures GetDefault(sub + "." + domain) == DomainEnv(domain).GetOr(Production)
  {
    var h := sub + "." + domain;
    IndexOfPrefix(sub, '.', domain);
    AfterFirstIsSuffix(h, '.');
    assert h[|sub| + 1..] == domain;
  }

  /** A host name without a dot, such as `localhost`, falls back to production. */
  lemma DefaultWithoutDomain(hostname: string)
    requires '.' !in hostname
    ensures GetDefault(hostname) == Production
  {
    AfterFirstIsSuffix(hostname, '.');
  }

  /** The name field of one `document.cookie` piece: what precedes its first `=`, after trimming. */
  function NameOf(piece: string): string
  {
    Split(Trim(piece), '=')[0]
  }

  /** The value field of one piece: what lies between its first and second `=`, undefined when it has no `=`. */
  function ValueOf(piece: string): Value
  {
    var parts := Split(Trim(piece), '=');
    if |parts| > 1 then Str(parts[1]) else Undefined
  }

  /** The position of the first piece at or after `from` whose name field is `encodedKey`, or the number of pieces when none is. */
  function CookieIndex(pieces: seq<string>, encodedKey: string, from: nat): (i: nat)
    requires from <= |pieces|
    ensures from <= i <= |pieces|
    ensures i < |pieces| ==> NameOf(pieces[i]) == encodedKey
    ensures forall j :: from <= j < i ==> NameOf(pieces[j]) != encodedKey
    decreases |pieces| - from
  {
    if from == |pieces| then from
    else if NameOf(pieces[from]) == encodedKey then from
    else CookieIndex(pieces, encodedKey, from + 1)
  }

  /**
   * The `reduce` over the cookie pieces: the value field of the first piece
   * whose name field is `encodedKey`, or null when no piece has that name.
   */
  function FindCookie(pieces: seq<string>, encodedKey: string): (r: Value)
    ensures r == Null <==> forall j :: 0 <= j < |pieces| ==> NameOf(pieces[j]) != encodedKey
  {
    var i := CookieIndex(pieces, encodedKey, 0);
    if i < |pieces| then ValueOf(pieces[i]) else Null
  }

  /** `getCookie(key)` against the text of `document.cookie`; no key gives null. */
  function GetCookie(key: string, cookie: string): (r: Value)
    ensures key == "" ==> r == Null
    ensures key != "" ==> (r == Null <==>
      forall piece :: piece in Split(cookie, ';') ==> NameOf(piece) != EncodeURIComponent(key))
  {
    if key == "" then Null else FindCookie(Split(cookie, ';'), EncodeURIComponent(key))
  }

  /** The `name=value` field `setCookie` always writes first. */
  function CookiePair(key: string, value: string): string
  {
    EncodeURIComponent(key) + "=" + EncodeURIComponent(value)
  }

  /** Names `setCookie` refuses: the attribute names, in any letter case. */
  predicate ReservedCookieName(key: string)
  {
    EqualsIgnoreAsciiCase(key, "expires") || EqualsIgnoreAsciiCase(key, "max-age") || EqualsIgnoreAsciiCase(key, "path")
    || EqualsIgnoreAsciiCase(key, "domain") || EqualsIgnoreAsciiCase(key, "secure")
  }

  /** The expiry attribute for a truthy `vEnd`: a number is a max-age, a string an expiry date. */
  function Expiry(vEnd: Value): (r: string)
    ensures !Truthy(vEnd) ==> r == ""
    ensures Truthy(vEnd) && vEnd.Num? ==> r == "max-age=" + IntToString(vEnd.n)
    ensures Truthy(vEnd) && vEnd.Str? ==> r == "expires=" + vEnd.s
    ensures !vEnd.Num? && !vEnd.Str? ==> r == ""
  {
    if !Truthy(vEnd) then ""
    else match vEnd
      case Num(n) => "max-age=" + IntToString(n)
      case Str(s) => "expires=" + s
      case _ => ""
  }

  /** `fields.join('; ')`. */
  function JoinFields(fields: seq<string>): string
  {
    if fields == [] then "" else if |fields| == 1 then fields[0] else fields[0] + "; " + JoinFields(fields[1..])
  }

  /**
   * The attribute fields after the pair, each only when given and in this
   * order: the expiry, `domain=`, `path=`, then `secure`.
   */
  function Attributes(vEnd: Value, path: Value, domain: Value, secure: Value): (r: seq<string>)
    ensures var e := if Expiry(vEnd) != "" then 1 else 0;
      var d := e + (if Truthy(domain) then 1 else 0);
      var p := d + (if Truthy(path) then 1 else 0);
      && |r| == p + (if Truthy(secure) then 1 else 0)
      && (e == 1 ==> r[0] == Expiry(vEnd))
      && (Truthy(domain) ==> r[e] == "domain=" + ToStr(domain))
      && (Truthy(path) ==> r[d] == "path=" + ToStr(path))
      && (Truthy(secure) ==> r[p] == "secure")
  {
    var expiry := Expiry(vEnd);
    (if expiry != "" then [expiry] else [])
    + (if Truthy(domain) then ["domain=" + ToStr(domain)] else [])
    + (if Truthy(path) then ["path=" + ToStr(path)] else [])
    + (if Truthy(secure) then ["secure"] else [])
  }

  /**
   * `setCookie(key, value, vEnd, path, domain, secure)`: the text written to
   * `document.cookie`, or None when the call returns `false` and writes
   * nothing (no key, or a key that is an attribute name).
   */
  function SetCookie(key: string, value: Value, vEnd: Value, path: Value, domain: Value, secure: Value): (r: Option<string>)
    ensures r.None? <==> key == "" || ReservedCookieName(key)
    ensures r.Some? ==>
      var pair := CookiePair(key, ToStr(value));
      r.value == pair || (|r.value| > |pair| && r.value[..|pair| + 1] == pair + ";")
    ensures r.Some? && !Truthy(vEnd) && !Truthy(path) && !Truthy(domain) && !Truthy(secure) ==>
      r.value == CookiePair(key, ToStr(value))
    ensures r.Some? ==>
      var attributes := Attributes(vEnd, path, domain, secure);
      r.value == CookiePair(key, ToStr(value)) + (if attributes == [] then "" else "; " + JoinFields(attributes))
  {
    if key == "" || ReservedCookieName(key) then None
    else
      var pair := CookiePair(key, ToStr(value));
      var attributes := Attributes(vEnd, path, domain, secure);
      JoinFieldsCons(pair, attributes);
      Some(JoinFields([pair] + attributes))
  }

  /** Joining a first field to the rest puts `"; "` between them, unless there is no rest. */
  lemma JoinFieldsCons(head: string, rest: seq<string>)
    ensures var r := JoinFields([head] + rest);
      && r == head + (if rest == [] then "" else "; " + JoinFields(rest))
      && (r == head || (|r| > |head| && r[..|head| + 1] == head + ";"))
  {
    assert ([head] + rest)[1..] == rest;
    if rest != [] {
      var r := head + "; " + JoinFields(rest);
      assert r[..|head| + 1] == head + ";";
    }
  }

  lemma NoSpaceTrim(s: string)
    requires forall i :: 0 <= i < |s| ==> !IsJsSpace(s[i])
    ensures Trim(s) == s
  {
    assert TrimStart(s) == s;
  }

  /** An encoded string has neither `;`, `=` nor white space in it. */
  lemma EncodedIsPlain(s: string)
    ensures ';' !in EncodeURIComponent(s) && '=' !in EncodeURIComponent(s)
    ensures forall i :: 0 <= i < |EncodeURIComponent(s)| ==> !IsJsSpace(EncodeURIComponent(s)[i])
  {
    EncodedAlphabet(s);
  }

  lemma SplitPlainPair(name: string, value: string)
    requires '=' !in name && '=' !in value
    ensures Split(name + "=" + value, '=') == [name, value]
  {
    SplitJoin([name, value], '=');
    assert [name, value][1..] == [value];
    assert Join([name, value], '=') == name + "=" + value;
  }

  lemma TrimPlainPair(name: string, value: string)
    requires forall i :: 0 <= i < |name| ==> !IsJsSpace(name[i])
    requires forall i :: 0 <= i < |value| ==> !IsJsSpace(value[i])
    ensures Trim(name + "=" + value) == name + "=" + value
  {
    var piece := name + "=" + value;
    forall i | 0 <= i < |piece| ensures !IsJsSpace(piece[i]) {
      if i < |name| {
        assert piece[i] == name[i];
      } else if i > |name| {
        assert piece[i] == value[i - |name| - 1];
      }
    }
    NoSpaceTrim(piece);
  }

  /** A piece `name=value` without white space or a second `=` has that name and that value. */
  lemma PieceOfPlainPair(name: string, value: string)
    requires '=' !in name && '=' !in value
    requires forall i :: 0 <= i < |name| ==> !IsJsSpace(name[i])
    requires forall i :: 0 <= i < |value| ==> !IsJsSpace(value[i])
    ensures NameOf(name + "=" + value) == name
    ensures ValueOf(name + "=" + value) == Str(value)
  {
    TrimPlainPair(name, value);
    SplitPlainPair(name, value);
  }

  /** The piece `setCookie` writes has the encoded key as its name and the encoded value as its value. */
  lemma PieceOfPair(key: string, value: string)
    ensures NameOf(CookiePair(key, value)) == EncodeURIComponent(key)
    ensures ValueOf(CookiePair(key, value)) == Str(EncodeURIComponent(value))
  {
    EncodedIsPlain(key);
    EncodedIsPlain(value);
    PieceOfPlainPair(EncodeURIComponent(key), EncodeURIComponent(value));
  }

  /** The first piece of a cookie text that starts with a `;`-free piece is that piece. */
  lemma FirstPiece(piece: string, rest: string)
    requires ';' !in piece
    ensures Split(piece, ';') == [piece]
    ensures Split(piece + ";" + rest, ';')[0] == piece
  {
    assert IndexOf(piece, ';') == |piece|;
    IndexOfPrefix(piece, ';', rest);
    var text := piece + [';'] + rest;
    assert text[..|piece|] == piece;
    assert piece + ";" + rest == text;
  }

  /** The pair `setCookie` writes reads back as the encoded value, whatever attributes follow it. */
  lemma PairReadsBack(key: string, value: string, rest: string)
    requires key != ""
    ensures GetCookie(key, CookiePair(key, value)) == Str(EncodeURIComponent(value))
    ensures GetCookie(key, CookiePair(key, value) + ";" + rest) == Str(EncodeURIComponent(value))
  {
    var pair := CookiePair(key, value);
    PieceOfPair(key, value);
    EncodedIsPlain(key);
    EncodedIsPlain(value);
    assert ';' !in pair;
    FirstPiece(pair, rest);
  }

  /** Whatever `setCookie` writes for a key reads back, with `getCookie`, as the encoded value. */
  lemma SetThenGet(key: string, value: Value, vEnd: Value, path: Value, domain: Value, secure: Value)
    requires SetCookie(key, value, vEnd, path, domain, secure).Some?
    ensures GetCookie(key, SetCookie(key, value, vEnd, path, domain, secure).value) == Str(EncodeURIComponent(ToStr(value)))
  {
    var w := SetCookie(key, value, vEnd, path, domain, secure).value;
    var pair := CookiePair(key, ToStr(value));
    if w == pair {
      PairReadsBack(key, ToStr(value), "");
    } else {
      var rest := w[|pair| + 1..];
      assert w == w[..|pair| + 1] + rest;
      PairReadsBack(key, ToStr(value), rest);
    }
  }

  /** The pattern `[?&]name=` matches at position `j` of the search string. */
  predicate MatchAt(search: string, name: string, j: nat)
  {
    j + |name| + 2 <= |search| && search[j] in {'?', '&'}
    && search[j + 1..j + 1 + |name|] == name && search[j + 1 + |name|] == '='
  }

  /** The leftmost match at or after `from`, as the regular expression engine scans. */
  function FirstMatch(search: string, name: string, from: nat): (r: Option<nat>)
    ensures r.Some? ==> from <= r.value && MatchAt(search, name, r.value)
    ensures forall j :: from <= j && (r.None? || j < r.value) ==> !MatchAt(search, name, j)
    decreases |search| - from
  {
    if from + |name| + 2 > |search| then None
    else if MatchAt(search, name, from) then Some(from)
    else FirstMatch(search, name, from + 1)
  }

  /** The length of the run of characters before the first `&` or `#`. */
  function ValueLength(s: string): (n: nat)
    ensures n <= |s|
    ensures forall i :: 0 <= i < n ==> s[i] != '&' && s[i] != '#'
    ensures n < |s| ==> s[n] == '&' || s[n] == '#'
  {
    if s == [] || s[0] == '&' || s[0] == '#' then 0 else 1 + ValueLength(s[1..])
  }

  /** The captured group of a match at `j`: the value up to the next `&` or `#`. */
  function RawValue(search: string, name: string, j: nat): (raw: string)
    requires MatchAt(search, name, j)
    ensures '&' !in raw && '#' !in raw
  {
    var start := j + |name| + 2;
    search[start..start + ValueLength(search[start..])]
  }

  /** `s.replace(/\+/g, ' ')`. */
  function PlusToSpace(s: string): (r: string)
    ensures |r| == |s|
    ensures forall i :: 0 <= i < |s| ==> r[i] == (if s[i] == '+' then ' ' else s[i])
  {
    if s == [] then "" else [if s[0] == '+' then ' ' else s[0]] + PlusToSpace(s[1..])
  }

  /**
   * `getParameterByName(name)` against `location.search`: null when the
   * parameter is absent, else its value with `+` read as a space and
   * percent-escapes decoded; a malformed escape throws a URIError.
   */
  function GetParameterByName(name: string, search: string): (r: Try<Value>)
    ensures r == Ok(Null) <==> forall j :: 0 <= j ==> !MatchAt(search, name, j)
    ensures r.Err? ==> r.exn == URIError
    ensures r.Ok? ==> r.value == Null || r.value.Str?
  {
    match FirstMatch(search, name, 0)
    case None => Ok(Null)
    case Some(j) =>
      match DecodeURIComponent(PlusToSpace(RawValue(search, name, j)))
      case Some(v) => Ok(Str(v))
      case None => Err(URIError)
  }

  /** In `?name=raw` followed by `&`, `#` or nothing, the match is at the front and captures `raw`. */
  lemma RawOfWritten(name: string, raw: string, tail: string)
    requires '&' !in raw && '#' !in raw
    requires tail == [] || tail[0] == '&' || tail[0] == '#'
    ensures var search := "?" + name + "=" + raw + tail;
      FirstMatch(search, name, 0) == Some(0) && RawValue(search, name, 0) == raw
  {
    var search := "?" + name + "=" + raw + tail;
    assert search[1..1 + |name|] == name;
    assert MatchAt(search, name, 0);
    var start := |name| + 2;
    assert search[start..] == raw + tail;
    ValueLengthPrefix(raw, tail);
    assert search[start..start + |raw|] == raw;
  }

  /** A parameter written as `?name=` plus the encoded value, ended by `&`, `#` or the end, reads back as the value. */
  lemma ParameterReadsBack(name: string, value: string, tail: string)
    requires tail == [] || tail[0] == '&' || tail[0] == '#'
    ensures GetParameterByName(name, "?" + name + "=" + EncodeURIComponent(value) + tail) == Ok(Str(value))
  {
    var ev := EncodeURIComponent(value);
    EncodedAlphabet(value);
    assert '&' !in ev && '#' !in ev && '+' !in ev;
    RawOfWritten(name, ev, tail);
    assert PlusToSpace(ev) == ev;
    DecodeEncode(value);
  }

  lemma {:induction false} ValueLengthPrefix(s: string, tail: string)
    requires '&' !in s && '#' !in s
    requires tail == [] || tail[0] == '&' || tail[0] == '#'
    ensures ValueLength(s + tail) == |s|
  {
    if s != [] {
      assert (s + tail)[1..] == s[1..] + tail;
      ValueLengthPrefix(s[1..], tail);
    }
  }

  /** What start-up decides: the environment, and the cookie text it writes, if any. */
  datatype Startup = Startup(env: string, written: Option<string>)

  /** The cookie text `setEnv(env)` writes. */
  function EnvCookie(env: string): string
  {
    CookiePair(CookieName, env)
  }

  /** `setEnv(env)` writes exactly what `setCookie(cookieName, env)` with no attributes writes. */
  lemma EnvCookieIsSetCookie(env: string)
    ensures SetCookie(CookieName, Str(env), Undefined, Undefined, Undefined, Undefined) == Some(EnvCookie(env))
  {
    assert !ReservedCookieName(CookieName) by {
      assert ToLowerAscii(CookieName[1]) != ToLowerAscii("expires"[1]);
      assert |CookieName| != |"max-age"| && |CookieName| != |"path"| && |CookieName| != |"domain"| && |CookieName| != |"secure"|;
    }
  }

  /**
   * The start-up decision on the values read: a valid query parameter wins
   * and is written to the cookie; else a valid cookie value is used as it
   * is; else the host name's default is used and written.
   */
  function Choose(paramValue: Value, cookieValue: Value, hostname: string): (r: Startup)
    ensures IsValidEnvValue(Str(r.env))
    ensures r.written.Some? ==> r.written.value == EnvCookie(r.env)
  {
    if paramValue != Null && IsValidEnvValue(paramValue) then Startup(paramValue.s, Some(EnvCookie(paramValue.s)))
    else if cookieValue != Null && cookieValue != Undefined && IsValidEnvValue(cookieValue) then Startup(cookieValue.s, None)
    else
      var env := GetDefault(hostname);
      Startup(env, Some(EnvCookie(env)))
  }

  /** A valid query parameter decides, whatever the cookie says. */
  lemma ParameterFirst(paramValue: Value, cookieValue: Value, hostname: string)
    requires IsValidEnvValue(paramValue)
    ensures Str(Choose(paramValue, cookieValue, hostname).env) == paramValue
  {
  }

  /** Without a valid query parameter, a valid cookie decides. */
  lemma CookieSecond(paramValue: Value, cookieValue: Value, hostname: string)
    requires !IsValidEnvValue(paramValue) && IsValidEnvValue(cookieValue)
    ensures Str(Choose(paramValue, cookieValue, hostname).env) == cookieValue
  {
  }

  /** With neither, the host name decides. */
  lemma HostLast(paramValue: Value, cookieValue: Value, hostname: string)
    requires !IsValidEnvValue(paramValue) && !IsValidEnvValue(cookieValue)
    ensures Choose(paramValue, cookieValue, hostname).env == GetDefault(hostname)
  {
  }

  /** The cookie is written unless the cookie itself decided. */
  lemma ChooseWrites(paramValue: Value, cookieValue: Value, hostname: string)
    ensures Choose(paramValue, cookieValue, hostname).written.None? <==> !IsValidEnvValue(paramValue) && IsValidEnvValue(cookieValue)
  {
  }

  /**
   * The start-up lookup against the page's `location.search`, host name and
   * `document.cookie`; reading a malformed query parameter throws.
   */
  function Initial(search: string, hostname: string, cookie: string): (r: Try<Startup>)
    ensures r.Err? <==> GetParameterByName(ParamName, search).Err?
  {
    var paramValue :- GetParameterByName(ParamName, search);
    var cookieValue := GetCookie(CookieName, cookie);
    Ok(Choose(paramValue, cookieValue, hostname))
  }

  /**
   * The choice persists: once start-up has written its cookie, a later
   * start-up on any host, with no valid query parameter, reads the same
   * environment back from that cookie and writes nothing.
   */
  lemma ChoicePersists(search: string, hostname: string, cookie: string, search2: string, hostname2: string)
    requires Initial(search, hostname, cookie).Ok? && Initial(search, hostname, cookie).value.written.Some?
    requires GetParameterByName(ParamName, search2).Ok?
    requires !IsValidEnvValue(GetParameterByName(ParamName, search2).value)
    ensures Initial(search2, hostname2, Initial(search, hostname, cookie).value.written.value).Ok?
    ensures Initial(search2, hostname2, Initial(search, hostname, cookie).value.written.value).value
      == Startup(Initial(search, hostname, cookie).value.env, None)
  {
    var first := Initial(search, hostname, cookie).value;
    var env := first.env;
    var w := first.written.value;
    assert w == EnvCookie(env);
    PairReadsBack(CookieName, env, "");
    EnvNamesAreUnreserved(env);
    assert GetCookie(CookieName, w) == Str(env);
    var p2 := GetParameterByName(ParamName, search2).value;
    CookieSecond(p2, Str(env), hostname2);
    ChooseWrites(p2, Str(env), hostname2);
  }

  /** The three names need no escaping in a cookie. */
  lemma EnvNamesAreUnreserved(env: string)
    requires IsValidEnvValue(Str(env))
    ensures EncodeURIComponent(env) == env
  {
    assert forall i :: 0 <= i < |env| ==> 'a' <= env[i] <= 'z';
    EncodeUnreserved(env);
  }

  const StagingAdserver: string := "https://staging-adserver.enplug.in/v1"
  const StagingMonitoring: string := "https://staging-monitoring.enplug.in/v1/edumonitoring/edumonitoring"
  const StagingSocial: string := "https://staging-social.enplug.in/v1"
  const ProdAdserver: string := "https://adservernet.enplug.com/v1"
  const ProdMonitoring: string := "https://monitoring.enplug.com/v1/edumonitoring"
  const ProdSocial: string := "https://social-server.enplug.com/v1"

  /** `hosts()[env]`: the service URLs of one deployment. */
  function Hosts(env: string): (h: map<string, Value>)
    requires IsValidEnvValue(Str(env))
    ensures h.Keys == {"adserver", "monitoring", "social"}
    ensures forall k :: k in h ==> h[k].Str? && h[k].s != ""
  {
    if env == Dev then
      map["adserver" := Str(StagingAdserver), "monitoring" := Str(StagingMonitoring), "social" := Str(StagingSocial)]
    else if env == Staging then
      map["adserver" := Str(StagingAdserver), "monitoring" := Str(StagingMonitoring), "social" := Str(StagingSocial)]
    else
      map["adserver" := Str(ProdAdserver), "monitoring" := Str(ProdMonitoring), "social" := Str(ProdSocial)]
  }

  /** The provider once start-up has chosen its environment. */
  datatype Provider = Provider(current: string)
  {
    ghost predicate Valid()
    {
      IsValidEnvValue(Str(current))
    }

    function Get(): string
    {
      current
    }

    predicate IsProduction()
    {
      Get() == Production
    }

    predicate IsStaging()
    {
      Get() == Staging
    }

    predicate IsDev()
    {
      Get() == Dev
    }

    /**
     * `host(type)`: the URL of the named service of the current deployment
     * (undefined for a name it does not have); without a type, the ad server.
     */
    function Host(serviceType: Value): (r: Value)
      requires Valid()
      ensures !Truthy(serviceType) ==> r == Hosts(current)["adserver"]
      ensures Truthy(serviceType) && ToStr(serviceType) in Hosts(current) ==> r == Hosts(current)[ToStr(serviceType)]
      ensures Truthy(serviceType) && ToStr(serviceType) !in Hosts(current) ==> r == Undefined
    {
      var env := Obj(Hosts(current));
      if Truthy(serviceType) then Prop(env, ToStr(serviceType)) else Or(Prop(env, "adserver"), env)
    }
  }

  /** A provider built by start-up is in exactly one of the three deployments. */
  lemma ExactlyOneDeployment(search: string, hostname: string, cookie: string)
    requires Initial(search, hostname, cookie).Ok?
    ensures var p := Provider(Initial(search, hostname, cookie).value.env);
      p.Valid()
      && (p.IsProduction() || p.IsStaging() || p.IsDev())
      && !(p.IsProduction() && p.IsStaging()) && !(p.IsProduction() && p.IsDev()) && !(p.IsStaging() && p.IsDev())
  {
    assert |Production| == 4 && |Staging| == 7 && |Dev| == 3;
  }

  /** Development and staging share the staging servers; production has its own. */
  lemma DevUsesStagingServers()
    ensures Hosts(Dev) == Hosts(Staging)
    ensures forall k :: k in Hosts(Production) ==> Hosts(Production)[k] != Hosts(Staging)[k]
  {
  }
}
