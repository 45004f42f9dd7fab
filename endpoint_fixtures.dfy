/**
 * Two entries of the endpoint registry, used to check the lookup rules on
 * concrete paths: `Venue.r` is `/venueinfo`, and `Auth.r` is the empty
 * string, which is falsy and so makes `getUrl` fall back to the literal path.
 */
module EndpointFixtures {
  import opened Wrappers
  import opened JsValue
  import opened Strings
  import EndpointOptions
  import LegacyEndpointOptions

  /** The `Venue` and `Auth` groups of the registry, each with its read fragment `r`. */
  function Registry(): map<string, Value>
  {
    map["Venue" := Obj(map["r" := Str("/venueinfo")]), "Auth" := Obj(map["r" := Str("")])]
  }

  /** A request naming `path` and nothing else. */
  function PathOnly(path: string): map<string, Value>
  {
    map["path" := Str(path)]
  }

  /** A path of two dot-free segments splits back into those segments. */
  lemma SplitTwo(group: string, name: string)
    requires '.' !in group && '.' !in name
    ensures Split(group + "." + name, '.') == [group, name]
  {
    var parts := [group, name];
    assert Join(parts[1..], '.') == name;
    assert Join(parts, '.') == group + "." + name;
    SplitJoin(parts, '.');
  }

  /** A two-segment path reads the group from the registry, then the fragment from the group. */
  lemma LookupTwo(path: string, group: string, name: string, endpoints: map<string, Value>)
    requires Split(path, '.') == [group, name]
    ensures EndpointOptions.GetEndpointFromPath(path, endpoints)
      == if group in endpoints then GetProp(endpoints[group], name) else Err(TypeError)
  {
    var keys := [group, name];
    assert keys[1..] == [name] && keys[1..][1..] == [];
    var first := Prop(Obj(endpoints), group);
    assert EndpointOptions.Walk(Obj(endpoints), keys) == EndpointOptions.Walk(first, [name]);
    assert EndpointOptions.Walk(first, [name]) == match GetProp(first, name) case Ok(v) => Ok(v) case Err(e) => Err(e);
  }

  /** A path `group.name` through a registry entry holding `name` resolves to that fragment. */
  lemma EntryLookup(group: string, name: string, entry: map<string, Value>, endpoints: map<string, Value>)
    requires '.' !in group && '.' !in name
    requires group in endpoints && endpoints[group] == Obj(entry) && name in entry
    ensures EndpointOptions.GetEndpointFromPath(group + "." + name, endpoints) == Ok(entry[name])
  {
    SplitTwo(group, name);
    LookupTwo(group + "." + name, group, name, endpoints);
  }

  /** The dotted path `Venue.r` resolves to its registry fragment. */
  lemma VenueLookup()
    ensures EndpointOptions.GetEndpointFromPath("Venue.r", Registry()) == Ok(Str("/venueinfo"))
  {
    EntryLookup("Venue", "r", map["r" := Str("/venueinfo")], Registry());
    assert "Venue" + "." + "r" == "Venue.r";
  }

  lemma MissingGroupLookup()
    ensures EndpointOptions.GetEndpointFromPath("Nope.r", Registry()) == Err(TypeError)
  {
    SplitTwo("Nope", "r");
    assert "Nope" + "." + "r" == "Nope.r";
    assert "Nope" !in Registry();
    LookupTwo("Nope.r", "Nope", "r", Registry());
  }

  /**
   * `getUrl` for a request naming only a dotted path, in both versions: a
   * failed lookup throws, an empty fragment leaves the literal path, and any
   * other string fragment follows the host.
   */
  lemma DottedPathOnly(path: string, endpoints: map<string, Value>, host: string)
    requires '.' in path
    ensures var found := EndpointOptions.GetEndpointFromPath(path, endpoints);
      var url := EndpointOptions.GetUrl(PathOnly(path), endpoints, host);
      && LegacyEndpointOptions.GetUrl(PathOnly(path), endpoints, host) == url
      && (found.Err? ==> url == Err(TypeError))
      && (found.Ok? && found.value.Str? ==> url == Ok(Str(host + if found.value.s == "" then path else found.value.s)))
  {
    var options := PathOnly(path);
    assert Lookup(options, "endpoint") == Undefined && Lookup(options, "path") == Str(path);
    assert Or(Lookup(options, "endpoint"), Lookup(options, "path")) == Str(path);
    assert Or(Lookup(options, "host"), Str(host)) == Str(host);
    EndpointOptions.DottedPathLookup(options, endpoints, host);
    LegacyEndpointOptions.StringPathAgrees(options, endpoints, host);
  }

  /** A request for `Venue.r` goes to the host followed by `/venueinfo`, in both versions. */
  lemma VenueUrl(host: string)
    ensures EndpointOptions.GetUrl(PathOnly("Venue.r"), Registry(), host) == Ok(Str(host + "/venueinfo"))
    ensures LegacyEndpointOptions.GetUrl(PathOnly("Venue.r"), Registry(), host) == Ok(Str(host + "/venueinfo"))
  {
    VenueLookup();
    assert "Venue.r"[5] == '.';
    DottedPathOnly("Venue.r", Registry(), host);
  }

  /** `Auth.r` is the empty string, so the URL ends in the literal path `Auth.r`, in both versions. */
  lemma AuthUrl(host: string)
    ensures EndpointOptions.GetUrl(PathOnly("Auth.r"), Registry(), host) == Ok(Str(host + "Auth.r"))
    ensures LegacyEndpointOptions.GetUrl(PathOnly("Auth.r"), Registry(), host) == Ok(Str(host + "Auth.r"))
  {
    EntryLookup("Auth", "r", map["r" := Str("")], Registry());
    assert "Auth" + "." + "r" == "Auth.r";
    assert "Auth.r"[4] == '.';
    DottedPathOnly("Auth.r", Registry(), host);
  }

  /** A path through a group the registry lacks reads a property of undefined and throws, in both versions. */
  lemma MissingGroupThrows(host: string)
    ensures EndpointOptions.GetUrl(PathOnly("Nope.r"), Registry(), host) == Err(TypeError)
    ensures LegacyEndpointOptions.GetUrl(PathOnly("Nope.r"), Registry(), host) == Err(TypeError)
  {
    MissingGroupLookup();
    assert "Nope.r"[4] == '.';
    DottedPathOnly("Nope.r", Registry(), host);
  }

  /** A path with no dot is used as written, whatever the registry holds. */
  lemma UndottedUrl(host: string)
    ensures EndpointOptions.GetUrl(PathOnly("/venueinfo"), Registry(), host) == Ok(Str(host + "/venueinfo"))
  {
    assert '.' !in "/venueinfo";
  }
}
