/**
 * The resource service's pure core: setting the state flags of a resource,
 * filtering a list of resources by type and by a caller's predicate, and
 * the decision each poll of an uploaded resource takes.
 */
module Resources {
  import opened Wrappers
  import opened JsValue
  import opened Http
  import EndpointOptions

  /** The flag `setResourceState` raises for a `ResourceState`, if any. */
  function StateFlag(state: Value): (r: Option<string>)
    ensures state == Str("Ready") <==> r == Some("isReady")
    ensures state == Str("Uploaded") <==> r == Some("isUploaded")
    ensures state == Str("Encoded") <==> r == Some("isEncoded")
    ensures state == Str("Error") <==> r == Some("isError")
    ensures r.None? <==> state !in {Str("Ready"), Str("Uploaded"), Str("Encoded"), Str("Error")}
  {
    if state == Str("Ready") then Some("isReady")
    else if state == Str("Uploaded") then Some("isUploaded")
    else if state == Str("Encoded") then Some("isEncoded")
    else if state == Str("Error") then Some("isError")
    else None
  }

  /**
   * `setResourceState(resource)`: raises the flag of its state and returns
   * the same resource; reading the state of null or undefined throws.
   */
  function SetResourceState(resource: Value): (r: Try<Value>)
    ensures r.Err? <==> !EndpointOptions.NotNullish(resource)
    ensures r.Err? ==> r.exn == TypeError
  {
    var state :- GetProp(resource, "ResourceState");
    match StateFlag(state)
    case Some(flag) => SetProp(resource, flag, Bool(true))
    case None => Ok(resource)
  }

  /** An object gets exactly the flag of its state and nothing else; any other value comes back unchanged. */
  lemma SetResourceStateFlags(resource: Value)
    requires EndpointOptions.NotNullish(resource)
    ensures resource.Obj? ==>
      SetResourceState(resource).value.Obj?
      && (var flag := StateFlag(Prop(resource, "ResourceState"));
          if flag.Some? then SetResourceState(resource).value.props == resource.props[flag.value := Bool(true)]
          else SetResourceState(resource).value == resource)
    ensures !resource.Obj? ==> SetResourceState(resource).value == resource
  {
  }

  /** The type list: a truthy non-array value stands for a list of one; a falsy one means no type filter. */
  function Types(resourceTypes: Value): (r: Option<seq<Value>>)
    ensures !Truthy(resourceTypes) <==> r.None?
    ensures resourceTypes.Arr? ==> r == Some(resourceTypes.elems)
    ensures Truthy(resourceTypes) && !resourceTypes.Arr? ==> r == Some([resourceTypes])
  {
    if !Truthy(resourceTypes) then None
    else if resourceTypes.Arr? then Some(resourceTypes.elems)
    else Some([resourceTypes])
  }

  /**
   * Whether a flagged resource is kept: its type is listed (when there is a
   * list) and the filter (when it is a function, which always runs) returns
   * a truthy value.
   */
  function Admit(resource: Value, types: Option<seq<Value>>, filter: Value, rt: Runtime): (r: Try<bool>)
    ensures !filter.Func? || filter.fn.User? ==> r.Ok?
  {
    var typeOk := types.None? || Prop(resource, "ResourceType") in types.value;
    if filter.Func? then
      var verdict :- EndpointOptions.Invoke(filter.fn, [resource], rt);
      Ok(typeOk && Truthy(verdict))
    else Ok(typeOk)
  }

  /** The verdict is the conjunction of the type test and the filter's truthiness; a throwing filter throws. */
  lemma AdmitDecides(resource: Value, types: Option<seq<Value>>, filter: Value, rt: Runtime)
    ensures var r := Admit(resource, types, filter, rt);
      var typeOk := types.None? || Prop(resource, "ResourceType") in types.value;
      && (!filter.Func? ==> r == Ok(typeOk))
      && (filter.Func? ==>
            (r.Ok? <==> EndpointOptions.Invoke(filter.fn, [resource], rt).Ok?)
            && (r.Ok? ==> (r.value <==> typeOk && Truthy(EndpointOptions.Invoke(filter.fn, [resource], rt).value))))
  {
  }

  /** The resource after `setResourceState`, or as it was when that throws. */
  function Flagged(resource: Value): Value
  {
    match SetResourceState(resource)
    case Ok(v) => v
    case Err(_) => resource
  }

  /** One resource through the filter: flagged, then tested; either step can throw. */
  function Visit(resource: Value, types: Option<seq<Value>>, filter: Value, rt: Runtime): (r: Try<(Value, bool)>)
    ensures r.Ok? ==> SetResourceState(resource) == Ok(r.value.0) && Flagged(resource) == r.value.0
    ensures r.Ok? ==> Admit(r.value.0, types, filter, rt) == Ok(r.value.1)
    ensures r.Err? <==> SetResourceState(resource).Err? || Admit(SetResourceState(resource).value, types, filter, rt).Err?
  {
    var flagged :- SetResourceState(resource);
    var keep :- Admit(flagged, types, filter, rt);
    Ok((flagged, keep))
  }

  /** The filter's result on `resources[from..]`, element by element from the front. */
  function Kept(resources: seq<Value>, from: nat, types: Option<seq<Value>>, filter: Value, rt: Runtime): (r: Try<seq<Value>>)
    requires from <= |resources|
    ensures r.Ok? ==> |r.value| <= |resources| - from
    decreases |resources| - from
  {
    if from == |resources| then Ok([])
    else
      var v :- Visit(resources[from], types, filter, rt);
      var rest :- Kept(resources, from + 1, types, filter, rt);
      Ok(if v.1 then [v.0] + rest else rest)
  }

  /** The flagged resources, in input order. */
  function Flags(resources: seq<Value>): (r: seq<Value>)
    ensures |r| == |resources| && forall i :: 0 <= i < |resources| ==> r[i] == Flagged(resources[i])
  {
    seq(|resources|, i requires 0 <= i < |resources| => Flagged(resources[i]))
  }

  /**
   * One step of the filter: a visit that throws ends it; otherwise the
   * resource at `from` is kept or not and the rest is filtered.
   */
  lemma KeptStep(resources: seq<Value>, from: nat, types: Option<seq<Value>>, filter: Value, rt: Runtime)
    requires from < |resources|
    ensures var v := Visit(resources[from], types, filter, rt);
      && (v.Err? ==> Kept(resources, from, types, filter, rt) == Err(v.exn))
      && (v.Ok? ==> Kept(resources, from, types, filter, rt)
                      == Prepend(if v.value.1 then [v.value.0] else [], Kept(resources, from + 1, types, filter, rt)))
  {
    PrependNil(Kept(resources, from + 1, types, filter, rt));
  }

  /**
   * Where `filterResources` stands before visiting index `i`: `acc` followed
   * by the filter of the rest is the whole result, and `updated` holds the
   * first `i` flagged resources.
   */
  ghost predicate Collected(resources: seq<Value>, i: nat, acc: seq<Value>, updated: seq<Value>,
                            types: Option<seq<Value>>, filter: Value, rt: Runtime)
  {
    i <= |resources|
    && Kept(resources, 0, types, filter, rt) == Prepend(acc, Kept(resources, i, types, filter, rt))
    && updated == Flags(resources)[..i]
  }

  lemma FilterStart(resources: seq<Value>, types: Option<seq<Value>>, filter: Value, rt: Runtime)
    ensures Collected(resources, 0, [], [], types, filter, rt)
  {
    PrependNil(Kept(resources, 0, types, filter, rt));
  }

  /** The loop step of `filterResources`: a visit that throws is the whole result; otherwise the state moves on by one. */
  lemma FilterAdvance(resources: seq<Value>, i: nat, acc: seq<Value>, updated: seq<Value>,
                      types: Option<seq<Value>>, filter: Value, rt: Runtime)
    requires i < |resources| && Collected(resources, i, acc, updated, types, filter, rt)
    ensures var v := Visit(resources[i], types, filter, rt);
      && (v.Err? ==> Kept(resources, 0, types, filter, rt) == Err(v.exn))
      && (v.Ok? ==> Collected(resources, i + 1, acc + (if v.value.1 then [v.value.0] else []), updated + [v.value.0], types, filter, rt))
  {
    KeptStep(resources, i, types, filter, rt);
    var v := Visit(resources[i], types, filter, rt);
    if v.Ok? {
      PrependAssoc(acc, if v.value.1 then [v.value.0] else [], Kept(resources, i + 1, types, filter, rt));
      assert Flags(resources)[..i + 1] == updated + [v.value.0];
    }
  }

  lemma FilterDone(resources: seq<Value>, acc: seq<Value>, updated: seq<Value>, types: Option<seq<Value>>, filter: Value, rt: Runtime)
    requires Collected(resources, |resources|, acc, updated, types, filter, rt)
    ensures Kept(resources, 0, types, filter, rt) == Ok(acc) && updated == Flags(resources)
  {
    assert acc + [] == acc;
    assert Flags(resources)[..|resources|] == Flags(resources);
  }

  /**
   * `filterResources(resources, resourceTypes, filter)`: flags every
   * resource and collects, in order, the ones that pass both tests.
   */
  method FilterResources(resources: seq<Value>, resourceTypes: Value, filter: Value, rt: Runtime)
    returns (r: Try<seq<Value>>, updated: seq<Value>)
    ensures r == Kept(resources, 0, Types(resourceTypes), filter, rt)
    ensures r.Ok? ==> updated == Flags(resources)
  {
    var types := Types(resourceTypes);
    var acc: seq<Value> := [];
    updated := [];
    var i := 0;
    FilterStart(resources, types, filter, rt);
    while i < |resources|
      invariant Collected(resources, i, acc, updated, types, filter, rt)
    {
      FilterAdvance(resources, i, acc, updated, types, filter, rt);
      var v := Visit(resources[i], types, filter, rt);
      if v.Err? {
        return Err(v.exn), updated;
      }
      var (flagged, keep) := v.value;
      updated := updated + [flagged];
      acc := acc + if keep then [flagged] else [];
      i := i + 1;
    }
    FilterDone(resources, acc, updated, types, filter, rt);
    r := Ok(acc);
  }

  /** `a` is `b` with some elements left out, the rest in the same order. */
  predicate SubsequenceOf(a: seq<Value>, b: seq<Value>)
    decreases |b|
  {
    if a == [] then true
    else if b == [] then false
    else (a[0] == b[0] && SubsequenceOf(a[1..], b[1..])) || SubsequenceOf(a, b[1..])
  }

  /** The kept resources are an order-preserving subsequence of the flagged input. */
  lemma {:induction false} KeptIsSubsequence(resources: seq<Value>, from: nat, types: Option<seq<Value>>, filter: Value, rt: Runtime)
    requires from <= |resources| && Kept(resources, from, types, filter, rt).Ok?
    ensures SubsequenceOf(Kept(resources, from, types, filter, rt).value, Flags(resources)[from..])
    decreases |resources| - from
  {
    if from < |resources| {
      KeptStep(resources, from, types, filter, rt);
      KeptIsSubsequence(resources, from + 1, types, filter, rt);
      var flags := Flags(resources)[from..];
      assert flags[1..] == Flags(resources)[from + 1..];
      var kept := Kept(resources, from, types, filter, rt).value;
      var rest := Kept(resources, from + 1, types, filter, rt).value;
      if kept == rest {
        SubsequenceDropHead(rest, flags);
      } else {
        assert kept == [flags[0]] + rest;
        assert kept[1..] == rest;
      }
    }
  }

  lemma SubsequenceDropHead(a: seq<Value>, b: seq<Value>)
    requires b != [] && SubsequenceOf(a, b[1..])
    ensures SubsequenceOf(a, b)
  {
  }

  /** Every flagged input that passes both tests appears in the result. */
  lemma {:induction false} AdmittedAreKept(resources: seq<Value>, from: nat, types: Option<seq<Value>>, filter: Value, rt: Runtime)
    requires from <= |resources| && Kept(resources, from, types, filter, rt).Ok?
    ensures forall i :: from <= i < |resources| ==>
      Admit(Flagged(resources[i]), types, filter, rt).Ok?
      && (Admit(Flagged(resources[i]), types, filter, rt).value ==> Flagged(resources[i]) in Kept(resources, from, types, filter, rt).value)
    decreases |resources| - from
  {
    if from < |resources| {
      KeptStep(resources, from, types, filter, rt);
      var v := Visit(resources[from], types, filter, rt);
      var kept := Kept(resources, from, types, filter, rt).value;
      var rest := Kept(resources, from + 1, types, filter, rt).value;
      assert kept == (if v.value.1 then [v.value.0] else []) + rest;
      AdmittedAreKept(resources, from + 1, types, filter, rt);
      forall i | from <= i < |resources|
        ensures Admit(Flagged(resources[i]), types, filter, rt).Ok?
        ensures Admit(Flagged(resources[i]), types, filter, rt).value ==> Flagged(resources[i]) in kept
      {
        if i == from {
          assert Flagged(resources[i]) == v.value.0;
        } else {
          assert Flagged(resources[i]) in rest ==> Flagged(resources[i]) in kept;
        }
      }
    }
  }

  /** Every element of the result is a flagged input that passes both tests. */
  lemma {:induction false} KeptOnlyAdmitted(resources: seq<Value>, from: nat, types: Option<seq<Value>>, filter: Value, rt: Runtime)
    requires from <= |resources| && Kept(resources, from, types, filter, rt).Ok?
    ensures forall x :: x in Kept(resources, from, types, filter, rt).value ==>
      exists i :: from <= i < |resources| && x == Flagged(resources[i]) && Admit(x, types, filter, rt) == Ok(true)
    decreases |resources| - from
  {
    if from < |resources| {
      KeptStep(resources, from, types, filter, rt);
      KeptOnlyAdmitted(resources, from + 1, types, filter, rt);
      var v := Visit(resources[from], types, filter, rt);
      var kept := Kept(resources, from, types, filter, rt).value;
      var rest := Kept(resources, from + 1, types, filter, rt).value;
      assert kept == (if v.value.1 then [v.value.0] else []) + rest;
      forall x | x in kept
        ensures exists i :: from <= i < |resources| && x == Flagged(resources[i]) && Admit(x, types, filter, rt) == Ok(true)
      {
        if x !in rest {
          assert x == v.value.0 == Flagged(resources[from]) && v.value.1;
        }
      }
    }
  }

  /** What one poll of an uploading resource leads to. */
  datatype Poll =
    | Done(resource: Value)   // the deferred resolves with the resource
    | CheckAgain              // another check is scheduled
    | Rejects                 // the deferred rejects
    | Hung                    // no callback settles the deferred

  /**
   * One `checkResourceState` step, from the callbacks the read call ran: a
   * resource in state `Ready` resolves, any other state checks again, the
   * error callback rejects; reading the state of a missing resource throws
   * inside the callback, and then nothing settles.
   */
  function PollStep(trace: seq<Event>): (r: Poll)
    ensures trace == [] ==> r == Hung
    ensures trace != [] && trace[0].ErrorCalled? ==> r == Rejects
    ensures trace != [] && trace[0].SuccessCalled? && EndpointOptions.NotNullish(trace[0].arg) ==>
      (r.Done? <==> Prop(trace[0].arg, "ResourceState") == Str("Ready"))
      && (r.Done? ==> r.resource == trace[0].arg)
      && (!r.Done? ==> r == CheckAgain)
  {
    if trace == [] then Hung
    else match trace[0]
      case ErrorCalled(_) => Rejects
      case SuccessCalled(resource) =>
        (match GetProp(resource, "ResourceState")
         case Err(_) => Hung
         case Ok(state) => if state == Str("Ready") then Done(resource) else CheckAgain)
      case Alert(_, _) => Hung
  }
}
