/**
 * JavaScript values as the library sees them, and the handful of language
 * and lodash 3 operations the modelled code performs on them: truthiness,
 * property reads and writes (with the TypeError they throw on null and
 * undefined), string conversion, `_.merge` and `_.assign`.
 *
 * Objects are maps from property names to values; functions are references
 * whose behaviour a `Runtime` supplies.
 */
module JsValue {
  import opened Wrappers
  import opened Strings

  /** A function value: one of the library's own closures, or caller code. */
  datatype FnRef = Builtin(name: string) | User(id: nat)

  datatype Value =
    | Undefined
    | Null
    | Bool(b: bool)
    | Num(n: int)
    | Str(s: string)
    | Arr(elems: seq<Value>)
    | Obj(props: map<string, Value>)
    | Func(fn: FnRef)

  /** The outcome of evaluating something that may throw: the thrown value is a JavaScript value. */
  datatype Try<+T> = Ok(value: T) | Err(exn: Value) {
    predicate IsFailure() {
      Err?
    }

    function PropagateFailure<U>(): Try<U>
      requires Err?
    {
      Err(exn)
    }

    function Extract(): T
      requires Ok?
    {
      value
    }
  }

  /** The exception objects the modelled code can raise. */
  const TypeError: Value := Obj(map["name" := Str("TypeError")])
  const URIError: Value := Obj(map["name" := Str("URIError")])

  /**
   * What caller-supplied code does, and the foreign functions the library
   * calls: JSON.parse, and the two form-data serialisers.
   */
  datatype Runtime = Runtime(
    call: (nat, seq<Value>) -> Value,
    parseJson: string -> Option<Value>,
    serializeParams: Value -> string,
    jqueryParam: Value -> string)

  /** ToBoolean. */
  predicate Truthy(v: Value)
  {
    match v
    case Undefined => false
    case Null => false
    case Bool(b) => b
    case Num(n) => n != 0
    case Str(s) => s != ""
    case _ => true
  }

  /** `a || b`. */
  function Or(a: Value, b: Value): Value
  {
    if Truthy(a) then a else b
  }

  /** `angular.isObject`: `typeof v === 'object'` and not null. */
  predicate IsAngularObject(v: Value)
  {
    v.Arr? || v.Obj?
  }

  /** lodash `_.isObject`: objects, arrays and functions. */
  predicate IsLodashObject(v: Value)
  {
    v.Arr? || v.Obj? || v.Func?
  }

  /** An own property of a value: object entries, and `length` and indices of strings and arrays. */
  function OwnProp(v: Value, key: string): Option<Value>
  {
    match v
    case Obj(p) => if key in p then Some(p[key]) else None
    case Str(s) =>
      if key == "length" then Some(Num(|s|))
      else (match ParseIndex(key)
            case Some(i) => if i < |s| then Some(Str([s[i]])) else None
            case None => None)
    case Arr(e) =>
      if key == "length" then Some(Num(|e|))
      else (match ParseIndex(key)
            case Some(i) => if i < |e| then Some(e[i]) else None
            case None => None)
    case _ => None
  }

  /** `key in v` restricted to own properties: `v.hasOwnProperty(key)`. */
  predicate HasOwn(v: Value, key: string)
  {
    OwnProp(v, key).Some?
  }

  /** `v[key]` for a value that is neither undefined nor null. */
  function Prop(v: Value, key: string): Value
  {
    match OwnProp(v, key)
    case Some(x) => x
    case None => Undefined
  }

  /** `v[key]`: reading a property of undefined or null throws a TypeError. */
  function GetProp(v: Value, key: string): Try<Value>
  {
    if v.Undefined? || v.Null? then Err(TypeError) else Ok(Prop(v, key))
  }

  function Holes(n: nat): (r: seq<Value>)
    ensures |r| == n && forall i :: 0 <= i < n ==> r[i] == Undefined
  {
    if n == 0 then [] else Holes(n - 1) + [Undefined]
  }

  /**
   * `v[key] = x` in strict mode: objects and arrays take the write, functions
   * accept it (their properties are not modelled), primitives throw.
   */
  function SetProp(v: Value, key: string, x: Value): Try<Value>
  {
    match v
    case Obj(p) => Ok(Obj(p[key := x]))
    case Arr(e) =>
      (match ParseIndex(key)
       case Some(i) => Ok(Arr(if i < |e| then e[i := x] else e + Holes(i - |e|) + [x]))
       case None => Ok(v))
    case Func(_) => Ok(v)
    case _ => Err(TypeError)
  }

  /** `delete v[key]` on a named property. */
  function DeleteProp(v: Value, key: string): Value
  {
    if v.Obj? then Obj(v.props - {key}) else v
  }

  /** ToString. A function's source text is not modelled. */
  function ToStr(v: Value): string
    decreases v, 1
  {
    match v
    case Undefined => "undefined"
    case Null => "null"
    case Bool(b) => if b then "true" else "false"
    case Num(n) => IntToString(n)
    case Str(s) => s
    case Arr(e) => JoinElements(v, 0)
    case Obj(_) => "[object Object]"
    case Func(_) => "function"
  }

  /** `Array.prototype.join(",")` from index `i` on, null and undefined elements spelled "". */
  function JoinElements(v: Value, i: nat): string
    requires v.Arr? && i <= |v.elems|
    decreases v, 0, |v.elems| - i
  {
    if i == |v.elems| then ""
    else
      var x := v.elems[i];
      var head := if x.Undefined? || x.Null? then "" else ToStr(x);
      if i + 1 == |v.elems| then head else head + "," + JoinElements(v, i + 1)
  }

  /** ToNumber for the primitive values it is applied to here. */
  function ToNum(v: Value): int
    requires v.Bool? || v.Num? || v.Null?
  {
    match v
    case Bool(b) => if b then 1 else 0
    case Num(n) => n
    case Null => 0
  }

  /**
   * ToNumber, with None for NaN. An array, object or function converts
   * through its string form, which is what ToPrimitive gives for them.
   */
  function ToNumber(v: Value): Option<int>
  {
    match v
    case Undefined => None
    case Null => Some(0)
    case Bool(b) => Some(if b then 1 else 0)
    case Num(n) => Some(n)
    case Str(s) => StringToNumber(s)
    case _ => StringToNumber(ToStr(v))
  }

  /** ToPrimitive: an array, object or function becomes its string form; a primitive stays. */
  function ToPrimitive(v: Value): (r: Value)
    ensures !r.Arr? && !r.Obj? && !r.Func?
    ensures ToNumber(r) == ToNumber(v)
  {
    if v.Arr? || v.Obj? || v.Func? then Str(ToStr(v)) else v
  }

  /**
   * The binary `+` of two truthy values: string concatenation as soon as one
   * side is (or converts to) a string, numeric addition otherwise.
   */
  function Plus(a: Value, b: Value): Value
    requires Truthy(a) && Truthy(b)
  {
    if (a.Bool? || a.Num?) && (b.Bool? || b.Num?) then Num(ToNum(a) + ToNum(b))
    else Str(ToStr(a) + ToStr(b))
  }

  function Lookup(m: map<string, Value>, k: string): Value
  {
    if k in m then m[k] else Undefined
  }

  /**
   * lodash 3 `_.merge(dst, src)` for one source: plain objects and arrays are
   * merged key by key into copies, any other source value replaces the
   * destination, and an undefined source value never overwrites (it is
   * dropped from objects and only fills new array slots).
   */
  function Merge(dst: Value, src: Value): Value
    decreases src
  {
    match src
    case Obj(sp) =>
      var dp := if dst.Obj? then dst.props else map[];
      Obj(map k | k in dp.Keys + sp.Keys && (k in dp || sp[k] != Undefined) ::
            if k in sp && sp[k] != Undefined then Merge(Lookup(dp, k), sp[k]) else dp[k])
    case Arr(se) =>
      var de := if dst.Arr? then dst.elems else [];
      var n := if |de| < |se| then |se| else |de|;
      Arr(seq(n, j requires 0 <= j < n =>
            if j < |se| && se[j] != Undefined then Merge(if j < |de| then de[j] else Undefined, se[j])
            else if j < |de| then de[j] else Undefined))
    case _ => src
  }

  /** lodash 3 `_.assign(dst, src)` on objects: every own property of `src` is copied, undefined included. */
  function Assign(dst: map<string, Value>, src: Value): map<string, Value>
  {
    if src.Obj? then dst + src.props else dst
  }

  /** A value in which no object or array holds an undefined entry: `_.merge` copies it unchanged. */
  predicate Defined(v: Value)
    decreases v
  {
    match v
    case Undefined => false
    case Obj(p) => forall k :: k in p ==> Defined(p[k])
    case Arr(e) => forall i :: 0 <= i < |e| ==> Defined(e[i])
    case _ => true
  }

  /** Merging a value with no undefined entries into nothing copies it exactly. */
  lemma {:induction false} MergeCopiesDefined(v: Value)
    requires Defined(v)
    ensures Merge(Undefined, v) == v
    decreases v
  {
    match v
    case Obj(p) =>
      forall k | k in p ensures Merge(Undefined, p[k]) == p[k] {
        MergeCopiesDefined(p[k]);
      }
      assert Merge(Undefined, v).props == p;
    case Arr(e) =>
      forall j | 0 <= j < |e| ensures Merge(Undefined, e[j]) == e[j] {
        MergeCopiesDefined(e[j]);
      }
      assert Merge(Undefined, v).elems == e;
    case _ =>
  }

  /** A defined property of the source wins; others keep the destination's value. */
  lemma MergeObjectProp(dst: map<string, Value>, src: map<string, Value>, k: string)
    ensures var r := Merge(Obj(dst), Obj(src));
      r.Obj?
      && (k in src && src[k] != Undefined ==> k in r.props && r.props[k] == Merge(Lookup(dst, k), src[k]))
      && (k in src && src[k] != Undefined && !src[k].Obj? && !src[k].Arr? ==> r.props[k] == src[k])
      && ((k !in src || src[k] == Undefined) ==> Lookup(r.props, k) == Lookup(dst, k))
      && (k in r.props <==> k in dst || (k in src && src[k] != Undefined))
  {
  }

  /** `acc + rest`, passing an exception through. */
  function Prepend(acc: seq<Value>, t: Try<seq<Value>>): Try<seq<Value>>
  {
    match t
    case Ok(rest) => Ok(acc + rest)
    case Err(e) => Err(e)
  }

  lemma PrependNil(t: Try<seq<Value>>)
    ensures Prepend([], t) == t
  {
    match t
    case Ok(rest) => assert [] + rest == rest;
    case Err(_) =>
  }

  lemma PrependAssoc(acc: seq<Value>, more: seq<Value>, t: Try<seq<Value>>)
    ensures Prepend(acc, Prepend(more, t)) == Prepend(acc + more, t)
  {
    match t
    case Ok(rest) => assert acc + (more + rest) == (acc + more) + rest;
    case Err(_) =>
  }
}
