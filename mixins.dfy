/**
 * The array, string and object helpers the library installs: lodash mixins
 * (`validString`, `move`), `Array.prototype` additions (`sortBy`,
 * `pushArray`, `last`, `toggle`, `findOne`, `pluck`),
 * `String.prototype.capitalize` and `angular.emptyObject`.
 *
 * An array the helpers change in place is a `JsArray` whose `items` the
 * methods reassign; an object emptied in place is a `JsObject`.
 */
module Mixins {
  import opened Wrappers
  import opened Strings
  import opened JsValue

  /**
   * `_.validString(string, length)`: only strings qualify; a truthy `length`
   * is a minimum length, compared by `>=` after ToNumber (a `length` that
   * converts to NaN admits nothing); otherwise the string must not be empty.
   */
  function ValidString(v: Value, length: Value): (r: bool)
    ensures !v.Str? ==> !r
    ensures v.Str? && !Truthy(length) ==> (r <==> |v.s| > 0)
    ensures v.Str? && length.Num? && length.n != 0 ==> (r <==> |v.s| >= length.n)
    ensures v.Str? && length == Bool(true) ==> (r <==> |v.s| >= 1)
    ensures Truthy(length) && ToNumber(length).None? ==> !r
  {
    if !v.Str? then false
    else if Truthy(length) then
      (match ToNumber(length) case Some(n) => |v.s| >= n case None => false)
    else |v.s| > 0
  }

  /** A minimum length given as text that spells `n` is compared as `n`. */
  lemma ValidStringText(s: string, t: string, n: int)
    requires t != "" && StringToNumber(t) == Some(n)
    ensures ValidString(Str(s), Str(t)) <==> |s| >= n
  {
    assert Truthy(Str(t)) && ToNumber(Str(t)) == Some(n);
  }

  /** So a minimum length written as decimal text, such as `"2"`, is compared as the number it spells. */
  lemma ValidStringNumericText(s: string, n: int)
    ensures ValidString(Str(s), Str(IntToString(n))) <==> |s| >= n
  {
    StringToNumberOfInt(n);
    IntToStringNonEmpty(n);
    ValidStringText(s, IntToString(n), n);
  }

  /** A one-element array `[n]` as the minimum length converts to `n`. */
  lemma ValidStringOneElementArray(s: string, n: int)
    ensures ValidString(Str(s), Arr([Num(n)])) <==> |s| >= n
  {
    var a := Arr([Num(n)]);
    assert JoinElements(a, 0) == ToStr(Num(n));
    assert ToNumber(a) == StringToNumber(IntToString(n));
    StringToNumberOfInt(n);
    assert Truthy(a);
  }

  /** `String.prototype.capitalize`: the first character upper-cased, the rest as it was. */
  function Capitalize(s: string): (r: string)
    ensures |r| == |s|
    ensures s != [] ==> r[0] == ToUpperAscii(s[0]) && r[1..] == s[1..]
  {
    if s == [] then [] else [ToUpperAscii(s[0])] + s[1..]
  }

  /** The position `splice` starts at: negative positions count from the end, both are clamped to the length. */
  function SpliceStart(i: int, len: nat): (r: nat)
    ensures r <= len
    ensures 0 <= i <= len ==> r == i
  {
    if i < 0 then (if len + i < 0 then 0 else len + i)
    else if i > len then len
    else i
  }

  /** The array `move` works on: padded with undefined up to `newIdx` when that lies at or past the end. */
  function Padded(items: seq<Value>, newIdx: int): (r: seq<Value>)
    ensures |r| == if newIdx >= |items| then newIdx + 1 else |items|
    ensures r[..|items|] == items && forall i :: |items| <= i < |r| ==> r[i] == Undefined
  {
    if newIdx >= |items| then items + Holes(newIdx - |items| + 1) else items
  }

  /** The `splice` pair of `move` on an already padded array: take out the item at `oldIdx`, insert it at `newIdx`. */
  function Relocated(padded: seq<Value>, oldIdx: int, newIdx: int): seq<Value>
  {
    var o := SpliceStart(oldIdx, |padded|);
    var x := if o < |padded| then padded[o] else Undefined;
    var rest := if o < |padded| then padded[..o] + padded[o + 1..] else padded;
    var n := SpliceStart(newIdx, |rest|);
    rest[..n] + [x] + rest[n..]
  }

  /** `move` as a function of the array: pad up to `newIdx`, take out the item at `oldIdx`, insert it at `newIdx`. */
  function Moved(items: seq<Value>, oldIdx: int, newIdx: int): (r: seq<Value>)
    ensures 0 <= oldIdx < |items| ==> |r| == if newIdx >= |items| then newIdx + 1 else |items|
  {
    Relocated(Padded(items, newIdx), oldIdx, newIdx)
  }

  /**
   * Moving between two positions inside the array keeps its length and its
   * elements, places the moved element at `newIdx` and keeps the others in
   * their relative order.
   */
  lemma MoveInside(items: seq<Value>, oldIdx: nat, newIdx: nat)
    requires oldIdx < |items| && newIdx < |items|
    ensures var r := Moved(items, oldIdx, newIdx);
      && |r| == |items|
      && r[newIdx] == items[oldIdx]
      && r[..newIdx] + r[newIdx + 1..] == items[..oldIdx] + items[oldIdx + 1..]
      && multiset(r) == multiset(items)
  {
    var rest := items[..oldIdx] + items[oldIdx + 1..];
    assert Padded(items, newIdx) == items;
    RelocatedInside(items, oldIdx, newIdx);
    SpliceIn(rest, newIdx, items[oldIdx]);
    TakeOut(items, oldIdx);
    SpliceIn(rest, oldIdx, items[oldIdx]);
  }

  /** Within the bounds, the two splices take out the element at `o` and put it back in at `n`. */
  lemma RelocatedInside(s: seq<Value>, o: nat, n: nat)
    requires o < |s| && n < |s|
    ensures var rest := s[..o] + s[o + 1..];
      Relocated(s, o, n) == rest[..n] + [s[o]] + rest[n..]
  {
  }

  /** Inserting `x` at `i` puts it there, keeps the others in order and adds exactly one `x` to the multiset. */
  lemma SpliceIn<T>(s: seq<T>, i: nat, x: T)
    requires i <= |s|
    ensures var r := s[..i] + [x] + s[i..];
      && |r| == |s| + 1 && r[i] == x && r[..i] + r[i + 1..] == s
      && multiset(r) == multiset(s) + multiset{x}
  {
    var r := s[..i] + [x] + s[i..];
    assert r[..i] == s[..i] && r[i + 1..] == s[i..];
    assert s == s[..i] + s[i..];
  }

  /** Taking out the element at `i` and inserting it back at `i` gives the sequence back. */
  lemma TakeOut<T>(s: seq<T>, i: nat)
    requires i < |s|
    ensures var rest := s[..i] + s[i + 1..];
      s == rest[..i] + [s[i]] + rest[i..]
  {
    var rest := s[..i] + s[i + 1..];
    assert rest[..i] == s[..i] && rest[i..] == s[i + 1..];
  }

  /**
   * Moving to a position at or past the end first pads the array with
   * undefined, so the result is `newIdx + 1` long and ends with the moved
   * element, the others in order followed by the padding.
   */
  lemma MovePastEnd(items: seq<Value>, oldIdx: nat, newIdx: nat)
    requires oldIdx < |items| <= newIdx
    ensures var r := Moved(items, oldIdx, newIdx);
      && |r| == newIdx + 1
      && r[newIdx] == items[oldIdx]
      && r[..newIdx] == items[..oldIdx] + items[oldIdx + 1..] + Holes(newIdx - |items| + 1)
  {
    var padded := items + Holes(newIdx - |items| + 1);
    assert padded[..oldIdx] == items[..oldIdx];
    assert padded[oldIdx + 1..] == items[oldIdx + 1..] + Holes(newIdx - |items| + 1);
  }

  /** The position of the first element equal to `v` (the length when there is none). */
  function IndexOfValue(s: seq<Value>, v: Value): (r: nat)
    ensures r <= |s|
    ensures r < |s| <==> v in s
    ensures r < |s| ==> s[r] == v
    ensures forall j :: 0 <= j < r ==> s[j] != v
  {
    if s == [] then 0
    else if s[0] == v then 0
    else 1 + IndexOfValue(s[1..], v)
  }

  /** `toggle(v)` as a function of the array: the first `v` removed when present, else `v` appended. */
  function Toggled(s: seq<Value>, v: Value): (r: seq<Value>)
    ensures v !in s ==> r == s + [v]
    ensures v in s ==> |r| == |s| - 1 && multiset(r) == multiset(s) - multiset{v}
  {
    var i := IndexOfValue(s, v);
    if i < |s| then
      assert s == s[..i] + [v] + s[i + 1..];
      s[..i] + s[i + 1..]
    else s + [v]
  }

  /** Toggling adds one `v` when there was none, removes exactly one otherwise, and leaves other elements alone. */
  lemma ToggleCounts(s: seq<Value>, v: Value)
    ensures multiset(Toggled(s, v))[v] == if v in s then multiset(s)[v] - 1 else 1
    ensures forall w :: w != v ==> multiset(Toggled(s, v))[w] == multiset(s)[w]
  {
    var i := IndexOfValue(s, v);
    if i < |s| {
      assert s == s[..i] + [v] + s[i + 1..];
      assert multiset(s) == multiset(s[..i]) + multiset([v]) + multiset(s[i + 1..]);
    } else {
      assert multiset(s)[v] == 0;
    }
  }

  /** Toggling a value that is absent twice gives back the array. */
  lemma ToggleTwiceAbsent(s: seq<Value>, v: Value)
    requires v !in s
    ensures Toggled(Toggled(s, v), v) == s
  {
    var t := s + [v];
    assert IndexOfValue(t, v) == |s|;
    assert t[..|s|] == s;
  }

  /** `concat` spreads array arguments one level; other arguments are taken as they are. */
  function Spread(args: seq<Value>): (r: seq<Value>)
    ensures forall i :: 0 <= i < |args| && !args[i].Arr? ==> args[i] in r
    ensures forall i :: 0 <= i < |args| && args[i].Arr? ==> multiset(args[i].elems) <= multiset(r)
  {
    if args == [] then []
    else
      assert forall i :: 1 <= i < |args| ==> args[i] == args[1..][i - 1];
      (if args[0].Arr? then args[0].elems else [args[0]]) + Spread(args[1..])
  }

  /** Without array arguments, `pushArray` pushes exactly its arguments. */
  lemma {:induction false} SpreadScalars(args: seq<Value>)
    requires forall i :: 0 <= i < |args| ==> !args[i].Arr?
    ensures Spread(args) == args
  {
    if args != [] {
      SpreadScalars(args[1..]);
    }
  }

  /** Spreading a concatenation spreads each part. */
  lemma {:induction false} SpreadAppend(a: seq<Value>, b: seq<Value>)
    ensures Spread(a + b) == Spread(a) + Spread(b)
  {
    if a != [] {
      assert (a + b)[1..] == a[1..] + b;
      SpreadAppend(a[1..], b);
    } else {
      assert a + b == b;
    }
  }

  /**
   * JavaScript's `x < y`: after ToPrimitive, two strings compare by
   * character code; any other pair is compared as numbers after ToNumber,
   * and NaN on either side makes it false.
   */
  predicate Less(x: Value, y: Value)
    ensures x.Str? && y.Str? ==> (Less(x, y) <==> StrLess(x.s, y.s))
    ensures x.Num? && y.Num? ==> (Less(x, y) <==> x.n < y.n)
    ensures x.Undefined? || y.Undefined? ==> !Less(x, y)
  {
    var px, py := ToPrimitive(x), ToPrimitive(y);
    if px.Str? && py.Str? then StrLess(px.s, py.s)
    else match (ToNumber(px), ToNumber(py))
      case (Some(a), Some(b)) => a < b
      case _ => false
  }

  lemma LessAsymmetric(x: Value, y: Value)
    ensures !(Less(x, y) && Less(y, x))
  {
    var px, py := ToPrimitive(x), ToPrimitive(y);
    if px.Str? && py.Str? {
      StrLessAsymmetric(px.s, py.s);
    }
  }

  /** A number compared with text that spells a number is compared with that number, both ways round. */
  lemma LessText(a: int, t: string, b: int)
    requires StringToNumber(t) == Some(b)
    ensures Less(Num(a), Str(t)) <==> a < b
    ensures Less(Str(t), Num(a)) <==> b < a
  {
    assert ToPrimitive(Str(t)) == Str(t) && ToNumber(Str(t)) == Some(b);
  }

  /** So `1 < "2"` holds: decimal text is compared as the number it spells. */
  lemma LessNumberText(a: int, b: int)
    ensures Less(Num(a), Str(IntToString(b))) <==> a < b
    ensures Less(Str(IntToString(a)), Num(b)) <==> a < b
  {
    StringToNumberOfInt(a);
    StringToNumberOfInt(b);
    LessText(a, IntToString(b), b);
    LessText(b, IntToString(a), a);
  }

  /** `_dynamicSort(property)(a, b)`: -1, 0 or 1 on the named property, negated by a leading `-`. */
  function CompareBy(a: Value, b: Value, property: string): (r: int)
    ensures r in {-1, 0, 1}
  {
    var descending := |property| > 0 && property[0] == '-';
    var key := if descending then property[1..] else property;
    var x, y := Prop(a, key), Prop(b, key);
    var result := if Less(x, y) then -1 else if Less(y, x) then 1 else 0;
    if descending then -result else result
  }

  /** `_dynamicSortMultiple(...props)(a, b)`: the first property that tells the two apart decides. */
  function Compare(a: Value, b: Value, props: seq<string>): (r: int)
    ensures r in {-1, 0, 1}
    ensures props == [] ==> r == 0
    ensures props != [] && CompareBy(a, b, props[0]) != 0 ==> r == CompareBy(a, b, props[0])
    ensures props != [] && CompareBy(a, b, props[0]) == 0 ==> r == Compare(a, b, props[1..])
  {
    if props == [] then 0
    else
      var c := CompareBy(a, b, props[0]);
      if c != 0 then c else Compare(a, b, props[1..])
  }

  /** Swapping the operands negates the comparison. */
  lemma {:induction false} CompareAntisymmetric(a: Value, b: Value, props: seq<string>)
    ensures Compare(a, b, props) == -Compare(b, a, props)
  {
    if props != [] {
      var property := props[0];
      var key := if |property| > 0 && property[0] == '-' then property[1..] else property;
      LessAsymmetric(Prop(a, key), Prop(b, key));
      assert CompareBy(a, b, property) == -CompareBy(b, a, property);
      CompareAntisymmetric(a, b, props[1..]);
    }
  }

  /** Adjacent elements are in comparator order. */
  predicate SortedBy(s: seq<Value>, props: seq<string>)
  {
    forall i :: 0 <= i < |s| - 1 ==> Compare(s[i], s[i + 1], props) <= 0
  }

  /** Inserts `x` before the first element it compares below. */
  function Insert(x: Value, s: seq<Value>, props: seq<string>): (r: seq<Value>)
    ensures multiset(r) == multiset(s) + multiset{x}
    ensures |r| == |s| + 1
  {
    if s == [] then [x]
    else if Compare(x, s[0], props) < 0 then [x] + s
    else
      assert s == [s[0]] + s[1..];
      [s[0]] + Insert(x, s[1..], props)
  }

  /** The inserted sequence starts with `x` or with the old first element. */
  lemma InsertHead(x: Value, s: seq<Value>, props: seq<string>)
    requires s != []
    ensures Insert(x, s, props)[0] in {x, s[0]}
  {
    if Compare(x, s[0], props) >= 0 {
      assert Insert(x, s, props) == [s[0]] + Insert(x, s[1..], props);
    }
  }

  lemma {:induction false} InsertSorted(x: Value, s: seq<Value>, props: seq<string>)
    requires SortedBy(s, props)
    ensures SortedBy(Insert(x, s, props), props)
  {
    if s != [] && Compare(x, s[0], props) >= 0 {
      var tail := s[1..];
      assert SortedBy(tail, props) by {
        forall i | 0 <= i < |tail| - 1 ensures Compare(tail[i], tail[i + 1], props) <= 0 {
          assert tail[i] == s[i + 1] && tail[i + 1] == s[i + 2];
        }
      }
      InsertSorted(x, tail, props);
      CompareAntisymmetric(x, s[0], props);
      if tail != [] {
        InsertHead(x, tail, props);
      }
      var r := Insert(x, s, props);
      var rest := Insert(x, tail, props);
      assert r == [s[0]] + rest;
      forall i | 0 <= i < |r| - 1 ensures Compare(r[i], r[i + 1], props) <= 0 {
        if i > 0 {
          assert r[i] == rest[i - 1] && r[i + 1] == rest[i];
        }
      }
    }
  }

  /** Insertion sort of the elements, the later ones inserted into the sorted earlier ones. */
  function InsertionSort(s: seq<Value>, props: seq<string>): (r: seq<Value>)
    ensures multiset(r) == multiset(s)
    ensures |r| == |s|
  {
    if s == [] then []
    else
      assert s == s[..|s| - 1] + [s[|s| - 1]];
      Insert(s[|s| - 1], InsertionSort(s[..|s| - 1], props), props)
  }

  lemma {:induction false} InsertionSortSorted(s: seq<Value>, props: seq<string>)
    ensures SortedBy(InsertionSort(s, props), props)
  {
    if s != [] {
      InsertionSortSorted(s[..|s| - 1], props);
      InsertSorted(s[|s| - 1], InsertionSort(s[..|s| - 1], props), props);
    }
  }

  /** The elements that are not undefined, in order. */
  function DefinedElements(s: seq<Value>): (r: seq<Value>)
    ensures forall i :: 0 <= i < |r| ==> r[i] != Undefined
    ensures multiset(r) == multiset(s)[Undefined := 0]
  {
    if s == [] then []
    else
      assert s == [s[0]] + s[1..];
      (if s[0] == Undefined then [] else [s[0]]) + DefinedElements(s[1..])
  }

  /** At least two elements are not undefined, so a sort compares each of them at least once. */
  predicate HasTwoDefined(s: seq<Value>)
  {
    exists i, j :: 0 <= i < j < |s| && s[i] != Undefined && s[j] != Undefined
  }

  /**
   * `sortBy(...props)`: `Array.prototype.sort` with the comparator, which
   * puts the undefined elements last without comparing them. With at least
   * one property and two elements to compare, a null element is compared
   * sooner or later, and reading its property throws a TypeError before the
   * array is written.
   */
  function SortedResult(s: seq<Value>, props: seq<string>): (r: Try<seq<Value>>)
    ensures r.Err? ==> r.exn == TypeError && Null in s
    ensures props == [] || Null !in s ==> r.Ok?
  {
    if props != [] && Null in s && HasTwoDefined(s) then Err(TypeError)
    else Ok(InsertionSort(DefinedElements(s), props) + Holes(multiset(s)[Undefined]))
  }

  /** A `sortBy` that returns gives the same elements, the defined ones in comparator order followed by the undefined ones. */
  lemma SortByPermutes(s: seq<Value>, props: seq<string>)
    ensures SortedResult(s, props).Ok? ==>
      var r := SortedResult(s, props).value;
      var n := |DefinedElements(s)|;
      && multiset(r) == multiset(s)
      && n <= |r|
      && SortedBy(r[..n], props)
      && (forall i :: 0 <= i < n ==> r[i] != Undefined)
      && (forall i :: n <= i < |r| ==> r[i] == Undefined)
  {
    if SortedResult(s, props).Ok? {
      var d := InsertionSort(DefinedElements(s), props);
      var u := multiset(s)[Undefined];
      InsertionSortSorted(DefinedElements(s), props);
      HolesMultiset(u);
      SplitUndefined(multiset(s));
      var r := SortedResult(s, props).value;
      assert r == d + Holes(u);
      assert r[..|d|] == d;
      forall i | 0 <= i < |d| ensures r[i] != Undefined {
        assert d[i] in multiset(d);
      }
    }
  }

  /** A null element among two or more defined ones makes a sort by any property throw; without a property nothing is read. */
  lemma SortByNullThrows(s: seq<Value>, props: seq<string>, i: nat, j: nat)
    requires i < |s| && j < |s| && i != j && s[i] == Null && s[j] != Undefined
    ensures SortedResult(s, props).Err? <==> props != []
  {
    if i < j {
      assert s[i] != Undefined && s[j] != Undefined;
    } else {
      assert s[j] != Undefined && s[i] != Undefined;
    }
  }

  lemma SplitUndefined(m: multiset<Value>)
    ensures m[Undefined := 0] + multiset{}[Undefined := m[Undefined]] == m
  {
  }

  lemma {:induction false} HolesMultiset(n: nat)
    ensures multiset(Holes(n)) == multiset{}[Undefined := n]
  {
    if n > 0 {
      HolesMultiset(n - 1);
    }
  }

  /** `k` is the smallest of `keys` in string order. */
  predicate IsLeast(k: string, keys: set<string>)
  {
    k in keys && forall o :: o in keys && o != k ==> StrLess(k, o)
  }

  /** The smallest of a non-empty set of property names: the model's choice of an object's first key. */
  function FirstKey(keys: set<string>): (k: string)
    requires keys != {}
    ensures IsLeast(k, keys)
  {
    LeastExists(keys);
    assert forall a, b :: IsLeast(a, keys) && IsLeast(b, keys) ==> a == b by {
      forall a, b | IsLeast(a, keys) && IsLeast(b, keys) ensures a == b {
        if a != b {
          StrLessAsymmetric(a, b);
        }
      }
    }
    var k :| IsLeast(k, keys);
    k
  }

  lemma {:induction false} LeastExists(keys: set<string>)
    requires keys != {}
    ensures exists k :: IsLeast(k, keys)
    decreases |keys|
  {
    var x :| x in keys;
    if keys == {x} {
      assert IsLeast(x, keys);
    } else {
      var rest := keys - {x};
      LeastExists(rest);
      var m :| IsLeast(m, rest);
      StrLessTotal(x, m);
      if StrLess(x, m) {
        forall o | o in keys && o != x ensures StrLess(x, o) {
          if o != m {
            StrLessTransitive(x, m, o);
          }
        }
        assert IsLeast(x, keys);
      } else {
        assert IsLeast(m, keys);
      }
    }
  }

  /** The property an object query matches on: its first key, or `"undefined"` when it has none. */
  function QueryKey(query: Value): string
    requires query.Obj? || query.Arr?
  {
    match query
    case Obj(p) => if p == map[] then "undefined" else FirstKey(p.Keys)
    case Arr(e) => if e == [] then "undefined" else "0"
  }

  /** Whether `findOne(query)` matches `item`. */
  predicate FindMatches(query: Value, item: Value)
  {
    if query.Obj? || query.Arr? then
      (item.Obj? || item.Arr?) && Prop(item, QueryKey(query)) == Prop(query, QueryKey(query))
    else query.Str? && item == query
  }

  /** `angular.isUndefinedOrNull`. */
  predicate Nullish(v: Value)
  {
    v.Undefined? || v.Null?
  }

  /** The elements' own `query` property values, in order; reading one of null or undefined throws. */
  function Plucked(s: seq<Value>, query: string): (r: Try<seq<Value>>)
    ensures r.Err? <==> exists i :: 0 <= i < |s| && Nullish(s[i])
    ensures r.Err? ==> r.exn == TypeError
    ensures r.Ok? ==> |r.value| <= |s|
  {
    if s == [] then Ok([])
    else if Nullish(s[0]) then Err(TypeError)
    else
      var rest := Plucked(s[1..], query);
      assert forall i :: 1 <= i < |s| ==> s[i] == s[1..][i - 1];
      if rest.Err? then
        var i :| 0 <= i < |s[1..]| && Nullish(s[1..][i]);
        assert Nullish(s[i + 1]);
        Err(TypeError)
      else
        Prepend(match OwnProp(s[0], query) case Some(x) => [x] case None => [], rest)
  }

  /** When every element is an object owning the property, `pluck` lists exactly those values, in order. */
  lemma {:induction false} PluckOwned(s: seq<Value>, query: string)
    requires forall i :: 0 <= i < |s| ==> s[i].Obj? && query in s[i].props
    ensures Plucked(s, query).Ok?
    ensures |Plucked(s, query).value| == |s|
    ensures forall i :: 0 <= i < |s| ==> Plucked(s, query).value[i] == s[i].props[query]
  {
    if s != [] {
      var tail := s[1..];
      assert forall i :: 0 <= i < |tail| ==> tail[i] == s[i + 1];
      PluckOwned(tail, query);
      assert OwnProp(s[0], query) == Some(s[0].props[query]);
      assert Plucked(s, query).value == [s[0].props[query]] + Plucked(tail, query).value;
    }
  }

  /** The positions from `from` on whose element owns `query`, in increasing order. */
  function Owners(s: seq<Value>, query: string, from: nat): (r: seq<nat>)
    requires from <= |s|
    ensures forall j :: 0 <= j < |r| ==> from <= r[j] < |s| && HasOwn(s[r[j]], query)
    ensures forall j, k :: 0 <= j < k < |r| ==> r[j] < r[k]
    ensures forall i :: from <= i < |s| && HasOwn(s[i], query) ==> i in r
    decreases |s| - from
  {
    if from == |s| then []
    else (if HasOwn(s[from], query) then [from] else []) + Owners(s, query, from + 1)
  }

  /**
   * In general, `pluck` lists the own values of exactly the elements that
   * own the property, in the order of those elements; the others are skipped.
   */
  lemma PluckContents(s: seq<Value>, query: string)
    requires Plucked(s, query).Ok?
    ensures var r := Plucked(s, query).value;
      var idx := Owners(s, query, 0);
      |r| == |idx| && forall j :: 0 <= j < |r| ==> r[j] == OwnProp(s[idx[j]], query).value
  {
    assert s[0..] == s;
    PluckFrom(s, query, 0);
  }

  /** One step of `pluck`: the first element's own value, if any, then the rest. */
  lemma PluckStep(t: seq<Value>, query: string)
    requires t != [] && Plucked(t, query).Ok?
    ensures Plucked(t[1..], query).Ok?
    ensures Plucked(t, query).value
      == (if HasOwn(t[0], query) then [OwnProp(t[0], query).value] else []) + Plucked(t[1..], query).value
  {
    assert !Nullish(t[0]);
  }

  /** `r` lists the own `query` values of the elements of `s` at positions `idx`. */
  predicate OwnValuesAt(r: seq<Value>, s: seq<Value>, idx: seq<nat>, query: string)
  {
    |r| == |idx| &&
    forall j :: 0 <= j < |r| ==> idx[j] < |s| && OwnProp(s[idx[j]], query) == Some(r[j])
  }

  lemma OwnValuesAtCons(v: Value, r: seq<Value>, s: seq<Value>, i: nat, idx: seq<nat>, query: string)
    requires OwnValuesAt(r, s, idx, query) && i < |s| && OwnProp(s[i], query) == Some(v)
    ensures OwnValuesAt([v] + r, s, [i] + idx, query)
  {
    var r', idx' := [v] + r, [i] + idx;
    forall j | 0 <= j < |r'| ensures idx'[j] < |s| && OwnProp(s[idx'[j]], query) == Some(r'[j]) {
      if j > 0 {
        assert r'[j] == r[j - 1] && idx'[j] == idx[j - 1];
      }
    }
  }

  lemma {:induction false} PluckFrom(s: seq<Value>, query: string, from: nat)
    requires from <= |s| && Plucked(s[from..], query).Ok?
    ensures OwnValuesAt(Plucked(s[from..], query).value, s, Owners(s, query, from), query)
    decreases |s| - from
  {
    if from < |s| {
      var t := s[from..];
      assert t[0] == s[from] && t[1..] == s[from + 1..];
      PluckStep(t, query);
      PluckFrom(s, query, from + 1);
      var rest := Plucked(s[from + 1..], query).value;
      var later := Owners(s, query, from + 1);
      if HasOwn(s[from], query) {
        OwnValuesAtCons(OwnProp(s[from], query).value, rest, s, from, later, query);
      } else {
        assert Plucked(t, query).value == rest && Owners(s, query, from) == later;
      }
    }
  }

  /** An array the helpers change in place. */
  class JsArray {
    var items: seq<Value>

    constructor (items0: seq<Value>)
      ensures items == items0
    {
      items := items0;
    }

    /** `last()`: the final element, undefined for an empty array. */
    function Last(): (r: Value)
      reads this
      ensures items == [] ==> r == Undefined
      ensures items != [] ==> r == items[|items| - 1] && r in items
    {
      if items == [] then Undefined else items[|items| - 1]
    }

    /**
     * `_.move(array, oldIdx, newIdx)`: pushes undefined until `newIdx` is an
     * index, splices the item out of `oldIdx` and into `newIdx`, and returns
     * what the inserting splice removed, which is nothing.
     */
    method Move(oldIdx: int, newIdx: int) returns (removed: seq<Value>)
      modifies this
      ensures items == Moved(old(items), oldIdx, newIdx)
      ensures removed == []
    {
      if newIdx >= |items| {
        var k := newIdx - |items|;
        ghost var k0 := k;
        while k + 1 != 0
          invariant -1 <= k <= k0
          invariant items == old(items) + Holes(k0 - k)
          decreases k
        {
          k := k - 1;
          items := items + [Undefined];
        }
      }
      assert items == Padded(old(items), newIdx);
      var o := SpliceStart(oldIdx, |items|);
      var x := if o < |items| then items[o] else Undefined;
      if o < |items| {
        items := items[..o] + items[o + 1..];
      }
      var n := SpliceStart(newIdx, |items|);
      items := items[..n] + [x] + items[n..];
      removed := [];
    }

    /** `toggle(v)`: removes the first `v`, or appends `v` when there is none; returns the array itself. */
    method Toggle(v: Value) returns (r: JsArray)
      modifies this
      ensures items == Toggled(old(items), v)
      ensures r == this
    {
      r := this;
      var i := IndexOfValue(items, v);
      if i == |items| {
        items := items + [v];
      } else {
        items := items[..i] + items[i + 1..];
      }
    }

    /** `pushArray(...args)`: pushes the arguments, arrays spread one level, one element at a time. */
    method PushArray(args: seq<Value>)
      modifies this
      ensures items == old(items) + Spread(args)
    {
      var toPush := Spread(args);
      var i := 0;
      while i < |toPush|
        invariant 0 <= i <= |toPush|
        invariant items == old(items) + toPush[..i]
      {
        items := items + [toPush[i]];
        i := i + 1;
        assert toPush[..i] == toPush[..i - 1] + [toPush[i - 1]];
      }
      assert toPush[..i] == toPush;
    }

    /**
     * `sortBy(...props)`: sorts in place with the multi-property comparator
     * and returns the array itself; when the comparator throws, the array is
     * left as it was.
     */
    method SortBy(props: seq<string>) returns (r: Try<JsArray>)
      modifies this
      ensures SortedResult(old(items), props).Ok? ==> items == SortedResult(old(items), props).value && r == Ok(this)
      ensures SortedResult(old(items), props).Err? ==> items == old(items) && r == Err(TypeError)
    {
      var sorted := SortedResult(items, props);
      if sorted.Err? {
        return Err(sorted.exn);
      }
      items := sorted.value;
      r := Ok(this);
    }

    /**
     * `findOne(query)`: with an object query, the first object element whose
     * property named by the query's first key equals the query's value; with
     * a string, the first element equal to it; null otherwise.
     */
    method FindOne(query: Value) returns (r: Value)
      ensures r == Null <==> forall i :: 0 <= i < |items| ==> !FindMatches(query, items[i])
      ensures r != Null ==>
        exists i :: 0 <= i < |items| && r == items[i] && FindMatches(query, r)
                    && forall j :: 0 <= j < i ==> !FindMatches(query, items[j])
    {
      r := Null;
      if !(query.Obj? || query.Arr? || query.Str?) {
        return;
      }
      var i := 0;
      ghost var found := -1;
      while i < |items|
        invariant 0 <= i <= |items|
        invariant found == -1 ==> r == Null && forall j :: 0 <= j < i ==> !FindMatches(query, items[j])
        invariant found != -1 ==>
          0 <= found < i && r == items[found] && FindMatches(query, r)
          && forall j :: 0 <= j < found ==> !FindMatches(query, items[j])
      {
        if !Truthy(r) && FindMatches(query, items[i]) {
          if found == -1 {
            found := i;
          } else {
            assert r == items[i];
          }
          r := items[i];
        }
        i := i + 1;
      }
    }

    /** `pluck(query)`: the own `query` property of each element that has one; nothing for a non-string query. */
    method Pluck(query: Value) returns (r: Try<seq<Value>>)
      ensures !query.Str? ==> r == Ok([])
      ensures query.Str? ==> r == Plucked(items, query.s)
    {
      if !query.Str? {
        return Ok([]);
      }
      var results: seq<Value> := [];
      var i := 0;
      assert items[i..] == items;
      PrependNil(Plucked(items, query.s));
      while i < |items|
        invariant 0 <= i <= |items|
        invariant Plucked(items, query.s) == Prepend(results, Plucked(items[i..], query.s))
      {
        assert items[i..][0] == items[i] && items[i..][1..] == items[i + 1..];
        if Nullish(items[i]) {
          return Err(TypeError);
        }
        var taken := match OwnProp(items[i], query.s) case Some(x) => [x] case None => [];
        PrependAssoc(results, taken, Plucked(items[i + 1..], query.s));
        results := results + taken;
        i := i + 1;
      }
      assert items[i..] == [];
      assert results + [] == results;
      r := Ok(results);
    }
  }

  /** An object emptied in place. */
  class JsObject {
    var props: map<string, Value>

    constructor (props0: map<string, Value>)
      ensures props == props0
    {
      props := props0;
    }

    /** `angular.emptyObject(obj)`: deletes every own property, keeping the object itself. */
    method Empty()
      modifies this
      ensures props == map[]
    {
      var keys := props.Keys;
      while keys != {}
        invariant props.Keys == keys
        decreases keys
      {
        var k :| k in keys;
        props := props - {k};
        keys := keys - {k};
      }
    }
  }
}
