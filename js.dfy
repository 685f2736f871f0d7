/**
 * The fragment of JavaScript semantics the handlers rely on, over values
 * that come from JSON: truthiness, property reads (which throw a TypeError
 * on `null` and `undefined`), optional chaining, `includes` on strings and
 * arrays, conversion to string, and object spread. `Option<Json>` stands
 * for a JavaScript value that may be `undefined`.
 */
module Js {
  import opened Wrappers
  import opened Strings

  /** A value JSON can denote. Numbers are integers in this model. */
  datatype Json =
    | Null
    | Bool(b: bool)
    | Num(n: int)
    | Str(s: string)
    | Arr(items: seq<Json>)
    | Obj(fields: map<string, Json>)

  /** The result of evaluating an expression that may throw a TypeError. */
  datatype Eval<+T> = Done(value: T) | Threw

  /** ToBoolean: `undefined`, `null`, `false`, `0` and `""` are falsy; arrays and objects are truthy. */
  predicate Truthy(v: Option<Json>) {
    match v
    case None => false
    case Some(Null) => false
    case Some(Bool(b)) => b
    case Some(Num(n)) => n != 0
    case Some(Str(s)) => s != ""
    case Some(_) => true
  }

  /** `null` or `undefined`. */
  predicate Nullish(v: Option<Json>) {
    v == None || v == Some(Null)
  }

  /**
   * `v[key]` on a value that is neither `null` nor `undefined`: the own
   * property of an object. The property names this model reads are never
   * array indices nor names of built-in properties, so other values have none.
   */
  function Get(v: Json, key: string): (r: Option<Json>)
    ensures r.Some? ==> v.Obj? && key in v.fields && r.value == v.fields[key]
    ensures v.Obj? && key in v.fields ==> r.Some?
  {
    if v.Obj? && key in v.fields then Some(v.fields[key]) else None
  }

  /** `v.key`: a TypeError exactly when `v` is `null` or `undefined`. */
  function Member(v: Option<Json>, key: string): (r: Eval<Option<Json>>)
    ensures r.Threw? <==> Nullish(v)
    ensures r.Done? ==> r.value == Get(v.value, key)
  {
    if Nullish(v) then Threw else Done(Get(v.value, key))
  }

  /** `v?.key`: `undefined` when `v` is `null` or `undefined`, never a TypeError. */
  function OptionalMember(v: Option<Json>, key: string): (r: Option<Json>)
    ensures Nullish(v) ==> r == None
    ensures !Nullish(v) ==> Member(v, key) == Done(r)
  {
    if Nullish(v) then None else Get(v.value, key)
  }

  /**
   * `v.includes(needle)`: substring search on a string, element search
   * (strict equality) on an array, a TypeError on every other value.
   */
  function Includes(v: Option<Json>, needle: string): (r: Eval<bool>)
    ensures r.Done? <==> v.Some? && (v.value.Str? || v.value.Arr?)
    ensures v.Some? && v.value.Str? ==> r == Done(Contains(v.value.s, needle))
    ensures v.Some? && v.value.Arr? ==> r == Done(Str(needle) in v.value.items)
  {
    match v
    case Some(Str(s)) => Done(Contains(s, needle))
    case Some(Arr(xs)) => Done(Str(needle) in xs)
    case _ => Threw
  }

  /** `a || b` where `b` is a value that is always defined. */
  function OrElse(a: Option<Json>, b: Json): (r: Json)
    ensures Truthy(a) ==> r == a.value
    ensures !Truthy(a) ==> r == b
  {
    if Truthy(a) then a.value else b
  }

  /** `a ?? b` on a value that is defined. */
  function Coalesce(a: Json, b: Json): (r: Json)
    ensures a.Null? ==> r == b
    ensures !a.Null? ==> r == a
  {
    if a.Null? then b else a
  }

  /** Joins strings with a separator, as `Array.prototype.join` does. */
  function Join(parts: seq<string>, sep: string): string
    decreases |parts|
  {
    if parts == [] then ""
    else if |parts| == 1 then parts[0]
    else parts[0] + sep + Join(parts[1..], sep)
  }

  /**
   * Whether ToString throws a TypeError on a value from JSON. An object
   * with an own `toString` property cannot be converted: JSON never makes
   * that property callable, and the inherited `valueOf` gives back the
   * object itself. An array is converted through its elements, so it
   * throws when one of them does.
   */
  predicate ToStringThrows(j: Json)
    decreases j
  {
    match j
    case Obj(fields) => "toString" in fields
    case Arr(xs) => exists i :: 0 <= i < |xs| && ToStringThrows(xs[i])
    case _ => false
  }

  /** The message V8 gives the TypeError of a failed conversion to a primitive. */
  const ConversionError := "Cannot convert object to primitive value"

  /** Evaluates a sequence of results in order: it throws when one of them throws. */
  function AllDone<T>(es: seq<Eval<T>>): (r: Eval<seq<T>>)
    ensures r.Done? <==> forall i :: 0 <= i < |es| ==> es[i].Done?
    ensures r.Done? ==> |r.value| == |es| && forall i :: 0 <= i < |es| ==> r.value[i] == es[i].value
    decreases |es|
  {
    if es == [] then Done([])
    else
      match es[0]
      case Threw => Threw
      case Done(x) =>
        match AllDone(es[1..])
        case Threw => Threw
        case Done(xs) =>
          assert forall i :: 1 <= i < |es| ==> es[i] == es[1..][i - 1];
          Done([x] + xs)
  }

  /**
   * ToString of a defined value, as `String(v)`, template literals,
   * `new URL(v)`, `new Error(v)` and `encodeURIComponent(v)` apply it:
   * arrays join their elements with commas, rendering `null` as the empty
   * string; an object without an own `toString` renders as `[object Object]`.
   * It throws exactly when `ToStringThrows` says so.
   */
  function JsonToString(j: Json): (r: Eval<string>)
    ensures r.Threw? <==> ToStringThrows(j)
    ensures j.Str? ==> r == Done(j.s)
    ensures j.Num? ==> r == Done(IntToString(j.n))
    ensures j.Obj? && "toString" !in j.fields ==> r == Done("[object Object]")
    decreases j
  {
    match j
    case Null => Done("null")
    case Bool(b) => Done(if b then "true" else "false")
    case Num(n) => Done(IntToString(n))
    case Str(s) => Done(s)
    case Arr(xs) =>
      var parts := seq(|xs|, i requires 0 <= i < |xs| => if xs[i].Null? then Done("") else JsonToString(xs[i]));
      assert forall i :: 0 <= i < |xs| ==> (parts[i].Threw? <==> ToStringThrows(xs[i]));
      (match AllDone(parts)
       case Threw => Threw
       case Done(texts) => Done(Join(texts, ",")))
    case Obj(fields) => if "toString" in fields then Threw else Done("[object Object]")
  }

  /** ToString of a value that may be `undefined`. */
  function ToString(v: Option<Json>): (r: Eval<string>)
    ensures v == None ==> r == Done("undefined")
    ensures r.Threw? <==> v.Some? && ToStringThrows(v.value)
    ensures v.Some? && v.value.Str? ==> r == Done(v.value.s)
  {
    match v
    case None => Done("undefined")
    case Some(j) => JsonToString(j)
  }

  /** The own enumerable properties of the elements of `xs`, keyed by index. */
  function IndexedEntries(xs: seq<Json>): (m: map<string, Json>)
    ensures forall i :: 0 <= i < |xs| ==> NatToString(i) in m && m[NatToString(i)] == xs[i]
    ensures forall k :: k in m ==> exists i :: 0 <= i < |xs| && k == NatToString(i)
    decreases |xs|
  {
    if xs == [] then map[]
    else
      var m := IndexedEntries(xs[..|xs| - 1]);
      forall i | 0 <= i < |xs| - 1
        ensures NatToString(i) != NatToString(|xs| - 1)
      {
        if NatToString(i) == NatToString(|xs| - 1) {
          NatToStringInjective(i, |xs| - 1);
        }
      }
      m[NatToString(|xs| - 1) := xs[|xs| - 1]]
  }

  /**
   * The properties `{...v}` copies: an object's own fields; an array's or a
   * string's elements keyed by index (string elements taken per Dafny
   * character); nothing for the other values.
   */
  function Spread(v: Json): (m: map<string, Json>)
    ensures v.Obj? ==> m == v.fields
  {
    match v
    case Obj(fields) => fields
    case Arr(xs) => IndexedEntries(xs)
    case Str(s) => IndexedEntries(seq(|s|, i requires 0 <= i < |s| => Str([s[i]])))
    case _ => map[]
  }

  /**
   * `{...m, key: v}` once serialised: the key is set, or left out when `v`
   * is `undefined` (JSON drops properties whose value is `undefined`).
   */
  function With(m: map<string, Json>, key: string, v: Option<Json>): (r: map<string, Json>)
    ensures v.Some? ==> key in r && r[key] == v.value
    ensures v.None? ==> key !in r
    ensures forall k :: k != key ==> (k in r <==> k in m) && (k in m ==> r[k] == m[k])
  {
    if v.Some? then m[key := v.value] else m - {key}
  }
}
