/** The slice of Python's runtime the gateway relies on: parsed JSON values as
    `json.loads` returns them, the exceptions the code lets escape, and the
    duck-typed operations (truthiness, `dict.get`, `d[k]`, iteration, `in`,
    `len`, hashing) whose failures become those exceptions.
 */
module Python {

  /** Exception classes that can escape the modelled code uncaught. */
  datatype Cause =
    | TransportError    // anything the HTTP client's GET raises (DNS, TLS, connect, timeout)
    | JsonDecodeError   // `response.json()` on a body that is not a JSON document
    | TypeError
    | AttributeError
    | KeyError
    | IndexError

  /** A Python computation: a value, or an exception that propagates. */
  datatype Result<+T> = Ok(value: T) | Raise(cause: Cause) {
    predicate IsFailure() {
      Raise?
    }

    function PropagateFailure<U>(): Result<U>
      requires Raise?
    {
      Raise(cause)
    }

    function Extract(): T
      requires Ok?
    {
      value
    }
  }

  datatype Option<+T> = None | Some(value: T)

  /** A decoded JSON value. An object keeps its entries in insertion order, as
      a Python dict does; a decoded dict has distinct keys, and lookups below
      take the first entry with a given key. Python's `None` is `JNull`. */
  datatype Json =
    | JNull
    | JBool(b: bool)
    | JNum(n: int)
    | JStr(s: string)
    | JArray(items: seq<Json>)
    | JObject(entries: seq<(string, Json)>)

  /** `bool(v)`: null, false, zero and empty containers are falsy. */
  predicate Truthy(v: Json) {
    match v
    case JNull => false
    case JBool(b) => b
    case JNum(n) => n != 0
    case JStr(s) => |s| > 0
    case JArray(items) => |items| > 0
    case JObject(entries) => |entries| > 0
  }

  /** Values a Python set can hold: lists and dicts are unhashable. */
  predicate Hashable(v: Json) {
    !v.JArray? && !v.JObject?
  }

  predicate HasKey(entries: seq<(string, Json)>, key: string) {
    exists i :: 0 <= i < |entries| && entries[i].0 == key
  }

  /** The value stored under `key`, or `JNull` (Python's `None`) when absent. */
  function Lookup(entries: seq<(string, Json)>, key: string): (v: Json)
    ensures !HasKey(entries, key) ==> v == JNull
    ensures |entries| > 0 && entries[0].0 == key ==> v == entries[0].1
  {
    if |entries| == 0 then JNull
    else if entries[0].0 == key then entries[0].1
    else Lookup(entries[1..], key)
  }

  /** `v.get(key)`: only dicts have a `get` method. */
  function GetField(v: Json, key: string): (r: Result<Json>)
    ensures r.Ok? <==> v.JObject?
    ensures r.Raise? ==> r.cause == AttributeError
    ensures r.Ok? && !HasKey(v.entries, key) ==> r.value == JNull
  {
    match v
    case JObject(entries) => Ok(Lookup(entries, key))
    case _ => Raise(AttributeError)
  }

  /** `v[key]` with a string key: a dict raises `KeyError` for a missing key,
      every other value raises `TypeError`. */
  function Subscript(v: Json, key: string): (r: Result<Json>)
    ensures r.Ok? <==> v.JObject? && HasKey(v.entries, key)
    ensures r.Raise? && v.JObject? ==> r.cause == KeyError
    ensures r.Raise? && !v.JObject? ==> r.cause == TypeError
  {
    match v
    case JObject(entries) => if HasKey(entries, key) then Ok(Lookup(entries, key)) else Raise(KeyError)
    case _ => Raise(TypeError)
  }

  /** `for x in v`: a list yields its items, a string its one-character
      strings, a dict its keys; anything else is not iterable. */
  function Iterate(v: Json): (r: Result<seq<Json>>)
    ensures r.Ok? <==> v.JArray? || v.JStr? || v.JObject?
    ensures v.JArray? ==> r == Ok(v.items)
    ensures r.Ok? ==> (|r.value| > 0 <==> Truthy(v))
    ensures r.Raise? ==> r.cause == TypeError
  {
    match v
    case JArray(items) => Ok(items)
    case JStr(s) => Ok(seq(|s|, i requires 0 <= i < |s| => JStr([s[i]])))
    case JObject(entries) => Ok(seq(|entries|, i requires 0 <= i < |entries| => JStr(entries[i].0)))
    case _ => Raise(TypeError)
  }

  /** `len(v)`, defined for strings, lists and dicts. */
  function Len(v: Json): (r: Result<nat>)
    ensures r.Ok? <==> v.JArray? || v.JStr? || v.JObject?
    ensures r.Ok? ==> (r.value > 0 <==> Truthy(v))
    ensures r.Raise? ==> r.cause == TypeError
  {
    match v
    case JStr(s) => Ok(|s|)
    case JArray(items) => Ok(|items|)
    case JObject(entries) => Ok(|entries|)
    case _ => Raise(TypeError)
  }

  /** `x` occurs as a contiguous piece of `s` (Python's `x in s` on strings). */
  predicate Occurs(x: string, s: string)
    decreases |s|
  {
    x <= s || (|s| > 0 && Occurs(x, s[1..]))
  }

  /** `x in v` for a string `x`: list membership, substring test, or dict key
      test; numbers, booleans and `None` raise `TypeError`. */
  function Contains(v: Json, x: string): (r: Result<bool>)
    ensures r.Ok? <==> v.JArray? || v.JStr? || v.JObject?
    ensures v.JArray? ==> r == Ok(JStr(x) in v.items)
    ensures v.JObject? ==> r == Ok(HasKey(v.entries, x))
    ensures r.Raise? ==> r.cause == TypeError
  {
    match v
    case JArray(items) => Ok(JStr(x) in items)
    case JStr(s) => Ok(Occurs(x, s))
    case JObject(entries) => Ok(HasKey(entries, x))
    case _ => Raise(TypeError)
  }

  /** `{x for x in items}`: every element must be hashable. */
  function ToSet(items: seq<Json>): (r: Result<set<Json>>)
    ensures r.Ok? <==> forall i :: 0 <= i < |items| ==> Hashable(items[i])
    ensures r.Ok? ==> forall x :: x in r.value <==> x in items
    ensures r.Raise? ==> r.cause == TypeError
  {
    if forall i :: 0 <= i < |items| ==> Hashable(items[i]) then Ok(set x | x in items)
    else Raise(TypeError)
  }
}
