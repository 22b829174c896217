/** The Python values the monitor handles: a parsed JSON document (what
    `response.json()` hands back), Python's truthiness, `dict.get` with a
    default, `in`, `d[key]`, iteration, and the exceptions these raise on a
    value of the wrong type. */
module Values {

  datatype Option<+T> = None | Some(value: T) {
    /** The value, or `default` when there is none. */
    function GetOr(default: T): T {
      match this
      case Some(v) => v
      case None => default
    }
  }

  /** The Python exception classes the extraction can raise. Nothing in the
      monitor catches them. */
  datatype Failure =
    | TypeError       // iterating, `in` or `[...]` on a value that does not support it
    | AttributeError  // `.get`, `.lower` or `.split` on a value that has no such method
    | IndexError      // `split(".")[1]` on a key without a dot
    | KeyError        // `d[key]` on a dict without that key

  datatype Result<+T> = Ok(value: T) | Err(failure: Failure) {
    predicate IsFailure() { Err? }
    function PropagateFailure<U>(): Result<U> requires Err? { Err(failure) }
    function Extract(): T requires Ok? { value }
  }

  /** A JSON value as Python holds it after parsing. An object is a Python
      dict: its fields in insertion order. */
  datatype Json =
    | JNull
    | JBool(b: bool)
    | JNum(n: real)
    | JStr(s: string)
    | JArr(items: seq<Json>)
    | JObj(fields: seq<(string, Json)>)

  /** Python's `bool(v)`. */
  predicate Truthy(v: Json) {
    match v
    case JNull => false
    case JBool(b) => b
    case JNum(n) => n != 0.0
    case JStr(s) => s != []
    case JArr(xs) => xs != []
    case JObj(fs) => fs != []
  }

  predicate HasKey(fields: seq<(string, Json)>, key: string) {
    exists i :: 0 <= i < |fields| && fields[i].0 == key
  }

  /** The value a dict holds for `key`: the last field with that key, as a
      parser that lets a repeated key overwrite the earlier one leaves it. */
  function Lookup(fields: seq<(string, Json)>, key: string): (r: Option<Json>)
    decreases |fields|
    ensures r.Some? <==> HasKey(fields, key)
    ensures r.Some? ==> exists i :: 0 <= i < |fields| && fields[i] == (key, r.value) &&
                                    forall j :: i < j < |fields| ==> fields[j].0 != key
  {
    if fields == [] then None
    else
      var n := |fields| - 1;
      if fields[n].0 == key then Some(fields[n].1)
      else
        var r := Lookup(fields[..n], key);
        assert forall i :: 0 <= i < n ==> fields[..n][i] == fields[i];
        r
  }

  /** `v.get(key, default)`: only a dict has the method. */
  function Get(v: Json, key: string, default: Json): (r: Result<Json>)
    ensures r.Ok? <==> v.JObj?
    ensures v.JObj? ==> r.value == Lookup(v.fields, key).GetOr(default)
    ensures !v.JObj? ==> r == Err(AttributeError)
  {
    match v
    case JObj(fs) => Ok(Lookup(fs, key).GetOr(default))
    case _ => Err(AttributeError)
  }

  /** `needle` occurs in `s` at some position. */
  predicate IsSubstring(needle: string, s: string)
    decreases |s|
  {
    needle <= s || (s != [] && IsSubstring(needle, s[1..]))
  }

  /** `needle in v`: a key of a dict, an element of a list, a substring of a
      string; any other value raises TypeError. */
  function Contains(v: Json, needle: string): (r: Result<bool>)
    ensures r.Ok? <==> (v.JObj? || v.JArr? || v.JStr?)
    ensures v.JObj? ==> r == Ok(HasKey(v.fields, needle))
    ensures v.JArr? ==> r == Ok(JStr(needle) in v.items)
    ensures v.JStr? ==> r == Ok(IsSubstring(needle, v.s))
    ensures r.Err? ==> r.failure == TypeError
  {
    match v
    case JObj(fs) => Ok(HasKey(fs, needle))
    case JArr(xs) => Ok(JStr(needle) in xs)
    case JStr(s) => Ok(IsSubstring(needle, s))
    case _ => Err(TypeError)
  }

  /** `v[key]` with a string key: a dict gives its value (KeyError when the
      key is absent), a list or string refuses a string index (TypeError),
      and every other value refuses subscripting altogether (TypeError). */
  function Subscript(v: Json, key: string): (r: Result<Json>)
    ensures r.Ok? <==> v.JObj? && HasKey(v.fields, key)
    ensures r.Ok? ==> Lookup(v.fields, key) == Some(r.value)
    ensures v.JObj? && !HasKey(v.fields, key) ==> r == Err(KeyError)
    ensures !v.JObj? ==> r == Err(TypeError)
  {
    match v
    case JObj(fs) =>
      (match Lookup(fs, key)
       case Some(x) => Ok(x)
       case None => Err(KeyError))
    case _ => Err(TypeError)
  }

  /** The items `for x in v` visits: a list's elements, a string's characters
      (each a one-character string), a dict's keys (each a string); any
      other value raises TypeError. */
  function Iterate(v: Json): (r: Result<seq<Json>>)
    ensures r.Ok? <==> (v.JArr? || v.JStr? || v.JObj?)
    ensures v.JArr? ==> r == Ok(v.items)
    ensures v.JStr? ==> |r.value| == |v.s| && forall i :: 0 <= i < |v.s| ==> r.value[i] == JStr([v.s[i]])
    ensures v.JObj? ==> |r.value| == |v.fields| && forall i :: 0 <= i < |v.fields| ==> r.value[i] == JStr(v.fields[i].0)
    ensures r.Err? ==> r.failure == TypeError
  {
    match v
    case JArr(xs) => Ok(xs)
    case JStr(s) => Ok(seq(|s|, i requires 0 <= i < |s| => JStr([s[i]])))
    case JObj(fs) => Ok(seq(|fs|, i requires 0 <= i < |fs| => JStr(fs[i].0)))
    case _ => Err(TypeError)
  }
}
