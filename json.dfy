/**
 * JSON values as the client sees them after `response.json()` / `json.loads`,
 * with the handful of Python operations the client applies to them:
 * truthiness, `dict.get`, `len`, iteration and `float()`.
 *
 * Python's `None` and JSON `null` are the same value in the client, so `JNull`
 * stands for both. Objects keep their keys in insertion order (Python dicts
 * iterate in that order). A decoded dict has distinct keys; an object value
 * here may repeat a key, and then `Lookup` finds the first entry where
 * Python's decoder would have kept the last.
 */
module Json {

  datatype Option<+T> = None | Some(value: T)

  /** What a Python call does: return a value, or raise an exception (its text). */
  datatype Outcome<+T> = Return(value: T) | Throw(error: string)

  datatype Json =
    | JNull
    | JBool(b: bool)
    | JNum(n: real)
    | JStr(s: string)
    | JArr(items: seq<Json>)
    | JObj(fields: seq<(string, Json)>)

  /** Python truthiness: None, False, 0, "", [] and {} are falsy. */
  predicate Truthy(j: Json)
  {
    match j
    case JNull => false
    case JBool(b) => b
    case JNum(n) => n != 0.0
    case JStr(s) => s != []
    case JArr(xs) => xs != []
    case JObj(fs) => fs != []
  }

  /** The value stored under `key`, searching the fields in order. */
  function Lookup<V>(fields: seq<(string, V)>, key: string): (r: Option<V>)
    ensures r.Some? <==> exists i :: 0 <= i < |fields| && fields[i].0 == key
  {
    if fields == [] then None
    else if fields[0].0 == key then Some(fields[0].1)
    else
      var rest := Lookup(fields[1..], key);
      assert forall i :: 1 <= i < |fields| ==> fields[i] == fields[1..][i - 1];
      rest
  }

  /** Looking a key up in two field lists laid end to end searches the first list first. */
  lemma {:induction false} LookupAppend<V>(a: seq<(string, V)>, b: seq<(string, V)>, key: string)
    ensures Lookup(a + b, key) == if Lookup(a, key).Some? then Lookup(a, key) else Lookup(b, key)
  {
    if a == [] {
      assert a + b == b;
    } else {
      assert (a + b)[1..] == a[1..] + b;
      LookupAppend(a[1..], b, key);
    }
  }

  /** `key in j` for a dict `j`. */
  predicate HasKey(j: Json, key: string)
  {
    j.JObj? && Lookup(j.fields, key).Some?
  }

  /**
   * `j.get(key, default)` where `j` is used as a dict. Widget code only reaches
   * it with dicts; a non-dict is read as having no keys.
   */
  function GetOr(j: Json, key: string, default: Json): Json
  {
    if j.JObj? then
      match Lookup(j.fields, key)
      case Some(v) => v
      case None => default
    else default
  }

  /** `j.get(key, default)` with Python's AttributeError on anything but a dict. */
  function Get(j: Json, key: string, default: Json): Outcome<Json>
  {
    if j.JObj? then Return(GetOr(j, key, default))
    else Throw("AttributeError")
  }

  /** The elements Python's `for x in j` visits: list items, dict keys, characters. */
  function Iterate(j: Json): Outcome<seq<Json>>
  {
    match j
    case JArr(xs) => Return(xs)
    case JObj(fs) => Return(seq(|fs|, i requires 0 <= i < |fs| => JStr(fs[i].0)))
    case JStr(s) => Return(seq(|s|, i requires 0 <= i < |s| => JStr([s[i]])))
    case _ => Throw("TypeError")
  }

  /** The elements iterated by widget code, which only iterates containers. */
  function Elements(j: Json): seq<Json>
  {
    match Iterate(j)
    case Return(xs) => xs
    case Throw(_) => []
  }

  /** `len(j)` for the containers widget code measures. */
  function Len(j: Json): (n: nat)
    ensures n == |Elements(j)|
  {
    match j
    case JArr(xs) => |xs|
    case JObj(fs) => |fs|
    case JStr(s) => |s|
    case _ => 0
  }

  /** `j.items()` of a dict; widget code only calls it on dicts. */
  function Items(j: Json): seq<(string, Json)>
  {
    if j.JObj? then j.fields else []
  }

  /**
   * Python's `float(j)`, or None where it raises. Strings are parsed by
   * `parse`, an oracle for Python's float syntax.
   */
  function ToFloat(j: Json, parse: string -> Option<real>): Option<real>
  {
    match j
    case JNum(n) => Some(n)
    case JBool(b) => Some(if b then 1.0 else 0.0)
    case JStr(s) => parse(s)
    case _ => None
  }

  /** The string inside a JSON string, and "" for every other value. */
  function TextOf(j: Json): string
  {
    if j.JStr? then j.s else ""
  }
}
