/**
 * JSON values as the pipeline's Python code sees them after `json.loads`: dicts, lists,
 * strings, numbers, booleans and None. Python's truthiness, `dict.get` and `dict.pop`
 * are defined here once and used by every stage.
 */
module PyJson {
  import opened Wrappers

  datatype Json =
    | JNull
    | JBool(b: bool)
    | JNum(n: real)
    | JStr(s: string)
    | JArr(items: seq<Json>)
    | JObj(fields: map<string, Json>)

  /** A Python dict with string keys: a location record, a geocode sub-object, a payload. */
  type Record = map<string, Json>

  const EmptyObj: Json := JObj(map[])
  const EmptyArr: Json := JArr([])

  /** Python's `bool(x)` on a JSON value. */
  predicate Truthy(j: Json) {
    match j
    case JNull => false
    case JBool(b) => b
    case JNum(n) => n != 0.0
    case JStr(s) => s != []
    case JArr(xs) => xs != []
    case JObj(m) => m != map[]
  }

  /** `x == True` in Python, where `1 == True` and `1.0 == True` also hold. */
  predicate IsTrue(j: Json) {
    j == JBool(true) || j == JNum(1.0)
  }

  /** A value that may be put in a Python set or used as a dict key. */
  predicate Hashable(j: Json) {
    !j.JArr? && !j.JObj?
  }

  /** `str(j)` as an f-string interpolates it: a string is itself, anything else is rendered by `show`. */
  function Str(j: Json, show: Json -> string): string {
    if j.JStr? then j.s else show(j)
  }

  /** `d.get(k, default)`. */
  function Get(d: Record, k: string, default: Json): (r: Json)
    ensures k in d ==> r == d[k]
    ensures k !in d ==> r == default
  {
    if k in d then d[k] else default
  }

  /** `x.get(k, default)` where `x` need not be a dict: anything else raises AttributeError. */
  function GetFrom(x: Json, k: string, default: Json): (r: Result<Json>)
    ensures r.Ok? <==> x.JObj?
    ensures x.JObj? ==> r.value == Get(x.fields, k, default)
  {
    if x.JObj? then Ok(Get(x.fields, k, default)) else Err(AttributeError)
  }

  /** `x[k]` with a string key: a dict without `k` raises KeyError, any other value TypeError. */
  function Item(x: Json, k: string): (r: Result<Json>)
    ensures r.Ok? <==> x.JObj? && k in x.fields
    ensures r.Ok? ==> r.value == x.fields[k]
    ensures r.Err? ==> r.fault == (if x.JObj? then KeyError else TypeError)
  {
    if !x.JObj? then Err(TypeError)
    else if k in x.fields then Ok(x.fields[k])
    else Err(KeyError)
  }

  /** Removes every key of `keys` (a sequence of `d.pop(k, None)`). */
  function Pop(d: Record, keys: set<string>): (r: Record)
    ensures r.Keys == d.Keys - keys
    ensures forall k :: k in r ==> r[k] == d[k]
  {
    d - keys
  }

  /** Wraps records back into a JSON list of dicts. */
  function FromRecords(rs: seq<Record>): (j: Json)
    ensures j.JArr? && |j.items| == |rs|
    ensures forall i :: 0 <= i < |rs| ==> j.items[i] == JObj(rs[i])
  {
    JArr(seq(|rs|, i requires 0 <= i < |rs| => JObj(rs[i])))
  }

  /**
   * A `for x in v` loop over `v` whose body calls `x.get(...)`: a list of dicts yields its
   * dicts; an empty dict or empty string yields nothing; any other value either is not
   * iterable (TypeError) or yields an item that is not a dict (AttributeError).
   */
  function DictItems(v: Json): (r: Result<seq<Record>>)
    ensures r.Ok? && v.JArr? ==>
      (|r.value| == |v.items| && forall i :: 0 <= i < |v.items| ==> v.items[i] == JObj(r.value[i]))
    ensures v.JArr? && (forall i :: 0 <= i < |v.items| ==> v.items[i].JObj?) ==> r.Ok?
    ensures r.Ok? && !v.JArr? ==> r.value == []
  {
    match v
    case JArr(xs) =>
      if forall i :: 0 <= i < |xs| ==> xs[i].JObj? then
        Ok(seq(|xs|, i requires 0 <= i < |xs| => xs[i].fields))
      else Err(AttributeError)
    case JObj(m) => if m == map[] then Ok([]) else Err(AttributeError)
    case JStr(s) => if s == [] then Ok([]) else Err(AttributeError)
    case _ => Err(TypeError)
  }

  /**
   * The items a `for x in v` loop visits when its body starts with a dict method call on
   * `x`: a list yields its elements; an empty dict or string yields nothing; a non-empty
   * dict or string yields a string first, whose `.get` raises AttributeError; any other
   * value is not iterable (TypeError).
   */
  function LoopItems(v: Json): (r: Result<seq<Json>>)
    ensures r.Ok? <==> v.JArr? || v == EmptyObj || v == JStr([])
    ensures r.Ok? ==> r.value == (if v.JArr? then v.items else [])
  {
    match v
    case JArr(xs) => Ok(xs)
    case JObj(m) => if m == map[] then Ok([]) else Err(AttributeError)
    case JStr(s) => if s == [] then Ok([]) else Err(AttributeError)
    case _ => Err(TypeError)
  }

  /** The one-character strings a loop over a string visits. */
  function Chars(s: string): seq<Json> {
    seq(|s|, i requires 0 <= i < |s| => JStr([s[i]]))
  }

  /** `FromRecords` and `DictItems` are inverse on lists of dicts. */
  lemma DictItemsFromRecords(rs: seq<Record>)
    ensures DictItems(FromRecords(rs)) == Ok(rs)
  {
    var r := DictItems(FromRecords(rs));
    assert r.Ok?;
    assert r.value == rs;
  }
}
