/**
 * The Python operations the tools apply to decoded JSON values, with the
 * exception each one raises on a value of the wrong type.
 */
module Py {
  import opened Strings
  import opened Wrappers
  import opened JsonValues
  import opened Common

  function NoAttribute(v: Json, attribute: string): Error {
    Raised("AttributeError", "'" + TypeName(v) + "' object has no attribute '" + attribute + "'")
  }

  function NotSubscriptable(v: Json): Error {
    Raised("TypeError", "'" + TypeName(v) + "' object is not subscriptable")
  }

  /** `v.get(key, default)` */
  function Get(v: Json, key: string, default: Json): (r: Result<Json>)
    ensures r.Ok? <==> v.JObj?
    ensures v.JObj? && key !in Keys(v.fields) ==> r.value == default
    ensures v.JObj? && key in Keys(v.fields) ==> Some(r.value) == Lookup(v.fields, key)
  {
    if !v.JObj? then Err(NoAttribute(v, "get"))
    else
      match Lookup(v.fields, key)
      case Some(x) => Ok(x)
      case None => Ok(default)
  }

  /** `key in v` for a string key. */
  function Has(key: string, v: Json): (r: Result<bool>)
    ensures r.Ok? <==> v.JObj? || v.JArr? || v.JStr?
    ensures v.JObj? ==> r.value == (key in Keys(v.fields))
    ensures v.JArr? ==> r.value == (JStr(key) in v.items)
    ensures v.JStr? ==> r.value == IsSubstring(key, v.s)
  {
    match v
    case JObj(fields) => Ok(key in Keys(fields))
    case JArr(items) => Ok(JStr(key) in items)
    case JStr(s) => Ok(IsSubstring(key, s))
    case _ => Err(Raised("TypeError", "argument of type '" + TypeName(v) + "' is not iterable"))
  }

  /** `v[key]` for a string key. */
  function Index(v: Json, key: string): (r: Result<Json>)
    ensures r.Ok? <==> v.JObj? && key in Keys(v.fields)
    ensures r.Ok? ==> Some(r.value) == Lookup(v.fields, key)
  {
    match v
    case JObj(fields) =>
      (match Lookup(fields, key)
       case Some(x) => Ok(x)
       case None => Err(Raised("KeyError", "'" + key + "'")))
    case JArr(_) => Err(Raised("TypeError", "list indices must be integers or slices, not str"))
    case JStr(_) => Err(Raised("TypeError", "string indices must be integers, not 'str'"))
    case _ => Err(NotSubscriptable(v))
  }

  /** `v[0]` */
  function First(v: Json): (r: Result<Json>)
    ensures v.JArr? ==> (r.Ok? <==> v.items != []) && (r.Ok? ==> r.value == v.items[0])
    ensures v.JStr? ==> (r.Ok? <==> v.s != []) && (r.Ok? ==> r.value == JStr([v.s[0]]))
    ensures !v.JArr? && !v.JStr? ==> r.Err?
  {
    match v
    case JArr(items) => if items == [] then Err(Raised("IndexError", "list index out of range")) else Ok(items[0])
    case JStr(s) => if s == [] then Err(Raised("IndexError", "string index out of range")) else Ok(JStr([s[0]]))
    case JObj(_) => Err(Raised("KeyError", "0"))
    case _ => Err(NotSubscriptable(v))
  }

  /** `len(v)` */
  function Len(v: Json): (r: Result<nat>)
    ensures r.Ok? <==> v.JObj? || v.JArr? || v.JStr?
    ensures v.JArr? ==> r.value == |v.items|
    ensures v.JObj? ==> r.value == |v.fields|
    ensures v.JStr? ==> r.value == |v.s|
  {
    match v
    case JObj(fields) => Ok(|fields|)
    case JArr(items) => Ok(|items|)
    case JStr(s) => Ok(|s|)
    case _ => Err(Raised("TypeError", "object of type '" + TypeName(v) + "' has no len()"))
  }

  /** `v[:n]` */
  function Take(v: Json, n: nat): (r: Result<Json>)
    ensures r.Ok? <==> v.JArr? || v.JStr?
    ensures v.JArr? ==> r.value == JArr(if |v.items| <= n then v.items else v.items[..n])
    ensures v.JStr? ==> r.value == JStr(if |v.s| <= n then v.s else v.s[..n])
  {
    match v
    case JArr(items) => Ok(JArr(if |items| <= n then items else items[..n]))
    case JStr(s) => Ok(JStr(if |s| <= n then s else s[..n]))
    case JObj(_) => Err(Raised("TypeError", "unhashable type: 'slice'"))
    case _ => Err(NotSubscriptable(v))
  }

  /** `list(v)`: what `for x in v` visits. */
  function Elements(v: Json): (r: Result<seq<Json>>)
    ensures r.Ok? <==> v.JObj? || v.JArr? || v.JStr?
    ensures v.JArr? ==> r.value == v.items
    ensures v.JObj? ==> |r.value| == |v.fields| && forall i :: 0 <= i < |v.fields| ==> r.value[i] == JStr(v.fields[i].0)
    ensures v.JStr? ==> |r.value| == |v.s| && forall i :: 0 <= i < |v.s| ==> r.value[i] == JStr([v.s[i]])
  {
    match v
    case JArr(items) => Ok(items)
    case JObj(fields) => Ok(seq(|fields|, i requires 0 <= i < |fields| => JStr(fields[i].0)))
    case JStr(s) => Ok(seq(|s|, i requires 0 <= i < |s| => JStr([s[i]])))
    case _ => Err(Raised("TypeError", "'" + TypeName(v) + "' object is not iterable"))
  }

  /** `list(v.items())` */
  function Items(v: Json): (r: Result<seq<(string, Json)>>)
    ensures r.Ok? <==> v.JObj?
    ensures r.Ok? ==> r.value == v.fields
  {
    if v.JObj? then Ok(v.fields) else Err(NoAttribute(v, "items"))
  }

  /** `a or b` */
  function Or(a: Json, b: Json): (r: Json)
    ensures Truthy(a) ==> r == a
    ensures !Truthy(a) ==> r == b
  {
    if Truthy(a) then a else b
  }
}
