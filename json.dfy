/**
 * A decoded JSON document as the Python adapters hold it after `response.json()`
 * (or a literal dict they build), with Python's truthiness and an approximation
 * of `str()` and `repr()`. Objects keep their keys in insertion order. A Python
 * dict holds each key once; the datatype does not enforce that, and the lemmas
 * that rely on it require `UniqueKeys`.
 */
module JsonValues {
  import opened Strings
  import opened Wrappers

  datatype Json =
    | JNull
    | JBool(b: bool)
    | JInt(i: int)
    | JReal(r: real)
    | JStr(s: string)
    | JArr(items: seq<Json>)
    | JObj(fields: seq<(string, Json)>)

  /** `bool(v)`: None, False, 0, 0.0 and empty containers are false. */
  predicate Truthy(v: Json) {
    match v
    case JNull => false
    case JBool(b) => b
    case JInt(i) => i != 0
    case JReal(r) => r != 0.0
    case JStr(s) => s != ""
    case JArr(items) => items != []
    case JObj(fields) => fields != []
  }

  /** `type(v).__name__` */
  function TypeName(v: Json): string {
    match v
    case JNull => "NoneType"
    case JBool(_) => "bool"
    case JInt(_) => "int"
    case JReal(_) => "float"
    case JStr(_) => "str"
    case JArr(_) => "list"
    case JObj(_) => "dict"
  }

  /** The keys of an object, in order. */
  function Keys(fields: seq<(string, Json)>): (ks: seq<string>)
    ensures |ks| == |fields| && forall i :: 0 <= i < |fields| ==> ks[i] == fields[i].0
  {
    seq(|fields|, i requires 0 <= i < |fields| => fields[i].0)
  }

  /** No key appears twice, as in a Python dict. */
  predicate UniqueKeys(fields: seq<(string, Json)>) {
    forall i, j :: 0 <= i < j < |fields| ==> fields[i].0 != fields[j].0
  }

  /** The value stored under `key`, if the object has that key. */
  function Lookup(fields: seq<(string, Json)>, key: string): (r: Option<Json>)
    ensures r.None? <==> key !in Keys(fields)
    ensures r.Some? ==> exists i :: 0 <= i < |fields| && fields[i] == (key, r.value)
  {
    if fields == [] then None
    else if fields[0].0 == key then Some(fields[0].1)
    else
      var rest := Lookup(fields[1..], key);
      assert Keys(fields) == [fields[0].0] + Keys(fields[1..]);
      assert rest.Some? ==> fields[1..][0] in fields;
      rest
  }

  /** The value under a key is the one at its first position. */
  lemma {:induction false} LookupAt(fields: seq<(string, Json)>, i: nat, key: string)
    requires i < |fields| && fields[i].0 == key
    requires forall j :: 0 <= j < i ==> fields[j].0 != key
    ensures Lookup(fields, key) == Some(fields[i].1)
    decreases i
  {
    if i > 0 {
      LookupAt(fields[1..], i - 1, key);
    }
  }

  /** Python's `repr()` of a float whose value is not integral: a decimal expansion (at most 17 places). */
  function FractionDigits(f: real, places: nat): string
    requires 0.0 <= f < 1.0
    decreases places
  {
    if places == 0 || f == 0.0 then ""
    else
      var d := (f * 10.0).Floor;
      [DigitChar(d)] + FractionDigits(f * 10.0 - d as real, places - 1)
  }

  function NonNegativeRealRepr(x: real): string
    requires x >= 0.0
  {
    var whole := x.Floor;
    var frac := x - whole as real;
    NatToString(whole) + "." + (if frac == 0.0 then "0" else FractionDigits(frac, 17))
  }

  /** `repr(x)` of a float (`3.0`, `-2100.0`, `0.5`). */
  function RealRepr(x: real): string {
    if x < 0.0 then "-" + NonNegativeRealRepr(-x) else NonNegativeRealRepr(x)
  }

  /** `repr(v)`, as `str()` shows values nested in a list or dict. */
  function Repr(v: Json): string
    decreases v, 1
  {
    match v
    case JNull => "None"
    case JBool(b) => if b then "True" else "False"
    case JInt(i) => IntToString(i)
    case JReal(r) => RealRepr(r)
    case JStr(s) => "'" + s + "'"
    case JArr(items) => "[" + ReprItems(v, items) + "]"
    case JObj(fields) => "{" + ReprFields(v, fields) + "}"
  }

  /** The items of a list, `repr`'d and separated by ", ". */
  function ReprItems(parent: Json, items: seq<Json>): string
    requires forall i :: 0 <= i < |items| ==> items[i] < parent
    decreases parent, 0, |items|
  {
    if items == [] then ""
    else if |items| == 1 then Repr(items[0])
    else Repr(items[0]) + ", " + ReprItems(parent, items[1..])
  }

  /** The entries of a dict as `'key': repr(value)`, separated by ", ". */
  function ReprFields(parent: Json, fields: seq<(string, Json)>): string
    requires forall i :: 0 <= i < |fields| ==> fields[i].1 < parent
    decreases parent, 0, |fields|
  {
    if fields == [] then ""
    else
      var entry := "'" + fields[0].0 + "': " + Repr(fields[0].1);
      if |fields| == 1 then entry else entry + ", " + ReprFields(parent, fields[1..])
  }

  /** `str(v)` (what an f-string interpolates): strings as they are, everything else as `repr`. */
  function Display(v: Json): string {
    if v.JStr? then v.s else Repr(v)
  }
}
