/** JSON values as `json.loads` returns them, with Python's truthiness and
    `str()` where the core relies on them. */
module Json {
  import opened Wrappers
  import opened Text

  /** An object keeps its members in document order, like a Python `dict`. */
  datatype Json =
    | JNull
    | JBool(b: bool)
    | JInt(i: int)
    | JFloat(f: real)
    | JStr(s: string)
    | JArr(items: seq<Json>)
    | JObj(fields: seq<(string, Json)>)

  /** `bool(v)` in Python. */
  predicate Truthy(v: Json) {
    match v
    case JNull => false
    case JBool(b) => b
    case JInt(i) => i != 0
    case JFloat(f) => f != 0.0
    case JStr(s) => s != []
    case JArr(a) => a != []
    case JObj(fs) => fs != []
  }

  /** `d.get(k)` on a dict built by `json.loads`: a repeated key keeps its last value. */
  function Lookup(fields: seq<(string, Json)>, k: string): (r: Option<Json>)
    ensures r.None? <==> forall i | 0 <= i < |fields| :: fields[i].0 != k
    ensures r.Some? ==> exists i | 0 <= i < |fields| ::
      fields[i] == (k, r.value) && forall j | i < j < |fields| :: fields[j].0 != k
  {
    if fields == [] then None
    else if fields[|fields| - 1].0 == k then Some(fields[|fields| - 1].1)
    else Lookup(fields[..|fields| - 1], k)
  }

  /** The keys of a dict, each once, as a Python dict holds them. */
  predicate DistinctKeys(fields: seq<(string, Json)>) {
    forall i, j | 0 <= i < j < |fields| :: fields[i].0 != fields[j].0
  }

  lemma LookupDistinct(fields: seq<(string, Json)>, i: nat)
    requires DistinctKeys(fields) && i < |fields|
    ensures Lookup(fields, fields[i].0) == Some(fields[i].1)
  {
  }

  /** `str(v)` for a scalar; `other` stands for Python's repr of floats, lists and dicts. */
  function PyStr(v: Json, other: Json -> string): (r: string)
    ensures v.JStr? ==> r == v.s
    ensures v.JInt? ==> PyInt(r) == Some(v.i)
  {
    match v
    case JNull => "None"
    case JBool(b) => if b then "True" else "False"
    case JInt(i) => PyIntOfIntToStr(i); IntToStr(i)
    case JStr(s) => s
    case _ => other(v)
  }
}
