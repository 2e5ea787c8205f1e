/**
 * The JSON values the tag-type cache reads and writes: the documents downloaded
 * from the definition repository and the blobs held by the storage helper.
 */
module Json {
  import opened Wrappers

  datatype Value =
    | JNull
    | JBool(b: bool)
    | JInt(i: int)
    | JStr(s: string)
    | JList(items: seq<Value>)
    | JObj(obj: Dict)

  /**
   * A Python dict with string keys: its bindings, and its keys in insertion order
   * (which `list(d)` and `d.items()` expose).
   */
  datatype Dict = Dict(keys: seq<string>, entries: map<string, Value>)

  /** The keys are listed once each, and they are exactly the bound keys. */
  ghost predicate WellFormed(d: Dict) {
    && (forall i, j :: 0 <= i < j < |d.keys| ==> d.keys[i] != d.keys[j])
    && (forall k :: k in d.entries <==> k in d.keys)
  }

  const EmptyDict := Dict([], map[])

  /** `d[key]`, or None when `key not in d`. */
  function Lookup(d: Dict, key: string): Option<Value> {
    if key in d.entries then Some(d.entries[key]) else None
  }

  /** `key in d`. */
  predicate Has(d: Dict, key: string) {
    key in d.entries
  }

  /** `d.get(key, default)`: a key present with value null yields null, not the default. */
  function GetOr(d: Dict, key: string, default: Value): Value {
    if key in d.entries then d.entries[key] else default
  }

  /** Python truthiness of a JSON value. */
  predicate Truthy(v: Value) {
    match v
    case JNull => false
    case JBool(b) => b
    case JInt(i) => i != 0
    case JStr(s) => s != []
    case JList(xs) => xs != []
    case JObj(d) => d.entries != map[]
  }

  /** Python `v == 1`; `True == 1` holds in Python. */
  predicate EqualsOne(v: Value) {
    v == JInt(1) || v == JBool(true)
  }

  /** One-character strings of `s`, as `list(s)` gives them. */
  function Chars(s: string): (r: seq<Value>)
    ensures |r| == |s| && forall i :: 0 <= i < |s| ==> r[i] == JStr([s[i]])
  {
    if s == [] then [] else [JStr([s[0]])] + Chars(s[1..])
  }

  /** Strings of `ks`, as `list(d)` gives the keys of a dict. */
  function KeyValues(ks: seq<string>): (r: seq<Value>)
    ensures |r| == |ks| && forall i :: 0 <= i < |ks| ==> r[i] == JStr(ks[i])
  {
    if ks == [] then [] else [JStr(ks[0])] + KeyValues(ks[1..])
  }

  /**
   * Python `list(v)`: a list is copied, a string gives its characters, a dict its keys
   * in order; null, booleans and numbers are not iterable and raise TypeError (None).
   */
  function PyList(v: Value): (r: Option<Value>)
    ensures r.Some? <==> (v.JList? || v.JStr? || v.JObj?)
    ensures r.Some? ==> r.value.JList?
    ensures v.JList? ==> r == Some(v)
  {
    match v
    case JList(_) => Some(v)
    case JStr(s) => Some(JList(Chars(s)))
    case JObj(d) => Some(JList(KeyValues(d.keys)))
    case _ => None
  }
}
