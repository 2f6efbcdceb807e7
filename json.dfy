/**
 * Decoded JSON as the adapter sees it after `response.json()`, and the
 * handful of Python operations it applies to such values: `dict.get`,
 * truthiness, iteration, `in`, `str()` inside an f-string, and the
 * argument check `urllib.parse.quote` makes.
 */
module JsonModel {
  import opened Wrappers
  import opened Strings

  /** A decoded JSON document (numbers are integers in this model). */
  datatype Json =
    | JNull
    | JBool(b: bool)
    | JInt(i: int)
    | JStr(s: string)
    | JArr(elems: seq<Json>)
    | JObj(fields: map<string, Json>)

  /** Python truthiness: `None`, `False`, `0`, `''`, `[]` and `{}` are false. */
  predicate Truthy(j: Json) {
    match j
    case JNull => false
    case JBool(b) => b
    case JInt(i) => i != 0
    case JStr(s) => s != []
    case JArr(a) => a != []
    case JObj(m) => m != map[]
  }

  /** `d.get(key, default)` on a dict. */
  function GetOr(fields: map<string, Json>, key: string, default: Json): Json {
    if key in fields then fields[key] else default
  }

  /** `d.get(key)` on a dict: `None` when the key is absent. */
  function Lookup(fields: map<string, Json>, key: string): Json {
    GetOr(fields, key, JNull)
  }

  /** `obj.get(key, default)` on any value: only a dict has `.get` (else AttributeError). */
  function Get(obj: Json, key: string, default: Json): Option<Json> {
    if obj.JObj? then Some(GetOr(obj.fields, key, default)) else None
  }

  /**
   * The elements a `for x in j` loop visits, or `None` when the loop raises.
   * A list yields its elements; an empty string or dict yields nothing;
   * `None`, a number and a boolean are not iterable. A non-empty string or
   * dict yields strings, and every loop of the adapter begins each element
   * with `.get` or `[...]`, which fails on a string inside the same handler,
   * so those fail here at once.
   */
  function Items(j: Json): (r: Option<seq<Json>>)
    ensures r.Some? && r.value != [] ==> j == JArr(r.value)
  {
    match j
    case JArr(a) => Some(a)
    case JStr(s) => if s == [] then Some([]) else None
    case JObj(m) => if m == map[] then Some([]) else None
    case _ => None
  }

  /** `for x in obj.get(key, [])`: the elements of a list-valued field. */
  function ListField(obj: Json, key: string): Option<seq<Json>> {
    match Get(obj, key, JArr([]))
    case None => None
    case Some(v) => Items(v)
  }

  /**
   * `pat in container` with a string `pat`: a substring test on a string,
   * membership on a list, a key test on a dict; TypeError otherwise.
   */
  function ContainsText(container: Json, pat: string): Option<bool> {
    match container
    case JStr(s) => Some(Contains(s, pat))
    case JArr(a) => Some(JStr(pat) in a)
    case JObj(m) => Some(pat in m)
    case _ => None
  }

  /**
   * `str(j)` as an f-string renders it. Lists and dicts would be rendered
   * through `repr`; this model treats that as a failure at that point.
   */
  function Show(j: Json): Option<string> {
    match j
    case JNull => Some("None")
    case JBool(b) => Some(if b then "True" else "False")
    case JInt(i) => Some(Decimal(i))
    case JStr(s) => Some(s)
    case _ => None
  }

  /** The argument check of `quote(j)`: only a string is accepted (TypeError otherwise). */
  function QuoteArg(j: Json): Option<string> {
    if j.JStr? then Some(j.s) else None
  }
}
