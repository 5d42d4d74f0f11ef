/** Parsed JSON values as the response decoders see them, together with the
    handful of Python operations the decoders apply to them (`in`, `len`,
    subscripting, `.get`). Each such operation returns `None` exactly where
    Python would raise (a `TypeError`, `KeyError` or `AttributeError`). */
module Json {
  import opened Options

  /** A decoded JSON value. Objects are Python dicts (keys are strings);
      numbers are kept opaque as the text Python prints for them. */
  datatype Json =
    | JNull
    | JBool(b: bool)
    | JNum(text: string)
    | JStr(s: string)
    | JArr(items: seq<Json>)
    | JObj(fields: map<string, Json>)

  predicate OccursAt(needle: string, hay: string, i: nat) {
    i + |needle| <= |hay| && hay[i..i + |needle|] == needle
  }

  predicate IsSubstring(needle: string, hay: string) {
    exists i: nat :: i <= |hay| && OccursAt(needle, hay, i)
  }

  /** Python's `key in j` for a string `key`: key membership on a dict,
      element equality on a list, substring on a str; any other value
      raises. */
  function PyIn(key: string, j: Json): (r: Option<bool>)
    ensures r.None? <==> j.JNull? || j.JBool? || j.JNum?
    ensures j.JObj? ==> r == Some(key in j.fields)
  {
    match j
    case JObj(fields) => Some(key in fields)
    case JArr(items) => Some(JStr(key) in items)
    case JStr(s) => Some(IsSubstring(key, s))
    case _ => None
  }

  /** Python's `j[key]` for a string key: only a dict holding the key answers. */
  function Index(j: Json, key: string): (r: Option<Json>)
    ensures r.Some? <==> j.JObj? && key in j.fields
    ensures r.Some? ==> r.value == j.fields[key]
  {
    if j.JObj? && key in j.fields then Some(j.fields[key]) else None
  }

  /** Python's `len(j)`: defined on lists, strings and dicts. */
  function PyLen(j: Json): (r: Option<nat>)
    ensures r.Some? <==> j.JArr? || j.JStr? || j.JObj?
  {
    match j
    case JArr(items) => Some(|items|)
    case JStr(s) => Some(|s|)
    case JObj(fields) => Some(|fields|)
    case _ => None
  }

  /** Python's `j[0]`: the first element of a list, the first character of a
      string; a dict has no integer keys when it comes from JSON. */
  function First(j: Json): (r: Option<Json>)
    ensures j.JArr? && |j.items| > 0 ==> r == Some(j.items[0])
    ensures r.Some? ==> (j.JArr? && |j.items| > 0) || (j.JStr? && |j.s| > 0)
  {
    match j
    case JArr(items) => if |items| > 0 then Some(items[0]) else None
    case JStr(s) => if |s| > 0 then Some(JStr(s[..1])) else None
    case _ => None
  }

  /** Python's `d.get(key, default)` on a dict `d`. */
  function GetOr(fields: map<string, Json>, key: string, default: Json): Json {
    if key in fields then fields[key] else default
  }
}
