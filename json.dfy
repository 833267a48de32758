/** The loosely typed JavaScript values that flow through the backend functions
    and the client caches: the JSON kinds plus JavaScript truthiness and the
    `a || b` defaulting idiom.  `undefined` (an absent property) is `None` of an
    `Option<Json>`; NaN is not representable. */
module Json {
  import opened Wrappers

  datatype Json =
    | JNull
    | JBool(b: bool)
    | JNum(n: real)
    | JStr(s: string)
    | JArr(items: seq<Json>)
    | JObj(fields: map<string, Json>)

  /** JavaScript truthiness: null, false, 0 and "" are falsy; arrays and objects are truthy. */
  predicate Truthy(v: Json) {
    match v
    case JNull => false
    case JBool(b) => b
    case JNum(n) => n != 0.0
    case JStr(s) => s != ""
    case JArr(_) => true
    case JObj(_) => true
  }

  /** Truthiness of a possibly absent value (`undefined` is falsy). */
  predicate Present(v: Option<Json>) {
    v.Some? && Truthy(v.value)
  }

  /** `v || d`: the value itself when truthy, otherwise the default. */
  function Or(v: Option<Json>, d: Json): (r: Json)
    ensures Present(v) ==> r == v.value
    ensures !Present(v) ==> r == d
  {
    if Present(v) then v.value else d
  }

  /** Property lookup on a record; `None` stands for `undefined`. */
  function Get(m: map<string, Json>, key: string): (r: Option<Json>)
    ensures r.Some? <==> key in m
    ensures key in m ==> r.value == m[key]
  {
    if key in m then Some(m[key]) else None
  }

  /** Property lookup on an arbitrary value: only objects have named properties here. */
  function Member(v: Json, key: string): (r: Option<Json>)
    ensures v.JObj? && key in v.fields ==> r == Some(v.fields[key])
    ensures !v.JObj? ==> r.None?
  {
    if v.JObj? then Get(v.fields, key) else None
  }

  /** A string-valued truthy option: `s` is present and non-empty. */
  predicate Given(s: Option<string>) {
    s.Some? && s.value != ""
  }

  /** `s || d` on an optional string. */
  function OrText(s: Option<string>, d: string): (r: string)
    ensures Given(s) ==> r == s.value
    ensures !Given(s) ==> r == d
  {
    if Given(s) then s.value else d
  }

  /** A property that holds a non-empty string, such as a record's `id`. */
  function TextField(m: map<string, Json>, key: string): (r: Option<string>)
    ensures r.Some? <==> key in m && m[key].JStr? && m[key].s != ""
    ensures r.Some? ==> r.value == m[key].s
  {
    if key in m && m[key].JStr? && m[key].s != "" then Some(m[key].s) else None
  }

  /** `data[0]`: the first item of an array, the "0" property of an object, the first
      character of a string; `None` for `undefined`. */
  function FirstElement(data: Json): (r: Option<Json>)
    ensures data.JArr? ==> (r.Some? <==> |data.items| > 0)
    ensures data.JArr? && |data.items| > 0 ==> r == Some(data.items[0])
    ensures data.JObj? ==> r == Get(data.fields, "0")
    ensures data.JStr? ==> (r.Some? <==> data.s != "") && (r.Some? ==> r == Some(JStr(data.s[..1])))
    ensures data.JNull? || data.JBool? || data.JNum? ==> r.None?
  {
    match data
    case JArr(items) => if |items| > 0 then Some(items[0]) else None
    case JObj(fields) => Get(fields, "0")
    case JStr(s) => if |s| > 0 then Some(JStr(s[..1])) else None
    case _ => None
  }
}
