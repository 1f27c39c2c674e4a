/** JSON values as the browser and the server see them after `JSON.parse`/`response.json()`. */
module Json {
  import opened Wrappers

  /** A parsed JSON value. Numbers are finite (JSON cannot carry NaN or Infinity). */
  datatype Json =
    | JNull
    | JBool(b: bool)
    | JNum(n: real)
    | JStr(s: string)
    | JArr(items: seq<Json>)
    | JObj(fields: map<string, Json>)

  /** Optional chaining `j?.key`: the member if `j` is an object that has it. */
  function Member(j: Json, key: string): (r: Option<Json>)
    ensures r.Some? <==> j.JObj? && key in j.fields
  {
    if j.JObj? && key in j.fields then Some(j.fields[key]) else None
  }

  /** `o?.key` on an optional value. */
  function MemberOf(o: Option<Json>, key: string): (r: Option<Json>)
    ensures r.Some? ==> o.Some? && r == Member(o.value, key)
  {
    if o.Some? then Member(o.value, key) else None
  }

  /** JavaScript truthiness of a present value: null, false, 0 and "" are falsy; arrays and objects are truthy. */
  predicate Truthy(j: Json) {
    match j
    case JNull => false
    case JBool(b) => b
    case JNum(n) => n != 0.0
    case JStr(s) => s != ""
    case JArr(_) => true
    case JObj(_) => true
  }

  /** Truthiness of an optional value (`undefined` is falsy). */
  predicate TruthyOpt(o: Option<Json>) {
    o.Some? && Truthy(o.value)
  }
}

/** What a `fetch(...)` followed by `response.json()` can end in, as seen by a widget. */
module Http {
  import opened Wrappers
  import opened Json

  /** `NetworkError`: the fetch itself rejected. Otherwise `ok` is `response.ok` and
      `body` is the parsed body, or None when `response.json()` rejected. */
  datatype Reply = NetworkError | Reply(ok: bool, body: Option<Json>)

  /** The body a widget goes on to inspect: present only for an ok reply whose body parsed. */
  function OkBody(r: Reply): (b: Option<Json>)
    ensures b.Some? <==> r.Reply? && r.ok && r.body.Some?
    ensures b.Some? ==> b == r.body
  {
    if r.Reply? && r.ok then r.body else None
  }
}
