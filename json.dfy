/** The JavaScript values the client handles: parsed JSON responses,
    request bodies and query parameters, and the truthiness tests the
    source applies to them. Numbers are modelled as integers. */
module Json {
  import opened Wrappers

  datatype Json =
    | JNull
    | JBool(b: bool)
    | JNum(n: int)
    | JStr(s: string)
    | JArr(items: seq<Json>)
    | JObj(fields: map<string, Json>)

  /** JavaScript truthiness of a JSON value: `null`, `false`, `0` and `""`
      are falsy, every array and object is truthy. */
  predicate Truthy(j: Json) {
    match j
    case JNull => false
    case JBool(b) => b
    case JNum(n) => n != 0
    case JStr(s) => s != ""
    case JArr(_) => true
    case JObj(_) => true
  }

  /** A string argument that may be omitted (`None` is `null`/`undefined`);
      it passes the source's `if (!arg)` test exactly when it is a
      non-empty string. */
  predicate Present(s: Option<string>) {
    s.Some? && s.value != ""
  }
}
