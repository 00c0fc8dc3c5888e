/** JSON values as the ingestion server sees them once a text has gone through
    JSON.parse, and the Option type used for operations that can throw. */
module JsonValue {

  datatype Option<+T> = None | Some(value: T)

  /** A parsed JSON value. Objects are maps from key to value: the server never
      looks at key order. Numbers are carried as finite reals and only copied;
      the values JSON.stringify does not write back as they were parsed (an
      overflowing literal such as `1e400`, which parses to Infinity and is
      written as `null`, and `-0`, written as `0`) are not represented. */
  datatype Json =
    | JNull
    | JBool(b: bool)
    | JNum(n: real)
    | JStr(s: string)
    | JArr(items: seq<Json>)
    | JObj(fields: map<string, Json>)
}
