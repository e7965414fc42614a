/** Parsed JSON values and the state of one browser-storage key. Parsing and
    serialising text is outside the model: a stored key is seen already parsed. */
module Json {

  /** A JSON value; numbers are kept as integers. */
  datatype Json =
    | JNull
    | JBool(b: bool)
    | JNum(n: int)
    | JStr(s: string)
    | JArr(items: seq<Json>)
    | JObj(fields: map<string, Json>)

  /** One storage key as a reader sees it: `Absent` when `getItem` yields a falsy value
      (`null` or the empty string), `Unparseable` when `JSON.parse` throws. */
  datatype Stored = Absent | Unparseable | Parsed(value: Json)
}
