/** JSON values as the services build, send and parse them. */
module JsonData {

  /** A JSON value; Python's int and float are kept apart, floats carried as reals. */
  datatype Json =
    | JNull
    | JBool(b: bool)
    | JInt(i: int)
    | JNum(n: real)
    | JStr(s: string)
    | JArr(items: seq<Json>)
    | JObj(fields: map<string, Json>)
}
