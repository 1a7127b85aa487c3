/** What a JSON text says (RFC 8259), for numbers without fraction and exponent. */
module JsonData {
  import opened Ascii

  /** The members of an object are listed as they come. */
  datatype Json =
    | JNull
    | JBool(b: bool)
    | JInt(n: int)
    | JStr(s: Text)
    | JArr(items: seq<Json>)
    | JObj(entries: seq<(Text, Json)>)
}
