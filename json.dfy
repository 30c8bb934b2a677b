/** JSON values as the settings store reads and writes them, JavaScript's
    notion of truthiness on them, and `JSON.stringify`/`JSON.parse` taken as
    an opaque pair of functions that only has to obey the round-trip law. */
module Json {
  import opened Optional

  datatype Json =
    | JNull
    | JBool(b: bool)
    | JNum(n: real)
    | JStr(s: string)
    | JArr(elems: seq<Json>)
    | JObj(fields: map<string, Json>)

  /** The values JavaScript's `if (x)` and `x || y` treat as true. */
  predicate Truthy(j: Json) {
    match j
    case JNull => false
    case JBool(b) => b
    case JNum(n) => n != 0.0
    case JStr(s) => s != ""
    case JArr(_) => true
    case JObj(_) => true
  }

  /** `typeof j === 'object'`: objects, arrays and null. */
  predicate IsObjectType(j: Json) {
    j.JNull? || j.JArr? || j.JObj?
  }

  /** Reading the property `name` of a decoded value: only objects have
      named properties here; anything else gives `undefined`. */
  function Property(j: Json, name: string): Option<Json> {
    if j.JObj? && name in j.fields then Some(j.fields[name]) else None
  }

  /** `JSON.stringify` and `JSON.parse` (a parse error is `None`). */
  datatype JsonCodec = JsonCodec(stringify: Json -> string, parse: string -> Option<Json>)

  /** What the model assumes of the codec for one value it writes: parsing
      the text of `j` gives `j` back, and that text is not empty. The law is
      stated per value: no function from every real-valued `Json` into
      strings is one-to-one, so no codec could meet it for all values at once. */
  ghost predicate RoundTrips(c: JsonCodec, j: Json) {
    c.parse(c.stringify(j)) == Some(j) && c.stringify(j) != ""
  }
}
