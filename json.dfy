/** A parsed JSON value, the tree that `System.Text.Json.Nodes` builds.
    Numbers are kept as their lexemes, so no floating point is involved. */
module Json {

  datatype J =
    | JObject(members: seq<(string, J)>)
    | JArray(items: seq<J>)
    | JString(text: string)
    | JNumber(lexeme: string)
    | JBool(b: bool)
    | JNull

  /** What the parser makes of a text: a syntax error, or a value (the JSON
      literal `null` parses to `JNull`, which the source sees as a null node). */
  datatype ParseOutcome = ParseError | Parsed(node: J)
}
