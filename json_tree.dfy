/** The part of a Jackson JsonNode tree the session reads: field navigation with
    path(name), the array test isArray() and the text rendering asText(). Parsing and
    printing JSON text belong to the library and are not modelled. */
module JsonTree {

  /** A JSON tree node. `Missing` is Jackson's MissingNode, which path() returns for an
      absent field; `Null` is an explicit JSON null. A number carries its text as Jackson
      renders it (for a double node, the parsed value: `1e2` renders as "100.0"); the
      parser supplies that text. */
  datatype Node =
    | Missing
    | Null
    | Bool(b: bool)
    | Number(literal: string)
    | Text(s: string)
    | Array(items: seq<Node>)
    | Object(fields: map<string, Node>)

  /** node.path(name): the field's value on an object that has it, MissingNode otherwise
      (also on arrays, scalars and MissingNode itself). */
  function Path(node: Node, name: string): Node {
    if node.Object? && name in node.fields then node.fields[name] else Missing
  }

  /** node.asText(): a text node's text, a number as Jackson renders it, "true"/"false", "null" for
      an explicit null, and "" for MissingNode, arrays and objects. */
  function AsText(node: Node): string {
    match node
    case Missing => ""
    case Null => "null"
    case Bool(b) => if b then "true" else "false"
    case Number(literal) => literal
    case Text(s) => s
    case Array(_) => ""
    case Object(_) => ""
  }
}
