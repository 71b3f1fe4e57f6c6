/**
 * Shapes shared by the three extensions of lib/index.js: the configuration
 * record, source positions, and the mdast node an attention span becomes.
 */
module Mdast {

  datatype Option<+T> = None | Some(value: T)

  datatype Result<+T, +E> = Ok(value: T) | Err(error: E)

  /**
   * The configuration of one attention instance (lib/index.js:12-15).
   * `delimiter` is the source's `char`: the one string that both opens and
   * closes the span. Nothing about it is validated.
   */
  datatype Options = Options(mdastNodeName: string, hastNodeName: string, delimiter: string)

  datatype Point = Point(line: int, column: int, offset: int)

  datatype Position = Position(start: Point, end: Point)

  /**
   * An mdast node. A parent carries ordered children and the optional
   * `data.hName` render hint; a literal (text and the like) carries a value.
   */
  datatype Node =
    | Parent(nodeType: string, children: seq<Node>, hName: Option<string>, position: Option<Position>)
    | Literal(nodeType: string, value: string, position: Option<Position>)

  /** `n` with its position set to `p`. */
  function WithPosition(n: Node, p: Position): Node
  {
    match n
    case Parent(t, kids, h, _) => Parent(t, kids, h, Some(p))
    case Literal(t, v, _) => Literal(t, v, Some(p))
  }

  /** The node shape every extension of one instance produces or consumes. */
  predicate IsAttention(o: Options, n: Node)
  {
    n.Parent? && n.nodeType == o.mdastNodeName
  }
}
