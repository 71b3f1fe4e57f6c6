/**
 * The `hast-util-to-mdast` handler of lib/index.js:132-160: an HTML element of
 * the configured tag becomes an mdast node of the configured type.
 */
module FromHast {
  import opened Mdast
  import FromMarkdown

  /** A hast node: an element with its tag and children, or text. */
  datatype HastNode =
    | Element(tagName: string, children: seq<HastNode>, position: Option<Position>)
    | Text(value: string, position: Option<Position>)

  /** The element handler of one instance, standing for the closure over `options`. */
  datatype ElementHandle = ConvertAttention(options: Options)

  /** `attentionFromHast(options)`: the handler table, keyed by tag name. */
  function AttentionFromHast(o: Options): (handlers: map<string, ElementHandle>)
    ensures forall t :: t in handlers <==> t == o.hastNodeName
    ensures forall t :: t in handlers ==> handlers[t].options == o
  {
    map[o.hastNodeName := ConvertAttention(o)]
  }

  /**
   * The host's conversion state: `all` converts the children of a hast node,
   * and `patches` records every call of `patch(from, to)` in order.
   */
  class HastState {
    const all: HastNode -> seq<Node>
    var patches: seq<(HastNode, Node)>

    constructor (all: HastNode -> seq<Node>)
      ensures this.all == all && patches == []
    {
      this.all := all;
      patches := [];
    }

    /** `state.patch(from, to)`; the position it copies is not part of this model. */
    method Patch(from: HastNode, to: Node)
      modifies this
      ensures patches == old(patches) + [(from, to)]
    {
      patches := patches + [(from, to)];
    }
  }

  /** The node the handler returns for `node` (lib/index.js:150-155). */
  function Converted(o: Options, all: HastNode -> seq<Node>, node: HastNode): Node
  {
    Parent(o.mdastNodeName, all(node), None, None)
  }

  /**
   * The element handler (lib/index.js:149-158): a node of the configured type
   * whose children are the host's conversion of the element's children;
   * `patch` is called exactly once, with the element and that same node, and
   * that node is what is returned.
   */
  method HandleElement(o: Options, state: HastState, node: HastNode) returns (result: Node)
    modifies state
    ensures IsAttention(o, result) && result.children == state.all(node)
    ensures result == Converted(o, state.all, node)
    ensures state.patches == old(state.patches) + [(node, result)]
  {
    result := Converted(o, state.all, node);
    state.Patch(node, result);
  }

  // ---------------------------------------------------------------------------
  // Properties

  /**
   * The node converted from HTML and the node the markdown enter handler opens
   * share the attention shape of the instance, but only the parsed one carries
   * the `hName` render hint: the HTML handler sets no `data`.
   */
  lemma ConvertedShape(o: Options, all: HastNode -> seq<Node>, node: HastNode)
    ensures var converted := Converted(o, all, node);
      var parsed := FromMarkdown.AttentionNode(o);
      IsAttention(o, converted) && IsAttention(o, parsed) &&
      converted.hName == None && parsed.hName == Some(o.hastNodeName) &&
      converted.hName != parsed.hName
  {
  }
}
