/**
 * The `mdast-util-to-markdown` extension of lib/index.js:83-123: the unsafe
 * pattern it registers, the serialize handler, and that handler's `peek`.
 */
module ToMarkdown {
  import opened Mdast

  /**
   * Constructs that occur in phrasing but cannot contain an attention span, so
   * the delimiter is not escaped inside them (lib/index.js:35-42). The host
   * serializer keeps an equivalent list for strikethrough; the two must agree.
   */
  const ConstructsWithoutAttention: seq<string> :=
    ["autolink", "destinationLiteral", "destinationRaw", "reference", "titleQuote", "titleApostrophe"]

  /** An unsafe pattern: `character` is escaped in `inConstruct` but not in `notInConstruct`. */
  datatype Unsafe = Unsafe(character: string, inConstruct: string, notInConstruct: seq<string>)

  /**
   * The serialize handler of one instance, standing for the closure over
   * `options`; `peek` is what its `peek` function returns once attached.
   */
  datatype Handler = AttentionHandler(options: Options, peek: Option<string>)

  /** The extension object: the unsafe list and the handler table. */
  datatype Extension = Extension(unsafe: seq<Unsafe>, handlers: map<string, Handler>)

  /**
   * `attentionToMarkdown(options)`: the object is built first and `peek` is
   * attached to its handler afterwards (lib/index.js:84-119).
   */
  function AttentionToMarkdown(o: Options): (ext: Extension)
    ensures |ext.unsafe| == 1
    ensures ext.unsafe[0].character == o.delimiter
    ensures ext.unsafe[0].inConstruct == "phrasing"
    ensures ext.unsafe[0].notInConstruct ==
      ["autolink", "destinationLiteral", "destinationRaw", "reference", "titleQuote", "titleApostrophe"]
    ensures forall t :: t in ext.handlers <==> t == o.mdastNodeName
    ensures forall t :: t in ext.handlers ==>
      ext.handlers[t].options == o && ext.handlers[t].peek == Some(o.delimiter)
  {
    var temporary := Extension(
      [Unsafe(o.delimiter, "phrasing", ConstructsWithoutAttention)],
      map[o.mdastNodeName := AttentionHandler(o, None)]);
    var handler := temporary.handlers[o.mdastNodeName];
    temporary.(handlers := temporary.handlers[o.mdastNodeName := handler.(peek := Some(o.delimiter))])
  }

  /** The host's `safeOptions`: where output resumes and the text around it. */
  datatype SafeOptions = SafeOptions(now: Point, lineShift: int, before: string, after: string)

  /** What `containerPhrasing` is given: the tracker's position plus the before/after hints. */
  datatype Info = Info(now: Point, lineShift: int, before: string, after: string)

  /** The host's position tracker, as a value. */
  datatype Tracker = Tracker(now: Point, lineShift: int)

  /**
   * How the host's tracker advances from a point over emitted text, given the
   * line shift that columns after a line ending start from; its arithmetic is
   * not part of this model.
   */
  type Advance = (Point, int, string) -> Point

  /** The host's `containerPhrasing`: serializes the children of a node, given the construct stack. */
  type Phrasing = (Node, seq<string>, Info) -> string

  /** `track(safeOptions)`. */
  function Track(safe: SafeOptions): (t: Tracker)
    ensures t.now == safe.now && t.lineShift == safe.lineShift
  {
    Tracker(safe.now, safe.lineShift)
  }

  /** `tracker.move(s)`: returns `s` itself and the tracker advanced over it. */
  function Move(t: Tracker, s: string, advance: Advance): (r: (Tracker, string))
    ensures r.1 == s
    ensures r.0.now == advance(t.now, t.lineShift, s) && r.0.lineShift == t.lineShift
  {
    (Tracker(advance(t.now, t.lineShift, s), t.lineShift), s)
  }

  /** The info the handler passes when serializing the children. */
  function ChildInfo(o: Options, safe: SafeOptions, advance: Advance): Info
  {
    Info(advance(safe.now, safe.lineShift, o.delimiter), safe.lineShift, o.delimiter, o.delimiter)
  }

  /**
   * The markdown the handler produces for `node` when the serializer's
   * construct stack is `stack`: the children, serialized with the node's own
   * construct on top of the stack, between two delimiters.
   */
  function Serialized(o: Options, node: Node, stack: seq<string>, safe: SafeOptions,
                      phrasing: Phrasing, advance: Advance): (r: string)
    ensures |r| >= 2 * |o.delimiter|
    ensures r[..|o.delimiter|] == o.delimiter
    ensures r[|r| - |o.delimiter|..] == o.delimiter
  {
    o.delimiter + phrasing(node, stack + [o.mdastNodeName], ChildInfo(o, safe, advance)) + o.delimiter
  }

  /** The host serializer's construct stack (`context.stack`). */
  class SerializeContext {
    var stack: seq<string>

    constructor (stack: seq<string>)
      ensures this.stack == stack
    {
      this.stack := stack;
    }

    /** `context.enter(name)`: pushes `name`. */
    method Enter(name: string)
      modifies this
      ensures stack == old(stack) + [name]
    {
      stack := stack + [name];
    }

    /** The `exit` that `enter` returns: pops the top construct, if any. */
    method Exit()
      modifies this
      ensures old(stack) == [] ==> stack == []
      ensures old(stack) != [] ==> stack == old(stack)[..|old(stack)| - 1]
    {
      if stack != [] {
        stack := stack[..|stack| - 1];
      }
    }
  }

  /**
   * The serialize handler (lib/index.js:97-113). The delimiter, then the
   * children serialized while the node's construct is on top of the construct
   * stack and with the delimiter as the text before and after them, then the
   * delimiter again; the construct stack ends as it began.
   */
  method Serialize(o: Options, node: Node, ctx: SerializeContext, safe: SafeOptions,
                   phrasing: Phrasing, advance: Advance)
    returns (value: string)
    modifies ctx
    ensures ctx.stack == old(ctx.stack)
    ensures value == o.delimiter +
      phrasing(node, old(ctx.stack) + [o.mdastNodeName],
               Info(advance(safe.now, safe.lineShift, o.delimiter), safe.lineShift, o.delimiter, o.delimiter)) +
      o.delimiter
    ensures value == Serialized(o, node, old(ctx.stack), safe, phrasing, advance)
  {
    var tracker := Track(safe);
    ctx.Enter(o.mdastNodeName);
    var moved := Move(tracker, o.delimiter, advance);
    tracker, value := moved.0, moved.1;
    value := value + phrasing(node, ctx.stack, Info(tracker.now, tracker.lineShift, value, o.delimiter));
    moved := Move(tracker, o.delimiter, advance);
    tracker := moved.0;
    value := value + moved.1;
    ctx.Exit();
  }

  // ---------------------------------------------------------------------------
  // Properties

  /** A node whose children serialize to nothing becomes exactly two delimiters. */
  lemma EmptyChildren(o: Options, node: Node, stack: seq<string>, safe: SafeOptions,
                      phrasing: Phrasing, advance: Advance)
    requires phrasing(node, stack + [o.mdastNodeName], ChildInfo(o, safe, advance)) == ""
    ensures Serialized(o, node, stack, safe, phrasing, advance) == o.delimiter + o.delimiter
  {
  }

  /**
   * The registered handler's `peek` reports exactly the text its full
   * serialization starts with, for every node and every context.
   */
  lemma PeekAgrees(o: Options, node: Node, stack: seq<string>, safe: SafeOptions,
                   phrasing: Phrasing, advance: Advance)
    ensures var h := AttentionToMarkdown(o).handlers[o.mdastNodeName];
      var out := Serialized(h.options, node, stack, safe, phrasing, advance);
      h.peek == Some(out[..|o.delimiter|])
  {
  }

  /**
   * The text the handler emits on both sides of the children is the very
   * character the same extension registers as unsafe.
   */
  lemma DelimiterIsRegistered(o: Options, node: Node, stack: seq<string>, safe: SafeOptions,
                              phrasing: Phrasing, advance: Advance)
    ensures var ext := AttentionToMarkdown(o);
      var out := Serialized(o, node, stack, safe, phrasing, advance);
      var d := ext.unsafe[0].character;
      out[..|d|] == d && out[|out| - |d|..] == d
  {
  }

  /**
   * The registration switches the delimiter's escaping off in exactly the six
   * constructs of lib/index.js:35-42. Unless the node's own name is one of
   * those, it is not among them, so a literal delimiter in a span's children,
   * serialized with the node's name on the construct stack, stays unsafe.
   */
  lemma {:induction false} OwnConstructStillUnsafe(o: Options, c: string)
    ensures var u := AttentionToMarkdown(o).unsafe[0];
      c in u.notInConstruct <==>
        c in {"autolink", "destinationLiteral", "destinationRaw", "reference", "titleQuote", "titleApostrophe"}
    ensures o.mdastNodeName !in ConstructsWithoutAttention ==>
      o.mdastNodeName !in AttentionToMarkdown(o).unsafe[0].notInConstruct
  {
    var u := AttentionToMarkdown(o).unsafe[0];
    assert u.notInConstruct == ConstructsWithoutAttention;
  }
}
