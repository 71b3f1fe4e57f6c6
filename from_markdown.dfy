/**
 * The `mdast-util-from-markdown` extension of lib/index.js:52-74, and the part
 * of the host compiler it drives: the stack of open nodes and the stack of the
 * tokens that opened them.
 */
module FromMarkdown {
  import opened Mdast

  /** A token of the tokenizer: its type and the stretch of source it covers. */
  datatype Token = Token(tokenType: string, start: Point, end: Point)

  /** One entry of the event stream the host compiler walks. */
  datatype Event = EnterEvent(token: Token) | ExitEvent(token: Token)

  /** Why the host compiler refuses to close a node. */
  datatype ExitError =
    | NotOpen(close: Token)
    | Mismatch(open: Token, close: Token)

  /** The enter handler of one instance, standing for the closure over `options`. */
  datatype EnterHandle = OpenAttention(options: Options)

  /** The exit handler, which only closes the innermost node. */
  datatype ExitHandle = CloseAttention

  /** The extension object: `canContainEols` and the two handler tables. */
  datatype Extension = Extension(
    canContainEols: seq<string>,
    enter: map<string, EnterHandle>,
    exit: map<string, ExitHandle>)

  /** The node the enter handler opens (lib/index.js:58-63). */
  function AttentionNode(o: Options): Node
  {
    Parent(o.mdastNodeName, [], Some(o.hastNodeName), None)
  }

  /** `attentionFromMarkdown(options)`. */
  function AttentionFromMarkdown(o: Options): (ext: Extension)
    ensures |ext.canContainEols| == 1 && ext.canContainEols[0] == o.mdastNodeName
    ensures forall t :: t in ext.enter <==> t == o.mdastNodeName
    ensures forall t :: t in ext.exit <==> t == o.mdastNodeName
    ensures forall t :: t in ext.enter ==> ext.enter[t].options == o
  {
    Extension(
      [o.mdastNodeName],
      map[o.mdastNodeName := OpenAttention(o)],
      map[o.mdastNodeName := CloseAttention])
  }

  // ---------------------------------------------------------------------------
  // The host compiler's stacks, as values

  /**
   * The open nodes (the root at the bottom) and the tokens that opened them.
   * Nodes the host opens without a token (the root, and the fragments its
   * `buffer()` opens for link text and the like) have no entry on `tokenStack`.
   */
  datatype State = State(stack: seq<Node>, tokenStack: seq<Token>)

  /** There are more open nodes than opening tokens: at least the root has none. */
  predicate WellFormed(s: State)
  {
    |s.stack| > |s.tokenStack|
  }

  function AppendChildren(parent: Node, kids: seq<Node>): Node
  {
    match parent
    case Parent(t, children, h, p) => Parent(t, children + kids, h, p)
    case Literal(_, _, _) => parent
  }

  /** `s` with `kids` added after the children of the innermost open node. */
  function AddToTop(s: State, kids: seq<Node>): State
    requires |s.stack| > 0
  {
    State(s.stack[..|s.stack| - 1] + [AppendChildren(s.stack[|s.stack| - 1], kids)], s.tokenStack)
  }

  /** The host's `enter(node, token)`: open `node`, remembering `token`. */
  function Open(s: State, node: Node, token: Token): (r: State)
    ensures |r.stack| == |s.stack| + 1 && r.stack[..|s.stack|] == s.stack && r.stack[|s.stack|] == node
    ensures |r.tokenStack| == |s.tokenStack| + 1 && r.tokenStack[..|s.tokenStack|] == s.tokenStack
    ensures r.tokenStack[|s.tokenStack|] == token
    ensures WellFormed(s) ==> WellFormed(r)
  {
    State(s.stack + [node], s.tokenStack + [token])
  }

  /**
   * The host's `exit(token)`: close the innermost node, give it the extent
   * from its opening token's start to `token`'s end, and add it to its parent.
   * Closing with nothing open, or with a token of another type than the one
   * that opened the node, is an error.
   */
  function Close(s: State, token: Token): (r: Result<(State, Node), ExitError>)
    ensures WellFormed(s) ==>
      (r.Ok? <==> |s.tokenStack| > 0 && s.tokenStack[|s.tokenStack| - 1].tokenType == token.tokenType)
    ensures WellFormed(s) && r.Ok? ==>
      WellFormed(r.value.0) &&
      |r.value.0.stack| == |s.stack| - 1 &&
      r.value.0 == AddToTop(State(s.stack[..|s.stack| - 1], s.tokenStack[..|s.tokenStack| - 1]), [r.value.1]) &&
      r.value.0.tokenStack == s.tokenStack[..|s.tokenStack| - 1] &&
      r.value.1 == WithPosition(s.stack[|s.stack| - 1], Position(s.tokenStack[|s.tokenStack| - 1].start, token.end))
  {
    if |s.tokenStack| == 0 || |s.stack| < 2 then
      Err(NotOpen(token))
    else
      var open := s.tokenStack[|s.tokenStack| - 1];
      if open.tokenType != token.tokenType then
        Err(Mismatch(open, token))
      else
        var n := |s.stack|;
        var node := WithPosition(s.stack[n - 1], Position(open.start, token.end));
        Ok((State(s.stack[..n - 2] + [AppendChildren(s.stack[n - 2], [node])], s.tokenStack[..|s.tokenStack| - 1]), node))
  }

  /** What the enter handler does to the host's stacks. */
  function ApplyEnter(h: EnterHandle, s: State, token: Token): State
  {
    Open(s, AttentionNode(h.options), token)
  }

  /** What the exit handler does to the host's stacks. */
  function ApplyExit(h: ExitHandle, s: State, token: Token): Result<(State, Node), ExitError>
  {
    Close(s, token)
  }

  /** One event of the host's walk; an event whose type has no handler is skipped. */
  function Step(ext: Extension, s: State, e: Event): (r: Result<State, ExitError>)
    ensures e.EnterEvent? && e.token.tokenType !in ext.enter ==> r == Ok(s)
    ensures e.ExitEvent? && e.token.tokenType !in ext.exit ==> r == Ok(s)
    ensures e.EnterEvent? && e.token.tokenType in ext.enter ==>
      r.Ok? && |r.value.stack| == |s.stack| + 1 && r.value.stack[..|s.stack|] == s.stack
    ensures WellFormed(s) && r.Ok? ==> WellFormed(r.value)
  {
    match e
    case EnterEvent(t) =>
      if t.tokenType in ext.enter then Ok(ApplyEnter(ext.enter[t.tokenType], s, t)) else Ok(s)
    case ExitEvent(t) =>
      if t.tokenType in ext.exit then
        match ApplyExit(ext.exit[t.tokenType], s, t)
        case Ok(p) => Ok(p.0)
        case Err(err) => Err(err)
      else Ok(s)
  }

  /** Whether the tables hold a handler for `e`. */
  predicate Handled(ext: Extension, e: Event)
  {
    if e.EnterEvent? then e.token.tokenType in ext.enter else e.token.tokenType in ext.exit
  }

  /** The host's walk over a stream of events, stopping at the first error. */
  function Run(ext: Extension, s: State, events: seq<Event>): (r: Result<State, ExitError>)
    ensures WellFormed(s) && r.Ok? ==> WellFormed(r.value)
    ensures (forall i :: 0 <= i < |events| ==> !Handled(ext, events[i])) ==> r == Ok(s)
    decreases |events|
  {
    if events == [] then Ok(s)
    else
      match Step(ext, s, events[0])
      case Ok(s') => Run(ext, s', events[1..])
      case Err(err) => Err(err)
  }

  // ---------------------------------------------------------------------------
  // The host compiler's stacks, as an object the handlers update (`this`)

  class CompileContext {
    var stack: seq<Node>
    var tokenStack: seq<Token>

    function Current(): State
      reads this
    {
      State(stack, tokenStack)
    }

    ghost predicate Valid()
      reads this
    {
      WellFormed(Current())
    }

    constructor (root: Node)
      ensures Valid() && stack == [root] && tokenStack == []
    {
      stack := [root];
      tokenStack := [];
    }

    /** The host's `this.enter(node, token)`. */
    method Enter(node: Node, token: Token)
      requires Valid()
      modifies this
      ensures Valid()
      ensures Current() == Open(old(Current()), node, token)
    {
      stack := stack + [node];
      tokenStack := tokenStack + [token];
    }

    /** The host's `this.exit(token)`; on an error the stacks are left as they were. */
    method Exit(token: Token) returns (r: Result<Node, ExitError>)
      requires Valid()
      modifies this
      ensures Valid()
      ensures match Close(old(Current()), token)
        case Ok(p) => Current() == p.0 && r == Ok(p.1)
        case Err(err) => Current() == old(Current()) && r == Err(err)
    {
      match Close(Current(), token)
      case Ok(p) =>
        stack, tokenStack := p.0.stack, p.0.tokenStack;
        r := Ok(p.1);
      case Err(err) =>
        r := Err(err);
    }
  }

  /**
   * The enter handler (lib/index.js:56-66): opens one node of the configured
   * type, with no children and the configured render hint, tied to `token`;
   * everything below it is untouched.
   */
  method EnterAttention(o: Options, ctx: CompileContext, token: Token)
    requires ctx.Valid()
    modifies ctx
    ensures ctx.Valid()
    ensures ctx.stack == old(ctx.stack) + [Parent(o.mdastNodeName, [], Some(o.hastNodeName), None)]
    ensures ctx.tokenStack == old(ctx.tokenStack) + [token]
  {
    ctx.Enter(AttentionNode(o), token);
  }

  /** The exit handler (lib/index.js:69-71): closes the innermost node. */
  method ExitAttention(ctx: CompileContext, token: Token) returns (r: Result<Node, ExitError>)
    requires ctx.Valid()
    modifies ctx
    ensures ctx.Valid()
    ensures match Close(old(ctx.Current()), token)
      case Ok(p) => ctx.Current() == p.0 && r == Ok(p.1)
      case Err(err) => ctx.Current() == old(ctx.Current()) && r == Err(err)
  {
    r := ctx.Exit(token);
  }

  // ---------------------------------------------------------------------------
  // Properties

  /**
   * An enter of the handler followed by the exit for the same token leaves
   * both stacks as deep as before, and the node added to the parent is the one
   * enter opened, now spanning the token.
   */
  lemma EnterThenExit(o: Options, s: State, token: Token)
    requires WellFormed(s)
    requires token.tokenType == o.mdastNodeName
    ensures var ext := AttentionFromMarkdown(o);
      var closed := WithPosition(AttentionNode(o), Position(token.start, token.end));
      Run(ext, s, [EnterEvent(token), ExitEvent(token)]) == Ok(AddToTop(s, [closed])) &&
      |AddToTop(s, [closed]).stack| == |s.stack| &&
      AddToTop(s, [closed]).tokenStack == s.tokenStack
  {
  }

  /** Events of a type other than the configured one pass through the tables untouched. */
  lemma OtherTokensSkipped(o: Options, s: State, e: Event)
    requires e.token.tokenType != o.mdastNodeName
    ensures Step(AttentionFromMarkdown(o), s, e) == Ok(s)
  {
  }

  /** A well-nested run of attention spans in the source. */
  datatype Span = Span(start: Point, end: Point, inner: seq<Span>)

  function SpanToken(o: Options, sp: Span): Token
  {
    Token(o.mdastNodeName, sp.start, sp.end)
  }

  /** The events the tokenizer emits for a sequence of spans. */
  function Events(o: Options, spans: seq<Span>): seq<Event>
    decreases spans
  {
    if spans == [] then []
    else
      [EnterEvent(SpanToken(o, spans[0]))] + Events(o, spans[0].inner) +
      [ExitEvent(SpanToken(o, spans[0]))] + Events(o, spans[1..])
  }

  /** The mdast nodes those spans should become. */
  function Built(o: Options, spans: seq<Span>): seq<Node>
    decreases spans
  {
    if spans == [] then []
    else
      [Parent(o.mdastNodeName, Built(o, spans[0].inner), Some(o.hastNodeName),
              Some(Position(spans[0].start, spans[0].end)))] + Built(o, spans[1..])
  }

  lemma {:induction false} RunAppend(ext: Extension, s: State, a: seq<Event>, b: seq<Event>)
    ensures Run(ext, s, a + b) ==
      match Run(ext, s, a)
      case Ok(s') => Run(ext, s', b)
      case Err(err) => Err(err)
    decreases |a|
  {
    if a == [] {
      assert a + b == b;
    } else {
      assert (a + b)[0] == a[0];
      assert (a + b)[1..] == a[1..] + b;
      match Step(ext, s, a[0])
      case Ok(s') => RunAppend(ext, s', a[1..], b);
      case Err(err) =>
    }
  }

  lemma AddToTopTwice(s: State, a: seq<Node>, b: seq<Node>)
    requires WellFormed(s)
    ensures AddToTop(AddToTop(s, a), b) == AddToTop(s, a + b)
  {
    var n := |s.stack|;
    var top := s.stack[n - 1];
    if top.Parent? {
      assert top.children + a + b == top.children + (a + b);
    }
    assert AddToTop(s, a).stack[..n - 1] == s.stack[..n - 1];
  }

  lemma RunSingle(ext: Extension, s: State, e: Event)
    ensures Run(ext, s, [e]) == Step(ext, s, e)
  {
    assert [e][1..] == [];
  }

  /** Closing a span whose node has gained `kids` adds the finished node to the parent. */
  lemma CloseSpan(o: Options, s: State, tok: Token, kids: seq<Node>)
    requires WellFormed(s)
    requires tok.tokenType == o.mdastNodeName
    ensures var node := Parent(o.mdastNodeName, kids, Some(o.hastNodeName), Some(Position(tok.start, tok.end)));
      Step(AttentionFromMarkdown(o), AddToTop(Open(s, AttentionNode(o), tok), kids), ExitEvent(tok)) ==
      Ok(AddToTop(s, [node]))
  {
    var s1 := Open(s, AttentionNode(o), tok);
    var s2 := AddToTop(s1, kids);
    var node := Parent(o.mdastNodeName, kids, Some(o.hastNodeName), Some(Position(tok.start, tok.end)));
    assert s2.stack[|s2.stack| - 1] == Parent(o.mdastNodeName, [] + kids, Some(o.hastNodeName), None);
    assert [] + kids == kids;
    assert WithPosition(s2.stack[|s2.stack| - 1], Position(tok.start, tok.end)) == node;
    assert s2.stack[..|s2.stack| - 2] == s.stack[..|s.stack| - 1];
    assert s2.stack[|s2.stack| - 2] == s.stack[|s.stack| - 1];
    assert s2.tokenStack[..|s2.tokenStack| - 1] == s.tokenStack;
    assert Close(s2, tok) == Ok((AddToTop(s, [node]), node));
  }

  /**
   * Driving the extension with the events of well-nested spans closes every
   * node it opens: both stacks end as they began, except that the innermost
   * open node has gained exactly the nodes for those spans, each of the
   * configured type and render hint, nested as the spans are and spanning its
   * own token.
   */
  lemma {:induction false} ForestRun(o: Options, s: State, spans: seq<Span>)
    requires WellFormed(s)
    ensures Run(AttentionFromMarkdown(o), s, Events(o, spans)) == Ok(AddToTop(s, Built(o, spans)))
    decreases spans
  {
    var ext := AttentionFromMarkdown(o);
    if spans == [] {
      assert s.stack[..|s.stack| - 1] + [s.stack[|s.stack| - 1]] == s.stack;
      if s.stack[|s.stack| - 1].Parent? {
        assert s.stack[|s.stack| - 1].children + [] == s.stack[|s.stack| - 1].children;
      }
    } else {
      var sp := spans[0];
      var tok := SpanToken(o, sp);
      var inner := Events(o, sp.inner);
      var rest := Events(o, spans[1..]);
      assert Events(o, spans) == [EnterEvent(tok)] + (inner + ([ExitEvent(tok)] + rest));
      // open the span
      var s1 := Open(s, AttentionNode(o), tok);
      RunAppend(ext, s, [EnterEvent(tok)], inner + ([ExitEvent(tok)] + rest));
      RunSingle(ext, s, EnterEvent(tok));
      // the nested spans
      var s2 := AddToTop(s1, Built(o, sp.inner));
      RunAppend(ext, s1, inner, [ExitEvent(tok)] + rest);
      ForestRun(o, s1, sp.inner);
      // close the span
      var node := Parent(o.mdastNodeName, Built(o, sp.inner), Some(o.hastNodeName), Some(Position(sp.start, sp.end)));
      var s3 := AddToTop(s, [node]);
      RunAppend(ext, s2, [ExitEvent(tok)], rest);
      RunSingle(ext, s2, ExitEvent(tok));
      CloseSpan(o, s, tok, Built(o, sp.inner));
      // the following spans
      ForestRun(o, s3, spans[1..]);
      AddToTopTwice(s, [node], Built(o, spans[1..]));
      assert Built(o, spans) == [node] + Built(o, spans[1..]);
    }
  }
}
