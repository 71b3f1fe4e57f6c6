# Single-character attention extensions, modelled in Dafny

`mdast-util-inline-factory` builds, from one configuration record
`{mdastNodeName, hastNodeName, char}`, three extensions for an inline
"attention" span that opens and closes with the same delimiter (subscript,
superscript and the like):

- `attentionFromMarkdown`: for the markdown-to-mdast compiler. It declares that
  the node may contain line endings. Its enter handler opens a node
  `{type, children: [], data: {hName}}` on the compiler's stack of open nodes,
  and its exit handler closes that node.
- `attentionToMarkdown`: for the mdast-to-markdown serializer. It registers the
  delimiter as unsafe in phrasing, except inside six constructs. Its handler
  emits the delimiter, then the children, then the delimiter again, with the
  node's own construct on the serializer's construct stack while the children
  are serialized. Its `peek` reports the delimiter.
- `attentionFromHast`: for the HTML-to-mdast converter. It turns an element
  into `{type, children: state.all(element)}`, after `state.patch`.

The project has four modules:

- `Mdast` (`mdast.dfy`) holds the configuration record, positions and the mdast
  node. The source's `char` is called `delimiter`, because `char` is a Dafny
  type name. It is a string, as in the source, and nothing validates it.
- `FromMarkdown` (`from_markdown.dfy`) models the first extension. The host
  compiler's two stacks appear twice. `CompileContext` is a class whose
  `Enter`/`Exit` the handlers call. `State` with `Open`/`Close` is the value
  model that specifies that class. `Step`/`Run` walk an event stream the way
  the host does: an event whose token type has no handler in the tables is
  skipped.
- `ToMarkdown` (`to_markdown.dfy`) models the second extension.
  `SerializeContext` is a class holding the construct stack. The handler is the
  method `Serialize`, specified by the function `Serialized`. The position
  tracker is a value (`Tracker`); `tracker.move(s)` returns `s`.
- `FromHast` (`from_hast.dfy`) models the third extension. `HastState` holds
  the host's `all` as a function and records every `patch` call.

The host's own code is given to the model as parameters:

- `containerPhrasing` is the function parameter `phrasing`. It sees the node,
  the construct stack at the moment of the call, and the before/after info.
- The tracker's line and column arithmetic is the function parameter `advance`.
- `state.all` is the function field `HastState.all`.

The handler tables are maps keyed by the configured names. Each handler is a
small datatype that stands for the JavaScript closure over `options`.

Two facts about lib/index.js that the model keeps as written:

- lib/index.js:52-160 validates no option, so neither does the model.
- `notInConstruct` is exactly the six constructs of lib/index.js:35-42 and does
  not hold the node's own name. So a literal delimiter inside a span is still
  registered as unsafe there (`ToMarkdown.OwnConstructStillUnsafe`).

The host compiler opens some nodes without a token: the root, and the
fragments its `buffer()` opens for link text or image alt text. So the model
only asks that there be more open nodes than opening tokens. A span inside
link text is covered.

One detail of the serialize handler: the second `tracker.move(char)`
(lib/index.js:110) advances from the position just after the opening
delimiter. The children's text was never moved over. The tracker is not used
afterwards, so nothing visible depends on this, and the model keeps it as
written.

## Model

| member | source | states |
|---|---|---|
| `FromMarkdown.AttentionFromMarkdown` | lib/index.js:52-74 | `canContainEols` is the one-element list of the node name; the enter and exit tables each hold exactly the node name as their only key; the enter handler is built from these options |
| `FromMarkdown.EnterAttention` | lib/index.js:56-66 | pushes exactly one node onto the open-node stack: the configured type, no children, `hName` equal to the configured tag. The triggering token is pushed onto the token stack. Everything beneath is unchanged |
| `FromMarkdown.ExitAttention` | lib/index.js:69-71 | does exactly what the host's close does to the two stacks; on an error the stacks are left as they were |
| `FromMarkdown.CompileContext.Enter` | lib/index.js:57-65 | the host's `this.enter(node, token)`: pushes onto both stacks and keeps them well formed |
| `FromMarkdown.Open` | lib/index.js:57-65 | the host's `enter`: the node goes on top of the open-node stack and the token on top of the token stack; everything beneath is unchanged, and well-formed stacks stay well formed |
| `FromMarkdown.CompileContext.Exit` | lib/index.js:70 | the host's `this.exit(token)`: the new stacks and the closed node are those of `Close` |
| `FromMarkdown.Close` | lib/index.js:70 | closing succeeds exactly when a token is open and its type matches; then both stacks lose their top entry, and the entries beneath are unchanged except that the new innermost node gains the closed node as its last child. The stacks stay well formed, and the closed node is the innermost one, spanning from its opening token's start to the closing token's end |
| `FromMarkdown.Step` | lib/index.js:55-72 | dispatch of one event through the tables: an event without a handler leaves the stacks unchanged; an enter with a handler adds one node on top, leaving the stack beneath unchanged; a successful step keeps the stacks well formed |
| `FromMarkdown.Run` | lib/index.js:55-72 | a walk that succeeds keeps the stacks well formed, and a stream with no event the tables handle leaves them unchanged |
| `FromMarkdown.EnterThenExit` | lib/index.js:56-71 | an enter followed by the matching exit leaves both stacks as deep as before; the node added to the parent is the node enter opened, now spanning the token |
| `FromMarkdown.OtherTokensSkipped` | lib/index.js:55-72 | events of any other token type leave the stacks untouched, because the tables have no other key |
| `FromMarkdown.ForestRun` | lib/index.js:54-72 | running the events of any well-nested sequence of spans closes every node opened; both stacks end as they began, except that the innermost open node gains exactly the nodes for those spans. Each of those nodes has the configured type and `hName`, is nested as the spans are, and spans its own token |
| `ToMarkdown.AttentionToMarkdown` | lib/index.js:83-123 | the unsafe list is the single record `{character: char, inConstruct: 'phrasing', notInConstruct: [autolink, destinationLiteral, destinationRaw, reference, titleQuote, titleApostrophe]}`; the handler table's only key is the node name; its handler carries the options and has `peek` attached, reporting `char` |
| `ToMarkdown.Track` | lib/index.js:98 | `track(safeOptions)` starts at the caller's position and line shift |
| `ToMarkdown.Move` | lib/index.js:102-110 | `tracker.move(s)` returns `s` itself; the tracker advances from its point over `s` under its own line shift |
| `ToMarkdown.OwnConstructStillUnsafe` | lib/index.js:35-42 | the delimiter's escaping is switched off in a construct exactly when it is one of the six listed constructs; the node's own name is not excluded unless it is one of them |
| `ToMarkdown.Serialized` | lib/index.js:97-113 | the handler's output is at least two delimiters long and starts and ends with the delimiter |
| `ToMarkdown.Serialize` | lib/index.js:97-113 | the output is `char + containerPhrasing(node, stack + [name], {before: char, after: char}) + char`; the node name is on top of the construct stack while the children are serialized, and the construct stack afterwards equals the stack before |
| `ToMarkdown.SerializeContext.Enter` | lib/index.js:100 | `context.enter(name)` pushes the name onto the construct stack |
| `ToMarkdown.SerializeContext.Exit` | lib/index.js:111 | the returned `exit()` pops the top construct |
| `ToMarkdown.EmptyChildren` | lib/index.js:102-112 | when the children serialize to nothing the output is exactly two delimiters |
| `ToMarkdown.PeekAgrees` | lib/index.js:102-119 | for every node and context, the registered handler's `peek` reports exactly the text its serialization starts with |
| `ToMarkdown.DelimiterIsRegistered` | lib/index.js:85-112 | the text on both sides of the children is the very character the same extension registers as unsafe |
| `FromHast.AttentionFromHast` | lib/index.js:147-159 | the handler table's only key is the configured tag name, and its handler is built from these options |
| `FromHast.HandleElement` | lib/index.js:149-158 | returns a node of the configured type whose children are `state.all(node)`; `patch` is called exactly once, with the element and that same node, which is what is returned |
| `FromHast.HastState.Patch` | lib/index.js:156 | `state.patch(from, to)` is recorded, in call order |
| `FromHast.ConvertedShape` | lib/index.js:150-155 | the node converted from HTML and the node the markdown enter handler opens share the instance's attention shape; only the parsed one carries `hName`, because the HTML handler sets no `data` |

## Left out

- `containerPhrasing` and `track` (lib/index.js:19-20): their code is not part of this model. They are abstract function parameters, so the model does not know how children are escaped or how lines and columns are counted.
- The host's application of unsafe patterns (whether a given character is escaped in a given construct stack): this module only registers the pattern.
- The micromark tokenizer, and so the full round trip from markdown text to markdown text: it is not part of this repository. `FromMarkdown.ForestRun` covers the compile half for a given token stream.
- The internals of `state.all` and `state.patch`: converting children and copying the element's position are the host's work. `HastState.Patch` only records its arguments, so the node returned has no position in the model.
- `FromMarkdown.CompileContext.Enter`: the host adds a node to its parent's children when the node is opened, and fills the same object in afterwards (aliasing). The value model adds the finished node to its parent when it is closed. The tree is the same once every node is closed; a tree observed while a span is open is not modelled.
- `FromMarkdown.CompileContext.Exit`: on a close the host cannot match, it throws after it has already popped. The model returns the error and leaves the stacks as they were, so it says nothing about the state of a compile that failed.
- Computed property names and the `@ts-expect-error` escapes: the handler tables are maps keyed by the configured names.
- `containerPhrasing` and `state.all` are pure functions in the model. In the host both run the children's handlers, which call `state.patch` on descendants and do their own balanced enter/exit on the construct stack. `HandleElement`'s single recorded `patch` and `Serialize`'s restored construct stack therefore describe this module's own calls only.
- The closure returned by `context.enter`: it is modelled as the method `SerializeContext.Exit`, which pops the top construct.
- Configuration validation: the code performs none.
