# Tree formatter and common helpers of effect-ts-schema, in Dafny

This project models two parts of the `@effect/schema` library:

- **The tree formatter.** It turns the structured errors of a failed decode into the
  text users read, for example

  ```
  error(s) found
  └─ ["a"]["b"]["c"][0]["d"]
     └─ Expected string, actual null
  ```

  The model covers `formatErrors`, `drawTree`, `draw`, `go`, `isCollapsible`,
  `getMessage`, `formatExpected`, `formatTemplateLiteral`, `getExpected` and
  `formatActual`.
- **The shared helpers.** These are `getKeysForIndexSignature`, `ownKeys`, the
  safe-integer bounds and `memoizeThunk`, the compute-once cache behind lazy schemas.

Modules:

- `Values` (`values.dfy`): the JavaScript values the formatter looks at. Undefined, null,
  booleans, strings, bigints and symbols are spelled out. Numbers, dates and objects are
  `Host(shown)`: their text comes from the host and is an input to the model.
- `SchemaAst` (`ast.dfy`): the schema AST nodes with the annotations the formatter reads
  (identifier, title, description, message hook).
- `ParseResult` (`parse_result.dfy`): the seven parse-error variants.
- `Text` (`text.dfy`): decimal rendering of integers, `join`, the concatenation of lines
  and `JSON.stringify` of a string.
- `Common` (`common.dfy`): `common.ts`. `memoizeThunk` is a class whose fields are the
  two variables the returned closure captures.
- `TreeFormatter` (`tree_formatter.dfy`): the formatter.
  - The pure parts (`go`, `formatExpected`, …) are functions.
  - `draw`, which builds its text in a loop, is a recursive method with a `for` loop. It
    is proved equal to `Concat(DrawLines(…))`. `DrawLines` is the list of entries the
    loop emits: one per node, in pre-order. An entry is a newline-led indentation, a
    connector and the node's label. Labels normally hold no newline, and then each entry
    is one line of text. A label that does hold one (a message hook's text, say) spans
    several text lines, but it is still one entry.
- `TreeFormatterProps` (`tree_formatter_props.dfy`): properties of `go`, `draw` and
  `formatExpected`.
- `TreeFormatterExamples` (`tree_formatter_examples.dfy`): the formatter's documented
  outputs, proved as lemmas about the model.

## Model

| member | source | states |
|---|---|---|
| TreeFormatter.FormatErrors | src/TreeFormatter.ts:26-27 | the text is the tree labelled `error(s) found` whose children are `go` of each error, drawn; it starts with `error(s) found` |
| TreeFormatter.ErrorTree | src/TreeFormatter.ts:26-27 | the root is labelled `error(s) found` and has exactly one child per error, child `i` being `go(errors[i])` |
| TreeFormatter.DrawTree | src/TreeFormatter.ts:29 | the text is the root label followed by its forest drawn with indentation `"\n"` |
| TreeFormatter.Draw | src/TreeFormatter.ts:31-42 | the loop's accumulated text equals the concatenation of the entries of every node of the forest, in pre-order |
| TreeFormatter.DrawLines | src/TreeFormatter.ts:31-42 | a forest of n nodes (descendants included) is drawn as exactly n entries |
| TreeFormatter.ChildLines | src/TreeFormatter.ts:35-40 | the first `n` iterations of the loop emit one entry per node of the first `n` trees |
| TreeFormatter.ChildLinesStep | src/TreeFormatter.ts:36-39 | one iteration appends the child's line (indentation, connector, label) and then the child's forest drawn one level deeper |
| TreeFormatterProps.ChildLinesPrefix | src/TreeFormatter.ts:35-40 | the loop only appends: the text after `n` iterations is a prefix of the text after `m >= n` |
| TreeFormatterProps.ChildBlock | src/TreeFormatter.ts:35-40 | child `i` occupies its own contiguous block of entries, at the position given by the sizes of the earlier children: its line first, then its forest |
| TreeFormatterProps.ConnectorAndExtension | src/TreeFormatter.ts:37-39 | the connector is `└─ ` exactly for the last child and `├─ ` otherwise; the indentation grows by `│  ` exactly when the child has a later sibling, and by three spaces otherwise |
| TreeFormatterProps.DrawOneChild | src/TreeFormatter.ts:35-40 | an only child is drawn with `└─ ` and its forest three spaces further in |
| TreeFormatterProps.DrawTwoChildren | src/TreeFormatter.ts:35-40 | of two children, the first gets `├─ ` and a `│  ` guide under it, the second gets `└─ ` and spaces |
| TreeFormatterProps.DrawnOneChild | src/TreeFormatter.ts:35-40 | the same as text: line of the child, then its forest |
| TreeFormatterProps.DrawnTwoChildren | src/TreeFormatter.ts:35-40 | the same as text for two children |
| TreeFormatterProps.DrawLinesIndented | src/TreeFormatter.ts:38-39 | every entry of a drawing starts with the indentation it was drawn with |
| TreeFormatterProps.ChildLinesIndented | src/TreeFormatter.ts:35-40 | every entry emitted by the first `n` iterations starts with the indentation |
| TreeFormatterProps.DrawLineCount | src/TreeFormatter.ts:31-42 | an empty forest draws nothing, and a forest draws one entry per node |
| TreeFormatter.FormatActual | src/TreeFormatter.ts:45-60 | undefined, null and symbols print as `String(x)`, booleans and strings as `JSON.stringify(x)`, bigints as their digits and `n` |
| TreeFormatter.FormatActualBigInt | src/TreeFormatter.ts:52-54 | a bigint prints as its decimal digits followed by `n`, and those digits read back as the same bigint (so no two bigints print alike) |
| Text.DecimalRoundTrip | src/TreeFormatter.ts:52-54 | reading the decimal text of any integer back gives that integer |
| Text.DecimalInjective | src/TreeFormatter.ts:52-54 | two integers have the same decimal text exactly when they are equal |
| Text.DigitsRoundTrip | src/TreeFormatter.ts:52-54 | the digits of a natural number read back as that number |
| Text.Decimal | src/TreeFormatter.ts:52-54 | `String(i)` of an integer is non-empty and starts with a minus sign exactly when the integer is negative; read back, it gives the integer (`Text.DecimalRoundTrip`) |
| Text.Digits | src/TreeFormatter.ts:52-54 | the digits of a natural are non-empty, all decimal digits, with no leading zero |
| Text.JsonQuote | src/TreeFormatter.ts:55-56 | `JSON.stringify` of a string is wrapped in double quotes |
| Text.EscapeChar | src/TreeFormatter.ts:55-56 | a character is escaped exactly when it is a quote, a backslash or a control character, and an escape starts with a backslash |
| Text.JsonQuotePlain | src/TreeFormatter.ts:55-56 | a string with nothing to escape is shown as itself in double quotes |
| TreeFormatter.FormatTemplateLiteralSpan | src/TreeFormatter.ts:62-69 | a placeholder has the shape `${…}`; it is `${string}` exactly for a string span and `${number}` exactly for a number span |
| TreeFormatter.SpanTexts | src/TreeFormatter.ts:72 | one text per span, in order, each the span's placeholder followed by its literal |
| Text.ConcatIsJoin | src/TreeFormatter.ts:72 | concatenating texts one after the other, as `r +=` does in the drawing loop, is the same as `join("")` |
| TreeFormatter.FormatTemplateLiteral | src/TreeFormatter.ts:71-72 | the pattern starts with the head, and is the head alone when there are no spans |
| TreeFormatter.FormatTemplateLiteralAppend | src/TreeFormatter.ts:62-72 | one more span appends its placeholder (`${string}` or `${number}`) and its literal to the pattern |
| TreeFormatter.GetExpected | src/TreeFormatter.ts:74-78 | the identifier annotation wins over the title, the title over the description; none exactly when all three are missing |
| TreeFormatter.FormatExpected | src/TreeFormatter.ts:81-124 | every node but a union is labelled by its identifier, title or description when one is present |
| TreeFormatter.FormatExpectedAll | src/TreeFormatter.ts:100 | one label per union member, in order: label `i` is `formatExpected` of member `i` |
| TreeFormatterProps.KeywordFallback | src/TreeFormatter.ts:83-94 | an unannotated keyword is labelled by its `_tag`, and two keywords get the same label exactly when they are the same keyword |
| TreeFormatterProps.AnonymousPlaceholders | src/TreeFormatter.ts:103-117 | unannotated tuples, type literals, lazy, declaration and refinement nodes get their fixed `<anonymous … schema>` placeholders |
| TreeFormatterProps.UnionIgnoresAnnotations | src/TreeFormatter.ts:99-100 | a union's label is its members' labels joined by ` or `, whatever its own annotations say |
| TreeFormatterProps.UnionNestingInvisible | src/TreeFormatter.ts:99-100 | a non-empty union nested as the first member of a union is labelled as if it were flattened into it, whatever follows it, nothing included |
| TreeFormatterProps.TransformFallback | src/TreeFormatter.ts:118-122 | an unannotated transform is labelled `from <-> to` |
| TreeFormatterProps.EnumsLabelIsPositions | src/TreeFormatter.ts:107-111 | an unannotated enums label depends only on the number of members: two members always give the positions `0` and `1` joined by the bar separator |
| TreeFormatter.GetMessage | src/TreeFormatter.ts:130-137 | the schema's message hook wins over the error's own message, which wins over `Expected <label>, actual <value>` |
| TreeFormatter.Segment | src/TreeFormatter.ts:145-160 | the segment of an index or key error is a bracketed text |
| TreeFormatter.Go | src/TreeFormatter.ts:139-166 | a node has children exactly when its error is an index, key or union-member error with child errors |
| TreeFormatterProps.GoLabelStartsWithSegment | src/TreeFormatter.ts:145-160 | an index or key node's label starts with its own segment, whether or not it merged with its child |
| TreeFormatterProps.NotMerged | src/TreeFormatter.ts:145-160 | an index or key error with no child errors or with several keeps its segment as its label and gets one subtree per child error |
| TreeFormatter.GoForest | src/TreeFormatter.ts:139-166 | one tree per child error, in order: tree `i` is `go` of error `i` |
| TreeFormatter.IsCollapsible | src/TreeFormatter.ts:126-127 | on the trees `go` makes of the child errors, a node collapses exactly when there is one child error and it is itself an index or key error with child errors of its own |
| TreeFormatterProps.LeafErrorLabels | src/TreeFormatter.ts:139-166 | the four leaf errors become leaves labelled by their message, `is forbidden`, `is unexpected` and `is missing` |
| TreeFormatterProps.CollapseRule | src/TreeFormatter.ts:126-160 | an index or key node merges with its only child exactly when that child is itself a non-empty index or key error; merged, the labels concatenate and the grandchildren move up; otherwise the node keeps its segment and one child per error |
| TreeFormatterProps.UnionMemberNeverMerged | src/TreeFormatter.ts:126-164 | a key or index above a single union member is never merged; the member becomes a `union member` node over its own errors |
| TreeFormatterProps.GoKeepsLeaves | src/TreeFormatter.ts:139-166 | collapsing loses nothing: the tree has as many leaves as the error has leaf errors |
| TreeFormatterProps.GoForestKeepsLeaves | src/TreeFormatter.ts:139-166 | the same for a list of errors |
| TreeFormatterProps.GoPath | src/TreeFormatter.ts:145-160 | a chain of single-child index and key errors ending in a leaf becomes one node, labelled by all the segments outermost first, above the leaf |
| TreeFormatterExamples.StringTypeMessage | test/TreeFormatter.test.ts:62-64 | a string schema's type error reads `Expected string, actual <value>` |
| TreeFormatterExamples.KeySegment | test/TreeFormatter.test.ts:20-22 | a key made of lower-case letters is shown as `["name"]` |
| TreeFormatterExamples.PropertyError | test/TreeFormatter.test.ts:17-47 | a forbidden, missing or unexpected property draws as `error(s) found`, `└─ ["a"]`, then the leaf's label three spaces in |
| TreeFormatterExamples.CollapsedPath | test/TreeFormatter.test.ts:59-72 | a single bad element deep in nested structs draws as one collapsed line `["a"]["b"]["c"][0]["d"]` above the message |
| TreeFormatterExamples.BranchingPath | test/TreeFormatter.test.ts:73-83 | two bad elements draw as `["a"]["b"]["c"]` branching into `[0]["d"]` and `[1]["d"]`, with the `│  ` guide under the first |
| TreeFormatterExamples.UnionMemberLine | test/TreeFormatter.test.ts:84-92 | an error inside a union member draws the key, `union member`, the member's key and the leaf on four levels |
| TreeFormatterExamples.LazyLabel | test/TreeFormatter.test.ts:7-13 | an unannotated lazy schema is labelled `<anonymous lazy schema>` |
| TreeFormatterExamples.RenderedChain4 | src/TreeFormatter.ts:29-42 | a chain of four single children draws one line per level, each three spaces deeper, all with `└─ ` |
| TreeFormatterExamples.RenderedBranch | src/TreeFormatter.ts:29-42 | a node with two children draws `├─ ` then `└─ `, with the guide only under the first |
| TreeFormatterExamples.ElementTree | src/TreeFormatter.ts:145-160 | an element whose key has a type error merges into one node `[i]["d"]` above the message |
| Common.GetKeysForIndexSignature | src/internal/common.ts:22-35 | the symbol keys when the parameter is, under its refinements, the symbol keyword; the string keys when it is the string keyword or a template literal |
| Common.BaseParameter | src/internal/common.ts:32-33 | following refinements ends at a string keyword, symbol keyword or template literal |
| Common.IndexSignatureKeysAreOwnKeys | src/internal/common.ts:22-49 | every key an index signature ranges over is one of the object's own keys |
| Common.OwnKeys | src/internal/common.ts:48-49 | the own keys are the string keys in order, then the symbol keys in order, and nothing else |
| Common.OwnKeysStringsFirst | src/internal/common.ts:48-49 | no symbol key comes before a string key |
| Common.SafeIntegerBounds | src/internal/common.ts:42-45 | the bounds are `2^53 - 1` and its negation |
| Common.Thunk.Invoke | test/AST/createLazy.test.ts:12-18 | running the thunk counts one run and returns that run's outcome |
| Common.MemoizedThunk.constructor | src/internal/common.ts:52-54 | a fresh memoized function has computed nothing and run `f` no times |
| Common.MemoizedThunk.Call | src/internal/common.ts:55-62 | the first call runs `f` once and caches what that run returns; later calls return the cached result and run nothing; the memoized function runs `f` at most once, even when `f` is shared |
| Common.ResolveLazyTwice | test/AST/createLazy.test.ts:6-22 | a lazy schema resolved on two decodes runs its thunk once, and both see the same schema |
| Common.SharedThunk | src/internal/common.ts:52-63 | two memoized functions over one thunk each run it once, on their own first call, and each keeps returning what its run gave |

## Left out

- The schema interpreter that builds parse errors, and the AST constructors and guards, are not part of this model. Tuples, type literals, lazy nodes and declarations carry only their annotations. Refinements carry their annotations and the node they refine (`from`), but not their predicate.
- FormatActual: numbers, dates and objects are `Host(shown)`. Their text (`String(x)` or `JSON.stringify(x)`) comes from the host, and so does the fallback to `String(x)` when `JSON.stringify` throws on a circular object.
- Text.JsonQuote: a Dafny `char` is a Unicode scalar value, so a string holding a lone surrogate cannot be expressed. `JSON.stringify` writes such a surrogate as a `\uXXXX` escape, and the model does not cover that case.
- FormatActual: property keys that are numbers are not modelled. A key is a string or a symbol, as `ownKeys` returns them.
- FormatExpected: the message, title, identifier and description annotations are fields of the node. The lookup by annotation id is not modelled.
- GetMessage: the message hook is a function from the actual value to text. How the hook is produced is not modelled.
- TreeFormatter.Draw: the model's statement is about the text the loop produces. JavaScript string building and its performance are not modelled.
- TreeFormatterProps.EnumsLabelIsPositions: the enums label is kept as written. `ast.enums.map((_, value) => …)` stringifies each member's position and not its value. This property states that behaviour rather than the member names and values the label evidently meant to show.
- Which error a decode reports first, and whether it reports all of them, is the interpreter's choice. The examples take the error values directly.
- The examples generalise over the leaf error and the actual value. The test's `null` is the `Null` value; its `1` is a `Host` value whose text is a parameter.
- Common.MemoizedThunk.Call: the thunk cannot re-enter itself or throw. A throwing `f` in the source leaves `done` false and would run again on the next call.
- Concurrency: none exists in the source.
