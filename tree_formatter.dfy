/**
 * Renders a non-empty list of parse errors as a box-drawn text tree.
 *
 * Errors are first mapped to a labelled tree (`Go`), where chains of single-child
 * index and key wrappers collapse into one line; the tree is then drawn line by line
 * with `├─ ` / `└─ ` connectors and `│  ` / `   ` continuation.
 */
module TreeFormatter {
  import opened Wrappers
  import opened Values
  import opened SchemaAst
  import opened ParseResult
  import opened Text

  datatype Tree = Tree(value: string, forest: seq<Tree>)

  // ---------------------------------------------------------------------------
  // Labels for values and schema nodes
  // ---------------------------------------------------------------------------

  /**
   * `formatActual`: `String(x)` for undefined, null and symbols, the decimal digits and an
   * `n` for a bigint, and `JSON.stringify(x)` for booleans and strings. Numbers, dates and
   * objects carry the text the host gives them.
   */
  function FormatActual(actual: Value): string {
    match actual
    case Undefined => "undefined"
    case Null => "null"
    case Sym(sym) => "Symbol(" + sym.description + ")"
    case Host(shown) => shown
    case BigInt(i) => Decimal(i) + "n"
    case Boolean(b) => if b then "true" else "false"
    case Str(s) => JsonQuote(s)
  }

  /** A bigint is shown as its decimal digits followed by `n`, and the digits read back as the bigint. */
  lemma FormatActualBigInt(i: int)
    ensures var r := FormatActual(BigInt(i));
      |r| >= 2 && r[|r| - 1] == 'n' && ParseDecimal(r[..|r| - 1]) == Some(i)
  {
    var r := FormatActual(BigInt(i));
    assert r[..|r| - 1] == Decimal(i);
    DecimalRoundTrip(i);
  }

  /** The placeholder of a span: `${string}` or `${number}`, telling the two span types apart. */
  function FormatTemplateLiteralSpan(span: TemplateLiteralSpan): (r: string)
    ensures |r| >= 4 && r[..2] == "${" && r[|r| - 1] == '}'
    ensures r == "${string}" <==> span.spanType == StringSpan
    ensures r == "${number}" <==> span.spanType == NumberSpan
  {
    match span.spanType
    case StringSpan => "${string}"
    case NumberSpan => "${number}"
  }

  /** `spans.map((span) => formatTemplateLiteralSpan(span) + span.literal)`. */
  function SpanTexts(spans: seq<TemplateLiteralSpan>): (texts: seq<string>)
    ensures |texts| == |spans|
    ensures forall i :: 0 <= i < |spans| ==> texts[i] == FormatTemplateLiteralSpan(spans[i]) + spans[i].literal
  {
    seq(|spans|, i requires 0 <= i < |spans| => FormatTemplateLiteralSpan(spans[i]) + spans[i].literal)
  }

  /** The pattern of a template literal: its head, then each span's placeholder and literal. */
  function FormatTemplateLiteral(ast: Ast): (r: string)
    requires ast.TemplateLiteral?
    ensures ast.head <= r
    ensures ast.spans == [] ==> r == ast.head
  {
    ast.head + Join(SpanTexts(ast.spans), "")
  }

  /** Adding a span to a template literal appends that span's placeholder and literal to its pattern. */
  lemma FormatTemplateLiteralAppend(head: string, spans: seq<TemplateLiteralSpan>, span: TemplateLiteralSpan, a: Annotations)
    ensures FormatTemplateLiteral(TemplateLiteral(head, spans + [span], a))
      == FormatTemplateLiteral(TemplateLiteral(head, spans, a)) + FormatTemplateLiteralSpan(span) + span.literal
  {
    var placeholder := FormatTemplateLiteralSpan(span);
    var joined := Join(SpanTexts(spans), "");
    var before := FormatTemplateLiteral(TemplateLiteral(head, spans, a));
    var after := FormatTemplateLiteral(TemplateLiteral(head, spans + [span], a));
    assert before == head + joined;
    assert after == head + (joined + (placeholder + span.literal)) by {
      SpanTextsAppend(spans, span);
      JoinNothingAppend(SpanTexts(spans), placeholder + span.literal);
    }
    assert after == before + placeholder + span.literal by {
      AppendRegroup(head, joined, placeholder, span.literal);
    }
  }

  lemma SpanTextsAppend(spans: seq<TemplateLiteralSpan>, span: TemplateLiteralSpan)
    ensures SpanTexts(spans + [span]) == SpanTexts(spans) + [FormatTemplateLiteralSpan(span) + span.literal]
  {
  }

  /** `getExpected`: the identifier annotation, else the title, else the description. */
  function GetExpected(a: Annotations): (r: Option<string>)
    ensures r.None? <==> a.identifier.None? && a.title.None? && a.description.None?
    ensures a.identifier.Some? ==> r == a.identifier
    ensures a.identifier.None? && a.title.Some? ==> r == a.title
    ensures a.identifier.None? && a.title.None? ==> r == a.description
  {
    a.identifier.OrElse(a.title).OrElse(a.description)
  }

  /** The label of a schema node in default messages. */
  function FormatExpected(ast: Ast): (r: string)
    ensures !ast.Union? && GetExpected(ast.annotations).Some? ==> r == GetExpected(ast.annotations).value
    decreases ast, 1
  {
    match ast
    case Keyword(kind, a) => GetExpected(a).GetOr(KeywordTag(kind))
    case Literal(literal, a) => GetExpected(a).GetOr(FormatActual(literal))
    case UniqueSymbol(symbol, a) => GetExpected(a).GetOr(FormatActual(Sym(symbol)))
    case Union(types, _) => Join(FormatExpectedAll(types), " or ")
    case TemplateLiteral(_, _, a) => GetExpected(a).GetOr(FormatTemplateLiteral(ast))
    case Tuple(a) => GetExpected(a).GetOr("<anonymous tuple or array schema>")
    case TypeLiteral(a) => GetExpected(a).GetOr("<anonymous type literal schema>")
    case Enums(enums, a) =>
      // The callback's second argument is the position in the list, not the enum's value.
      GetExpected(a).GetOr(Join(seq(|enums|, i requires 0 <= i < |enums| => Decimal(i)), " | "))
    case Lazy(a) => GetExpected(a).GetOr("<anonymous lazy schema>")
    case Declaration(a) => GetExpected(a).GetOr("<anonymous declaration schema>")
    case Refinement(_, a) => GetExpected(a).GetOr("<anonymous refinement schema>")
    case Transform(from, to, a) =>
      GetExpected(a).GetOr(FormatExpected(from) + " <-> " + FormatExpected(to))
  }

  /** `types.map(formatExpected)`: one label per union member, in order. */
  function FormatExpectedAll(types: seq<Ast>): (rs: seq<string>)
    ensures |rs| == |types|
    ensures forall i {:trigger rs[i]} :: 0 <= i < |types| ==> rs[i] == FormatExpected(types[i])
    decreases types, 0
  {
    seq(|types|, i requires 0 <= i < |types| => FormatExpected(types[i]))
  }

  // ---------------------------------------------------------------------------
  // Messages and the error tree
  // ---------------------------------------------------------------------------

  /**
   * `getMessage` of a `Type` error: the expected node's message annotation applied to the
   * actual value, else the error's own message, else `Expected <label>, actual <value>`.
   */
  function GetMessage(e: ParseError): (r: string)
    requires e.Type?
    ensures e.expected.annotations.message.Some? ==> r == e.expected.annotations.message.value(e.actual)
    ensures e.expected.annotations.message.None? && e.message.Some? ==> r == e.message.value
    ensures e.expected.annotations.message.None? && e.message.None? ==>
      r == "Expected " + FormatExpected(e.expected) + ", actual " + FormatActual(e.actual)
  {
    match e.expected.annotations.message
    case Some(annotation) => annotation(e.actual)
    case None =>
      e.message.GetOr("Expected " + FormatExpected(e.expected) + ", actual " + FormatActual(e.actual))
  }

  /** `isCollapsible`: one mapped child, which has children of its own, and not from a union member. */
  predicate IsCollapsible(es: seq<Tree>, errors: seq<ParseError>)
    requires |es| == |errors|
    // On the trees `go` makes of the child errors: there is exactly one child error, and it
    // is itself an index or key error with child errors of its own.
    ensures es == GoForest(errors) ==> (IsCollapsible(es, errors) <==>
      |errors| == 1 && (errors[0].Index? || errors[0].Key?) && errors[0].errors != [])
    decreases errors, 2
  {
    |es| == 1 && es[0].forest != [] && !errors[0].UnionMember?
  }

  /** The label of an index or key wrapper: `[0]`, `["a"]`. */
  function Segment(e: ParseError): (r: string)
    requires e.Index? || e.Key?
    ensures |r| >= 3 && r[0] == '[' && r[|r| - 1] == ']'
  {
    if e.Index? then "[" + Decimal(e.index) + "]" else "[" + FormatActual(KeyValue(e.key)) + "]"
  }

  /**
   * `go`: the tree of one error. Leaf errors become leaves; a wrapper becomes a node whose
   * children are its mapped child errors, or, for an index or key whose one child has
   * children itself and is not a union member, the two merge into one node.
   */
  function Go(e: ParseError): (t: Tree)
    ensures t.forest == [] <==> e.IsLeaf() || e.errors == []
    decreases e, 1
  {
    match e
    case Type(_, _, _) => Tree(GetMessage(e), [])
    case Forbidden => Tree("is forbidden", [])
    case Index(_, errors) =>
      var es := GoForest(errors);
      if IsCollapsible(es, errors) then Tree(Segment(e) + es[0].value, es[0].forest)
      else Tree(Segment(e), es)
    case Unexpected => Tree("is unexpected", [])
    case Key(_, errors) =>
      var es := GoForest(errors);
      if IsCollapsible(es, errors) then Tree(Segment(e) + es[0].value, es[0].forest)
      else Tree(Segment(e), es)
    case Missing => Tree("is missing", [])
    case UnionMember(errors) => Tree("union member", GoForest(errors))
  }

  /** `errors.map(go)`. */
  function GoForest(errors: seq<ParseError>): (ts: seq<Tree>)
    ensures |ts| == |errors|
    ensures forall i {:trigger ts[i]} :: 0 <= i < |errors| ==> ts[i] == Go(errors[i])
    decreases errors, 0
  {
    seq(|errors|, i requires 0 <= i < |errors| => Go(errors[i]))
  }

  /** The tree `formatErrors` draws: the root `error(s) found` with one subtree per error, in order. */
  function ErrorTree(errors: seq<ParseError>): (t: Tree)
    requires |errors| > 0
    ensures t.value == "error(s) found" && |t.forest| == |errors|
    ensures forall i :: 0 <= i < |errors| ==> t.forest[i] == Go(errors[i])
  {
    Tree("error(s) found", GoForest(errors))
  }

  // ---------------------------------------------------------------------------
  // Drawing
  // ---------------------------------------------------------------------------

  /** The connector in front of child `i` of `len`: `└─ ` for the last, `├─ ` for the others. */
  function Connector(i: nat, len: nat): string {
    (if i == len - 1 then "└" else "├") + "─ "
  }

  /** The indentation added under child `i` of `len`: `│  ` when a later sibling follows, `   ` otherwise. */
  function Extension(i: nat, len: nat): string {
    if len > 1 && i != len - 1 then "│  " else "   "
  }

  /** The number of nodes in a forest, every descendant included. */
  function Size(forest: seq<Tree>): nat
    decreases forest, 1
  {
    SizeUpTo(forest, |forest|)
  }

  /** The number of nodes in the first `n` trees of a forest. */
  function SizeUpTo(forest: seq<Tree>, n: nat): nat
    requires n <= |forest|
    decreases forest, 0, n
  {
    if n == 0 then 0 else SizeUpTo(forest, n - 1) + 1 + Size(forest[n - 1].forest)
  }

  /**
   * The lines `draw(indentation, forest)` emits, one per node in pre-order: the line of
   * child `i` is `indentation`, its connector and its label, followed by the lines of
   * its own forest under the extended indentation.
   */
  function DrawLines(indentation: string, forest: seq<Tree>): (lines: seq<string>)
    ensures |lines| == Size(forest)
    decreases forest, 1
  {
    ChildLines(indentation, forest, |forest|)
  }

  /** The lines of the first `n` children of `forest`. */
  function ChildLines(indentation: string, forest: seq<Tree>, n: nat): (lines: seq<string>)
    requires n <= |forest|
    ensures |lines| == SizeUpTo(forest, n)
    decreases forest, 0, n
  {
    if n == 0 then []
    else
      var i := n - 1;
      var len := |forest|;
      ChildLines(indentation, forest, i)
        + [indentation + Connector(i, len) + forest[i].value]
        + DrawLines(indentation + Extension(i, len), forest[i].forest)
  }

  /** Drawing one more child appends its line and the lines of its forest. */
  lemma ChildLinesStep(indentation: string, forest: seq<Tree>, i: nat)
    requires i < |forest|
    ensures Concat(ChildLines(indentation, forest, i + 1))
      == Concat(ChildLines(indentation, forest, i))
         + (indentation + Connector(i, |forest|) + forest[i].value)
         + Concat(DrawLines(indentation + Extension(i, |forest|), forest[i].forest))
  {
    var before := ChildLines(indentation, forest, i);
    var line := indentation + Connector(i, |forest|) + forest[i].value;
    var sub := DrawLines(indentation + Extension(i, |forest|), forest[i].forest);
    ConcatAppend(before, [line]);
    ConcatAppend(before + [line], sub);
    assert Concat([line]) == line by {
      assert [line][..0] == [];
    }
  }

  /** `draw`: appends, for each child in turn, its line and then the drawing of its forest. */
  method Draw(indentation: string, forest: seq<Tree>) returns (r: string)
    ensures r == Concat(DrawLines(indentation, forest))
    decreases forest
  {
    r := "";
    var len := |forest|;
    var tree: Tree;
    for i := 0 to len
      invariant r == Concat(ChildLines(indentation, forest, i))
    {
      tree := forest[i];
      r := r + (indentation + Connector(i, len) + tree.value);
      var sub := Draw(indentation + Extension(i, len), tree.forest);
      r := r + sub;
      ChildLinesStep(indentation, forest, i);
    }
  }

  /** The text `drawTree` produces: the root's label, then the lines of its forest, each on a new line. */
  function Rendered(t: Tree): string {
    t.value + Concat(DrawLines("\n", t.forest))
  }

  method DrawTree(tree: Tree) returns (r: string)
    ensures r == Rendered(tree)
  {
    var drawn := Draw("\n", tree.forest);
    r := tree.value + drawn;
  }

  /** `formatErrors`: the drawing of the error tree, whose first line is `error(s) found`. */
  method FormatErrors(errors: seq<ParseError>) returns (r: string)
    requires |errors| > 0
    ensures r == Rendered(ErrorTree(errors))
    ensures "error(s) found" <= r
  {
    r := DrawTree(ErrorTree(errors));
  }
}
