/** Properties of the error tree and of its drawing. */
module TreeFormatterProps {
  import opened Wrappers
  import opened Values
  import opened SchemaAst
  import opened ParseResult
  import opened Text
  import opened TreeFormatter

  // ---------------------------------------------------------------------------
  // go
  // ---------------------------------------------------------------------------

  /** The four leaf errors become leaves with their fixed labels, or the message of a `Type` error. */
  lemma LeafErrorLabels(e: ParseError)
    requires e.IsLeaf()
    ensures Go(e).forest == []
    ensures e.Type? ==> Go(e).value == GetMessage(e)
    ensures e.Forbidden? ==> Go(e).value == "is forbidden"
    ensures e.Unexpected? ==> Go(e).value == "is unexpected"
    ensures e.Missing? ==> Go(e).value == "is missing"
  {
  }

  /**
   * The collapsing rule in terms of the errors: an index or key merges with its child
   * exactly when it has one child error and that child is itself an index or key with
   * child errors. Then the label is the wrapper's segment followed by the child's label,
   * and the node takes over the child's forest; otherwise the label is the segment alone
   * and the forest has one subtree per child error.
   */
  lemma CollapseRule(e: ParseError)
    requires e.Index? || e.Key?
    ensures IsCollapsible(GoForest(e.errors), e.errors) <==>
      |e.errors| == 1 && (e.errors[0].Index? || e.errors[0].Key?) && e.errors[0].errors != []
    ensures IsCollapsible(GoForest(e.errors), e.errors) ==>
      Go(e) == Tree(Segment(e) + Go(e.errors[0]).value, Go(e.errors[0]).forest)
    ensures !IsCollapsible(GoForest(e.errors), e.errors) ==>
      Go(e).value == Segment(e) && |Go(e).forest| == |e.errors|
      && forall i :: 0 <= i < |e.errors| ==> Go(e).forest[i] == Go(e.errors[i])
  {
    if |e.errors| == 1 {
      var c := e.errors[0];
      assert GoForest(e.errors)[0] == Go(c);
      if c.UnionMember? {
        assert Go(c).forest == GoForest(c.errors);
      }
    }
  }

  /** The label of an index or key node starts with its own segment, merged or not. */
  lemma GoLabelStartsWithSegment(e: ParseError)
    requires e.Index? || e.Key?
    ensures Segment(e) <= Go(e).value
  {
    var es := GoForest(e.errors);
    if IsCollapsible(es, e.errors) {
      assert Go(e).value == Segment(e) + es[0].value;
    }
  }

  /** An index or key with other than exactly one child error keeps its segment and one subtree per error. */
  lemma NotMerged(e: ParseError)
    requires e.Index? || e.Key?
    requires |e.errors| != 1
    ensures Go(e) == Tree(Segment(e), GoForest(e.errors))
  {
    assert !IsCollapsible(GoForest(e.errors), e.errors);
  }

  /**
   * A union member is never merged: it is its own node `union member` with one subtree per
   * child error, and an index or key whose one child is a union member keeps it as its child.
   */
  lemma UnionMemberNeverMerged(e: ParseError)
    requires e.Index? || e.Key?
    requires |e.errors| == 1 && e.errors[0].UnionMember?
    ensures Go(e) == Tree(Segment(e), [Go(e.errors[0])])
    ensures Go(e.errors[0]).value == "union member"
    ensures |Go(e.errors[0]).forest| == |e.errors[0].errors|
    ensures forall i :: 0 <= i < |e.errors[0].errors| ==> Go(e.errors[0]).forest[i] == Go(e.errors[0].errors[i])
  {
    assert GoForest(e.errors) == [Go(e.errors[0])];
  }

  /** The number of leaves of a tree. */
  function Leaves(t: Tree): nat
    decreases t, 1
  {
    if t.forest == [] then 1 else LeavesOf(t.forest)
  }

  function LeavesOf(forest: seq<Tree>): nat
    decreases forest, 0
  {
    if forest == [] then 0 else LeavesOf(forest[..|forest| - 1]) + Leaves(forest[|forest| - 1])
  }

  /** Collapsing loses no leaf: the tree of an error has one leaf per leaf error in it. */
  lemma {:induction false} GoKeepsLeaves(e: ParseError)
    requires WellFormed(e)
    ensures Leaves(Go(e)) == LeafErrors(e)
    decreases e, 1
  {
    if !e.IsLeaf() {
      GoForestKeepsLeaves(e.errors);
      var es := GoForest(e.errors);
      if (e.Index? || e.Key?) && IsCollapsible(es, e.errors) {
        assert es == [es[0]];
        assert LeavesOf(es) == Leaves(es[0]) by {
          assert es[..0] == [];
        }
      }
    }
  }

  lemma {:induction false} GoForestKeepsLeaves(es: seq<ParseError>)
    requires AllWellFormed(es)
    ensures LeavesOf(GoForest(es)) == AllLeafErrors(es)
    decreases es, 0
  {
    if es != [] {
      var init := es[..|es| - 1];
      GoForestKeepsLeaves(init);
      GoKeepsLeaves(es[|es| - 1]);
      assert GoForest(es)[..|es| - 1] == GoForest(init);
    }
  }

  /** A chain of index and key wrappers, each with exactly one child error, ending in a leaf error. */
  ghost predicate IsPath(e: ParseError) {
    (e.Index? || e.Key?) && |e.errors| == 1 && (e.errors[0].IsLeaf() || IsPath(e.errors[0]))
  }

  /** The segments of a path, outermost first: `["a"]["b"]["c"][0]["d"]`. */
  ghost function PathLabel(e: ParseError): string
    requires IsPath(e)
  {
    Segment(e) + if e.errors[0].IsLeaf() then "" else PathLabel(e.errors[0])
  }

  /** The leaf error at the end of a path. */
  ghost function PathEnd(e: ParseError): (leaf: ParseError)
    requires IsPath(e)
    ensures leaf.IsLeaf()
  {
    if e.errors[0].IsLeaf() then e.errors[0] else PathEnd(e.errors[0])
  }

  /** A whole path collapses into one node labelled with all its segments, above the leaf. */
  lemma {:induction false} GoPath(e: ParseError)
    requires IsPath(e)
    ensures Go(e) == Tree(PathLabel(e), [Go(PathEnd(e))])
  {
    var c := e.errors[0];
    CollapseRule(e);
    if !c.IsLeaf() {
      GoPath(c);
    }
  }

  // ---------------------------------------------------------------------------
  // draw
  // ---------------------------------------------------------------------------

  /** The lines of the first `n` children are a prefix of the lines of the first `m`. */
  lemma {:induction false} ChildLinesPrefix(indentation: string, forest: seq<Tree>, n: nat, m: nat)
    requires n <= m <= |forest|
    ensures |ChildLines(indentation, forest, n)| <= |ChildLines(indentation, forest, m)|
    ensures ChildLines(indentation, forest, m)[..|ChildLines(indentation, forest, n)|]
      == ChildLines(indentation, forest, n)
    decreases m - n
  {
    if n < m {
      var j := m - 1;
      var head := ChildLines(indentation, forest, n);
      var shorter := ChildLines(indentation, forest, j);
      assert |head| <= |shorter| && shorter[..|head|] == head by {
        ChildLinesPrefix(indentation, forest, n, j);
      }
      var rest := [indentation + Connector(j, |forest|) + forest[j].value]
        + DrawLines(indentation + Extension(j, |forest|), forest[j].forest);
      assert ChildLines(indentation, forest, m) == shorter + rest;
      PrefixOfPrefix(shorter, rest, head);
    }
  }

  lemma PrefixOfPrefix<T>(a: seq<T>, b: seq<T>, head: seq<T>)
    requires |head| <= |a| && a[..|head|] == head
    ensures (a + b)[..|head|] == head
  {
    assert (a + b)[..|head|] == a[..|head|];
  }

  /**
   * The drawing of a forest is made of one block per child, in order: child `i` gets the
   * line `indentation + connector + label`, followed by the lines of its own forest drawn
   * with the indentation extended as `Extension` says.
   */
  lemma ChildBlock(indentation: string, forest: seq<Tree>, i: nat)
    requires i < |forest|
    ensures SizeUpTo(forest, i) < SizeUpTo(forest, i + 1) <= |DrawLines(indentation, forest)|
    ensures DrawLines(indentation, forest)[SizeUpTo(forest, i)..SizeUpTo(forest, i + 1)]
      == [indentation + Connector(i, |forest|) + forest[i].value]
         + DrawLines(indentation + Extension(i, |forest|), forest[i].forest)
  {
    var before := ChildLines(indentation, forest, i);
    var block := [indentation + Connector(i, |forest|) + forest[i].value]
      + DrawLines(indentation + Extension(i, |forest|), forest[i].forest);
    ChildBlockPrefix(indentation, forest, i, before, block);
    SliceOfPrefix(DrawLines(indentation, forest), before, block);
  }

  /** The lines up to and including child `i`'s block start the drawing of the forest. */
  lemma ChildBlockPrefix(indentation: string, forest: seq<Tree>, i: nat, before: seq<string>, block: seq<string>)
    requires i < |forest|
    requires before == ChildLines(indentation, forest, i)
    requires block == [indentation + Connector(i, |forest|) + forest[i].value]
      + DrawLines(indentation + Extension(i, |forest|), forest[i].forest)
    ensures |before| == SizeUpTo(forest, i) && |before| + |block| == SizeUpTo(forest, i + 1)
    ensures |before + block| <= |DrawLines(indentation, forest)|
    ensures DrawLines(indentation, forest)[..|before + block|] == before + block
  {
    var upTo := ChildLines(indentation, forest, i + 1);
    var all := ChildLines(indentation, forest, |forest|);
    assert upTo == before + block;
    assert all == DrawLines(indentation, forest);
    assert |upTo| <= |all| && all[..|upTo|] == upTo by {
      ChildLinesPrefix(indentation, forest, i + 1, |forest|);
    }
  }

  lemma SliceOfPrefix<T>(all: seq<T>, before: seq<T>, block: seq<T>)
    requires |before + block| <= |all| && all[..|before + block|] == before + block
    ensures all[|before|..|before| + |block|] == block
  {
    assert all[|before|..|before| + |block|] == (before + block)[|before|..];
  }

  /**
   * The connector is `└─ ` for the last child and `├─ ` for the others; the indentation
   * under a child grows by `│  ` only when it has siblings and is not the last, and by
   * `   ` otherwise.
   */
  lemma ConnectorAndExtension(i: nat, len: nat)
    requires i < len
    ensures Connector(i, len) == if i == len - 1 then "└─ " else "├─ "
    ensures Extension(i, len) == "│  " <==> len > 1 && i < len - 1
    ensures Extension(i, len) != "│  " ==> Extension(i, len) == "   "
  {
    assert "└" + "─ " == "└─ ";
    assert "├" + "─ " == "├─ ";
    assert "│  "[0] != "   "[0];
  }

  /** A single child is drawn with `└─ ` and its forest with three more spaces of indentation. */
  lemma DrawOneChild(indentation: string, t: Tree)
    ensures DrawLines(indentation, [t])
      == [indentation + "└─ " + t.value] + DrawLines(indentation + "   ", t.forest)
  {
    ConnectorAndExtension(0, 1);
  }

  /** Of two children, the first is drawn with `├─ ` and its forest under `│  `. */
  lemma DrawTwoChildren(indentation: string, t: Tree, u: Tree)
    ensures DrawLines(indentation, [t, u])
      == [indentation + "├─ " + t.value] + DrawLines(indentation + "│  ", t.forest)
         + [indentation + "└─ " + u.value] + DrawLines(indentation + "   ", u.forest)
  {
    ConnectorAndExtension(0, 2);
    ConnectorAndExtension(1, 2);
    var first := [indentation + "├─ " + t.value] + DrawLines(indentation + "│  ", t.forest);
    var second := [indentation + "└─ " + u.value] + DrawLines(indentation + "   ", u.forest);
    assert ChildLines(indentation, [t, u], 1) == first;
    assert ChildLines(indentation, [t, u], 2) == first + second;
  }

  /** The text of a single child: its line, then its forest drawn three spaces further in. */
  lemma DrawnOneChild(indentation: string, t: Tree)
    ensures Concat(DrawLines(indentation, [t]))
      == indentation + "└─ " + t.value + Concat(DrawLines(indentation + "   ", t.forest))
  {
    DrawOneChild(indentation, t);
    ConcatCons(indentation + "└─ " + t.value, DrawLines(indentation + "   ", t.forest));
  }

  /** The text of two children: the first under `├─ ` with its forest under `│  `, then the second. */
  lemma DrawnTwoChildren(indentation: string, t: Tree, u: Tree)
    ensures Concat(DrawLines(indentation, [t, u]))
      == (indentation + "├─ " + t.value + Concat(DrawLines(indentation + "│  ", t.forest)))
         + (indentation + "└─ " + u.value + Concat(DrawLines(indentation + "   ", u.forest)))
  {
    var a, b := indentation + "├─ " + t.value, indentation + "└─ " + u.value;
    var sa, sb := DrawLines(indentation + "│  ", t.forest), DrawLines(indentation + "   ", u.forest);
    DrawTwoChildren(indentation, t, u);
    assert DrawLines(indentation, [t, u]) == ([a] + sa) + ([b] + sb);
    ConcatAppend([a] + sa, [b] + sb);
    ConcatCons(a, sa);
    ConcatCons(b, sb);
  }

  /** Every line of a drawing starts with the indentation it was drawn with. */
  lemma {:induction false} DrawLinesIndented(indentation: string, forest: seq<Tree>)
    ensures forall k :: 0 <= k < |DrawLines(indentation, forest)| ==> indentation <= DrawLines(indentation, forest)[k]
    decreases forest, 1
  {
    ChildLinesIndented(indentation, forest, |forest|);
  }

  lemma {:induction false} ChildLinesIndented(indentation: string, forest: seq<Tree>, n: nat)
    requires n <= |forest|
    ensures forall k :: 0 <= k < |ChildLines(indentation, forest, n)| ==> indentation <= ChildLines(indentation, forest, n)[k]
    decreases forest, 0, n
  {
    if n > 0 {
      var i := n - 1;
      var deeper := indentation + Extension(i, |forest|);
      ChildLinesIndented(indentation, forest, i);
      DrawLinesIndented(deeper, forest[i].forest);
      var before := ChildLines(indentation, forest, i);
      var line := indentation + Connector(i, |forest|) + forest[i].value;
      var sub := DrawLines(deeper, forest[i].forest);
      assert ChildLines(indentation, forest, n) == before + [line] + sub;
      forall k | 0 <= k < |sub| ensures indentation <= sub[k] {
        assert deeper <= sub[k];
        assert sub[k][..|indentation|] == deeper[..|indentation|];
      }
    }
  }

  /** An empty forest is drawn as nothing, and a forest of n nodes as n lines. */
  lemma DrawLineCount(indentation: string, forest: seq<Tree>)
    ensures forest == [] ==> DrawLines(indentation, forest) == []
    ensures |DrawLines(indentation, forest)| == Size(forest)
  {
  }

  // ---------------------------------------------------------------------------
  // formatExpected
  // ---------------------------------------------------------------------------

  /** A union's label is its members' labels joined by ` or `; its own annotations play no part. */
  lemma UnionIgnoresAnnotations(types: seq<Ast>, a: Annotations, b: Annotations)
    ensures FormatExpected(Union(types, a)) == FormatExpected(Union(types, b))
    ensures |types| == 1 ==> FormatExpected(Union(types, a)) == FormatExpected(types[0])
    ensures |types| == 2 ==>
      FormatExpected(Union(types, a)) == FormatExpected(types[0]) + " or " + FormatExpected(types[1])
  {
    if |types| == 2 {
      var labels := FormatExpectedAll(types);
      assert labels[0] == FormatExpected(types[0]);
      assert labels[1..] == [FormatExpected(types[1])];
      assert Join(labels[1..], " or ") == FormatExpected(types[1]);
    }
  }

  /** A union nested as the first member of another reads the same as the flattened union. */
  lemma UnionNestingInvisible(xs: seq<Ast>, ys: seq<Ast>, a: Annotations, b: Annotations, c: Annotations)
    requires xs != []
    ensures FormatExpected(Union([Union(xs, a)] + ys, b)) == FormatExpected(Union(xs + ys, c))
  {
    var inner := FormatExpectedAll(xs);
    var rest := FormatExpectedAll(ys);
    assert FormatExpectedAll([Union(xs, a)] + ys) == [Join(inner, " or ")] + rest;
    assert FormatExpectedAll(xs + ys) == inner + rest;
    if ys == [] {
      assert [Join(inner, " or ")] + rest == [Join(inner, " or ")];
      assert inner + rest == inner;
    } else {
      JoinAppend(inner, rest, " or ");
      JoinAppend([Join(inner, " or ")], rest, " or ");
    }
  }

  /** Different keyword kinds have different tags. */
  lemma KeywordTagsDistinct(k: KeywordKind, j: KeywordKind)
    requires k != j
    ensures KeywordTag(k) != KeywordTag(j)
  {
    var s, t := KeywordTag(k), KeywordTag(j);
    match k
    case StringKeyword => assert s[1] == 't';
    case NumberKeyword => assert s[0] == 'N';
    case BooleanKeyword => assert s[0] == 'B';
    case BigIntKeyword => assert s[1] == 'i';
    case UndefinedKeyword => assert |s| == 16;
    case SymbolKeyword => assert s[1] == 'y';
    case ObjectKeyword => assert s[0] == 'O';
    case AnyKeyword => assert |s| == 10;
    case UnknownKeyword => assert s[0] == 'U' && |s| == 14;
    case VoidKeyword => assert |s| == 11;
    case NeverKeyword => assert |s| == 12;
  }

  /** Without annotations, a keyword is labelled by its tag, and different keywords by different tags. */
  lemma KeywordFallback(k: KeywordKind, j: KeywordKind)
    ensures FormatExpected(Keyword(k, NoAnnotations)) == KeywordTag(k)
    ensures FormatExpected(Keyword(k, NoAnnotations)) == FormatExpected(Keyword(j, NoAnnotations)) <==> k == j
  {
    assert FormatExpected(Keyword(k, NoAnnotations)) == KeywordTag(k);
    assert FormatExpected(Keyword(j, NoAnnotations)) == KeywordTag(j);
    if k != j {
      KeywordTagsDistinct(k, j);
    }
  }

  /** Without an identifying annotation the anonymous kinds have fixed placeholder labels. */
  lemma AnonymousPlaceholders(a: Annotations, from: Ast)
    requires GetExpected(a).None?
    ensures FormatExpected(Tuple(a)) == "<anonymous tuple or array schema>"
    ensures FormatExpected(TypeLiteral(a)) == "<anonymous type literal schema>"
    ensures FormatExpected(Lazy(a)) == "<anonymous lazy schema>"
    ensures FormatExpected(Declaration(a)) == "<anonymous declaration schema>"
    ensures FormatExpected(Refinement(from, a)) == "<anonymous refinement schema>"
  {
    Placeholder(Tuple(a), "<anonymous tuple or array schema>");
    Placeholder(TypeLiteral(a), "<anonymous type literal schema>");
    Placeholder(Lazy(a), "<anonymous lazy schema>");
    Placeholder(Declaration(a), "<anonymous declaration schema>");
    Placeholder(Refinement(from, a), "<anonymous refinement schema>");
  }

  /** The label of an unannotated node of a kind with a fixed placeholder. */
  lemma Placeholder(ast: Ast, placeholder: string)
    requires ast.Tuple? || ast.TypeLiteral? || ast.Lazy? || ast.Declaration? || ast.Refinement?
    requires GetExpected(ast.annotations).None?
    requires placeholder == (match ast
      case Tuple(_) => "<anonymous tuple or array schema>"
      case TypeLiteral(_) => "<anonymous type literal schema>"
      case Lazy(_) => "<anonymous lazy schema>"
      case Declaration(_) => "<anonymous declaration schema>"
      case _ => "<anonymous refinement schema>")
    ensures FormatExpected(ast) == placeholder
  {
  }

  /** Without an identifying annotation a transform reads `<from> <-> <to>`. */
  lemma TransformFallback(from: Ast, to: Ast, a: Annotations)
    requires GetExpected(a).None?
    ensures FormatExpected(Transform(from, to, a)) == FormatExpected(from) + " <-> " + FormatExpected(to)
  {
  }

  /**
   * Without an identifying annotation an enums node lists the positions `0 | 1 | ...` of
   * its members, so two enums of the same length read alike whatever their names and values.
   */
  lemma EnumsLabelIsPositions(enums: seq<(string, Value)>, others: seq<(string, Value)>, a: Annotations)
    requires GetExpected(a).None?
    requires |others| == |enums|
    ensures FormatExpected(Enums(enums, a)) == FormatExpected(Enums(others, a))
    ensures |enums| == 2 ==> FormatExpected(Enums(enums, a)) == "0 | 1"
  {
    var positions := seq(|enums|, i requires 0 <= i < |enums| => Decimal(i));
    assert positions == seq(|others|, i requires 0 <= i < |others| => Decimal(i));
    if |enums| == 2 {
      assert Decimal(0) == "0" && Decimal(1) == "1";
      assert positions == ["0", "1"];
      assert positions[1..] == ["1"];
      assert Join(positions, " | ") == "0" + " | " + "1";
    }
  }
}
