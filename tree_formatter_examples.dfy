/**
 * The trees and drawings the formatter's test suite pins, derived from the model. Each is
 * stated for every actual value or leaf error where the test fixes only one.
 */
module TreeFormatterExamples {
  import opened Wrappers
  import opened Values
  import opened SchemaAst
  import opened ParseResult
  import opened Text
  import opened TreeFormatter
  import opened TreeFormatterProps

  /** The string keyword as the schema library builds it: titled `string`. */
  const StringSchema: Ast := Keyword(StringKeyword, NoAnnotations.(title := Some("string")))

  predicate IsLowerCase(name: string) {
    forall i :: 0 <= i < |name| ==> 'a' <= name[i] <= 'z'
  }

  /** The segment of a key made of lower-case letters is the name in double quotes, in brackets. */
  lemma KeySegment(name: string, errors: seq<ParseError>)
    requires IsLowerCase(name)
    ensures Segment(Key(StringKey(name), errors)) == "[\"" + name + "\"]"
  {
    JsonQuotePlain(name);
    assert "[" + ("\"" + name + "\"") + "]" == "[\"" + name + "\"]";
  }

  /** The default message of a `Type` error against the string schema. */
  lemma StringTypeMessage(actual: Value)
    ensures GetMessage(Type(StringSchema, actual, None)) == "Expected string, actual " + FormatActual(actual)
  {
    assert FormatExpected(StringSchema) == "string";
    assert "Expected " + "string" + ", actual " == "Expected string, actual ";
  }

  // ---------------------------------------------------------------------------
  // Drawing trees of the shapes the tests use
  // ---------------------------------------------------------------------------

  /** A node with one child and a leaf below that child. */
  predicate IsChain2(t: Tree) {
    |t.forest| == 1 && |t.forest[0].forest| == 1 && t.forest[0].forest[0].forest == []
  }

  /** A node with a chain of four single children, the last a leaf. */
  predicate IsChain4(t: Tree) {
    |t.forest| == 1 && |t.forest[0].forest| == 1 && IsChain2(t.forest[0].forest[0])
  }

  /** A node with one child that has two children, each above one leaf. */
  predicate IsBranch(t: Tree) {
    |t.forest| == 1 && |t.forest[0].forest| == 2
    && |t.forest[0].forest[0].forest| == 1 && t.forest[0].forest[0].forest[0].forest == []
    && |t.forest[0].forest[1].forest| == 1 && t.forest[0].forest[1].forest[0].forest == []
  }

  /** A node with one child is drawn as that child's line, then the child's forest three spaces in. */
  lemma OneChildText(indentation: string, t: Tree)
    requires |t.forest| == 1
    ensures Concat(DrawLines(indentation, t.forest))
      == indentation + "└─ " + t.forest[0].value + Concat(DrawLines(indentation + "   ", t.forest[0].forest))
  {
    assert t.forest == [t.forest[0]];
    DrawnOneChild(indentation, t.forest[0]);
  }

  /** A root with one child that has one leaf below it. */
  lemma RenderedChain2(t: Tree)
    requires IsChain2(t)
    ensures Rendered(t) == t.value + ("\n└─ " + t.forest[0].value) + ("\n   └─ " + t.forest[0].forest[0].value)
  {
    var c := t.forest[0];
    OneChildText("\n", t);
    OneChildText("\n" + "   ", c);
    assert "\n" + "└─ " == "\n└─ ";
    assert "\n" + "   " == "\n   ";
    assert "\n   " + "└─ " == "\n   └─ ";
    DrawLineCount("\n   " + "   ", []);
  }

  /** The lines of a chain of four single children. */
  lemma ChainLines(t: Tree)
    requires IsChain4(t)
    ensures DrawLines("\n", t.forest)
      == ["\n└─ " + t.forest[0].value, "\n   └─ " + t.forest[0].forest[0].value,
          "\n      └─ " + t.forest[0].forest[0].forest[0].value,
          "\n         └─ " + t.forest[0].forest[0].forest[0].forest[0].value]
  {
    var ta := t.forest[0];
    var tb := ta.forest[0];
    var tc := tb.forest[0];
    var td := tc.forest[0];
    assert t.forest == [ta] && ta.forest == [tb] && tb.forest == [tc] && tc.forest == [td];
    assert "\n" + "└─ " == "\n└─ ";
    assert "\n" + "   " == "\n   ";
    assert "\n   " + "└─ " == "\n   └─ ";
    assert "\n   " + "   " == "\n      ";
    assert "\n      " + "└─ " == "\n      └─ ";
    assert "\n      " + "   " == "\n         ";
    assert "\n         " + "└─ " == "\n         └─ ";
    DrawOneChild("\n", ta);
    DrawOneChild("\n   ", tb);
    DrawOneChild("\n      ", tc);
    DrawOneChild("\n         ", td);
    DrawLineCount("\n         " + "   ", []);
  }

  /** The lines of one child that branches into two children, each above one leaf. */
  lemma BranchLines(t: Tree)
    requires IsBranch(t)
    ensures DrawLines("\n", t.forest)
      == ["\n└─ " + t.forest[0].value,
          "\n   ├─ " + t.forest[0].forest[0].value, "\n   │  └─ " + t.forest[0].forest[0].forest[0].value,
          "\n   └─ " + t.forest[0].forest[1].value, "\n      └─ " + t.forest[0].forest[1].forest[0].value]
  {
    var l := t.forest[0];
    var ta, tb := l.forest[0], l.forest[1];
    var tx, ty := ta.forest[0], tb.forest[0];
    assert t.forest == [l] && l.forest == [ta, tb] && ta.forest == [tx] && tb.forest == [ty];
    assert "\n" + "└─ " == "\n└─ ";
    assert "\n" + "   " == "\n   ";
    assert "\n   " + "├─ " == "\n   ├─ ";
    assert "\n   " + "└─ " == "\n   └─ ";
    assert "\n   " + "│  " == "\n   │  ";
    assert "\n   " + "   " == "\n      ";
    assert "\n   │  " + "└─ " == "\n   │  └─ ";
    assert "\n      " + "└─ " == "\n      └─ ";
    DrawOneChild("\n", l);
    DrawTwoChildren("\n   ", ta, tb);
    DrawOneChild("\n   │  ", tx);
    DrawOneChild("\n      ", ty);
    DrawLineCount("\n   │  " + "   ", []);
    DrawLineCount("\n      " + "   ", []);
  }

  lemma Concat4(a: string, b: string, c: string, d: string)
    ensures Concat([a, b, c, d]) == a + b + c + d
  {
    assert [a, b, c, d][..3] == [a, b, c];
    assert [a, b, c][..2] == [a, b];
    ConcatTwo(a, b);
  }

  lemma Concat5(a: string, b: string, c: string, d: string, e: string)
    ensures Concat([a, b, c, d, e]) == a + b + c + d + e
  {
    assert [a, b, c, d, e][..4] == [a, b, c, d];
    Concat4(a, b, c, d);
  }

  /** A root above a chain of four single children. */
  lemma RenderedChain4(t: Tree)
    requires IsChain4(t)
    ensures var a := t.forest[0]; var b := a.forest[0]; var c := b.forest[0]; var d := c.forest[0];
      Rendered(t) == t.value
        + (("\n└─ " + a.value) + ("\n   └─ " + b.value) + ("\n      └─ " + c.value) + ("\n         └─ " + d.value))
  {
    var a := t.forest[0];
    var b := a.forest[0];
    var c := b.forest[0];
    var d := c.forest[0];
    ChainLines(t);
    Concat4("\n└─ " + a.value, "\n   └─ " + b.value, "\n      └─ " + c.value, "\n         └─ " + d.value);
  }

  /** A root above one child that branches into two children, each above one leaf. */
  lemma RenderedBranch(t: Tree)
    requires IsBranch(t)
    ensures var l := t.forest[0]; var a := l.forest[0]; var b := l.forest[1];
      Rendered(t) == t.value
        + (("\n└─ " + l.value) + ("\n   ├─ " + a.value) + ("\n   │  └─ " + a.forest[0].value)
           + ("\n   └─ " + b.value) + ("\n      └─ " + b.forest[0].value))
  {
    var l := t.forest[0];
    var a, b := l.forest[0], l.forest[1];
    BranchLines(t);
    Concat5("\n└─ " + l.value, "\n   ├─ " + a.value, "\n   │  └─ " + a.forest[0].value,
      "\n   └─ " + b.value, "\n      └─ " + b.forest[0].value);
  }

  // ---------------------------------------------------------------------------
  // Trees of the errors the tests use
  // ---------------------------------------------------------------------------

  /** A key above one leaf error: the key's segment above the leaf's label. */
  lemma KeyOverLeaf(name: string, leaf: ParseError)
    requires IsLowerCase(name) && leaf.IsLeaf()
    ensures Go(Key(StringKey(name), [leaf])).value == "[\"" + name + "\"]"
    ensures Go(Key(StringKey(name), [leaf])).forest == [Go(leaf)]
  {
    var k := Key(StringKey(name), [leaf]);
    KeySegment(name, [leaf]);
    CollapseRule(k);
  }

  /** A key whose one child is an index or key with errors takes over the child's node. */
  lemma KeyOverWrapper(name: string, child: ParseError)
    requires IsLowerCase(name) && (child.Index? || child.Key?) && child.errors != []
    ensures Go(Key(StringKey(name), [child])).value == "[\"" + name + "\"]" + Go(child).value
    ensures Go(Key(StringKey(name), [child])).forest == Go(child).forest
  {
    KeySegment(name, [child]);
    CollapseRule(Key(StringKey(name), [child]));
  }

  /** An index whose one child is an index or key with errors takes over the child's node. */
  lemma IndexOverWrapper(i: nat, child: ParseError)
    requires (child.Index? || child.Key?) && child.errors != []
    ensures Go(Index(i, [child])).value == "[" + Decimal(i) + "]" + Go(child).value
    ensures Go(Index(i, [child])).forest == Go(child).forest
  {
    CollapseRule(Index(i, [child]));
  }

  /** A key with two child errors keeps both as its subtrees. */
  lemma KeyOverTwo(name: string, e0: ParseError, e1: ParseError)
    requires IsLowerCase(name)
    ensures Go(Key(StringKey(name), [e0, e1])).value == "[\"" + name + "\"]"
    ensures Go(Key(StringKey(name), [e0, e1])).forest == [Go(e0), Go(e1)]
  {
    var k := Key(StringKey(name), [e0, e1]);
    assert Go(k) == Tree(Segment(k), GoForest([e0, e1])) by {
      NotMerged(k);
    }
    assert Segment(k) == "[\"" + name + "\"]" by {
      KeySegment(name, [e0, e1]);
    }
    assert GoForest([e0, e1]) == [Go(e0), Go(e1)];
  }

  /** A key, a key, a key, an index and a key, each the only child of the one before, above a leaf error. */
  lemma FiveSegmentPath(a: string, b: string, c: string, i: nat, d: string, leaf: ParseError)
    requires IsLowerCase(a) && IsLowerCase(b) && IsLowerCase(c) && IsLowerCase(d) && leaf.IsLeaf()
    ensures var e := Key(StringKey(a), [Key(StringKey(b), [Key(StringKey(c), [Index(i, [Key(StringKey(d), [leaf])])])])]);
      Go(e).value == "[\"" + a + "\"]" + ("[\"" + b + "\"]" + ("[\"" + c + "\"]" + ("[" + Decimal(i) + "]" + ("[\"" + d + "\"]" + ""))))
      && Go(e).forest == [Go(leaf)]
  {
    var kd := Key(StringKey(d), [leaf]);
    var ki := Index(i, [kd]);
    var kc := Key(StringKey(c), [ki]);
    var kb := Key(StringKey(b), [kc]);
    var ka := Key(StringKey(a), [kb]);
    KeySegment(a, [kb]);
    KeySegment(b, [kc]);
    KeySegment(c, [ki]);
    KeySegment(d, [leaf]);
    assert IsPath(kd);
    assert IsPath(ki);
    assert IsPath(kc);
    assert IsPath(kb);
    assert IsPath(ka);
    assert PathLabel(kd) == Segment(kd) + "";
    assert PathLabel(ki) == Segment(ki) + PathLabel(kd);
    assert PathLabel(kc) == Segment(kc) + PathLabel(ki);
    assert PathLabel(kb) == Segment(kb) + PathLabel(kc);
    assert PathLabel(ka) == Segment(ka) + PathLabel(kb);
    assert PathEnd(ka) == leaf by {
      assert PathEnd(kc) == PathEnd(ki) == PathEnd(kd) == leaf;
    }
    GoPath(ka);
  }

  /** A leaf error below a key: the key's segment, then the leaf's label one level further in. */
  lemma PropertyError(name: string, leaf: ParseError)
    requires IsLowerCase(name) && leaf.IsLeaf()
    ensures Rendered(ErrorTree([Key(StringKey(name), [leaf])]))
      == "error(s) found" + ("\n└─ " + ("[\"" + name + "\"]")) + ("\n   └─ " + Go(leaf).value)
  {
    var k := Key(StringKey(name), [leaf]);
    var t := ErrorTree([k]);
    assert t.forest == [Go(k)];
    KeyOverLeaf(name, leaf);
    LeafErrorLabels(leaf);
    RenderedChain2(t);
  }

  // ---------------------------------------------------------------------------
  // The nested-path examples
  // ---------------------------------------------------------------------------

  lemma PathText()
    ensures "[\"" + "a" + "\"]" + ("[\"" + "b" + "\"]" + ("[\"" + "c" + "\"]" + ("[" + "0" + "]" + ("[\"" + "d" + "\"]" + ""))))
      == "[\"a\"][\"b\"][\"c\"][0][\"d\"]"
  {
    assert "[\"" + "d" + "\"]" + "" == "[\"d\"]";
    assert "[" + "0" + "]" + "[\"d\"]" == "[0][\"d\"]";
    assert "[\"" + "c" + "\"]" + "[0][\"d\"]" == "[\"c\"][0][\"d\"]";
    assert "[\"" + "b" + "\"]" + "[\"c\"][0][\"d\"]" == "[\"b\"][\"c\"][0][\"d\"]";
  }

  lemma PathLineText()
    ensures "\n└─ " + "[\"a\"][\"b\"][\"c\"][0][\"d\"]" == "\n└─ [\"a\"][\"b\"][\"c\"][0][\"d\"]"
  {
  }

  lemma BranchText()
    ensures "[\"" + "a" + "\"]" + ("[\"" + "b" + "\"]" + ("[\"" + "c" + "\"]")) == "[\"a\"][\"b\"][\"c\"]"
    ensures "\n└─ " + "[\"a\"][\"b\"][\"c\"]" == "\n└─ [\"a\"][\"b\"][\"c\"]"
  {
  }

  lemma ElementText()
    ensures "[" + "0" + "]" + "[\"d\"]" == "[0][\"d\"]"
    ensures "[" + "1" + "]" + "[\"d\"]" == "[1][\"d\"]"
    ensures "\n   ├─ " + "[0][\"d\"]" == "\n   ├─ [0][\"d\"]"
    ensures "\n   └─ " + "[1][\"d\"]" == "\n   └─ [1][\"d\"]"
  {
  }

  /** `s` after the line prefix `p` and the message start `m` is `s` after their concatenation. */
  lemma Regroup(p: string, m: string, s: string)
    ensures p + (m + s) == (p + m) + s
  {
  }

  /** One bad element: the whole path collapses into one line above the message. */
  lemma CollapsedPath(actual: Value)
    ensures Rendered(ErrorTree([
        Key(StringKey("a"), [Key(StringKey("b"), [Key(StringKey("c"), [
          Index(0, [Key(StringKey("d"), [Type(StringSchema, actual, None)])])])])])]))
      == "error(s) found"
         + "\n└─ [\"a\"][\"b\"][\"c\"][0][\"d\"]"
         + ("\n   └─ " + "Expected string, actual " + FormatActual(actual))
  {
    var leaf := Type(StringSchema, actual, None);
    var e := Key(StringKey("a"), [Key(StringKey("b"), [Key(StringKey("c"), [Index(0, [Key(StringKey("d"), [leaf])])])])]);
    var t := ErrorTree([e]);
    assert t.forest == [Go(e)];
    FiveSegmentPath("a", "b", "c", 0, "d", leaf);
    assert Decimal(0) == "0";
    PathText();
    StringTypeMessage(actual);
    LeafErrorLabels(leaf);
    RenderedChain2(t);
    PathLineText();
    Regroup("\n   └─ ", "Expected string, actual ", FormatActual(actual));
  }

  /** Element `i` of the array `c`: its key `d` holds a value that is not a string. */
  function Element(i: nat, actual: Value): ParseError {
    Index(i, [Key(StringKey("d"), [Type(StringSchema, actual, None)])])
  }

  /** A tree of one node labelled `caption` above one leaf labelled `message`. */
  predicate IsLabelAbove(t: Tree, caption: string, message: string) {
    t.value == caption && |t.forest| == 1 && t.forest[0].value == message && t.forest[0].forest == []
  }

  /** An element's index and key merge into one node above the message. */
  lemma ElementTree(i: nat, actual: Value)
    ensures IsLabelAbove(Go(Element(i, actual)), "[" + Decimal(i) + "]" + "[\"d\"]",
      "Expected string, actual " + FormatActual(actual))
  {
    var t := Type(StringSchema, actual, None);
    var kd := Key(StringKey("d"), [t]);
    var e := Index(i, [kd]);
    assert Go(t).value == "Expected string, actual " + FormatActual(actual) && Go(t).forest == [] by {
      StringTypeMessage(actual);
      LeafErrorLabels(t);
    }
    assert Go(kd).value == "[\"d\"]" && Go(kd).forest == [Go(t)] by {
      KeyOverLeaf("d", t);
      assert "[\"" + "d" + "\"]" == "[\"d\"]";
    }
    assert Go(e).value == "[" + Decimal(i) + "]" + Go(kd).value && Go(e).forest == Go(kd).forest by {
      IndexOverWrapper(i, kd);
    }
    assert Element(i, actual) == e;
  }

  /** The first two elements, with their positions written out. */
  lemma FirstElements(actual0: Value, actual1: Value)
    ensures IsLabelAbove(Go(Element(0, actual0)), "[0][\"d\"]", "Expected string, actual " + FormatActual(actual0))
    ensures IsLabelAbove(Go(Element(1, actual1)), "[1][\"d\"]", "Expected string, actual " + FormatActual(actual1))
  {
    ElementTree(0, actual0);
    ElementTree(1, actual1);
    assert Decimal(0) == "0" && Decimal(1) == "1";
    ElementText();
  }

  /**
   * Keys `a`, `b` and an array `c` with two failing elements: the keys merge down to the
   * array, which keeps one subtree per element.
   */
  lemma BranchingShape(x: string, y: string, z: string, e0: ParseError, e1: ParseError,
                       c0: string, m0: string, c1: string, m1: string)
    requires IsLowerCase(x) && IsLowerCase(y) && IsLowerCase(z)
    requires IsLabelAbove(Go(e0), c0, m0) && IsLabelAbove(Go(e1), c1, m1)
    ensures var t := ErrorTree([Key(StringKey(x), [Key(StringKey(y), [Key(StringKey(z), [e0, e1])])])]);
      IsBranch(t) && t.forest[0].value == "[\"" + x + "\"]" + ("[\"" + y + "\"]" + ("[\"" + z + "\"]"))
      && t.forest[0].forest[0] == Go(e0) && t.forest[0].forest[1] == Go(e1)
  {
    var kc := Key(StringKey(z), [e0, e1]);
    var kb := Key(StringKey(y), [kc]);
    var ka := Key(StringKey(x), [kb]);
    var t := ErrorTree([ka]);
    var gc := Go(kc);
    var gb := Go(kb);
    var ga := Go(ka);
    assert gc.value == "[\"" + z + "\"]" && gc.forest == [Go(e0), Go(e1)] by {
      KeyOverTwo(z, e0, e1);
    }
    assert gb.value == "[\"" + y + "\"]" + gc.value && gb.forest == gc.forest by {
      KeyOverWrapper(y, kc);
    }
    assert ga.value == "[\"" + x + "\"]" + gb.value && ga.forest == gb.forest by {
      KeyOverWrapper(x, kb);
    }
    assert t.forest == [ga];
  }

  /** The drawing of the branching tree, for any two elements of the element shape. */
  lemma BranchingRendered(e0: ParseError, e1: ParseError, m0: string, m1: string)
    requires IsLabelAbove(Go(e0), "[0][\"d\"]", m0) && IsLabelAbove(Go(e1), "[1][\"d\"]", m1)
    ensures Rendered(ErrorTree([Key(StringKey("a"), [Key(StringKey("b"), [Key(StringKey("c"), [e0, e1])])])]))
      == "error(s) found"
         + ("\n└─ [\"a\"][\"b\"][\"c\"]"
         + "\n   ├─ [0][\"d\"]"
         + ("\n   │  └─ " + m0)
         + "\n   └─ [1][\"d\"]"
         + ("\n      └─ " + m1))
  {
    var t := ErrorTree([Key(StringKey("a"), [Key(StringKey("b"), [Key(StringKey("c"), [e0, e1])])])]);
    BranchingShape("a", "b", "c", e0, e1, "[0][\"d\"]", m0, "[1][\"d\"]", m1);
    RenderedBranch(t);
    BranchText();
    ElementText();
  }

  /**
   * Two bad elements with all errors collected: the path collapses down to the array,
   * which branches into one collapsed line per element.
   */
  lemma BranchingPath(actual0: Value, actual1: Value)
    ensures Rendered(ErrorTree([
        Key(StringKey("a"), [Key(StringKey("b"), [Key(StringKey("c"), [Element(0, actual0), Element(1, actual1)])])])]))
      == "error(s) found"
         + ("\n└─ [\"a\"][\"b\"][\"c\"]"
         + "\n   ├─ [0][\"d\"]"
         + ("\n   │  └─ " + "Expected string, actual " + FormatActual(actual0))
         + "\n   └─ [1][\"d\"]"
         + ("\n      └─ " + "Expected string, actual " + FormatActual(actual1)))
  {
    var m0, m1 := "Expected string, actual " + FormatActual(actual0), "Expected string, actual " + FormatActual(actual1);
    FirstElements(actual0, actual1);
    BranchingRendered(Element(0, actual0), Element(1, actual1), m0, m1);
    Regroup("\n   │  └─ ", "Expected string, actual ", FormatActual(actual0));
    Regroup("\n      └─ ", "Expected string, actual ", FormatActual(actual1));
  }

  /** A key `x` above a union member whose one error is a key `y` above a leaf error. */
  lemma UnionMemberShape(x: string, y: string, leaf: ParseError)
    requires IsLowerCase(x) && IsLowerCase(y) && leaf.IsLeaf()
    ensures var t := ErrorTree([Key(StringKey(x), [UnionMember([Key(StringKey(y), [leaf])])])]);
      IsChain4(t) && t.forest[0].value == "[\"" + x + "\"]" && t.forest[0].forest[0].value == "union member"
      && t.forest[0].forest[0].forest[0].value == "[\"" + y + "\"]"
      && t.forest[0].forest[0].forest[0].forest[0] == Go(leaf)
  {
    var f := Key(StringKey(y), [leaf]);
    var m := UnionMember([f]);
    var e := Key(StringKey(x), [m]);
    var t := ErrorTree([e]);
    assert Go(f).value == "[\"" + y + "\"]" && Go(f).forest == [Go(leaf)] && Go(leaf).forest == [] by {
      KeyOverLeaf(y, leaf);
      LeafErrorLabels(leaf);
    }
    assert Go(m).value == "union member" && Go(m).forest == [Go(f)] by {
      assert GoForest([f]) == [Go(f)];
    }
    assert Go(e).value == "[\"" + x + "\"]" && Go(e).forest == [Go(m)] by {
      KeySegment(x, [m]);
      UnionMemberNeverMerged(e);
    }
    assert t.forest == [Go(e)];
  }

  lemma UnionMemberText()
    ensures "[\"" + "e" + "\"]" == "[\"e\"]" && "[\"" + "f" + "\"]" == "[\"f\"]"
    ensures "\n└─ " + "[\"e\"]" == "\n└─ [\"e\"]"
    ensures "\n   └─ " + "union member" == "\n   └─ union member"
    ensures "\n      └─ " + "[\"f\"]" == "\n      └─ [\"f\"]"
  {
  }

  /** A failing union member stays its own line between the key and the member's errors. */
  lemma UnionMemberLine(leaf: ParseError)
    requires leaf.IsLeaf()
    ensures Rendered(ErrorTree([Key(StringKey("e"), [UnionMember([Key(StringKey("f"), [leaf])])])]))
      == "error(s) found"
         + ("\n└─ [\"e\"]"
         + "\n   └─ union member"
         + "\n      └─ [\"f\"]"
         + ("\n         └─ " + Go(leaf).value))
  {
    var t := ErrorTree([Key(StringKey("e"), [UnionMember([Key(StringKey("f"), [leaf])])])]);
    UnionMemberShape("e", "f", leaf);
    RenderedChain4(t);
    UnionMemberText();
  }

  /** An anonymous lazy schema is labelled by its placeholder. */
  lemma LazyLabel()
    ensures FormatExpected(Lazy(NoAnnotations)) == "<anonymous lazy schema>"
  {
    AnonymousPlaceholders(NoAnnotations, Lazy(NoAnnotations));
  }
}
