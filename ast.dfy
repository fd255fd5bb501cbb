/**
 * The shape of schema AST nodes, as far as the error formatter and the index-signature
 * helper read them. Every node carries its annotations; the sub-trees of tuples and
 * type literals, the thunk of a lazy node and the functions of refinements, transforms
 * and declarations are not needed by either and are not part of this model.
 */
module SchemaAst {
  import opened Wrappers
  import opened Values

  /** The annotations the formatter reads: identifier, title, description and the message hook. */
  datatype Annotations = Annotations(
    identifier: Option<string>,
    title: Option<string>,
    description: Option<string>,
    message: Option<Value -> string>)

  const NoAnnotations: Annotations := Annotations(None, None, None, None)

  datatype KeywordKind =
    | StringKeyword | NumberKeyword | BooleanKeyword | BigIntKeyword | UndefinedKeyword
    | SymbolKeyword | ObjectKeyword | AnyKeyword | UnknownKeyword | VoidKeyword | NeverKeyword

  /** The `_tag` of a keyword node. */
  function KeywordTag(kind: KeywordKind): string {
    match kind
    case StringKeyword => "StringKeyword"
    case NumberKeyword => "NumberKeyword"
    case BooleanKeyword => "BooleanKeyword"
    case BigIntKeyword => "BigIntKeyword"
    case UndefinedKeyword => "UndefinedKeyword"
    case SymbolKeyword => "SymbolKeyword"
    case ObjectKeyword => "ObjectKeyword"
    case AnyKeyword => "AnyKeyword"
    case UnknownKeyword => "UnknownKeyword"
    case VoidKeyword => "VoidKeyword"
    case NeverKeyword => "NeverKeyword"
  }

  /** The type of a template-literal span: a string or a number keyword. */
  datatype SpanType = StringSpan | NumberSpan

  datatype TemplateLiteralSpan = TemplateLiteralSpan(spanType: SpanType, literal: string)

  datatype Ast =
    | Keyword(kind: KeywordKind, annotations: Annotations)
    | Literal(literal: Value, annotations: Annotations)
    | UniqueSymbol(symbol: Symbol, annotations: Annotations)
    | TemplateLiteral(head: string, spans: seq<TemplateLiteralSpan>, annotations: Annotations)
    | Tuple(annotations: Annotations)
    | TypeLiteral(annotations: Annotations)
    | Union(types: seq<Ast>, annotations: Annotations)
    | Enums(enums: seq<(string, Value)>, annotations: Annotations)
    | Lazy(annotations: Annotations)
    | Declaration(annotations: Annotations)
    | Refinement(from: Ast, annotations: Annotations)
    | Transform(from: Ast, to: Ast, annotations: Annotations)

  /**
   * The AST nodes allowed as the parameter of an index signature: the string and
   * symbol keywords, template literals, and refinements of a parameter.
   */
  predicate IsParameter(ast: Ast) {
    match ast
    case Keyword(kind, _) => kind == StringKeyword || kind == SymbolKeyword
    case TemplateLiteral(_, _, _) => true
    case Refinement(from, _) => IsParameter(from)
    case _ => false
  }
}
