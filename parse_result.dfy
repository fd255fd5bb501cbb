/** The structured parse errors that a decode or encode produces and the formatter renders. */
module ParseResult {
  import opened Wrappers
  import opened Values
  import opened SchemaAst

  datatype ParseError =
    | Type(expected: Ast, actual: Value, message: Option<string>)
    | Forbidden
    | Index(index: nat, errors: seq<ParseError>)
    | Key(key: PropertyKey, errors: seq<ParseError>)
    | Missing
    | Unexpected
    | UnionMember(errors: seq<ParseError>)
  {
    /** The variants that carry no child errors. */
    predicate IsLeaf() {
      Type? || Forbidden? || Missing? || Unexpected?
    }
  }

  /** Every list of child errors is non-empty, as the error type demands. */
  ghost predicate WellFormed(e: ParseError) {
    !e.IsLeaf() ==> AllWellFormed(e.errors) && e.errors != []
  }

  ghost predicate AllWellFormed(es: seq<ParseError>) {
    forall i :: 0 <= i < |es| ==> WellFormed(es[i])
  }

  /** The number of errors in `e` that carry no child errors. */
  function LeafErrors(e: ParseError): nat {
    if e.IsLeaf() then 1 else AllLeafErrors(e.errors)
  }

  function AllLeafErrors(es: seq<ParseError>): nat {
    if es == [] then 0 else AllLeafErrors(es[..|es| - 1]) + LeafErrors(es[|es| - 1])
  }
}
