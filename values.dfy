/**
 * The JavaScript run-time values that the formatter and the key helpers look at.
 *
 * Only the value kinds whose rendering the library decides itself are spelled out.
 * Numbers, dates, arrays and plain objects are `Host` values: their text is produced
 * by the JavaScript host (`String(x)` or `JSON.stringify(x)`) and is an input here.
 */
module Values {

  /** A symbol: `id` is its identity, `description` the text given to `Symbol(...)` ("" when none). */
  datatype Symbol = Symbol(id: nat, description: string)

  datatype Value =
    | Undefined
    | Null
    | Boolean(b: bool)
    | Str(s: string)
    | BigInt(i: int)
    | Sym(sym: Symbol)
    | Host(shown: string)

  /** A property key as it appears in a parse error or among an object's own keys. */
  datatype PropertyKey = StringKey(name: string) | SymbolKey(sym: Symbol)

  /** The key as a value, the way `formatActual` receives it. */
  function KeyValue(k: PropertyKey): Value {
    match k
    case StringKey(name) => Str(name)
    case SymbolKey(sym) => Sym(sym)
  }

  /**
   * The own keys of an object, in the order the host lists them: its enumerable string
   * keys (`Object.keys`) and all its symbol keys (`Object.getOwnPropertySymbols`, which
   * lists non-enumerable symbol keys too).
   */
  datatype ObjectKeys = ObjectKeys(stringKeys: seq<string>, symbolKeys: seq<Symbol>)
}
