/**
 * Helpers shared by the schema interpreter: the keys an index signature ranges over,
 * the own keys of an object, the safe-integer bounds, and the compute-once cache that
 * lazy schemas use for their thunk.
 */
module Common {
  import opened Values
  import opened SchemaAst

  // ---------------------------------------------------------------------------
  // Keys
  // ---------------------------------------------------------------------------

  /** `getKeysForIndexSignature` returns either string keys or symbol keys. */
  datatype IndexKeys = StringKeys(strings: seq<string>) | SymbolKeys(symbols: seq<Symbol>)

  /** The parameter under all refinements: a string keyword, a symbol keyword or a template literal. */
  function BaseParameter(parameter: Ast): (base: Ast)
    requires IsParameter(parameter)
    ensures IsParameter(base) && !base.Refinement?
  {
    if parameter.Refinement? then BaseParameter(parameter.from) else parameter
  }

  predicate IsSymbolKeyword(ast: Ast) {
    ast.Keyword? && ast.kind == SymbolKeyword
  }

  /**
   * The own keys of `input` that an index signature with this parameter ranges over:
   * the symbol keys when the parameter is, under its refinements, the symbol keyword,
   * and the string keys when it is the string keyword or a template literal.
   */
  function GetKeysForIndexSignature(input: ObjectKeys, parameter: Ast): (r: IndexKeys)
    requires IsParameter(parameter)
    ensures IsSymbolKeyword(BaseParameter(parameter)) ==> r == SymbolKeys(input.symbolKeys)
    ensures !IsSymbolKeyword(BaseParameter(parameter)) ==> r == StringKeys(input.stringKeys)
  {
    match parameter
    case Keyword(kind, _) =>
      if kind == StringKeyword then StringKeys(input.stringKeys) else SymbolKeys(input.symbolKeys)
    case TemplateLiteral(_, _, _) => StringKeys(input.stringKeys)
    case Refinement(from, _) => GetKeysForIndexSignature(input, from)
  }

  /** `ownKeys`: every string key, then every symbol key, each group in its own order. */
  function OwnKeys(o: ObjectKeys): (r: seq<PropertyKey>)
    ensures |r| == |o.stringKeys| + |o.symbolKeys|
    ensures forall i :: 0 <= i < |o.stringKeys| ==> r[i] == StringKey(o.stringKeys[i])
    ensures forall j :: 0 <= j < |o.symbolKeys| ==> r[|o.stringKeys| + j] == SymbolKey(o.symbolKeys[j])
  {
    seq(|o.stringKeys|, i requires 0 <= i < |o.stringKeys| => StringKey(o.stringKeys[i]))
    + seq(|o.symbolKeys|, j requires 0 <= j < |o.symbolKeys| => SymbolKey(o.symbolKeys[j]))
  }

  /** In `ownKeys`, no symbol key comes before a string key. */
  lemma OwnKeysStringsFirst(o: ObjectKeys, i: nat, j: nat)
    requires i < j < |OwnKeys(o)|
    ensures OwnKeys(o)[j].StringKey? ==> OwnKeys(o)[i].StringKey?
  {
  }

  /** Every key an index signature ranges over is one of the object's own keys. */
  lemma IndexSignatureKeysAreOwnKeys(input: ObjectKeys, parameter: Ast)
    requires IsParameter(parameter)
    ensures GetKeysForIndexSignature(input, parameter).StringKeys? ==>
      forall s :: s in GetKeysForIndexSignature(input, parameter).strings ==> StringKey(s) in OwnKeys(input)
    ensures GetKeysForIndexSignature(input, parameter).SymbolKeys? ==>
      forall y :: y in GetKeysForIndexSignature(input, parameter).symbols ==> SymbolKey(y) in OwnKeys(input)
  {
    var keys := OwnKeys(input);
    var n := |input.stringKeys|;
    forall s | s in input.stringKeys ensures StringKey(s) in keys {
      var i :| 0 <= i < n && input.stringKeys[i] == s;
      assert keys[i] == StringKey(s);
    }
    forall y | y in input.symbolKeys ensures SymbolKey(y) in keys {
      var j :| 0 <= j < |input.symbolKeys| && input.symbolKeys[j] == y;
      assert keys[n + j] == SymbolKey(y);
    }
  }

  // ---------------------------------------------------------------------------
  // Safe integers
  // ---------------------------------------------------------------------------

  /** `BigInt(Number.MAX_SAFE_INTEGER)` and `BigInt(Number.MIN_SAFE_INTEGER)`. */
  const MaxSafeInteger: int := 9_007_199_254_740_991
  const MinSafeInteger: int := -9_007_199_254_740_991

  function Pow2(n: nat): (r: nat)
    ensures r >= 1
  {
    if n == 0 then 1 else 2 * Pow2(n - 1)
  }

  /** The bounds are 2^53 - 1 and its negation: the integers a double represents with no gap. */
  lemma {:induction false} SafeIntegerBounds()
    ensures MaxSafeInteger == Pow2(53) - 1
    ensures MinSafeInteger == -MaxSafeInteger
  {
    assert Pow2(16) == 65536 by {
      assert Pow2(8) == 256;
    }
    assert Pow2(32) == 65536 * 65536 by {
      Pow2Add(16, 16);
    }
    assert Pow2(48) == 65536 * 65536 * 65536 by {
      Pow2Add(32, 16);
    }
    Pow2Add(48, 5);
  }

  lemma {:induction false} Pow2Add(a: nat, b: nat)
    ensures Pow2(a + b) == Pow2(a) * Pow2(b)
    decreases b
  {
    if b > 0 {
      Pow2Add(a, b - 1);
    }
  }

  // ---------------------------------------------------------------------------
  // memoizeThunk
  // ---------------------------------------------------------------------------

  /**
   * A thunk `f: () => A` that may have side effects: its k-th invocation (counting from
   * zero) returns `outcome(k)`, and `invocations` counts how often it has run (the `log`
   * that the lazy-schema test increments).
   */
  class Thunk<A> {
    const outcome: nat -> A
    var invocations: nat

    constructor (outcome: nat -> A)
      ensures this.outcome == outcome && invocations == 0
    {
      this.outcome := outcome;
      invocations := 0;
    }

    method Invoke() returns (x: A)
      modifies this
      ensures invocations == old(invocations) + 1
      ensures x == outcome(old(invocations))
    {
      x := outcome(invocations);
      invocations := invocations + 1;
    }
  }

  /**
   * The function `memoizeThunk(f)` returns, with the two variables it closes over:
   * `done` and the cached `a`. The same `f` may be shared with other code or other
   * memoized functions; `runs` counts only the runs of `f` made through this one.
   */
  class MemoizedThunk<A(0)> {
    const f: Thunk<A>
    var done: bool
    var a: A
    /** How often this memoized function has run `f`. */
    ghost var runs: nat

    /** `f` has run through this memoized function at most once, and exactly once when `done` holds. */
    ghost predicate Valid()
      reads this
    {
      runs == if done then 1 else 0
    }

    /** `memoizeThunk(f)`: nothing is computed yet. */
    constructor (f: Thunk<A>)
      ensures Valid() && this.f == f && !done && runs == 0
    {
      this.f := f;
      done := false;
      runs := 0;
    }

    /**
     * A call of the memoized function: the first call runs `f` once and caches its
     * result; every later call returns the cached result and runs nothing.
     */
    method Call() returns (r: A)
      requires Valid()
      modifies this, f
      ensures Valid() && done && runs <= 1
      ensures r == a
      ensures old(done) ==> r == old(a) && runs == old(runs)
      ensures old(done) ==> f.invocations == old(f.invocations)
      ensures !old(done) ==> r == f.outcome(old(f.invocations)) && runs == old(runs) + 1
      ensures !old(done) ==> f.invocations == old(f.invocations) + 1
    {
      if done {
        return a;
      }
      a := f.Invoke();
      done := true;
      runs := runs + 1;
      return a;
    }
  }

  /**
   * The lazy-schema scenario: the thunk counts its runs; the schema is resolved on two
   * separate decodes, and the thunk has run once, both resolutions seeing the same result.
   */
  method ResolveLazyTwice<A(0)>(outcome: nat -> A) returns (first: A, second: A, log: nat)
    ensures first == second == outcome(0)
    ensures log == 1
  {
    var f := new Thunk(outcome);
    var resolve := new MemoizedThunk(f);
    first := resolve.Call();
    second := resolve.Call();
    log := f.invocations;
  }

  /**
   * Two memoized functions over one shared thunk: each runs it once, on its own first
   * call, and from then on keeps returning what that run gave it.
   */
  method SharedThunk<A(0)>(outcome: nat -> A) returns (x1: A, y1: A, x2: A, y2: A, log: nat)
    ensures x1 == x2 == outcome(0) && y1 == y2 == outcome(1)
    ensures log == 2
  {
    var f := new Thunk(outcome);
    var x := new MemoizedThunk(f);
    var y := new MemoizedThunk(f);
    x1 := x.Call();
    y1 := y.Call();
    x2 := x.Call();
    y2 := y.Call();
    log := f.invocations;
  }
}
