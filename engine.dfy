/**
 * The public entry points: `te_compile` (tinyexpr.c:352-373) and `te_interp`
 * (tinyexpr.c:376-386).
 *
 * `CompileResult` and `InterpResult` say what a call returns as functions of
 * its arguments; the methods `Compile` and `Interp` follow the C routines
 * step by step and are proved to return exactly that. The error position,
 * which C writes through `int *error`, is always returned here.
 */
module Engine {
  import opened Wrappers
  import opened Arith
  import opened Symbols
  import opened Lexer
  import opened Tree
  import G = Grammar
  import Parser

  /** What `te_compile` hands back: the tree, or null, and the error slot. */
  datatype Compiled<N> = Compiled(root: Option<Node<N>>, error: int)

  /** The cursor a whole compilation starts from: the first token. */
  function Start<N>(ctx: Ctx<N>): (c: Cursor<N>)
    requires ctx.Ok()
    ensures Sound(ctx, c)
  {
    Lex(ctx, 0)
  }

  /** The tree and final cursor of parsing the whole input as an `expr`. */
  function ParseAll<N>(ctx: Ctx<N>): (r: G.Parsed<N>)
    requires ctx.Ok()
    ensures Sound(ctx, r.rest) && Slots(r.node) <= BoundSlots(ctx)
  {
    G.Expr(ctx, Start(ctx))
  }

  /** `te_compile`: parse; unless the parse stopped on End the tree is freed,
      null is returned and the error is the offset the cursor reached, or 1
      when that is 0; otherwise the tree is folded and the error is 0. */
  function CompileResult<N>(arith: Arith<N>, expression: string, variables: Option<seq<TeVariable>>, varCount: int): (r: Compiled<N>)
    requires (variables.Some? ==> varCount <= |variables.value|)
    ensures r.root.None? <==> r.error != 0
    ensures 0 <= r.error <= |expression| + 1
    ensures r.root.Some? ==> Folded(r.root.value)
    ensures r.root.Some? ==> Slots(r.root.value) <= BoundSlots(Ctx(arith, expression, variables, varCount))
  {
    var ctx := Ctx(arith, expression, variables, varCount);
    var p := ParseAll(ctx);
    if !p.rest.token.End? then
      Compiled(None, if p.rest.next == 0 then 1 else p.rest.next)
    else
      OptimizeFolds(arith, p.node);
      Compiled(Some(Optimize(arith, p.node)), 0)
  }

  /** `te_compile` (tinyexpr.c:352-373). */
  method Compile<N>(arith: Arith<N>, expression: string, variables: Option<seq<TeVariable>>, varCount: int)
    returns (root: Option<Node<N>>, error: int)
    requires (variables.Some? ==> varCount <= |variables.value|)
    ensures Compiled(root, error) == CompileResult(arith, expression, variables, varCount)
  {
    var s := new State(arith, expression, variables, varCount);
    s.NextToken();
    var tree := Parser.Expr(s);
    if !s.token.End? {
      // te_free(tree): the tree is dropped.
      error := s.next;
      if error == 0 {
        error := 1;
      }
      root := None;
    } else {
      root := Some(Optimize(arith, tree));
      error := 0;
    }
  }

  /** The storage `te_interp` evaluates against: no variable is bound, so it is
      never read (see `InterpIgnoresStorage`). */
  function NoStorage<N>(arith: Arith<N>): Store<N> {
    _ => arith.nan
  }

  /** `te_interp`: compile with no variables; the compiled tree's value, or NaN
      when compilation failed; the error as `te_compile` reports it. */
  function InterpResult<N>(arith: Arith<N>, expression: string): (r: (N, int))
    ensures r.1 == CompileResult(arith, expression, None, 0).error
    ensures r.1 != 0 ==> r.0 == arith.nan
  {
    var c := CompileResult(arith, expression, None, 0);
    match c.root
    case Some(n) => (Eval(arith, NoStorage(arith), n), c.error)
    case None => (arith.nan, c.error)
  }

  /** `te_interp` (tinyexpr.c:376-386). */
  method Interp<N>(arith: Arith<N>, expression: string) returns (value: N, error: int)
    ensures (value, error) == InterpResult(arith, expression)
  {
    var n;
    n, error := Compile(arith, expression, None, 0);
    if n.Some? {
      value := Eval(arith, NoStorage(arith), n.value);
      // te_free(n): the tree is dropped.
    } else {
      value := arith.nan;
    }
  }

  // ---------------------------------------------------------------------
  // Properties of compilation

  /** Compilation succeeds exactly when the whole expression parses up to the
      terminator; the failure offset is where the parser gave up, at least 1. */
  lemma CompileSucceedsIffParseReachesEnd<N>(arith: Arith<N>, expression: string, variables: Option<seq<TeVariable>>, varCount: int)
    requires (variables.Some? ==> varCount <= |variables.value|)
    ensures var ctx := Ctx(arith, expression, variables, varCount);
      var p := ParseAll(ctx);
      var r := CompileResult(arith, expression, variables, varCount);
      && (r.root.Some? <==> p.rest.token.End?)
      && (r.root.Some? ==> CharAt(expression, p.rest.next) == '\0')
      && (r.root.None? ==> r.error == if p.rest.next == 0 then 1 else p.rest.next)
  {
  }

  /** The compiled tree means what the parsed tree means, whatever the bound
      variables hold when it is evaluated, and it reads no storage but the
      bound variables' addresses. */
  lemma CompiledMeansParsed<N>(arith: Arith<N>, expression: string, variables: Option<seq<TeVariable>>, varCount: int, store: Store<N>)
    requires (variables.Some? ==> varCount <= |variables.value|)
    requires CompileResult(arith, expression, variables, varCount).root.Some?
    ensures var ctx := Ctx(arith, expression, variables, varCount);
      var n := CompileResult(arith, expression, variables, varCount).root.value;
      && Eval(arith, store, n) == Eval(arith, store, ParseAll(ctx).node)
      && Slots(n) == Slots(ParseAll(ctx).node)
  {
    OptimizePreservesEval(arith, store, ParseAll(Ctx(arith, expression, variables, varCount)).node);
  }

  /** With no variables the compiled tree is a single constant leaf, and
      `te_interp` returns the value of the parsed tree. */
  lemma InterpIsFoldedValue<N>(arith: Arith<N>, expression: string, store: Store<N>)
    ensures var ctx := Ctx(arith, expression, None, 0);
      var c := CompileResult(arith, expression, None, 0);
      c.root.Some? ==>
        && c.root.value.Const?
        && InterpResult(arith, expression) == (Eval(arith, store, ParseAll(ctx).node), 0)
  {
    var ctx := Ctx(arith, expression, None, 0);
    var p := ParseAll(ctx);
    assert BoundSlots(ctx) == {};
    if p.rest.token.End? {
      ClosedTreeFoldsToLeaf(arith, store, p.node);
      ClosedTreeFoldsToLeaf(arith, NoStorage(arith), p.node);
    }
  }

  /** With no variables the storage `te_interp` evaluates against is never
      consulted. */
  lemma InterpIgnoresStorage<N>(arith: Arith<N>, expression: string, store: Store<N>)
    requires CompileResult(arith, expression, None, 0).root.Some?
    ensures var n := CompileResult(arith, expression, None, 0).root.value;
      Eval(arith, store, n) == InterpResult(arith, expression).0
  {
    var ctx := Ctx(arith, expression, None, 0);
    assert BoundSlots(ctx) == {};
    EvalReadsOnlySlots(arith, store, NoStorage(arith), CompileResult(arith, expression, None, 0).root.value);
  }
}
