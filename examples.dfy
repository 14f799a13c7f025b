/**
 * Worked compilations of small expressions. The number scanner is left
 * abstract; each lemma only says what it returns on the literals involved.
 */
module Examples {
  import opened Wrappers
  import opened Arith
  import opened Symbols
  import opened Lexer
  import opened Tree
  import opened Engine
  import G = Grammar

  /** An empty expression fails at offset 1: the parser meets End where a
      base is required, the cursor is at 0, and 0 is reported as 1. */
  lemma EmptyExpressionFails<N>(arith: Arith<N>)
    ensures CompileResult(arith, "", None, 0) == Compiled(None, 1)
  {
    var ctx := Ctx(arith, "", None, 0);
    var c := Cursor(End, 0);
    var bad := G.Parsed(Const(arith.nan), Cursor(Error, 0));
    assert Start(ctx) == c;
    assert G.Signs(ctx, c, 1) == (1, c);
    assert G.Base(ctx, c) == bad;
    assert G.Power(ctx, c) == bad;
    assert G.Factor(ctx, c) == G.FactorTail(ctx, bad.node, bad.rest) == bad;
    assert G.Term(ctx, c) == G.TermTail(ctx, bad.node, bad.rest) == bad;
    assert G.Expr(ctx, c) == G.ExprTail(ctx, bad.node, bad.rest) == bad;
  }

  /** Lexing a digit or a dot gives the scanner's number and skips what it
      consumed. */
  lemma LexDigit<N>(ctx: Ctx<N>, p: nat)
    requires ctx.Ok() && p < |ctx.input| && (IsDigit(ctx.input[p]) || ctx.input[p] == '.')
    ensures var (v, k) := ctx.arith.ScanNumber(ctx.input[p..]); Lex(ctx, p) == Cursor(Number(v), p + k)
  {
  }

  /** Lexing an operator or a parenthesis gives its token and moves one on. */
  lemma LexOperator<N>(ctx: Ctx<N>, p: nat)
    requires ctx.Ok() && p < |ctx.input| && ctx.input[p] in "+-*/^%()"
    ensures Lex(ctx, p) == Cursor(Punct(ctx.input[p]), p + 1)
  {
  }

  /** Lexing at the end of the string gives End. */
  lemma LexEnd<N>(ctx: Ctx<N>)
    requires ctx.Ok()
    ensures Lex(ctx, |ctx.input|) == Cursor(End, |ctx.input|)
  {
  }

  /** A number followed by neither `^` nor a product operator is a whole
      term by itself. */
  lemma LoneNumber<N>(ctx: Ctx<N>, c: Cursor<N>)
    requires Sound(ctx, c) && c.token.Number?
    requires !G.IsPower(G.Advance(ctx, c).token) && !G.IsProduct(G.Advance(ctx, c).token)
    ensures G.Power(ctx, c) == G.Parsed(Const(c.token.value), G.Advance(ctx, c))
    ensures G.Factor(ctx, c) == G.Parsed(Const(c.token.value), G.Advance(ctx, c))
    ensures G.Term(ctx, c) == G.Parsed(Const(c.token.value), G.Advance(ctx, c))
  {
    assert G.Signs(ctx, c, 1) == (1, c);
  }

  /** A base with no sign before it and neither `^` nor a product operator
      after it is a whole term by itself. */
  lemma LoneBase<N>(ctx: Ctx<N>, c: Cursor<N>)
    requires Sound(ctx, c) && !G.IsSign(c.token)
    requires var t := G.Base(ctx, c).rest.token; !G.IsPower(t) && !G.IsProduct(t)
    ensures G.Power(ctx, c) == G.Base(ctx, c)
    ensures G.Factor(ctx, c) == G.Base(ctx, c)
    ensures G.Term(ctx, c) == G.Base(ctx, c)
  {
    assert G.Signs(ctx, c, 1) == (1, c);
  }

  /** Lexing a lowercase letter classifies the run of letters it starts. */
  lemma LexName<N>(ctx: Ctx<N>, p: nat)
    requires ctx.Ok() && p < |ctx.input| && IsLower(ctx.input[p])
    ensures var q := RunEnd(ctx.input, p); Lex(ctx, p) == Cursor(Identifier(ctx, ctx.input[p..q]), q)
  {
  }

  /** One round of the `expr` loop over an operator and a lone number. */
  lemma SumStep<N>(ctx: Ctx<N>, lhs: Node<N>, c: Cursor<N>)
    requires Sound(ctx, c) && G.IsSign(c.token)
    requires G.Advance(ctx, c).token.Number?
    requires var d := G.Advance(ctx, G.Advance(ctx, c)); !G.IsPower(d.token) && !G.IsProduct(d.token)
    ensures G.ExprTail(ctx, lhs, c)
         == G.ExprTail(ctx, Call2(c.token.f2, lhs, Const(G.Advance(ctx, c).token.value)), G.Advance(ctx, G.Advance(ctx, c)))
  {
    LoneNumber(ctx, G.Advance(ctx, c));
  }

  /** Subtraction groups to the left: "8-2-1" is (8-2)-1. */
  lemma SubtractionGroupsLeft<N>(arith: Arith<N>, a: N, b: N, c: N)
    requires arith.strtod("8-2-1") == (a, 1) && arith.strtod("2-1") == (b, 1) && arith.strtod("1") == (c, 1)
    ensures ParseAll(Ctx(arith, "8-2-1", None, 0)) == G.Parsed(Call2(Sub, Call2(Sub, Const(a), Const(b)), Const(c)), Cursor(End, 5))
  {
    var ctx := Ctx(arith, "8-2-1", None, 0);
    assert ctx.input[0..] == "8-2-1";
    assert ctx.input[2..] == "2-1";
    assert ctx.input[4..] == "1";
    LexDigit(ctx, 0);
    LexOperator(ctx, 1);
    LexDigit(ctx, 2);
    LexOperator(ctx, 3);
    LexDigit(ctx, 4);
    LexEnd(ctx);
    var c0: Cursor<N>, c1: Cursor<N>, c3: Cursor<N>, c5: Cursor<N> := Cursor(Number(a), 1), Cursor(Function2(Sub), 2), Cursor(Function2(Sub), 4), Cursor(End, 5);
    assert Start(ctx) == c0;
    LoneNumber(ctx, c0);
    SumStep(ctx, Const(a), c1);
    SumStep(ctx, Call2(Sub, Const(a), Const(b)), c3);
    assert G.ExprTail(ctx, Call2(Sub, Call2(Sub, Const(a), Const(b)), Const(c)), c5).rest == c5;
  }

  /** A leading minus binds tighter than `^` in this grammar: "-2^2" is
      (-2)^2, because `power` takes the signs and `factor` the `^`. */
  lemma MinusBindsTighterThanPower<N>(arith: Arith<N>, a: N, b: N)
    requires arith.strtod("2^2") == (a, 1) && arith.strtod("2") == (b, 1)
    ensures ParseAll(Ctx(arith, "-2^2", None, 0)) == G.Parsed(Call2(Pow, Call1(Negate, Const(a)), Const(b)), Cursor(End, 4))
  {
    var ctx := Ctx(arith, "-2^2", None, 0);
    assert ctx.input[1..] == "2^2";
    assert ctx.input[3..] == "2";
    LexOperator(ctx, 0);
    LexDigit(ctx, 1);
    LexOperator(ctx, 2);
    LexDigit(ctx, 3);
    LexEnd(ctx);
    var c0: Cursor<N>, c1: Cursor<N>, c2: Cursor<N>, c3: Cursor<N>, c4: Cursor<N> :=
      Cursor(Function2(Sub), 1), Cursor(Number(a), 2), Cursor(Function2(Pow), 3), Cursor(Number(b), 4), Cursor(End, 4);
    assert Start(ctx) == c0;
    assert G.Signs(ctx, c1, -1) == (-1, c1);
    assert G.Signs(ctx, c0, 1) == (-1, c1);
    assert G.Base(ctx, c1) == G.Parsed(Const(a), c2);
    assert G.Power(ctx, c0) == G.Parsed(Call1(Negate, Const(a)), c2);
    LoneNumber(ctx, c3);
    var t := Call2(Pow, Call1(Negate, Const(a)), Const(b));
    assert G.FactorTail(ctx, Call1(Negate, Const(a)), c2) == G.FactorTail(ctx, t, c4) == G.Parsed(t, c4);
    assert G.Factor(ctx, c0) == G.Parsed(t, c4);
    assert G.Term(ctx, c0) == G.TermTail(ctx, t, c4) == G.Parsed(t, c4);
    assert G.Expr(ctx, c0) == G.ExprTail(ctx, t, c4) == G.Parsed(t, c4);
  }

  /** `^` groups to the left: "2^3^2" is (2^3)^2. */
  lemma PowerGroupsLeft<N>(arith: Arith<N>, a: N, b: N, c: N)
    requires arith.strtod("2^3^2") == (a, 1) && arith.strtod("3^2") == (b, 1) && arith.strtod("2") == (c, 1)
    ensures ParseAll(Ctx(arith, "2^3^2", None, 0)) == G.Parsed(Call2(Pow, Call2(Pow, Const(a), Const(b)), Const(c)), Cursor(End, 5))
  {
    var ctx := Ctx(arith, "2^3^2", None, 0);
    assert ctx.input[0..] == "2^3^2";
    assert ctx.input[2..] == "3^2";
    assert ctx.input[4..] == "2";
    LexDigit(ctx, 0);
    LexOperator(ctx, 1);
    LexDigit(ctx, 2);
    LexOperator(ctx, 3);
    LexDigit(ctx, 4);
    LexEnd(ctx);
    var c0: Cursor<N>, c1: Cursor<N>, c2: Cursor<N>, c3: Cursor<N>, c4: Cursor<N>, c5: Cursor<N> :=
      Cursor(Number(a), 1), Cursor(Function2(Pow), 2), Cursor(Number(b), 3), Cursor(Function2(Pow), 4), Cursor(Number(c), 5), Cursor(End, 5);
    assert Start(ctx) == c0;
    assert G.Signs(ctx, c0, 1) == (1, c0);
    assert G.Power(ctx, c0) == G.Parsed(Const(a), c1);
    assert G.Signs(ctx, c2, 1) == (1, c2);
    assert G.Power(ctx, c2) == G.Parsed(Const(b), c3);
    LoneNumber(ctx, c4);
    var t1 := Call2(Pow, Const(a), Const(b));
    var t2 := Call2(Pow, t1, Const(c));
    assert G.FactorTail(ctx, t1, c3) == G.FactorTail(ctx, t2, c5) == G.Parsed(t2, c5);
    assert G.FactorTail(ctx, Const(a), c1) == G.FactorTail(ctx, t1, c3);
    assert G.Term(ctx, c0) == G.TermTail(ctx, t2, c5) == G.Parsed(t2, c5);
    assert G.Expr(ctx, c0) == G.ExprTail(ctx, t2, c5) == G.Parsed(t2, c5);
  }

  /** Products bind tighter than sums: "1+2*3" is 1+(2*3). */
  lemma ProductBindsTighterThanSum<N>(arith: Arith<N>, a: N, b: N, c: N)
    requires arith.strtod("1+2*3") == (a, 1) && arith.strtod("2*3") == (b, 1) && arith.strtod("3") == (c, 1)
    ensures ParseAll(Ctx(arith, "1+2*3", None, 0)) == G.Parsed(Call2(Add, Const(a), Call2(Mul, Const(b), Const(c))), Cursor(End, 5))
  {
    var ctx := Ctx(arith, "1+2*3", None, 0);
    assert ctx.input[0..] == "1+2*3";
    assert ctx.input[2..] == "2*3";
    assert ctx.input[4..] == "3";
    LexDigit(ctx, 0);
    LexOperator(ctx, 1);
    LexDigit(ctx, 2);
    LexOperator(ctx, 3);
    LexDigit(ctx, 4);
    LexEnd(ctx);
    var c0: Cursor<N>, c1: Cursor<N>, c2: Cursor<N>, c3: Cursor<N>, c4: Cursor<N>, c5: Cursor<N> :=
      Cursor(Number(a), 1), Cursor(Function2(Add), 2), Cursor(Number(b), 3), Cursor(Function2(Mul), 4), Cursor(Number(c), 5), Cursor(End, 5);
    assert Start(ctx) == c0;
    LoneNumber(ctx, c0);
    assert G.Power(ctx, c2) == G.Parsed(Const(b), c3);
    assert G.Factor(ctx, c2) == G.Parsed(Const(b), c3);
    LoneNumber(ctx, c4);
    var m := Call2(Mul, Const(b), Const(c));
    assert G.TermTail(ctx, Const(b), c3) == G.TermTail(ctx, m, c5) == G.Parsed(m, c5);
    assert G.Term(ctx, c2) == G.Parsed(m, c5);
    var t := Call2(Add, Const(a), m);
    assert G.ExprTail(ctx, Const(a), c1) == G.ExprTail(ctx, t, c5) == G.Parsed(t, c5);
  }

  /** Division groups to the left: "8/4/2" is (8/4)/2. */
  lemma DivisionGroupsLeft<N>(arith: Arith<N>, a: N, b: N, c: N)
    requires arith.strtod("8/4/2") == (a, 1) && arith.strtod("4/2") == (b, 1) && arith.strtod("2") == (c, 1)
    ensures ParseAll(Ctx(arith, "8/4/2", None, 0)) == G.Parsed(Call2(Divide, Call2(Divide, Const(a), Const(b)), Const(c)), Cursor(End, 5))
  {
    var ctx := Ctx(arith, "8/4/2", None, 0);
    assert ctx.input[0..] == "8/4/2";
    assert ctx.input[2..] == "4/2";
    assert ctx.input[4..] == "2";
    LexDigit(ctx, 0);
    LexOperator(ctx, 1);
    LexDigit(ctx, 2);
    LexOperator(ctx, 3);
    LexDigit(ctx, 4);
    LexEnd(ctx);
    var c0: Cursor<N>, c1: Cursor<N>, c2: Cursor<N>, c3: Cursor<N>, c4: Cursor<N>, c5: Cursor<N> :=
      Cursor(Number(a), 1), Cursor(Function2(Divide), 2), Cursor(Number(b), 3), Cursor(Function2(Divide), 4), Cursor(Number(c), 5), Cursor(End, 5);
    assert Start(ctx) == c0;
    assert G.Signs(ctx, c0, 1) == (1, c0);
    assert G.Power(ctx, c0) == G.Parsed(Const(a), c1);
    assert G.Factor(ctx, c0) == G.Parsed(Const(a), c1);
    assert G.Signs(ctx, c2, 1) == (1, c2);
    assert G.Power(ctx, c2) == G.Parsed(Const(b), c3);
    assert G.Factor(ctx, c2) == G.Parsed(Const(b), c3);
    LoneNumber(ctx, c4);
    var t1 := Call2(Divide, Const(a), Const(b));
    var t2 := Call2(Divide, t1, Const(c));
    assert G.TermTail(ctx, t1, c3) == G.TermTail(ctx, t2, c5) == G.Parsed(t2, c5);
    assert G.TermTail(ctx, Const(a), c1) == G.TermTail(ctx, t1, c3);
    assert G.Expr(ctx, c0) == G.ExprTail(ctx, t2, c5) == G.Parsed(t2, c5);
  }

  /** A number the scanner cannot read consumes nothing: the cursor stays at
      0, the parse stops on that Number token, and "." fails with offset 1. */
  lemma LoneDotFails<N>(arith: Arith<N>, v: N)
    requires arith.strtod(".") == (v, 0)
    ensures ParseAll(Ctx(arith, ".", None, 0)) == G.Parsed(Const(v), Cursor(Number(v), 0))
    ensures CompileResult(arith, ".", None, 0) == Compiled(None, 1)
  {
    var ctx := Ctx(arith, ".", None, 0);
    assert ctx.input[0..] == ".";
    LexDigit(ctx, 0);
    var c0: Cursor<N> := Cursor(Number(v), 0);
    assert Start(ctx) == c0;
    LoneNumber(ctx, c0);
    assert ParseAll(ctx) == G.ExprTail(ctx, Const(v), c0) == G.Parsed(Const(v), c0);
  }

  /** The variables "x" at address 0 and "y" at address 1. */
  const XY: seq<TeVariable> := [TeVariable("x", 0), TeVariable("y", 1)]

  /** With XY bound, "x" and "y" are the variables at addresses 0 and 1. */
  lemma XAndYAreBound<N>(ctx: Ctx<N>)
    requires ctx.Ok() && ctx.lookup == Some(XY) && ctx.lookupLen == 2
    ensures Identifier(ctx, "x") == Variable(0)
    ensures Identifier(ctx, "y") == Variable(1)
  {
    assert CString("x") == "x" && CString("y") == "y";
    assert Consulted(ctx.lookup, ctx.lookupLen) == XY;
    assert FirstSlot(XY, "x") == Some(0);
    assert FirstSlot(XY[1..], "y") == Some(1);
    assert FirstSlot(XY, "y") == Some(1);
  }

  /** The tokens of "x+y" with x and y bound. */
  lemma TokensOfXPlusY<N>(ctx: Ctx<N>)
    requires ctx == Ctx(ctx.arith, "x+y", Some(XY), 2) && ctx.Ok()
    ensures Lex(ctx, 0) == Cursor(Variable(0), 1)
    ensures Lex(ctx, 1) == Cursor(Function2(Add), 2)
    ensures Lex(ctx, 2) == Cursor(Variable(1), 3)
    ensures Lex(ctx, 3) == Cursor(End, 3)
  {
    assert RunEnd(ctx.input, 1) == 1;
    assert RunEnd(ctx.input, 0) == 1 && ctx.input[0..1] == "x";
    assert RunEnd(ctx.input, 3) == 3;
    assert RunEnd(ctx.input, 2) == 3 && ctx.input[2..3] == "y";
    XAndYAreBound(ctx);
    LexName(ctx, 0);
    LexOperator(ctx, 1);
    LexName(ctx, 2);
    LexEnd(ctx);
  }

  /** "x+y" with x and y bound compiles to a tree that reads both addresses;
      nothing is folded, so each evaluation sees what the addresses hold then. */
  lemma BoundVariablesStayInTree<N>(arith: Arith<N>)
    ensures CompileResult(arith, "x+y", Some(XY), 2) == Compiled(Some(Call2(Add, Bound(0), Bound(1))), 0)
    ensures forall store: Store<N> ::
      Eval(arith, store, CompileResult(arith, "x+y", Some(XY), 2).root.value) == arith.apply2(Add, store(0), store(1))
  {
    var ctx := Ctx(arith, "x+y", Some(XY), 2);
    TokensOfXPlusY(ctx);
    var c0: Cursor<N>, c1: Cursor<N>, c2: Cursor<N>, c3: Cursor<N> :=
      Cursor(Variable(0), 1), Cursor(Function2(Add), 2), Cursor(Variable(1), 3), Cursor(End, 3);
    assert Start(ctx) == c0;
    LoneBase(ctx, c0);
    LoneBase(ctx, c2);
    var t := Call2(Add, Bound(0), Bound(1));
    assert G.ExprTail(ctx, Bound(0), c1) == G.ExprTail(ctx, t, c3) == G.Parsed(t, c3);
    assert ParseAll(ctx) == G.Parsed(t, c3);
  }

  /** A variable shadows the built-in of the same name: with "sin" bound to
      address 7, "sin" compiles to a read of that address. */
  lemma VariableShadowsBuiltin<N>(arith: Arith<N>)
    ensures CompileResult(arith, "sin", Some([TeVariable("sin", 7)]), 1) == Compiled(Some(Bound(7)), 0)
  {
    var ctx := Ctx(arith, "sin", Some([TeVariable("sin", 7)]), 1);
    SinIsBoundTo7(ctx);
    var c0: Cursor<N>, c1: Cursor<N> := Cursor(Variable(7), 3), Cursor(End, 3);
    LexEnd(ctx);
    assert Start(ctx) == c0;
    LoneBase(ctx, c0);
    assert G.Expr(ctx, c0) == G.ExprTail(ctx, Bound(7), c1) == G.Parsed(Bound(7), c1);
  }

  /** With "sin" bound to address 7, the input "sin" is one Variable token. */
  lemma SinIsBoundTo7<N>(ctx: Ctx<N>)
    requires ctx == Ctx(ctx.arith, "sin", Some([TeVariable("sin", 7)]), 1) && ctx.Ok()
    ensures Lex(ctx, 0) == Cursor(Variable(7), 3)
  {
    assert CString("sin") == "sin";
    assert RunEnd(ctx.input, 3) == 3;
    assert RunEnd(ctx.input, 0) == 3 && ctx.input[0..3] == "sin";
    assert FirstSlot([TeVariable("sin", 7)], "sin") == Some(7);
    assert VarLookup(ctx.lookup, ctx.lookupLen, "sin") == Some(7);
    LexName(ctx, 0);
  }

  /** An unclosed parenthesis fails where the ")" was expected: "(1" reports
      offset 2. */
  lemma UnclosedParenthesisFails<N>(arith: Arith<N>, a: N)
    requires arith.strtod("1") == (a, 1)
    ensures CompileResult(arith, "(1", None, 0) == Compiled(None, 2)
  {
    var ctx := Ctx(arith, "(1", None, 0);
    assert ctx.input[1..] == "1";
    LexOperator(ctx, 0);
    LexDigit(ctx, 1);
    LexEnd(ctx);
    var c0: Cursor<N>, c1: Cursor<N>, c2: Cursor<N> := Cursor(Open, 1), Cursor(Number(a), 2), Cursor(End, 2);
    LoneNumber(ctx, c1);
    assert G.Expr(ctx, c1) == G.ExprTail(ctx, Const(a), c2) == G.Parsed(Const(a), c2);
    var bad := G.Parsed(Const(a), Cursor(Error, 2));
    assert G.Base(ctx, c0) == bad;
    LoneBase(ctx, c0);
    assert G.Expr(ctx, c0) == G.ExprTail(ctx, Const(a), Cursor(Error, 2)) == bad;
  }

  /** A blank at the very end is an error: "1 " reports offset 3, one past
      the end of the string. */
  lemma TrailingBlankFails<N>(arith: Arith<N>, a: N)
    requires arith.strtod("1 ") == (a, 1)
    ensures CompileResult(arith, "1 ", None, 0) == Compiled(None, 3)
  {
    var ctx := Ctx(arith, "1 ", None, 0);
    assert ctx.input[0..] == "1 ";
    LexDigit(ctx, 0);
    TrailingBlankIsError(ctx, 1);
    var c0: Cursor<N>, c1: Cursor<N> := Cursor(Number(a), 1), Cursor(Error, 3);
    LoneNumber(ctx, c0);
    assert ParseAll(ctx) == G.ExprTail(ctx, Const(a), c1) == G.Parsed(Const(a), c1);
  }

  /** A dangling operator fails where the missing operand was expected: "1+"
      reports offset 2, and `te_interp` gives NaN with that offset. */
  lemma DanglingOperatorFails<N>(arith: Arith<N>, a: N)
    requires arith.strtod("1+") == (a, 1)
    ensures CompileResult(arith, "1+", None, 0) == Compiled(None, 2)
    ensures InterpResult(arith, "1+") == (arith.nan, 2)
  {
    var ctx := Ctx(arith, "1+", None, 0);
    assert ctx.input[0..] == "1+";
    LexDigit(ctx, 0);
    LexOperator(ctx, 1);
    LexEnd(ctx);
    var c0: Cursor<N>, c1: Cursor<N>, c2: Cursor<N> := Cursor(Number(a), 1), Cursor(Function2(Add), 2), Cursor(End, 2);
    LoneNumber(ctx, c0);
    var bad := G.Parsed(Const(arith.nan), Cursor(Error, 2));
    assert G.Base(ctx, c2) == bad;
    LoneBase(ctx, c2);
    var t := Call2(Add, Const(a), Const(arith.nan));
    assert G.ExprTail(ctx, Const(a), c1) == G.ExprTail(ctx, t, bad.rest) == G.Parsed(t, bad.rest);
  }

  /** With no variables, "sin" is the built-in sine. */
  lemma SinIsBuiltin<N>(ctx: Ctx<N>)
    requires ctx.Ok() && ctx.lookup.None?
    ensures Identifier(ctx, "sin") == Function1(Sin)
  {
    assert Functions[11].name == "sin";
    assert BuiltinFrom("sin", 11) == Some(11);
    assert BuiltinFrom("sin", 6) == Some(11);
    assert LookupBuiltin("sin") == Some(11);
  }

  /** The first token of "sin2^2". */
  lemma FirstTokenOfSinTwoSquared<N>(ctx: Ctx<N>)
    requires ctx == Ctx(ctx.arith, "sin2^2", None, 0) && ctx.Ok()
    ensures Lex(ctx, 0) == Cursor(Function1(Sin), 3)
  {
    assert RunEnd(ctx.input, 3) == 3;
    assert RunEnd(ctx.input, 0) == 3;
    assert ctx.input[0..3] == "sin";
    SinIsBuiltin(ctx);
    LexName(ctx, 0);
  }

  /** The tokens of "sin2^2". */
  lemma TokensOfSinTwoSquared<N>(ctx: Ctx<N>, a: N, b: N)
    requires ctx == Ctx(ctx.arith, "sin2^2", None, 0) && ctx.Ok()
    requires ctx.arith.strtod("2^2") == (a, 1) && ctx.arith.strtod("2") == (b, 1)
    ensures Lex(ctx, 0) == Cursor(Function1(Sin), 3)
    ensures Lex(ctx, 3) == Cursor(Number(a), 4)
    ensures Lex(ctx, 4) == Cursor(Function2(Pow), 5)
    ensures Lex(ctx, 5) == Cursor(Number(b), 6)
    ensures Lex(ctx, 6) == Cursor(End, 6)
  {
    assert ctx.input[3..] == "2^2";
    assert ctx.input[5..] == "2";
    FirstTokenOfSinTwoSquared(ctx);
    LexDigit(ctx, 3);
    LexOperator(ctx, 4);
    LexDigit(ctx, 5);
    LexEnd(ctx);
  }

  /** A built-in takes a `power`, not a whole factor, as its operand: "sin2^2"
      is (sin 2)^2. */
  lemma BuiltinTakesPower<N>(arith: Arith<N>, a: N, b: N)
    requires arith.strtod("2^2") == (a, 1) && arith.strtod("2") == (b, 1)
    ensures ParseAll(Ctx(arith, "sin2^2", None, 0)) == G.Parsed(Call2(Pow, Call1(Lib(Sin), Const(a)), Const(b)), Cursor(End, 6))
  {
    var ctx := Ctx(arith, "sin2^2", None, 0);
    TokensOfSinTwoSquared(ctx, a, b);
    var c0: Cursor<N>, c1: Cursor<N>, c2: Cursor<N>, c3: Cursor<N>, c4: Cursor<N> :=
      Cursor(Function1(Sin), 3), Cursor(Number(a), 4), Cursor(Function2(Pow), 5), Cursor(Number(b), 6), Cursor(End, 6);
    assert Start(ctx) == c0;
    assert G.Signs(ctx, c1, 1) == (1, c1);
    assert G.Power(ctx, c1) == G.Parsed(Const(a), c2);
    var s := Call1(Lib(Sin), Const(a));
    assert G.Signs(ctx, c0, 1) == (1, c0);
    assert G.Base(ctx, c0) == G.Parsed(s, c2);
    assert G.Power(ctx, c0) == G.Parsed(s, c2);
    LoneNumber(ctx, c3);
    var t := Call2(Pow, s, Const(b));
    assert G.FactorTail(ctx, s, c2) == G.FactorTail(ctx, t, c4) == G.Parsed(t, c4);
    assert G.Term(ctx, c0) == G.TermTail(ctx, t, c4) == G.Parsed(t, c4);
    assert G.Expr(ctx, c0) == G.ExprTail(ctx, t, c4) == G.Parsed(t, c4);
  }
}
