/**
 * The recursive-descent parser (tinyexpr.c:198-306): one method per rule,
 * each working on the shared parser state and proved to build the tree and
 * leave the state that the matching rule of `Grammar` describes.
 */
module Parser {
  import opened Arith
  import opened Lexer
  import opened Tree
  import G = Grammar

  /** `base` (tinyexpr.c:198-240). */
  method Base<N>(s: State<N>) returns (ret: Node<N>)
    requires s.Valid()
    modifies s
    ensures s.Valid()
    ensures G.Parsed(ret, s.Current()) == G.Base(s.Context(), old(s.Current()))
    decreases G.Measure(s.Context(), s.Current()), 1
  {
    match s.token
    case Number(v) =>
      ret := Const(v);
      s.NextToken();
    case Variable(slot) =>
      ret := Bound(slot);
      s.NextToken();
    case Function1(f) =>
      s.NextToken();
      var arg := Power(s);
      ret := Call1(Lib(f), arg);
    case Open =>
      s.NextToken();
      ret := Expr(s);
      if s.token.Close? {
        s.NextToken();
      } else {
        s.token := Error;
      }
    case _ =>
      ret := Const(s.arith.nan);
      s.token := Error;
  }

  /** `power` (tinyexpr.c:243-261). */
  method Power<N>(s: State<N>) returns (ret: Node<N>)
    requires s.Valid()
    modifies s
    ensures s.Valid()
    ensures G.Parsed(ret, s.Current()) == G.Power(s.Context(), old(s.Current()))
    decreases G.Measure(s.Context(), s.Current()), 2
  {
    ghost var c0 := s.Current();
    var sign := 1;
    while s.token.Function2? && (s.token.f2 == Add || s.token.f2 == Sub)
      invariant s.Valid() && (sign == 1 || sign == -1)
      invariant G.Signs(s.Context(), s.Current(), sign) == G.Signs(s.Context(), c0, 1)
      invariant G.Measure(s.Context(), s.Current()) <= G.Measure(s.Context(), c0)
      decreases G.Measure(s.Context(), s.Current())
    {
      if s.token.f2 == Sub {
        sign := -sign;
      }
      s.NextToken();
    }
    if sign == 1 {
      ret := Base(s);
    } else {
      var operand := Base(s);
      ret := Call1(Negate, operand);
    }
  }

  /** `factor` (tinyexpr.c:264-276). */
  method Factor<N>(s: State<N>) returns (ret: Node<N>)
    requires s.Valid()
    modifies s
    ensures s.Valid()
    ensures G.Parsed(ret, s.Current()) == G.Factor(s.Context(), old(s.Current()))
    decreases G.Measure(s.Context(), s.Current()), 4
  {
    ghost var c0 := s.Current();
    ret := Power(s);
    while s.token.Function2? && s.token.f2 == Pow
      invariant s.Valid()
      invariant G.FactorTail(s.Context(), ret, s.Current()) == G.Factor(s.Context(), c0)
      invariant G.Measure(s.Context(), s.Current()) <= G.Measure(s.Context(), c0)
      decreases G.Measure(s.Context(), s.Current())
    {
      var t := s.token.f2;
      s.NextToken();
      var rhs := Power(s);
      ret := Call2(t, ret, rhs);
    }
  }

  /** `term` (tinyexpr.c:279-291). */
  method Term<N>(s: State<N>) returns (ret: Node<N>)
    requires s.Valid()
    modifies s
    ensures s.Valid()
    ensures G.Parsed(ret, s.Current()) == G.Term(s.Context(), old(s.Current()))
    decreases G.Measure(s.Context(), s.Current()), 6
  {
    ghost var c0 := s.Current();
    ret := Factor(s);
    while s.token.Function2? && (s.token.f2 == Mul || s.token.f2 == Divide || s.token.f2 == Fmod)
      invariant s.Valid()
      invariant G.TermTail(s.Context(), ret, s.Current()) == G.Term(s.Context(), c0)
      invariant G.Measure(s.Context(), s.Current()) <= G.Measure(s.Context(), c0)
      decreases G.Measure(s.Context(), s.Current())
    {
      var t := s.token.f2;
      s.NextToken();
      var rhs := Factor(s);
      ret := Call2(t, ret, rhs);
    }
  }

  /** `expr` (tinyexpr.c:294-306). */
  method Expr<N>(s: State<N>) returns (ret: Node<N>)
    requires s.Valid()
    modifies s
    ensures s.Valid()
    ensures G.Parsed(ret, s.Current()) == G.Expr(s.Context(), old(s.Current()))
    decreases G.Measure(s.Context(), s.Current()), 8
  {
    ghost var c0 := s.Current();
    ret := Term(s);
    while s.token.Function2? && (s.token.f2 == Add || s.token.f2 == Sub)
      invariant s.Valid()
      invariant G.ExprTail(s.Context(), ret, s.Current()) == G.Expr(s.Context(), c0)
      invariant G.Measure(s.Context(), s.Current()) <= G.Measure(s.Context(), c0)
      decreases G.Measure(s.Context(), s.Current())
    {
      var t := s.token.f2;
      s.NextToken();
      var rhs := Term(s);
      ret := Call2(t, ret, rhs);
    }
  }
}
