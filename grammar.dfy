/**
 * The grammar the recursive-descent parser implements (tinyexpr.c:198-306),
 * as functions from a cursor to the tree built and the cursor left:
 *
 *   expr   = term {("+" | "-") term}
 *   term   = factor {("*" | "/" | "%") factor}
 *   factor = power {"^" power}
 *   power  = {("-" | "+")} base
 *   base   = number | variable | function1 power | "(" expr ")"
 *
 * Each `while` loop of the source is a tail function (`ExprTail`, ...) that
 * takes the tree built so far. The parser methods in `Parser` are proved to
 * compute exactly these functions.
 *
 * Termination: every re-entry into a rule with no input consumed goes to a
 * lower rule, and every loop iteration and every re-entry into `expr` or
 * `power` from `base` first consumes an operator, a sign, an identifier or a
 * "(", each at least one character. `Measure` counts that, and the rule rank
 * breaks ties.
 */
module Grammar {
  import opened Arith
  import opened Lexer
  import opened Tree

  /** A rule's result: the tree it built and the cursor it left. */
  datatype Parsed<N> = Parsed(node: Node<N>, rest: Cursor<N>)

  /** Input left to scan, counting a held token that the parser will consume
      with one more `next_token` as half a character. */
  function Measure<N>(ctx: Ctx<N>, c: Cursor<N>): nat
    requires Consistent(ctx, c)
  {
    2 * (|ctx.input| + 1 - c.next) + (if Heavy(c.token) then 1 else 0)
  }

  /** Consuming the current token: `next_token` from the cursor's offset. */
  function Advance<N>(ctx: Ctx<N>, c: Cursor<N>): (r: Cursor<N>)
    requires Sound(ctx, c) && !c.token.Error?
    ensures Sound(ctx, r) && Measure(ctx, r) <= Measure(ctx, c)
    ensures Heavy(c.token) ==> Measure(ctx, r) < Measure(ctx, c)
  {
    Lex(ctx, c.next)
  }

  predicate IsSign<N>(t: Token<N>) {
    t.Function2? && (t.f2 == Add || t.f2 == Sub)
  }

  predicate IsProduct<N>(t: Token<N>) {
    t.Function2? && (t.f2 == Mul || t.f2 == Divide || t.f2 == Fmod)
  }

  predicate IsPower<N>(t: Token<N>) {
    t.Function2? && t.f2 == Pow
  }

  /** `expr` (tinyexpr.c:294-306). */
  function Expr<N>(ctx: Ctx<N>, c: Cursor<N>): (r: Parsed<N>)
    requires Sound(ctx, c)
    ensures Sound(ctx, r.rest) && Measure(ctx, r.rest) <= Measure(ctx, c)
    ensures Slots(r.node) <= BoundSlots(ctx)
    decreases Measure(ctx, c), 8
  {
    var t := Term(ctx, c);
    ExprTail(ctx, t.node, t.rest)
  }

  /** The loop of `expr`: each `+`/`-` makes the tree so far the left operand. */
  function ExprTail<N>(ctx: Ctx<N>, lhs: Node<N>, c: Cursor<N>): (r: Parsed<N>)
    requires Sound(ctx, c)
    ensures Sound(ctx, r.rest) && Measure(ctx, r.rest) <= Measure(ctx, c)
    ensures Slots(r.node) <= Slots(lhs) + BoundSlots(ctx)
    decreases Measure(ctx, c), 7
  {
    if IsSign(c.token) then
      var t := Term(ctx, Advance(ctx, c));
      ExprTail(ctx, Call2(c.token.f2, lhs, t.node), t.rest)
    else
      Parsed(lhs, c)
  }

  /** `term` (tinyexpr.c:279-291). */
  function Term<N>(ctx: Ctx<N>, c: Cursor<N>): (r: Parsed<N>)
    requires Sound(ctx, c)
    ensures Sound(ctx, r.rest) && Measure(ctx, r.rest) <= Measure(ctx, c)
    ensures Slots(r.node) <= BoundSlots(ctx)
    decreases Measure(ctx, c), 6
  {
    var f := Factor(ctx, c);
    TermTail(ctx, f.node, f.rest)
  }

  /** The loop of `term`. */
  function TermTail<N>(ctx: Ctx<N>, lhs: Node<N>, c: Cursor<N>): (r: Parsed<N>)
    requires Sound(ctx, c)
    ensures Sound(ctx, r.rest) && Measure(ctx, r.rest) <= Measure(ctx, c)
    ensures Slots(r.node) <= Slots(lhs) + BoundSlots(ctx)
    decreases Measure(ctx, c), 5
  {
    if IsProduct(c.token) then
      var f := Factor(ctx, Advance(ctx, c));
      TermTail(ctx, Call2(c.token.f2, lhs, f.node), f.rest)
    else
      Parsed(lhs, c)
  }

  /** `factor` (tinyexpr.c:264-276). */
  function Factor<N>(ctx: Ctx<N>, c: Cursor<N>): (r: Parsed<N>)
    requires Sound(ctx, c)
    ensures Sound(ctx, r.rest) && Measure(ctx, r.rest) <= Measure(ctx, c)
    ensures Slots(r.node) <= BoundSlots(ctx)
    decreases Measure(ctx, c), 4
  {
    var p := Power(ctx, c);
    FactorTail(ctx, p.node, p.rest)
  }

  /** The loop of `factor`: `^` groups to the left as well. */
  function FactorTail<N>(ctx: Ctx<N>, lhs: Node<N>, c: Cursor<N>): (r: Parsed<N>)
    requires Sound(ctx, c)
    ensures Sound(ctx, r.rest) && Measure(ctx, r.rest) <= Measure(ctx, c)
    ensures Slots(r.node) <= Slots(lhs) + BoundSlots(ctx)
    decreases Measure(ctx, c), 3
  {
    if IsPower(c.token) then
      var p := Power(ctx, Advance(ctx, c));
      FactorTail(ctx, Call2(c.token.f2, lhs, p.node), p.rest)
    else
      Parsed(lhs, c)
  }

  /** `power` (tinyexpr.c:243-261): a run of signs, then a base, negated when
      the sign came out negative. */
  function Power<N>(ctx: Ctx<N>, c: Cursor<N>): (r: Parsed<N>)
    requires Sound(ctx, c)
    ensures Sound(ctx, r.rest) && Measure(ctx, r.rest) <= Measure(ctx, c)
    ensures Slots(r.node) <= BoundSlots(ctx)
    decreases Measure(ctx, c), 2
  {
    var (sign, c') := Signs(ctx, c, 1);
    if sign == 1 then
      Base(ctx, c')
    else
      var b := Base(ctx, c');
      Parsed(Call1(Negate, b.node), b.rest)
  }

  /** The sign loop of `power`: each `-` flips the sign, each `+` keeps it. */
  function Signs<N>(ctx: Ctx<N>, c: Cursor<N>, sign: int): (r: (int, Cursor<N>))
    requires Sound(ctx, c) && (sign == 1 || sign == -1)
    ensures Sound(ctx, r.1) && Measure(ctx, r.1) <= Measure(ctx, c)
    ensures (r.0 == 1 || r.0 == -1) && !IsSign(r.1.token)
    decreases Measure(ctx, c), 0
  {
    if IsSign(c.token) then
      Signs(ctx, Advance(ctx, c), if c.token.f2 == Sub then -sign else sign)
    else
      (sign, c)
  }

  /** `base` (tinyexpr.c:198-240). Anything but a number, a variable, a
      built-in or "(" is an error, and so is a "(" without its ")": the token
      becomes Error and the cursor stays. */
  function Base<N>(ctx: Ctx<N>, c: Cursor<N>): (r: Parsed<N>)
    requires Sound(ctx, c)
    ensures Sound(ctx, r.rest) && Measure(ctx, r.rest) <= Measure(ctx, c)
    ensures Slots(r.node) <= BoundSlots(ctx)
    decreases Measure(ctx, c), 1
  {
    match c.token
    case Number(v) => Parsed(Const(v), Advance(ctx, c))
    case Variable(slot) => Parsed(Bound(slot), Advance(ctx, c))
    case Function1(f) =>
      var p := Power(ctx, Advance(ctx, c));
      Parsed(Call1(Lib(f), p.node), p.rest)
    case Open =>
      var e := Expr(ctx, Advance(ctx, c));
      if e.rest.token.Close? then Parsed(e.node, Advance(ctx, e.rest))
      else Parsed(e.node, Cursor(Error, e.rest.next))
    case _ => Parsed(Const(ctx.arith.nan), Cursor(Error, c.next))
  }

  // ---------------------------------------------------------------------
  // Properties of the grammar

  /** The number of `-` signs in the run of signs at the cursor. */
  function Minuses<N>(ctx: Ctx<N>, c: Cursor<N>): nat
    requires Sound(ctx, c)
    decreases Measure(ctx, c)
  {
    if IsSign(c.token) then
      (if c.token.f2 == Sub then 1 else 0) + Minuses(ctx, Advance(ctx, c))
    else
      0
  }

  /** Where the sign loop stops does not depend on the sign it starts with. */
  lemma {:induction false} SignsStopAlike<N>(ctx: Ctx<N>, c: Cursor<N>, sign: int)
    requires Sound(ctx, c) && (sign == 1 || sign == -1)
    ensures Signs(ctx, c, sign).1 == Signs(ctx, c, 1).1
    decreases Measure(ctx, c)
  {
    if IsSign(c.token) {
      var c' := Advance(ctx, c);
      SignsStopAlike(ctx, c', if c.token.f2 == Sub then -sign else sign);
      SignsStopAlike(ctx, c', if c.token.f2 == Sub then -1 else 1);
    }
  }

  /** The sign loop flips the sign once per `-`. */
  lemma {:induction false} SignsCountMinuses<N>(ctx: Ctx<N>, c: Cursor<N>, sign: int)
    requires Sound(ctx, c) && (sign == 1 || sign == -1)
    ensures Signs(ctx, c, sign).0 == if Minuses(ctx, c) % 2 == 0 then sign else -sign
    decreases Measure(ctx, c)
  {
    if IsSign(c.token) {
      var c' := Advance(ctx, c);
      var m := Minuses(ctx, c');
      var flip := c.token.f2 == Sub;
      var sign' := if flip then -sign else sign;
      assert Signs(ctx, c, sign) == Signs(ctx, c', sign');
      assert Minuses(ctx, c) == (if flip then 1 else 0) + m;
      SignsCountMinuses(ctx, c', sign');
      ParityStep(m, flip);
    }
  }

  lemma ParityStep(m: nat, flip: bool)
    ensures ((if flip then 1 else 0) + m) % 2 == 0 <==> (m % 2 == 0) != flip
  {
  }

  /** A run of leading signs yields at most one negate node, present exactly
      when the run holds an odd number of `-`; the `+` signs are dropped. */
  lemma NegateExactlyOnOddMinuses<N>(ctx: Ctx<N>, c: Cursor<N>)
    requires Sound(ctx, c)
    ensures var b := Base(ctx, Signs(ctx, c, 1).1);
      Power(ctx, c) == if Minuses(ctx, c) % 2 == 1 then Parsed(Call1(Negate, b.node), b.rest) else b
  {
    SignsCountMinuses(ctx, c, 1);
    SignsStopAlike(ctx, c, 1);
  }

  /** Once the token is Error no rule consumes anything: every rule returns at
      once with the cursor unchanged (the tree is a NaN leaf). */
  lemma ErrorIsSticky<N>(ctx: Ctx<N>, c: Cursor<N>)
    requires Sound(ctx, c) && c.token.Error?
    ensures Base(ctx, c) == Parsed(Const(ctx.arith.nan), c)
    ensures Power(ctx, c) == Parsed(Const(ctx.arith.nan), c)
    ensures Factor(ctx, c) == Parsed(Const(ctx.arith.nan), c)
    ensures Term(ctx, c) == Parsed(Const(ctx.arith.nan), c)
    ensures Expr(ctx, c) == Parsed(Const(ctx.arith.nan), c)
  {
    assert Signs(ctx, c, 1) == (1, c);
    assert Power(ctx, c) == Base(ctx, c);
    assert Factor(ctx, c) == FactorTail(ctx, Const(ctx.arith.nan), c);
    assert Term(ctx, c) == TermTail(ctx, Const(ctx.arith.nan), c);
  }

  /** The loops never stop on an operator of their own level: after `expr`
      the token is not `+`/`-`, after `term` not `*`, `/`, `%`, after
      `factor` not `^`. */
  lemma {:induction false} TailsStopOffTheirOperators<N>(ctx: Ctx<N>, lhs: Node<N>, c: Cursor<N>)
    requires Sound(ctx, c)
    ensures !IsSign(ExprTail(ctx, lhs, c).rest.token)
    ensures !IsProduct(TermTail(ctx, lhs, c).rest.token)
    ensures !IsPower(FactorTail(ctx, lhs, c).rest.token)
    decreases Measure(ctx, c)
  {
    if IsSign(c.token) {
      var t := Term(ctx, Advance(ctx, c));
      TailsStopOffTheirOperators(ctx, Call2(c.token.f2, lhs, t.node), t.rest);
    }
    if IsProduct(c.token) {
      var f := Factor(ctx, Advance(ctx, c));
      TailsStopOffTheirOperators(ctx, Call2(c.token.f2, lhs, f.node), f.rest);
    }
    if IsPower(c.token) {
      var p := Power(ctx, Advance(ctx, c));
      TailsStopOffTheirOperators(ctx, Call2(c.token.f2, lhs, p.node), p.rest);
    }
  }
}
