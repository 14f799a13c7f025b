/**
 * The tokenizer: `next_token` (tinyexpr.c:136-192) over the parser state
 * (tinyexpr.c:36-44).
 *
 * `Lex` specifies one call of `next_token` as a function of the cursor it
 * starts from; `State.NextToken` is the imperative routine, which updates the
 * cursor and the current token in place and is proved to agree with `Lex`.
 * The input is the characters of the C string being compiled; `CharAt` reads
 * its terminating NUL (and treats an embedded NUL the same way).
 */
module Lexer {
  import opened Wrappers
  import opened Arith
  import opened Symbols

  /** The token kinds of tinyexpr.c:32, each with the part of the state's
      payload union (tinyexpr.c:40) that goes with it. `Null` is the
      "no token yet" kind the scanning loop runs on. */
  datatype Token<N> =
    | Null
    | End
    | Open
    | Close
    | Number(value: N)
    | Function1(f1: LibFun)
    | Function2(f2: Fun2)
    | Variable(slot: Slot)
    | Error

  predicate IsDigit(c: char) { '0' <= c <= '9' }

  predicate IsLower(c: char) { 'a' <= c <= 'z' }

  /** The characters skipped between tokens (tinyexpr.c:186). */
  predicate IsBlank(c: char) { c == ' ' || c == '\t' || c == '\n' || c == '\r' }

  /** An unbound identifier longer than this is an error without looking at
      the built-in table (tinyexpr.c:162). */
  const MaxBuiltinLength := 15

  /** What a compilation fixes: the number scanner and callables, the input,
      and the caller's variable array with its count. */
  datatype Ctx<!N> = Ctx(arith: Arith<N>, input: string, lookup: Option<seq<TeVariable>>, lookupLen: int)
  {
    /** The count does not exceed the array the caller passed. */
    ghost predicate Ok() {
      lookup.Some? ==> lookupLen <= |lookup.value|
    }
  }

  /** The varying part of the state: the current token and `next`, the offset
      of the first character not yet scanned. */
  datatype Cursor<N> = Cursor(token: Token<N>, next: nat)

  /** A cursor `next_token` or the parser can produce: it may pass the
      terminator by one character, and only with an error token. */
  predicate Consistent<N>(ctx: Ctx<N>, c: Cursor<N>) {
    c.next <= |ctx.input| + 1 && (c.next == |ctx.input| + 1 ==> c.token.Error?)
  }

  /** Tokens that took at least one character of input and that the parser
      consumes by calling `next_token` again. */
  predicate Heavy<N>(t: Token<N>) {
    t.Open? || t.Close? || t.Function1? || t.Function2? || t.Variable?
  }

  /** The end of the run of lowercase letters that starts at `p`
      (tinyexpr.c:155). */
  function RunEnd(input: string, p: nat): (q: nat)
    requires p <= |input|
    ensures p <= q <= |input| && !IsLower(CharAt(input, q))
    ensures forall k :: p <= k < q ==> IsLower(input[k])
    decreases |input| - p
  {
    if IsLower(CharAt(input, p)) then RunEnd(input, p + 1) else p
  }

  /** The operator and punctuation switch (tinyexpr.c:177-188): `Null` for a
      blank, which the loop skips. */
  function Punct<N>(c: char): (r: Token<N>)
    ensures r.Null? <==> IsBlank(c)
    ensures r.Function2? <==> c in "+-*/^%"
    ensures r.Open? || r.Close? <==> c in "()"
    ensures r.Error? <==> !IsBlank(c) && c !in "+-*/^%()"
  {
    match c
    case '+' => Function2(Add)
    case '-' => Function2(Sub)
    case '*' => Function2(Mul)
    case '/' => Function2(Divide)
    case '^' => Function2(Pow)
    case '%' => Function2(Fmod)
    case '(' => Open
    case ')' => Close
    case ' ' => Null
    case '\t' => Null
    case '\n' => Null
    case '\r' => Null
    case _ => Error
  }

  /** The addresses of the variables `find_var` may resolve to. */
  ghost function BoundSlots<N>(ctx: Ctx<N>): set<Slot>
    requires ctx.Ok()
  {
    SlotsOf(Consulted(ctx.lookup, ctx.lookupLen))
  }

  /** A consistent cursor whose variable token, if any, names a bound slot,
      and whose End token, if any, sits on the terminator. */
  ghost predicate Sound<N>(ctx: Ctx<N>, c: Cursor<N>) {
    && ctx.Ok() && Consistent(ctx, c)
    && (c.token.Variable? ==> c.token.slot in BoundSlots(ctx))
    && (c.token.End? ==> CharAt(ctx.input, c.next) == '\0')
  }

  /** How an identifier is classified (tinyexpr.c:157-173): a bound variable
      first, then a built-in of at most 15 characters, else an error. */
  function Identifier<N>(ctx: Ctx<N>, name: string): (t: Token<N>)
    requires ctx.Ok()
    ensures t.Variable? ==> t.slot in BoundSlots(ctx)
  {
    match VarLookup(ctx.lookup, ctx.lookupLen, name)
    case Some(slot) => Variable(slot)
    case None =>
      if |name| > MaxBuiltinLength then Error
      else match LookupBuiltin(name)
        case Some(i) => Function1(Functions[i].f1)
        case None => Error
  }

  /** One pass of the scanning loop's body (tinyexpr.c:146-190) at offset `p`. */
  function Scan<N>(ctx: Ctx<N>, p: nat): (r: Cursor<N>)
    requires ctx.Ok() && p <= |ctx.input|
    ensures p <= r.next && Consistent(ctx, r)
    ensures r.token.Null? ==> r.next == p + 1 <= |ctx.input|
    ensures !r.token.Number? ==> r.next > p
    ensures !r.token.End?
    ensures r.token.Variable? ==> r.token.slot in BoundSlots(ctx)
  {
    var c := CharAt(ctx.input, p);
    if IsDigit(c) || c == '.' then
      var (v, k) := ctx.arith.ScanNumber(ctx.input[p..]);
      Cursor(Number(v), p + k)
    else if IsLower(c) then
      var q := RunEnd(ctx.input, p);
      Cursor(Identifier(ctx, ctx.input[p..q]), q)
    else
      Cursor(Punct(c), p + 1)
  }

  /** The scanning loop (tinyexpr.c:144-191): scan until a pass yields a token. */
  function LexFrom<N>(ctx: Ctx<N>, p: nat): (r: Cursor<N>)
    requires ctx.Ok() && p <= |ctx.input|
    ensures p <= r.next && Consistent(ctx, r)
    ensures !r.token.Null? && !r.token.End?
    ensures !r.token.Number? ==> r.next > p
    ensures r.token.Variable? ==> r.token.slot in BoundSlots(ctx)
    decreases |ctx.input| - p
  {
    var r := Scan(ctx, p);
    if r.token.Null? then LexFrom(ctx, r.next) else r
  }

  /** `next_token` called with the cursor at `p` (tinyexpr.c:136-192): end of
      input is checked once, before the scanning loop. */
  function Lex<N>(ctx: Ctx<N>, p: nat): (r: Cursor<N>)
    requires ctx.Ok() && p <= |ctx.input|
    ensures p <= r.next && Consistent(ctx, r) && !r.token.Null?
    ensures r.token.End? <==> CharAt(ctx.input, p) == '\0'
    ensures r.token.End? ==> r.next == p
    ensures Heavy(r.token) || r.token.Error? ==> r.next > p
    ensures r.token.Variable? ==> r.token.slot in BoundSlots(ctx)
  {
    if CharAt(ctx.input, p) == '\0' then Cursor(End, p) else LexFrom(ctx, p)
  }

  // ---------------------------------------------------------------------
  // Properties of next_token

  /** At the end of input `next_token` yields End and leaves the cursor where
      it is, so calling it again yields End again. */
  lemma EndIsStable<N>(ctx: Ctx<N>, p: nat)
    requires ctx.Ok() && p <= |ctx.input| && CharAt(ctx.input, p) == '\0'
    ensures Lex(ctx, p) == Cursor(End, p)
    ensures Lex(ctx, Lex(ctx, p).next) == Lex(ctx, p)
  {
  }

  /** A blank between tokens is skipped: scanning from it gives what scanning
      from the next character gives, unless that character is the end. */
  lemma BlankIsSkipped<N>(ctx: Ctx<N>, p: nat)
    requires ctx.Ok() && p < |ctx.input| && IsBlank(ctx.input[p])
    requires CharAt(ctx.input, p + 1) != '\0'
    ensures Lex(ctx, p) == Lex(ctx, p + 1)
  {
    assert Scan(ctx, p) == Cursor(Null, p + 1);
  }

  /** A blank right before the terminator is not skipped to End: the loop reads
      the terminator as an unknown character, yields Error, and leaves the
      cursor one past the end of the string. */
  lemma TrailingBlankIsError<N>(ctx: Ctx<N>, p: nat)
    requires ctx.Ok() && p < |ctx.input| && IsBlank(ctx.input[p])
    requires CharAt(ctx.input, p + 1) == '\0'
    ensures Lex(ctx, p) == Cursor(Error, p + 2)
    ensures p + 1 == |ctx.input| ==> Lex(ctx, p).next == |ctx.input| + 1
  {
    assert Scan(ctx, p) == Cursor(Null, p + 1);
    assert Punct<N>('\0') == Error;
    assert LexFrom(ctx, p + 1) == Scan(ctx, p + 1) == Cursor(Error, p + 2);
  }

  /** A character that starts no token and is not blank is an error, and the
      cursor moves past it. */
  lemma BadCharacterIsError<N>(ctx: Ctx<N>, p: nat)
    requires ctx.Ok() && p < |ctx.input|
    requires var c := ctx.input[p];
      c != '\0' && !IsDigit(c) && c != '.' && !IsLower(c) && !IsBlank(c) &&
      c !in {'+', '-', '*', '/', '^', '%', '(', ')'}
    ensures Lex(ctx, p) == Cursor(Error, p + 1)
  {
  }

  /**
   * An identifier is the maximal run of lowercase letters at `p`. It is a
   * variable exactly when one of the consulted entries is named exactly so
   * (so a variable shadows a built-in of the same name); otherwise it is the
   * built-in named exactly so, if there is one; otherwise an error. The
   * 15-character guard never changes the outcome, since no built-in name is
   * that long.
   */
  lemma IdentifierToken<N>(ctx: Ctx<N>, p: nat)
    requires ctx.Ok() && p < |ctx.input| && IsLower(ctx.input[p])
    ensures var r := Lex(ctx, p);
      var q := RunEnd(ctx.input, p);
      var name := ctx.input[p..q];
      var bound := ctx.lookup.Some? && exists i :: 0 <= i < ctx.lookupLen && CString(ctx.lookup.value[i].name) == name;
      var builtin := exists i :: 0 <= i < |Functions| && Functions[i].name == name;
      p < q && r.next == q &&
      (r.token.Variable? <==> bound) &&
      (r.token.Function1? <==> !bound && builtin) &&
      (r.token.Error? <==> !bound && !builtin) &&
      (r.token.Function1? ==> exists i :: 0 <= i < |Functions| && Functions[i].name == name && Functions[i].f1 == r.token.f1)
  {
    var q := RunEnd(ctx.input, p);
    var name := ctx.input[p..q];
    assert '\0' !in name by {
      forall k | 0 <= k < |name| ensures name[k] != '\0' { assert IsLower(ctx.input[p + k]); }
    }
    VarLookupFirstExact(ctx.lookup, ctx.lookupLen, name);
    TableNames();
    assert Lex(ctx, p) == Scan(ctx, p);
  }

  // ---------------------------------------------------------------------
  // The parser state and next_token

  /** The parser state (tinyexpr.c:36-44): `start` is offset 0 of `input`,
      `next` the cursor, `token` the type with its payload. */
  class State<N> {
    const arith: Arith<N>
    const input: string
    const lookup: Option<seq<TeVariable>>
    const lookupLen: int
    var next: nat
    var token: Token<N>

    function Context(): Ctx<N> {
      Ctx(arith, input, lookup, lookupLen)
    }

    function Current(): Cursor<N>
      reads this
    {
      Cursor(token, next)
    }

    ghost predicate Valid()
      reads this
    {
      Sound(Context(), Current())
    }

    /** The set-up at the top of `te_compile` (tinyexpr.c:353-356); the token
        is not yet meaningful. */
    constructor (arith: Arith<N>, expression: string, variables: Option<seq<TeVariable>>, varCount: int)
      requires variables.Some? ==> varCount <= |variables.value|
      ensures Context() == Ctx(arith, expression, variables, varCount)
      ensures Valid() && next == 0 && token == Null
    {
      this.arith := arith;
      this.input := expression;
      this.lookup := variables;
      this.lookupLen := varCount;
      next := 0;
      token := Null;
    }

    /** `next_token` (tinyexpr.c:136-192). The do-while loop runs while the
        token is still `Null`. */
    method NextToken()
      requires Context().Ok() && next <= |input|
      modifies this
      ensures Current() == Lex(Context(), old(next))
      ensures Valid()
    {
      token := Null;
      if CharAt(input, next) == '\0' {
        token := End;
        return;
      }
      ghost var p0 := next;
      while token.Null?
        invariant next <= |input| + 1
        invariant token.Null? ==> next <= |input| && LexFrom(Context(), next) == Lex(Context(), p0)
        invariant !token.Null? ==> Current() == Lex(Context(), p0)
        decreases |input| + 2 - next - (if token.Null? then 0 else 1)
      {
        ScanOnce();
      }
    }

    /** One pass of the loop body (tinyexpr.c:146-190). */
    method ScanOnce()
      requires Context().Ok() && next <= |input|
      modifies this
      ensures Current() == Scan(Context(), old(next))
    {
      var c := CharAt(input, next);
      if IsDigit(c) || c == '.' {
        var (v, k) := arith.ScanNumber(input[next..]);
        token := Number(v);
        next := next + k;
      } else if IsLower(c) {
        ScanIdentifier();
      } else {
        next := next + 1;
        token := Punct(c);
      }
    }

    /** The identifier branch (tinyexpr.c:152-173): extend over lowercase
        letters, then try the variables, then the built-ins. */
    method ScanIdentifier()
      requires Context().Ok() && next < |input| && IsLower(input[next])
      modifies this
      ensures Current() == Scan(Context(), old(next))
    {
      var start := next;
      while IsLower(CharAt(input, next))
        invariant start <= next <= |input|
        invariant RunEnd(input, next) == RunEnd(input, start)
        decreases |input| - next
      {
        next := next + 1;
      }
      var name := input[start..next];
      var slot := FindVar(lookup, lookupLen, name);
      if slot.Some? {
        token := Variable(slot.value);
      } else if next - start > MaxBuiltinLength {
        token := Error;
      } else {
        assert '\0' !in name by {
          forall k | 0 <= k < |name| ensures name[k] != '\0' { assert IsLower(input[start + k]); }
        }
        var f := FindFunction(name);
        if f.None? {
          token := Error;
        } else {
          token := Function1(Functions[f.value].f1);
        }
      }
      assert Identifier(Context(), name) == token;
    }
  }
}
