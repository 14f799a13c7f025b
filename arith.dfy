/**
 * The floating-point environment the engine runs in, kept abstract.
 *
 * The type parameter N stands for C's `double`. Nothing about IEEE-754 is
 * assumed: the literal scanner (`strtod`), the libm functions of the
 * built-in table, the five operator helpers and NaN are supplied by an
 * `Arith<N>` record, so every result about trees and evaluation holds for
 * whatever those operations compute.
 */
module Arith {
  /** The two-argument callables a binary operator token or node carries
      (tinyexpr.c:129-132 and 178-183): add, sub, mul, divide, pow, fmod. */
  datatype Fun2 = Add | Sub | Mul | Divide | Pow | Fmod

  /** The libm functions named by the built-in table (tinyexpr.c:74-89).
      `Log` is the natural logarithm (C's `log`, bound to "ln") and `Log10`
      the decimal one (bound to "log"). */
  datatype LibFun =
    | Fabs | Acos | Asin | Atan | Ceil | Cos | Cosh | Exp | Floor
    | Log | Log10 | Sin | Sinh | Sqrt | Tan | Tanh

  /** The one-argument callables a node carries: a built-in, or the
      `negate` helper that a leading minus sign produces (tinyexpr.c:133). */
  datatype Fun1 = Lib(lib: LibFun) | Negate

  /**
   * `strtod(s)` gives the value of the longest floating-point literal at the
   * start of `s` and the number of characters it consumed (zero when there is
   * none, as for a lone "."). `apply1`/`apply2` call a node's callable and
   * `nan` is what `0.0/0.0` yields.
   */
  datatype Arith<!N> = Arith(
    strtod: seq<char> -> (N, nat),
    apply1: (Fun1, N) -> N,
    apply2: (Fun2, N, N) -> N,
    nan: N)
  {
    /** `strtod` as `next_token` calls it (tinyexpr.c:148): the value and the
        number of characters consumed. The C routine stops at the string's
        terminator, so a count larger than the string is never reported; a
        larger count is read as the whole string. */
    function ScanNumber(s: seq<char>): (r: (N, nat))
      ensures r.1 <= |s|
      ensures strtod(s).1 <= |s| ==> r == strtod(s)
    {
      var (v, k) := strtod(s);
      (v, if k <= |s| then k else |s|)
    }
  }
}
