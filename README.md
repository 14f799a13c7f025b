# tinyexpr core in Dafny

This project models the compile-and-evaluate engine of tinyexpr (`tinyexpr.c`,
with the API contracts of `tinyexpr.h`). The engine turns a C string such as
`"sin(x)^2+1"` into a binary expression tree and evaluates that tree against
caller-owned variable storage. It has these parts:

- **Symbols.** `find_var` scans the caller's `te_variable` array linearly for
  the first exact name match. `find_function` bisects the alphabetical table
  of sixteen one-argument built-ins.
- **Tokenizer.** `next_token` works on the parser state (cursor, token kind,
  payload).
- **Recursive-descent parser.** `expr`, `term`, `factor`, `power` and `base`
  build the tree.
- **Constant folding.** `optimize` collapses every node whose children are all
  unbound leaves.
- **Evaluator.** `te_eval` walks the tree.
- **Driver.** `te_compile`, `te_interp` and `te_free`.

Modules, one per file:

| module | file | contents |
|---|---|---|
| `Wrappers` | wrappers.dfy | `Option`, which stands for a possibly null pointer |
| `Arith` | arith.dfy | the abstract number type: literal scanner, callables, NaN |
| `Symbols` | symbols.dfy | built-in table, `strncmp`, `FindFunction`, `FindVar` |
| `Lexer` | lexer.dfy | tokens, the specification `Lex`, the class `State` with `NextToken` |
| `Tree` | tree.dfy | nodes, `Eval`, `Optimize`, the release order of `te_free` |
| `Grammar` | grammar.dfy | each grammar rule as a function from a cursor to the tree and cursor it yields |
| `Parser` | parser.dfy | the imperative rules on the shared `State`, proved equal to `Grammar` |
| `Engine` | engine.dfy | `CompileResult`/`Compile`, `InterpResult`/`Interp` |
| `Examples` | examples.dfy | compilations of concrete strings |

Numbers are a type parameter `N`. Everything numeric is kept uninterpreted and
is carried in an `Arith<N>` record: `strtod` (a scanner that returns a value and
how many characters it consumed, possibly none), `apply1` and `apply2` (keyed
by the built-in or operator) and `nan`. The tokenizer reads the scanner
through `ScanNumber`, which caps the count at the length of the string, as C's
`strtod` never reads past the terminator.
Variables are addresses (`Slot`) into storage, and storage is a function
`Slot -> N`, so that rebinding a variable amounts to evaluating the same tree
against another store. The input is a `string`. `CharAt` reads `'\0'` past its
end, which plays the part of the C terminator.

The parser's methods are proved to terminate. The measure counts the
characters left, plus half a character when the current token is one that
consumes input. The rule's rank breaks ties.

Two points where this version of the code differs from how tinyexpr is
usually described:

- A leading sign binds tighter than `^`. `power` takes the signs and `factor`
  takes the `^`, so `"-2^2"` is `(-2)^2` (`Examples.MinusBindsTighterThanPower`),
  not `-(2^2)`. The model follows the code.
- Identifiers are runs of lowercase letters only, with no digits and no
  underscores. There is no comma, and there are no functions of other arities.

## Model

| member | source | states |
|---|---|---|
| Arith.Arith.ScanNumber | tinyexpr.c:148 | The number scanner never moves the cursor past the end of the string, and agrees with `strtod` whenever `strtod` stays inside the string |
| Symbols.CString | tinyexpr.h:61-65 | The characters a variable's `const char *name` denotes: a NUL-free prefix of the string, ended by a NUL or the end of the string |
| Symbols.StrNCmp | tinyexpr.c:101 | libc `strncmp` over the two C buffers; identical buffers compare equal, and over NUL-free names its sign is stated by `CompareSign` |
| Symbols.NameMatches | tinyexpr.c:120 | The test `find_var` applies to each entry; `NameMatchesExact` proves it is exact C-string equality |
| Symbols.NameMatchesExact | tinyexpr.c:120 | The test `strncmp(name, entry, len) == 0 && entry[len] == '\0'` holds exactly when the entry's C string equals the identifier: no prefix hits and no longer names |
| Symbols.CompareSign | tinyexpr.c:101-102 | The bisection comparison is 0 exactly on an exact name match, positive exactly when the identifier sorts after the table name, negative exactly when it sorts before |
| Symbols.Compare | tinyexpr.c:101-102 | The bisection comparison, with the tie broken by the table name's next byte; `CompareSign` proves it is zero exactly on equal names and otherwise has the sign of the alphabetical order |
| Symbols.BelowTransitive | tinyexpr.c:73 | The alphabetical order the table must follow is transitive |
| Symbols.AdjacentRowsSorted | tinyexpr.c:72-91 | Each row of the built-in table sorts strictly before the next |
| Symbols.TableSorted | tinyexpr.c:72-91 | The built-in table is strictly alphabetical, as bisection requires |
| Symbols.TableNames | tinyexpr.c:74-89 | Every built-in name is 1 to 5 lowercase letters, so the 15-character guard never rejects a built-in |
| Symbols.LookupBuiltin | tinyexpr.c:72-91 | The reference lookup: the row whose name equals the identifier exactly, or none exactly when no row has that name |
| Symbols.NoPrefixHits | tinyexpr.c:79-80 | "cos" finds `cos` and not `cosh`; "cosh" finds `cosh`; the common prefix "co" finds nothing |
| Symbols.FindFunction | tinyexpr.c:94-113 | The bisection returns exactly what the reference lookup returns (the exact-name row, or null) |
| Symbols.FirstSlot | tinyexpr.c:119-123 | The address found, if any, belongs to one of the entries scanned |
| Symbols.FirstSlotWins | tinyexpr.c:119-123 | The scan returns the address of the first entry whose C-string name equals the identifier, and none when no entry does |
| Symbols.Consulted | tinyexpr.c:118-119 | The entries `find_var` reads (a definition); `VarLookupFirstExact` states that a null array or a count ≤ 0 finds nothing and that otherwise only the first `var_count` entries are consulted |
| Symbols.VarLookup | tinyexpr.c:116-125 | What `find_var` returns: a found address belongs to one of the consulted entries; `VarLookupFirstExact` states which one |
| Symbols.VarLookupFirstExact | tinyexpr.c:116-125 | A null array or a count ≤ 0 finds nothing; otherwise the result is the address of the first of the first `var_count` entries whose name matches exactly; no other entry is consulted |
| Symbols.FindVar | tinyexpr.c:116-125 | The loop returns exactly the reference lookup `VarLookup` |
| Lexer.RunEnd | tinyexpr.c:155 | The identifier loop stops at the first non-lowercase character, and every character it passes is a lowercase letter |
| Lexer.Identifier | tinyexpr.c:157-173 | A `Variable` token names one of the bound addresses |
| Lexer.Scan | tinyexpr.c:146-190 | One pass of the loop body: the cursor moves forward except for a number that consumed nothing; a skipped blank moves by exactly one; the result is never End |
| Lexer.Punct | tinyexpr.c:177-188 | The operator switch: no token exactly for the four blanks, a binary operator exactly for `+-*/^%`, a parenthesis token exactly for `(` and `)`, and Error for every other character |
| Lexer.LexFrom | tinyexpr.c:144-191 | The do-while loop yields a non-null, non-End token; the cursor stays within one past the terminator, and only an Error token can be that far |
| Lexer.Lex | tinyexpr.c:136-192 | `next_token` yields End exactly when the cursor is on the terminator, without moving; tokens that take input (parentheses, operators, identifiers, errors) move the cursor forward |
| Lexer.EndIsStable | tinyexpr.c:139-142 | At the terminator `next_token` yields End without moving, so a repeated call yields End again |
| Lexer.BlankIsSkipped | tinyexpr.c:186 | A blank followed by more input is skipped: lexing from it equals lexing from the next character |
| Lexer.TrailingBlankIsError | tinyexpr.c:139-142 | A blank right before the terminator is not skipped to End: the loop reads the NUL as an unknown character, yields Error, and moves the cursor one past the end of the string |
| Lexer.BadCharacterIsError | tinyexpr.c:177-187 | Any character that is not a digit, '.', a lowercase letter, a blank, an operator or a parenthesis yields Error and is consumed |
| Lexer.IdentifierToken | tinyexpr.c:152-173 | A maximal run of lowercase letters is a Variable exactly when a consulted entry has that exact name, so variables shadow built-ins; otherwise it is Function1 exactly when a built-in has that exact name, carrying that built-in; otherwise it is Error |
| Lexer.State.constructor | tinyexpr.c:353-356 | The state starts at offset 0 with the given expression and variable array |
| Lexer.State.NextToken | tinyexpr.c:136-192 | The imperative tokenizer leaves exactly the cursor and token `Lex` specifies and keeps the state valid |
| Lexer.State.ScanOnce | tinyexpr.c:146-190 | One pass of the loop body leaves exactly the cursor and token `Scan` specifies |
| Lexer.State.ScanIdentifier | tinyexpr.c:152-173 | The identifier branch moves the cursor to the end of the run of lowercase letters and classifies the run as `Identifier` does |
| Tree.Eval | tinyexpr.c:309-322 | `te_eval`; `EvalReadsOnlySlots` states that it reads storage only at the tree's bound addresses and `OptimizePreservesEval` that folding keeps its value |
| Tree.Optimize | tinyexpr.c:325-349 | Folding keeps the set of addresses read, never grows the tree, and leaves leaves alone |
| Tree.OptimizePreservesEval | tinyexpr.c:325-349 | The folded tree evaluates to what the original does, for every content of storage |
| Tree.OptimizeFolds | tinyexpr.c:325-349 | After the pass no interior node has only unbound-leaf children |
| Tree.FoldedIsFixed | tinyexpr.c:325-349 | On a tree with nothing left to fold the pass changes nothing |
| Tree.OptimizeIdempotent | tinyexpr.c:325-349 | A second pass changes nothing |
| Tree.ClosedTreeFoldsToLeaf | tinyexpr.c:325-349 | A tree that reads no storage folds to one leaf holding its value |
| Tree.EvalReadsOnlySlots | tinyexpr.c:309-322 | `te_eval` reads storage only at the tree's bound addresses: stores that agree there give the same value, so a change there is what the next evaluation sees |
| Tree.Released | tinyexpr.c:58-63 | The nodes `te_free` releases, in order; `FreeReleasesEachNodeOnce` states its property |
| Tree.FreeReleasesEachNodeOnce | tinyexpr.c:58-63 | `te_free` does nothing on null; otherwise it releases every node of the tree exactly once, the root last |
| Grammar.Advance | tinyexpr.c:136-192 | Consuming a token never increases the termination measure, and strictly decreases it for a token that took input |
| Grammar.Expr | tinyexpr.c:294-306 | `expr` leaves a consistent cursor, does not increase the measure, and builds a tree that reads only bound addresses |
| Grammar.ExprTail | tinyexpr.c:298-303 | The `+`/`-` loop adds only bound addresses to the tree it extends |
| Grammar.Term | tinyexpr.c:279-291 | As for `expr`, one level down |
| Grammar.TermTail | tinyexpr.c:283-288 | As for the `expr` loop, for `*`, `/` and `%` |
| Grammar.Factor | tinyexpr.c:264-276 | As for `expr`, at the `^` level |
| Grammar.FactorTail | tinyexpr.c:268-273 | As for the `expr` loop, for `^` |
| Grammar.Power | tinyexpr.c:243-261 | As for `expr`, at the unary-sign level |
| Grammar.Signs | tinyexpr.c:245-249 | The sign loop ends on a token that is not `+` or `-`, with a sign of +1 or -1 |
| Grammar.Base | tinyexpr.c:198-240 | As for `expr`, for numbers, variables, built-in calls and parentheses |
| Grammar.SignsStopAlike | tinyexpr.c:245-249 | Where the sign loop stops does not depend on the sign it starts with |
| Grammar.SignsCountMinuses | tinyexpr.c:245-249 | The final sign is the initial sign flipped once per `-` in the run |
| Grammar.NegateExactlyOnOddMinuses | tinyexpr.c:243-261 | A run of signs yields at most one negate node, present exactly when the run holds an odd number of `-` |
| Grammar.ErrorIsSticky | tinyexpr.c:232-236 | Once the token is Error every rule returns at once with the cursor unchanged |
| Grammar.TailsStopOffTheirOperators | tinyexpr.c:264-306 | Each loop stops only on a token that is not an operator of its own level |
| Parser.Base | tinyexpr.c:198-240 | The imperative rule builds the tree and leaves the state that `Grammar.Base` specifies |
| Parser.Power | tinyexpr.c:243-261 | Likewise for `power` |
| Parser.Factor | tinyexpr.c:264-276 | Likewise for `factor` |
| Parser.Term | tinyexpr.c:279-291 | Likewise for `term` |
| Parser.Expr | tinyexpr.c:294-306 | Likewise for `expr` |
| Engine.Start | tinyexpr.c:358 | The first token leaves a sound cursor |
| Engine.ParseAll | tinyexpr.c:358-359 | The parse tree reads only bound addresses |
| Engine.CompileResult | tinyexpr.c:352-373 | `te_compile` returns null exactly when the error is nonzero; the error is at most one past the end of the string; a returned tree is fully folded and reads only bound addresses |
| Engine.Compile | tinyexpr.c:352-373 | The imperative driver returns exactly `CompileResult` |
| Engine.InterpResult | tinyexpr.c:376-386 | `te_interp` passes the compile error through unchanged and returns NaN on failure |
| Engine.Interp | tinyexpr.c:376-386 | The imperative driver returns exactly `InterpResult` |
| Engine.CompileSucceedsIffParseReachesEnd | tinyexpr.c:361-372 | A successful compilation parsed up to the terminator: the End token it stopped on lies on the NUL. The success test and the failure offset (the cursor, or 1 when it is 0) are restated for reference |
| Engine.CompiledMeansParsed | tinyexpr.c:368-371 | The returned tree evaluates to what the parse tree does under any storage, and reads the same addresses |
| Engine.InterpIsFoldedValue | tinyexpr.c:376-386 | With no variables a compiled tree is one constant leaf, and `te_interp` returns the parse tree's value with error 0 |
| Engine.InterpIgnoresStorage | tinyexpr.c:376-386 | The value `te_interp` returns does not depend on any storage |
| Examples.EmptyExpressionFails | tinyexpr.c:361-367 | `""` fails with error 1 |
| Examples.DanglingOperatorFails | tinyexpr.c:362-368 | `"1+"` fails with error 2, and `te_interp` returns NaN with error 2 |
| Examples.UnclosedParenthesisFails | tinyexpr.c:221-228 | `"(1"` fails with error 2, where the `)` was expected |
| Examples.TrailingBlankFails | tinyexpr.c:139-142 | `"1 "` fails with error 3, one past the end of the string |
| Examples.LoneDotFails | tinyexpr.c:146-149 | When the scanner reads nothing of `"."` the cursor does not move, the parse stops on that number, and compilation fails with error 1 |
| Examples.SubtractionGroupsLeft | tinyexpr.c:294-306 | `"8-2-1"` parses as `(8-2)-1` |
| Examples.DivisionGroupsLeft | tinyexpr.c:279-291 | `"8/4/2"` parses as `(8/4)/2` |
| Examples.PowerGroupsLeft | tinyexpr.c:264-276 | `"2^3^2"` parses as `(2^3)^2` |
| Examples.ProductBindsTighterThanSum | tinyexpr.c:279-306 | `"1+2*3"` parses as `1+(2*3)` |
| Examples.MinusBindsTighterThanPower | tinyexpr.c:243-276 | `"-2^2"` parses as `(-2)^2` |
| Examples.BuiltinTakesPower | tinyexpr.c:215-220 | A built-in takes a `power` as its operand: `"sin2^2"` parses as `(sin 2)^2` |
| Examples.BoundVariablesStayInTree | tinyexpr.c:208-213 | `"x+y"` with x and y bound compiles to an unfolded sum of two bound leaves, and each evaluation reads the storage as it is at that time |
| Examples.VariableShadowsBuiltin | tinyexpr.c:157-160 | With a variable named `sin` bound, `"sin"` compiles to a read of its address |

## Left out

- IEEE-754 arithmetic, libm and `strtod` are not modelled. Numbers are
  abstract, and the callables and the literal scanner are uninterpreted. So
  no numeric result such as "2*3+4 is 10" is claimed, nor NaN's inequality
  to itself. `divide`, `negate`, `pow` and `fmod` are only names.
- `Arith.ScanNumber` reads a count larger than the string as the whole
  string. It caps the count at the length of the string, not at the first
  embedded NUL. C's `strtod` stops at that NUL, so for an input with a NUL
  inside a number a scanner that claims to read past it makes the model
  consume characters C never sees.
- Offsets are unbounded integers. C stores the pointer difference
  `s.next - s.start` in an `int` (the error at tinyexpr.c:364 and the `len`
  passed to `find_var` and `find_function` at tinyexpr.c:157 and 166, and the
  length guard at tinyexpr.c:162), which
  truncates for inputs longer than `INT_MAX` characters. That truncation is
  not modelled.
- `int *error` is a pointer that may be null. The model always returns the
  error value, so the null case, where nothing is written, is not modelled.
- `Tree.Optimize`: `optimize` updates nodes in place and frees the folded
  children. The model computes the folded tree as a new value. Each node has
  exactly one parent, so no aliasing is lost, but the order of the `free`
  calls inside `optimize` is not modelled.
- `malloc` and `free`: `new_expr` is a datatype constructor, and allocation
  failure, which the source never checks, is not modelled. `te_free` is
  modelled by the order in which it releases nodes (`Tree.Released`). The
  methods drop the tree at the points where the source frees it.
- The C union of `value`, `f1` and `f2` in a node is replaced by a sum type
  with four cases. A node with a right child and no left child, which the
  parser never builds, cannot be represented.
- The `type` field of `te_variable` (tinyexpr.h:64) is not modelled, because
  `tinyexpr.c` never reads it. The same holds for the `te_expr` layout with
  `members[]` and the arity and type flags of tinyexpr.h:34-59, which this
  version of `tinyexpr.c` does not use.
- A variable entry whose storage pointer is null is not modelled. In C,
  `find_var` would return null for it and stop, so the name would fall
  through to the built-ins. Addresses here are never null.
- `pn` and `te_print` (debug printing), `repl.c` (an interactive loop) and
  `example2.c` (a demo) are not modelled. The compile-once, evaluate-many
  pattern of `example2.c` is covered by `Tree.EvalReadsOnlySlots` and
  `Examples.BoundVariablesStayInTree`.
- `te_eval` takes a `const` tree. It is a function here, so it cannot modify
  the tree, and two evaluations against the same storage agree by
  construction.
- A tree that reads variables is not claimed to equal a re-associated one
  (for example, `x+1+5` against `x+(1+5)`), because that would depend on
  floating-point associativity.
