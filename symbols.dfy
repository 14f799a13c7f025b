/**
 * Symbol resolution: the caller's variable list, scanned linearly
 * (`find_var`, tinyexpr.c:116-125), and the fixed built-in table, searched
 * by bisection (`find_function`, tinyexpr.c:72-113).
 *
 * Names are C strings: a `string` here stands for the characters of a C
 * buffer, and `CharAt` reads the terminating NUL past its end. The C
 * library's `strncmp` is modelled by `StrNCmp`; exact-name matching is stated
 * against `CString`, the characters a `const char *` denotes.
 */
module Symbols {
  import opened Wrappers
  import opened Arith

  /** The address of a caller-owned `double`. */
  type Slot = nat

  /** `te_variable` (tinyexpr.h:61-65): a name and the address of the storage
      it is bound to. Its `type` field is never read by the engine. */
  datatype TeVariable = TeVariable(name: string, slot: Slot)

  /** One row of the built-in table (tinyexpr.c:66-69). */
  datatype Builtin = Builtin(name: string, f1: LibFun)

  /** The built-in table, in the order the source keeps it (tinyexpr.c:72-91);
      the terminating `{0}` row is not an entry. */
  const Functions: seq<Builtin> := [
    Builtin("abs", Fabs), Builtin("acos", Acos), Builtin("asin", Asin),
    Builtin("atan", Atan), Builtin("ceil", Ceil), Builtin("cos", Cos),
    Builtin("cosh", Cosh), Builtin("exp", Exp), Builtin("floor", Floor),
    Builtin("ln", Log), Builtin("log", Log10), Builtin("sin", Sin),
    Builtin("sinh", Sinh), Builtin("sqrt", Sqrt), Builtin("tan", Tan),
    Builtin("tanh", Tanh)
  ]

  /** The character at index `i` of a C buffer holding `s`: NUL past the end. */
  function CharAt(s: string, i: nat): char {
    if i < |s| then s[i] else '\0'
  }

  /** The characters a `const char *` pointing at `s` denotes: those before
      the first NUL. */
  function CString(s: string): (r: string)
    ensures '\0' !in r && r <= s
    ensures |r| < |s| ==> s[|r|] == '\0'
  {
    if s == [] || s[0] == '\0' then [] else [s[0]] + CString(s[1..])
  }

  /** C's `strncmp(a, b, n)` over the buffers holding `a` and `b`. */
  function StrNCmp(a: string, b: string, n: nat): (r: int)
    ensures a == b ==> r == 0
    decreases n
  {
    if n == 0 then 0
    else if CharAt(a, 0) != CharAt(b, 0) then CharAt(a, 0) as int - CharAt(b, 0) as int
    else if CharAt(a, 0) == '\0' then 0
    else StrNCmp(a[1..], b[1..], n - 1)
  }

  /** The test `find_var` applies to a candidate name (tinyexpr.c:120). */
  predicate NameMatches(ident: string, name: string) {
    StrNCmp(ident, name, |ident|) == 0 && CharAt(name, |ident|) == '\0'
  }

  /** The comparison `find_function` bisects on (tinyexpr.c:101-102): strncmp
      over the identifier's length, tie broken by the candidate's next byte. */
  function Compare(ident: string, name: string): int {
    var c := StrNCmp(ident, name, |ident|);
    if c == 0 then '\0' as int - CharAt(name, |ident|) as int else c
  }

  /** Strict lexicographic order on strings: the order the table is kept in. */
  predicate Below(a: string, b: string)
    decreases |a|
  {
    |b| > 0 && (|a| == 0 || a[0] < b[0] || (a[0] == b[0] && Below(a[1..], b[1..])))
  }

  lemma {:induction false} BelowIrreflexive(a: string)
    ensures !Below(a, a)
    decreases |a|
  {
    if |a| > 0 {
      BelowIrreflexive(a[1..]);
    }
  }

  lemma {:induction false} BelowTransitive(a: string, b: string, c: string)
    requires Below(a, b) && Below(b, c)
    ensures Below(a, c)
    decreases |a|
  {
    if |a| > 0 && a[0] == b[0] && b[0] == c[0] {
      BelowTransitive(a[1..], b[1..], c[1..]);
    }
  }

  /** Over NUL-free strings the sign of `Compare` is the lexicographic order:
      zero exactly for equal names, so "cos" does not match "cosh". */
  lemma {:induction false} CompareSign(a: string, b: string)
    requires '\0' !in a && '\0' !in b
    ensures Compare(a, b) == 0 <==> a == b
    ensures Compare(a, b) < 0 <==> Below(a, b)
    ensures Compare(a, b) > 0 <==> Below(b, a)
    decreases |a|
  {
    if |a| == 0 {
      assert StrNCmp(a, b, 0) == 0;
      if |b| > 0 {
        assert b[0] in b;
      }
    } else if |b| == 0 {
      assert a[0] in a;
    } else if a[0] != b[0] {
      assert a[0] in a && b[0] in b;
    } else {
      assert a[0] in a;
      var a', b' := a[1..], b[1..];
      assert '\0' !in a' by {
        forall k | 0 <= k < |a'| ensures a'[k] != '\0' { assert a'[k] == a[k + 1]; }
      }
      assert '\0' !in b' by {
        forall k | 0 <= k < |b'| ensures b'[k] != '\0' { assert b'[k] == b[k + 1]; }
      }
      assert StrNCmp(a, b, |a|) == StrNCmp(a', b', |a'|);
      assert CharAt(b, |a|) == CharAt(b', |a'|);
      CompareSign(a', b');
      assert a == b <==> a' == b' by {
        if a' == b' {
          assert a == [a[0]] + a' && b == [b[0]] + b';
        }
      }
    }
  }

  /** Over a NUL-free identifier, strncmp on its length is zero exactly when
      the candidate starts with the identifier. */
  lemma {:induction false} StrNCmpPrefix(a: string, b: string)
    requires '\0' !in a
    ensures StrNCmp(a, b, |a|) == 0 <==> |a| <= |b| && b[..|a|] == a
    decreases |a|
  {
    if |a| > 0 {
      assert a[0] in a;
      if CharAt(b, 0) == a[0] {
        var a' := a[1..];
        assert '\0' !in a' by {
          forall k | 0 <= k < |a'| ensures a'[k] != '\0' { assert a'[k] == a[k + 1]; }
        }
        StrNCmpPrefix(a', b[1..]);
        if |a| <= |b| {
          assert b[..|a|] == [b[0]] + b[1..][..|a'|];
          assert a == [a[0]] + a';
        }
      } else if |a| <= |b| {
        assert b[..|a|][0] != a[0];
      }
    }
  }

  /** A NUL-free prefix followed by the terminator is the C string. */
  lemma {:induction false} CStringOfTerminatedPrefix(p: string, s: string)
    requires '\0' !in p && p <= s && CharAt(s, |p|) == '\0'
    ensures CString(s) == p
    decreases |p|
  {
    if |p| > 0 {
      assert p[0] in p && s[0] == p[0];
      var p' := p[1..];
      assert '\0' !in p' by {
        forall k | 0 <= k < |p'| ensures p'[k] != '\0' { assert p'[k] == p[k + 1]; }
      }
      CStringOfTerminatedPrefix(p', s[1..]);
      assert p == [p[0]] + p';
    }
  }

  /** The test of tinyexpr.c:120 is an exact match on the candidate's C
      string: no prefix of a longer name, and no longer identifier, matches. */
  lemma NameMatchesExact(ident: string, name: string)
    requires '\0' !in ident
    ensures NameMatches(ident, name) <==> CString(name) == ident
  {
    StrNCmpPrefix(ident, name);
    if NameMatches(ident, name) {
      CStringOfTerminatedPrefix(ident, name);
    }
    if CString(name) == ident {
      assert name[..|ident|] == ident;
    }
  }

  // ---------------------------------------------------------------------
  // The built-in table

  /** Every built-in name is a short run of lowercase letters. */
  lemma TableNames()
    ensures forall i :: 0 <= i < |Functions| ==>
      0 < |Functions[i].name| <= 5 && forall k :: 0 <= k < |Functions[i].name| ==> 'a' <= Functions[i].name[k] <= 'z'
  {
  }

  /** Each row of the table sorts before the next. */
  lemma AdjacentRowsSorted()
    ensures forall i :: 0 <= i < |Functions| - 1 ==> Below(Functions[i].name, Functions[i + 1].name)
  {
    assert Below("abs", "acos");
    assert Below("acos", "asin");
    assert Below("asin", "atan");
    assert Below("atan", "ceil");
    assert Below("ceil", "cos");
    assert Below("cos", "cosh");
    assert Below("cosh", "exp");
    assert Below("exp", "floor");
    assert Below("floor", "ln");
    assert Below("ln", "log");
    assert Below("log", "sin");
    assert Below("sin", "sinh");
    assert Below("sinh", "sqrt");
    assert Below("sqrt", "tan");
    assert Below("tan", "tanh");
  }

  /** The table is strictly alphabetical, as the comment at tinyexpr.c:73
      demands and bisection relies on. */
  lemma {:induction false} TableSorted()
    ensures forall i, j :: 0 <= i < j < |Functions| ==> Below(Functions[i].name, Functions[j].name)
  {
    AdjacentRowsSorted();
    forall i, j | 0 <= i < j < |Functions|
      ensures Below(Functions[i].name, Functions[j].name)
    {
      var k := i + 1;
      while k < j
        invariant i < k <= j
        invariant Below(Functions[i].name, Functions[k].name)
      {
        BelowTransitive(Functions[i].name, Functions[k].name, Functions[k + 1].name);
        k := k + 1;
      }
    }
  }

  /** The first table row named `name`, searched linearly from row `i`. */
  function BuiltinFrom(name: string, i: nat): (r: Option<nat>)
    requires i <= |Functions|
    ensures r.Some? ==> i <= r.value < |Functions| && Functions[r.value].name == name
    ensures r.None? ==> forall j :: i <= j < |Functions| ==> Functions[j].name != name
    decreases |Functions| - i
  {
    if i == |Functions| then None
    else if Functions[i].name == name then Some(i)
    else BuiltinFrom(name, i + 1)
  }

  /** The reference lookup `find_function` is measured against: the row whose
      name is exactly `name`, if any. */
  function LookupBuiltin(name: string): (r: Option<nat>)
    ensures r.Some? ==> r.value < |Functions| && Functions[r.value].name == name
    ensures r.None? <==> forall j :: 0 <= j < |Functions| ==> Functions[j].name != name
  {
    BuiltinFrom(name, 0)
  }

  /** Lookup takes whole names only: "cos" finds cos and not cosh, and "co",
      a prefix of both, finds nothing. */
  lemma NoPrefixHits()
    ensures LookupBuiltin("cos").Some? && Functions[LookupBuiltin("cos").value].f1 == Cos
    ensures LookupBuiltin("cosh").Some? && Functions[LookupBuiltin("cosh").value].f1 == Cosh
    ensures LookupBuiltin("co").None?
  {
    assert Functions[5].name == "cos" && Functions[6].name == "cosh";
    assert BuiltinFrom("cos", 5) == Some(5);
    assert BuiltinFrom("cosh", 6) == Some(6);
    assert BuiltinFrom("cosh", 5) == Some(6);
    assert forall j :: 0 <= j < |Functions| ==> Functions[j].name != "co";
  }

  /** `find_function` (tinyexpr.c:94-113): bisection over the table. Returns
      the index of the row named exactly `name`, or None for null. */
  method FindFunction(name: string) returns (r: Option<nat>)
    requires '\0' !in name
    ensures r == LookupBuiltin(name)
  {
    TableSorted();
    TableNames();
    var imin: int := 0;
    var imax: int := |Functions| - 1;
    while imax >= imin
      invariant 0 <= imin <= imax + 1 <= |Functions|
      invariant forall j :: 0 <= j < imin ==> Below(Functions[j].name, name)
      invariant forall j :: imax < j < |Functions| ==> Below(name, Functions[j].name)
      decreases imax - imin
    {
      var i := imin + (imax - imin) / 2;
      var c := Compare(name, Functions[i].name);
      assert '\0' !in Functions[i].name;
      CompareSign(name, Functions[i].name);
      if c == 0 {
        BelowIrreflexive(name);
        return Some(i);
      } else if c > 0 {
        forall j | 0 <= j <= i
          ensures Below(Functions[j].name, name)
        {
          if j < i {
            BelowTransitive(Functions[j].name, Functions[i].name, name);
          }
        }
        imin := i + 1;
      } else {
        forall j | i <= j < |Functions|
          ensures Below(name, Functions[j].name)
        {
          if j > i {
            BelowTransitive(name, Functions[i].name, Functions[j].name);
          }
        }
        imax := i - 1;
      }
    }
    BelowIrreflexive(name);
    return None;
  }

  // ---------------------------------------------------------------------
  // The caller's variables

  /** The entries `find_var` may read: the first `len` records of the
      caller's array, or none when the array pointer is null. */
  function Consulted(lookup: Option<seq<TeVariable>>, len: int): seq<TeVariable>
    requires lookup.Some? ==> len <= |lookup.value|
  {
    if lookup.None? || len <= 0 then [] else lookup.value[..len]
  }

  /** The storage addresses a list of variables binds. */
  function SlotsOf(vars: seq<TeVariable>): set<Slot> {
    set i | 0 <= i < |vars| :: vars[i].slot
  }

  /** The slot of the first entry of `vars` that passes the test of
      tinyexpr.c:120. */
  function FirstSlot(vars: seq<TeVariable>, name: string): (r: Option<Slot>)
    ensures r.Some? ==> r.value in SlotsOf(vars)
  {
    if vars == [] then None
    else if NameMatches(name, vars[0].name) then Some(vars[0].slot)
    else
      var r := FirstSlot(vars[1..], name);
      assert r.Some? ==> exists i :: 0 <= i < |vars| - 1 && vars[1..][i].slot == r.value;
      assert forall i :: 0 <= i < |vars| - 1 ==> vars[1..][i] == vars[i + 1];
      r
  }

  /** What `find_var` returns for identifier `name`. */
  function VarLookup(lookup: Option<seq<TeVariable>>, len: int, name: string): (r: Option<Slot>)
    requires lookup.Some? ==> len <= |lookup.value|
    ensures r.Some? ==> r.value in SlotsOf(Consulted(lookup, len))
  {
    FirstSlot(Consulted(lookup, len), name)
  }

  lemma {:induction false} FirstSlotWins(vars: seq<TeVariable>, name: string)
    requires '\0' !in name
    ensures FirstSlot(vars, name).None? <==> forall i :: 0 <= i < |vars| ==> CString(vars[i].name) != name
    ensures FirstSlot(vars, name).Some? ==>
      exists i :: 0 <= i < |vars| && CString(vars[i].name) == name && vars[i].slot == FirstSlot(vars, name).value &&
        forall j :: 0 <= j < i ==> CString(vars[j].name) != name
  {
    if vars != [] {
      NameMatchesExact(name, vars[0].name);
      if !NameMatches(name, vars[0].name) {
        FirstSlotWins(vars[1..], name);
        if FirstSlot(vars, name).Some? {
          var i :| 0 <= i < |vars[1..]| && CString(vars[1..][i].name) == name && vars[1..][i].slot == FirstSlot(vars, name).value &&
            forall j :: 0 <= j < i ==> CString(vars[1..][j].name) != name;
          assert forall j :: 0 <= j < i + 1 ==> CString(vars[j].name) != name by {
            forall j | 0 <= j < i + 1 ensures CString(vars[j].name) != name {
              if j > 0 { assert vars[j] == vars[1..][j - 1]; }
            }
          }
          assert vars[i + 1] == vars[1..][i];
        } else {
          forall i | 0 <= i < |vars| ensures CString(vars[i].name) != name {
            if i > 0 { assert vars[i] == vars[1..][i - 1]; }
          }
        }
      }
    }
  }

  /** `find_var` resolves an identifier to the storage of the FIRST of the
      `len` consulted entries whose name is exactly the identifier; a null
      array or a non-positive count means no variables. */
  lemma VarLookupFirstExact(lookup: Option<seq<TeVariable>>, len: int, name: string)
    requires lookup.Some? ==> len <= |lookup.value|
    requires '\0' !in name
    ensures lookup.None? || len <= 0 ==> VarLookup(lookup, len, name).None?
    ensures VarLookup(lookup, len, name).None? <==>
      (lookup.None? || forall i :: 0 <= i < len ==> CString(lookup.value[i].name) != name)
    ensures VarLookup(lookup, len, name).Some? ==>
      lookup.Some? &&
      exists i :: 0 <= i < len && CString(lookup.value[i].name) == name &&
        lookup.value[i].slot == VarLookup(lookup, len, name).value &&
        forall j :: 0 <= j < i ==> CString(lookup.value[j].name) != name
  {
    var vars := Consulted(lookup, len);
    FirstSlotWins(vars, name);
    if lookup.Some? && len > 0 {
      assert forall i :: 0 <= i < len ==> vars[i] == lookup.value[i];
    }
  }

  /** `find_var` (tinyexpr.c:116-125): a first-match linear scan over the
      consulted entries. */
  method FindVar(lookup: Option<seq<TeVariable>>, len: int, name: string) returns (r: Option<Slot>)
    requires lookup.Some? ==> len <= |lookup.value|
    ensures r == VarLookup(lookup, len, name)
  {
    if lookup.None? {
      return None;
    }
    ghost var vars := Consulted(lookup, len);
    var i := 0;
    while i < len
      invariant 0 <= i <= |vars|
      invariant FirstSlot(vars[i..], name) == VarLookup(lookup, len, name)
    {
      assert vars[i..][0] == lookup.value[i];
      if StrNCmp(name, lookup.value[i].name, |name|) == 0 && CharAt(lookup.value[i].name, |name|) == '\0' {
        return Some(lookup.value[i].slot);
      }
      assert vars[i..][1..] == vars[i + 1..];
      i := i + 1;
    }
    return None;
  }
}
