/**
 * The parts of the `cuti` utility library that the engine relies on. The library's source is
 * not part of this model, so every member here is the contract the engine assumes of it:
 *  - `str_eq(a, b, n)` compares C strings like `strncmp(a, b, n) == 0`;
 *  - `array_has` / `array_hasall` are linear containment searches driven by a comparator;
 *  - `xmemcpy(src, dst, n)` copies `n` elements from `src` to the start of `dst`.
 */
module Cuti {

  /** `compare_result_t`: what a comparator answers. */
  datatype Comparison = ComparisonEqual | ComparisonNotEqual

  const NUL: char := '\0'

  /** A C string (`str_t`) is the characters before its terminating NUL. */
  type CStr = s: seq<char> | NUL !in s

  /** The character at offset `k` of a NUL-terminated string, the terminator included. */
  function At(s: CStr, k: nat): (c: char)
    ensures c == NUL <==> k >= |s|
  {
    if k < |s| then s[k] else NUL
  }

  /** `str_eq(a, b, n)`: walk both strings for at most `n` characters, failing at the first
      difference and succeeding at a shared terminator or when the bound is used up. */
  function StrEq(a: CStr, b: CStr, n: nat): bool
    decreases n
  {
    if n == 0 then true
    else if At(a, 0) != At(b, 0) then false
    else if |a| == 0 then true
    else StrEq(a[1..], b[1..], n - 1)
  }

  /** The bytes `str_eq` may inspect: at most `n` of them, up to and including the terminator. */
  function Bounded(s: CStr, n: nat): (r: seq<char>)
    ensures |r| == if n <= |s| then n else |s| + 1
    ensures n > |s| ==> r == s + [NUL]
    ensures n <= |s| ==> r == s[..n]
  {
    var t := s + [NUL];
    if n <= |s| then t[..n] else t
  }

  /** Peeling off a common first character leaves the bounded views of the tails. */
  lemma BoundedCons(s: CStr, n: nat)
    requires 0 < |s| && 0 < n
    ensures Bounded(s, n) == [s[0]] + Bounded(s[1..], n - 1)
  {
  }

  /** `str_eq` agrees with equality of the two bounded views: characters past the first
      terminator, or past the bound, never matter. */
  lemma {:induction false} StrEqIsBoundedEquality(a: CStr, b: CStr, n: nat)
    ensures StrEq(a, b, n) <==> Bounded(a, n) == Bounded(b, n)
    decreases n
  {
    if n == 0 {
    } else if At(a, 0) != At(b, 0) {
      assert Bounded(a, n)[0] == At(a, 0);
      assert Bounded(b, n)[0] == At(b, 0);
    } else if |a| == 0 {
      assert |b| == 0;
    } else {
      assert |b| > 0;
      StrEqIsBoundedEquality(a[1..], b[1..], n - 1);
      BoundedCons(a, n);
      BoundedCons(b, n);
      if Bounded(a, n) == Bounded(b, n) {
        assert Bounded(a[1..], n - 1) == Bounded(a, n)[1..];
        assert Bounded(b[1..], n - 1) == Bounded(b, n)[1..];
      }
    }
  }

  /** When the bound leaves room for the terminator of `a`, `str_eq` is exact equality:
      a longer string sharing `a` as a prefix does not match. (Automatic induction is off so
      that the proof goes through `StrEqIsBoundedEquality` rather than a hidden induction.) */
  lemma {:induction false} StrEqExact(a: CStr, b: CStr, n: nat)
    ensures |a| < n ==> (StrEq(a, b, n) <==> a == b)
  {
    StrEqIsBoundedEquality(a, b, n);
    if |a| < n && Bounded(a, n) == Bounded(b, n) {
      assert Bounded(a, n)[|a|] == NUL;
      assert NUL in Bounded(b, n);
      assert a + [NUL] == b + [NUL];
      assert a == (a + [NUL])[..|a|];
      assert b == (b + [NUL])[..|b|];
    }
  }

  /** `str_eq` is symmetric and reflexive for every bound. (Automatic induction is off so that
      the proof goes through `StrEqIsBoundedEquality`.) */
  lemma {:induction false} StrEqSymmetricReflexive(a: CStr, b: CStr, n: nat)
    ensures StrEq(a, b, n) == StrEq(b, a, n)
    ensures StrEq(a, a, n)
  {
    StrEqIsBoundedEquality(a, b, n);
    StrEqIsBoundedEquality(b, a, n);
    StrEqIsBoundedEquality(a, a, n);
  }

  /** `array_has(haystack, needle, cmp)`: some haystack element compares equal to the needle. */
  function ArrayHas<H, N>(haystack: seq<H>, needle: N, cmp: (H, N) -> Comparison): (r: bool)
    ensures r <==> exists j :: 0 <= j < |haystack| && cmp(haystack[j], needle) == ComparisonEqual
  {
    if |haystack| == 0 then false
    else if cmp(haystack[0], needle) == ComparisonEqual then true
    else
      var rest := ArrayHas(haystack[1..], needle, cmp);
      assert forall j :: 1 <= j < |haystack| ==> haystack[j] == haystack[1..][j - 1];
      rest
  }

  /** `array_hasall(haystack, needles, cmp)`: every needle, in order, is found in the haystack;
      the search stops at the first needle that is missing. */
  function ArrayHasAll<H, N>(haystack: seq<H>, needles: seq<N>, cmp: (H, N) -> Comparison): (r: bool)
    ensures r <==> forall i :: 0 <= i < |needles| ==> ArrayHas(haystack, needles[i], cmp)
    ensures |needles| == 0 ==> r
  {
    if |needles| == 0 then true
    else if !ArrayHas(haystack, needles[0], cmp) then false
    else
      var rest := ArrayHasAll(haystack, needles[1..], cmp);
      assert forall i :: 1 <= i < |needles| ==> needles[i] == needles[1..][i - 1];
      rest
  }

  /** `xmemcpy(src, dst, count)`: the first `count` slots of `dst` receive the first `count`
      elements of `src`; the rest of `dst` is untouched. */
  method XMemcpy<T>(src: seq<T>, dst: array<T>, count: nat)
    requires count <= |src| && count <= dst.Length
    modifies dst
    ensures dst[..count] == src[..count]
    ensures dst[count..] == old(dst[count..])
  {
    var i := 0;
    while i < count
      invariant 0 <= i <= count
      invariant dst[..i] == src[..i]
      invariant dst[count..] == old(dst[count..])
    {
      dst[i] := src[i];
      i := i + 1;
    }
  }
}
