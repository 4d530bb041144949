/**
 * JavaScript's relational operators on strings: `a < b` compares the two
 * strings lexicographically, character by character, and a proper prefix is
 * smaller than any of its extensions; `a >= b` is defined as `!(a < b)` and
 * `a <= b` as `!(b < a)`. (Dafny's own `<` on sequences means "proper prefix",
 * which is a different relation.)
 */
module LexOrder {

  /** JavaScript `a < b` on strings. */
  predicate LexLess(a: string, b: string)
    decreases |a|
  {
    if |b| == 0 then false
    else if |a| == 0 then true
    else if a[0] != b[0] then a[0] < b[0]
    else LexLess(a[1..], b[1..])
  }

  /** JavaScript `a <= b` on strings, i.e. `!(b < a)`. */
  predicate LexLe(a: string, b: string) {
    !LexLess(b, a)
  }

  /** `s.slice(0, k)`: the first `k` characters, or all of `s` when it is shorter. */
  function Prefix(s: string, k: nat): (r: string)
    ensures |r| == if |s| <= k then |s| else k
    ensures r <= s
  {
    if |s| <= k then s else s[..k]
  }

  lemma {:induction false} LexLessIrreflexive(a: string)
    ensures !LexLess(a, a)
  {
    if |a| > 0 {
      LexLessIrreflexive(a[1..]);
    }
  }

  lemma LexLeReflexive(a: string)
    ensures LexLe(a, a)
  {
    LexLessIrreflexive(a);
  }

  lemma {:induction false} LexLessAsymmetric(a: string, b: string)
    ensures !(LexLess(a, b) && LexLess(b, a))
    decreases |a|
  {
    if |a| > 0 && |b| > 0 && a[0] == b[0] {
      LexLessAsymmetric(a[1..], b[1..]);
    }
  }

  /** Any two distinct strings are ordered one way or the other. */
  lemma {:induction false} LexLessTotal(a: string, b: string)
    ensures a == b || LexLess(a, b) || LexLess(b, a)
    decreases |a|
  {
    if |a| > 0 && |b| > 0 && a[0] == b[0] {
      LexLessTotal(a[1..], b[1..]);
      if a[1..] == b[1..] {
        assert a == [a[0]] + a[1..] && b == [b[0]] + b[1..];
      }
    }
  }

  lemma {:induction false} LexLessTransitive(a: string, b: string, c: string)
    requires LexLess(a, b) && LexLess(b, c)
    ensures LexLess(a, c)
    decreases |a|
  {
    if |a| > 0 && a[0] == b[0] && b[0] == c[0] {
      LexLessTransitive(a[1..], b[1..], c[1..]);
    }
  }

  /** For strings, JavaScript's `a <= b` coincides with "`a < b` or `a == b`". */
  lemma LexLeIff(a: string, b: string)
    ensures LexLe(a, b) <==> (LexLess(a, b) || a == b)
  {
    LexLessTotal(a, b);
    LexLessAsymmetric(a, b);
    LexLessIrreflexive(a);
  }

  /** A common prefix does not change how two strings compare. */
  lemma {:induction false} CommonPrefixLess(p: string, x: string, y: string)
    requires LexLess(x, y)
    ensures LexLess(p + x, p + y)
    decreases |p|
  {
    if |p| == 0 {
      assert p + x == x && p + y == y;
    } else {
      CommonPrefixLess(p[1..], x, y);
      assert (p + x)[0] == (p + y)[0];
      assert (p + x)[1..] == p[1..] + x;
      assert (p + y)[1..] == p[1..] + y;
    }
  }
}
