/**
 * Sums over sequences, the arithmetic the ledger reports are made of.
 *
 * `Sum` and `SumR` are the reference definitions (integer bones and exact
 * decimals respectively); `Accumulate` is the shape of the source's
 * `let mut acc = 0; for x in xs { acc += f(x) }` loops, and is proved to
 * agree with `Sum`.
 */
module Sums {

  /** The sum of `f` over `s`, peeling the last element. */
  function Sum<T>(s: seq<T>, f: T -> int): int
  {
    if |s| == 0 then 0 else Sum(s[..|s| - 1], f) + f(s[|s| - 1])
  }

  /** The sum of `f` over `s` for exact decimal values. */
  function SumR<T>(s: seq<T>, f: T -> real): real
  {
    if |s| == 0 then 0.0 else SumR(s[..|s| - 1], f) + f(s[|s| - 1])
  }

  /** A left-to-right running total starting from `acc`, as a `for` loop computes it. */
  function Accumulate<T>(s: seq<T>, f: T -> int, acc: int): (r: int)
    ensures r == acc + Sum(s, f)
    decreases |s|
  {
    if |s| == 0 then acc
    else
      SumFirst(s, f);
      Accumulate(s[1..], f, acc + f(s[0]))
  }

  lemma {:induction false} SumAppend<T>(a: seq<T>, b: seq<T>, f: T -> int)
    ensures Sum(a + b, f) == Sum(a, f) + Sum(b, f)
    decreases |b|
  {
    if |b| == 0 {
      assert a + b == a;
    } else {
      assert (a + b)[..|a + b| - 1] == a + b[..|b| - 1];
      SumAppend(a, b[..|b| - 1], f);
    }
  }

  /** Splitting off the first element instead of the last. */
  lemma SumFirst<T>(s: seq<T>, f: T -> int)
    requires |s| > 0
    ensures Sum(s, f) == f(s[0]) + Sum(s[1..], f)
  {
    assert s == [s[0]] + s[1..];
    SumAppend([s[0]], s[1..], f);
    assert [s[0]][..0] == [];
  }

  /** A sum does not depend on the order of its terms. */
  lemma {:induction false} SumPermutation<T>(a: seq<T>, b: seq<T>, f: T -> int)
    requires multiset(a) == multiset(b)
    ensures Sum(a, f) == Sum(b, f)
    decreases |a|
  {
    if |a| == 0 {
      assert |b| == |multiset(b)| == 0;
    } else {
      var x := a[|a| - 1];
      var a' := a[..|a| - 1];
      assert a == a' + [x];
      assert x in multiset(b);
      var i :| 0 <= i < |b| && b[i] == x;
      var b' := b[..i] + b[i + 1..];
      assert b == b[..i] + [x] + b[i + 1..];
      assert multiset(b') == multiset(b) - multiset{x};
      assert multiset(a') == multiset(a) - multiset{x};
      SumPermutation(a', b', f);
      SumAppend(b[..i] + [x], b[i + 1..], f);
      SumAppend(b[..i], [x], f);
      SumAppend(b[..i], b[i + 1..], f);
      assert [x][..0] == [];
    }
  }

  lemma {:induction false} SumRAppend<T>(a: seq<T>, b: seq<T>, f: T -> real)
    ensures SumR(a + b, f) == SumR(a, f) + SumR(b, f)
    decreases |b|
  {
    if |b| == 0 {
      assert a + b == a;
    } else {
      assert (a + b)[..|a + b| - 1] == a + b[..|b| - 1];
      SumRAppend(a, b[..|b| - 1], f);
    }
  }

  /** A decimal sum does not depend on the order of its terms. */
  lemma {:induction false} SumRPermutation<T>(a: seq<T>, b: seq<T>, f: T -> real)
    requires multiset(a) == multiset(b)
    ensures SumR(a, f) == SumR(b, f)
    decreases |a|
  {
    if |a| == 0 {
      assert |b| == |multiset(b)| == 0;
    } else {
      var x := a[|a| - 1];
      var a' := a[..|a| - 1];
      assert a == a' + [x];
      assert x in multiset(b);
      var i :| 0 <= i < |b| && b[i] == x;
      var b' := b[..i] + b[i + 1..];
      assert b == b[..i] + [x] + b[i + 1..];
      assert multiset(b') == multiset(b) - multiset{x};
      assert multiset(a') == multiset(a) - multiset{x};
      SumRPermutation(a', b', f);
      SumRAppend(b[..i] + [x], b[i + 1..], f);
      SumRAppend(b[..i], [x], f);
      SumRAppend(b[..i], b[i + 1..], f);
      assert [x][..0] == [];
    }
  }

  /** A decimal sum of zero terms is zero. */
  lemma {:induction false} SumRZero<T>(s: seq<T>, f: T -> real)
    requires forall i :: 0 <= i < |s| ==> f(s[i]) == 0.0
    ensures SumR(s, f) == 0.0
    decreases |s|
  {
    if |s| > 0 {
      SumRZero(s[..|s| - 1], f);
    }
  }
}
