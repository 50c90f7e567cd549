/** Small shared vocabulary: optional values, error results, sums and means,
    Python-style list slicing, decimal rendering of integers and
    first-appearance de-duplication. */
module Common {

  /** A value that may be absent (Python `None`). */
  datatype Option<+T> = None | Some(value: T)

  /** The outcome of an operation that may raise in the original program. */
  datatype Result<+T> = Ok(value: T) | Err(error: string)

  /** Sum of a sequence of integers, folded from the end so that appending is cheap to reason about. */
  function Sum(s: seq<int>): int
  {
    if |s| == 0 then 0 else Sum(s[..|s| - 1]) + s[|s| - 1]
  }

  /** Sum of a sequence of reals, folded from the end. */
  function SumReal(s: seq<real>): real
  {
    if |s| == 0 then 0.0 else SumReal(s[..|s| - 1]) + s[|s| - 1]
  }

  /** Arithmetic mean of a non-empty sequence of positions (Python `sum(xs) / len(xs)`). */
  function Mean(s: seq<nat>): real
    requires |s| > 0
  {
    (Sum(s) as real) / (|s| as real)
  }

  /** Arithmetic mean of a non-empty sequence of reals. */
  function MeanReal(s: seq<real>): real
    requires |s| > 0
  {
    SumReal(s) / (|s| as real)
  }

  /** Arithmetic mean of a non-empty sequence of integers. */
  function MeanInt(s: seq<int>): real
    requires |s| > 0
  {
    (Sum(s) as real) / (|s| as real)
  }

  lemma {:induction false} SumConcat(a: seq<int>, b: seq<int>)
    ensures Sum(a + b) == Sum(a) + Sum(b)
    decreases |b|
  {
    if |b| == 0 {
      assert a + b == a;
    } else {
      var b' := b[..|b| - 1];
      var ab := a + b;
      assert ab[..|ab| - 1] == a + b' && ab[|ab| - 1] == b[|b| - 1];
      SumConcat(a, b');
    }
  }

  lemma {:induction false} SumRealConcat(a: seq<real>, b: seq<real>)
    ensures SumReal(a + b) == SumReal(a) + SumReal(b)
    decreases |b|
  {
    if |b| == 0 {
      assert a + b == a;
    } else {
      var b' := b[..|b| - 1];
      var ab := a + b;
      assert ab[..|ab| - 1] == a + b' && ab[|ab| - 1] == b[|b| - 1];
      SumRealConcat(a, b');
    }
  }

  /** A sum of values that all lie in [lo, hi] lies in [n*lo, n*hi]. */
  lemma {:induction false} SumBounds(s: seq<nat>, lo: nat, hi: nat)
    requires forall k :: 0 <= k < |s| ==> lo <= s[k] <= hi
    ensures |s| * lo <= Sum(s) <= |s| * hi
  {
    if |s| > 0 {
      var n := |s| - 1;
      SumBounds(s[..n], lo, hi);
      BoundsStep(n, Sum(s[..n]), s[n], lo, hi);
    }
  }

  /** Adding one more value in [lo, hi] to a total of `n` such values. */
  lemma BoundsStep(n: nat, total: int, x: int, lo: int, hi: int)
    requires n * lo <= total <= n * hi
    requires lo <= x <= hi
    ensures (n + 1) * lo <= total + x <= (n + 1) * hi
  {
    assert (n + 1) * lo == n * lo + lo;
    assert (n + 1) * hi == n * hi + hi;
  }

  /** The same step over the reals. */
  lemma RealBoundsStep(n: real, total: real, x: real, lo: real, hi: real)
    requires n * lo <= total <= n * hi
    requires lo <= x <= hi
    ensures (n + 1.0) * lo <= total + x <= (n + 1.0) * hi
  {
    assert (n + 1.0) * lo == n * lo + lo;
    assert (n + 1.0) * hi == n * hi + hi;
  }

  /** The mean of values in [lo, hi] lies in [lo, hi]. */
  lemma MeanBounds(s: seq<nat>, lo: nat, hi: nat)
    requires |s| > 0
    requires forall k :: 0 <= k < |s| ==> lo <= s[k] <= hi
    ensures lo as real <= Mean(s) <= hi as real
  {
    SumBounds(s, lo, hi);
    QuotientOfBounds(Sum(s), |s|, lo, hi);
  }

  /** The integer form of `QuotientBounds`. */
  lemma QuotientOfBounds(total: int, n: nat, lo: nat, hi: nat)
    requires n > 0 && n * lo <= total <= n * hi
    ensures lo as real <= (total as real) / (n as real) <= hi as real
  {
    CastProduct(n, lo);
    CastProduct(n, hi);
    assert (n * lo) as real <= total as real <= (n * hi) as real;
    QuotientBounds(total as real, n as real, lo as real, hi as real);
  }

  lemma CastProduct(a: nat, b: nat)
    ensures (a * b) as real == (a as real) * (b as real)
  {
  }

  /** If n*lo <= a <= n*hi with n > 0, then lo <= a/n <= hi. */
  lemma QuotientBounds(a: real, n: real, lo: real, hi: real)
    requires n > 0.0
    requires n * lo <= a <= n * hi
    ensures lo <= a / n <= hi
  {
    var q := a / n;
    assert q * n == a;
    assert (q - lo) * n == a - lo * n;
    assert (hi - q) * n == hi * n - a;
  }

  /** A sum of reals that all lie in [lo, hi] lies in [n*lo, n*hi]. */
  lemma {:induction false} SumRealBounds(s: seq<real>, lo: real, hi: real)
    requires forall k :: 0 <= k < |s| ==> lo <= s[k] <= hi
    ensures (|s| as real) * lo <= SumReal(s) <= (|s| as real) * hi
  {
    if |s| > 0 {
      var n := |s| - 1;
      SumRealBounds(s[..n], lo, hi);
      RealBoundsStep(n as real, SumReal(s[..n]), s[n], lo, hi);
    }
  }

  /** Python slicing `s[:n]`: a negative `n` counts from the end. */
  function Take<T>(s: seq<T>, n: int): (r: seq<T>)
    ensures r <= s
    ensures n >= 0 ==> |r| == if n <= |s| then n else |s|
    ensures n < 0 ==> |r| == if |s| + n >= 0 then |s| + n else 0
  {
    if n >= 0 then (if n <= |s| then s[..n] else s)
    else if |s| + n >= 0 then s[..|s| + n]
    else []
  }

  /** Python slicing `s[a:b]` for non-negative bounds. */
  function Slice<T>(s: seq<T>, a: nat, b: nat): (r: seq<T>)
    ensures |r| == if a >= |s| || b <= a then 0 else (if b <= |s| then b else |s|) - a
    ensures forall k :: 0 <= k < |r| ==> r[k] == s[a + k]
  {
    var hi := if b <= |s| then b else |s|;
    if a >= hi then [] else s[a..hi]
  }

  predicate IsDigit(c: char)
  {
    '0' <= c <= '9'
  }

  /** Python's whitespace (`str.isspace`, and `\s` in a `str` regex). */
  predicate IsSpace(c: char)
  {
    || '\U{0009}' <= c <= '\U{000D}'
    || '\U{001C}' <= c <= '\U{0020}'
    || c == '\U{0085}' || c == '\U{00A0}' || c == '\U{1680}'
    || '\U{2000}' <= c <= '\U{200A}'
    || c == '\U{2028}' || c == '\U{2029}' || c == '\U{202F}' || c == '\U{205F}' || c == '\U{3000}'
  }

  /** Decimal digits of a natural number, most significant first (Python `str(n)`). */
  function NatToString(n: nat): (r: string)
    ensures |r| > 0
    ensures forall k :: 0 <= k < |r| ==> IsDigit(r[k])
    ensures DigitsValue(r) == n
    decreases n
  {
    var last := [(48 + n % 10) as char];
    if n < 10 then last
    else
      var front := NatToString(n / 10);
      assert (front + last)[..|front|] == front;
      front + last
  }

  /** The number a string of decimal digits denotes. */
  function DigitsValue(s: string): int
  {
    if |s| == 0 then 0 else 10 * DigitsValue(s[..|s| - 1]) + (s[|s| - 1] as int - 48)
  }

  /** Python `str(i)` for a possibly negative integer. */
  function IntToString(i: int): (r: string)
    ensures |r| > 0
    ensures r[0] == '-' <==> i < 0
  {
    if i >= 0 then NatToString(i) else "-" + NatToString(-i)
  }

  /** Reading back the rendering of an integer gives the integer: `str` is injective. */
  lemma IntToStringInjective(i: int, j: int)
    requires IntToString(i) == IntToString(j)
    ensures i == j
  {
    if i < 0 && j < 0 {
      assert NatToString(-i) == IntToString(i)[1..];
      assert NatToString(-j) == IntToString(j)[1..];
    }
  }

  /** Distinct elements of `s` in order of first appearance (the key order of a Python dict built from `s`). */
  function Dedup<T(==)>(s: seq<T>): (r: seq<T>)
    ensures forall k :: 0 <= k < |r| ==> r[k] in s
    ensures forall k :: 0 <= k < |s| ==> s[k] in r
    ensures forall i, j :: 0 <= i < j < |r| ==> r[i] != r[j]
  {
    if |s| == 0 then []
    else
      var front := Dedup(s[..|s| - 1]);
      if s[|s| - 1] in front then front else front + [s[|s| - 1]]
  }

  /** No element occurs twice. */
  predicate Distinct<T(==)>(s: seq<T>)
  {
    forall i, j :: 0 <= i < j < |s| ==> s[i] != s[j]
  }

  /** Number of elements of `s` satisfying `p`. */
  function CountWhere<T>(s: seq<T>, p: T -> bool): (n: nat)
    ensures n <= |s|
  {
    if |s| == 0 then 0 else CountWhere(s[..|s| - 1], p) + (if p(s[|s| - 1]) then 1 else 0)
  }

  /** Sum of `f` over the elements of `s`, folded from the end. */
  function SumOver<T>(s: seq<T>, f: T -> real): real
  {
    if |s| == 0 then 0.0 else SumOver(s[..|s| - 1], f) + f(s[|s| - 1])
  }

  lemma {:induction false} SumOverConcat<T>(a: seq<T>, b: seq<T>, f: T -> real)
    ensures SumOver(a + b, f) == SumOver(a, f) + SumOver(b, f)
    decreases |b|
  {
    if |b| == 0 {
      assert a + b == a;
    } else {
      var b' := b[..|b| - 1];
      assert (a + b)[..|a + b| - 1] == a + b';
      SumOverConcat(a, b', f);
    }
  }

  lemma {:induction false} CountWhereConcat<T>(a: seq<T>, b: seq<T>, p: T -> bool)
    ensures CountWhere(a + b, p) == CountWhere(a, p) + CountWhere(b, p)
    decreases |b|
  {
    if |b| == 0 {
      assert a + b == a;
    } else {
      var b' := b[..|b| - 1];
      assert (a + b)[..|a + b| - 1] == a + b';
      CountWhereConcat(a, b', p);
    }
  }

  /** Removing the element at `k` from a sequence, and the multiset that leaves. */
  lemma RemoveAt<T>(s: seq<T>, k: nat)
    requires k < |s|
    ensures s == s[..k] + [s[k]] + s[k + 1..]
    ensures multiset(s[..k] + s[k + 1..]) == multiset(s) - multiset{s[k]}
  {
    assert s == s[..k] + [s[k]] + s[k + 1..];
  }

  /** Taking one element out of a sum. */
  lemma SumOverRemove<T>(b: seq<T>, k: nat, f: T -> real)
    requires k < |b|
    ensures SumOver(b, f) == SumOver(b[..k] + b[k + 1..], f) + f(b[k])
  {
    RemoveAt(b, k);
    var left, x, right := b[..k], b[k], b[k + 1..];
    SumOverConcat(left + [x], right, f);
    SumOverConcat(left, [x], f);
    SumOverConcat(left, right, f);
    assert SumOver([x], f) == f(x) by {
      assert [x][..0] == [];
    }
  }

  /** Taking one element out of a count. */
  lemma CountWhereRemove<T>(b: seq<T>, k: nat, p: T -> bool)
    requires k < |b|
    ensures CountWhere(b, p) == CountWhere(b[..k] + b[k + 1..], p) + (if p(b[k]) then 1 else 0)
  {
    RemoveAt(b, k);
    var left, x, right := b[..k], b[k], b[k + 1..];
    CountWhereConcat(left + [x], right, p);
    CountWhereConcat(left, [x], p);
    CountWhereConcat(left, right, p);
    assert CountWhere([x], p) == (if p(x) then 1 else 0) by {
      assert [x][..0] == [];
    }
  }

  /** The last element of `a` occurs in `b` at some `k`; removing it from
      both keeps the multisets equal. */
  lemma MatchLast<T>(a: seq<T>, b: seq<T>) returns (k: nat)
    requires |a| > 0 && multiset(a) == multiset(b)
    ensures k < |b| && b[k] == a[|a| - 1]
    ensures multiset(a[..|a| - 1]) == multiset(b[..k] + b[k + 1..])
  {
    var x := a[|a| - 1];
    assert a == a[..|a| - 1] + [x];
    assert x in multiset(b);
    k :| 0 <= k < |b| && b[k] == x;
    RemoveAt(b, k);
  }

  /** Membership in a non-empty sequence: in the front or the last element. */
  lemma InFrontOrLast<T>(s: seq<T>, x: T)
    requires |s| > 0
    ensures x in s <==> x in s[..|s| - 1] || x == s[|s| - 1]
  {
    assert s == s[..|s| - 1] + [s[|s| - 1]];
  }

  /** A sum over a sequence does not depend on the order of its elements. */
  lemma {:induction false} SumOverPermutation<T>(a: seq<T>, b: seq<T>, f: T -> real)
    requires multiset(a) == multiset(b)
    ensures SumOver(a, f) == SumOver(b, f)
    decreases |a|
  {
    if |a| > 0 {
      var k := MatchLast(a, b);
      SumOverPermutation(a[..|a| - 1], b[..k] + b[k + 1..], f);
      SumOverRemove(b, k, f);
    } else {
      assert |b| == |multiset(b)| == 0;
    }
  }

  /** A count over a sequence does not depend on the order of its elements. */
  lemma {:induction false} CountWherePermutation<T>(a: seq<T>, b: seq<T>, p: T -> bool)
    requires multiset(a) == multiset(b)
    ensures CountWhere(a, p) == CountWhere(b, p)
    decreases |a|
  {
    if |a| > 0 {
      var k := MatchLast(a, b);
      CountWherePermutation(a[..|a| - 1], b[..k] + b[k + 1..], p);
      CountWhereRemove(b, k, p);
    } else {
      assert |b| == |multiset(b)| == 0;
    }
  }

  /** In a sequence without repetitions every value occurs at most once. */
  lemma {:induction false} DistinctMultiplicity<T>(s: seq<T>, x: T)
    requires Distinct(s)
    ensures multiset(s)[x] <= 1
  {
    if |s| > 0 {
      var s' := s[..|s| - 1];
      assert s == s' + [s[|s| - 1]];
      DistinctMultiplicity(s', x);
      if s[|s| - 1] == x {
        assert x !in s';
      }
    }
  }

  /** A permutation of a sequence without repetitions has none either. */
  lemma DistinctPermutation<T>(a: seq<T>, b: seq<T>)
    requires Distinct(a)
    requires multiset(a) == multiset(b)
    ensures Distinct(b)
  {
    forall i, j | 0 <= i < j < |b|
      ensures b[i] != b[j]
    {
      DistinctMultiplicity(a, b[i]);
      RepeatCounted(b, i, j);
    }
  }

  lemma RepeatCounted<T>(b: seq<T>, i: nat, j: nat)
    requires i < j < |b|
    ensures b[i] == b[j] ==> multiset(b)[b[i]] >= 2
  {
    assert b == b[..j] + [b[j]] + b[j + 1..];
    assert b[i] in multiset(b[..j]);
  }

  /** The mean of integers in [lo, hi] lies in [lo, hi]. */
  lemma MeanIntBounds(s: seq<int>, lo: int, hi: int)
    requires |s| > 0
    requires forall k :: 0 <= k < |s| ==> lo <= s[k] <= hi
    ensures lo as real <= MeanInt(s) <= hi as real
  {
    IntSumBounds(s, lo, hi);
    QuotientBounds(Sum(s) as real, |s| as real, lo as real, hi as real);
  }

  lemma {:induction false} IntSumBounds(s: seq<int>, lo: int, hi: int)
    requires forall k :: 0 <= k < |s| ==> lo <= s[k] <= hi
    ensures (|s| as real) * (lo as real) <= Sum(s) as real <= (|s| as real) * (hi as real)
  {
    if |s| > 0 {
      var n := |s| - 1;
      IntSumBounds(s[..n], lo, hi);
      RealBoundsStep(n as real, Sum(s[..n]) as real, s[n] as real, lo as real, hi as real);
    }
  }

  /** A weaker test is met at least as often. */
  lemma {:induction false} CountWhereImplies<T>(s: seq<T>, p: T -> bool, q: T -> bool)
    requires forall k :: 0 <= k < |s| ==> p(s[k]) ==> q(s[k])
    ensures CountWhere(s, p) <= CountWhere(s, q)
  {
    if |s| > 0 {
      CountWhereImplies(s[..|s| - 1], p, q);
    }
  }

  /** `dict.get` on an association list: the value of the first entry with key `k`. */
  function Lookup<K(==), V>(s: seq<(K, V)>, k: K): (r: Option<V>)
    ensures r.None? <==> forall i :: 0 <= i < |s| ==> s[i].0 != k
    ensures r.Some? ==> exists i :: 0 <= i < |s| && s[i] == (k, r.value) && forall j :: 0 <= j < i ==> s[j].0 != k
    decreases |s|
  {
    if |s| == 0 then None
    else if s[0].0 == k then Some(s[0].1)
    else Lookup(s[1..], k)
  }

  /** Looking up a key in a list whose every value is `f` of its key;
      `present` says whether the key occurs. */
  lemma LookupByKey<K, V>(s: seq<(K, V)>, k: K, f: K -> V, present: bool)
    requires forall i :: 0 <= i < |s| ==> s[i].1 == f(s[i].0)
    requires (exists i :: 0 <= i < |s| && s[i].0 == k) <==> present
    ensures Lookup(s, k) == if present then Some(f(k)) else None
  {
    var r := Lookup(s, k);
    if r.Some? {
      var i :| 0 <= i < |s| && s[i] == (k, r.value) && forall j :: 0 <= j < i ==> s[j].0 != k;
      assert s[i].1 == f(s[i].0);
    }
  }

  /** Python's `min(a, b)` on integers. */
  function Min(a: int, b: int): int
  {
    if a <= b then a else b
  }

  /** The smallest element of a non-empty sequence. */
  function Least(s: seq<nat>): (r: nat)
    requires |s| > 0
    ensures exists k :: 0 <= k < |s| && s[k] == r
    ensures forall k :: 0 <= k < |s| ==> r <= s[k]
  {
    if |s| == 1 then s[0]
    else
      var front := Least(s[..|s| - 1]);
      if s[|s| - 1] < front then s[|s| - 1] else front
  }

  /** The largest element of a non-empty sequence. */
  function Greatest(s: seq<nat>): (r: nat)
    requires |s| > 0
    ensures exists k :: 0 <= k < |s| && s[k] == r
    ensures forall k :: 0 <= k < |s| ==> s[k] <= r
  {
    if |s| == 1 then s[0]
    else
      var front := Greatest(s[..|s| - 1]);
      if front < s[|s| - 1] then s[|s| - 1] else front
  }
}
