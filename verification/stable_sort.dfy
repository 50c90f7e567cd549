/** Python's `list.sort` / `sorted` as used throughout the system: a stable
    sort by a key, ascending, or descending with `reverse=True` (which in
    Python still keeps equal keys in their original order). Both are
    captured by one insertion sort over a total preorder `le`, where
    `le(a, b)` means "a may come before b": ascending by key is
    `key(a) <= key(b)`, `reverse=True` is `key(a) >= key(b)`. */
module StableSort {

  /** `le` is total and transitive: a total preorder. */
  ghost predicate TotalPreorder<T(!new)>(le: (T, T) -> bool)
  {
    && (forall x, y :: le(x, y) || le(y, x))
    && (forall x, y, z :: le(x, y) && le(y, z) ==> le(x, z))
  }

  /** Every element may come before every later element. */
  predicate Sorted<T>(s: seq<T>, le: (T, T) -> bool)
  {
    forall i, j :: 0 <= i < j < |s| ==> le(s[i], s[j])
  }

  /** `a` and `b` tie: neither must come strictly before the other. */
  predicate Tie<T>(le: (T, T) -> bool, a: T, b: T)
  {
    le(a, b) && le(b, a)
  }

  /** Every pair of tied elements of `r` appears in the same relative order somewhere in `s`. */
  ghost predicate KeepsTieOrder<T>(s: seq<T>, r: seq<T>, le: (T, T) -> bool)
  {
    forall i, j :: 0 <= i < j < |r| && Tie(le, r[i], r[j]) ==>
      exists a, b :: 0 <= a < b < |s| && s[a] == r[i] && s[b] == r[j]
  }

  /** Insert `x` in front of the first element it may precede. */
  function Insert<T>(x: T, s: seq<T>, le: (T, T) -> bool): (r: seq<T>)
    ensures |r| == |s| + 1
    ensures multiset(r) == multiset(s) + multiset{x}
  {
    if |s| == 0 || le(x, s[0]) then [x] + s
    else
      var rest := Insert(x, s[1..], le);
      assert s == [s[0]] + s[1..];
      [s[0]] + rest
  }

  /** Stable insertion sort: the result is a permutation of the input. */
  function SortBy<T>(s: seq<T>, le: (T, T) -> bool): (r: seq<T>)
    ensures |r| == |s|
    ensures multiset(r) == multiset(s)
  {
    if |s| == 0 then []
    else
      var rest := SortBy(s[1..], le);
      assert s == [s[0]] + s[1..];
      Insert(s[0], rest, le)
  }

  lemma {:induction false} InsertSorted<T(!new)>(x: T, s: seq<T>, le: (T, T) -> bool)
    requires TotalPreorder(le)
    requires Sorted(s, le)
    ensures Sorted(Insert(x, s, le), le)
  {
    if |s| == 0 || le(x, s[0]) {
    } else {
      var rest := Insert(x, s[1..], le);
      InsertSorted(x, s[1..], le);
      forall k | 0 <= k < |rest|
        ensures le(s[0], rest[k])
      {
        assert rest[k] in multiset(rest);
        if rest[k] != x {
          assert rest[k] in multiset(s[1..]);
          var j :| 0 <= j < |s[1..]| && s[1..][j] == rest[k];
          assert s[j + 1] == rest[k];
        }
      }
    }
  }

  /** With a total preorder, the sorted result is ordered. */
  lemma {:induction false} SortSorted<T(!new)>(s: seq<T>, le: (T, T) -> bool)
    requires TotalPreorder(le)
    ensures Sorted(SortBy(s, le), le)
  {
    if |s| > 0 {
      SortSorted(s[1..], le);
      InsertSorted(s[0], SortBy(s[1..], le), le);
    }
  }

  /** `Insert` places `x` at some point `p`; everything before `p` is strictly below `x`. */
  lemma {:induction false} InsertShape<T>(x: T, s: seq<T>, le: (T, T) -> bool)
    returns (p: nat)
    ensures p <= |s|
    ensures Insert(x, s, le)[p] == x
    ensures forall k :: 0 <= k < p ==> Insert(x, s, le)[k] == s[k] && !le(x, s[k])
    ensures forall k :: p < k <= |s| ==> Insert(x, s, le)[k] == s[k - 1]
  {
    if |s| == 0 || le(x, s[0]) {
      p := 0;
    } else {
      var q := InsertShape(x, s[1..], le);
      p := q + 1;
    }
  }

  lemma InsertKeepsTieOrder<T>(x: T, s: seq<T>, t: seq<T>, le: (T, T) -> bool)
    requires KeepsTieOrder(s, t, le)
    requires forall k :: 0 <= k < |t| ==> t[k] in s
    ensures KeepsTieOrder([x] + s, Insert(x, t, le), le)
  {
    var r := Insert(x, t, le);
    var p := InsertShape(x, t, le);
    forall i, j | 0 <= i < j < |r| && Tie(le, r[i], r[j])
      ensures exists a, b :: 0 <= a < b < |[x] + s| && ([x] + s)[a] == r[i] && ([x] + s)[b] == r[j]
    {
      if i == p {
        InsertedFirst(x, s, t[j - 1]);
      } else if j == p {
        assert false;
      } else {
        var i' := if i < p then i else i - 1;
        var j' := if j < p then j else j - 1;
        TiedPairShifts(x, s, t, le, i', j');
      }
    }
  }

  lemma InsertedFirst<T>(x: T, s: seq<T>, y: T)
    requires y in s
    ensures exists a, b :: 0 <= a < b < |[x] + s| && ([x] + s)[a] == x && ([x] + s)[b] == y
  {
    var b :| 0 <= b < |s| && s[b] == y;
    assert ([x] + s)[0] == x && ([x] + s)[b + 1] == y;
  }

  lemma TiedPairShifts<T>(x: T, s: seq<T>, t: seq<T>, le: (T, T) -> bool, i: nat, j: nat)
    requires KeepsTieOrder(s, t, le)
    requires i < j < |t| && Tie(le, t[i], t[j])
    ensures exists a, b :: 0 <= a < b < |[x] + s| && ([x] + s)[a] == t[i] && ([x] + s)[b] == t[j]
  {
    var a, b :| 0 <= a < b < |s| && s[a] == t[i] && s[b] == t[j];
    assert ([x] + s)[a + 1] == t[i] && ([x] + s)[b + 1] == t[j];
  }

  /** Stability: tied elements leave the sort in the order they came in. */
  lemma {:induction false} SortKeepsTieOrder<T>(s: seq<T>, le: (T, T) -> bool)
    ensures KeepsTieOrder(s, SortBy(s, le), le)
  {
    if |s| > 0 {
      var t := SortBy(s[1..], le);
      SortKeepsTieOrder(s[1..], le);
      forall k | 0 <= k < |t|
        ensures t[k] in s[1..]
      {
        assert t[k] in multiset(t);
      }
      InsertKeepsTieOrder(s[0], s[1..], t, le);
      assert [s[0]] + s[1..] == s;
    }
  }

  /** Apply `f` to every element. */
  function MapSeq<A, B>(s: seq<A>, f: A -> B): (r: seq<B>)
    ensures |r| == |s|
    ensures forall k :: 0 <= k < |s| ==> r[k] == f(s[k])
  {
    if |s| == 0 then [] else [f(s[0])] + MapSeq(s[1..], f)
  }

  /** Mapping distributes over concatenation. */
  lemma MapConcat<A, B>(a: seq<A>, b: seq<A>, f: A -> B)
    ensures MapSeq(a + b, f) == MapSeq(a, f) + MapSeq(b, f)
  {
  }

  /** Mapping and appending one element commute. */
  lemma MapSnoc<A, B>(s: seq<A>, x: A, f: A -> B)
    ensures MapSeq(s + [x], f) == MapSeq(s, f) + [f(x)]
  {
    MapConcat(s, [x], f);
    assert MapSeq([x], f) == [f(x)];
  }

  /** Mapping and taking a prefix commute. */
  lemma MapPrefix<A, B>(s: seq<A>, n: nat, f: A -> B)
    requires n <= |s|
    ensures MapSeq(s, f)[..n] == MapSeq(s[..n], f)
  {
  }

  /** A sequence is the part before `k`, its element at `k`, and the part after. */
  lemma SplitAt<T>(b: seq<T>, k: nat)
    requires k < |b|
    ensures b == b[..k] + [b[k]] + b[k + 1..]
  {
  }

  /** Mapping a sequence split around position `k`. */
  lemma MapSplit<A, B>(b: seq<A>, k: nat, f: A -> B)
    requires k < |b|
    ensures MapSeq(b, f) == MapSeq(b[..k], f) + [f(b[k])] + MapSeq(b[k + 1..], f)
  {
    var left, x, right := b[..k], b[k], b[k + 1..];
    SplitAt(b, k);
    MapConcat(left + [x], right, f);
    MapConcat(left, [x], f);
    assert MapSeq([x], f) == [f(x)];
  }

  /** Removing element `k` before mapping removes its image from the multiset. */
  lemma MapRemove<A, B>(b: seq<A>, k: nat, f: A -> B)
    requires k < |b|
    ensures multiset(MapSeq(b, f)) == multiset{f(b[k])} + multiset(MapSeq(b[..k] + b[k + 1..], f))
  {
    MapSplit(b, k, f);
    MapConcat(b[..k], b[k + 1..], f);
    var front, back := MapSeq(b[..k], f), MapSeq(b[k + 1..], f);
    assert multiset(front + [f(b[k])] + back) == multiset{f(b[k])} + (multiset(front) + multiset(back));
  }

  /** Removing element `k` removes one occurrence of it from the multiset. */
  lemma MultisetRemove<T>(b: seq<T>, k: nat)
    requires k < |b|
    ensures multiset(b[..k] + b[k + 1..]) == multiset(b) - multiset{b[k]}
  {
    SplitAt(b, k);
    assert multiset(b) == multiset(b[..k]) + multiset{b[k]} + multiset(b[k + 1..]);
  }

  /** Mapping sequences with the same elements gives sequences with the same elements. */
  lemma {:induction false} MapPermutation<A, B>(a: seq<A>, b: seq<A>, f: A -> B)
    requires multiset(a) == multiset(b)
    ensures multiset(MapSeq(a, f)) == multiset(MapSeq(b, f))
    decreases |a|
  {
    if |a| > 0 {
      var x, rest := a[0], a[1..];
      assert a == [x] + rest;
      assert multiset(rest) == multiset(a) - multiset{x};
      assert x in multiset(b);
      var k :| 0 <= k < |b| && b[k] == x;
      MultisetRemove(b, k);
      MapPermutation(rest, b[..k] + b[k + 1..], f);
      MapRemove(b, k, f);
      assert MapSeq(a, f) == [f(x)] + MapSeq(rest, f);
      assert multiset(MapSeq(a, f)) == multiset{f(x)} + multiset(MapSeq(rest, f));
      assert multiset(MapSeq(rest, f)) == multiset(MapSeq(b[..k] + b[k + 1..], f));
    } else {
      assert |b| == |multiset(b)| == |multiset(a)| == 0;
      assert MapSeq(a, f) == [] == MapSeq(b, f);
    }
  }

  /** `le2` on images agrees with `le1` on the elements of `s` and `x`. */
  ghost predicate Agree<A, B>(s: seq<A>, f: A -> B, le1: (A, A) -> bool, le2: (B, B) -> bool)
  {
    forall i, j :: 0 <= i < |s| && 0 <= j < |s| ==> le2(f(s[i]), f(s[j])) == le1(s[i], s[j])
  }

  lemma {:induction false} InsertMap<A, B>(x: A, t: seq<A>, f: A -> B, le1: (A, A) -> bool, le2: (B, B) -> bool)
    requires Agree([x] + t, f, le1, le2)
    ensures Insert(f(x), MapSeq(t, f), le2) == MapSeq(Insert(x, t, le1), f)
  {
    if |t| == 0 {
    } else {
      assert le2(f(([x] + t)[0]), f(([x] + t)[1])) == le1(([x] + t)[0], ([x] + t)[1]);
      if le1(x, t[0]) {
      } else {
        var xt := [x] + t[1..];
        assert Agree(xt, f, le1, le2) by {
          forall i, j | 0 <= i < |xt| && 0 <= j < |xt|
            ensures le2(f(xt[i]), f(xt[j])) == le1(xt[i], xt[j])
          {
            var i' := if i == 0 then 0 else i + 1;
            var j' := if j == 0 then 0 else j + 1;
            assert xt[i] == ([x] + t)[i'] && xt[j] == ([x] + t)[j'];
          }
        }
        InsertMap(x, t[1..], f, le1, le2);
        assert MapSeq(t, f)[1..] == MapSeq(t[1..], f);
      }
    }
  }

  /** Sorting commutes with a map that preserves the ordering relation:
      sorting images by `le2` is the image of sorting by `le1`. */
  lemma {:induction false} SortMap<A, B>(s: seq<A>, f: A -> B, le1: (A, A) -> bool, le2: (B, B) -> bool)
    requires Agree(s, f, le1, le2)
    ensures SortBy(MapSeq(s, f), le2) == MapSeq(SortBy(s, le1), f)
  {
    if |s| > 0 {
      var tail := s[1..];
      assert Agree(tail, f, le1, le2) by {
        forall i, j | 0 <= i < |tail| && 0 <= j < |tail|
          ensures le2(f(tail[i]), f(tail[j])) == le1(tail[i], tail[j])
        {
          assert tail[i] == s[i + 1] && tail[j] == s[j + 1];
        }
      }
      SortMap(tail, f, le1, le2);
      assert MapSeq(s, f)[1..] == MapSeq(tail, f);
      var t := SortBy(tail, le1);
      HeadAndSortedTailFromS(s, le1);
      AgreeOnSubset(s, [s[0]] + t, f, le1, le2);
      InsertMap(s[0], t, f, le1, le2);
    }
  }

  lemma HeadAndSortedTailFromS<T>(s: seq<T>, le: (T, T) -> bool)
    requires |s| > 0
    ensures forall k :: 0 <= k < |[s[0]] + SortBy(s[1..], le)| ==>
      exists m :: 0 <= m < |s| && ([s[0]] + SortBy(s[1..], le))[k] == s[m]
  {
    var t := SortBy(s[1..], le);
    var u := [s[0]] + t;
    forall k | 0 <= k < |u|
      ensures exists m :: 0 <= m < |s| && u[k] == s[m]
    {
      if k > 0 {
        assert t[k - 1] in multiset(t);
        assert t[k - 1] in multiset(s[1..]);
        var m :| 0 <= m < |s[1..]| && s[1..][m] == t[k - 1];
        assert u[k] == s[m + 1];
      } else {
        assert u[k] == s[0];
      }
    }
  }

  lemma AgreeOnSubset<A, B>(s: seq<A>, u: seq<A>, f: A -> B, le1: (A, A) -> bool, le2: (B, B) -> bool)
    requires Agree(s, f, le1, le2)
    requires forall k :: 0 <= k < |u| ==> exists m :: 0 <= m < |s| && u[k] == s[m]
    ensures Agree(u, f, le1, le2)
  {
    forall i, j | 0 <= i < |u| && 0 <= j < |u|
      ensures le2(f(u[i]), f(u[j])) == le1(u[i], u[j])
    {
      var mi :| 0 <= mi < |s| && u[i] == s[mi];
      var mj :| 0 <= mj < |s| && u[j] == s[mj];
    }
  }

  /** Sorting an already ordered sequence leaves it unchanged. */
  lemma {:induction false} SortOfSorted<T>(s: seq<T>, le: (T, T) -> bool)
    requires Sorted(s, le)
    ensures SortBy(s, le) == s
  {
    if |s| > 0 {
      SortOfSorted(s[1..], le);
      assert [s[0]] + s[1..] == s;
    }
  }
}
