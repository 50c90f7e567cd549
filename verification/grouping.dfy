/** Grouping a sequence by a key in order of first appearance: the
    `defaultdict(list)` accumulation loop the system uses for rank
    positions and for analytics counters. A Python dict keeps insertion
    order, so the groups are an association list. */
module Grouping {
  import opened Common

  /** The elements of `s` whose key is `k`, in order. */
  function Select<T, K(==)>(s: seq<T>, key: T -> K, k: K): (r: seq<T>)
    ensures |r| <= |s|
    ensures forall i :: 0 <= i < |r| ==> key(r[i]) == k
    ensures forall i :: 0 <= i < |r| ==> r[i] in s
  {
    if |s| == 0 then []
    else
      var front := Select(s[..|s| - 1], key, k);
      if key(s[|s| - 1]) == k then front + [s[|s| - 1]] else front
  }

  /** Append `x` to the group for `k`, opening a new group at the end if there is none. */
  function AddTo<T, K(==)>(g: seq<(K, seq<T>)>, k: K, x: T): (r: seq<(K, seq<T>)>)
    ensures |r| == |g| || |r| == |g| + 1
  {
    if |g| == 0 then [(k, [x])]
    else if g[0].0 == k then [(k, g[0].1 + [x])] + g[1..]
    else [g[0]] + AddTo(g[1..], k, x)
  }

  /** The loop `for x in s: groups[key(x)].append(x)`. */
  function Group<T, K(==)>(s: seq<T>, key: T -> K): seq<(K, seq<T>)>
  {
    if |s| == 0 then []
    else AddTo(Group(s[..|s| - 1], key), key(s[|s| - 1]), s[|s| - 1])
  }

  /** Keys of `s`, in order. */
  function Keys<T, K>(s: seq<T>, key: T -> K): (r: seq<K>)
    ensures |r| == |s|
    ensures forall i :: 0 <= i < |s| ==> r[i] == key(s[i])
  {
    if |s| == 0 then [] else Keys(s[..|s| - 1], key) + [key(s[|s| - 1])]
  }

  /** Reference shape of a grouping: one group per key in `d`, holding the selected elements. */
  function Buckets<T, K(==)>(d: seq<K>, s: seq<T>, key: T -> K): (r: seq<(K, seq<T>)>)
    ensures |r| == |d|
    ensures forall i :: 0 <= i < |d| ==> r[i] == (d[i], Select(s, key, d[i]))
  {
    if |d| == 0 then [] else [(d[0], Select(s, key, d[0]))] + Buckets(d[1..], s, key)
  }

  lemma SelectAppend<T, K>(s: seq<T>, x: T, key: T -> K, k: K)
    ensures Select(s + [x], key, k) == if key(x) == k then Select(s, key, k) + [x] else Select(s, key, k)
  {
    assert (s + [x])[..|s|] == s;
  }

  lemma {:induction false} SelectConcat<T, K>(a: seq<T>, b: seq<T>, key: T -> K, k: K)
    ensures Select(a + b, key, k) == Select(a, key, k) + Select(b, key, k)
    decreases |b|
  {
    if |b| == 0 {
      assert a + b == a;
    } else {
      var b' := b[..|b| - 1];
      var x := b[|b| - 1];
      assert a + b == (a + b') + [x];
      assert b == b' + [x];
      SelectAppend(a + b', x, key, k);
      SelectAppend(b', x, key, k);
      SelectConcat(a, b', key, k);
    }
  }

  /** A key has a non-empty selection exactly when some element carries it. */
  lemma {:induction false} SelectNonEmpty<T, K>(s: seq<T>, key: T -> K, k: K)
    ensures |Select(s, key, k)| > 0 <==> exists i :: 0 <= i < |s| && key(s[i]) == k
  {
    if |s| > 0 {
      var s' := s[..|s| - 1];
      SelectNonEmpty(s', key, k);
      if exists i :: 0 <= i < |s'| && key(s'[i]) == k {
        var i :| 0 <= i < |s'| && key(s'[i]) == k;
        assert s[i] == s'[i];
      }
      if exists i :: 0 <= i < |s| && key(s[i]) == k {
        var i :| 0 <= i < |s| && key(s[i]) == k;
        if i < |s'| {
          assert s'[i] == s[i];
        }
      }
    }
  }

  /** The distinct keys of `s` are exactly the keys with a non-empty group. */
  lemma KeysInDedup<T, K>(s: seq<T>, key: T -> K, k: K)
    ensures k in Dedup(Keys(s, key)) <==> |Select(s, key, k)| > 0
  {
    SelectNonEmpty(s, key, k);
    var ks := Keys(s, key);
    if k in Dedup(ks) {
      var j :| 0 <= j < |ks| && ks[j] == k;
      assert key(s[j]) == k;
    }
    if |Select(s, key, k)| > 0 {
      var i :| 0 <= i < |s| && key(s[i]) == k;
      assert ks[i] == k;
    }
  }

  lemma {:induction false} SelectNone<T, K>(s: seq<T>, key: T -> K, k: K)
    requires forall i :: 0 <= i < |s| ==> key(s[i]) != k
    ensures Select(s, key, k) == []
  {
    if |s| > 0 {
      SelectNone(s[..|s| - 1], key, k);
    }
  }

  lemma {:induction false} AddToBuckets<T, K>(d: seq<K>, s: seq<T>, x: T, key: T -> K)
    requires Distinct(d)
    ensures AddTo(Buckets(d, s, key), key(x), x) ==
      if key(x) in d then Buckets(d, s + [x], key)
      else Buckets(d, s + [x], key) + [(key(x), [x])]
  {
    SelectAppend(s, x, key, key(x));
    if |d| == 0 {
    } else {
      SelectAppend(s, x, key, d[0]);
      if d[0] == key(x) {
        assert key(x) !in d[1..];
        BucketsUnchanged(d[1..], s, x, key);
      } else {
        AddToBuckets(d[1..], s, x, key);
      }
    }
  }

  lemma BucketsUnchanged<T, K>(d: seq<K>, s: seq<T>, x: T, key: T -> K)
    requires key(x) !in d
    ensures Buckets(d, s + [x], key) == Buckets(d, s, key)
  {
    forall i | 0 <= i < |d|
      ensures Select(s + [x], key, d[i]) == Select(s, key, d[i])
    {
      SelectAppend(s, x, key, d[i]);
    }
  }

  /** The fold builds exactly one group per distinct key, in order of first
      appearance, and each group holds every element with that key, in order. */
  lemma {:induction false} GroupSpec<T, K>(s: seq<T>, key: T -> K)
    ensures Group(s, key) == Buckets(Dedup(Keys(s, key)), s, key)
  {
    if |s| > 0 {
      var s' := s[..|s| - 1];
      var x := s[|s| - 1];
      assert s == s' + [x];
      GroupSpec(s', key);
      KeysSnoc(s, key);
      var d := Dedup(Keys(s', key));
      DedupDistinct(Keys(s', key));
      AddToBuckets(d, s', x, key);
      if key(x) !in d {
        NewKeyGroup(s', x, key);
        BucketsSnoc(d, key(x), s, key);
      }
    }
  }

  lemma KeysSnoc<T, K>(s: seq<T>, key: T -> K)
    requires |s| > 0
    ensures Keys(s, key)[..|s| - 1] == Keys(s[..|s| - 1], key)
  {
  }

  lemma NewKeyGroup<T, K>(s: seq<T>, x: T, key: T -> K)
    requires key(x) !in Dedup(Keys(s, key))
    ensures Select(s + [x], key, key(x)) == [x]
  {
    forall i | 0 <= i < |s|
      ensures key(s[i]) != key(x)
    {
      assert Keys(s, key)[i] == key(s[i]);
    }
    SelectNone(s, key, key(x));
    SelectAppend(s, x, key, key(x));
  }

  lemma BucketsSnoc<T, K>(d: seq<K>, k: K, s: seq<T>, key: T -> K)
    ensures Buckets(d + [k], s, key) == Buckets(d, s, key) + [(k, Select(s, key, k))]
  {
  }

  lemma DedupDistinct<T>(s: seq<T>)
    ensures Distinct(Dedup(s))
  {
  }

  /** The total of a count taken group by group. */
  function SumCounts<T, K>(g: seq<(K, seq<T>)>, p: T -> bool): nat
  {
    if |g| == 0 then 0 else CountWhere(g[0].1, p) + SumCounts(g[1..], p)
  }

  lemma CountAppend<T>(s: seq<T>, x: T, p: T -> bool)
    ensures CountWhere(s + [x], p) == CountWhere(s, p) + (if p(x) then 1 else 0)
  {
    assert (s + [x])[..|s|] == s;
  }

  lemma {:induction false} SumCountsAddTo<T, K>(g: seq<(K, seq<T>)>, k: K, x: T, p: T -> bool)
    ensures SumCounts(AddTo(g, k, x), p) == SumCounts(g, p) + (if p(x) then 1 else 0)
  {
    if |g| == 0 {
      CountAppend([], x, p);
    } else if g[0].0 == k {
      CountAppend(g[0].1, x, p);
      assert ([(k, g[0].1 + [x])] + g[1..])[1..] == g[1..];
    } else {
      SumCountsAddTo(g[1..], k, x, p);
      assert ([g[0]] + AddTo(g[1..], k, x))[1..] == AddTo(g[1..], k, x);
    }
  }

  /** Counting over every group gives the count over the whole input:
      no element is lost or counted twice by the grouping. */
  lemma {:induction false} GroupCounts<T, K>(s: seq<T>, key: T -> K, p: T -> bool)
    ensures SumCounts(Group(s, key), p) == CountWhere(s, p)
  {
    if |s| > 0 {
      GroupCounts(s[..|s| - 1], key, p);
      SumCountsAddTo(Group(s[..|s| - 1], key), key(s[|s| - 1]), s[|s| - 1], p);
    }
  }

  /* ---------------- Per-key accumulators (`defaultdict(lambda: {...})`) ---------------- */

  /** Fold `step` over `s` from `init`, left to right. */
  function Steps<S, T>(s: seq<T>, init: S, step: (S, T) -> S): S
  {
    if |s| == 0 then init else step(Steps(s[..|s| - 1], init, step), s[|s| - 1])
  }

  /** Update the accumulator of key `k` with `x`, opening it at `init` when the key is new. */
  function Bump<K(==), S, T>(acc: seq<(K, S)>, k: K, x: T, init: S, step: (S, T) -> S): (r: seq<(K, S)>)
    ensures |r| == |acc| || |r| == |acc| + 1
  {
    if |acc| == 0 then [(k, step(init, x))]
    else if acc[0].0 == k then [(k, step(acc[0].1, x))] + acc[1..]
    else [acc[0]] + Bump(acc[1..], k, x, init, step)
  }

  /** The loop `for x in s: update(acc[key(x)], x)` over a defaultdict. */
  function Tally<T, K(==), S>(s: seq<T>, key: T -> K, init: S, step: (S, T) -> S): seq<(K, S)>
  {
    if |s| == 0 then []
    else Bump(Tally(s[..|s| - 1], key, init, step), key(s[|s| - 1]), s[|s| - 1], init, step)
  }

  /** Each group folded on its own. */
  function Summaries<K, T, S>(g: seq<(K, seq<T>)>, init: S, step: (S, T) -> S): (r: seq<(K, S)>)
    ensures |r| == |g|
    ensures forall i :: 0 <= i < |g| ==> r[i] == (g[i].0, Steps(g[i].1, init, step))
  {
    if |g| == 0 then [] else [(g[0].0, Steps(g[0].1, init, step))] + Summaries(g[1..], init, step)
  }

  lemma {:induction false} BumpSummaries<K, T, S>(g: seq<(K, seq<T>)>, k: K, x: T, init: S, step: (S, T) -> S)
    ensures Bump(Summaries(g, init, step), k, x, init, step) == Summaries(AddTo(g, k, x), init, step)
  {
    if |g| == 0 {
      assert [x][..0] == [];
      assert Steps([x], init, step) == step(init, x);
    } else if g[0].0 == k {
      assert (g[0].1 + [x])[..|g[0].1|] == g[0].1;
      assert Summaries(g, init, step)[1..] == Summaries(g[1..], init, step);
    } else {
      BumpSummaries(g[1..], k, x, init, step);
      assert Summaries(g, init, step)[1..] == Summaries(g[1..], init, step);
    }
  }

  /** Updating accumulators in place gives, key by key, the fold of that key's group. */
  lemma {:induction false} TallyGroups<T, K, S>(s: seq<T>, key: T -> K, init: S, step: (S, T) -> S)
    ensures Tally(s, key, init, step) == Summaries(Group(s, key), init, step)
  {
    if |s| > 0 {
      TallyGroups(s[..|s| - 1], key, init, step);
      BumpSummaries(Group(s[..|s| - 1], key), key(s[|s| - 1]), s[|s| - 1], init, step);
    }
  }

  /** Hence one accumulator per distinct key, in order of first appearance,
      each the fold of exactly the elements with that key. */
  /** A key has a tally exactly when some element carries it. */
  lemma TallyKeys<T, K, S>(s: seq<T>, key: T -> K, init: S, step: (S, T) -> S, k: K)
    ensures (exists i :: 0 <= i < |Tally(s, key, init, step)| && Tally(s, key, init, step)[i].0 == k) <==>
      exists j :: 0 <= j < |s| && key(s[j]) == k
  {
    TallySpec(s, key, init, step);
    KeysInDedup(s, key, k);
    SelectNonEmpty(s, key, k);
    var d := Dedup(Keys(s, key));
    if k in d {
      var i :| 0 <= i < |d| && d[i] == k;
      assert Tally(s, key, init, step)[i].0 == k;
    }
  }

  lemma TallySpec<T, K, S>(s: seq<T>, key: T -> K, init: S, step: (S, T) -> S)
    ensures |Tally(s, key, init, step)| == |Dedup(Keys(s, key))|
    ensures forall i :: 0 <= i < |Dedup(Keys(s, key))| ==>
      Tally(s, key, init, step)[i] == (Dedup(Keys(s, key))[i], Steps(Select(s, key, Dedup(Keys(s, key))[i]), init, step))
  {
    TallyGroups(s, key, init, step);
    GroupSpec(s, key);
  }
}
