/** Aggregate ranking of the council: every judge's parsed ranking gives
    each model it names a 1-based position; positions are collected per
    model in order of first vote (a `defaultdict(list)`), averaged, and the
    models are sorted by average rank, best (lowest) first.

    The weighted variant scales every position by the judge's weight and
    divides the weighted total by the total weight, keeping only models
    whose total weight is positive.

    Reference definitions (`AllPositions`, `WeightedScore`, `WeightedTotal`)
    compute the same quantities model by model, straight from the rankings,
    and the lemmas tie the grouped fold to them. */
module Aggregation {
  import opened Common
  import opened StableSort
  import opened Grouping

  /** One position given to a model by one judge, with the judge's weight. */
  datatype Vote = Vote(model: string, position: nat, weight: real)

  function VoteModel(v: Vote): string
  {
    v.model
  }

  /** Positions (1-based) in `parsed` of labels that the label map sends to `m`. */
  function PositionsIn(parsed: seq<string>, lm: map<string, string>, m: string): (r: seq<nat>)
    ensures |r| <= |parsed|
    ensures forall k :: 0 <= k < |r| ==> 1 <= r[k] <= |parsed|
  {
    if |parsed| == 0 then []
    else
      var n := |parsed|;
      var front := PositionsIn(parsed[..n - 1], lm, m);
      if parsed[n - 1] in lm && lm[parsed[n - 1]] == m then front + [n] else front
  }

  /** The ranking names `m` through some label (`model in [label_to_model.get(l) for l in parsed]`). */
  predicate Names(parsed: seq<string>, lm: map<string, string>, m: string)
  {
    exists k :: 0 <= k < |parsed| && parsed[k] in lm && lm[parsed[k]] == m
  }

  lemma {:induction false} PositionsInNonEmpty(parsed: seq<string>, lm: map<string, string>, m: string)
    ensures |PositionsIn(parsed, lm, m)| > 0 <==> Names(parsed, lm, m)
  {
    if |parsed| > 0 {
      var n := |parsed|;
      var front := parsed[..n - 1];
      PositionsInNonEmpty(front, lm, m);
      if Names(front, lm, m) {
        var k :| 0 <= k < |front| && front[k] in lm && lm[front[k]] == m;
        assert parsed[k] == front[k];
      }
      if Names(parsed, lm, m) && !(parsed[n - 1] in lm && lm[parsed[n - 1]] == m) {
        var k :| 0 <= k < |parsed| && parsed[k] in lm && lm[parsed[k]] == m;
        assert front[k] == parsed[k];
      }
    }
  }

  /** The votes of one ranking: `enumerate(parsed, start=1)`, skipping labels the map does not know. */
  function VotesFrom(parsed: seq<string>, lm: map<string, string>, w: real): (r: seq<Vote>)
    ensures forall k :: 0 <= k < |r| ==> r[k].weight == w
  {
    if |parsed| == 0 then []
    else
      var n := |parsed|;
      var front := VotesFrom(parsed[..n - 1], lm, w);
      if parsed[n - 1] in lm then front + [Vote(lm[parsed[n - 1]], n, w)] else front
  }

  function Positions(vs: seq<Vote>): (r: seq<nat>)
    ensures |r| == |vs|
    ensures forall k :: 0 <= k < |vs| ==> r[k] == vs[k].position
  {
    if |vs| == 0 then [] else Positions(vs[..|vs| - 1]) + [vs[|vs| - 1].position]
  }

  lemma PositionsConcat(a: seq<Vote>, b: seq<Vote>)
    ensures Positions(a + b) == Positions(a) + Positions(b)
  {
    assert |Positions(a + b)| == |Positions(a) + Positions(b)|;
  }

  /** The votes one ranking casts for `m` sit exactly at its positions of `m`. */
  lemma {:induction false} VotesPositions(parsed: seq<string>, lm: map<string, string>, w: real, m: string)
    ensures Positions(Select(VotesFrom(parsed, lm, w), VoteModel, m)) == PositionsIn(parsed, lm, m)
  {
    if |parsed| > 0 {
      var n := |parsed|;
      var front := VotesFrom(parsed[..n - 1], lm, w);
      VotesPositions(parsed[..n - 1], lm, w, m);
      if parsed[n - 1] in lm {
        var v := Vote(lm[parsed[n - 1]], n, w);
        SelectAppend(front, v, VoteModel, m);
        PositionsConcat(Select(front, VoteModel, m), [v]);
      }
    }
  }

  /** The models a ranking votes for do not depend on the weight attached. */
  lemma {:induction false} VotesKeys(parsed: seq<string>, lm: map<string, string>, w1: real, w2: real)
    ensures Keys(VotesFrom(parsed, lm, w1), VoteModel) == Keys(VotesFrom(parsed, lm, w2), VoteModel)
  {
    if |parsed| > 0 {
      VotesKeys(parsed[..|parsed| - 1], lm, w1, w2);
    }
  }

  /* ---------------- Unweighted aggregate (simple and reasoning-aware strategies) ---------------- */

  /** Every vote of every ranking, judge by judge. */
  function RankingsVotes(rankings: seq<seq<string>>, lm: map<string, string>): seq<Vote>
  {
    if |rankings| == 0 then []
    else RankingsVotes(rankings[..|rankings| - 1], lm) + VotesFrom(rankings[|rankings| - 1], lm, 1.0)
  }

  /** Length of the longest ranking. */
  function Longest(rankings: seq<seq<string>>): (n: nat)
    ensures forall k :: 0 <= k < |rankings| ==> |rankings[k]| <= n
  {
    if |rankings| == 0 then 0
    else
      var front := Longest(rankings[..|rankings| - 1]);
      var last := |rankings[|rankings| - 1]|;
      if front < last then last else front
  }

  /** Reference: every position `m` received, ranking by ranking. */
  function AllPositions(rankings: seq<seq<string>>, lm: map<string, string>, m: string): (r: seq<nat>)
    ensures forall k :: 0 <= k < |r| ==> 1 <= r[k] <= Longest(rankings)
  {
    if |rankings| == 0 then []
    else AllPositions(rankings[..|rankings| - 1], lm, m) + PositionsIn(rankings[|rankings| - 1], lm, m)
  }

  lemma {:induction false} RankingsPositions(rankings: seq<seq<string>>, lm: map<string, string>, m: string)
    ensures Positions(Select(RankingsVotes(rankings, lm), VoteModel, m)) == AllPositions(rankings, lm, m)
  {
    if |rankings| > 0 {
      var n := |rankings|;
      var front := RankingsVotes(rankings[..n - 1], lm);
      var last := VotesFrom(rankings[n - 1], lm, 1.0);
      RankingsPositions(rankings[..n - 1], lm, m);
      SelectConcat(front, last, VoteModel, m);
      PositionsConcat(Select(front, VoteModel, m), Select(last, VoteModel, m));
      VotesPositions(rankings[n - 1], lm, 1.0, m);
    }
  }

  /** One aggregate entry: `{"model", "average_rank", "rankings_count"}`. */
  datatype Ranked = Ranked(model: string, averageRank: real, rankingsCount: nat)

  /** The loop over `model_positions.items()`, keeping models with positions. */
  function AverageEntries(g: seq<(string, seq<Vote>)>): seq<Ranked>
  {
    if |g| == 0 then []
    else
      var rest := AverageEntries(g[1..]);
      var ps := Positions(g[0].1);
      if |ps| > 0 then [Ranked(g[0].0, Mean(ps), |ps|)] + rest else rest
  }

  /** Sort key `average_rank`, ascending. */
  predicate ByAverage(a: Ranked, b: Ranked)
  {
    a.averageRank <= b.averageRank
  }

  /** Models in order of their first vote: the key order of `model_positions`. */
  function Voted(rankings: seq<seq<string>>, lm: map<string, string>): seq<string>
  {
    Dedup(Keys(RankingsVotes(rankings, lm), VoteModel))
  }

  /** The entries before sorting. */
  function Entries(rankings: seq<seq<string>>, lm: map<string, string>): seq<Ranked>
  {
    AverageEntries(Group(RankingsVotes(rankings, lm), VoteModel))
  }

  /** `_calculate_aggregate_rankings` on already parsed rankings. */
  function Aggregate(rankings: seq<seq<string>>, lm: map<string, string>): (r: seq<Ranked>)
    ensures |r| == |Entries(rankings, lm)|
  {
    SortBy(Entries(rankings, lm), ByAverage)
  }

  lemma {:induction false} AverageEntriesOfBuckets(d: seq<string>, vs: seq<Vote>)
    requires forall i :: 0 <= i < |d| ==> |Select(vs, VoteModel, d[i])| > 0
    ensures |AverageEntries(Buckets(d, vs, VoteModel))| == |d|
    ensures forall i :: 0 <= i < |d| ==>
      (AverageEntries(Buckets(d, vs, VoteModel))[i] ==
       Ranked(d[i], Mean(Positions(Select(vs, VoteModel, d[i]))), |Select(vs, VoteModel, d[i])|))
  {
    if |d| > 0 {
      AverageEntriesOfBuckets(d[1..], vs);
      assert Buckets(d, vs, VoteModel)[1..] == Buckets(d[1..], vs, VoteModel);
    }
  }

  /** Before sorting there is one entry per voted-for model, in order of
      first vote, holding the mean and the number of that model's positions. */
  lemma EntriesSpec(rankings: seq<seq<string>>, lm: map<string, string>)
    ensures |Entries(rankings, lm)| == |Voted(rankings, lm)|
    ensures forall i :: 0 <= i < |Voted(rankings, lm)| ==>
      var m := Voted(rankings, lm)[i];
      && |AllPositions(rankings, lm, m)| > 0
      && Entries(rankings, lm)[i] == Ranked(m, Mean(AllPositions(rankings, lm, m)), |AllPositions(rankings, lm, m)|)
    ensures forall m :: m in Voted(rankings, lm) <==> |AllPositions(rankings, lm, m)| > 0
  {
    var vs := RankingsVotes(rankings, lm);
    var d := Voted(rankings, lm);
    assert Entries(rankings, lm) == AverageEntries(Buckets(d, vs, VoteModel)) by {
      GroupSpec(vs, VoteModel);
    }
    assert forall i :: 0 <= i < |d| ==> |Select(vs, VoteModel, d[i])| > 0 by {
      forall i | 0 <= i < |d|
        ensures |Select(vs, VoteModel, d[i])| > 0
      {
        VotedPositions(rankings, lm, d[i]);
      }
    }
    AverageEntriesOfBuckets(d, vs);
    forall i | 0 <= i < |d|
      ensures |AllPositions(rankings, lm, d[i])| > 0
      ensures Entries(rankings, lm)[i] == Ranked(d[i], Mean(AllPositions(rankings, lm, d[i])), |AllPositions(rankings, lm, d[i])|)
    {
      VotedPositions(rankings, lm, d[i]);
    }
    forall m
      ensures m in d <==> |AllPositions(rankings, lm, m)| > 0
    {
      VotedPositions(rankings, lm, m);
    }
  }

  /** A model is voted for exactly when it has positions, and its selected
      votes carry exactly those positions. */
  lemma VotedPositions(rankings: seq<seq<string>>, lm: map<string, string>, m: string)
    ensures m in Voted(rankings, lm) <==> |Select(RankingsVotes(rankings, lm), VoteModel, m)| > 0
    ensures Positions(Select(RankingsVotes(rankings, lm), VoteModel, m)) == AllPositions(rankings, lm, m)
    ensures |Select(RankingsVotes(rankings, lm), VoteModel, m)| == |AllPositions(rankings, lm, m)|
  {
    KeysInDedup(RankingsVotes(rankings, lm), VoteModel, m);
    RankingsPositions(rankings, lm, m);
  }

  lemma TotalByAverage()
    ensures TotalPreorder(ByAverage)
  {
  }

  /** Every sorted entry is one of the unsorted entries, and conversely. */
  lemma AggregatePermutes(rankings: seq<seq<string>>, lm: map<string, string>)
    ensures forall i :: 0 <= i < |Aggregate(rankings, lm)| ==> Aggregate(rankings, lm)[i] in Entries(rankings, lm)
    ensures forall i :: 0 <= i < |Entries(rankings, lm)| ==> Entries(rankings, lm)[i] in Aggregate(rankings, lm)
  {
    var e := Entries(rankings, lm);
    var r := Aggregate(rankings, lm);
    forall i | 0 <= i < |r|
      ensures r[i] in e
    {
      assert r[i] in multiset(r);
    }
    forall i | 0 <= i < |e|
      ensures e[i] in r
    {
      assert e[i] in multiset(e);
    }
  }

  /** `x` holds the mean and the number of its model's positions. */
  ghost predicate Summarises(rankings: seq<seq<string>>, lm: map<string, string>, x: Ranked)
  {
    && |AllPositions(rankings, lm, x.model)| > 0
    && x.averageRank == Mean(AllPositions(rankings, lm, x.model))
    && x.rankingsCount == |AllPositions(rankings, lm, x.model)|
  }

  lemma EntriesSummarise(rankings: seq<seq<string>>, lm: map<string, string>)
    ensures forall k :: 0 <= k < |Entries(rankings, lm)| ==> Summarises(rankings, lm, Entries(rankings, lm)[k])
  {
    EntriesSpec(rankings, lm);
  }

  /** Each aggregate entry holds the mean and the number of its model's positions. */
  lemma AggregateValues(rankings: seq<seq<string>>, lm: map<string, string>)
    ensures forall x :: x in Aggregate(rankings, lm) ==> Summarises(rankings, lm, x)
  {
    var e := Entries(rankings, lm);
    EntriesSummarise(rankings, lm);
    forall x | x in Aggregate(rankings, lm)
      ensures Summarises(rankings, lm, x)
    {
      AggregatePermutes(rankings, lm);
      var k :| 0 <= k < |e| && e[k] == x;
    }
  }

  /** Every model with at least one position has an entry. */
  lemma AggregateComplete(rankings: seq<seq<string>>, lm: map<string, string>, m: string)
    requires |AllPositions(rankings, lm, m)| > 0
    ensures exists x :: x in Aggregate(rankings, lm) && x.model == m
  {
    AggregatePermutes(rankings, lm);
    EntriesSpec(rankings, lm);
    var d := Voted(rankings, lm);
    var k :| 0 <= k < |d| && d[k] == m;
    assert Entries(rankings, lm)[k] in Aggregate(rankings, lm);
  }

  /** No model appears twice. */
  lemma AggregateDistinct(rankings: seq<seq<string>>, lm: map<string, string>)
    ensures var r := Aggregate(rankings, lm);
      forall i, j :: 0 <= i < j < |r| ==> r[i].model != r[j].model
  {
    var e := Entries(rankings, lm);
    var r := Aggregate(rankings, lm);
    var d := Voted(rankings, lm);
    EntriesSpec(rankings, lm);
    AggregateValues(rankings, lm);
    assert Distinct(e) by {
      forall i, j | 0 <= i < j < |e|
        ensures e[i] != e[j]
      {
        assert e[i].model == d[i] && e[j].model == d[j];
      }
    }
    DistinctPermutation(e, r);
    forall i, j | 0 <= i < j < |r|
      ensures r[i].model != r[j].model
    {
      assert r[i] in r && r[j] in r;
    }
  }

  /** The aggregate is ordered by average rank, best first. */
  lemma AggregateSorted(rankings: seq<seq<string>>, lm: map<string, string>)
    ensures Sorted(Aggregate(rankings, lm), ByAverage)
  {
    TotalByAverage();
    SortSorted(Entries(rankings, lm), ByAverage);
  }

  /** Stability: models with equal average rank keep the order of their first vote. */
  lemma AggregateStable(rankings: seq<seq<string>>, lm: map<string, string>)
    ensures KeepsTieOrder(Entries(rankings, lm), Aggregate(rankings, lm), ByAverage)
    ensures |Entries(rankings, lm)| == |Voted(rankings, lm)|
    ensures forall i :: 0 <= i < |Entries(rankings, lm)| ==> Entries(rankings, lm)[i].model == Voted(rankings, lm)[i]
  {
    EntriesSpec(rankings, lm);
    SortKeepsTieOrder(Entries(rankings, lm), ByAverage);
  }

  /** Every average rank lies between 1 and the length of the longest ranking. */
  lemma AggregateBounds(rankings: seq<seq<string>>, lm: map<string, string>)
    ensures var r := Aggregate(rankings, lm);
      forall i :: 0 <= i < |r| ==> 1.0 <= r[i].averageRank <= Longest(rankings) as real
  {
    AggregateValues(rankings, lm);
    var r := Aggregate(rankings, lm);
    forall i | 0 <= i < |r|
      ensures 1.0 <= r[i].averageRank <= Longest(rankings) as real
    {
      assert r[i] in r;
      MeanBounds(AllPositions(rankings, lm, r[i].model), 1, Longest(rankings));
    }
  }

  /* ---------------- Weighted aggregate (weighted-voting strategy) ---------------- */

  /** A judge's contribution: who judged and the labels they ranked, best first. */
  datatype Ballot = Ballot(evaluator: string, parsed: seq<string>)

  function BallotParsed(b: Ballot): seq<string>
  {
    b.parsed
  }

  /** Weight of a judge missing from the weight map (`model_weights.get(model, 0.5)`). */
  const DefaultWeight: real := 0.5

  function WeightOf(weights: map<string, real>, evaluator: string): real
  {
    if evaluator in weights then weights[evaluator] else DefaultWeight
  }

  /** Every weighted vote of every ballot. */
  function BallotVotes(ballots: seq<Ballot>, lm: map<string, string>, weights: map<string, real>): seq<Vote>
  {
    if |ballots| == 0 then []
    else
      var b := ballots[|ballots| - 1];
      BallotVotes(ballots[..|ballots| - 1], lm, weights) + VotesFrom(b.parsed, lm, WeightOf(weights, b.evaluator))
  }

  /** `x` scaled by the weight `w`. Kept as a function so that equal
      arguments give equal products without arithmetic reasoning. */
  function Scaled(w: real, x: real): real
  {
    w * x
  }

  /** `total_score / total_weight`. */
  function Ratio(score: real, weight: real): real
    requires weight != 0.0
  {
    score / weight
  }

  /** `total_score`: the sum of position times weight. */
  function Score(vs: seq<Vote>): real
  {
    if |vs| == 0 then 0.0 else Score(vs[..|vs| - 1]) + Scaled(vs[|vs| - 1].weight, vs[|vs| - 1].position as real)
  }

  /** `total_weight`: the sum of the weights. */
  function TotalWeight(vs: seq<Vote>): real
  {
    if |vs| == 0 then 0.0 else TotalWeight(vs[..|vs| - 1]) + vs[|vs| - 1].weight
  }

  /** Reference weighted score of `m`: each judge's weight times the sum of the positions it gave `m`. */
  function WeightedScore(ballots: seq<Ballot>, lm: map<string, string>, weights: map<string, real>, m: string): real
  {
    SumOver(ballots, ScoreTerm(lm, weights, m))
  }

  /** A ballot's share of `m`'s weighted score. */
  function ScoreTerm(lm: map<string, string>, weights: map<string, real>, m: string): Ballot -> real
  {
    (b: Ballot) => Scaled(WeightOf(weights, b.evaluator), RealTotal(PositionsIn(b.parsed, lm, m)))
  }

  /** A ballot's share of `m`'s total weight. */
  function WeightTerm(lm: map<string, string>, weights: map<string, real>, m: string): Ballot -> real
  {
    (b: Ballot) => Scaled(WeightOf(weights, b.evaluator), |PositionsIn(b.parsed, lm, m)| as real)
  }

  /** Whether a ballot names `m`. */
  function NamesTerm(lm: map<string, string>, m: string): Ballot -> bool
  {
    (b: Ballot) => Names(b.parsed, lm, m)
  }

  /** Reference total weight of `m`: each judge's weight times the number of positions it gave `m`. */
  function WeightedTotal(ballots: seq<Ballot>, lm: map<string, string>, weights: map<string, real>, m: string): real
  {
    SumOver(ballots, WeightTerm(lm, weights, m))
  }

  /** `rankings_count`: the number of ballots that name `m` at least once. */
  function MentionCount(ballots: seq<Ballot>, lm: map<string, string>, m: string): nat
  {
    CountWhere(ballots, NamesTerm(lm, m))
  }

  lemma {:induction false} ScoreConcat(a: seq<Vote>, b: seq<Vote>)
    ensures Score(a + b) == Score(a) + Score(b)
    ensures TotalWeight(a + b) == TotalWeight(a) + TotalWeight(b)
    decreases |b|
  {
    if |b| == 0 {
      assert a + b == a;
    } else {
      var b' := b[..|b| - 1];
      assert (a + b)[..|a + b| - 1] == a + b';
      ScoreConcat(a, b');
    }
  }

  /** Sum of the positions of `vs`, as a real. */
  function PositionTotal(vs: seq<Vote>): real
  {
    if |vs| == 0 then 0.0 else PositionTotal(vs[..|vs| - 1]) + (vs[|vs| - 1].position as real)
  }

  /** Sum of a sequence of positions, as a real (Python adds them as floats). */
  function RealTotal(ps: seq<nat>): real
  {
    if |ps| == 0 then 0.0 else RealTotal(ps[..|ps| - 1]) + (ps[|ps| - 1] as real)
  }

  lemma {:induction false} RealTotalSum(ps: seq<nat>)
    ensures RealTotal(ps) == Sum(ps) as real
  {
    if |ps| > 0 {
      RealTotalSum(ps[..|ps| - 1]);
    }
  }

  lemma {:induction false} PositionTotalSum(vs: seq<Vote>)
    ensures PositionTotal(vs) == RealTotal(Positions(vs))
  {
    if |vs| > 0 {
      PositionTotalSum(vs[..|vs| - 1]);
      assert Positions(vs)[..|vs| - 1] == Positions(vs[..|vs| - 1]);
    }
  }

  /** Votes that all carry weight `w` score `w` times the sum of their positions. */
  lemma {:induction false} ScoreUniform(vs: seq<Vote>, w: real)
    requires forall k :: 0 <= k < |vs| ==> vs[k].weight == w
    ensures Score(vs) == Scaled(w, PositionTotal(vs))
  {
    if |vs| > 0 {
      ScoreUniform(vs[..|vs| - 1], w);
      assert vs[|vs| - 1].weight == w;
    }
  }

  lemma {:induction false} WeightUniform(vs: seq<Vote>, w: real)
    requires forall k :: 0 <= k < |vs| ==> vs[k].weight == w
    ensures TotalWeight(vs) == Scaled(w, |vs| as real)
  {
    if |vs| > 0 {
      var front := vs[..|vs| - 1];
      assert forall k :: 0 <= k < |front| ==> front[k].weight == w;
      WeightUniform(front, w);
      Distribute(w, (|vs| - 1) as real, 1.0);
    }
  }

  lemma Distribute(w: real, a: real, b: real)
    ensures w * (a + b) == w * a + w * b
    ensures b * w == w * b
  {
  }

  /** The votes one ballot casts for `m` all carry the judge's weight. */
  lemma BallotSelectionWeights(b: Ballot, lm: map<string, string>, w: real, m: string)
    ensures forall k :: 0 <= k < |Select(VotesFrom(b.parsed, lm, w), VoteModel, m)| ==>
      Select(VotesFrom(b.parsed, lm, w), VoteModel, m)[k].weight == w
  {
    var last := VotesFrom(b.parsed, lm, w);
    var sl := Select(last, VoteModel, m);
    forall k | 0 <= k < |sl|
      ensures sl[k].weight == w
    {
      assert sl[k] in last;
    }
  }

  lemma BallotSelectionScore(b: Ballot, lm: map<string, string>, w: real, m: string)
    ensures Score(Select(VotesFrom(b.parsed, lm, w), VoteModel, m)) == Scaled(w, RealTotal(PositionsIn(b.parsed, lm, m)))
  {
    BallotSelectionWeights(b, lm, w, m);
    VotesPositions(b.parsed, lm, w, m);
    UniformScoreOf(Select(VotesFrom(b.parsed, lm, w), VoteModel, m), w, PositionsIn(b.parsed, lm, m));
  }

  lemma UniformScoreOf(vs: seq<Vote>, w: real, ps: seq<nat>)
    requires forall k :: 0 <= k < |vs| ==> vs[k].weight == w
    requires Positions(vs) == ps
    ensures Score(vs) == Scaled(w, RealTotal(ps))
  {
    ScoreUniform(vs, w);
    PositionTotalSum(vs);
  }

  lemma BallotSelectionWeight(b: Ballot, lm: map<string, string>, w: real, m: string)
    ensures TotalWeight(Select(VotesFrom(b.parsed, lm, w), VoteModel, m)) == Scaled(w, |PositionsIn(b.parsed, lm, m)| as real)
  {
    var sl := Select(VotesFrom(b.parsed, lm, w), VoteModel, m);
    BallotSelectionWeights(b, lm, w, m);
    WeightUniform(sl, w);
    VotesPositions(b.parsed, lm, w, m);
    assert |sl| == |Positions(sl)|;
  }

  /** The grouped fold computes the reference score. */
  lemma {:induction false} BallotScore(ballots: seq<Ballot>, lm: map<string, string>, weights: map<string, real>, m: string)
    ensures Score(Select(BallotVotes(ballots, lm, weights), VoteModel, m)) == WeightedScore(ballots, lm, weights, m)
  {
    if |ballots| > 0 {
      var n := |ballots|;
      var b := ballots[n - 1];
      var w := WeightOf(weights, b.evaluator);
      var front := BallotVotes(ballots[..n - 1], lm, weights);
      var last := VotesFrom(b.parsed, lm, w);
      BallotScore(ballots[..n - 1], lm, weights, m);
      SelectConcat(front, last, VoteModel, m);
      ScoreConcat(Select(front, VoteModel, m), Select(last, VoteModel, m));
      BallotSelectionScore(b, lm, w, m);
    }
  }

  /** The grouped fold computes the reference total weight. */
  lemma {:induction false} BallotWeight(ballots: seq<Ballot>, lm: map<string, string>, weights: map<string, real>, m: string)
    ensures TotalWeight(Select(BallotVotes(ballots, lm, weights), VoteModel, m)) == WeightedTotal(ballots, lm, weights, m)
  {
    if |ballots| > 0 {
      var n := |ballots|;
      var b := ballots[n - 1];
      var w := WeightOf(weights, b.evaluator);
      var front := BallotVotes(ballots[..n - 1], lm, weights);
      var last := VotesFrom(b.parsed, lm, w);
      BallotWeight(ballots[..n - 1], lm, weights, m);
      SelectConcat(front, last, VoteModel, m);
      ScoreConcat(Select(front, VoteModel, m), Select(last, VoteModel, m));
      BallotSelectionWeight(b, lm, w, m);
    }
  }

  /** One weighted entry: `{"model", "average_rank", "total_weight", "rankings_count"}`. */
  datatype WeightedRanked = WeightedRanked(model: string, averageRank: real, totalWeight: real, rankingsCount: nat)

  /** The loop over `model_weighted_scores.items()`, keeping models with positive total weight. */
  function WeightedEntries(g: seq<(string, seq<Vote>)>, ballots: seq<Ballot>, lm: map<string, string>): seq<WeightedRanked>
  {
    if |g| == 0 then []
    else
      var rest := WeightedEntries(g[1..], ballots, lm);
      var tw := TotalWeight(g[0].1);
      if tw > 0.0 then [WeightedRanked(g[0].0, Ratio(Score(g[0].1), tw), tw, MentionCount(ballots, lm, g[0].0))] + rest
      else rest
  }

  /** Sort key `average_rank`, ascending. */
  predicate ByWeightedAverage(a: WeightedRanked, b: WeightedRanked)
  {
    a.averageRank <= b.averageRank
  }

  /** Models in order of their first vote, whatever its weight. */
  function WeightedVoted(ballots: seq<Ballot>, lm: map<string, string>, weights: map<string, real>): seq<string>
  {
    Dedup(Keys(BallotVotes(ballots, lm, weights), VoteModel))
  }

  function WeightedEntriesOf(ballots: seq<Ballot>, lm: map<string, string>, weights: map<string, real>): seq<WeightedRanked>
  {
    WeightedEntries(Group(BallotVotes(ballots, lm, weights), VoteModel), ballots, lm)
  }

  /** `_calculate_weighted_aggregate_rankings`. */
  function WeightedAggregate(ballots: seq<Ballot>, lm: map<string, string>, weights: map<string, real>): (r: seq<WeightedRanked>)
    ensures |r| == |WeightedEntriesOf(ballots, lm, weights)|
  {
    SortBy(WeightedEntriesOf(ballots, lm, weights), ByWeightedAverage)
  }

  /** The reference entry of `m`. */
  function WeightedEntryFor(ballots: seq<Ballot>, lm: map<string, string>, weights: map<string, real>, m: string): WeightedRanked
    requires WeightedTotal(ballots, lm, weights, m) > 0.0
  {
    var tw := WeightedTotal(ballots, lm, weights, m);
    WeightedRanked(m, Ratio(WeightedScore(ballots, lm, weights, m), tw), tw, MentionCount(ballots, lm, m))
  }

  /** The entry the loop builds from the votes `vs` for model `k`. */
  function EntryFromVotes(vs: seq<Vote>, ballots: seq<Ballot>, lm: map<string, string>, k: string): WeightedRanked
    requires TotalWeight(Select(vs, VoteModel, k)) > 0.0
  {
    var sel := Select(vs, VoteModel, k);
    WeightedRanked(k, Ratio(Score(sel), TotalWeight(sel)), TotalWeight(sel), MentionCount(ballots, lm, k))
  }

  lemma {:induction false} WeightedEntriesOfBuckets(d: seq<string>, vs: seq<Vote>, ballots: seq<Ballot>, lm: map<string, string>)
    ensures forall x :: x in WeightedEntries(Buckets(d, vs, VoteModel), ballots, lm) ==>
      x.model in d && TotalWeight(Select(vs, VoteModel, x.model)) > 0.0 && x == EntryFromVotes(vs, ballots, lm, x.model)
    ensures forall i :: 0 <= i < |d| && TotalWeight(Select(vs, VoteModel, d[i])) > 0.0 ==>
      EntryFromVotes(vs, ballots, lm, d[i]) in WeightedEntries(Buckets(d, vs, VoteModel), ballots, lm)
  {
    if |d| > 0 {
      WeightedEntriesOfBuckets(d[1..], vs, ballots, lm);
      assert Buckets(d, vs, VoteModel)[1..] == Buckets(d[1..], vs, VoteModel);
      forall i | 1 <= i < |d|
        ensures d[i] == d[1..][i - 1]
      {
      }
    }
  }

  /** When every model keeps a positive weight, nothing is dropped and the order is kept. */
  lemma {:induction false} WeightedEntriesAllKept(d: seq<string>, vs: seq<Vote>, ballots: seq<Ballot>, lm: map<string, string>)
    requires forall i :: 0 <= i < |d| ==> TotalWeight(Select(vs, VoteModel, d[i])) > 0.0
    ensures |WeightedEntries(Buckets(d, vs, VoteModel), ballots, lm)| == |d|
    ensures forall i :: 0 <= i < |d| ==>
      WeightedEntries(Buckets(d, vs, VoteModel), ballots, lm)[i] == EntryFromVotes(vs, ballots, lm, d[i])
  {
    if |d| > 0 {
      WeightedEntriesAllKept(d[1..], vs, ballots, lm);
      assert Buckets(d, vs, VoteModel)[1..] == Buckets(d[1..], vs, VoteModel);
    }
  }

  /** Key `x` has a group before a group with key `y`. */
  ghost predicate GroupedBefore(g: seq<(string, seq<Vote>)>, x: string, y: string)
  {
    exists a, b :: 0 <= a < b < |g| && g[a].0 == x && g[b].0 == y
  }

  /** Key `x` has a group. */
  ghost predicate HasGroup(g: seq<(string, seq<Vote>)>, x: string)
  {
    exists a :: 0 <= a < |g| && g[a].0 == x
  }

  lemma GroupedBeforeTail(g: seq<(string, seq<Vote>)>, x: string, y: string)
    requires |g| > 0
    ensures GroupedBefore(g[1..], x, y) ==> GroupedBefore(g, x, y)
    ensures HasGroup(g[1..], y) ==> GroupedBefore(g, g[0].0, y)
    ensures HasGroup(g[1..], y) ==> HasGroup(g, y)
  {
    if GroupedBefore(g[1..], x, y) {
      var a, b :| 0 <= a < b < |g[1..]| && g[1..][a].0 == x && g[1..][b].0 == y;
      assert g[a + 1].0 == x && g[b + 1].0 == y;
    }
    if HasGroup(g[1..], y) {
      var b :| 0 <= b < |g[1..]| && g[1..][b].0 == y;
      assert g[0].0 == g[0].0 && g[b + 1].0 == y;
    }
  }

  /** Every entry comes from one of the groups. */
  lemma {:induction false} WeightedEntriesFrom(g: seq<(string, seq<Vote>)>, ballots: seq<Ballot>, lm: map<string, string>)
    ensures forall x :: x in WeightedEntries(g, ballots, lm) ==> HasGroup(g, x.model)
  {
    if |g| > 0 {
      WeightedEntriesFrom(g[1..], ballots, lm);
      forall x | x in WeightedEntries(g, ballots, lm)
        ensures HasGroup(g, x.model)
      {
        GroupedBeforeTail(g, x.model, x.model);
        if x !in WeightedEntries(g[1..], ballots, lm) {
          assert g[0].0 == x.model;
        }
      }
    }
  }

  /** The order step for one pair: `e` is `rest`, possibly preceded by an
      entry for the first group, and `rest` follows the order of `g[1..]`. */
  lemma PairGroupedBefore(g: seq<(string, seq<Vote>)>, e: seq<WeightedRanked>, rest: seq<WeightedRanked>, off: nat, i: nat, j: nat)
    requires |g| > 0 && off <= 1 && |e| == |rest| + off && e[off..] == rest
    requires off == 1 ==> e[0].model == g[0].0
    requires forall a, b :: 0 <= a < b < |rest| ==> GroupedBefore(g[1..], rest[a].model, rest[b].model)
    requires forall x :: x in rest ==> HasGroup(g[1..], x.model)
    requires i < j < |e|
    ensures GroupedBefore(g, e[i].model, e[j].model)
  {
    assert e[j] == rest[j - off];
    GroupedBeforeTail(g, e[i].model, e[j].model);
    if i >= off {
      assert e[i] == rest[i - off];
      assert GroupedBefore(g[1..], rest[i - off].model, rest[j - off].model);
    } else {
      assert rest[j - off] in rest;
    }
  }

  /** Entries follow the order of the groups. */
  lemma {:induction false} WeightedEntriesOrder(g: seq<(string, seq<Vote>)>, ballots: seq<Ballot>, lm: map<string, string>)
    ensures forall i, j :: 0 <= i < j < |WeightedEntries(g, ballots, lm)| ==>
      GroupedBefore(g, WeightedEntries(g, ballots, lm)[i].model, WeightedEntries(g, ballots, lm)[j].model)
  {
    if |g| > 0 {
      var e := WeightedEntries(g, ballots, lm);
      var rest := WeightedEntries(g[1..], ballots, lm);
      WeightedEntriesOrder(g[1..], ballots, lm);
      WeightedEntriesFrom(g[1..], ballots, lm);
      var off := if TotalWeight(g[0].1) > 0.0 then 1 else 0;
      assert |e| == |rest| + off && e[off..] == rest;
      forall i, j | 0 <= i < j < |e|
        ensures GroupedBefore(g, e[i].model, e[j].model)
      {
        PairGroupedBefore(g, e, rest, off, i, j);
      }
    }
  }

  /** The grouped fold and the reference agree model by model. */
  lemma WeightedSelections(ballots: seq<Ballot>, lm: map<string, string>, weights: map<string, real>, m: string)
    ensures TotalWeight(Select(BallotVotes(ballots, lm, weights), VoteModel, m)) == WeightedTotal(ballots, lm, weights, m)
    ensures Score(Select(BallotVotes(ballots, lm, weights), VoteModel, m)) == WeightedScore(ballots, lm, weights, m)
    ensures m in WeightedVoted(ballots, lm, weights) <==> |Select(BallotVotes(ballots, lm, weights), VoteModel, m)| > 0
  {
    BallotWeight(ballots, lm, weights, m);
    BallotScore(ballots, lm, weights, m);
    KeysInDedup(BallotVotes(ballots, lm, weights), VoteModel, m);
  }

  /** The grouped entries are the reference entries of the models with positive total weight. */
  lemma WeightedEntriesSound(ballots: seq<Ballot>, lm: map<string, string>, weights: map<string, real>)
    ensures forall x :: x in WeightedEntriesOf(ballots, lm, weights) ==>
      WeightedTotal(ballots, lm, weights, x.model) > 0.0 && x == WeightedEntryFor(ballots, lm, weights, x.model)
  {
    var vs := BallotVotes(ballots, lm, weights);
    var d := WeightedVoted(ballots, lm, weights);
    GroupSpec(vs, VoteModel);
    WeightedEntriesOfBuckets(d, vs, ballots, lm);
    forall x | x in WeightedEntriesOf(ballots, lm, weights)
      ensures WeightedTotal(ballots, lm, weights, x.model) > 0.0 && x == WeightedEntryFor(ballots, lm, weights, x.model)
    {
      WeightedSelections(ballots, lm, weights, x.model);
    }
  }

  lemma WeightedEntriesComplete(ballots: seq<Ballot>, lm: map<string, string>, weights: map<string, real>, m: string)
    requires WeightedTotal(ballots, lm, weights, m) > 0.0
    ensures WeightedEntryFor(ballots, lm, weights, m) in WeightedEntriesOf(ballots, lm, weights)
  {
    var vs := BallotVotes(ballots, lm, weights);
    var d := WeightedVoted(ballots, lm, weights);
    GroupSpec(vs, VoteModel);
    WeightedEntriesOfBuckets(d, vs, ballots, lm);
    WeightedSelections(ballots, lm, weights, m);
    assert |Select(vs, VoteModel, m)| > 0;
    var i :| 0 <= i < |d| && d[i] == m;
  }

  /** The models of `e` occur in `d` in the same order. */
  ghost predicate OrderedBy(e: seq<WeightedRanked>, d: seq<string>)
  {
    forall i, j :: 0 <= i < j < |e| ==> Precedes(d, e[i].model, e[j].model)
  }

  /** `x` occurs in `d` before `y`. */
  ghost predicate Precedes(d: seq<string>, x: string, y: string)
  {
    exists a, b :: 0 <= a < b < |d| && d[a] == x && d[b] == y
  }

  /** No model has two entries. */
  predicate UniqueModels(r: seq<WeightedRanked>)
  {
    forall i, j :: 0 <= i < j < |r| ==> r[i].model != r[j].model
  }

  lemma OrderedFromBuckets(d: seq<string>, vs: seq<Vote>, ballots: seq<Ballot>, lm: map<string, string>)
    requires Distinct(d)
    ensures OrderedBy(WeightedEntries(Buckets(d, vs, VoteModel), ballots, lm), d)
    ensures UniqueModels(WeightedEntries(Buckets(d, vs, VoteModel), ballots, lm))
  {
    var g := Buckets(d, vs, VoteModel);
    var e := WeightedEntries(g, ballots, lm);
    WeightedEntriesOrder(g, ballots, lm);
    forall i, j | 0 <= i < j < |e|
      ensures Precedes(d, e[i].model, e[j].model)
      ensures e[i].model != e[j].model
    {
      BucketPair(d, vs, e[i].model, e[j].model);
    }
  }

  /** Two keys grouped one before the other are distinct keys of `d`, in that order. */
  lemma BucketPair(d: seq<string>, vs: seq<Vote>, x: string, y: string)
    requires Distinct(d)
    requires GroupedBefore(Buckets(d, vs, VoteModel), x, y)
    ensures Precedes(d, x, y)
    ensures x != y
  {
    var g := Buckets(d, vs, VoteModel);
    var a, b :| 0 <= a < b < |g| && g[a].0 == x && g[b].0 == y;
    assert d[a] == x && d[b] == y;
  }

  /** Entries are in order of their models' first vote; in particular no model appears twice. */
  lemma WeightedEntriesOrdered(ballots: seq<Ballot>, lm: map<string, string>, weights: map<string, real>)
    ensures OrderedBy(WeightedEntriesOf(ballots, lm, weights), WeightedVoted(ballots, lm, weights))
    ensures UniqueModels(WeightedEntriesOf(ballots, lm, weights))
  {
    var vs := BallotVotes(ballots, lm, weights);
    GroupSpec(vs, VoteModel);
    DedupDistinct(Keys(vs, VoteModel));
    OrderedFromBuckets(WeightedVoted(ballots, lm, weights), vs, ballots, lm);
  }

  /** Each weighted entry is its model's reference entry: total weight
      positive, average the weighted score over the total weight, count the
      ballots naming the model. */
  lemma WeightedValues(ballots: seq<Ballot>, lm: map<string, string>, weights: map<string, real>)
    ensures forall x :: x in WeightedAggregate(ballots, lm, weights) ==>
      WeightedTotal(ballots, lm, weights, x.model) > 0.0 && x == WeightedEntryFor(ballots, lm, weights, x.model)
  {
    WeightedEntriesSound(ballots, lm, weights);
    var e := WeightedEntriesOf(ballots, lm, weights);
    forall x | x in WeightedAggregate(ballots, lm, weights)
      ensures x in e
    {
      assert x in multiset(WeightedAggregate(ballots, lm, weights));
    }
  }

  /** A model is in the weighted aggregate exactly when its total weight is positive. */
  lemma WeightedMembership(ballots: seq<Ballot>, lm: map<string, string>, weights: map<string, real>, m: string)
    ensures (exists x :: x in WeightedAggregate(ballots, lm, weights) && x.model == m) <==>
      WeightedTotal(ballots, lm, weights, m) > 0.0
  {
    WeightedValues(ballots, lm, weights);
    if WeightedTotal(ballots, lm, weights, m) > 0.0 {
      WeightedEntriesComplete(ballots, lm, weights, m);
      var x := WeightedEntryFor(ballots, lm, weights, m);
      assert x in multiset(WeightedEntriesOf(ballots, lm, weights));
      assert x in WeightedAggregate(ballots, lm, weights);
    }
  }

  /** No model appears twice. */
  lemma WeightedDistinct(ballots: seq<Ballot>, lm: map<string, string>, weights: map<string, real>)
    ensures UniqueModels(WeightedAggregate(ballots, lm, weights))
  {
    var e := WeightedEntriesOf(ballots, lm, weights);
    var r := WeightedAggregate(ballots, lm, weights);
    WeightedEntriesOrdered(ballots, lm, weights);
    WeightedValues(ballots, lm, weights);
    assert Distinct(e) by {
      forall i, j | 0 <= i < j < |e|
        ensures e[i] != e[j]
      {
      }
    }
    DistinctPermutation(e, r);
    forall i, j | 0 <= i < j < |r|
      ensures r[i].model != r[j].model
    {
      assert r[i] in r && r[j] in r;
    }
  }

  /** The weighted aggregate is ordered by weighted average, best first. */
  lemma WeightedSorted(ballots: seq<Ballot>, lm: map<string, string>, weights: map<string, real>)
    ensures Sorted(WeightedAggregate(ballots, lm, weights), ByWeightedAverage)
  {
    assert TotalPreorder(ByWeightedAverage);
    SortSorted(WeightedEntriesOf(ballots, lm, weights), ByWeightedAverage);
  }

  /** Stability: entries with equal weighted average keep the order of their models' first vote. */
  lemma WeightedStable(ballots: seq<Ballot>, lm: map<string, string>, weights: map<string, real>)
    ensures KeepsTieOrder(WeightedEntriesOf(ballots, lm, weights), WeightedAggregate(ballots, lm, weights), ByWeightedAverage)
    ensures OrderedBy(WeightedEntriesOf(ballots, lm, weights), WeightedVoted(ballots, lm, weights))
  {
    SortKeepsTieOrder(WeightedEntriesOf(ballots, lm, weights), ByWeightedAverage);
    WeightedEntriesOrdered(ballots, lm, weights);
  }

  /* ---------------- Bounds of the weighted average ---------------- */

  /** One step of a sum whose every term is scaled by `c`. */
  lemma ScaledStep(total: real, front: real, c: real, a: real, b: real, sum: real)
    requires front == Scaled(c, a) && total == front + Scaled(c, b) && sum == a + b
    ensures total == Scaled(c, sum)
  {
    ScaledAdd(c, a, b);
  }

  lemma ScaledAdd(c: real, a: real, b: real)
    ensures Scaled(c, a + b) == Scaled(c, a) + Scaled(c, b)
  {
  }

  lemma {:induction false} RealTotalConcat(a: seq<nat>, b: seq<nat>)
    ensures RealTotal(a + b) == RealTotal(a) + RealTotal(b)
    decreases |b|
  {
    if |b| == 0 {
      assert a + b == a;
    } else {
      var b' := b[..|b| - 1];
      assert (a + b)[..|a + b| - 1] == a + b';
      RealTotalConcat(a, b');
    }
  }

  lemma {:induction false} RealTotalBounds(ps: seq<nat>, lo: nat, hi: nat)
    requires forall k :: 0 <= k < |ps| ==> lo <= ps[k] <= hi
    ensures Scaled(lo as real, |ps| as real) <= RealTotal(ps) <= Scaled(hi as real, |ps| as real)
    decreases |ps|
  {
    if |ps| > 0 {
      var front := ps[..|ps| - 1];
      RealTotalBounds(front, lo, hi);
      ScaledAdd(lo as real, |front| as real, 1.0);
      ScaledAdd(hi as real, |front| as real, 1.0);
    }
  }

  /** A non-negative weight keeps the per-ballot bounds. */
  lemma ScaledBetween(w: real, n: real, t: real, lo: real, hi: real)
    requires w >= 0.0
    requires Scaled(lo, n) <= t <= Scaled(hi, n)
    ensures Scaled(lo, Scaled(w, n)) <= Scaled(w, t) <= Scaled(hi, Scaled(w, n))
  {
    assert w * (lo * n) <= w * t;
    assert w * t <= w * (hi * n);
  }

  /** With non-negative weights, `lo * total weight <= score <= hi * total weight`
      whenever every position of `m` lies in [lo, hi]. */
  lemma {:induction false} WeightedReferenceBounds(ballots: seq<Ballot>, lm: map<string, string>, weights: map<string, real>, m: string, lo: nat, hi: nat)
    requires forall k :: 0 <= k < |ballots| ==> WeightOf(weights, ballots[k].evaluator) >= 0.0
    requires forall k, j :: 0 <= k < |ballots| && 0 <= j < |PositionsIn(ballots[k].parsed, lm, m)| ==>
      lo <= PositionsIn(ballots[k].parsed, lm, m)[j] <= hi
    ensures Scaled(lo as real, WeightedTotal(ballots, lm, weights, m)) <= WeightedScore(ballots, lm, weights, m)
    ensures WeightedScore(ballots, lm, weights, m) <= Scaled(hi as real, WeightedTotal(ballots, lm, weights, m))
  {
    if |ballots| > 0 {
      var n := |ballots|;
      var b := ballots[n - 1];
      var front := ballots[..n - 1];
      WeightedReferenceBounds(front, lm, weights, m, lo, hi);
      var ps := PositionsIn(b.parsed, lm, m);
      var w := WeightOf(weights, b.evaluator);
      RealTotalBounds(ps, lo, hi);
      assert WeightedTotal(ballots, lm, weights, m) == WeightedTotal(front, lm, weights, m) + Scaled(w, |ps| as real);
      assert WeightedScore(ballots, lm, weights, m) == WeightedScore(front, lm, weights, m) + Scaled(w, RealTotal(ps));
      WeightedBoundsStep(WeightedTotal(front, lm, weights, m), WeightedScore(front, lm, weights, m), w,
                         |ps| as real, RealTotal(ps), lo as real, hi as real);
    }
  }

  /** Adding one ballot's weighted share keeps the bounds. */
  lemma WeightedBoundsStep(total: real, score: real, w: real, n: real, t: real, lo: real, hi: real)
    requires Scaled(lo, total) <= score <= Scaled(hi, total)
    requires w >= 0.0
    requires Scaled(lo, n) <= t <= Scaled(hi, n)
    ensures Scaled(lo, total + Scaled(w, n)) <= score + Scaled(w, t) <= Scaled(hi, total + Scaled(w, n))
  {
    ScaledBetween(w, n, t, lo, hi);
    ScaledAdd(lo, total, Scaled(w, n));
    ScaledAdd(hi, total, Scaled(w, n));
  }

  /** The ranked rankings of the ballots. */
  function Rankings(ballots: seq<Ballot>): seq<seq<string>>
  {
    MapSeq(ballots, BallotParsed)
  }

  /** The average of a model whose positions lie in [lo, hi] lies in [lo, hi]. */
  lemma WeightedAverageBounds(ballots: seq<Ballot>, lm: map<string, string>, weights: map<string, real>, m: string, lo: nat, hi: nat)
    requires forall k :: 0 <= k < |ballots| ==> WeightOf(weights, ballots[k].evaluator) >= 0.0
    requires forall k, j :: 0 <= k < |ballots| && 0 <= j < |PositionsIn(ballots[k].parsed, lm, m)| ==>
      lo <= PositionsIn(ballots[k].parsed, lm, m)[j] <= hi
    requires WeightedTotal(ballots, lm, weights, m) > 0.0
    ensures lo as real <= WeightedEntryFor(ballots, lm, weights, m).averageRank <= hi as real
  {
    var ws := WeightedScore(ballots, lm, weights, m);
    var wt := WeightedTotal(ballots, lm, weights, m);
    WeightedReferenceBounds(ballots, lm, weights, m, lo, hi);
    assert Scaled(lo as real, wt) == wt * (lo as real);
    assert Scaled(hi as real, wt) == wt * (hi as real);
    QuotientBounds(ws, wt, lo as real, hi as real);
  }

  /** A position one ranking gives `m` is among all the positions `m` received. */
  lemma {:induction false} PositionInAll(rankings: seq<seq<string>>, lm: map<string, string>, m: string, k: nat, j: nat)
    requires k < |rankings| && j < |PositionsIn(rankings[k], lm, m)|
    ensures PositionsIn(rankings[k], lm, m)[j] in AllPositions(rankings, lm, m)
  {
    var n := |rankings|;
    if k < n - 1 {
      assert rankings[..n - 1][k] == rankings[k];
      PositionInAll(rankings[..n - 1], lm, m, k, j);
    }
  }

  /** A model with non-zero total weight was positioned by some ballot. */
  lemma {:induction false} WeightNeedsPosition(ballots: seq<Ballot>, lm: map<string, string>, weights: map<string, real>, m: string)
    requires WeightedTotal(ballots, lm, weights, m) != 0.0
    ensures exists k :: 0 <= k < |ballots| && |PositionsIn(ballots[k].parsed, lm, m)| > 0
  {
    var n := |ballots|;
    var front := ballots[..n - 1];
    if |PositionsIn(ballots[n - 1].parsed, lm, m)| == 0 {
      assert WeightedTotal(ballots, lm, weights, m) == WeightedTotal(front, lm, weights, m) + WeightTerm(lm, weights, m)(ballots[n - 1]);
      WeightNeedsPosition(front, lm, weights, m);
      var k :| 0 <= k < |front| && |PositionsIn(front[k].parsed, lm, m)| > 0;
      assert ballots[k] == front[k];
    }
  }

  /** A weighted average rank lies between the least and the greatest position
      its model received. */
  lemma WeightedOwnBounds(ballots: seq<Ballot>, lm: map<string, string>, weights: map<string, real>, m: string)
    requires forall k :: 0 <= k < |ballots| ==> WeightOf(weights, ballots[k].evaluator) >= 0.0
    requires WeightedTotal(ballots, lm, weights, m) > 0.0
    ensures |AllPositions(Rankings(ballots), lm, m)| > 0
    ensures var ps := AllPositions(Rankings(ballots), lm, m);
      Least(ps) as real <= WeightedEntryFor(ballots, lm, weights, m).averageRank <= Greatest(ps) as real
  {
    var rs := Rankings(ballots);
    var ps := AllPositions(rs, lm, m);
    forall k, j | 0 <= k < |ballots| && 0 <= j < |PositionsIn(ballots[k].parsed, lm, m)|
      ensures PositionsIn(ballots[k].parsed, lm, m)[j] in ps
    {
      assert rs[k] == ballots[k].parsed;
      PositionInAll(rs, lm, m, k, j);
    }
    WeightNeedsPosition(ballots, lm, weights, m);
    var k :| 0 <= k < |ballots| && |PositionsIn(ballots[k].parsed, lm, m)| > 0;
    assert PositionsIn(ballots[k].parsed, lm, m)[0] in ps;
    WeightedAverageBounds(ballots, lm, weights, m, Least(ps), Greatest(ps));
  }

  /** With non-negative weights every weighted average rank lies between the
      least and the greatest position its model received, hence between 1 and
      the length of the longest ranking. */
  lemma WeightedBounds(ballots: seq<Ballot>, lm: map<string, string>, weights: map<string, real>)
    requires forall e :: e in weights ==> weights[e] >= 0.0
    ensures forall x :: x in WeightedAggregate(ballots, lm, weights) ==>
      var ps := AllPositions(Rankings(ballots), lm, x.model);
      |ps| > 0 && Least(ps) as real <= x.averageRank <= Greatest(ps) as real
    ensures forall x :: x in WeightedAggregate(ballots, lm, weights) ==>
      1.0 <= x.averageRank <= Longest(Rankings(ballots)) as real
  {
    WeightedValues(ballots, lm, weights);
    forall x | x in WeightedAggregate(ballots, lm, weights)
      ensures var ps := AllPositions(Rankings(ballots), lm, x.model);
        |ps| > 0 && Least(ps) as real <= x.averageRank <= Greatest(ps) as real
      ensures 1.0 <= x.averageRank <= Longest(Rankings(ballots)) as real
    {
      var ps := AllPositions(Rankings(ballots), lm, x.model);
      WeightedOwnBounds(ballots, lm, weights, x.model);
      assert 1 <= Least(ps) && Greatest(ps) <= Longest(Rankings(ballots));
    }
  }

  /* ---------------- Relating the weighted and the plain aggregate ---------------- */

  lemma KeysConcat<T, K>(a: seq<T>, b: seq<T>, key: T -> K)
    ensures Keys(a + b, key) == Keys(a, key) + Keys(b, key)
  {
    assert |Keys(a + b, key)| == |Keys(a, key) + Keys(b, key)|;
  }

  lemma RankingsPrefix(ballots: seq<Ballot>)
    requires |ballots| > 0
    ensures Rankings(ballots)[..|ballots| - 1] == Rankings(ballots[..|ballots| - 1])
    ensures Rankings(ballots)[|ballots| - 1] == ballots[|ballots| - 1].parsed
  {
  }

  /** Weights change no vote's model: the weighted and plain folds see the same models in the same order. */
  lemma {:induction false} BallotKeys(ballots: seq<Ballot>, lm: map<string, string>, weights: map<string, real>)
    ensures Keys(BallotVotes(ballots, lm, weights), VoteModel) == Keys(RankingsVotes(Rankings(ballots), lm), VoteModel)
  {
    if |ballots| > 0 {
      var n := |ballots|;
      var b := ballots[n - 1];
      var w := WeightOf(weights, b.evaluator);
      BallotKeys(ballots[..n - 1], lm, weights);
      RankingsPrefix(ballots);
      KeysConcat(BallotVotes(ballots[..n - 1], lm, weights), VotesFrom(b.parsed, lm, w), VoteModel);
      KeysConcat(RankingsVotes(Rankings(ballots[..n - 1]), lm), VotesFrom(b.parsed, lm, 1.0), VoteModel);
      VotesKeys(b.parsed, lm, w, 1.0);
    }
  }

  /** Under one common weight `c` the reference score is `c` times the plain sum of positions. */
  lemma {:induction false} UniformScore(ballots: seq<Ballot>, lm: map<string, string>, weights: map<string, real>, m: string, c: real)
    requires forall k :: 0 <= k < |ballots| ==> WeightOf(weights, ballots[k].evaluator) == c
    ensures WeightedScore(ballots, lm, weights, m) == Scaled(c, RealTotal(AllPositions(Rankings(ballots), lm, m)))
  {
    if |ballots| > 0 {
      UniformScore(ballots[..|ballots| - 1], lm, weights, m, c);
      UniformScoreStep(ballots, lm, weights, m, c);
    } else {
      assert WeightedScore(ballots, lm, weights, m) == 0.0;
      assert RealTotal(AllPositions(Rankings(ballots), lm, m)) == 0.0;
      assert Scaled(c, 0.0) == 0.0;
    }
  }

  /** The inductive step of `UniformScore`: one more ballot. */
  lemma UniformScoreStep(ballots: seq<Ballot>, lm: map<string, string>, weights: map<string, real>, m: string, c: real)
    requires |ballots| > 0 && WeightOf(weights, ballots[|ballots| - 1].evaluator) == c
    requires var front := ballots[..|ballots| - 1];
      WeightedScore(front, lm, weights, m) == Scaled(c, RealTotal(AllPositions(Rankings(front), lm, m)))
    ensures WeightedScore(ballots, lm, weights, m) == Scaled(c, RealTotal(AllPositions(Rankings(ballots), lm, m)))
  {
    var n := |ballots|;
    var b := ballots[n - 1];
    var front := ballots[..n - 1];
    var pf := AllPositions(Rankings(front), lm, m);
    var pb := PositionsIn(b.parsed, lm, m);
    assert WeightedScore(ballots, lm, weights, m) == WeightedScore(front, lm, weights, m) + Scaled(c, RealTotal(pb));
    assert AllPositions(Rankings(ballots), lm, m) == pf + pb by {
      RankingsPrefix(ballots);
    }
    assert RealTotal(AllPositions(Rankings(ballots), lm, m)) == RealTotal(pf) + RealTotal(pb) by {
      RealTotalConcat(pf, pb);
    }
    ScaledStep(WeightedScore(ballots, lm, weights, m), WeightedScore(front, lm, weights, m), c,
               RealTotal(pf), RealTotal(pb), RealTotal(AllPositions(Rankings(ballots), lm, m)));
  }

  /** Under one common weight `c` the reference total weight is `c` times the number of positions. */
  lemma {:induction false} UniformTotal(ballots: seq<Ballot>, lm: map<string, string>, weights: map<string, real>, m: string, c: real)
    requires forall k :: 0 <= k < |ballots| ==> WeightOf(weights, ballots[k].evaluator) == c
    ensures WeightedTotal(ballots, lm, weights, m) == Scaled(c, |AllPositions(Rankings(ballots), lm, m)| as real)
  {
    if |ballots| > 0 {
      var n := |ballots|;
      var b := ballots[n - 1];
      var front := ballots[..n - 1];
      var pf := AllPositions(Rankings(front), lm, m);
      var pb := PositionsIn(b.parsed, lm, m);
      UniformTotal(front, lm, weights, m, c);
      assert WeightedTotal(ballots, lm, weights, m) == WeightedTotal(front, lm, weights, m) + Scaled(c, |pb| as real);
      assert AllPositions(Rankings(ballots), lm, m) == pf + pb by {
        RankingsPrefix(ballots);
      }
      ScaledStep(WeightedTotal(ballots, lm, weights, m), WeightedTotal(front, lm, weights, m), c,
                 |pf| as real, |pb| as real, |AllPositions(Rankings(ballots), lm, m)| as real);
    }
  }

  lemma CancelScale(c: real, a: real, n: real)
    requires c > 0.0 && n > 0.0
    ensures Scaled(c, n) > 0.0
    ensures Ratio(Scaled(c, a), Scaled(c, n)) == a / n
  {
    assert (c * a) / (c * n) == a / n;
  }

  /** Under one common positive weight the weighted entry of a model carries the plain mean. */
  lemma UniformEntry(ballots: seq<Ballot>, lm: map<string, string>, weights: map<string, real>, m: string, c: real)
    requires c > 0.0
    requires forall k :: 0 <= k < |ballots| ==> WeightOf(weights, ballots[k].evaluator) == c
    requires |AllPositions(Rankings(ballots), lm, m)| > 0
    ensures WeightedTotal(ballots, lm, weights, m) > 0.0
    ensures WeightedEntryFor(ballots, lm, weights, m).averageRank == Mean(AllPositions(Rankings(ballots), lm, m))
  {
    var ps := AllPositions(Rankings(ballots), lm, m);
    UniformScore(ballots, lm, weights, m, c);
    UniformTotal(ballots, lm, weights, m, c);
    RealTotalSum(ps);
    CancelScale(c, RealTotal(ps), |ps| as real);
  }

  /** An entry seen as (model, average rank). */
  function AveragePair(x: Ranked): (string, real)
  {
    (x.model, x.averageRank)
  }

  function WeightedPair(x: WeightedRanked): (string, real)
  {
    (x.model, x.averageRank)
  }

  predicate ByPairAverage(a: (string, real), b: (string, real))
  {
    a.1 <= b.1
  }

  lemma PairsAgree(we: seq<WeightedRanked>, e: seq<Ranked>)
    requires |we| == |e|
    requires forall i :: 0 <= i < |e| ==> we[i].model == e[i].model && we[i].averageRank == e[i].averageRank
    ensures MapSeq(we, WeightedPair) == MapSeq(e, AveragePair)
  {
  }

  lemma KeptAgree(d: seq<string>, vs: seq<Vote>, ballots: seq<Ballot>, lm: map<string, string>, e: seq<Ranked>)
    requires |e| == |d|
    requires forall i :: 0 <= i < |d| ==> TotalWeight(Select(vs, VoteModel, d[i])) > 0.0
    requires forall i :: 0 <= i < |d| ==> e[i].model == d[i] && EntryFromVotes(vs, ballots, lm, d[i]).averageRank == e[i].averageRank
    ensures MapSeq(WeightedEntries(Buckets(d, vs, VoteModel), ballots, lm), WeightedPair) == MapSeq(e, AveragePair)
  {
    WeightedEntriesAllKept(d, vs, ballots, lm);
    PairsAgree(WeightedEntries(Buckets(d, vs, VoteModel), ballots, lm), e);
  }

  /** A model voted for under one common positive weight keeps a positive
      total weight and its plain mean as weighted average. */
  lemma UniformKept(ballots: seq<Ballot>, lm: map<string, string>, weights: map<string, real>, c: real, m: string)
    requires c > 0.0
    requires forall k :: 0 <= k < |ballots| ==> WeightOf(weights, ballots[k].evaluator) == c
    requires |AllPositions(Rankings(ballots), lm, m)| > 0
    ensures TotalWeight(Select(BallotVotes(ballots, lm, weights), VoteModel, m)) > 0.0
    ensures EntryFromVotes(BallotVotes(ballots, lm, weights), ballots, lm, m).averageRank == Mean(AllPositions(Rankings(ballots), lm, m))
  {
    WeightedSelections(ballots, lm, weights, m);
    UniformEntry(ballots, lm, weights, m, c);
  }

  /** Under one common positive weight the unsorted weighted entries carry
      the same models and averages, in the same order, as the plain ones. */
  lemma EqualWeightsEntries(ballots: seq<Ballot>, lm: map<string, string>, weights: map<string, real>, c: real)
    requires c > 0.0
    requires forall k :: 0 <= k < |ballots| ==> WeightOf(weights, ballots[k].evaluator) == c
    ensures MapSeq(WeightedEntriesOf(ballots, lm, weights), WeightedPair) == MapSeq(Entries(Rankings(ballots), lm), AveragePair)
  {
    var rs := Rankings(ballots);
    var vs := BallotVotes(ballots, lm, weights);
    var d := WeightedVoted(ballots, lm, weights);
    BallotKeys(ballots, lm, weights);
    EntriesSpec(rs, lm);
    var e := Entries(rs, lm);
    forall i | 0 <= i < |d|
      ensures TotalWeight(Select(vs, VoteModel, d[i])) > 0.0
      ensures e[i].model == d[i] && EntryFromVotes(vs, ballots, lm, d[i]).averageRank == e[i].averageRank
    {
      UniformKept(ballots, lm, weights, c, d[i]);
    }
    GroupSpec(vs, VoteModel);
    KeptAgree(d, vs, ballots, lm, e);
  }

  lemma PairOrderAgrees(we: seq<WeightedRanked>, e: seq<Ranked>)
    ensures Agree(we, WeightedPair, ByWeightedAverage, ByPairAverage)
    ensures Agree(e, AveragePair, ByAverage, ByPairAverage)
  {
  }

  /** When every judge carries the same positive weight, weighted voting
      ranks the models exactly as the plain average does, in the same order
      and with the same averages. */
  lemma EqualWeightsAgree(ballots: seq<Ballot>, lm: map<string, string>, weights: map<string, real>, c: real)
    requires c > 0.0
    requires forall k :: 0 <= k < |ballots| ==> WeightOf(weights, ballots[k].evaluator) == c
    ensures MapSeq(WeightedAggregate(ballots, lm, weights), WeightedPair) == MapSeq(Aggregate(Rankings(ballots), lm), AveragePair)
  {
    var we := WeightedEntriesOf(ballots, lm, weights);
    var e := Entries(Rankings(ballots), lm);
    EqualWeightsEntries(ballots, lm, weights, c);
    PairOrderAgrees(we, e);
    SortMap(we, WeightedPair, ByWeightedAverage, ByPairAverage);
    SortMap(e, AveragePair, ByAverage, ByPairAverage);
  }

  /** The weighted aggregate holds the same entries however the judges' ballots are ordered
      (only the order among ties may change). */
  lemma WeightedPermutation(b1: seq<Ballot>, b2: seq<Ballot>, lm: map<string, string>, weights: map<string, real>)
    requires multiset(b1) == multiset(b2)
    ensures forall x :: x in WeightedAggregate(b1, lm, weights) <==> x in WeightedAggregate(b2, lm, weights)
  {
    forall m
      ensures WeightedScore(b1, lm, weights, m) == WeightedScore(b2, lm, weights, m)
      ensures WeightedTotal(b1, lm, weights, m) == WeightedTotal(b2, lm, weights, m)
      ensures MentionCount(b1, lm, m) == MentionCount(b2, lm, m)
    {
      SumOverPermutation(b1, b2, ScoreTerm(lm, weights, m));
      SumOverPermutation(b1, b2, WeightTerm(lm, weights, m));
      CountWherePermutation(b1, b2, NamesTerm(lm, m));
    }
    WeightedValues(b1, lm, weights);
    WeightedValues(b2, lm, weights);
    forall x | x in WeightedAggregate(b1, lm, weights)
      ensures x in WeightedAggregate(b2, lm, weights)
    {
      WeightedMembership(b2, lm, weights, x.model);
      var y :| y in WeightedAggregate(b2, lm, weights) && y.model == x.model;
    }
    forall x | x in WeightedAggregate(b2, lm, weights)
      ensures x in WeightedAggregate(b1, lm, weights)
    {
      WeightedMembership(b1, lm, weights, x.model);
      var y :| y in WeightedAggregate(b1, lm, weights) && y.model == x.model;
    }
  }

  /** A model has positions only if some ranking holds a label that the label map sends to it. */
  lemma {:induction false} PositionsNamed(rankings: seq<seq<string>>, lm: map<string, string>, m: string)
    requires |AllPositions(rankings, lm, m)| > 0
    ensures exists r, k :: 0 <= r < |rankings| && 0 <= k < |rankings[r]| && rankings[r][k] in lm && lm[rankings[r][k]] == m
  {
    var n := |rankings|;
    var front := rankings[..n - 1];
    if |PositionsIn(rankings[n - 1], lm, m)| > 0 {
      PositionsInNonEmpty(rankings[n - 1], lm, m);
      var k :| 0 <= k < |rankings[n - 1]| && rankings[n - 1][k] in lm && lm[rankings[n - 1][k]] == m;
    } else {
      PositionsNamed(front, lm, m);
      var r, k :| 0 <= r < |front| && 0 <= k < |front[r]| && front[r][k] in lm && lm[front[r][k]] == m;
      assert rankings[r] == front[r];
    }
  }
}
