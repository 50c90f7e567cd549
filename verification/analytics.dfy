/** The analytics engine: one pass over the stored conversations counts,
    per strategy, how often it ran and what feedback it got, and, per
    model, how it placed in every saved aggregate ranking. Derived figures
    (averages, win rates), the leaderboard and the best strategy are read
    off those counters. Caching and the summary file are not modelled: the
    summary is recomputed from the conversations given. */
module Analytics {
  import opened Common
  import opened StableSort
  import opened Grouping
  import opened Storage

  /* ---------------- What the loop reads ---------------- */

  /** One assistant message: its strategy (`'unknown'` when missing), its feedback and its saved aggregate. */
  datatype Query = Query(strategy: string, feedback: Option<int>, rankings: seq<RankEntry>)

  const Unknown: string := "unknown"

  function QueryOf(m: Message): Query
    requires m.AssistantMessage?
  {
    var strategy := if m.metadata.Some? && m.metadata.value.strategy.Some? then m.metadata.value.strategy.value else Unknown;
    var rankings := if m.metadata.Some? && m.metadata.value.aggregate.Some? then m.metadata.value.aggregate.value else [];
    Query(strategy, m.feedback, rankings)
  }

  /** The assistant messages of a conversation, in order. */
  function MessageQueries(ms: seq<Message>): (r: seq<Query>)
    ensures |r| <= |ms|
  {
    if |ms| == 0 then []
    else
      var front := MessageQueries(ms[..|ms| - 1]);
      var m := ms[|ms| - 1];
      if m.AssistantMessage? then front + [QueryOf(m)] else front
  }

  /** The assistant messages of all conversations, conversation by conversation. */
  function Queries(convs: seq<Conversation>): seq<Query>
  {
    if |convs| == 0 then [] else Queries(convs[..|convs| - 1]) + MessageQueries(convs[|convs| - 1].messages)
  }

  predicate IsAssistant(m: Message)
  {
    m.AssistantMessage?
  }

  /** Number of assistant messages over all conversations. */
  function AssistantCount(convs: seq<Conversation>): nat
  {
    if |convs| == 0 then 0 else AssistantCount(convs[..|convs| - 1]) + CountWhere(convs[|convs| - 1].messages, IsAssistant)
  }

  /** One model's place in one saved aggregate: position `idx + 1` and the
      saved `average_rank` (the position when it is missing). */
  datatype Placement = Placement(model: string, strategy: string, position: nat, avgRank: real)

  function PlacementModel(p: Placement): string
  {
    p.model
  }

  function PlacementStrategy(p: Placement): string
  {
    p.strategy
  }

  predicate IsWin(p: Placement)
  {
    p.position == 1
  }

  predicate IsTop3(p: Placement)
  {
    p.position <= 3
  }

  /** `enumerate(aggregate_rankings)` of one message, from position `from`. */
  function PlacementsFrom(entries: seq<RankEntry>, strategy: string, from: nat): (r: seq<Placement>)
    ensures |r| == |entries|
    ensures forall k :: 0 <= k < |r| ==> r[k].model == entries[k].model && r[k].strategy == strategy && r[k].position == from + k
    ensures forall k :: 0 <= k < |r| ==>
      r[k].avgRank == if entries[k].averageRank.Some? then entries[k].averageRank.value else (from + k) as real
    decreases |entries|
  {
    if |entries| == 0 then []
    else
      var e := entries[0];
      [Placement(e.model, strategy, from, if e.averageRank.Some? then e.averageRank.value else from as real)]
        + PlacementsFrom(entries[1..], strategy, from + 1)
  }

  /** Every placement of every query, in order. */
  function Placements(qs: seq<Query>): seq<Placement>
  {
    if |qs| == 0 then []
    else Placements(qs[..|qs| - 1]) + PlacementsFrom(qs[|qs| - 1].rankings, qs[|qs| - 1].strategy, 1)
  }

  /* ---------------- The accumulators ---------------- */

  /** `strategy_stats[s]` while the loop runs: `count` and `feedback_scores`. */
  datatype StrategyAcc = StrategyAcc(count: nat, feedbackScores: seq<int>)

  const StrategyInit: StrategyAcc := StrategyAcc(0, [])

  function StrategyStep(a: StrategyAcc, q: Query): StrategyAcc
  {
    StrategyAcc(a.count + 1, if q.feedback.Some? then a.feedbackScores + [q.feedback.value] else a.feedbackScores)
  }

  function QueryStrategy(q: Query): string
  {
    q.strategy
  }

  /** `model_stats[m]['by_strategy'][s]` while the loop runs. */
  datatype SplitAcc = SplitAcc(evaluations: nat, wins: nat, positions: seq<real>)

  const SplitInit: SplitAcc := SplitAcc(0, 0, [])

  function SplitStep(a: SplitAcc, p: Placement): SplitAcc
  {
    SplitAcc(a.evaluations + 1, a.wins + (if IsWin(p) then 1 else 0), a.positions + [p.avgRank])
  }

  /** `model_stats[m]` while the loop runs. */
  datatype ModelAcc = ModelAcc(total: nat, wins: nat, top3: nat, positions: seq<real>, byStrategy: seq<(string, SplitAcc)>)

  const ModelInit: ModelAcc := ModelAcc(0, 0, 0, [], [])

  function ModelStep(a: ModelAcc, p: Placement): ModelAcc
  {
    ModelAcc(a.total + 1, a.wins + (if IsWin(p) then 1 else 0), a.top3 + (if IsTop3(p) then 1 else 0),
             a.positions + [p.avgRank], Bump(a.byStrategy, p.strategy, p, SplitInit, SplitStep))
  }

  /* ---------------- Derived metrics ---------------- */

  datatype StrategyStats = StrategyStats(count: nat, feedbackScores: seq<int>, avgFeedback: Option<real>)

  datatype SplitStats = SplitStats(evaluations: nat, wins: nat, positions: seq<real>, avgRank: Option<real>, winRate: Option<real>)

  datatype ModelStats = ModelStats(totalEvaluations: nat, wins: nat, top3: nat, positions: seq<real>,
                                   avgRank: Option<real>, winRate: real, byStrategy: seq<(string, SplitStats)>)

  datatype Summary = Summary(totalConversations: nat, totalQueries: nat,
                             strategyStats: seq<(string, StrategyStats)>, modelStats: seq<(string, ModelStats)>)

  function FinishStrategy(a: StrategyAcc): StrategyStats
  {
    StrategyStats(a.count, a.feedbackScores, if |a.feedbackScores| > 0 then Some(MeanInt(a.feedbackScores)) else None)
  }

  function FinishSplit(a: SplitAcc): SplitStats
  {
    SplitStats(a.evaluations, a.wins, a.positions,
               if |a.positions| > 0 then Some(MeanReal(a.positions)) else None,
               if a.evaluations > 0 then Some(a.wins as real / a.evaluations as real) else None)
  }

  function FinishSplits(s: seq<(string, SplitAcc)>): (r: seq<(string, SplitStats)>)
    ensures |r| == |s|
    ensures forall i :: 0 <= i < |s| ==> r[i] == (s[i].0, FinishSplit(s[i].1))
  {
    if |s| == 0 then [] else [(s[0].0, FinishSplit(s[0].1))] + FinishSplits(s[1..])
  }

  function FinishModel(a: ModelAcc): ModelStats
  {
    ModelStats(a.total, a.wins, a.top3, a.positions,
               if |a.positions| > 0 then Some(MeanReal(a.positions)) else None,
               if a.total > 0 then a.wins as real / a.total as real else 0.0,
               FinishSplits(a.byStrategy))
  }

  function FinishStrategies(s: seq<(string, StrategyAcc)>): (r: seq<(string, StrategyStats)>)
    ensures |r| == |s|
    ensures forall i :: 0 <= i < |s| ==> r[i] == (s[i].0, FinishStrategy(s[i].1))
  {
    if |s| == 0 then [] else [(s[0].0, FinishStrategy(s[0].1))] + FinishStrategies(s[1..])
  }

  function FinishModels(s: seq<(string, ModelAcc)>): (r: seq<(string, ModelStats)>)
    ensures |r| == |s|
    ensures forall i :: 0 <= i < |s| ==> r[i] == (s[i].0, FinishModel(s[i].1))
  {
    if |s| == 0 then [] else [(s[0].0, FinishModel(s[0].1))] + FinishModels(s[1..])
  }

  /** The strategy statistics of the queries `qs`. */
  function StrategyStatsOf(qs: seq<Query>): seq<(string, StrategyStats)>
  {
    FinishStrategies(Tally(qs, QueryStrategy, StrategyInit, StrategyStep))
  }

  /** The model statistics of the placements `ps`. */
  function ModelStatsOf(ps: seq<Placement>): seq<(string, ModelStats)>
  {
    FinishModels(Tally(ps, PlacementModel, ModelInit, ModelStep))
  }

  /** `compute_all_analytics` over the conversations in listing order. */
  function ComputeAll(convs: seq<Conversation>): Summary
  {
    var qs := Queries(convs);
    Summary(|convs|, |qs|, StrategyStatsOf(qs), ModelStatsOf(Placements(qs)))
  }

  /* ---------------- Counting queries and strategies ---------------- */

  lemma {:induction false} MessageQueriesCount(ms: seq<Message>)
    ensures |MessageQueries(ms)| == CountWhere(ms, IsAssistant)
  {
    if |ms| > 0 {
      MessageQueriesCount(ms[..|ms| - 1]);
    }
  }

  /** `total_queries` is the number of assistant messages. */
  lemma {:induction false} TotalQueries(convs: seq<Conversation>)
    ensures ComputeAll(convs).totalQueries == AssistantCount(convs)
  {
    if |convs| > 0 {
      TotalQueries(convs[..|convs| - 1]);
      MessageQueriesCount(convs[|convs| - 1].messages);
    }
  }

  /** The non-null feedback values of the queries, in order. */
  function FeedbackValues(qs: seq<Query>): (r: seq<int>)
    ensures |r| <= |qs|
    ensures forall k :: 0 <= k < |r| ==> exists j :: 0 <= j < |qs| && qs[j].feedback == Some(r[k])
  {
    if |qs| == 0 then []
    else
      var front := FeedbackValues(qs[..|qs| - 1]);
      var q := qs[|qs| - 1];
      if q.feedback.Some? then front + [q.feedback.value] else front
  }

  /** Folding the strategy counters counts the queries and keeps their feedback in order. */
  lemma {:induction false} StrategySteps(qs: seq<Query>)
    ensures Steps(qs, StrategyInit, StrategyStep) == StrategyAcc(|qs|, FeedbackValues(qs))
  {
    if |qs| > 0 {
      StrategySteps(qs[..|qs| - 1]);
    }
  }

  /** The statistics of a strategy whose queries are `qs`: their number,
      their feedback in order, and its mean when there is any. */
  lemma StrategyOf(qs: seq<Query>)
    ensures var st := FinishStrategy(Steps(qs, StrategyInit, StrategyStep));
      && st.count == |qs|
      && st.feedbackScores == FeedbackValues(qs)
      && (st.avgFeedback.Some? <==> |FeedbackValues(qs)| > 0)
      && (st.avgFeedback.Some? ==> st.avgFeedback.value == MeanInt(FeedbackValues(qs)))
  {
    StrategySteps(qs);
  }

  /** Per-strategy statistics: one entry per strategy in order of first use,
      holding the statistics of exactly that strategy's queries. */
  lemma StrategyStatsSpec(qs: seq<Query>)
    ensures |StrategyStatsOf(qs)| == |Dedup(Keys(qs, QueryStrategy))|
    ensures forall i :: 0 <= i < |StrategyStatsOf(qs)| ==>
      StrategyStatsOf(qs)[i] == (Dedup(Keys(qs, QueryStrategy))[i], FinishStrategy(Steps(Select(qs, QueryStrategy, Dedup(Keys(qs, QueryStrategy))[i]), StrategyInit, StrategyStep)))
  {
    TallySpec(qs, QueryStrategy, StrategyInit, StrategyStep);
  }

  /** A strategy has an entry exactly when some query used it
      (a message without a strategy counts as `'unknown'`). */
  lemma StrategyKeys(qs: seq<Query>, k: string)
    ensures (exists i :: 0 <= i < |StrategyStatsOf(qs)| && StrategyStatsOf(qs)[i].0 == k) <==>
      exists j :: 0 <= j < |qs| && qs[j].strategy == k
  {
    var t := Tally(qs, QueryStrategy, StrategyInit, StrategyStep);
    TallyKeys(qs, QueryStrategy, StrategyInit, StrategyStep, k);
    assert forall i :: 0 <= i < |t| ==> StrategyStatsOf(qs)[i].0 == t[i].0;
    assert forall j :: 0 <= j < |qs| ==> QueryStrategy(qs[j]) == qs[j].strategy;
  }

  function CountTotal(s: seq<(string, StrategyAcc)>): nat
  {
    if |s| == 0 then 0 else s[0].1.count + CountTotal(s[1..])
  }

  lemma {:induction false} BumpCount(acc: seq<(string, StrategyAcc)>, k: string, q: Query)
    ensures CountTotal(Bump(acc, k, q, StrategyInit, StrategyStep)) == CountTotal(acc) + 1
  {
    if |acc| > 0 && acc[0].0 != k {
      BumpCount(acc[1..], k, q);
      assert Bump(acc, k, q, StrategyInit, StrategyStep)[1..] == Bump(acc[1..], k, q, StrategyInit, StrategyStep);
    }
  }

  lemma {:induction false} TallyCount(qs: seq<Query>)
    ensures CountTotal(Tally(qs, QueryStrategy, StrategyInit, StrategyStep)) == |qs|
  {
    if |qs| > 0 {
      TallyCount(qs[..|qs| - 1]);
      BumpCount(Tally(qs[..|qs| - 1], QueryStrategy, StrategyInit, StrategyStep), qs[|qs| - 1].strategy, qs[|qs| - 1]);
    }
  }

  function StatsCountTotal(s: seq<(string, StrategyStats)>): nat
  {
    if |s| == 0 then 0 else s[0].1.count + StatsCountTotal(s[1..])
  }

  lemma {:induction false} FinishKeepsCounts(s: seq<(string, StrategyAcc)>)
    ensures StatsCountTotal(FinishStrategies(s)) == CountTotal(s)
  {
    if |s| > 0 {
      FinishKeepsCounts(s[1..]);
      assert FinishStrategies(s)[1..] == FinishStrategies(s[1..]);
    }
  }

  /** The per-strategy counts add up to `total_queries`. */
  lemma StrategyCountsSum(convs: seq<Conversation>)
    ensures StatsCountTotal(ComputeAll(convs).strategyStats) == ComputeAll(convs).totalQueries
  {
    var qs := Queries(convs);
    TallyCount(qs);
    FinishKeepsCounts(Tally(qs, QueryStrategy, StrategyInit, StrategyStep));
  }

  /* ---------------- Model counters ---------------- */

  /** The recorded `average_rank` values of the placements, in order. */
  function AvgRanks(ps: seq<Placement>): (r: seq<real>)
    ensures |r| == |ps|
    ensures forall k :: 0 <= k < |ps| ==> r[k] == ps[k].avgRank
  {
    if |ps| == 0 then [] else AvgRanks(ps[..|ps| - 1]) + [ps[|ps| - 1].avgRank]
  }

  /** Folding a model's counters over its placements counts them, its wins and
      top-3 places, records every average rank, and splits them by strategy. */
  lemma {:induction false} ModelSteps(ps: seq<Placement>)
    ensures Steps(ps, ModelInit, ModelStep) ==
      ModelAcc(|ps|, CountWhere(ps, IsWin), CountWhere(ps, IsTop3), AvgRanks(ps), Tally(ps, PlacementStrategy, SplitInit, SplitStep))
  {
    if |ps| > 0 {
      ModelSteps(ps[..|ps| - 1]);
    }
  }

  function SplitEvaluations(s: seq<(string, SplitAcc)>): nat
  {
    if |s| == 0 then 0 else s[0].1.evaluations + SplitEvaluations(s[1..])
  }

  function SplitWins(s: seq<(string, SplitAcc)>): nat
  {
    if |s| == 0 then 0 else s[0].1.wins + SplitWins(s[1..])
  }

  lemma {:induction false} BumpSplit(acc: seq<(string, SplitAcc)>, k: string, p: Placement)
    ensures SplitEvaluations(Bump(acc, k, p, SplitInit, SplitStep)) == SplitEvaluations(acc) + 1
    ensures SplitWins(Bump(acc, k, p, SplitInit, SplitStep)) == SplitWins(acc) + (if IsWin(p) then 1 else 0)
  {
    if |acc| > 0 && acc[0].0 != k {
      BumpSplit(acc[1..], k, p);
      assert Bump(acc, k, p, SplitInit, SplitStep)[1..] == Bump(acc[1..], k, p, SplitInit, SplitStep);
    }
  }

  /** Per-strategy evaluations and wins add up to the model's totals. */
  lemma {:induction false} SplitTotals(ps: seq<Placement>)
    ensures SplitEvaluations(Tally(ps, PlacementStrategy, SplitInit, SplitStep)) == |ps|
    ensures SplitWins(Tally(ps, PlacementStrategy, SplitInit, SplitStep)) == CountWhere(ps, IsWin)
  {
    if |ps| > 0 {
      var n := |ps| - 1;
      SplitTotals(ps[..n]);
      BumpSplit(Tally(ps[..n], PlacementStrategy, SplitInit, SplitStep), ps[n].strategy, ps[n]);
    }
  }

  function StatsEvaluations(s: seq<(string, SplitStats)>): nat
  {
    if |s| == 0 then 0 else s[0].1.evaluations + StatsEvaluations(s[1..])
  }

  function StatsWins(s: seq<(string, SplitStats)>): nat
  {
    if |s| == 0 then 0 else s[0].1.wins + StatsWins(s[1..])
  }

  lemma {:induction false} FinishSplitsTotals(s: seq<(string, SplitAcc)>)
    ensures StatsEvaluations(FinishSplits(s)) == SplitEvaluations(s)
    ensures StatsWins(FinishSplits(s)) == SplitWins(s)
  {
    if |s| > 0 {
      FinishSplitsTotals(s[1..]);
      assert FinishSplits(s)[1..] == FinishSplits(s[1..]);
    }
  }

  lemma RateBounds(w: nat, n: nat)
    requires 0 < n && w <= n
    ensures 0.0 <= w as real / n as real <= 1.0
  {
    QuotientBounds(w as real, n as real, 0.0, 1.0);
  }

  /** The counters of a model with placements `ps`: their number, its wins
      and top-3 places, and every recorded average rank. */
  lemma ModelCounts(ps: seq<Placement>)
    ensures var st := FinishModel(Steps(ps, ModelInit, ModelStep));
      && st.totalEvaluations == |ps|
      && st.wins == CountWhere(ps, IsWin)
      && st.top3 == CountWhere(ps, IsTop3)
      && st.positions == AvgRanks(ps)
  {
    ModelSteps(ps);
  }

  /** A model with placements has wins <= top_3 <= total_evaluations, a win
      rate in [0, 1], the mean of its recorded ranks, and per-strategy
      figures that add up to the totals. */
  lemma ModelBounds(ps: seq<Placement>)
    requires |ps| > 0
    ensures var st := FinishModel(Steps(ps, ModelInit, ModelStep));
      && 0 < st.totalEvaluations == |st.positions|
      && st.wins <= st.top3 <= st.totalEvaluations
      && st.winRate == st.wins as real / st.totalEvaluations as real
      && 0.0 <= st.winRate <= 1.0
      && st.avgRank == Some(MeanReal(st.positions))
      && StatsEvaluations(st.byStrategy) == st.totalEvaluations
      && StatsWins(st.byStrategy) == st.wins
  {
    ModelSteps(ps);
    SplitTotals(ps);
    FinishSplitsTotals(Tally(ps, PlacementStrategy, SplitInit, SplitStep));
    CountWhereImplies(ps, IsWin, IsTop3);
    RateBounds(CountWhere(ps, IsWin), |ps|);
  }

  /** Per-model statistics: one entry per model in order of its first
      placement, holding the statistics of exactly that model's placements. */
  lemma ModelStatsSpec(ps: seq<Placement>)
    ensures |ModelStatsOf(ps)| == |Dedup(Keys(ps, PlacementModel))|
    ensures forall i :: 0 <= i < |ModelStatsOf(ps)| ==>
      && ModelStatsOf(ps)[i].0 == Dedup(Keys(ps, PlacementModel))[i]
      && |Select(ps, PlacementModel, ModelStatsOf(ps)[i].0)| > 0
      && ModelStatsOf(ps)[i].1 == FinishModel(Steps(Select(ps, PlacementModel, ModelStatsOf(ps)[i].0), ModelInit, ModelStep))
  {
    TallySpec(ps, PlacementModel, ModelInit, ModelStep);
    var d := Dedup(Keys(ps, PlacementModel));
    forall i | 0 <= i < |d|
      ensures |Select(ps, PlacementModel, d[i])| > 0
    {
      KeysInDedup(ps, PlacementModel, d[i]);
    }
  }

  /** Every model entry of a summary satisfies the bounds of `ModelBounds`. */
  lemma ModelStatsBounds(ps: seq<Placement>)
    ensures forall i :: 0 <= i < |ModelStatsOf(ps)| ==>
      && 0 < ModelStatsOf(ps)[i].1.totalEvaluations == |ModelStatsOf(ps)[i].1.positions|
      && ModelStatsOf(ps)[i].1.wins <= ModelStatsOf(ps)[i].1.top3 <= ModelStatsOf(ps)[i].1.totalEvaluations
      && 0.0 <= ModelStatsOf(ps)[i].1.winRate <= 1.0
      && ModelStatsOf(ps)[i].1.avgRank == Some(MeanReal(ModelStatsOf(ps)[i].1.positions))
      && StatsEvaluations(ModelStatsOf(ps)[i].1.byStrategy) == ModelStatsOf(ps)[i].1.totalEvaluations
      && StatsWins(ModelStatsOf(ps)[i].1.byStrategy) == ModelStatsOf(ps)[i].1.wins
  {
    ModelStatsSpec(ps);
    forall i | 0 <= i < |ModelStatsOf(ps)|
      ensures && 0 < ModelStatsOf(ps)[i].1.totalEvaluations == |ModelStatsOf(ps)[i].1.positions|
        && ModelStatsOf(ps)[i].1.wins <= ModelStatsOf(ps)[i].1.top3 <= ModelStatsOf(ps)[i].1.totalEvaluations
        && 0.0 <= ModelStatsOf(ps)[i].1.winRate <= 1.0
        && ModelStatsOf(ps)[i].1.avgRank == Some(MeanReal(ModelStatsOf(ps)[i].1.positions))
        && StatsEvaluations(ModelStatsOf(ps)[i].1.byStrategy) == ModelStatsOf(ps)[i].1.totalEvaluations
        && StatsWins(ModelStatsOf(ps)[i].1.byStrategy) == ModelStatsOf(ps)[i].1.wins
    {
      ModelBounds(Select(ps, PlacementModel, ModelStatsOf(ps)[i].0));
    }
  }

  /* ---------------- Feedback range ---------------- */

  /** Every feedback value read from the queries is -1, 0 or 1. */
  predicate FeedbackInRange(qs: seq<Query>)
  {
    forall q :: q in qs && q.feedback.Some? ==> IsFeedback(q.feedback.value)
  }

  /** Every feedback stored in the listed conversations is -1, 0 or 1. */
  ghost predicate StoredFeedbackValid(convs: seq<Conversation>)
  {
    forall c, i :: c in convs && 0 <= i < |c.messages| && c.messages[i].AssistantMessage? && c.messages[i].feedback.Some? ==>
      IsFeedback(c.messages[i].feedback.value)
  }

  /** Conversations read from a store whose feedback is valid have valid feedback. */
  lemma ListedFeedbackValid(store: Store, convs: seq<Conversation>)
    requires FeedbackValid(store)
    requires forall c :: c in convs ==> c.id in store && store[c.id] == c
    ensures StoredFeedbackValid(convs)
  {
  }

  lemma {:induction false} MessageFeedback(ms: seq<Message>)
    requires forall i :: 0 <= i < |ms| && ms[i].AssistantMessage? && ms[i].feedback.Some? ==> IsFeedback(ms[i].feedback.value)
    ensures FeedbackInRange(MessageQueries(ms))
  {
    if |ms| > 0 {
      MessageFeedback(ms[..|ms| - 1]);
    }
  }

  /** Only stored feedback values reach the queries. */
  lemma {:induction false} QueriesFeedback(convs: seq<Conversation>)
    requires StoredFeedbackValid(convs)
    ensures FeedbackInRange(Queries(convs))
  {
    if |convs| > 0 {
      var c := convs[|convs| - 1];
      assert c in convs;
      QueriesFeedback(convs[..|convs| - 1]);
      MessageFeedback(c.messages);
    }
  }

  /** With feedback in {-1, 0, 1}, every `avg_feedback` lies in [-1, 1]. */
  lemma FeedbackBounds(qs: seq<Query>)
    requires FeedbackInRange(qs)
    ensures forall i :: 0 <= i < |StrategyStatsOf(qs)| && StrategyStatsOf(qs)[i].1.avgFeedback.Some? ==>
      -1.0 <= StrategyStatsOf(qs)[i].1.avgFeedback.value <= 1.0
  {
    StrategyStatsSpec(qs);
    forall i | 0 <= i < |StrategyStatsOf(qs)| && StrategyStatsOf(qs)[i].1.avgFeedback.Some?
      ensures -1.0 <= StrategyStatsOf(qs)[i].1.avgFeedback.value <= 1.0
    {
      var sel := Select(qs, QueryStrategy, StrategyStatsOf(qs)[i].0);
      assert FeedbackInRange(sel) by {
        forall q | q in sel
          ensures q in qs
        {
          var j :| 0 <= j < |sel| && sel[j] == q;
        }
      }
      FeedbackAverageBounds(sel);
    }
  }

  /** The average feedback of queries with feedback in {-1, 0, 1} lies in [-1, 1]. */
  lemma FeedbackAverageBounds(qs: seq<Query>)
    requires FeedbackInRange(qs)
    ensures var st := FinishStrategy(Steps(qs, StrategyInit, StrategyStep));
      st.avgFeedback.Some? ==> -1.0 <= st.avgFeedback.value <= 1.0
  {
    StrategyOf(qs);
    var fs := FeedbackValues(qs);
    forall k | 0 <= k < |fs|
      ensures -1 <= fs[k] <= 1
    {
      var j :| 0 <= j < |qs| && qs[j].feedback == Some(fs[k]);
      assert qs[j] in qs;
    }
    if |fs| > 0 {
      MeanIntBounds(fs, -1, 1);
    }
  }

  /* ---------------- Lookups ---------------- */

  /** `get_model_performance`. */
  function GetModelPerformance(summary: Summary, model: string): Option<ModelStats>
  {
    Lookup(summary.modelStats, model)
  }

  /** `get_strategy_performance`. */
  function GetStrategyPerformance(summary: Summary, strategy: string): Option<StrategyStats>
  {
    Lookup(summary.strategyStats, strategy)
  }

  /** A model's performance is present exactly when it was placed in some
      saved aggregate, and then it is the statistics of exactly its placements. */
  lemma ModelPerformance(ps: seq<Placement>, model: string)
    ensures Lookup(ModelStatsOf(ps), model) ==
      if exists j :: 0 <= j < |ps| && ps[j].model == model
      then Some(FinishModel(Steps(Select(ps, PlacementModel, model), ModelInit, ModelStep)))
      else None
  {
    var present := exists j :: 0 <= j < |ps| && ps[j].model == model;
    ModelStatsBy(ps);
    ModelKeys(ps, model);
    LookupByKey(ModelStatsOf(ps), model, ModelFinish(ps), present);
  }

  /** The statistics `ModelStatsOf(ps)` holds for model `k`. */
  function ModelFinish(ps: seq<Placement>): string -> ModelStats
  {
    k => FinishModel(Steps(Select(ps, PlacementModel, k), ModelInit, ModelStep))
  }

  /** Each entry of `ModelStatsOf(ps)` is its key with `ModelFinish(ps)` of it. */
  lemma ModelStatsBy(ps: seq<Placement>)
    ensures forall i :: 0 <= i < |ModelStatsOf(ps)| ==> ModelStatsOf(ps)[i].1 == ModelFinish(ps)(ModelStatsOf(ps)[i].0)
  {
    ModelStatsSpec(ps);
  }

  /** A model has an entry exactly when some placement names it. */
  lemma ModelKeys(ps: seq<Placement>, k: string)
    ensures (exists i :: 0 <= i < |ModelStatsOf(ps)| && ModelStatsOf(ps)[i].0 == k) <==>
      exists j :: 0 <= j < |ps| && ps[j].model == k
  {
    var t := Tally(ps, PlacementModel, ModelInit, ModelStep);
    TallyKeys(ps, PlacementModel, ModelInit, ModelStep, k);
    assert forall i :: 0 <= i < |t| ==> ModelStatsOf(ps)[i].0 == t[i].0;
    assert forall j :: 0 <= j < |ps| ==> PlacementModel(ps[j]) == ps[j].model;
  }

  /** A strategy's performance is present exactly when some query used it,
      and then it is the statistics of exactly those queries. */
  lemma StrategyPerformance(qs: seq<Query>, strategy: string)
    ensures Lookup(StrategyStatsOf(qs), strategy) ==
      if exists j :: 0 <= j < |qs| && qs[j].strategy == strategy
      then Some(FinishStrategy(Steps(Select(qs, QueryStrategy, strategy), StrategyInit, StrategyStep)))
      else None
  {
    var present := exists j :: 0 <= j < |qs| && qs[j].strategy == strategy;
    StrategyStatsBy(qs);
    StrategyKeys(qs, strategy);
    LookupByKey(StrategyStatsOf(qs), strategy, StrategyFinish(qs), present);
  }

  /** The statistics `StrategyStatsOf(qs)` holds for strategy `k`. */
  function StrategyFinish(qs: seq<Query>): string -> StrategyStats
  {
    k => FinishStrategy(Steps(Select(qs, QueryStrategy, k), StrategyInit, StrategyStep))
  }

  /** Each entry of `StrategyStatsOf(qs)` is its key with `StrategyFinish(qs)` of it. */
  lemma StrategyStatsBy(qs: seq<Query>)
    ensures forall i :: 0 <= i < |StrategyStatsOf(qs)| ==> StrategyStatsOf(qs)[i].1 == StrategyFinish(qs)(StrategyStatsOf(qs)[i].0)
  {
    StrategyStatsSpec(qs);
  }

  /* ---------------- Leaderboard ---------------- */

  /** One leaderboard row; `top_3_rate` is 0 for a model never evaluated. */
  datatype LeaderEntry = LeaderEntry(model: string, winRate: real, wins: nat, totalEvaluations: nat,
                                     avgRank: Option<real>, top3Rate: real)

  function LeaderOf(entry: (string, ModelStats)): LeaderEntry
  {
    var st := entry.1;
    LeaderEntry(entry.0, st.winRate, st.wins, st.totalEvaluations, st.avgRank,
                if st.totalEvaluations > 0 then st.top3 as real / st.totalEvaluations as real else 0.0)
  }

  /** The sort key `(win_rate, total_evaluations)` with `reverse=True`. */
  predicate Higher(a: LeaderEntry, b: LeaderEntry)
  {
    a.winRate > b.winRate || (a.winRate == b.winRate && a.totalEvaluations >= b.totalEvaluations)
  }

  /** Every model's row, best first. */
  function Standings(summary: Summary): seq<LeaderEntry>
  {
    SortBy(MapSeq(summary.modelStats, LeaderOf), Higher)
  }

  /** `get_model_leaderboard(limit)`: the first `limit` rows (Python slicing, so a negative limit drops rows from the end). */
  function Leaderboard(summary: Summary, limit: int): (r: seq<LeaderEntry>)
    ensures r <= Standings(summary)
    ensures limit >= 0 ==> |r| == if limit <= |summary.modelStats| then limit else |summary.modelStats|
  {
    Take(Standings(summary), limit)
  }

  /** The leaderboard holds one row per model, ordered by win rate then by
      evaluations, both descending, with equal keys in summary order, and no
      model left out of it ranks above a model shown. */
  lemma LeaderboardSpec(summary: Summary, limit: int)
    ensures multiset(Standings(summary)) == multiset(MapSeq(summary.modelStats, LeaderOf))
    ensures Sorted(Leaderboard(summary, limit), Higher)
    ensures KeepsTieOrder(MapSeq(summary.modelStats, LeaderOf), Standings(summary), Higher)
    ensures forall i, j :: 0 <= i < |Leaderboard(summary, limit)| <= j < |Standings(summary)| ==>
      Higher(Leaderboard(summary, limit)[i], Standings(summary)[j])
  {
    var rows := MapSeq(summary.modelStats, LeaderOf);
    assert TotalPreorder(Higher);
    SortSorted(rows, Higher);
    SortKeepsTieOrder(rows, Higher);
    var r := Leaderboard(summary, limit);
    assert forall i :: 0 <= i < |r| ==> r[i] == Standings(summary)[i];
  }

  /** A computed summary's rows have their rates in [0, 1]. */
  lemma LeaderRates(convs: seq<Conversation>)
    ensures forall x :: x in Standings(ComputeAll(convs)) ==> 0.0 <= x.winRate <= 1.0 && 0.0 <= x.top3Rate <= 1.0
  {
    var ps := Placements(Queries(convs));
    var stats := ModelStatsOf(ps);
    var rows := MapSeq(stats, LeaderOf);
    assert forall k :: 0 <= k < |rows| ==> RatesInRange(rows[k]) by {
      ModelStatsBounds(ps);
      forall k | 0 <= k < |rows| ensures RatesInRange(rows[k]) {
        LeaderOfRates(stats[k]);
      }
    }
    forall x | x in Standings(ComputeAll(convs))
      ensures RatesInRange(x)
    {
      assert x in multiset(rows);
    }
  }

  predicate RatesInRange(x: LeaderEntry)
  {
    0.0 <= x.winRate <= 1.0 && 0.0 <= x.top3Rate <= 1.0
  }

  /** A row built from consistent counters has both rates in [0, 1]. */
  lemma LeaderOfRates(e: (string, ModelStats))
    requires 0 < e.1.totalEvaluations && e.1.top3 <= e.1.totalEvaluations
    requires 0.0 <= e.1.winRate <= 1.0
    ensures RatesInRange(LeaderOf(e))
  {
    RateBounds(e.1.top3, e.1.totalEvaluations);
  }

  /* ---------------- Best strategy ---------------- */

  const DefaultStrategy: string := "simple"

  /** `stats` has an average feedback above `floor`. */
  predicate RatedAbove(stats: StrategyStats, floor: real)
  {
    stats.avgFeedback.Some? && stats.avgFeedback.value > floor
  }

  /** The loop of `get_best_strategy_for_query_type`: keep the first strategy
      whose average feedback beats the best seen so far. */
  function BestFrom(s: seq<(string, StrategyStats)>, best: string, score: real): string
    decreases |s|
  {
    if |s| == 0 then best
    else if RatedAbove(s[0].1, score) then BestFrom(s[1..], s[0].0, s[0].1.avgFeedback.value)
    else BestFrom(s[1..], best, score)
  }

  /** `get_best_strategy_for_query_type`; the query type is not used. */
  function BestStrategy(summary: Summary): string
  {
    BestFrom(summary.strategyStats, DefaultStrategy, -2.0)
  }

  /** Entry `i` has the highest average feedback, above `floor`, and no
      earlier entry has as high a one. */
  ghost predicate FirstBest(s: seq<(string, StrategyStats)>, i: int, floor: real)
  {
    && 0 <= i < |s| && RatedAbove(s[i].1, floor)
    && (forall j :: 0 <= j < |s| && s[j].1.avgFeedback.Some? ==> s[j].1.avgFeedback.value <= s[i].1.avgFeedback.value)
    && (forall j :: 0 <= j < i && s[j].1.avgFeedback.Some? ==> s[j].1.avgFeedback.value < s[i].1.avgFeedback.value)
  }

  /** A first best entry of `s[1..]` is one of `s` when the head does not beat it. */
  lemma FirstBestTail(s: seq<(string, StrategyStats)>, i: int, floor: real, score: real)
    requires |s| > 0 && FirstBest(s[1..], i, floor) && score <= floor
    requires RatedAbove(s[0].1, score) ==> s[0].1.avgFeedback.value == floor
    ensures FirstBest(s, i + 1, score)
  {
    var t := s[1..];
    assert s[i + 1] == t[i];
    forall j | 0 <= j < |s| && s[j].1.avgFeedback.Some?
      ensures s[j].1.avgFeedback.value <= s[i + 1].1.avgFeedback.value
    {
      if j > 0 { assert s[j] == t[j - 1]; }
    }
    forall j | 0 <= j < i + 1 && s[j].1.avgFeedback.Some?
      ensures s[j].1.avgFeedback.value < s[i + 1].1.avgFeedback.value
    {
      if j > 0 { assert s[j] == t[j - 1]; }
    }
  }

  /** The head of `s` is its first best entry when nothing after it beats it. */
  lemma FirstBestHead(s: seq<(string, StrategyStats)>, score: real)
    requires |s| > 0 && RatedAbove(s[0].1, score)
    requires forall j :: 0 <= j < |s[1..]| ==> !RatedAbove(s[1..][j].1, s[0].1.avgFeedback.value)
    ensures FirstBest(s, 0, score)
  {
    forall j | 0 < j < |s| ensures !RatedAbove(s[j].1, s[0].1.avgFeedback.value) {
      assert s[j] == s[1..][j - 1];
    }
  }

  lemma {:induction false} BestFromSpec(s: seq<(string, StrategyStats)>, best: string, score: real)
    ensures (forall j :: 0 <= j < |s| ==> !RatedAbove(s[j].1, score)) ==> BestFrom(s, best, score) == best
    ensures (exists j :: 0 <= j < |s| && RatedAbove(s[j].1, score)) ==>
      exists i :: FirstBest(s, i, score) && BestFrom(s, best, score) == s[i].0
    decreases |s|
  {
    if |s| > 0 {
      var t := s[1..];
      if RatedAbove(s[0].1, score) {
        var v := s[0].1.avgFeedback.value;
        BestFromSpec(t, s[0].0, v);
        if exists j :: 0 <= j < |t| && RatedAbove(t[j].1, v) {
          var i :| FirstBest(t, i, v) && BestFrom(t, s[0].0, v) == t[i].0;
          FirstBestTail(s, i, v, score);
          assert s[i + 1] == t[i];
        } else {
          FirstBestHead(s, score);
        }
      } else {
        BestFromSpec(t, best, score);
        if exists j :: 0 <= j < |t| && RatedAbove(t[j].1, score) {
          var i :| FirstBest(t, i, score) && BestFrom(t, best, score) == t[i].0;
          FirstBestTail(s, i, score, score);
          assert s[i + 1] == t[i];
        } else {
          assert forall j :: 0 <= j < |s| ==> !RatedAbove(s[j].1, score) by {
            forall j | 0 < j < |s| ensures !RatedAbove(s[j].1, score) { assert s[j] == t[j - 1]; }
          }
        }
      }
    }
  }

  /** The recommended strategy is `'simple'` when no strategy has feedback,
      and otherwise the first strategy with the highest average feedback. */
  lemma BestStrategySpec(qs: seq<Query>, totalConversations: nat)
    requires FeedbackInRange(qs)
    ensures var summary := Summary(totalConversations, |qs|, StrategyStatsOf(qs), ModelStatsOf(Placements(qs)));
      && ((forall j :: 0 <= j < |summary.strategyStats| ==> summary.strategyStats[j].1.avgFeedback.None?) ==>
            BestStrategy(summary) == DefaultStrategy)
      && ((exists j :: 0 <= j < |summary.strategyStats| && summary.strategyStats[j].1.avgFeedback.Some?) ==>
            exists i :: FirstBest(summary.strategyStats, i, -2.0) && BestStrategy(summary) == summary.strategyStats[i].0)
  {
    var s := StrategyStatsOf(qs);
    FeedbackBounds(qs);
    BestFromSpec(s, DefaultStrategy, -2.0);
    if exists j :: 0 <= j < |s| && s[j].1.avgFeedback.Some? {
      var j :| 0 <= j < |s| && s[j].1.avgFeedback.Some?;
      assert RatedAbove(s[j].1, -2.0);
    }
  }
}
