/** The strategy recommender: the classified category picks an ordered
    list of preferred strategies, historical feedback from the analytics
    summary re-weights them, and the best one is recommended together with
    up to three fallbacks, an overall confidence and an explanation. */
module Recommender {
  import opened Common
  import opened StableSort
  import QueryClassifier
  import Analytics
  import opened Registry

  /** `_get_strategy_performance`: strategy name to its statistics, in the
      order of the summary; no summary gives no data. */
  type Performance = seq<(string, Analytics.StrategyStats)>

  function PerformanceOf(summary: Option<Analytics.Summary>): Performance
  {
    match summary
    case None => []
    case Some(s) => s.strategyStats
  }

  /* ---------------- Preferences ---------------- */

  /** The list used for a category missing from the table. */
  const DefaultPreferences: seq<Kind> := [SimpleRanking, MultiRound, WeightedVoting, ReasoningAware]

  /** `category_preferences`. */
  const CategoryPreferences: seq<(string, seq<Kind>)> := [
    ("reasoning", [ReasoningAware, MultiRound, WeightedVoting, SimpleRanking]),
    ("technical", [MultiRound, WeightedVoting, ReasoningAware, SimpleRanking]),
    ("analytical", [WeightedVoting, MultiRound, SimpleRanking, ReasoningAware]),
    ("creative", [SimpleRanking, MultiRound, WeightedVoting, ReasoningAware]),
    ("factual", [SimpleRanking, WeightedVoting, MultiRound, ReasoningAware])
  ]

  /** `category_preferences.get(category, default)`. */
  function Preferences(category: string): seq<Kind>
  {
    match Lookup(CategoryPreferences, category)
    case Some(p) => p
    case None => DefaultPreferences
  }

  /** A category outside the table falls back to the default list. */
  lemma UnknownCategory(category: string)
    requires forall i :: 0 <= i < |CategoryPreferences| ==> CategoryPreferences[i].0 != category
    ensures Preferences(category) == DefaultPreferences
  {
  }

  /** Every strategy occurs exactly once in a list. */
  predicate EachOnce(s: seq<Kind>)
  {
    && |s| == 4 && Distinct(s)
    && SimpleRanking in s && MultiRound in s && ReasoningAware in s && WeightedVoting in s
  }

  /** Each row of the table lists every strategy once. */
  lemma RowEachOnce(i: nat)
    requires i < |CategoryPreferences|
    ensures EachOnce(CategoryPreferences[i].1)
  {
    var row := CategoryPreferences[i].1;
    if i == 0 {
      assert row == [ReasoningAware, MultiRound, WeightedVoting, SimpleRanking];
    } else if i == 1 {
      assert row == [MultiRound, WeightedVoting, ReasoningAware, SimpleRanking];
    } else if i == 2 {
      assert row == [WeightedVoting, MultiRound, SimpleRanking, ReasoningAware];
    } else if i == 3 {
      assert row == [SimpleRanking, MultiRound, WeightedVoting, ReasoningAware];
    } else {
      assert row == [SimpleRanking, WeightedVoting, MultiRound, ReasoningAware];
    }
  }

  /** Every preference list orders the four built-in strategies, each once. */
  lemma PreferencesArePermutations(category: string)
    ensures EachOnce(Preferences(category))
  {
    var r := Lookup(CategoryPreferences, category);
    if r.Some? {
      var i :| 0 <= i < |CategoryPreferences| && CategoryPreferences[i] == (category, r.value);
      RowEachOnce(i);
    }
  }

  /** Two lists holding each strategy once have the same elements. */
  lemma EachOncePermutation(a: seq<Kind>, b: seq<Kind>)
    requires EachOnce(a) && Distinct(b) && multiset(a) == multiset(b)
    ensures EachOnce(b)
  {
    assert SimpleRanking in multiset(a) && MultiRound in multiset(a);
    assert ReasoningAware in multiset(a) && WeightedVoting in multiset(a);
  }

  /* ---------------- Scoring ---------------- */

  /** `1.0 - idx * 0.1`: 1.0 for the first preference, 0.9 for the second, and so on. */
  function PreferenceScore(idx: nat): real
  {
    1.0 - (idx as real) * 0.1
  }

  /** The strategy has an average rating from at least three uses. */
  predicate Trusted(perf: Performance, strategy: Kind)
  {
    var st := Lookup(perf, Key(strategy));
    st.Some? && st.value.avgFeedback.Some? && st.value.count >= 3
  }

  /** 70% the rating rescaled from [-1, 1] to [0, 1], 30% the preference score. */
  function Blend(feedback: real, preference: real): real
  {
    0.7 * ((feedback + 1.0) / 2.0) + 0.3 * preference
  }

  /** The combined score of the strategy at position `idx` of the preferences. */
  function CombinedScore(perf: Performance, strategy: Kind, idx: nat): real
  {
    if Trusted(perf, strategy) then Blend(Lookup(perf, Key(strategy)).value.avgFeedback.value, PreferenceScore(idx))
    else PreferenceScore(idx)
  }

  /** Each preference with its combined score, in preference order. */
  function Combined(prefs: seq<Kind>, perf: Performance): (r: seq<(Kind, real)>)
    ensures |r| == |prefs|
  {
    seq(|prefs|, i requires 0 <= i < |prefs| => (prefs[i], CombinedScore(perf, prefs[i], i)))
  }

  /** `0.5 + 0.5 * query_confidence`, the same for every strategy. */
  function Factor(confidence: real): real
  {
    0.5 + 0.5 * confidence
  }

  function Scale(k: real): ((Kind, real)) -> (Kind, real)
  {
    (p: (Kind, real)) => (p.0, p.1 * k)
  }

  /** The `scores` dict: each preference with its final score. */
  function Scored(prefs: seq<Kind>, perf: Performance, confidence: real): (r: seq<(Kind, real)>)
    ensures |r| == |prefs|
  {
    MapSeq(Combined(prefs, perf), Scale(Factor(confidence)))
  }

  /** `reverse=True` on the score: a higher score comes first, ties keep their order. */
  predicate ByScore(a: (Kind, real), b: (Kind, real))
  {
    a.1 >= b.1
  }

  function Name(p: (Kind, real)): Kind
  {
    p.0
  }

  /** `_score_strategies`: the preferences sorted by final score, descending and stable. */
  function ScoreStrategies(prefs: seq<Kind>, perf: Performance, confidence: real): (r: seq<Kind>)
    ensures |r| == |prefs|
  {
    MapSeq(SortBy(Scored(prefs, perf, confidence), ByScore), Name)
  }

  /** The names of the scored list are the preferences themselves. */
  lemma ScoredNames(prefs: seq<Kind>, perf: Performance, confidence: real)
    ensures MapSeq(Scored(prefs, perf, confidence), Name) == prefs
  {
  }

  /** The ranking is a permutation of the preferences, sorted by final
      score from highest to lowest, and strategies with equal scores keep
      their preference order. */
  lemma ScoreStrategiesSpec(prefs: seq<Kind>, perf: Performance, confidence: real)
    ensures multiset(ScoreStrategies(prefs, perf, confidence)) == multiset(prefs)
    ensures Sorted(SortBy(Scored(prefs, perf, confidence), ByScore), ByScore)
    ensures KeepsTieOrder(Scored(prefs, perf, confidence), SortBy(Scored(prefs, perf, confidence), ByScore), ByScore)
  {
    var scored := Scored(prefs, perf, confidence);
    assert multiset(ScoreStrategies(prefs, perf, confidence)) == multiset(prefs) by {
      MapPermutation(SortBy(scored, ByScore), scored, Name);
      ScoredNames(prefs, perf, confidence);
    }
    TotalByScore();
    SortSorted(scored, ByScore);
    SortKeepsTieOrder(scored, ByScore);
  }

  lemma TotalByScore()
    ensures TotalPreorder(ByScore)
  {
  }

  /** Multiplying by a positive factor keeps the order of two scores. */
  lemma ScaleKeepsOrder(x: real, y: real, k: real)
    requires k > 0.0
    ensures x * k >= y * k <==> x >= y
  {
    if x >= y {
      assert x * k - y * k == (x - y) * k;
    } else {
      assert y * k - x * k == (y - x) * k;
    }
  }

  /** For any classification confidence above -1 the factor is positive, so
      the ranking is the ranking by combined score alone: the confidence
      never changes the order. */
  lemma FactorKeepsOrder(prefs: seq<Kind>, perf: Performance, confidence: real)
    requires confidence > -1.0
    ensures ScoreStrategies(prefs, perf, confidence) == MapSeq(SortBy(Combined(prefs, perf), ByScore), Name)
  {
    var c := Combined(prefs, perf);
    var k := Factor(confidence);
    var f := Scale(k);
    assert Agree(c, f, ByScore, ByScore) by {
      forall i, j | 0 <= i < |c| && 0 <= j < |c|
        ensures ByScore(f(c[i]), f(c[j])) == ByScore(c[i], c[j])
      {
        assert k > 0.0;
        ScaleKeepsOrder(c[i].1, c[j].1, k);
        assert f(c[i]).1 == c[i].1 * k && f(c[j]).1 == c[j].1 * k;
      }
    }
    SortMap(c, f, ByScore, ByScore);
    var sorted := SortBy(c, ByScore);
    assert MapSeq(MapSeq(sorted, f), Name) == MapSeq(sorted, Name);
  }

  /** With no trusted feedback for any preference, the scores fall with the
      position, so the ranking is the preference list itself. */
  lemma NoDataKeepsPreferences(prefs: seq<Kind>, perf: Performance, confidence: real)
    requires confidence > -1.0
    requires forall s :: s in prefs ==> !Trusted(perf, s)
    ensures ScoreStrategies(prefs, perf, confidence) == prefs
  {
    FactorKeepsOrder(prefs, perf, confidence);
    var c := Combined(prefs, perf);
    assert Sorted(c, ByScore) by {
      forall i, j | 0 <= i < j < |c|
        ensures ByScore(c[i], c[j])
      {
        assert prefs[i] in prefs && prefs[j] in prefs;
      }
    }
    SortOfSorted(c, ByScore);
    assert MapSeq(c, Name) == prefs;
  }

  /* ---------------- Selection ---------------- */

  /** `scored_strategies[0] if scored_strategies else 'simple'`. */
  function BestOf(ranked: seq<Kind>): Kind
  {
    if |ranked| > 0 then ranked[0] else SimpleRanking
  }

  /** `scored_strategies[1:4]`. */
  function FallbacksOf(ranked: seq<Kind>): seq<Kind>
  {
    Slice(ranked, 1, 4)
  }

  /* ---------------- Confidence ---------------- */

  /** `_calculate_confidence`: the classification confidence, raised by 0.2
      for a strategy with at least five uses rated above 0.5, or by 0.1 for
      one with at least three uses rated above 0, capped at 1.0. */
  function Boost(confidence: real, stats: Option<Analytics.StrategyStats>): real
  {
    if stats.Some? && stats.value.avgFeedback.Some? then
      var count := stats.value.count;
      var f := stats.value.avgFeedback.value;
      if count >= 5 && f > 0.5 then QueryClassifier.RealMin(confidence + 0.2, 1.0)
      else if count >= 3 && f > 0.0 then QueryClassifier.RealMin(confidence + 0.1, 1.0)
      else confidence
    else confidence
  }

  /** Well-rated history with enough uses. */
  predicate RatedAtLeast(stats: Option<Analytics.StrategyStats>, uses: nat, floor: real)
  {
    stats.Some? && stats.value.avgFeedback.Some? && stats.value.count >= uses && stats.value.avgFeedback.value > floor
  }

  /** The overall confidence never falls below the classification's and
      never exceeds 1; it grows by 0.2 (capped) for strong history, by 0.1
      (capped) for decent history, and not at all otherwise. */
  lemma BoostSpec(confidence: real, stats: Option<Analytics.StrategyStats>)
    requires confidence <= 1.0
    ensures confidence <= Boost(confidence, stats) <= 1.0
    ensures RatedAtLeast(stats, 5, 0.5) ==> Boost(confidence, stats) == QueryClassifier.RealMin(confidence + 0.2, 1.0)
    ensures !RatedAtLeast(stats, 5, 0.5) && RatedAtLeast(stats, 3, 0.0) ==> Boost(confidence, stats) == QueryClassifier.RealMin(confidence + 0.1, 1.0)
    ensures !RatedAtLeast(stats, 3, 0.0) ==> Boost(confidence, stats) == confidence
  {
  }

  /* ---------------- Explanation ---------------- */

  /** `strategy.replace('_', ' ').title()` on ASCII text: a letter is upper
      case at the start of a word and lower case inside one. */
  function TitleFrom(s: string, inWord: bool): (r: string)
    ensures |r| == |s|
  {
    if |s| == 0 then []
    else
      var c := if s[0] == '_' then ' ' else s[0];
      var letter := 'a' <= c <= 'z' || 'A' <= c <= 'Z';
      var d := if !letter then c else if inWord then QueryClassifier.LowerChar(c) else UpperChar(c);
      [d] + TitleFrom(s[1..], letter)
  }

  function UpperChar(c: char): char
  {
    if 'a' <= c <= 'z' then (c as int - 32) as char else c
  }

  function Title(s: string): string
  {
    TitleFrom(s, false)
  }

  /** The historical-performance sentence: its use count and rating.
      Rendering the rating with one decimal is not modelled. */
  datatype Note = Strong(uses: nat, rating: real) | Decent(uses: nat, rating: real)

  /** The explanation: its fixed text and the optional history sentence. */
  datatype Explanation = Explanation(text: string, note: Option<Note>)

  const StrategyReasons: seq<(string, string)> := [
    ("reasoning_aware", "handles complex logical reasoning with explicit step-by-step analysis"),
    ("multi_round", "allows iterative refinement through multiple deliberation rounds"),
    ("weighted_voting", "leverages high-performing models with weighted influence"),
    ("simple", "provides efficient consensus through direct peer ranking")
  ]

  const CategoryContext: seq<(string, string)> := [
    ("reasoning", "This appears to be a logical or mathematical problem"),
    ("technical", "This looks like a technical or programming question"),
    ("analytical", "This seems to require comparative analysis or evaluation"),
    ("creative", "This appears to be a creative or open-ended task"),
    ("factual", "This looks like a factual information request")
  ]

  function GetOr(table: seq<(string, string)>, key: string, default: string): string
  {
    match Lookup(table, key)
    case Some(v) => v
    case None => default
  }

  /** The history sentence, when the strategy has at least five uses rated above 0. */
  function NoteFor(stats: Option<Analytics.StrategyStats>): Option<Note>
  {
    if stats.Some? && stats.value.avgFeedback.Some? then
      var count := stats.value.count;
      var f := stats.value.avgFeedback.value;
      if count >= 5 then
        if f > 0.5 then Some(Strong(count, f))
        else if f > 0.0 then Some(Decent(count, f))
        else None
      else None
    else None
  }

  /** `_build_explanation`. */
  function Explain(category: string, strategy: string, stats: Option<Analytics.StrategyStats>): Explanation
  {
    var context := GetOr(CategoryContext, category, "Based on query analysis");
    var reason := GetOr(StrategyReasons, strategy, "is well-suited for this type of query");
    Explanation(context + ", so the **" + Title(strategy) + "** strategy is recommended. " + "This strategy " + reason + ".",
                NoteFor(stats))
  }

  /** The history sentence appears exactly when the strategy has at least
      five uses and a rating above 0; it is the strong one exactly when the
      rating is above 0.5, and it reports the use count and the rating. */
  lemma NoteSpec(stats: Option<Analytics.StrategyStats>)
    ensures NoteFor(stats).Some? <==> RatedAtLeast(stats, 5, 0.0)
    ensures NoteFor(stats).Some? ==> NoteFor(stats).value.Strong? == RatedAtLeast(stats, 5, 0.5)
    ensures NoteFor(stats).Some? ==>
      NoteFor(stats).value.uses == stats.value.count && NoteFor(stats).value.rating == stats.value.avgFeedback.value
  {
  }

  /* ---------------- Recommendation ---------------- */

  /** `StrategyRecommendation`. The confidence is not rounded. */
  datatype Recommendation = Recommendation(strategy: string, confidence: real, explanation: Explanation,
                                           fallbacks: seq<string>, queryCategory: string,
                                           performance: Option<Analytics.StrategyStats>)

  /** `recommend` after classification. */
  function RecommendFor(category: string, confidence: real, perf: Performance): Recommendation
  {
    var ranked := ScoreStrategies(Preferences(category), perf, confidence);
    var best := Key(BestOf(ranked));
    var stats := Lookup(perf, best);
    Recommendation(best, Boost(confidence, stats), Explain(category, best, stats),
                   MapSeq(FallbacksOf(ranked), Key), category, stats)
  }

  /** `recommend`. */
  function Recommend(query: string, search: QueryClassifier.Search, summary: Option<Analytics.Summary>): Recommendation
  {
    var c := QueryClassifier.Classify(query, search);
    RecommendFor(QueryClassifier.CategoryName(c.category), c.confidence, PerformanceOf(summary))
  }

  /** The ranking of any category lists the four strategies, each once. */
  lemma RankingEachOnce(category: string, perf: Performance, confidence: real)
    ensures EachOnce(ScoreStrategies(Preferences(category), perf, confidence))
  {
    var prefs := Preferences(category);
    var ranked := ScoreStrategies(prefs, perf, confidence);
    PreferencesArePermutations(category);
    ScoreStrategiesSpec(prefs, perf, confidence);
    DistinctPermutation(prefs, ranked);
    EachOncePermutation(prefs, ranked);
  }

  /** The names of a list holding each strategy once: the head and the
      next three, the head not among them. */
  lemma HeadAndFallbacks(ranked: seq<Kind>)
    requires EachOnce(ranked)
    ensures [Key(BestOf(ranked))] + MapSeq(FallbacksOf(ranked), Key) == MapSeq(ranked, Key)
    ensures Key(BestOf(ranked)) !in MapSeq(FallbacksOf(ranked), Key)
  {
    assert ranked == [ranked[0]] + ranked[1..4];
    assert FallbacksOf(ranked) == ranked[1..4];
    MapConcat([ranked[0]], ranked[1..4], Key);
    var names := MapSeq(ranked[1..4], Key);
    forall i | 0 <= i < 3
      ensures names[i] != Key(ranked[0])
    {
      KeyInjective(ranked[i + 1], ranked[0]);
    }
  }

  /** The recommended strategy heads the ranking and the three fallbacks
      are the rest of it, in order; the recommended strategy is never among
      its fallbacks. */
  lemma RecommendForSpec(category: string, confidence: real, perf: Performance)
    ensures var r := RecommendFor(category, confidence, perf);
      var ranked := ScoreStrategies(Preferences(category), perf, confidence);
      && [r.strategy] + r.fallbacks == MapSeq(ranked, Key)
      && |r.fallbacks| == 3
      && r.strategy !in r.fallbacks
  {
    var ranked := ScoreStrategies(Preferences(category), perf, confidence);
    RankingEachOnce(category, perf, confidence);
    HeadAndFallbacks(ranked);
  }

  /** Different strategies are registered under different names. */
  lemma KeyInjective(a: Kind, b: Kind)
    ensures Key(a) == Key(b) <==> a == b
  {
    if a != b {
      assert Key(a)[0] != Key(b)[0];
    }
  }

  /** Every strategy the recommender names, first choice or fallback, is
      one the initial registry can build. */
  lemma RecommendationsRegistered<C>(query: string, search: QueryClassifier.Search, summary: Option<Analytics.Summary>, config: Option<C>)
    ensures GetStrategy(Initial, Recommend(query, search, summary).strategy, config).Ok?
    ensures forall s :: s in Recommend(query, search, summary).fallbacks ==> GetStrategy(Initial, s, config).Ok?
  {
    var c := QueryClassifier.Classify(query, search);
    RecommendForRegistered(QueryClassifier.CategoryName(c.category), c.confidence, PerformanceOf(summary), config);
  }

  /** `RecommendationsRegistered` once the query is classified. */
  lemma RecommendForRegistered<C>(category: string, confidence: real, perf: Performance, config: Option<C>)
    ensures var r := RecommendFor(category, confidence, perf);
      && GetStrategy(Initial, r.strategy, config).Ok?
      && forall s :: s in r.fallbacks ==> GetStrategy(Initial, s, config).Ok?
  {
    var r := RecommendFor(category, confidence, perf);
    forall name | name == r.strategy || name in r.fallbacks
      ensures GetStrategy(Initial, name, config).Ok?
    {
      if name != r.strategy {
        var i :| 0 <= i < |r.fallbacks| && r.fallbacks[i] == name;
      }
      assert exists k :: Key(k) == name;
      InitialKeys(name);
      GetStrategySpec(Initial, name, config);
    }
  }

  /** The recommendation's confidence lies between the classification's and 1. */
  lemma RecommendConfidence(query: string, search: QueryClassifier.Search, summary: Option<Analytics.Summary>)
    ensures QueryClassifier.Classify(query, search).confidence <= Recommend(query, search, summary).confidence <= 1.0
  {
    var c := QueryClassifier.Classify(query, search);
    QueryClassifier.ConfidenceRange(query, search);
    RecommendForConfidence(QueryClassifier.CategoryName(c.category), c.confidence, PerformanceOf(summary));
  }

  /** `RecommendConfidence` once the query is classified. */
  lemma RecommendForConfidence(category: string, confidence: real, perf: Performance)
    requires confidence <= 1.0
    ensures confidence <= RecommendFor(category, confidence, perf).confidence <= 1.0
  {
    var ranked := ScoreStrategies(Preferences(category), perf, confidence);
    BoostSpec(confidence, Lookup(perf, Key(BestOf(ranked))));
  }

  /** Without a summary the recommendation is the category's preference list
      as it stands: its head, the next three as fallbacks, the
      classification's own confidence and no history sentence. */
  lemma NoHistory(query: string, search: QueryClassifier.Search)
    ensures var c := QueryClassifier.Classify(query, search);
      var prefs := Preferences(QueryClassifier.CategoryName(c.category));
      var r := Recommend(query, search, None);
      && [r.strategy] + r.fallbacks == MapSeq(prefs, Key)
      && r.confidence == c.confidence
      && r.explanation.note.None?
      && r.performance.None?
  {
    var c := QueryClassifier.Classify(query, search);
    QueryClassifier.ConfidenceRange(query, search);
    NoHistoryFor(QueryClassifier.CategoryName(c.category), c.confidence);
  }

  /** `NoHistory` once the query is classified. */
  lemma NoHistoryFor(category: string, confidence: real)
    requires confidence > -1.0
    ensures var r := RecommendFor(category, confidence, []);
      && [r.strategy] + r.fallbacks == MapSeq(Preferences(category), Key)
      && r.confidence == confidence
      && r.explanation.note.None?
      && r.performance.None?
  {
    NoDataKeepsPreferences(Preferences(category), [], confidence);
    RecommendForSpec(category, confidence, []);
  }
}
