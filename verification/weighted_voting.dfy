/** The weighted-voting strategy: the simple ranking pipeline, except that
    each judge's ranking counts with a weight read from the analytics of
    earlier runs. The analytics engine is given as the summary it would
    answer `get_model_performance` from. */
module WeightedVoting {
  import opened Common
  import opened StableSort
  import opened RankingParser
  import opened Anonymizer
  import opened Aggregation
  import opened Stages
  import opened Analytics

  const Name: string := "Weighted Voting"
  const Description: string := "Rankings weighted by model performance (higher-performing models have more influence)"
  const Key: string := "weighted_voting"

  /* ---------------- Configuration ---------------- */

  /** The keys a caller may put in the configuration dictionary. */
  datatype Options = Options(analyticsEngine: Option<Summary>, minWeight: Option<real>, useWinRate: Option<bool>)

  datatype Settings = Settings(analytics: Option<Summary>, minWeight: real, useWinRate: bool)

  const DefaultMinWeight: real := 0.1

  /** Evaluations a model needs before its history is trusted. */
  const MinEvaluations: nat := 3

  /** Weight of a model with too little history. */
  const NeutralWeight: real := 0.5

  /** Weight of every model when there is no analytics engine. */
  const EqualWeight: real := 1.0

  /** The constructor: a missing key, or no configuration at all, takes its default. */
  function Configure(config: Option<Options>): (s: Settings)
    ensures config.None? ==> s == Settings(None, DefaultMinWeight, true)
    ensures config.Some? ==> s.analytics == config.value.analyticsEngine
    ensures config.Some? && config.value.minWeight.Some? ==> s.minWeight == config.value.minWeight.value
    ensures config.Some? && config.value.minWeight.None? ==> s.minWeight == DefaultMinWeight
    ensures config.Some? ==> (s.useWinRate <==> config.value.useWinRate != Some(false))
  {
    match config
    case None => Settings(None, DefaultMinWeight, true)
    case Some(o) =>
      Settings(o.analyticsEngine,
               if o.minWeight.Some? then o.minWeight.value else DefaultMinWeight,
               if o.useWinRate.Some? then o.useWinRate.value else true)
  }

  /** A configuration without any of the keys, the empty dictionary among
      them, gives the same settings as no configuration: the defaults. */
  lemma EmptyConfigIsDefault()
    ensures Configure(Some(Options(None, None, None))) == Configure(None)
    ensures Configure(Some(Options(None, None, None))) == Settings(None, DefaultMinWeight, true)
  {
  }

  /* ---------------- Weights ---------------- */

  /** Python's `max(a, b)`. */
  function Max(a: real, b: real): (r: real)
    ensures r >= a && r >= b && (r == a || r == b)
  {
    if b > a then b else a
  }

  /** The model has at least `MinEvaluations` evaluations on record. */
  predicate Experienced(summary: Summary, model: string)
  {
    var perf := GetModelPerformance(summary, model);
    perf.Some? && perf.value.totalEvaluations >= MinEvaluations
  }

  /** One model's weight. Inverting a missing or zero average rank raises in
      the source; that is the error case. */
  function WeightFor(s: Settings, summary: Summary, model: string): (r: Result<real>)
    ensures !Experienced(summary, model) ==> r == Ok(NeutralWeight)
    ensures Experienced(summary, model) && s.useWinRate ==>
      var winRate := GetModelPerformance(summary, model).value.winRate;
      && r.Ok? && r.value >= s.minWeight && r.value >= winRate
      && (r.value == s.minWeight || r.value == winRate)
    ensures Experienced(summary, model) && !s.useWinRate ==>
      var avg := GetModelPerformance(summary, model).value.avgRank;
      && (r.Err? <==> avg.None? || avg.value == 0.0)
      && (r.Ok? ==> r.value >= s.minWeight && r.value >= 1.0 / avg.value)
      && (r.Ok? ==> r.value == s.minWeight || r.value == 1.0 / avg.value)
  {
    var perf := GetModelPerformance(summary, model);
    if perf.Some? && perf.value.totalEvaluations >= MinEvaluations then
      if s.useWinRate then Ok(Max(perf.value.winRate, s.minWeight))
      else match perf.value.avgRank
        case None => Err("unsupported operand type(s) for /: 'float' and 'NoneType'")
        case Some(avg) =>
          if avg == 0.0 then Err("float division by zero")
          else Ok(Max(1.0 / avg, s.minWeight))
    else Ok(NeutralWeight)
  }

  /** `_get_model_weights`: one weight per model, or the first error. */
  function ModelWeights(s: Settings, models: seq<string>): (r: Result<map<string, real>>)
    ensures s.analytics.None? ==> r.Ok? && forall m :: m in r.value <==> m in models
    ensures s.analytics.None? ==> forall m :: m in r.value ==> r.value[m] == EqualWeight
    ensures s.analytics.Some? ==> r == WeightsFrom(models, Weigher(s, s.analytics.value))
  {
    match s.analytics
    case None => Ok(map m | m in models :: EqualWeight)
    case Some(summary) => WeightsFrom(models, Weigher(s, summary))
  }

  function Weigher(s: Settings, summary: Summary): string -> Result<real>
  {
    m => WeightFor(s, summary, m)
  }

  /** The loop over the models, in order, stopping at the first failing weight. */
  function WeightsFrom(models: seq<string>, weigh: string -> Result<real>): (r: Result<map<string, real>>)
    ensures r.Ok? ==> forall m :: m in r.value <==> m in models
    ensures r.Ok? ==> forall m :: m in r.value ==> weigh(m).Ok? && r.value[m] == weigh(m).value
  {
    if |models| == 0 then Ok(map[])
    else
      var n := |models| - 1;
      var front := WeightsFrom(models[..n], weigh);
      var w := weigh(models[n]);
      if front.Err? then front
      else if w.Err? then Err(w.error)
      else
        assert forall m :: m in models <==> m in models[..n] || m == models[n];
        Ok(front.value[models[n] := w.value])
  }

  /** The weights fail exactly when some model's weight fails. */
  lemma {:induction false} WeightsFromFails(models: seq<string>, weigh: string -> Result<real>)
    ensures WeightsFrom(models, weigh).Err? <==> exists k :: 0 <= k < |models| && weigh(models[k]).Err?
  {
    if |models| > 0 {
      var n := |models| - 1;
      var front := models[..n];
      WeightsFromFails(front, weigh);
      if WeightsFrom(front, weigh).Err? {
        var k :| 0 <= k < |front| && weigh(front[k]).Err?;
        assert models[k] == front[k];
      } else if weigh(models[n]).Err? {
      } else {
        forall k | 0 <= k < |models|
          ensures weigh(models[k]).Ok?
        {
          if k < n {
            assert models[k] == front[k];
          }
        }
      }
    }
  }

  /** With an analytics engine the weights are each model's `WeightFor`, and
      they fail exactly when one of them fails. */
  lemma WeightsSpec(s: Settings, models: seq<string>)
    requires s.analytics.Some?
    ensures ModelWeights(s, models).Err? <==> exists k :: 0 <= k < |models| && WeightFor(s, s.analytics.value, models[k]).Err?
    ensures ModelWeights(s, models).Ok? ==> forall m :: m in ModelWeights(s, models).value <==> m in models
    ensures ModelWeights(s, models).Ok? ==> forall m :: m in ModelWeights(s, models).value ==>
      WeightFor(s, s.analytics.value, m).Ok? && ModelWeights(s, models).value[m] == WeightFor(s, s.analytics.value, m).value
  {
    var weigh := Weigher(s, s.analytics.value);
    WeightsFromFails(models, weigh);
    assert forall m :: weigh(m) == WeightFor(s, s.analytics.value, m);
  }

  /* ---------------- Execution ---------------- */

  /** Metadata `{"label_to_model", "aggregate_rankings", "strategy", "model_weights"}`. */
  datatype WeightedMeta = WeightedMeta(labelToModel: map<string, string>, aggregate: seq<WeightedRanked>,
                                       strategy: string, modelWeights: map<string, real>)

  function BallotOf(e: Evaluation): Ballot
  {
    Ballot(e.model, e.parsed)
  }

  /** The ballots of the judgements: the judge and its `parsed_ranking`. */
  function Ballots(evaluations: seq<Evaluation>): seq<Ballot>
  {
    MapSeq(evaluations, BallotOf)
  }

  /** `execute` for the council `models`. The weights are computed once
      stage 1 has an answer, so a failing weight ends a run only then. */
  function Execute(s: Settings, models: seq<string>, responses: seq<Outcome>, judgements: seq<Outcome>,
                   chairman: string, synthesis: Option<string>): (r: Result<Council<seq<Answer>, seq<Evaluation>, WeightedMeta>>)
    requires |Collect(responses)| <= MaxAnswers
    ensures Collect(responses) == [] ==> r == Ok(Failure([], []))
    ensures Collect(responses) != [] ==> (r.Err? <==> ModelWeights(s, models).Err?)
    ensures r.Ok? && Collect(responses) != [] ==>
      var c := r.value;
      && c.stage1 == Collect(responses)
      && c.stage2 == Evaluate(judgements)
      && c.stage3 == Synthesize(chairman, synthesis)
      && c.metadata.Some?
      && c.metadata.value.strategy == Key
      && c.metadata.value.labelToModel == LabelMap(Models(c.stage1))
      && c.metadata.value.modelWeights == ModelWeights(s, models).value
      && c.metadata.value.aggregate == WeightedAggregate(Ballots(c.stage2), c.metadata.value.labelToModel, c.metadata.value.modelWeights)
  {
    var stage1 := Collect(responses);
    if |stage1| == 0 then Ok(Failure([], []))
    else
      var stage2 := Evaluate(judgements);
      var lm := LabelMap(Models(stage1));
      match ModelWeights(s, models)
      case Err(e) => Err(e)
      case Ok(weights) =>
        Ok(Council(stage1, stage2, Synthesize(chairman, synthesis),
                   Some(WeightedMeta(lm, WeightedAggregate(Ballots(stage2), lm, weights), Key, weights))))
  }

  /* ---------------- Properties ---------------- */

  /** The rankings of the ballots are the judges' parsed rankings. */
  lemma BallotRankings(evaluations: seq<Evaluation>)
    ensures Rankings(Ballots(evaluations)) == ParsedRankings(evaluations)
  {
    var a := Rankings(Ballots(evaluations));
    var b := ParsedRankings(evaluations);
    assert |a| == |b|;
    forall k | 0 <= k < |a|
      ensures a[k] == b[k]
    {
    }
  }

  /** Every weight is the equal weight, the neutral weight, or at least the
      minimum weight; so with a non-negative minimum no weight is negative. */
  lemma WeightsFloor(s: Settings, models: seq<string>)
    requires ModelWeights(s, models).Ok?
    ensures forall m :: m in ModelWeights(s, models).value ==>
      var w := ModelWeights(s, models).value[m];
      w == EqualWeight || w == NeutralWeight || w >= s.minWeight
  {
    if s.analytics.Some? {
      WeightsSpec(s, models);
    }
  }

  /** With a non-negative minimum weight, every weighted average rank lies
      between the least and the greatest position its model received, and so
      between 1 and the length of the longest ranking. */
  lemma ExecuteBounds(s: Settings, models: seq<string>, responses: seq<Outcome>, judgements: seq<Outcome>,
                      chairman: string, synthesis: Option<string>)
    requires |Collect(responses)| <= MaxAnswers
    requires s.minWeight >= 0.0
    requires Execute(s, models, responses, judgements, chairman, synthesis).Ok?
    ensures var c := Execute(s, models, responses, judgements, chairman, synthesis).value;
      c.metadata.Some? ==> forall x :: x in c.metadata.value.aggregate ==>
        var ps := AllPositions(ParsedRankings(c.stage2), c.metadata.value.labelToModel, x.model);
        |ps| > 0 && Least(ps) as real <= x.averageRank <= Greatest(ps) as real
    ensures var c := Execute(s, models, responses, judgements, chairman, synthesis).value;
      c.metadata.Some? ==> forall x :: x in c.metadata.value.aggregate ==>
        1.0 <= x.averageRank <= Longest(ParsedRankings(c.stage2)) as real
  {
    if Collect(responses) != [] {
      WeightsNonNegative(s, models);
      JudgedBounds(Evaluate(judgements), LabelMap(Models(Collect(responses))), ModelWeights(s, models).value);
    }
  }

  lemma WeightsNonNegative(s: Settings, models: seq<string>)
    requires s.minWeight >= 0.0
    requires ModelWeights(s, models).Ok?
    ensures forall e :: e in ModelWeights(s, models).value ==> ModelWeights(s, models).value[e] >= 0.0
  {
    WeightsFloor(s, models);
  }

  lemma JudgedBounds(stage2: seq<Evaluation>, lm: map<string, string>, weights: map<string, real>)
    requires forall e :: e in weights ==> weights[e] >= 0.0
    ensures forall x :: x in WeightedAggregate(Ballots(stage2), lm, weights) ==>
      var ps := AllPositions(ParsedRankings(stage2), lm, x.model);
      |ps| > 0 && Least(ps) as real <= x.averageRank <= Greatest(ps) as real
    ensures forall x :: x in WeightedAggregate(Ballots(stage2), lm, weights) ==>
      1.0 <= x.averageRank <= Longest(ParsedRankings(stage2)) as real
  {
    WeightedBounds(Ballots(stage2), lm, weights);
    BallotRankings(stage2);
  }

  /** Every judge in `judgements` is one of the council `models`. */
  predicate JudgesAreCouncil(models: seq<string>, judgements: seq<Outcome>)
  {
    forall k :: 0 <= k < |judgements| ==> judgements[k].model in models
  }

  /** Every ballot counts with weight `c`. */
  predicate UniformWeights(ballots: seq<Ballot>, weights: map<string, real>, c: real)
  {
    forall k :: 0 <= k < |ballots| ==> WeightOf(weights, ballots[k].evaluator) == c
  }

  /** Without an analytics engine, or when no council model has enough history,
      all judges weigh the same and the weighted ranking orders the models
      exactly as the simple ranking does, with the same average ranks. */
  lemma EqualWeightsAreSimple(s: Settings, models: seq<string>, responses: seq<Outcome>, judgements: seq<Outcome>,
                              chairman: string, synthesis: Option<string>)
    requires |Collect(responses)| <= MaxAnswers
    requires |Collect(responses)| > 0
    requires JudgesAreCouncil(models, judgements)
    requires s.analytics.None? || forall k :: 0 <= k < |models| ==> !Experienced(s.analytics.value, models[k])
    ensures Execute(s, models, responses, judgements, chairman, synthesis).Ok?
    ensures var c := Execute(s, models, responses, judgements, chairman, synthesis).value;
      && c.metadata.Some?
      && MapSeq(c.metadata.value.aggregate, WeightedPair) ==
         MapSeq(Aggregate(ParsedRankings(c.stage2), c.metadata.value.labelToModel), AveragePair)
  {
    var stage2 := Evaluate(judgements);
    var ballots := Ballots(stage2);
    var lm := LabelMap(Models(Collect(responses)));
    if s.analytics.Some? {
      WeightsSpec(s, models);
    }
    var weights := ModelWeights(s, models).value;
    var c := if s.analytics.None? then EqualWeight else NeutralWeight;
    forall k | 0 <= k < |ballots|
      ensures WeightOf(weights, ballots[k].evaluator) == c
    {
      assert ballots[k].evaluator == stage2[k].model;
      assert Outcome(stage2[k].model, Some(stage2[k].ranking)) in judgements;
      assert stage2[k].model in models;
    }
    EqualWeightsAgree(ballots, lm, weights, c);
    BallotRankings(stage2);
  }
}
