/** The reasoning-aware strategy: answers may carry a reasoning trace; when
    one does, the judges rank the reasoning and, separately, the answers,
    and the two judgement lists are zipped together. The configured weights
    are reported but never used: the reasoning ranking is the one that is
    aggregated. */
module ReasoningAware {
  import opened Common
  import opened StableSort
  import opened RankingParser
  import opened Anonymizer
  import opened Aggregation
  import opened Stages
  import SimpleRanking

  const Name: string := "Reasoning-Aware"
  const Key: string := "reasoning_aware"

  /* ---------------- Configuration ---------------- */

  datatype Options = Options(reasoningWeight: Option<real>, answerWeight: Option<real>)

  datatype Settings = Settings(reasoningWeight: real, answerWeight: real)

  const DefaultReasoningWeight: real := 0.4
  const DefaultAnswerWeight: real := 0.6

  /** `config.get(key, default) if config else default`; `None` stands for a missing or empty config. */
  function Configure(config: Option<Options>): (s: Settings)
    ensures config.None? ==> s == Settings(DefaultReasoningWeight, DefaultAnswerWeight)
    ensures config.Some? && config.value.reasoningWeight.Some? ==> s.reasoningWeight == config.value.reasoningWeight.value
    ensures config.Some? && config.value.reasoningWeight.None? ==> s.reasoningWeight == DefaultReasoningWeight
    ensures config.Some? && config.value.answerWeight.Some? ==> s.answerWeight == config.value.answerWeight.value
    ensures config.Some? && config.value.answerWeight.None? ==> s.answerWeight == DefaultAnswerWeight
  {
    match config
    case None => Settings(DefaultReasoningWeight, DefaultAnswerWeight)
    case Some(o) =>
      Settings(if o.reasoningWeight.Some? then o.reasoningWeight.value else DefaultReasoningWeight,
               if o.answerWeight.Some? then o.answerWeight.value else DefaultAnswerWeight)
  }

  /** A configuration without any of the keys, the empty dictionary among
      them, gives the same settings as no configuration: the defaults. */
  lemma EmptyConfigIsDefault()
    ensures Configure(Some(Options(None, None))) == Configure(None)
    ensures Configure(Some(Options(None, None))) == Settings(DefaultReasoningWeight, DefaultAnswerWeight)
  {
  }

  /* ---------------- Stage 1 ---------------- */

  /** A successful reply: its `content` and its `reasoning_details`, if any. */
  datatype Reply = Reply(content: string, reasoningDetails: Option<string>)

  /** What one stage-1 call gave back, or nothing when it failed. */
  datatype ReasonedOutcome = ReasonedOutcome(model: string, reply: Option<Reply>)

  /** A stage-1 result `{"model", "response", "reasoning"?, "has_reasoning"}`. */
  datatype ReasonedAnswer = ReasonedAnswer(model: string, response: string, reasoning: Option<string>, hasReasoning: bool)

  /** Python truthiness of `reasoning_details`: present and non-empty. */
  predicate Truthy(details: Option<string>)
  {
    details.Some? && |details.value| > 0
  }

  /** The stage-1 result of one successful reply. */
  function ResultOf(model: string, reply: Reply): (a: ReasonedAnswer)
    ensures a.hasReasoning <==> Truthy(reply.reasoningDetails)
    ensures a.reasoning.Some? <==> a.hasReasoning
    ensures a.hasReasoning ==> a.reasoning == reply.reasoningDetails
  {
    if Truthy(reply.reasoningDetails) then ReasonedAnswer(model, reply.content, reply.reasoningDetails, true)
    else ReasonedAnswer(model, reply.content, None, false)
  }

  /** `_collect_responses_with_reasoning`: one result per successful call, in order. */
  function CollectReasoned(outcomes: seq<ReasonedOutcome>): (r: seq<ReasonedAnswer>)
  {
    if |outcomes| == 0 then []
    else
      var n := |outcomes| - 1;
      var front := CollectReasoned(outcomes[..n]);
      match outcomes[n].reply
      case Some(reply) => front + [ResultOf(outcomes[n].model, reply)]
      case None => front
  }

  /** The outcome with the reasoning dropped. */
  function Plain(o: ReasonedOutcome): Outcome
  {
    Outcome(o.model, if o.reply.Some? then Some(o.reply.value.content) else None)
  }

  /** The `{"model", "response"}` part of a stage-1 result. */
  function AnswerOf(a: ReasonedAnswer): Answer
  {
    Answer(a.model, a.response)
  }

  /** The last call adds to the answers what it adds to the plain stage-1 answers. */
  lemma ReasonedLast(outcomes: seq<ReasonedOutcome>)
    requires |outcomes| > 0
    ensures MapSeq(CollectReasoned(outcomes), AnswerOf)
         == MapSeq(CollectReasoned(outcomes[..|outcomes| - 1]), AnswerOf) + AnswersOf(Plain(outcomes[|outcomes| - 1]))
  {
    var n := |outcomes| - 1;
    var front := CollectReasoned(outcomes[..n]);
    match outcomes[n].reply
    case Some(reply) =>
      var last := ResultOf(outcomes[n].model, reply);
      assert CollectReasoned(outcomes) == front + [last];
      MapSnoc(front, last, AnswerOf);
    case None =>
      assert CollectReasoned(outcomes) == front;
      assert MapSeq(front, AnswerOf) + [] == MapSeq(front, AnswerOf);
  }

  /** The answers are exactly those the plain stage-1 loop collects. */
  lemma {:induction false} CollectReasonedAnswers(outcomes: seq<ReasonedOutcome>)
    ensures MapSeq(CollectReasoned(outcomes), AnswerOf) == Collect(MapSeq(outcomes, Plain))
  {
    if |outcomes| > 0 {
      var n := |outcomes| - 1;
      var plain := MapSeq(outcomes, Plain);
      CollectReasonedAnswers(outcomes[..n]);
      ReasonedLast(outcomes);
      CollectLast(plain);
      MapPrefix(outcomes, n, Plain);
    }
  }

  /** Every result's flag and trace come from its own reply's `reasoning_details`. */
  lemma {:induction false} CollectReasonedSpec(outcomes: seq<ReasonedOutcome>)
    ensures forall a :: a in CollectReasoned(outcomes) ==>
      exists reply :: ReasonedOutcome(a.model, Some(reply)) in outcomes && a == ResultOf(a.model, reply)
  {
    if |outcomes| > 0 {
      var n := |outcomes| - 1;
      var front := CollectReasoned(outcomes[..n]);
      CollectReasonedSpec(outcomes[..n]);
      forall a | a in front
        ensures exists reply :: ReasonedOutcome(a.model, Some(reply)) in outcomes && a == ResultOf(a.model, reply)
      {
        var reply :| ReasonedOutcome(a.model, Some(reply)) in outcomes[..n] && a == ResultOf(a.model, reply);
      }
      match outcomes[n].reply
      case Some(reply) =>
        var last := ResultOf(outcomes[n].model, reply);
        assert CollectReasoned(outcomes) == front + [last];
        assert ReasonedOutcome(last.model, Some(reply)) == outcomes[n];
      case None =>
        assert CollectReasoned(outcomes) == front;
    }
  }

  /** `any(r.get('reasoning') for r in stage1_results)`. */
  function AnyReasoning(results: seq<ReasonedAnswer>): (b: bool)
    ensures b <==> exists i :: 0 <= i < |results| && Truthy(results[i].reasoning)
  {
    if |results| == 0 then false
    else
      var n := |results| - 1;
      AnyReasoning(results[..n]) || (results[n].reasoning.Some? && |results[n].reasoning.value| > 0)
  }

  /** Some answer has reasoning exactly when some successful reply came with non-empty `reasoning_details`. */
  lemma HasReasoningSpec(outcomes: seq<ReasonedOutcome>)
    ensures AnyReasoning(CollectReasoned(outcomes)) <==>
      exists o :: o in outcomes && o.reply.Some? && Truthy(o.reply.value.reasoningDetails)
  {
    var results := CollectReasoned(outcomes);
    CollectReasonedSpec(outcomes);
    if AnyReasoning(results) {
      var i :| 0 <= i < |results| && Truthy(results[i].reasoning);
      assert results[i] in results;
      var reply :| ReasonedOutcome(results[i].model, Some(reply)) in outcomes && results[i] == ResultOf(results[i].model, reply);
      assert ReasonedOutcome(results[i].model, Some(reply)).reply.Some?;
    }
    if exists o :: o in outcomes && o.reply.Some? && Truthy(o.reply.value.reasoningDetails) {
      var o :| o in outcomes && o.reply.Some? && Truthy(o.reply.value.reasoningDetails);
      CollectedResult(outcomes, o);
      var i :| 0 <= i < |results| && results[i] == ResultOf(o.model, o.reply.value);
    }
  }

  /** Every successful reply yields its result. */
  lemma {:induction false} CollectedResult(outcomes: seq<ReasonedOutcome>, o: ReasonedOutcome)
    requires o in outcomes && o.reply.Some?
    ensures ResultOf(o.model, o.reply.value) in CollectReasoned(outcomes)
  {
    var n := |outcomes| - 1;
    var front := CollectReasoned(outcomes[..n]);
    if outcomes[n] == o {
      assert CollectReasoned(outcomes) == front + [ResultOf(o.model, o.reply.value)];
    } else {
      assert o in outcomes[..n];
      CollectedResult(outcomes[..n], o);
      match outcomes[n].reply
      case Some(reply) =>
        assert CollectReasoned(outcomes) == front + [ResultOf(outcomes[n].model, reply)];
      case None =>
    }
  }

  /* ---------------- Stage 2 ---------------- */

  /** The two kinds of ranking call, recorded as `"type"`. */
  datatype Kind = ReasoningKind | AnswerKind

  /** A stage-2 entry: one judge's ranking of one kind, or a reasoning and an
      answer judgement zipped together. */
  datatype Judgement =
    | Single(model: string, ranking: string, parsed: seq<string>, kind: Kind)
    | Combined(model: string, ranking: string, parsed: seq<string>, reasoningRanking: seq<string>, answerRanking: seq<string>)

  function Tagged(kind: Kind): Evaluation -> Judgement
  {
    (e: Evaluation) => Single(e.model, e.ranking, e.parsed, kind)
  }

  /** The models of the stage-1 results, in order. */
  function ResultModels(results: seq<ReasonedAnswer>): (r: seq<string>)
    ensures |r| == |results|
    ensures forall k :: 0 <= k < |results| ==> r[k] == results[k].model
  {
    MapSeq(results, (a: ReasonedAnswer) => a.model)
  }

  /** A ranking call: every successful judge's text, parsed and tagged, with
      the labels of the stage-1 results. */
  datatype Ranking = Ranking(judgements: seq<Judgement>, labelToModel: map<string, string>)

  /** `_rank_reasoning_quality` and `_rank_answer_quality` differ only in their
      prompt and their `"type"`: both label the same stage-1 list. */
  function Rank(results: seq<ReasonedAnswer>, outcomes: seq<Outcome>, kind: Kind): (r: Ranking)
    requires |results| <= MaxAnswers
    ensures |r.judgements| == |Evaluate(outcomes)|
    ensures forall k :: 0 <= k < |r.judgements| ==>
      var e := Evaluate(outcomes)[k];
      r.judgements[k] == Single(e.model, e.ranking, Parse(e.ranking), kind)
    ensures r.labelToModel == LabelMap(ResultModels(results))
  {
    Ranking(MapSeq(Evaluate(outcomes), Tagged(kind)), LabelMap(ResultModels(results)))
  }

  /** The reasoning and the answer rankings carry the same label map. */
  lemma SameLabels(results: seq<ReasonedAnswer>, reasoning: seq<Outcome>, answers: seq<Outcome>)
    requires |results| <= MaxAnswers
    ensures Rank(results, reasoning, ReasoningKind).labelToModel == Rank(results, answers, AnswerKind).labelToModel
    ensures forall i :: 0 <= i < |results| ==> Rank(results, reasoning, ReasoningKind).labelToModel[LabelOf(i)] == results[i].model
  {
  }

  /** The text of a combined judgement. */
  function CombinedText(reasoning: string, answer: string): (t: string)
    ensures |t| == 22 + |reasoning| + 21 + |answer|
    ensures t[..22] == "REASONING EVALUATION:\n"
    ensures t[22..22 + |reasoning|] == reasoning
    ensures t[22 + |reasoning|..|t| - |answer|] == "\n\nANSWER EVALUATION:\n"
    ensures t[|t| - |answer|..] == answer
  {
    "REASONING EVALUATION:\n" + reasoning + "\n\nANSWER EVALUATION:\n" + answer
  }

  /** `_combine_rankings`: `zip` the two lists; the weights are not read. */
  function Combine(reasoning: seq<Judgement>, answers: seq<Judgement>): (r: seq<Judgement>)
    ensures |r| == Min(|reasoning|, |answers|)
    decreases |reasoning|
  {
    if |reasoning| == 0 || |answers| == 0 then []
    else
      var x := reasoning[0];
      var y := answers[0];
      [Combined(x.model, CombinedText(x.ranking, y.ranking), x.parsed, x.parsed, y.parsed)] + Combine(reasoning[1..], answers[1..])
  }

  /** Entry `i` pairs the `i`-th reasoning judgement with the `i`-th answer
      judgement: judge and parsed ranking from the reasoning side. */
  lemma {:induction false} CombineSpec(reasoning: seq<Judgement>, answers: seq<Judgement>)
    ensures forall i :: 0 <= i < |Combine(reasoning, answers)| ==>
      Combine(reasoning, answers)[i] ==
        Combined(reasoning[i].model, CombinedText(reasoning[i].ranking, answers[i].ranking),
                 reasoning[i].parsed, reasoning[i].parsed, answers[i].parsed)
    decreases |reasoning|
  {
    if |reasoning| > 0 && |answers| > 0 {
      CombineSpec(reasoning[1..], answers[1..]);
      var r := Combine(reasoning, answers);
      var rest := Combine(reasoning[1..], answers[1..]);
      var x := reasoning[0];
      var y := answers[0];
      assert r == [Combined(x.model, CombinedText(x.ranking, y.ranking), x.parsed, x.parsed, y.parsed)] + rest;
      forall i | 1 <= i < |r|
        ensures r[i] == Combined(reasoning[i].model, CombinedText(reasoning[i].ranking, answers[i].ranking),
                                 reasoning[i].parsed, reasoning[i].parsed, answers[i].parsed)
      {
        assert r[i] == rest[i - 1];
        assert reasoning[1..][i - 1] == reasoning[i];
        assert answers[1..][i - 1] == answers[i];
      }
    }
  }

  /** The `parsed_ranking` of every entry, in order. */
  function Parsed(js: seq<Judgement>): (r: seq<seq<string>>)
    ensures |r| == |js|
    ensures forall k :: 0 <= k < |js| ==> r[k] == js[k].parsed
  {
    MapSeq(js, (j: Judgement) => j.parsed)
  }

  /** The combined rankings that get aggregated are the first rankings of the reasoning side. */
  lemma CombinedParsed(reasoning: seq<Judgement>, answers: seq<Judgement>)
    ensures Parsed(Combine(reasoning, answers)) == Parsed(reasoning)[..Min(|reasoning|, |answers|)]
  {
    CombineSpec(reasoning, answers);
  }

  /* ---------------- Execution ---------------- */

  /** Metadata `{"strategy", "reasoning_weight", "answer_weight", "has_reasoning",
      "label_to_model", "aggregate_rankings", "reasoning_rankings"}`. */
  datatype ReasoningMeta = ReasoningMeta(strategy: string, reasoningWeight: real, answerWeight: real, hasReasoning: bool,
                                         labelToModel: map<string, string>, aggregate: seq<Ranked>,
                                         reasoningRankings: Option<seq<Judgement>>)

  /** `execute`, with the stage-1 calls, the reasoning-ranking calls and the
      answer-ranking calls given as their outcomes. Without any reasoning only
      the answer ranking is asked for. No check for an empty stage 1 is made. */
  function Execute(s: Settings, responses: seq<ReasonedOutcome>, reasoningJudgements: seq<Outcome>, answerJudgements: seq<Outcome>,
                   chairman: string, synthesis: Option<string>): (r: Council<seq<ReasonedAnswer>, seq<Judgement>, ReasoningMeta>)
    requires |CollectReasoned(responses)| <= MaxAnswers
    ensures r.stage1 == CollectReasoned(responses)
    ensures r.stage3 == Synthesize(chairman, synthesis)
    ensures r.metadata.Some? && r.metadata.value.strategy == Key
    ensures r.metadata.value.hasReasoning == AnyReasoning(r.stage1)
    ensures r.metadata.value.reasoningWeight == s.reasoningWeight && r.metadata.value.answerWeight == s.answerWeight
    ensures r.metadata.value.labelToModel == LabelMap(ResultModels(r.stage1))
    ensures r.metadata.value.aggregate == Aggregate(Parsed(r.stage2), r.metadata.value.labelToModel)
    ensures !r.metadata.value.hasReasoning ==>
      r.stage2 == Rank(r.stage1, answerJudgements, AnswerKind).judgements && r.metadata.value.reasoningRankings.None?
    ensures r.metadata.value.hasReasoning ==>
      var reasoning := Rank(r.stage1, reasoningJudgements, ReasoningKind).judgements;
      r.stage2 == Combine(reasoning, Rank(r.stage1, answerJudgements, AnswerKind).judgements) &&
      r.metadata.value.reasoningRankings == Some(reasoning)
  {
    var stage1 := CollectReasoned(responses);
    var has := AnyReasoning(stage1);
    var answers := Rank(stage1, answerJudgements, AnswerKind);
    var reasoning := Rank(stage1, reasoningJudgements, ReasoningKind);
    var combined := if has then Combine(reasoning.judgements, answers.judgements) else answers.judgements;
    var lm := if has then reasoning.labelToModel else answers.labelToModel;
    Council(stage1, combined, Synthesize(chairman, synthesis),
            Some(ReasoningMeta(Key, s.reasoningWeight, s.answerWeight, has, lm, Aggregate(Parsed(combined), lm),
                               if has then Some(reasoning.judgements) else None)))
  }

  /** With reasoning, the aggregate is the plain aggregate of the first
      min(len) reasoning rankings: the answer judgements never move it. */
  lemma ReasonedAggregate(s: Settings, responses: seq<ReasonedOutcome>, reasoningJudgements: seq<Outcome>, answerJudgements: seq<Outcome>,
                          chairman: string, synthesis: Option<string>)
    requires |CollectReasoned(responses)| <= MaxAnswers
    requires AnyReasoning(CollectReasoned(responses))
    ensures var stage1 := CollectReasoned(responses);
      var n := Min(|Evaluate(reasoningJudgements)|, |Evaluate(answerJudgements)|);
      Execute(s, responses, reasoningJudgements, answerJudgements, chairman, synthesis).metadata.value.aggregate ==
        Aggregate(ParsedRankings(Evaluate(reasoningJudgements))[..n], LabelMap(ResultModels(stage1)))
  {
    var stage1 := CollectReasoned(responses);
    var reasoning := Rank(stage1, reasoningJudgements, ReasoningKind).judgements;
    var answers := Rank(stage1, answerJudgements, AnswerKind).judgements;
    CombinedParsed(reasoning, answers);
    assert Parsed(reasoning) == ParsedRankings(Evaluate(reasoningJudgements));
  }

  /** Without reasoning, the run ranks and aggregates exactly as the simple
      strategy does on the same calls (when some model answered). */
  lemma FallbackIsSimple(s: Settings, responses: seq<ReasonedOutcome>, reasoningJudgements: seq<Outcome>, answerJudgements: seq<Outcome>,
                         chairman: string, synthesis: Option<string>)
    requires |CollectReasoned(responses)| <= MaxAnswers
    requires !AnyReasoning(CollectReasoned(responses))
    requires |CollectReasoned(responses)| > 0
    ensures var r := Execute(s, responses, reasoningJudgements, answerJudgements, chairman, synthesis);
      var plain := MapSeq(responses, Plain);
      |Collect(plain)| <= MaxAnswers &&
      var simple := SimpleRanking.Execute(plain, answerJudgements, chairman, synthesis);
      && simple.metadata.Some?
      && r.metadata.value.labelToModel == simple.metadata.value.labelToModel
      && r.metadata.value.aggregate == simple.metadata.value.aggregate
      && Parsed(r.stage2) == ParsedRankings(simple.stage2)
  {
    FallbackParts(responses, answerJudgements);
  }

  /** The pieces `FallbackIsSimple` puts together: the same answers, hence the
      same label map, and the same parsed answer rankings. */
  lemma FallbackParts(responses: seq<ReasonedOutcome>, answerJudgements: seq<Outcome>)
    requires |CollectReasoned(responses)| <= MaxAnswers
    ensures var stage1 := CollectReasoned(responses);
      var plain := MapSeq(responses, Plain);
      && Collect(plain) == MapSeq(stage1, AnswerOf)
      && ResultModels(stage1) == Models(Collect(plain))
      && Parsed(Rank(stage1, answerJudgements, AnswerKind).judgements) == ParsedRankings(Evaluate(answerJudgements))
  {
    var stage1 := CollectReasoned(responses);
    var plain := MapSeq(responses, Plain);
    CollectReasonedAnswers(responses);
    var answers := MapSeq(stage1, AnswerOf);
    assert ResultModels(stage1) == Models(answers);
    var judged := Rank(stage1, answerJudgements, AnswerKind).judgements;
    assert Parsed(judged) == ParsedRankings(Evaluate(answerJudgements));
  }

  /** The configured weights change nothing but the two numbers reported in the metadata. */
  lemma WeightsUnused(s: Settings, t: Settings, responses: seq<ReasonedOutcome>, reasoningJudgements: seq<Outcome>, answerJudgements: seq<Outcome>,
                      chairman: string, synthesis: Option<string>)
    requires |CollectReasoned(responses)| <= MaxAnswers
    ensures var a := Execute(s, responses, reasoningJudgements, answerJudgements, chairman, synthesis);
      var b := Execute(t, responses, reasoningJudgements, answerJudgements, chairman, synthesis);
      a.stage2 == b.stage2 && a.metadata.value.aggregate == b.metadata.value.aggregate &&
      a.metadata.value.(reasoningWeight := t.reasoningWeight, answerWeight := t.answerWeight) == b.metadata.value
  {
  }
}
