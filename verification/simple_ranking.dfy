/** The simple ranking strategy: collect answers, let every model rank the
    anonymised answers, average the positions, and let the chairman
    synthesise. */
module SimpleRanking {
  import opened Common
  import opened RankingParser
  import opened Anonymizer
  import opened Aggregation
  import opened Stages
  import opened StableSort

  const Name: string := "Simple Ranking"
  const Description: string := "3-stage process: individual responses → anonymous peer ranking → chairman synthesis"
  const Key: string := "simple"

  /** Metadata `{"label_to_model", "aggregate_rankings", "strategy"}`. */
  datatype SimpleMeta = SimpleMeta(labelToModel: map<string, string>, aggregate: seq<Ranked>, strategy: string)

  /** The rankings the aggregate reads: each judge's text is parsed again. */
  function TextRankings(evaluations: seq<Evaluation>): (r: seq<seq<string>>)
    ensures |r| == |evaluations|
    ensures forall k :: 0 <= k < |evaluations| ==> r[k] == Parse(evaluations[k].ranking)
  {
    MapSeq(evaluations, Reparse)
  }

  /** One judge's text parsed again. */
  function Reparse(e: Evaluation): seq<string>
  {
    Parse(e.ranking)
  }

  /** Parsing the text again gives back the stored parsed rankings. */
  lemma TextRankingsParsed(judgements: seq<Outcome>)
    ensures TextRankings(Evaluate(judgements)) == ParsedRankings(Evaluate(judgements))
  {
  }

  /** `execute`, with the three phases of model calls given as their outcomes. */
  function Execute(responses: seq<Outcome>, judgements: seq<Outcome>, chairman: string, synthesis: Option<string>): (r: Council<seq<Answer>, seq<Evaluation>, SimpleMeta>)
    requires |Collect(responses)| <= MaxAnswers
    ensures r.stage1 == Collect(responses)
    ensures r.stage1 == [] <==> r.metadata.None?
    ensures r.stage1 == [] ==> r.stage2 == [] && r.stage3 == Answer(ErrorModel, AllFailed)
    ensures r.stage1 != [] ==> r.stage2 == Evaluate(judgements) && r.stage3 == Synthesize(chairman, synthesis)
    ensures r.metadata.Some? ==> r.metadata.value.strategy == Key
    ensures r.metadata.Some? ==> r.metadata.value.labelToModel == LabelMap(Models(r.stage1))
    ensures r.metadata.Some? ==> r.metadata.value.aggregate == Aggregate(ParsedRankings(r.stage2), r.metadata.value.labelToModel)
  {
    var stage1 := Collect(responses);
    if |stage1| == 0 then Failure([], [])
    else
      var stage2 := Evaluate(judgements);
      var lm := LabelMap(Models(stage1));
      TextRankingsParsed(judgements);
      Council(stage1, stage2, Synthesize(chairman, synthesis), Some(SimpleMeta(lm, Aggregate(TextRankings(stage2), lm), Key)))
  }

  /** Every model in the aggregate of answers and judgements is the model of
      one of the first 26 answers. */
  lemma AggregateOfAnswers(stage1: seq<Answer>, stage2: seq<Evaluation>)
    requires |stage1| <= MaxAnswers
    requires forall k :: 0 <= k < |stage2| ==> stage2[k].parsed == Parse(stage2[k].ranking)
    ensures forall x :: x in Aggregate(ParsedRankings(stage2), LabelMap(Models(stage1))) ==>
      exists i :: 0 <= i < |stage1| && i < 26 && stage1[i].model == x.model
  {
    var rs := ParsedRankings(stage2);
    var models := Models(stage1);
    ParsedAreLabels(stage2);
    AggregateValues(rs, LabelMap(models));
    forall x | x in Aggregate(rs, LabelMap(models))
      ensures exists i :: 0 <= i < |stage1| && i < 26 && stage1[i].model == x.model
    {
      RankedAreLettered(rs, models, x.model);
      var i :| 0 <= i < |models| && i < 26 && models[i] == x.model;
    }
  }

  /** A successful run only ranks models that answered in stage 1, among the first 26 answers. */
  lemma ExecuteAggregate(responses: seq<Outcome>, judgements: seq<Outcome>, chairman: string, synthesis: Option<string>)
    requires |Collect(responses)| <= MaxAnswers
    requires |Collect(responses)| > 0
    ensures Execute(responses, judgements, chairman, synthesis).metadata.Some?
    ensures forall x :: x in Execute(responses, judgements, chairman, synthesis).metadata.value.aggregate ==>
      exists i :: 0 <= i < |Collect(responses)| && i < 26 && Collect(responses)[i].model == x.model
  {
    AggregateOfAnswers(Collect(responses), Evaluate(judgements));
  }
}
