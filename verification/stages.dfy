/** The records every strategy passes between its stages. A network call
    is not modelled: each phase of calls is given as the sequence of
    outcomes `query_models_parallel` returned, in the order of its result
    dictionary, with `None` for a model whose call failed. */
module Stages {
  import opened Common
  import opened RankingParser

  /** What one model call gave back: its `content`, or nothing when the call failed. */
  datatype Outcome = Outcome(model: string, reply: Option<string>)

  /** A stage-1 answer `{"model", "response"}`, also the shape of the chairman's synthesis. */
  datatype Answer = Answer(model: string, response: string)

  /** A stage-2 judgement `{"model", "ranking", "parsed_ranking"}`. */
  datatype Evaluation = Evaluation(model: string, ranking: string, parsed: seq<string>)

  /** The result of a strategy run: three stages and its metadata
      (`None` stands for the empty metadata dictionary `{}`). */
  datatype Council<S1, S2, M> = Council(stage1: S1, stage2: S2, stage3: Answer, metadata: Option<M>)

  const ErrorModel: string := "error"
  const AllFailed: string := "All models failed to respond. Please try again."
  const SynthesisFailed: string := "Error: Unable to generate final synthesis."

  predicate Succeeded(o: Outcome)
  {
    o.reply.Some?
  }

  /** The stage-1 loop: one answer per successful call, in order. */
  function Collect(outcomes: seq<Outcome>): (r: seq<Answer>)
    ensures |r| == CountWhere(outcomes, Succeeded)
    ensures forall k :: 0 <= k < |r| ==> Outcome(r[k].model, Some(r[k].response)) in outcomes
  {
    if |outcomes| == 0 then []
    else
      var n := |outcomes| - 1;
      var front := Collect(outcomes[..n]);
      match outcomes[n].reply
      case Some(content) => front + [Answer(outcomes[n].model, content)]
      case None => front
  }

  /** Collecting is a homomorphism on concatenation: the answers keep the order of the calls. */
  lemma {:induction false} CollectConcat(a: seq<Outcome>, b: seq<Outcome>)
    ensures Collect(a + b) == Collect(a) + Collect(b)
    decreases |b|
  {
    if |b| == 0 {
      assert a + b == a;
    } else {
      var n := |b| - 1;
      var ab := a + b;
      assert ab[..|ab| - 1] == a + b[..n] && ab[|ab| - 1] == b[n];
      CollectConcat(a, b[..n]);
      CollectLast(ab);
      CollectLast(b);
      var left, right, last := Collect(a), Collect(b[..n]), AnswersOf(b[n]);
      assert (left + right) + last == left + (right + last);
    }
  }

  /** The answers one call contributes: one when it succeeded, none otherwise. */
  function AnswersOf(o: Outcome): seq<Answer>
  {
    match o.reply
    case Some(content) => [Answer(o.model, content)]
    case None => []
  }

  lemma CollectLast(outcomes: seq<Outcome>)
    requires |outcomes| > 0
    ensures Collect(outcomes) == Collect(outcomes[..|outcomes| - 1]) + AnswersOf(outcomes[|outcomes| - 1])
  {
    var n := |outcomes| - 1;
    if outcomes[n].reply.None? {
      assert Collect(outcomes[..n]) + [] == Collect(outcomes[..n]);
    }
  }

  /** An answer is collected exactly when its model's call returned that text. */
  lemma {:induction false} CollectMembers(outcomes: seq<Outcome>, x: Answer)
    ensures x in Collect(outcomes) <==> Outcome(x.model, Some(x.response)) in outcomes
  {
    if |outcomes| > 0 {
      var n := |outcomes| - 1;
      CollectMembers(outcomes[..n], x);
      InFrontOrLast(outcomes, Outcome(x.model, Some(x.response)));
    }
  }

  /** No answer at all exactly when every call failed. */
  lemma CollectEmpty(outcomes: seq<Outcome>)
    ensures |Collect(outcomes)| == 0 <==> forall k :: 0 <= k < |outcomes| ==> outcomes[k].reply.None?
  {
    if exists k :: 0 <= k < |outcomes| && outcomes[k].reply.Some? {
      var k :| 0 <= k < |outcomes| && outcomes[k].reply.Some?;
      CollectMembers(outcomes, Answer(outcomes[k].model, outcomes[k].reply.value));
    } else {
      forall x | x in Collect(outcomes)
        ensures false
      {
        CollectMembers(outcomes, x);
      }
    }
  }

  /** The stage-2 loop: every successful judge's text and the ranking parsed from it, in order. */
  function Evaluate(outcomes: seq<Outcome>): (r: seq<Evaluation>)
    ensures |r| == CountWhere(outcomes, Succeeded)
    ensures forall k :: 0 <= k < |r| ==> r[k].parsed == Parse(r[k].ranking)
    ensures forall k :: 0 <= k < |r| ==> Outcome(r[k].model, Some(r[k].ranking)) in outcomes
  {
    if |outcomes| == 0 then []
    else
      var n := |outcomes| - 1;
      var front := Evaluate(outcomes[..n]);
      match outcomes[n].reply
      case Some(text) => front + [Evaluation(outcomes[n].model, text, Parse(text))]
      case None => front
  }

  /** A judgement is recorded exactly when its judge's call returned that text, parsed. */
  lemma {:induction false} EvaluateMembers(outcomes: seq<Outcome>, e: Evaluation)
    ensures e in Evaluate(outcomes) <==> e.parsed == Parse(e.ranking) && Outcome(e.model, Some(e.ranking)) in outcomes
  {
    if |outcomes| > 0 {
      var n := |outcomes| - 1;
      EvaluateMembers(outcomes[..n], e);
      InFrontOrLast(outcomes, Outcome(e.model, Some(e.ranking)));
      var front := Evaluate(outcomes[..n]);
      match outcomes[n].reply
      case Some(text) =>
        var last := Evaluation(outcomes[n].model, text, Parse(text));
        assert Evaluate(outcomes) == front + [last];
        InFrontOrLast(front + [last], e);
        assert (front + [last])[..|front|] == front;
      case None =>
        assert Evaluate(outcomes) == front;
    }
  }

  /** The models of the answers, in order. */
  function Models(answers: seq<Answer>): (r: seq<string>)
    ensures |r| == |answers|
    ensures forall k :: 0 <= k < |answers| ==> r[k] == answers[k].model
  {
    if |answers| == 0 then [] else Models(answers[..|answers| - 1]) + [answers[|answers| - 1].model]
  }

  /** The parsed rankings of the judgements, in order. */
  function ParsedRankings(evaluations: seq<Evaluation>): (r: seq<seq<string>>)
    ensures |r| == |evaluations|
    ensures forall k :: 0 <= k < |evaluations| ==> r[k] == evaluations[k].parsed
  {
    if |evaluations| == 0 then [] else ParsedRankings(evaluations[..|evaluations| - 1]) + [evaluations[|evaluations| - 1].parsed]
  }

  /** The chairman's answer, or the fixed fallback text when the chairman's call failed. */
  function Synthesize(chairman: string, reply: Option<string>): (r: Answer)
    ensures r.model == chairman
    ensures reply.Some? ==> r.response == reply.value
    ensures reply.None? ==> r.response == SynthesisFailed
  {
    match reply
    case Some(content) => Answer(chairman, content)
    case None => Answer(chairman, SynthesisFailed)
  }

  /** The result returned when no model answered in stage 1. */
  function Failure<S1, S2, M>(empty1: S1, empty2: S2): Council<S1, S2, M>
  {
    Council(empty1, empty2, Answer(ErrorModel, AllFailed), None)
  }

  /** Judgements whose parsed ranking came from the parser hold only labels. */
  lemma ParsedAreLabels(evaluations: seq<Evaluation>)
    requires forall k :: 0 <= k < |evaluations| ==> evaluations[k].parsed == Parse(evaluations[k].ranking)
    ensures forall r, k :: 0 <= r < |ParsedRankings(evaluations)| && 0 <= k < |ParsedRankings(evaluations)[r]| ==>
      IsLabel(ParsedRankings(evaluations)[r][k])
  {
    var rs := ParsedRankings(evaluations);
    forall r, k | 0 <= r < |rs| && 0 <= k < |rs[r]|
      ensures IsLabel(rs[r][k])
    {
      assert rs[r] == Parse(evaluations[r].ranking);
    }
  }
}
