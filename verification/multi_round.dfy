/** The multi-round strategy: a first round of answers and peer rankings,
    then revision rounds in which every model sees the best answers of the
    round before and may revise its own, and finally a synthesis. The
    evolution metrics compare consecutive rounds' aggregate rankings. Each
    round's model calls are given as their outcomes. */
module MultiRound {
  import opened Common
  import opened StableSort
  import opened RankingParser
  import opened Anonymizer
  import opened Aggregation
  import opened Stages
  import SimpleRanking

  const Key: string := "multi_round"

  /* ---------------- Configuration ---------------- */

  /** The keys a caller may put in the configuration dictionary. */
  datatype Options = Options(rounds: Option<int>, showTopN: Option<int>)

  datatype Settings = Settings(rounds: int, showTopN: int)

  const DefaultRounds: int := 2
  const DefaultTopN: int := 2

  /** The constructor: a missing key, or no configuration at all, takes its default. */
  function Configure(config: Option<Options>): (s: Settings)
    ensures config.None? ==> s == Settings(DefaultRounds, DefaultTopN)
    ensures config.Some? && config.value.rounds.Some? ==> s.rounds == config.value.rounds.value
    ensures config.Some? && config.value.rounds.None? ==> s.rounds == DefaultRounds
    ensures config.Some? && config.value.showTopN.Some? ==> s.showTopN == config.value.showTopN.value
    ensures config.Some? && config.value.showTopN.None? ==> s.showTopN == DefaultTopN
  {
    match config
    case None => Settings(DefaultRounds, DefaultTopN)
    case Some(o) =>
      Settings(if o.rounds.Some? then o.rounds.value else DefaultRounds,
               if o.showTopN.Some? then o.showTopN.value else DefaultTopN)
  }

  /** A configuration without any of the keys, the empty dictionary among
      them, gives the same settings as no configuration: the defaults. */
  lemma EmptyConfigIsDefault()
    ensures Configure(Some(Options(None, None))) == Configure(None)
    ensures Configure(Some(Options(None, None))) == Settings(DefaultRounds, DefaultTopN)
  {
  }

  /** `get_name`: the round count is part of the name. */
  function Name(s: Settings): string
  {
    "Multi-Round (" + IntToString(s.rounds) + " rounds)"
  }

  /** Two settings with the same name have the same number of rounds. */
  lemma NameShowsRounds(s: Settings, t: Settings)
    ensures Name(s) == Name(t) <==> s.rounds == t.rounds
  {
    if Name(s) == Name(t) {
      var p := "Multi-Round (";
      var a := IntToString(s.rounds);
      var b := IntToString(t.rounds);
      assert |a| == |b|;
      forall k | 0 <= k < |a|
        ensures a[k] == b[k]
      {
        assert Name(s)[|p| + k] == a[k];
        assert Name(t)[|p| + k] == b[k];
      }
      assert a == b;
      IntToStringInjective(s.rounds, t.rounds);
    }
  }

  function Description(s: Settings): string
  {
    "Iterative deliberation with " + IntToString(s.rounds) + " rounds of refinement based on peer feedback"
  }

  /* ---------------- Top responses of a round ---------------- */

  /** A top answer shown in the next round's revision prompt. */
  datatype TopResponse = TopResponse(model: string, response: string, averageRank: real, critique: string)

  const NoCritique: string := "No specific critique available."
  const CritiqueLength: nat := 200

  /** `_get_representative_critique`: the first judge's text cut to 200
      characters, whatever the target model is; a fixed text when there are
      no judgements. */
  function Critique(rankings: seq<Evaluation>): (r: string)
    ensures |rankings| == 0 ==> r == NoCritique
    ensures |rankings| > 0 ==> r <= rankings[0].ranking
    ensures |rankings| > 0 ==> |r| == if |rankings[0].ranking| < CritiqueLength then |rankings[0].ranking| else CritiqueLength
  {
    if |rankings| == 0 then NoCritique else Take(rankings[0].ranking, CritiqueLength)
  }

  /** The first answer given by `model`, if any. */
  function FindAnswer(responses: seq<Answer>, model: string): (r: Option<Answer>)
    ensures r.None? <==> forall k :: 0 <= k < |responses| ==> responses[k].model != model
    ensures r.Some? ==> r.value.model == model && r.value in responses
    decreases |responses|
  {
    if |responses| == 0 then None
    else if responses[0].model == model then Some(responses[0])
    else FindAnswer(responses[1..], model)
  }

  /** The average rank of the first aggregate entry for `model`. */
  function FirstRank(aggregate: seq<Ranked>, model: string): (r: real)
    requires exists k :: 0 <= k < |aggregate| && aggregate[k].model == model
    ensures exists k :: 0 <= k < |aggregate| && aggregate[k].model == model && aggregate[k].averageRank == r &&
                        forall i :: 0 <= i < k ==> aggregate[i].model != model
    decreases |aggregate|
  {
    if aggregate[0].model == model then aggregate[0].averageRank
    else
      assert exists k :: 0 <= k < |aggregate[1..]| && aggregate[1..][k].model == model by {
        var k :| 0 <= k < |aggregate| && aggregate[k].model == model;
        assert aggregate[1..][k - 1].model == model;
      }
      var r := FirstRank(aggregate[1..], model);
      ghost var k :| 0 <= k < |aggregate[1..]| && aggregate[1..][k].model == model && aggregate[1..][k].averageRank == r &&
                     forall i :: 0 <= i < k ==> aggregate[1..][i].model != model;
      assert forall i :: 0 <= i < k + 1 ==> aggregate[i].model != model by {
        forall i | 0 <= i < k + 1 ensures aggregate[i].model != model {
          if i > 0 { assert aggregate[i] == aggregate[1..][i - 1]; }
        }
      }
      assert aggregate[k + 1] == aggregate[1..][k];
      r
  }

  /** The loop of `_get_top_responses` over the aggregate entries `from..upto`. */
  function TopFrom(aggregate: seq<Ranked>, from: nat, upto: nat, responses: seq<Answer>, critique: string): (r: seq<TopResponse>)
    requires upto <= |aggregate|
    ensures |r| <= if from <= upto then upto - from else 0
    decreases upto - from
  {
    if from >= upto then []
    else
      var m := aggregate[from].model;
      var rest := TopFrom(aggregate, from + 1, upto, responses, critique);
      match FindAnswer(responses, m)
      case None => rest
      case Some(a) => [TopResponse(m, a.response, FirstRank(aggregate, m), critique)] + rest
  }

  /** `t` is the top response of some entry in `from..upto`: that model's
      first answer with the given critique. */
  ghost predicate TopEntry(aggregate: seq<Ranked>, from: nat, upto: nat, responses: seq<Answer>, critique: string, t: TopResponse)
    requires upto <= |aggregate|
  {
    && (exists j :: from <= j < upto && aggregate[j].model == t.model)
    && FindAnswer(responses, t.model) == Some(Answer(t.model, t.response))
    && t.averageRank == FirstRank(aggregate, t.model)
    && t.critique == critique
  }

  /** Every top response is the model of an entry in `from..upto`, with that
      model's first answer and the given critique. */
  lemma {:induction false} TopFromSound(aggregate: seq<Ranked>, from: nat, upto: nat, responses: seq<Answer>, critique: string)
    requires upto <= |aggregate|
    ensures forall t :: t in TopFrom(aggregate, from, upto, responses, critique) ==> TopEntry(aggregate, from, upto, responses, critique, t)
    decreases upto - from
  {
    if from < upto {
      TopFromSound(aggregate, from + 1, upto, responses, critique);
      var rest := TopFrom(aggregate, from + 1, upto, responses, critique);
      var r := TopFrom(aggregate, from, upto, responses, critique);
      var m := aggregate[from].model;
      forall t | t in r
        ensures TopEntry(aggregate, from, upto, responses, critique, t)
      {
        match FindAnswer(responses, m)
        case Some(a) =>
          assert r == [TopResponse(m, a.response, FirstRank(aggregate, m), critique)] + rest;
          if t in rest {
            assert TopEntry(aggregate, from + 1, upto, responses, critique, t);
            var j :| from + 1 <= j < upto && aggregate[j].model == t.model;
            assert from <= j < upto && aggregate[j].model == t.model;
          } else {
            assert t == r[0];
            assert a.model == m;
            assert from <= from < upto && aggregate[from].model == t.model;
          }
        case None =>
          assert r == rest;
          assert TopEntry(aggregate, from + 1, upto, responses, critique, t);
          var j :| from + 1 <= j < upto && aggregate[j].model == t.model;
          assert from <= j < upto && aggregate[j].model == t.model;
      }
    }
  }

  /** Every entry in `from..upto` whose model answered has a top response. */
  lemma {:induction false} TopFromComplete(aggregate: seq<Ranked>, from: nat, upto: nat, responses: seq<Answer>, critique: string)
    requires upto <= |aggregate|
    ensures forall j :: from <= j < upto && FindAnswer(responses, aggregate[j].model).Some? ==>
      exists t :: t in TopFrom(aggregate, from, upto, responses, critique) && t.model == aggregate[j].model
    decreases upto - from
  {
    if from < upto {
      TopFromComplete(aggregate, from + 1, upto, responses, critique);
      var rest := TopFrom(aggregate, from + 1, upto, responses, critique);
      var r := TopFrom(aggregate, from, upto, responses, critique);
      var m := aggregate[from].model;
      forall j | from <= j < upto && FindAnswer(responses, aggregate[j].model).Some?
        ensures exists t :: t in r && t.model == aggregate[j].model
      {
        match FindAnswer(responses, m)
        case Some(a) =>
          assert r == [TopResponse(m, a.response, FirstRank(aggregate, m), critique)] + rest;
          if j == from {
            assert r[0] in r && r[0].model == m;
          } else {
            var t :| t in rest && t.model == aggregate[j].model;
            assert t in r;
          }
        case None =>
          assert r == rest;
          assert j != from;
      }
    }
  }

  /** Whenever `i < k`, the models of `top[i]` and `top[k]` are those of
      entries `j1 < j2` in `from..upto` of the aggregate. */
  ghost predicate InAggregateOrder(aggregate: seq<Ranked>, from: nat, upto: nat, top: seq<TopResponse>)
    requires upto <= |aggregate|
  {
    forall i, k :: 0 <= i < k < |top| ==> EntriesBefore(aggregate, from, upto, top[i].model, top[k].model)
  }

  /** Some entry for `x` comes before some entry for `y` in `from..upto`. */
  ghost predicate EntriesBefore(aggregate: seq<Ranked>, from: nat, upto: nat, x: string, y: string)
    requires upto <= |aggregate|
  {
    exists j1, j2 :: from <= j1 < j2 < upto && aggregate[j1].model == x && aggregate[j2].model == y
  }

  /** Widening the window by one entry at the front keeps the order. */
  lemma WidenOrdered(aggregate: seq<Ranked>, from: nat, upto: nat, top: seq<TopResponse>)
    requires from < upto <= |aggregate|
    requires InAggregateOrder(aggregate, from + 1, upto, top)
    ensures InAggregateOrder(aggregate, from, upto, top)
  {
    forall i, k | 0 <= i < k < |top|
      ensures EntriesBefore(aggregate, from, upto, top[i].model, top[k].model)
    {
      assert EntriesBefore(aggregate, from + 1, upto, top[i].model, top[k].model);
      var j1, j2 :| from + 1 <= j1 < j2 < upto && aggregate[j1].model == top[i].model && aggregate[j2].model == top[k].model;
    }
  }

  /** The response of entry `from`, put before responses of later entries, keeps the order. */
  lemma ConsOrdered(aggregate: seq<Ranked>, from: nat, upto: nat, head: TopResponse, rest: seq<TopResponse>)
    requires from < upto <= |aggregate|
    requires aggregate[from].model == head.model
    requires forall t :: t in rest ==> exists j :: from + 1 <= j < upto && aggregate[j].model == t.model
    requires InAggregateOrder(aggregate, from + 1, upto, rest)
    ensures InAggregateOrder(aggregate, from, upto, [head] + rest)
  {
    var r := [head] + rest;
    forall i, k | 0 <= i < k < |r|
      ensures EntriesBefore(aggregate, from, upto, r[i].model, r[k].model)
    {
      assert r[k] == rest[k - 1];
      if i == 0 {
        assert rest[k - 1] in rest;
        var j2 :| from + 1 <= j2 < upto && aggregate[j2].model == rest[k - 1].model;
        assert aggregate[from].model == r[0].model;
      } else {
        assert r[i] == rest[i - 1];
        assert EntriesBefore(aggregate, from + 1, upto, rest[i - 1].model, rest[k - 1].model);
        var j1, j2 :| from + 1 <= j1 < j2 < upto && aggregate[j1].model == rest[i - 1].model && aggregate[j2].model == rest[k - 1].model;
        assert from <= j1;
      }
    }
  }

  /** The top responses follow the order of the aggregate entries that chose them. */
  lemma {:induction false} TopFromOrdered(aggregate: seq<Ranked>, from: nat, upto: nat, responses: seq<Answer>, critique: string)
    requires upto <= |aggregate|
    ensures InAggregateOrder(aggregate, from, upto, TopFrom(aggregate, from, upto, responses, critique))
    decreases upto - from
  {
    var r := TopFrom(aggregate, from, upto, responses, critique);
    if from >= upto {
      assert r == [];
    } else {
      TopFromOrdered(aggregate, from + 1, upto, responses, critique);
      var rest := TopFrom(aggregate, from + 1, upto, responses, critique);
      var m := aggregate[from].model;
      match FindAnswer(responses, m)
      case Some(a) =>
        TopFromSound(aggregate, from + 1, upto, responses, critique);
        forall t | t in rest
          ensures exists j :: from + 1 <= j < upto && aggregate[j].model == t.model
        {
          assert TopEntry(aggregate, from + 1, upto, responses, critique, t);
        }
        ConsOrdered(aggregate, from, upto, TopResponse(m, a.response, FirstRank(aggregate, m), critique), rest);
      case None =>
        WidenOrdered(aggregate, from, upto, rest);
    }
  }

  /** `_get_top_responses(aggregate, responses, rankings, n)`. */
  function TopResponses(aggregate: seq<Ranked>, responses: seq<Answer>, rankings: seq<Evaluation>, n: int): seq<TopResponse>
  {
    TopFrom(aggregate, 0, |Take(aggregate, n)|, responses, Critique(rankings))
  }

  /** The top responses are at most `n` of the first `n` aggregate entries,
      exactly those whose model answered in that round, each with that
      model's answer and the round's critique. */
  lemma TopResponsesSpec(aggregate: seq<Ranked>, responses: seq<Answer>, rankings: seq<Evaluation>, n: int)
    ensures |TopResponses(aggregate, responses, rankings, n)| <= |Take(aggregate, n)|
    ensures forall t :: t in TopResponses(aggregate, responses, rankings, n) ==>
      && (exists j :: 0 <= j < |Take(aggregate, n)| && aggregate[j].model == t.model)
      && FindAnswer(responses, t.model) == Some(Answer(t.model, t.response))
      && t.averageRank == FirstRank(aggregate, t.model)
      && t.critique == Critique(rankings)
    ensures InAggregateOrder(aggregate, 0, |Take(aggregate, n)|, TopResponses(aggregate, responses, rankings, n))
    ensures forall j :: 0 <= j < |Take(aggregate, n)| && (exists a :: a in responses && a.model == aggregate[j].model) ==>
      exists t :: t in TopResponses(aggregate, responses, rankings, n) && t.model == aggregate[j].model
  {
    var upto := |Take(aggregate, n)|;
    var r := TopResponses(aggregate, responses, rankings, n);
    TopFromSound(aggregate, 0, upto, responses, Critique(rankings));
    TopFromComplete(aggregate, 0, upto, responses, Critique(rankings));
    TopFromOrdered(aggregate, 0, upto, responses, Critique(rankings));
    forall t | t in r
      ensures exists j :: 0 <= j < upto && aggregate[j].model == t.model
    {
      assert TopEntry(aggregate, 0, upto, responses, Critique(rankings), t);
    }
    forall j | 0 <= j < upto && (exists a :: a in responses && a.model == aggregate[j].model)
      ensures exists t :: t in r && t.model == aggregate[j].model
    {
      var a :| a in responses && a.model == aggregate[j].model;
      var i :| 0 <= i < |responses| && responses[i] == a;
      assert FindAnswer(responses, aggregate[j].model).Some?;
    }
  }

  /** At most `n` responses are shown. */
  lemma TopResponsesAtMost(aggregate: seq<Ranked>, responses: seq<Answer>, rankings: seq<Evaluation>, n: int)
    requires n >= 0
    ensures |TopResponses(aggregate, responses, rankings, n)| <= n
  {
    TopResponsesSpec(aggregate, responses, rankings, n);
  }

  /* ---------------- Rounds ---------------- */

  /** The outcomes of one round's calls: the answers (or revisions) and the judgements. */
  datatype RoundCalls = RoundCalls(responses: seq<Outcome>, judgements: seq<Outcome>)

  /** One round's record; `top_from_previous` exists from round 2 on. */
  datatype Round = Round(number: nat, responses: seq<Answer>, rankings: seq<Evaluation>, labelToModel: map<string, string>,
                         aggregate: seq<Ranked>, topFromPrevious: Option<seq<TopResponse>>)

  /** Every round's answers fit the label alphabet of the model. */
  predicate Labelable(calls: seq<RoundCalls>)
  {
    forall k :: 0 <= k < |calls| ==> |Collect(calls[k].responses)| <= MaxAnswers
  }

  /** One round: the answers, their rankings, and the aggregate computed by
      parsing the judges' texts again. */
  function RunRound(number: nat, calls: RoundCalls, previous: Option<Round>, topN: int): (r: Round)
    requires |Collect(calls.responses)| <= MaxAnswers
    ensures r.number == number
    ensures previous.None? <==> r.topFromPrevious.None?
    ensures previous.Some? ==>
      r.topFromPrevious == Some(TopResponses(previous.value.aggregate, previous.value.responses, previous.value.rankings, topN))
    ensures r.responses == Collect(calls.responses) && r.rankings == Evaluate(calls.judgements)
    ensures r.labelToModel == LabelMap(Models(r.responses))
    ensures r.aggregate == Aggregate(ParsedRankings(r.rankings), r.labelToModel)
  {
    var top := if previous.Some? then Some(TopResponses(previous.value.aggregate, previous.value.responses, previous.value.rankings, topN)) else None;
    MakeRound(number, Collect(calls.responses), Evaluate(calls.judgements), top)
  }

  /** A round from its answers and judgements: the judges' texts are parsed
      again against the label map of the answers. */
  function MakeRound(number: nat, responses: seq<Answer>, rankings: seq<Evaluation>, top: Option<seq<TopResponse>>): (r: Round)
    requires |responses| <= MaxAnswers
    requires forall k :: 0 <= k < |rankings| ==> rankings[k].parsed == Parse(rankings[k].ranking)
    ensures r.number == number && r.topFromPrevious == top
    ensures r.responses == responses && r.rankings == rankings
    ensures r.labelToModel == LabelMap(Models(responses))
    ensures r.aggregate == Aggregate(ParsedRankings(rankings), r.labelToModel)
  {
    var lm := LabelMap(Models(responses));
    assert SimpleRanking.TextRankings(rankings) == ParsedRankings(rankings);
    Round(number, responses, rankings, lm, Aggregate(SimpleRanking.TextRankings(rankings), lm), top)
  }

  /** A loop that runs `step` once per entry of `calls`, numbering the steps
      1, 2, … and handing each step the result of the one before. */
  function Iterate<C, R(!new)>(calls: seq<C>, step: (nat, C, Option<R>) --> R): (r: seq<R>)
    requires forall c, n, p :: c in calls ==> step.requires(n, c, p)
    ensures |r| == |calls|
  {
    if |calls| == 0 then []
    else
      var n := |calls| - 1;
      var front := Iterate(calls[..n], step);
      front + [step(n + 1, calls[n], Previous(front, n))]
  }

  /** The result before step `i + 1`, if any. */
  function Previous<R>(results: seq<R>, i: nat): (r: Option<R>)
    requires i <= |results|
    ensures r.None? <==> i == 0
    ensures r.Some? ==> r.value == results[i - 1]
  {
    if i == 0 then None else Some(results[i - 1])
  }

  /** Step `i + 1` runs on the `i`-th entry and, after the first, is fed by step `i`. */
  lemma {:induction false} IterateSpec<C, R(!new)>(calls: seq<C>, step: (nat, C, Option<R>) --> R, i: nat)
    requires forall c, n, p :: c in calls ==> step.requires(n, c, p)
    requires i < |calls|
    ensures Iterate(calls, step)[i] == step(i + 1, calls[i], Previous(Iterate(calls, step), i))
    decreases |calls|
  {
    var n := |calls| - 1;
    var front := Iterate(calls[..n], step);
    var r := Iterate(calls, step);
    assert r == front + [step(n + 1, calls[n], Previous(front, n))];
    if i < n {
      IterateSpec(calls[..n], step, i);
      assert calls[..n][i] == calls[i];
      assert r[i] == front[i];
      if i > 0 {
        assert r[i - 1] == front[i - 1];
      }
      assert Previous(r, i) == Previous(front, i);
    } else {
      assert Previous(r, n) == Previous(front, n);
    }
  }

  /** One round as a step of the loop. */
  function RoundStep(topN: int): (nat, RoundCalls, Option<Round>) --> Round
  {
    (number: nat, calls: RoundCalls, previous: Option<Round>) requires |Collect(calls.responses)| <= MaxAnswers =>
      RunRound(number, calls, previous, topN)
  }

  /** The loop of `execute`: rounds numbered 1, 2, …, each revision round fed by the round before. */
  function RunRounds(calls: seq<RoundCalls>, topN: int): (r: seq<Round>)
    requires Labelable(calls)
    ensures |r| == |calls|
  {
    Iterate(calls, RoundStep(topN))
  }

  /** Round `i + 1` is run on the `i`-th calls and, after the first, fed by round `i`. */
  lemma RunRoundsSpec(calls: seq<RoundCalls>, topN: int, i: nat)
    requires Labelable(calls)
    requires i < |calls|
    ensures RunRounds(calls, topN)[i] == RunRound(i + 1, calls[i], Previous(RunRounds(calls, topN), i), topN)
  {
    var step := RoundStep(topN);
    forall c, n, p | c in calls
      ensures step.requires(n, c, p)
    {
      var k :| 0 <= k < |calls| && calls[k] == c;
    }
    IterateSpec(calls, step, i);
  }

  /** The rounds are numbered 1, 2, … in order. */
  lemma RoundNumbers(calls: seq<RoundCalls>, topN: int)
    requires Labelable(calls)
    ensures forall i :: 0 <= i < |calls| ==> RunRounds(calls, topN)[i].number == i + 1
  {
    forall i | 0 <= i < |calls|
      ensures RunRounds(calls, topN)[i].number == i + 1
    {
      RunRoundsSpec(calls, topN, i);
    }
  }

  /* ---------------- Evolution metrics ---------------- */

  /** A significant move of one model between two rounds. */
  datatype Change = Change(model: string, change: real, improved: bool)

  const Significance: real := 0.1

  function Abs(x: real): real
  {
    if x < 0.0 then -x else x
  }

  function RankedModel(x: Ranked): string
  {
    x.model
  }

  /** `{r['model']: r['average_rank'] for r in aggregate}[model]`: the last entry wins. */
  function LastRank(aggregate: seq<Ranked>, model: string): (r: Option<real>)
    ensures r.None? <==> forall k :: 0 <= k < |aggregate| ==> aggregate[k].model != model
    ensures r.Some? ==> exists k :: 0 <= k < |aggregate| && aggregate[k].model == model && aggregate[k].averageRank == r.value
  {
    if |aggregate| == 0 then None
    else
      var n := |aggregate| - 1;
      if aggregate[n].model == model then Some(aggregate[n].averageRank) else LastRank(aggregate[..n], model)
  }

  /** The model moved by more than the significance threshold between the two rounds. */
  predicate Moved(prev: seq<Ranked>, curr: seq<Ranked>, model: string)
  {
    LastRank(prev, model).Some? && LastRank(curr, model).Some? &&
    Abs(LastRank(prev, model).value - LastRank(curr, model).value) > Significance
  }

  /** The loop over the current round's models, in their order. */
  function ChangesFrom(keys: seq<string>, prev: seq<Ranked>, curr: seq<Ranked>): (r: seq<Change>)
    ensures |r| <= |keys|
    decreases |keys|
  {
    if |keys| == 0 then []
    else
      var m := keys[0];
      var rest := ChangesFrom(keys[1..], prev, curr);
      if Moved(prev, curr, m) then
        var change := LastRank(prev, m).value - LastRank(curr, m).value;
        [Change(m, change, change > 0.0)] + rest
      else rest
  }

  /** `x` records a significant move of its model: previous minus current
      average, improved when positive. */
  predicate Recorded(prev: seq<Ranked>, curr: seq<Ranked>, x: Change)
  {
    && Moved(prev, curr, x.model)
    && x.change == LastRank(prev, x.model).value - LastRank(curr, x.model).value
    && (x.improved <==> x.change > 0.0)
  }

  /** Each recorded change is for a listed model that moved, with the change
      previous minus current; every listed model that moved is recorded. */
  lemma {:induction false} ChangesFromSpec(keys: seq<string>, prev: seq<Ranked>, curr: seq<Ranked>)
    ensures forall x :: x in ChangesFrom(keys, prev, curr) ==> x.model in keys && Recorded(prev, curr, x)
    ensures forall m :: m in keys && Moved(prev, curr, m) ==> exists x :: x in ChangesFrom(keys, prev, curr) && x.model == m
    decreases |keys|
  {
    if |keys| > 0 {
      ChangesFromSpec(keys[1..], prev, curr);
      var m := keys[0];
      var rest := ChangesFrom(keys[1..], prev, curr);
      var r := ChangesFrom(keys, prev, curr);
      assert forall y :: y in keys[1..] ==> y in keys;
      if Moved(prev, curr, m) {
        var change := LastRank(prev, m).value - LastRank(curr, m).value;
        var x := Change(m, change, change > 0.0);
        assert r == [x] + rest;
        assert Recorded(prev, curr, x);
        forall y | y in keys && Moved(prev, curr, y)
          ensures exists z :: z in r && z.model == y
        {
          if y == m {
            assert x in r;
          } else {
            assert y in keys[1..];
            var z :| z in rest && z.model == y;
            assert z in r;
          }
        }
      } else {
        assert r == rest;
        forall y | y in keys && Moved(prev, curr, y)
          ensures exists z :: z in r && z.model == y
        {
          assert y in keys[1..];
        }
      }
    }
  }

  /** The rank changes from `prev` to `curr`. */
  function Changes(prev: seq<Ranked>, curr: seq<Ranked>): seq<Change>
  {
    ChangesFrom(Dedup(MapSeq(curr, RankedModel)), prev, curr)
  }

  /** A change is recorded exactly for each model in both rounds whose
      average moved by more than 0.1; the change is previous minus current,
      and "improved" means the average rank went down. */
  lemma ChangesSpec(prev: seq<Ranked>, curr: seq<Ranked>, m: string)
    ensures (exists x :: x in Changes(prev, curr) && x.model == m) <==>
      (exists i :: 0 <= i < |prev| && prev[i].model == m) && (exists j :: 0 <= j < |curr| && curr[j].model == m) && Moved(prev, curr, m)
    ensures forall x :: x in Changes(prev, curr) ==> Recorded(prev, curr, x)
  {
    var keys := Dedup(MapSeq(curr, RankedModel));
    ChangesFromSpec(keys, prev, curr);
    if Moved(prev, curr, m) {
      var j :| 0 <= j < |curr| && curr[j].model == m;
      assert MapSeq(curr, RankedModel)[j] == m;
      assert m in keys;
    }
  }

  /** Comparing the rounds the other way round records the same models with
      the opposite change and the opposite verdict. */
  lemma ChangesReverse(prev: seq<Ranked>, curr: seq<Ranked>)
    ensures forall x :: x in Changes(prev, curr) ==>
      exists y :: y in Changes(curr, prev) && y.model == x.model && y.change == -x.change && y.improved == !x.improved
  {
    forall x | x in Changes(prev, curr)
      ensures exists y :: y in Changes(curr, prev) && y.model == x.model && y.change == -x.change && y.improved == !x.improved
    {
      ChangesSpec(prev, curr, x.model);
      ChangesSpec(curr, prev, x.model);
      var y :| y in Changes(curr, prev) && y.model == x.model;
    }
  }

  /** `f` applied to every pair of consecutive elements, in order. */
  function Consecutive<T, U>(s: seq<T>, f: (T, T) -> U): (r: seq<U>)
    ensures |r| == if |s| == 0 then 0 else |s| - 1
    ensures forall i :: 0 <= i < |r| ==> r[i] == f(s[i], s[i + 1])
  {
    if |s| <= 1 then []
    else
      var n := |s| - 1;
      assert forall i :: 0 <= i < n ==> s[..n][i] == s[i];
      Consecutive(s[..n], f) + [f(s[n - 1], s[n])]
  }

  /** The per-round lists of rank changes, one for each round after the first. */
  function RankChanges(aggregates: seq<seq<Ranked>>): (r: seq<seq<Change>>)
    ensures |r| == if |aggregates| == 0 then 0 else |aggregates| - 1
    ensures forall i :: 0 <= i < |r| ==> r[i] == Changes(aggregates[i], aggregates[i + 1])
  {
    Consecutive(aggregates, Changes)
  }

  /** `any(len(changes) > 0 for changes in rank_changes)`. */
  function AnyChange(lists: seq<seq<Change>>): (b: bool)
    ensures b <==> exists i :: 0 <= i < |lists| && |lists[i]| > 0
  {
    if |lists| == 0 then false else |lists[0]| > 0 || AnyChange(lists[1..])
  }

  /** The evolution metrics; a single round gives `{'rounds': 1, 'evolution_detected': False}`. */
  datatype Evolution = Evolution(rounds: nat, rankChanges: Option<seq<seq<Change>>>, detected: bool)

  function EvolutionOf(aggregates: seq<seq<Ranked>>): (e: Evolution)
    ensures |aggregates| < 2 ==> e == Evolution(1, None, false)
    ensures |aggregates| >= 2 ==> e.rounds == |aggregates| && e.rankChanges == Some(RankChanges(aggregates))
  {
    if |aggregates| < 2 then Evolution(1, None, false)
    else
      var rc := RankChanges(aggregates);
      Evolution(|aggregates|, Some(rc), AnyChange(rc))
  }

  /** Evolution is detected exactly when some pair of consecutive rounds has a recorded change. */
  lemma EvolutionDetected(aggregates: seq<seq<Ranked>>)
    ensures EvolutionOf(aggregates).detected <==>
      exists i :: 0 <= i < |aggregates| - 1 && |Changes(aggregates[i], aggregates[i + 1])| > 0
  {
    if |aggregates| >= 2 {
      var rc := RankChanges(aggregates);
      if EvolutionOf(aggregates).detected {
        var i :| 0 <= i < |rc| && |rc[i]| > 0;
        assert |Changes(aggregates[i], aggregates[i + 1])| > 0;
      }
      if exists i :: 0 <= i < |aggregates| - 1 && |Changes(aggregates[i], aggregates[i + 1])| > 0 {
        var i :| 0 <= i < |aggregates| - 1 && |Changes(aggregates[i], aggregates[i + 1])| > 0;
        assert |rc[i]| > 0;
      }
    }
  }

  /** A round compared with an identical round shows no change. */
  lemma NoChangeWithin(a: seq<Ranked>)
    ensures Changes(a, a) == []
  {
    if |Changes(a, a)| > 0 {
      var x := Changes(a, a)[0];
      assert x in Changes(a, a);
      ChangesSpec(a, a, x.model);
      assert false;
    }
  }

  /** When every round ends with the same aggregate, no evolution is detected. */
  lemma SteadyRounds(aggregates: seq<seq<Ranked>>)
    requires forall i :: 0 <= i < |aggregates| ==> aggregates[i] == aggregates[0]
    ensures !EvolutionOf(aggregates).detected
  {
    forall i | 0 <= i < |aggregates| - 1
      ensures |Changes(aggregates[i], aggregates[i + 1])| == 0
    {
      NoChangeWithin(aggregates[0]);
    }
    EvolutionDetected(aggregates);
  }

  /* ---------------- Execution ---------------- */

  /** Metadata `{"strategy", "rounds", "label_to_model", "aggregate_rankings", "evolution"}`. */
  datatype MultiMeta = MultiMeta(strategy: string, rounds: int, labelToModel: map<string, string>,
                                 aggregate: seq<Ranked>, evolution: Evolution)

  /** The aggregates of the rounds, in order. */
  function Aggregates(rounds: seq<Round>): (r: seq<seq<Ranked>>)
    ensures |r| == |rounds|
    ensures forall i :: 0 <= i < |rounds| ==> r[i] == rounds[i].aggregate
  {
    MapSeq(rounds, (x: Round) => x.aggregate)
  }

  /** Reading the last round of an empty list of rounds raises. */
  const NoRounds: string := "list index out of range"

  /** The number of rounds the loop `for round_num in range(rounds)` runs. */
  function RoundCount(rounds: int): nat
  {
    if rounds < 0 then 0 else rounds
  }

  /** The result dictionary built from the rounds once they have run. */
  function Finish(rounds: seq<Round>, chairman: string, synthesis: Option<string>): (c: Council<seq<Round>, seq<Evaluation>, MultiMeta>)
    requires |rounds| > 0
  {
    var last := rounds[|rounds| - 1];
    Council(rounds, last.rankings, Synthesize(chairman, synthesis),
            Some(MultiMeta(Key, |rounds|, last.labelToModel, last.aggregate, EvolutionOf(Aggregates(rounds)))))
  }

  /** `execute`: run the rounds, one per entry of `calls`, then synthesise;
      with no round at all, reading the last round raises. */
  function Execute(s: Settings, calls: seq<RoundCalls>, chairman: string, synthesis: Option<string>): (r: Result<Council<seq<Round>, seq<Evaluation>, MultiMeta>>)
    requires |calls| == RoundCount(s.rounds)
    requires Labelable(calls)
    ensures r.Err? <==> s.rounds <= 0
    ensures r.Err? ==> r.error == NoRounds
    ensures r.Ok? ==> |r.value.stage1| == s.rounds
  {
    if s.rounds <= 0 then Err(NoRounds)
    else Ok(Finish(RunRounds(calls, s.showTopN), chairman, synthesis))
  }

  /** A run returns every round, the last round's judgements, labels and
      aggregate, and evolution metrics over all the rounds' aggregates. */
  lemma ExecuteSpec(s: Settings, calls: seq<RoundCalls>, chairman: string, synthesis: Option<string>)
    requires |calls| == RoundCount(s.rounds)
    requires Labelable(calls)
    requires s.rounds > 0
    ensures var c := Execute(s, calls, chairman, synthesis).value;
      var last := c.stage1[s.rounds - 1];
      && c.stage1 == RunRounds(calls, s.showTopN)
      && c.stage2 == last.rankings
      && c.stage3 == Synthesize(chairman, synthesis)
      && c.metadata == Some(MultiMeta(Key, s.rounds, last.labelToModel, last.aggregate, EvolutionOf(Aggregates(c.stage1))))
  {
  }

  /** A run's evolution metrics count its rounds, and its rounds are numbered 1..rounds. */
  lemma ExecuteRounds(s: Settings, calls: seq<RoundCalls>, chairman: string, synthesis: Option<string>)
    requires |calls| == RoundCount(s.rounds)
    requires Labelable(calls)
    requires s.rounds > 0
    ensures Execute(s, calls, chairman, synthesis).value.metadata.value.evolution.rounds == s.rounds
    ensures forall i :: 0 <= i < s.rounds ==> Execute(s, calls, chairman, synthesis).value.stage1[i].number == i + 1
  {
    var rounds := RunRounds(calls, s.showTopN);
    var c := Finish(rounds, chairman, synthesis);
    assert Execute(s, calls, chairman, synthesis) == Ok(c);
    var e := EvolutionOf(Aggregates(rounds));
    assert c.metadata.value.evolution == e;
    assert |Aggregates(rounds)| == s.rounds;
    assert e.rounds == s.rounds;
    RoundNumbers(calls, s.showTopN);
  }

  /** Each revision round shows at most `show_top_n` of the previous round's answers. */
  lemma ExecuteShowsTop(s: Settings, calls: seq<RoundCalls>, chairman: string, synthesis: Option<string>)
    requires |calls| == RoundCount(s.rounds)
    requires Labelable(calls)
    requires s.rounds > 0 && s.showTopN >= 0
    ensures forall i :: 1 <= i < s.rounds ==>
      && Execute(s, calls, chairman, synthesis).value.stage1[i].topFromPrevious.Some?
      && |Execute(s, calls, chairman, synthesis).value.stage1[i].topFromPrevious.value| <= s.showTopN
  {
    var rounds := RunRounds(calls, s.showTopN);
    assert Execute(s, calls, chairman, synthesis).value.stage1 == rounds;
    forall i | 1 <= i < s.rounds
      ensures rounds[i].topFromPrevious.Some? && |rounds[i].topFromPrevious.value| <= s.showTopN
    {
      RunRoundsSpec(calls, s.showTopN, i);
      var p := rounds[i - 1];
      assert Previous(rounds, i) == Some(p);
      var top := TopResponses(p.aggregate, p.responses, p.rankings, s.showTopN);
      assert rounds[i].topFromPrevious == Some(top);
      TopResponsesAtMost(p.aggregate, p.responses, p.rankings, s.showTopN);
    }
  }
}
