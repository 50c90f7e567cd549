/** Anonymisation of stage-1 answers: the i-th answer is shown to the
    judges as `Response X` with `X = chr(65 + i)`, and the label map sends
    each label back to the model that wrote the answer. */
module Anonymizer {
  import opened Common
  import opened RankingParser
  import opened Aggregation

  /** Number of answers whose label letter is a Unicode scalar value
      (65 + i stays below the surrogate range). */
  const MaxAnswers: nat := 0xD800 - 65

  /** The label of the i-th answer, `f"Response {chr(65 + i)}"`. */
  function LabelOf(i: nat): (l: string)
    requires i < MaxAnswers
    ensures |l| == 10 && l[..9] == LabelPrefix
    ensures l[9] as int == 65 + i
  {
    LabelPrefix + [(65 + i) as char]
  }

  /** Only the first 26 labels are letters `A`..`Z`, and so only they can
      ever be read back by the ranking parser. */
  lemma LabelParseable(i: nat)
    requires i < MaxAnswers
    ensures IsLabel(LabelOf(i)) <==> i < 26
    ensures forall text :: LabelOf(i) in Parse(text) ==> i < 26
  {
    var l := LabelOf(i);
    assert IsLabel(l) <==> IsUpper(l[9]);
    forall text | l in Parse(text)
      ensures i < 26
    {
      var r := Parse(text);
      var k :| 0 <= k < |r| && r[k] == l;
    }
  }

  /** A label alone in a judge's reply is read back as a one-entry ranking. */
  lemma LabelReadBack(i: nat)
    requires i < 26
    ensures Parse(LabelOf(i)) == [LabelOf(i)]
  {
    var l := LabelOf(i);
    assert |Marker| == 14;
    assert IndexOf(l, Marker).None?;
    assert l[..10] == l && IsLabel(l);
    assert FindLabels(l[10..]) == [];
  }

  /** Different answers get different labels. */
  lemma LabelOfInjective(i: nat, j: nat)
    requires i < MaxAnswers && j < MaxAnswers
    requires LabelOf(i) == LabelOf(j)
    ensures i == j
  {
    assert LabelOf(i)[9] == LabelOf(j)[9];
  }

  /** `label_to_model`: the label of the i-th answer maps to the i-th model. */
  function LabelMap(models: seq<string>): (m: map<string, string>)
    requires |models| <= MaxAnswers
    ensures forall i :: 0 <= i < |models| ==> LabelOf(i) in m && m[LabelOf(i)] == models[i]
    ensures forall l :: l in m ==> |l| == 10 && l[..9] == LabelPrefix && 65 <= l[9] as int < 65 + |models|
    ensures |m| == |models|
  {
    if |models| == 0 then map[]
    else
      var n := |models| - 1;
      var front := LabelMap(models[..n]);
      var m := front[LabelOf(n) := models[n]];
      assert forall i :: 0 <= i < n ==> models[..n][i] == models[i] && LabelOf(i)[9] != LabelOf(n)[9];
      m
  }

  /** The map is keyed by exactly the labels of the answers. */
  lemma LabelMapKeys(models: seq<string>, l: string)
    requires |models| <= MaxAnswers
    ensures l in LabelMap(models) <==> exists i :: 0 <= i < |models| && l == LabelOf(i)
  {
    if l in LabelMap(models) {
      LabelOfLetter(l);
    }
  }

  /** A string shaped like a label is the label of its letter. */
  lemma LabelOfLetter(l: string)
    requires |l| == 10 && l[..9] == LabelPrefix && 65 <= l[9] as int < 65 + MaxAnswers
    ensures l == LabelOf(l[9] as int - 65)
  {
    var i := l[9] as int - 65;
    assert l == l[..9] + [l[9]];
  }

  /** Only answers labelled `A`..`Z` can ever be ranked: when every ranked
      entry is a label, a model that receives a position is the model of
      one of the first 26 answers. */
  lemma RankedAreLettered(rankings: seq<seq<string>>, models: seq<string>, m: string)
    requires |models| <= MaxAnswers
    requires forall r, k :: 0 <= r < |rankings| && 0 <= k < |rankings[r]| ==> IsLabel(rankings[r][k])
    requires |AllPositions(rankings, LabelMap(models), m)| > 0
    ensures exists i :: 0 <= i < |models| && i < 26 && models[i] == m
  {
    var lm := LabelMap(models);
    PositionsNamed(rankings, lm, m);
    var r, k :| 0 <= r < |rankings| && 0 <= k < |rankings[r]| && rankings[r][k] in lm && lm[rankings[r][k]] == m;
    var l := rankings[r][k];
    LabelMapKeys(models, l);
    var i :| 0 <= i < |models| && l == LabelOf(i);
    LabelParseable(i);
  }
}
