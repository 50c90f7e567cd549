/** The query classifier: keyword patterns per category, a weighted score
    per category, the first best category, a confidence, and a table from
    category to recommended strategy. Regular-expression search is not
    modelled: `search(pattern, text)` stands for `re.search(pattern, text)`
    being truthy and is a parameter of every operation that needs it. */
module QueryClassifier {
  import opened Common
  import opened StableSort

  datatype Category = Technical | Reasoning | Analytical | Creative | Factual

  /** The categories in the declaration order of the pattern table. */
  const Categories: seq<Category> := [Technical, Reasoning, Analytical, Creative, Factual]

  function CategoryName(c: Category): string
  {
    match c
    case Technical => "technical"
    case Reasoning => "reasoning"
    case Analytical => "analytical"
    case Creative => "creative"
    case Factual => "factual"
  }

  /** Different categories have different names. */
  lemma CategoryNamesDistinct(c: Category, d: Category)
    ensures CategoryName(c) == CategoryName(d) <==> c == d
  {
  }

  /** A category's keyword patterns and the weight each match adds. */
  datatype Rule = Rule(patterns: seq<string>, weight: real)

  /** A pattern table. */
  type Table = Category -> Rule

  /** The table `self.patterns`. */
  function Rules(c: Category): Rule
  {
    match c
    case Technical => Rule([
      "\\bcode\\b", "\\bprogram(ming)?\\b", "\\bdebug\\b", "\\bfunction\\b",
      "\\bapi\\b", "\\balgorithm\\b", "\\bsyntax\\b", "\\berror\\b",
      "\\bbug\\b", "\\bframework\\b", "\\blibrary\\b", "\\bclass\\b",
      "\\bmethod\\b", "\\bvariable\\b", "\\bloop\\b", "\\barray\\b",
      "\\bpython\\b", "\\bjavascript\\b", "\\breact\\b", "\\bnode\\b",
      "\\bgit\\b", "\\bdocker\\b", "\\bsql\\b", "\\bdatabase\\b"], 1.0)
    case Reasoning => Rule([
      "\\bcalculate\\b", "\\bprove\\b", "\\bderive\\b", "\\bsolve\\b",
      "\\btheorem\\b", "\\bequation\\b", "\\bsteps?\\b", "\\blogic\\b",
      "\\bif.*then\\b", "\\bgiven.*find\\b", "\\bproof\\b",
      "\\bassume\\b", "\\bconclude\\b", "\\binfer\\b", "\\bdeduce\\b",
      "\\bmathematics\\b", "\\bcalculus\\b", "\\balgebra\\b",
      "\\bstrategy\\b", "\\bplan\\b", "\\bapproach\\b", "\\bmethod\\b",
      "why\\s+is\\b", "how\\s+does\\b", "explain.*process"], 1.2)
    case Analytical => Rule([
      "\\bcompare\\b", "\\bcontrast\\b", "\\banalyze\\b", "\\bevaluate\\b",
      "\\bassess\\b", "\\btradeoff\\b", "\\bpros\\s+and\\s+cons\\b",
      "\\bdifference\\b", "\\bsimilarity\\b", "\\bbetter\\b", "\\bworse\\b",
      "\\badvantage\\b", "\\bdisadvantage\\b", "\\bmetric\\b",
      "\\bperformance\\b", "\\bbenchmark\\b", "\\bstatistic\\b",
      "\\btrend\\b", "\\bpattern\\b", "\\bcorrelation\\b"], 1.0)
    case Creative => Rule([
      "\\bwrite\\b", "\\bstory\\b", "\\bpoem\\b", "\\bessay\\b",
      "\\bbrainstorm\\b", "\\bidea\\b", "\\bimaginative\\b", "\\bcreative\\b",
      "\\binvent\\b", "\\bdesign\\b", "\\bnovel\\b", "\\boriginal\\b",
      "\\bnarrative\\b", "\\bcharacter\\b", "\\bplot\\b", "\\bscenario\\b",
      "\\bslogan\\b", "\\bmarketing\\b", "\\bcampaign\\b",
      "\\bmetaphor\\b", "\\banalogy\\b"], 0.9)
    case Factual => Rule([
      "\\bwhat\\s+is\\b", "\\bwhen\\s+did\\b", "\\bwho\\s+is\\b",
      "\\bwhere\\s+is\\b", "\\bdefine\\b", "\\bdefinition\\b",
      "\\bexplain\\b", "\\bdescribe\\b", "\\blist\\b", "\\bname\\b",
      "\\bhistory\\b", "\\bfact\\b", "\\binformation\\b",
      "\\bcapital\\b", "\\bpopulation\\b", "\\bdate\\b",
      "\\bmean\\b", "\\brefer\\b", "\\bstand for\\b"], 0.8)
  }

  /** Every weight is positive. */
  predicate Positive(table: Table)
  {
    forall c :: table(c).weight > 0.0
  }

  lemma RulesPositive()
    ensures Positive(Rules)
  {
    forall c
      ensures Rules(c).weight > 0.0
    {
      match c
      case Technical =>
      case Reasoning =>
      case Analytical =>
      case Creative =>
      case Factual =>
    }
  }

  /** `re.search(pattern, text)` found a match. */
  type Search = (string, string) -> bool

  /** The classification `QueryCategory(category, confidence, indicators)`. */
  datatype Classification = Classification(category: Category, confidence: real, indicators: seq<string>)

  const ShortConfidence: real := 0.0
  const NoMatchConfidence: real := 0.3
  const Epsilon: real := 0.000001

  /* ---------------- Text preparation ---------------- */

  /** `s.lstrip()`. */
  function TrimStart(s: string): (r: string)
    ensures |r| <= |s| && r == s[|s| - |r|..]
    ensures forall i :: 0 <= i < |s| - |r| ==> IsSpace(s[i])
    ensures |r| > 0 ==> !IsSpace(r[0])
  {
    if |s| > 0 && IsSpace(s[0]) then TrimStart(s[1..]) else s
  }

  /** `s.rstrip()`. */
  function TrimEnd(s: string): (r: string)
    ensures |r| <= |s| && r == s[..|r|]
    ensures forall i :: |r| <= i < |s| ==> IsSpace(s[i])
    ensures |r| > 0 ==> !IsSpace(r[|r| - 1])
  {
    if |s| > 0 && IsSpace(s[|s| - 1]) then TrimEnd(s[..|s| - 1]) else s
  }

  /** `s.strip()`. */
  function Strip(s: string): string
  {
    TrimEnd(TrimStart(s))
  }

  /** The number of characters `lstrip` removes. */
  function Lead(s: string): nat
  {
    |s| - |TrimStart(s)|
  }

  /** `strip()` keeps the slice of `s` that starts after the leading whitespace. */
  lemma StripSlice(s: string)
    ensures Lead(s) + |Strip(s)| <= |s|
    ensures Strip(s) == s[Lead(s)..Lead(s) + |Strip(s)|]
  {
    var t := TrimStart(s);
    var i := |s| - |t|;
    assert t == s[i..];
    assert Strip(s) == t[..|Strip(s)|];
  }

  /** What `strip()` drops at the end is whitespace. */
  lemma StripTrailing(s: string)
    ensures forall k :: Lead(s) + |Strip(s)| <= k < |s| ==> IsSpace(s[k])
  {
    var t := TrimStart(s);
    var i := |s| - |t|;
    assert t == s[i..];
    forall k | i + |Strip(s)| <= k < |s|
      ensures IsSpace(s[k])
    {
      assert s[k] == t[k - i];
    }
  }

  /** Stripping removes whitespace only, and only at the two ends: the
      result is a slice of the input with no whitespace at either end. */
  lemma StripSpec(s: string)
    ensures Lead(s) + |Strip(s)| <= |s|
    ensures Strip(s) == s[Lead(s)..Lead(s) + |Strip(s)|]
    ensures forall k :: 0 <= k < Lead(s) ==> IsSpace(s[k])
    ensures forall k :: Lead(s) + |Strip(s)| <= k < |s| ==> IsSpace(s[k])
    ensures |Strip(s)| > 0 ==> !IsSpace(Strip(s)[0]) && !IsSpace(Strip(s)[|Strip(s)| - 1])
  {
    StripSlice(s);
    StripTrailing(s);
    var t := TrimStart(s);
    var r := TrimEnd(t);
    if |r| > 0 {
      assert r[0] == t[0];
    }
  }

  /** A query with only whitespace has nothing left after stripping. */
  lemma StripBlank(s: string)
    requires forall k :: 0 <= k < |s| ==> IsSpace(s[k])
    ensures Strip(s) == []
  {
    StripSpec(s);
  }

  function LowerChar(c: char): char
  {
    if 'A' <= c <= 'Z' then (c as int + 32) as char else c
  }

  /** `s.lower()` on ASCII letters. */
  function Lower(s: string): (r: string)
    ensures |r| == |s|
    ensures forall i :: 0 <= i < |s| ==> r[i] == LowerChar(s[i])
  {
    if |s| == 0 then [] else Lower(s[..|s| - 1]) + [LowerChar(s[|s| - 1])]
  }

  /* ---------------- Scoring ---------------- */

  /** The patterns that match, in pattern order (`category_matches`). */
  function Matched(patterns: seq<string>, text: string, search: Search): (r: seq<string>)
    ensures |r| <= |patterns|
  {
    if |patterns| == 0 then []
    else
      var n := |patterns| - 1;
      var front := Matched(patterns[..n], text, search);
      if search(patterns[n], text) then front + [patterns[n]] else front
  }

  /** A pattern is an indicator exactly when it is one of the patterns and it matches. */
  lemma {:induction false} MatchedSpec(patterns: seq<string>, text: string, search: Search, p: string)
    ensures p in Matched(patterns, text, search) <==> p in patterns && search(p, text)
  {
    if |patterns| > 0 {
      var n := |patterns| - 1;
      MatchedSpec(patterns[..n], text, search, p);
      assert patterns == patterns[..n] + [patterns[n]];
    }
  }

  /** The score loop: `score += weight` once for every pattern that matches. */
  function Score(patterns: seq<string>, weight: real, text: string, search: Search): real
  {
    if |patterns| == 0 then 0.0
    else
      var n := |patterns| - 1;
      Score(patterns[..n], weight, text, search) + (if search(patterns[n], text) then weight else 0.0)
  }

  /** A category's score is its weight times the number of its patterns that match. */
  lemma {:induction false} ScoreCounts(patterns: seq<string>, weight: real, text: string, search: Search)
    ensures Score(patterns, weight, text, search) == weight * (|Matched(patterns, text, search)| as real)
  {
    if |patterns| > 0 {
      ScoreCounts(patterns[..|patterns| - 1], weight, text, search);
    }
  }

  /** The score of one category under a table. */
  function ScoreOf(table: Table, c: Category, text: string, search: Search): real
  {
    Score(table(c).patterns, table(c).weight, text, search)
  }

  /** The scores of the categories, in declaration order. */
  function Scores(table: Table, text: string, search: Search): (r: seq<real>)
    ensures |r| == |Categories|
    ensures forall i :: 0 <= i < |Categories| ==> r[i] == ScoreOf(table, Categories[i], text, search)
  {
    MapSeq(Categories, (c: Category) => ScoreOf(table, c, text, search))
  }

  /** With a positive weight a score is never negative, and it is positive
      exactly when one of the patterns matches. */
  lemma {:induction false} ScoreSign(patterns: seq<string>, weight: real, text: string, search: Search)
    requires weight > 0.0
    ensures Score(patterns, weight, text, search) >= 0.0
    ensures Score(patterns, weight, text, search) > 0.0 <==> exists p :: p in patterns && search(p, text)
  {
    if |patterns| > 0 {
      var n := |patterns| - 1;
      ScoreSign(patterns[..n], weight, text, search);
      assert patterns == patterns[..n] + [patterns[n]];
      if exists p :: p in patterns && search(p, text) {
        var p :| p in patterns && search(p, text);
        if p != patterns[n] {
          assert p in patterns[..n];
        }
      }
    }
  }

  /** Under a positive table every score is non-negative. */
  lemma ScoresNonNegative(table: Table, text: string, search: Search)
    requires Positive(table)
    ensures forall i :: 0 <= i < |Categories| ==> Scores(table, text, search)[i] >= 0.0
  {
    forall c: Category
      ensures ScoreOf(table, c, text, search) >= 0.0
    {
      ScoreSign(table(c).patterns, table(c).weight, text, search);
    }
  }

  /** `max(scores, key=scores.get)`: scanning from `i` with the best index so far. */
  function BestFrom(scores: seq<real>, i: nat, best: nat): (r: nat)
    requires best < |scores| && best < i
    ensures r < |scores|
    decreases |scores| - i
  {
    if i >= |scores| then best
    else BestFrom(scores, i + 1, if scores[i] > scores[best] then i else best)
  }

  /** The first index of a maximal score. */
  function Best(scores: seq<real>): nat
    requires |scores| > 0
  {
    BestFrom(scores, 1, 0)
  }

  /** The scan keeps the first maximum: no later score is larger, and every
      earlier score is smaller. */
  lemma {:induction false} BestFromSpec(scores: seq<real>, i: nat, best: nat)
    requires best < |scores| && best < i <= |scores|
    requires forall j :: 0 <= j < i ==> scores[j] <= scores[best]
    requires forall j :: 0 <= j < best ==> scores[j] < scores[best]
    ensures forall j :: 0 <= j < |scores| ==> scores[j] <= scores[BestFrom(scores, i, best)]
    ensures forall j :: 0 <= j < BestFrom(scores, i, best) ==> scores[j] < scores[BestFrom(scores, i, best)]
    decreases |scores| - i
  {
    if i < |scores| {
      BestFromSpec(scores, i + 1, if scores[i] > scores[best] then i else best);
    }
  }

  /** The best category is the first with a maximal score. */
  lemma BestSpec(scores: seq<real>)
    requires |scores| > 0
    ensures forall j :: 0 <= j < |scores| ==> scores[j] <= scores[Best(scores)]
    ensures forall j :: 0 <= j < Best(scores) ==> scores[j] < scores[Best(scores)]
  {
    BestFromSpec(scores, 1, 0);
  }

  function RealMin(a: real, b: real): real
  {
    if a <= b then a else b
  }

  /** The query is empty or has fewer than three characters once stripped. */
  predicate TooShort(query: string)
  {
    |query| == 0 || |Strip(query)| < 3
  }

  /** `min(best / (total + 1e-6), 1.0)`. */
  function Confidence(best: real, total: real): real
    requires total >= 0.0
  {
    RealMin(best / (total + Epsilon), 1.0)
  }

  /** A positive share of the total is a confidence strictly between 0 and 1:
      the cap at 1.0 is never reached. */
  lemma ConfidenceBelowOne(best: real, total: real)
    requires 0.0 < best <= total
    ensures 0.0 < Confidence(best, total) < 1.0
  {
  }

  /** The part of `classify` after lowering: score every category and pick
      the first best one, or "factual" with confidence 0.3 when every score is 0. */
  function Judge(table: Table, text: string, search: Search): Classification
    requires Positive(table)
  {
    var scores := Scores(table, text, search);
    var b := Best(scores);
    if scores[b] == 0.0 then Classification(Factual, NoMatchConfidence, [])
    else
      ScoresNonNegative(table, text, search);
      SumNonNegative(scores, 0);
      Classification(Categories[b], Confidence(scores[b], SumReal(scores)),
                     Matched(table(Categories[b]).patterns, text, search))
  }

  /** `classify` with a given pattern table. */
  function ClassifyWith(table: Table, query: string, search: Search): (r: Classification)
    requires Positive(table)
    ensures TooShort(query) ==> r == Classification(Factual, ShortConfidence, [])
  {
    if TooShort(query) then Classification(Factual, ShortConfidence, [])
    else Judge(table, Lower(query), search)
  }

  /** `classify`. */
  function Classify(query: string, search: Search): (r: Classification)
    ensures TooShort(query) ==> r == Classification(Factual, ShortConfidence, [])
  {
    RulesPositive();
    ClassifyWith(Rules, query, search)
  }

  /** Non-negative scores add up to at least any one of them. */
  lemma {:induction false} SumNonNegative(scores: seq<real>, b: nat)
    requires b < |scores|
    requires forall j :: 0 <= j < |scores| ==> scores[j] >= 0.0
    ensures SumReal(scores) >= scores[b] >= 0.0
  {
    var n := |scores| - 1;
    if b < n {
      SumNonNegative(scores[..n], b);
    } else if n > 0 {
      SumNonNegative(scores[..n], 0);
    }
  }

  /** A category has a positive score exactly when one of its patterns matches. */
  lemma ScorePositive(table: Table, text: string, search: Search, i: nat)
    requires Positive(table) && i < |Categories|
    ensures Scores(table, text, search)[i] > 0.0 <==> exists p :: p in table(Categories[i]).patterns && search(p, text)
  {
    var c := Categories[i];
    ScoreSign(table(c).patterns, table(c).weight, text, search);
  }

  /** No pattern of any category matches the text. */
  ghost predicate Unmatched(table: Table, text: string, search: Search)
  {
    forall c, p :: c in Categories && p in table(c).patterns ==> !search(p, text)
  }

  /** No pattern matches the lowered query. */
  ghost predicate NoMatch(query: string, search: Search)
  {
    Unmatched(Rules, Lower(query), search)
  }

  /** The best score is positive exactly when some pattern matches. */
  lemma BestPositive(table: Table, text: string, search: Search)
    requires Positive(table)
    ensures Scores(table, text, search)[Best(Scores(table, text, search))] > 0.0 <==> !Unmatched(table, text, search)
  {
    var scores := Scores(table, text, search);
    var b := Best(scores);
    BestSpec(scores);
    ScorePositive(table, text, search, b);
    if !Unmatched(table, text, search) {
      var c, p :| c in Categories && p in table(c).patterns && search(p, text);
      var i :| 0 <= i < |Categories| && Categories[i] == c;
      ScorePositive(table, text, search, i);
    }
  }

  /** When nothing matches, the answer is "factual" with confidence 0.3 and no
      indicators; when something matches, it is not. */
  lemma JudgeNoMatch(table: Table, text: string, search: Search)
    requires Positive(table)
    ensures Unmatched(table, text, search) <==> Judge(table, text, search) == Classification(Factual, NoMatchConfidence, [])
  {
    var scores := Scores(table, text, search);
    var b := Best(scores);
    BestPositive(table, text, search);
    ScoresNonNegative(table, text, search);
    if !Unmatched(table, text, search) {
      ScorePositive(table, text, search, b);
      var q :| q in table(Categories[b]).patterns && search(q, text);
      MatchedSpec(table(Categories[b]).patterns, text, search, q);
      assert Judge(table, text, search).indicators != [];
    }
  }

  lemma ClassifyNoMatch(query: string, search: Search)
    requires !TooShort(query)
    ensures NoMatch(query, search) <==> Classify(query, search) == Classification(Factual, NoMatchConfidence, [])
  {
    RulesPositive();
    JudgeNoMatch(Rules, Lower(query), search);
  }

  /** The category is the first with the highest score, the indicators are
      its matched patterns, and the confidence lies strictly between 0 and 1. */
  ghost predicate Classified(table: Table, text: string, search: Search, r: Classification)
  {
    exists b :: 0 <= b < |Categories| && ClassifiedAs(table, text, search, r, b)
  }

  /** `Classified`, with the chosen category's index `b`. */
  ghost predicate ClassifiedAs(table: Table, text: string, search: Search, r: Classification, b: nat)
    requires b < |Categories|
  {
    var scores := Scores(table, text, search);
    r.category == Categories[b] &&
    (forall j :: 0 <= j < |Categories| ==> scores[j] <= scores[b]) &&
    (forall j :: 0 <= j < b ==> scores[j] < scores[b]) &&
    (forall p :: p in r.indicators <==> p in table(Categories[b]).patterns && search(p, text)) &&
    0.0 < r.confidence < 1.0
  }

  /** The matching branch picks the best category, its matched patterns,
      and a confidence strictly between 0 and 1. */
  lemma JudgeShape(table: Table, text: string, search: Search)
    requires Positive(table)
    requires !Unmatched(table, text, search)
    ensures var b := Best(Scores(table, text, search));
      var r := Judge(table, text, search);
      r.category == Categories[b] && r.indicators == Matched(table(Categories[b]).patterns, text, search) &&
      0.0 < r.confidence < 1.0
  {
    var scores := Scores(table, text, search);
    var b := Best(scores);
    BestPositive(table, text, search);
    ScoresNonNegative(table, text, search);
    SumNonNegative(scores, b);
    ConfidenceBelowOne(scores[b], SumReal(scores));
  }

  /** When something matches, the category is the first with the highest
      score, the indicators are that category's matched patterns, and the
      confidence lies strictly between 0 and 1. */
  lemma JudgeMatch(table: Table, text: string, search: Search)
    requires Positive(table)
    requires !Unmatched(table, text, search)
    ensures Classified(table, text, search, Judge(table, text, search))
  {
    var scores := Scores(table, text, search);
    var r := Judge(table, text, search);
    var b := Best(scores);
    JudgeShape(table, text, search);
    BestSpec(scores);
    forall q
      ensures q in r.indicators <==> q in table(Categories[b]).patterns && search(q, text)
    {
      MatchedSpec(table(Categories[b]).patterns, text, search, q);
    }
    assert ClassifiedAs(table, text, search, r, b);
  }

  lemma ClassifyMatch(query: string, search: Search)
    requires !TooShort(query)
    requires !NoMatch(query, search)
    ensures Classified(Rules, Lower(query), search, Classify(query, search))
  {
    RulesPositive();
    JudgeMatch(Rules, Lower(query), search);
  }

  /** Every confidence `classify` gives lies in [0, 1). */
  lemma ConfidenceRange(query: string, search: Search)
    ensures 0.0 <= Classify(query, search).confidence < 1.0
  {
    if !TooShort(query) {
      ClassifyNoMatch(query, search);
      if !NoMatch(query, search) {
        ClassifyMatch(query, search);
      }
    }
  }

  /* ---------------- Recommendation ---------------- */

  /** The strategy column of the `recommendations` table. */
  function StrategyOf(c: Category): string
  {
    match c
    case Reasoning => "reasoning_aware"
    case Technical => "multi_round"
    case Analytical => "weighted_voting"
    case Creative => "simple"
    case Factual => "simple"
  }

  /** The explanation column of the `recommendations` table. */
  function ExplanationOf(c: Category): string
  {
    match c
    case Reasoning => "This query requires logical reasoning. The Reasoning-Aware strategy is optimized for complex multi-step problems."
    case Technical => "Technical queries benefit from iterative refinement. Multi-Round allows models to improve their solutions."
    case Analytical => "Analytical questions benefit from expert opinions. Weighted Voting gives more influence to high-performing models."
    case Creative => "Creative queries benefit from diverse perspectives. Simple Ranking captures varied creative approaches."
    case Factual => "Factual queries have clear correct answers. Simple Ranking is efficient for straightforward questions."
  }

  /** The result of `get_recommended_strategy`. */
  datatype Suggestion = Suggestion(strategy: string, explanation: string, queryCategory: string, confidence: real, indicators: seq<string>)

  /** `get_recommended_strategy`: the table entry of the classified category,
      with the classification itself. */
  function RecommendedStrategy(query: string, search: Search): Suggestion
  {
    SuggestionFor(Classify(query, search))
  }

  /** The suggestion for a classification: its category's table entry and the classification itself. */
  function SuggestionFor(c: Classification): Suggestion
  {
    Suggestion(StrategyOf(c.category), ExplanationOf(c.category), CategoryName(c.category), c.confidence, c.indicators)
  }

  /** A factual classification is sent to the simple strategy. */
  lemma FactualSuggestion(c: Classification)
    requires c.category == Factual
    ensures SuggestionFor(c).strategy == "simple" && SuggestionFor(c).queryCategory == "factual"
  {
    assert StrategyOf(Factual) == "simple";
  }

  /** A query too short to classify, or one matching no pattern, is sent to
      the simple strategy as a factual query. */
  lemma FallbackIsSimple(query: string, search: Search)
    requires TooShort(query) || NoMatch(query, search)
    ensures RecommendedStrategy(query, search).strategy == "simple"
    ensures RecommendedStrategy(query, search).queryCategory == "factual"
  {
    var c := Classify(query, search);
    if !TooShort(query) {
      ClassifyNoMatch(query, search);
    }
    assert c.category == Factual;
    FactualSuggestion(c);
  }
}
