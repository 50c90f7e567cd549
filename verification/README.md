# LLM Council — a Dafny model of the deliberation core

LLM Council sends a user's question to several language models ("the
council"). In stage 1 each model answers. In stage 2 each model ranks the
anonymised answers ("Response A", "Response B", …). In stage 3 a chairman model
writes the final answer. Four ensemble strategies share this shape:

- **simple ranking**: one round and an unweighted mean of positions;
- **weighted voting**: a judge's vote is weighted by that judge's historical win rate;
- **multi-round**: several rounds of revision, with evolution metrics between rounds;
- **reasoning-aware**: a separate ranking of reasoning traces.

Around the strategies sit four more pieces:

- a conversation store;
- an analytics fold over the stored history;
- a keyword query classifier;
- a recommender that blends category preferences with user feedback.

This project models the deterministic post-processing of that system as pure
Dafny functions over immutable datatypes, and proves properties about it:

- parsing a judge's free-text ranking;
- the label map;
- the plain and weighted aggregators;
- the strategy pipelines, where each phase's network replies are inputs;
- the store's operations over an in-memory map;
- the analytics fold, the leaderboard and the best-strategy choice;
- classification, recommendation and the strategy registry.

Python's `dict` keeps insertion order, and several results depend on it.
Such dicts are modelled as association lists, which are sequences of pairs.
Python's stable `list.sort` (including `reverse=True`) is a stable insertion
sort, `StableSort.SortBy`, over a total preorder.

Modules, one per component:

| module | file | models |
|---|---|---|
| Common | common.dfy | Option/Result, sums and means, Python slices, dict lookup |
| StableSort | stable_sort.dfy | stable sort, sortedness, tie order, permutation |
| Grouping | grouping.dfy | `defaultdict` grouping and folds in first-key order |
| RankingParser | ranking_parser.dfy | `_parse_ranking_from_text` |
| Anonymizer | anonymizer.dfy | the `Response X` label map |
| Aggregation | aggregation.dfy | plain and weighted aggregate rankings |
| Stages | stages.dfy | stage 1 / 2 / 3 records and filtering |
| SimpleRanking, WeightedVoting, MultiRound, ReasoningAware | *.dfy | the four strategies |
| Storage | storage.dfy | the conversation store |
| Analytics | analytics.dfy | `AnalyticsEngine` |
| QueryClassifier | query_classifier.dfy | `QueryClassifier` |
| Recommender | recommender.dfy | `StrategyRecommender` |
| Registry | registry.dfy | the strategy registry |

Behaviour of the code worth noting:

- Weighted voting gives a model with fewer than three evaluations the weight 0.5 whenever an analytics engine is present. Weight 1.0 applies only when there is no engine (backend/strategies/weighted_voting.py:118-140).
- The aggregate is sorted on the average alone, and Python's sort is stable, so ties keep first-appearance order. There is no vote-count tie-break (backend/strategies/simple_ranking.py:329).
- Only models with at least one position get an aggregate entry. A model that no judge ranked is left out, not given the worst rank (backend/strategies/simple_ranking.py:318-326).
- Reasoning-aware stores its 0.4/0.6 weights, but each combined ranking carries the reasoning ranking as its parsed ranking, and that is what is aggregated (backend/strategies/reasoning_aware.py:271 and 355).
- When no pattern matches, the classifier returns `factual` with confidence 0.3 and no indicators. There is no `general` category (backend/query_classifier.py:126-132).

## Model

| member | source | states |
|---|---|---|
| RankingParser.Parse | backend/strategies/simple_ranking.py:257-286 | The parser is total. Every returned item is `Response ` followed by one ASCII capital letter. |
| RankingParser.ParseWithoutMarker | backend/strategies/simple_ranking.py:284-286 | Without `FINAL RANKING:` the result is the label scan of the whole text. The empty text gives []. |
| RankingParser.FindLabelsEmpty | backend/strategies/simple_ranking.py:285 | The label scan is empty exactly when no position of the text starts a label. |
| RankingParser.FindLabelsLeftmost | backend/strategies/simple_ranking.py:285 | The scan takes the leftmost label, then resumes after its ten characters. Matches never overlap. |
| RankingParser.FindLabelsNoOverlap | backend/strategies/simple_ranking.py:285 | `"Response Response A"` yields only `"Response R"`. |
| RankingParser.EntryAt0Sound | backend/strategies/simple_ranking.py:275 | A recognised numbered entry is digits, a dot, optional whitespace and a label. |
| RankingParser.EntryAt0Complete | backend/strategies/simple_ranking.py:275 | Every such digits-dot-spaces-label text is recognised, with exactly that length. |
| RankingParser.ParseBetweenMarkers | backend/strategies/simple_ranking.py:268-272 | With two or more markers, only the text between the first and the second marker is parsed. |
| RankingParser.ParseAfterMarker | backend/strategies/simple_ranking.py:268-272 | With exactly one marker, only the text after it is parsed. |
| RankingParser.NumberedPreferred | backend/strategies/simple_ranking.py:275-278 | When the section holds a numbered entry, the result is the labels of the numbered entries, in order. |
| RankingParser.NoFallbackWithMarker | backend/strategies/simple_ranking.py:280-282 | When the section after the marker holds no label, the result is []. The whole text is not scanned again. |
| RankingParser.ParseRender | backend/strategies/simple_ranking.py:257-286 | Round trip: a preamble without the marker, followed by the rendered `FINAL RANKING:` list of labels, parses back to those labels. |
| Anonymizer.LabelOf | backend/strategies/simple_ranking.py:129-133 | Label i is `Response ` followed by chr(65+i). |
| Anonymizer.LabelOfInjective | backend/strategies/simple_ranking.py:129-135 | Distinct indices give distinct labels. |
| Anonymizer.LabelMap | backend/strategies/simple_ranking.py:132-135 | Label i maps to the i-th stage-1 model. The map has exactly one key per answer. Every key is a label of an index in range. |
| Anonymizer.LabelMapKeys | backend/strategies/simple_ranking.py:132-135 | A text is a key exactly when it is the label of some answer index. |
| Anonymizer.LabelParseable | backend/strategies/simple_ranking.py:129-135 | A label can be produced by the parser exactly when its index is below 26. |
| Anonymizer.LabelReadBack | backend/strategies/simple_ranking.py:129-135 | Parsing a label of index below 26 gives back that label. |
| Anonymizer.RankedAreLettered | backend/strategies/simple_ranking.py:312-315 | A model with a position is one of the first 26 stage-1 models. |
| Aggregation.AggregatePermutes | backend/strategies/simple_ranking.py:318-329 | The aggregate is a rearrangement of the per-model entries. |
| Aggregation.AggregateValues | backend/strategies/simple_ranking.py:306-326 | An entry's average is the mean of its model's 1-based positions over all rankings. Its count is the number of those positions. |
| Aggregation.AggregateComplete | backend/strategies/simple_ranking.py:312-326 | Every model with at least one position has an entry. |
| Aggregation.AggregateDistinct | backend/strategies/simple_ranking.py:319 | No model appears twice. |
| Aggregation.AggregateSorted | backend/strategies/simple_ranking.py:329 | The aggregate is non-decreasing in average rank. |
| Aggregation.AggregateStable | backend/strategies/simple_ranking.py:318-329 | Equal averages keep the order of each model's first position. |
| Aggregation.AggregateBounds | backend/strategies/simple_ranking.py:321 | Every average lies between 1 and the length of the longest parsed ranking. |
| Aggregation.WeightedValues | backend/strategies/weighted_voting.py:306-333 | Each entry has a positive total weight. Its average is Σ(position·weight)/Σweight. Its count is the number of ballots naming the model. |
| Aggregation.WeightedMembership | backend/strategies/weighted_voting.py:316-333 | A model has an entry exactly when its total weight is positive. |
| Aggregation.WeightedDistinct | backend/strategies/weighted_voting.py:316 | No model appears twice. |
| Aggregation.WeightedSorted | backend/strategies/weighted_voting.py:340 | The weighted aggregate is non-decreasing in weighted average. |
| Aggregation.WeightedStable | backend/strategies/weighted_voting.py:316-340 | Equal averages keep first-vote order. |
| Aggregation.WeightedBounds | backend/strategies/weighted_voting.py:316-333 | With non-negative weights, every weighted average lies between the least and the greatest position its model received, and so between 1 and the longest ranking's length. |
| Aggregation.WeightedOwnBounds | backend/strategies/weighted_voting.py:316-333 | A model with positive total weight received at least one position, and its weighted average lies between its least and greatest position. |
| Aggregation.WeightNeedsPosition | backend/strategies/weighted_voting.py:316-322 | A model whose total weight is non-zero was positioned by some judge. |
| Aggregation.WeightedPermutation | backend/strategies/weighted_voting.py:306-333 | Reordering the ballots does not change the set of entries. |
| Aggregation.EqualWeightsAgree | backend/strategies/weighted_voting.py:320-329 | When every judge has the same positive weight, the weighted aggregate lists the same models, averages and order as the unweighted one. |
| Stages.Collect | backend/strategies/simple_ranking.py:101-107 | Stage 1 keeps one answer per successful reply, and only those. |
| Stages.CollectMembers | backend/strategies/simple_ranking.py:101-107 | An answer is kept exactly when its model replied with that text. |
| Stages.CollectEmpty | backend/strategies/simple_ranking.py:37 | Stage 1 is empty exactly when every model failed. |
| Stages.Evaluate | backend/strategies/simple_ranking.py:179-191 | Stage 2 holds one evaluation per successful judge, with the parsed ranking of its text. |
| Stages.EvaluateMembers | backend/strategies/simple_ranking.py:179-191 | An evaluation is present exactly when its judge replied with that text, and its parsed field is the parse of that text. |
| Stages.Synthesize | backend/strategies/simple_ranking.py:243-255 | The chairman's answer is the reply when there is one, otherwise the fixed failure text. |
| SimpleRanking.Execute | backend/strategies/simple_ranking.py:25-78 | With no stage-1 answers the result is the `error` record with empty stages and no metadata. Otherwise it holds the stage results, the label map and the aggregate, under strategy `simple`. |
| SimpleRanking.ExecuteAggregate | backend/strategies/simple_ranking.py:53-56 | Every aggregate entry names a stage-1 model. |
| SimpleRanking.TextRankingsParsed | backend/strategies/simple_ranking.py:306-310 | Re-parsing the judges' texts gives the parsed rankings stored in stage 2. |
| WeightedVoting.Configure | backend/strategies/weighted_voting.py:19-24 | Config defaults: min_weight 0.1 and use_win_rate true. An explicit False switches win rates off. |
| WeightedVoting.EmptyConfigIsDefault | backend/strategies/weighted_voting.py:22-24 | A configuration without the keys, such as an empty one, gives the same settings as no configuration. |
| WeightedVoting.WeightFor | backend/strategies/weighted_voting.py:122-140 | A model with fewer than 3 evaluations weighs 0.5. Otherwise the weight is max(win_rate, min) or max(1/avg_rank, min). A missing or zero average rank is an error. |
| WeightedVoting.ModelWeights | backend/strategies/weighted_voting.py:106-120 | Without an engine, every model weighs 1.0. With one, the weights come from the history. |
| WeightedVoting.WeightsFromFails | backend/strategies/weighted_voting.py:122-140 | Building the weight map fails exactly when some model's weight fails. |
| WeightedVoting.WeightsSpec | backend/strategies/weighted_voting.py:106-142 | The weight map's keys are exactly the council models, each with its own weight. |
| WeightedVoting.WeightsFloor | backend/strategies/weighted_voting.py:118-140 | Every weight is the equal weight 1.0, the 0.5 cold-start weight, or at least min_weight. |
| WeightedVoting.Execute | backend/strategies/weighted_voting.py:48-104 | Empty stage 1 gives the error record. Otherwise the result fails exactly when the weights fail, and the aggregate is the weighted aggregate of the judges' ballots. |
| WeightedVoting.ExecuteBounds | backend/strategies/weighted_voting.py:306-333 | With a non-negative floor, every weighted average lies between its model's least and greatest position, and between 1 and the longest ranking's length. |
| WeightedVoting.EqualWeightsAreSimple | backend/strategies/weighted_voting.py:118-140 | Without history, or with no experienced model, the weighted strategy ranks exactly like the simple one. |
| MultiRound.Configure | backend/strategies/multi_round.py:19-22 | Missing config gives 2 rounds and top-2. Each given value overrides its default. |
| MultiRound.EmptyConfigIsDefault | backend/strategies/multi_round.py:21-22 | A configuration without the keys, such as an empty one, gives the same settings as no configuration. |
| MultiRound.NameShowsRounds | backend/strategies/multi_round.py:24-25 | Two settings have the same display name exactly when their round counts agree. |
| MultiRound.Critique | backend/strategies/multi_round.py:220-234 | The critique is the first 200 characters of the first ranking text, or the fixed default when there is no ranking. The target model is ignored. |
| MultiRound.FindAnswer | backend/strategies/multi_round.py:200-203 | Finds the first answer of the model, or nothing exactly when the model did not answer. |
| MultiRound.TopResponsesSpec | backend/strategies/multi_round.py:186-218 | The top responses are drawn from the first n aggregate entries, in aggregate order. Each carries its model's first response and the average rank of its first aggregate entry. Every top-n model that answered is included. |
| MultiRound.TopResponsesAtMost | backend/strategies/multi_round.py:195 | There are at most n top responses. |
| MultiRound.RunRound | backend/strategies/multi_round.py:94-184 | A round carries its number. It shows the previous round's top responses exactly when there is a previous round. It holds its collected answers and judgements, the label map of its answers, and the aggregate of the judges' parsed rankings. |
| MultiRound.RunRoundsSpec | backend/strategies/multi_round.py:58-68 | Round i is computed from the calls of round i and from round i-1. |
| MultiRound.RoundNumbers | backend/strategies/multi_round.py:58-68 | Rounds are numbered 1, 2, … consecutively. |
| MultiRound.LastRank | backend/strategies/multi_round.py:431-432 | The `{model: rank}` dict gives a model the rank of its last entry, and has no entry exactly when the model is absent. |
| MultiRound.ChangesSpec | backend/strategies/multi_round.py:434-447 | A change is recorded for a model exactly when it is in both aggregates and its rank moved by more than 0.1. The change is prev − curr, and improved means change > 0. |
| MultiRound.ChangesReverse | backend/strategies/multi_round.py:439-445 | Swapping the two rounds negates every change and flips `improved`. |
| MultiRound.NoChangeWithin | backend/strategies/multi_round.py:439-441 | A round compared with itself records no change. |
| MultiRound.RankChanges | backend/strategies/multi_round.py:426-449 | There is one change list per pair of consecutive rounds. |
| MultiRound.AnyChange | backend/strategies/multi_round.py:452 | Detection is true exactly when some change list is non-empty. |
| MultiRound.EvolutionOf | backend/strategies/multi_round.py:415-453 | Fewer than 2 rounds gives rounds 1 with no detection. Otherwise it reports the round count and the change lists. |
| MultiRound.EvolutionDetected | backend/strategies/multi_round.py:426-452 | Evolution is detected exactly when some model moved by more than 0.1 between two consecutive rounds. |
| MultiRound.SteadyRounds | backend/strategies/multi_round.py:426-452 | Identical aggregates in every round mean no evolution. |
| MultiRound.Execute | backend/strategies/multi_round.py:48-92 | A non-positive round count is an error, because `all_rounds[-1]` is then read from an empty list. Otherwise stage 1 holds one record per round. |
| MultiRound.ExecuteSpec | backend/strategies/multi_round.py:70-92 | Stage 2, the label map and the aggregate come from the last round. The evolution metrics cover all rounds. |
| MultiRound.ExecuteRounds | backend/strategies/multi_round.py:58-87 | The evolution reports the configured round count, and rounds are numbered 1..rounds. |
| MultiRound.ExecuteShowsTop | backend/strategies/multi_round.py:131-160 | Every revision round shows at most show_top_n of the previous round's responses. |
| ReasoningAware.Configure | backend/strategies/reasoning_aware.py:19-22 | Missing config gives reasoning weight 0.4 and answer weight 0.6. Each given value overrides its default. |
| ReasoningAware.EmptyConfigIsDefault | backend/strategies/reasoning_aware.py:21-22 | A configuration without the keys, such as an empty one, gives the same settings as no configuration. |
| ReasoningAware.ResultOf | backend/strategies/reasoning_aware.py:134-139 | `has_reasoning` mirrors the truthiness of the reasoning details, and the reasoning is kept only then. |
| ReasoningAware.CollectReasonedAnswers | backend/strategies/reasoning_aware.py:115-143 | Without the reasoning fields, collection is the plain stage-1 filter. |
| ReasoningAware.CollectReasonedSpec | backend/strategies/reasoning_aware.py:130-141 | Every collected result comes from a successful reply. |
| ReasoningAware.CollectedResult | backend/strategies/reasoning_aware.py:130-141 | Every successful reply is collected. |
| ReasoningAware.AnyReasoning | backend/strategies/reasoning_aware.py:60 | The strategy has reasoning exactly when some result has a truthy trace. |
| ReasoningAware.HasReasoningSpec | backend/strategies/reasoning_aware.py:48-60 | It has reasoning exactly when some successful reply carries truthy reasoning details. |
| ReasoningAware.SameLabels | backend/strategies/reasoning_aware.py:145-250 | The reasoning and answer label maps are identical, and label i names result i. |
| ReasoningAware.CombinedText | backend/strategies/reasoning_aware.py:268-270 | The combined text is `REASONING EVALUATION:` and a newline, the reasoning text, a blank line, `ANSWER EVALUATION:` and a newline, then the answer text; each part sits at its stated offsets. |
| ReasoningAware.Combine | backend/strategies/reasoning_aware.py:262-276 | The combined list is as long as the shorter input. |
| ReasoningAware.CombineSpec | backend/strategies/reasoning_aware.py:262-276 | Entry i takes model and parsed ranking from reasoning[i] and the answer ranking from answers[i]. No weight is read. |
| ReasoningAware.CombinedParsed | backend/strategies/reasoning_aware.py:271 | The combined parsed rankings are the first min(len) reasoning rankings. |
| ReasoningAware.Execute | backend/strategies/reasoning_aware.py:48-113 | Without reasoning, stage 2 is the answer rankings and there are no reasoning rankings. With reasoning, stage 2 is the combination of the two. The aggregate is unweighted. |
| ReasoningAware.ReasonedAggregate | backend/strategies/reasoning_aware.py:346-372 | With reasoning, the aggregate is the plain aggregate of the first min(len) reasoning rankings. |
| ReasoningAware.FallbackIsSimple | backend/strategies/reasoning_aware.py:79-84 | Without reasoning, the aggregate is that of the answer rankings, as in simple ranking. |
| ReasoningAware.WeightsUnused | backend/strategies/reasoning_aware.py:252-276 | Changing the weights changes nothing but the reported weights. |
| Storage.Create | backend/storage.py:21-46 | A new conversation starts empty with the default title. No other conversation changes. |
| Storage.Get | backend/storage.py:48-65 | A conversation is found exactly when it is stored. |
| Storage.AddUserMessage | backend/storage.py:110-127 | A missing conversation is an error. Otherwise exactly one user message is appended, and nothing else changes. |
| Storage.AddAssistantMessage | backend/storage.py:130-166 | Exactly one assistant message is appended, with no feedback. Metadata is present only when non-empty. Earlier messages and other conversations are unchanged. |
| Storage.UpdateTitle | backend/storage.py:169-183 | Only the title of the named conversation changes. A missing conversation is an error. |
| Storage.UpdateFeedback | backend/storage.py:185-215 | Feedback outside {−1,0,1} is rejected first. Then come a missing conversation, a bad index and a non-assistant target. On success, only the target's feedback and timestamp change. |
| Storage.FeedbackStaysValid | backend/storage.py:110-215 | Every store operation keeps all stored feedback within {−1,0,1}. |
| Storage.ListingSpec | backend/storage.py:81-107 | The listing holds one entry per conversation, with its message count. It is sorted newest first, and equal timestamps keep directory order. |
| Analytics.TotalQueries | backend/analytics.py:72-76 | total_queries is the number of assistant messages. |
| Analytics.StrategyStatsSpec | backend/analytics.py:76-120 | There is one entry per strategy in first-use order. Each holds the count of its queries, and the mean of their non-null feedback or None. |
| Analytics.StrategyKeys | backend/analytics.py:78-81 | A strategy has an entry exactly when some query used it. A missing strategy counts as `unknown`. |
| Analytics.StrategyCountsSum | backend/analytics.py:76-81 | The per-strategy counts sum to total_queries. |
| Analytics.ModelStatsSpec | backend/analytics.py:90-146 | There is one entry per placed model. Each holds that model's evaluations, wins, top-3 count, positions and per-strategy split. |
| Analytics.ModelBounds | backend/analytics.py:98-133 | wins ≤ top_3 ≤ total_evaluations, and win_rate lies in [0,1]. |
| Analytics.ModelStatsBounds | backend/analytics.py:92-146 | For every model, the positions are as many as its evaluations. Its per-strategy evaluations and wins sum to its totals. Its rates are in [0,1]. |
| Analytics.FeedbackBounds | backend/analytics.py:115-120 | When feedback values lie in {−1,0,1}, every avg_feedback lies in [−1,1]. |
| Analytics.QueriesFeedback | backend/analytics.py:84-87 | The feedback read from a valid history lies in {−1,0,1}. |
| Analytics.ListedFeedbackValid | backend/analytics.py:66-69 | Conversations read from a valid store carry valid feedback. |
| Analytics.ModelPerformance | backend/analytics.py:195-206 | A model's statistics exist exactly when it was placed, and are the statistics of its placements. |
| Analytics.StrategyPerformance | backend/analytics.py:208-219 | A strategy's statistics exist exactly when some query used it, and are the statistics of those queries. |
| Analytics.Leaderboard | backend/analytics.py:221-251 | The leaderboard is a prefix of the standings, of length min(limit, number of models). |
| Analytics.LeaderboardSpec | backend/analytics.py:235-251 | The standings rearrange the model rows, sorted by (win_rate, evaluations) descending and stably. No omitted row outranks a shown one. |
| Analytics.LeaderRates | backend/analytics.py:235-251 | Every leaderboard win rate and top-3 rate lies in [0,1]. |
| Analytics.BestStrategySpec | backend/analytics.py:253-276 | With no feedback at all the best strategy is `simple`. Otherwise it is the first strategy with the strictly highest average feedback. |
| QueryClassifier.CategoryNamesDistinct | backend/query_classifier.py:9-14 | The five category names are pairwise distinct. |
| QueryClassifier.StripSpec | backend/query_classifier.py:101 | `strip()` removes exactly the leading and trailing whitespace. |
| QueryClassifier.Lower | backend/query_classifier.py:108 | Lowercasing maps every character and keeps the length. |
| QueryClassifier.MatchedSpec | backend/query_classifier.py:114-120 | A pattern is an indicator exactly when it is in the category's list and matches the text. |
| QueryClassifier.ScoreCounts | backend/query_classifier.py:113-122 | A category's score is its weight times the number of distinct matched patterns. |
| QueryClassifier.ScoreSign | backend/query_classifier.py:113-122 | With a positive weight, the score is non-negative, and positive exactly when some pattern matches. |
| QueryClassifier.BestSpec | backend/query_classifier.py:134 | The chosen category has the maximal score, and no earlier category ties it. |
| QueryClassifier.ClassifyWith | backend/query_classifier.py:101-106 | An empty query, or one shorter than 3 after stripping, is `factual` with confidence 0 and no indicators. |
| QueryClassifier.ClassifyNoMatch | backend/query_classifier.py:126-132 | For a long enough query, the result is `factual` with confidence 0.3 exactly when no pattern matches. |
| QueryClassifier.ClassifyMatch | backend/query_classifier.py:134-145 | When some pattern matches, the category is the first maximal one and the confidence before rounding is in (0,1). The indicators are exactly its matched patterns. |
| QueryClassifier.ConfidenceRange | backend/query_classifier.py:136-139 | The confidence before rounding always lies in [0,1). |
| QueryClassifier.FallbackIsSimple | backend/query_classifier.py:160-183 | A short or unmatched query is recommended `simple` as a factual query. |
| Registry.InitialHoldsBuiltins | backend/strategies/__init__.py:12-17 | The initial registry maps each of the four names to its built-in strategy. |
| Registry.InitialKeys | backend/strategies/__init__.py:12-17 | The initial registry knows a name exactly when it is one of the four built-in keys. |
| Registry.GetStrategySpec | backend/strategies/__init__.py:20-39 | Lookup succeeds exactly for a registered name and builds its class with the given config. Otherwise the error names the unknown strategy. |
| Registry.SuiteNames | backend/strategies/__init__.py:34-39 | `nonexistent` is rejected, and `simple` gives the simple-ranking strategy. |
| Registry.ListStrategiesSpec | backend/strategies/__init__.py:42-57 | The listing has the registry's keys in order, each with its class's name and description. |
| Registry.Put | backend/strategies/__init__.py:71 | Registering replaces an existing name in place or appends a new one. |
| Registry.PutSpec | backend/strategies/__init__.py:71 | After a put, the name maps to the class and every other name is unchanged. |
| Registry.RegisterSpec | backend/strategies/__init__.py:60-71 | A non-strategy class is rejected and leaves the registry unchanged. Otherwise the name is bound and other names are unchanged. |
| Recommender.UnknownCategory | backend/strategies/recommender.py:61-64 | An unknown category uses the default preference list. |
| Recommender.PreferencesArePermutations | backend/strategies/recommender.py:37-64 | Every preference list names each of the four strategies exactly once. |
| Recommender.ScoreStrategiesSpec | backend/strategies/recommender.py:123-167 | The ranking is a permutation of the preferences, sorted by score in descending order and stable. |
| Recommender.FactorKeepsOrder | backend/strategies/recommender.py:161-167 | For confidence > −1, the common factor 0.5+0.5·qc does not change the order. |
| Recommender.NoDataKeepsPreferences | backend/strategies/recommender.py:142-167 | When no strategy has trusted feedback, the ranking is the preference order. |
| Recommender.BoostSpec | backend/strategies/recommender.py:215-244 | Confidence gets +0.2 (capped at 1) when count ≥ 5 and f > 0.5. Otherwise it gets +0.1 when count ≥ 3 and f > 0, and otherwise it is unchanged. It is never below the classifier's. |
| Recommender.NoteSpec | backend/strategies/recommender.py:204-211 | The history sentence appears exactly when count ≥ 5 and feedback > 0. It is the strong variant exactly when feedback > 0.5. |
| Recommender.RecommendForSpec | backend/strategies/recommender.py:76-78 | The best strategy and its fallbacks are the ranking in order. There are 3 fallbacks, and the best is not among them. |
| Recommender.RecommendationsRegistered | backend/strategies/recommender.py:76-78 | Every recommended strategy and fallback is a registered strategy name. |
| Recommender.RecommendConfidence | backend/strategies/recommender.py:88-92 | The recommendation's confidence lies between the classifier's and 1. |
| Recommender.NoHistory | backend/strategies/recommender.py:45-101 | Without analytics, the recommendation follows the category's preference order. It keeps the classifier's confidence and has no history sentence. |

## Left out

- Network calls (`openrouter.py`), `asyncio` orchestration, prompt texts and `_build_revision_prompt` are left out. Each phase's replies are an input list of (model, optional reply).
- FastAPI routes, configuration loading and `get_config_schema` are left out. They compute nothing the model could state.
- `round(x, k)` is not modelled. Averages, weights and rates are exact reals and are stated before rounding. Floating-point error is not modelled.
- Aggregation.AggregateStable, Aggregation.WeightedStable, MultiRound.ChangesSpec, MultiRound.EvolutionDetected, Analytics.BestStrategySpec and Analytics.LeaderboardSpec: order, ties, the 0.1 change threshold and the best-strategy choice are computed on exact values in the model. The source computes them on the rounded floats (backend/strategies/simple_ranking.py:324-329, backend/strategies/weighted_voting.py:332-340, backend/strategies/reasoning_aware.py:367-371, backend/strategies/multi_round.py:357-361 and 440, backend/analytics.py:117-130 and 249-276). Near-equal values can therefore be ordered or judged differently: averages 15/11 and 19/14 both round to 1.36 and keep first-appearance order in the source, and 1.5 against 1.4 differs by slightly more than 0.1 as floats.
- QueryClassifier.ConfidenceRange, QueryClassifier.ConfidenceBelowOne and QueryClassifier.ClassifyMatch: the bound below 1 holds for the confidence before `round(…, 2)`. The source rounds it, so a query where only one category scores reports exactly 1.0.
- The classifier's regular expressions (`\b…\b`, `if.*then`) are a `Search` parameter, a predicate on pattern and text. `lower()` and `title()` change ASCII letters only. `strip()` removes the same Unicode whitespace set as Python.
- The analytics cache (time to live), the summary file and its save/load are left out. Timestamps are opaque natural numbers that only order conversations.
- The store's JSON files are an in-memory map from id to conversation.
- Labels are defined for fewer than 0xD800−65 answers, because Dafny characters exclude surrogate code points.
- Registry.Describe: the reasoning-aware description is written for the default weights. The description format strings (`:.1f`, `:.0%`) are not rendered.
- RankingParser.Parse: `\d` in the numbered-entry pattern matches ASCII digits only, while Python 3 matches every Unicode decimal digit. For `"FINAL RANKING:\n１. Response A\nResponse B"` (a full-width digit) the source returns only `Response A`, and the model falls back to the label scan.
- Recommender.NoteSpec: the history sentence is a `Note` value (strong or plain, with count and feedback). The rendered text with `{avg_feedback:.1f}` is not produced.
- Stages.Collect and Stages.Evaluate: a successful reply always carries text. The source passes `message.get('content')` on (backend/openrouter.py:65), which is None when the API sends null content. A stage-1 answer with None content is kept as a None response (backend/strategies/simple_ranking.py:102-106). A judge reply with None content makes the parser raise TypeError at `"FINAL RANKING:" in ranking_text` (backend/strategies/simple_ranking.py:183-184 and 268). The model has no such reply.
- Registry.RegisterSpec: the TypeError message does not include the class's repr.
- Recommender.RecommendForSpec: the `'simple'` fallback for an empty ranking cannot happen, because every preference list has four entries.
- Recommender.NoHistory: the truthiness of `performance_data` is not modelled. An empty statistics dict is treated like any other.
- Recommender.BoostSpec: it requires a classifier confidence of at most 1, which the classifier always meets.
- QueryClassifier.FallbackIsSimple: the recommended-strategy table is stated only for the fallback category. The other rows are literal lookups.
- Analytics.ModelStatsSpec: `avg_rank` of each per-strategy split is computed but not stated separately.
