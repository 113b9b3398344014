# A verified model of the retrieval, feedback and self-tuning core of a RAG chat backend

The backend answers questions over a news-article knowledge base:

1. It retrieves candidate articles by fusing a semantic ranking with a keyword ranking (reciprocal rank fusion).
2. It reranks them by cross-encoder score.
3. It decides from the judge's retrieval confidence whether to fall back to web search.
4. It builds the list of cited sources, with relevance normalised to [0, 1].
5. It reports a confidence that blends the retrieval and answer-quality judgements.

Users rate answers thumbs-up or thumbs-down. Every `min_samples`-th rating triggers an optimisation pass over the whole log. That pass runs three learners in order:

- the web-search confidence threshold;
- the confidence weights;
- the judge weights.

It then appends a performance record to a capped history. Each saved change bumps the configuration's version.

This project models that core in Dafny:

| module | models |
|---|---|
| `RlConfig` | The JSON-like configuration, its dot-path `get`, and `update`+save. |
| `RlOptimizer` | The RL optimizer: the gate, the two weighted scores, the three learners, the performance record and the trend. |
| `Feedback` | The feedback service: feedback ids, the learning schedule, the statistics, failed queries and recommendations. |
| `HybridSearch` | Reciprocal rank fusion and the top-k document lookup. |
| `Reranker` | Cross-encoder reranking, with and without a score threshold. |
| `Rag` | The query pipeline: the reranker-disabled fallback, source normalisation, the web gate and the reported result. |
| `Schemas` | The request, response and feedback records, with their declared field ranges. |
| `Wrappers`, `PyLib`, `StableSorting`, `Documents` | Support: `Option`; Python slicing, counting and `str(int)`; Python's stable `sorted(..., reverse=True)`; and documents as dictionaries. |

How the Python is represented:

- **Mutable state takes the source's form.**
  - `RLConfig`, `RLOptimizer`, `FeedbackService` and `RAGService` are classes.
  - Their methods mutate the configuration map and the feedback log.
  - Each method is proved equal to a pure step function (`WebStep`, `Learn`, ...). The step functions are the ones the lemmas talk about.
- **In-place list updates keep the array.**
  - `rerank` writes the scores into the documents it was given, in place, and so does the reranker-disabled fallback.
  - Both are methods over an `array<Doc>`.
- **Dictionaries are dictionaries.**
  - Configuration values are a JSON `Value` datatype, so every `dict.get` default, dot-path miss and shallow `update` is modelled as written.
  - A missing document field is a missing map key.
  - `None` and NaN are explicit cells.
- **Numbers are reals.**
  - Python's `int`/`float` distinction is kept only where it shows: the version counter and `min_samples`.
  - `datetime.now()` is a natural-number parameter in microseconds. The feedback id uses its whole seconds.

## Model

| member | source | states |
|---|---|---|
| RlConfig.JoinSplit | backend/app/services/rl_optimizer.py:80-89 | Splitting a configuration key on dots and re-joining the parts with dots gives back the key. |
| RlConfig.SplitJoin | backend/app/services/rl_optimizer.py:80-89 | Joining dot-free parts with dots and splitting again gives back the same parts, so a dotted key names exactly one path. |
| RlConfig.LookupResolve | backend/app/services/rl_optimizer.py:80-89 | The dot-path `get` returns the value at the path when every step is a dictionary holding the next key, and the default otherwise. |
| RlConfig.SaveMerge | backend/app/services/rl_optimizer.py:72-95 | `update` then save: the new map has the old keys plus the updated ones plus version and timestamp; an updated key takes its new value and every other key keeps its old one; the timestamp is the save time; and the version is one more than before. |
| RlConfig.InitialVersion | backend/app/services/rl_optimizer.py:55-70 | When no file exists, the default is saved once and so starts at version 2. An unreadable file gives exactly the defaults. A parsed file gives the union of the default keys and the file's keys. |
| RlConfig.StartupFault | backend/app/services/rl_optimizer.py:53 | The start-up message prints exactly when `web_search` is a dict whose `confidence_threshold` is a number or bool. Otherwise the result names the exception: KeyError for a missing key, ValueError for text, TypeError for anything else. |
| RlConfig.StartupFaultNeedsFile | backend/app/services/rl_optimizer.py:51-66 | With no file or an unreadable one the message prints, and so does a file without a `web_search` entry. Otherwise the file's own `web_search` section decides, since the merge replaces the default section whole. |
| RlConfig.PartialSectionFails | backend/app/services/rl_optimizer.py:53-66 | A file whose `web_search` section has only `enabled` makes start-up raise a KeyError. |
| RlConfig.RLConfig.constructor | backend/app/services/rl_optimizer.py:19-51 | The loaded configuration is the one the load procedure yields for the stored file. |
| RlConfig.RLConfig.Get | backend/app/services/rl_optimizer.py:80-89 | The method walks the dotted path and returns what the dot-path lookup specifies. |
| RlConfig.RLConfig.Update | backend/app/services/rl_optimizer.py:91-95 | The configuration becomes the shallow merge of the old one with the updates, saved (version bumped, timestamp set). |
| RlOptimizer.RLOptimizer.constructor | backend/app/services/rl_optimizer.py:106-107 | The optimizer owns a fresh configuration, loaded from the stored file. |
| RlOptimizer.RLOptimizer.ShouldTriggerWebSearch | backend/app/services/rl_optimizer.py:113-127 | Web search is triggered exactly when the confidence is below the learned confidence threshold or the judge score is below the judge threshold. |
| RlOptimizer.TriggerMonotone | backend/app/services/rl_optimizer.py:113-127 | Lowering the confidence or the judge score never turns a trigger off; no trigger means both values are at or above their thresholds. |
| RlOptimizer.DefaultGate | backend/app/services/rl_optimizer.py:24-31 | With the default configuration the gate fires exactly when the confidence is below 0.7 or the judge score is below 5. |
| RlOptimizer.WeightedConfidence | backend/app/services/rl_optimizer.py:129-154 | The blended confidence always lies in [0, 1]. |
| RlOptimizer.WeightedConfidenceExact | backend/app/services/rl_optimizer.py:129-154 | For weights in bounds and judge scores in [0, 10], the clamp never bites: the confidence is the weighted sum of the two scores scaled to [0, 1]. |
| RlOptimizer.RLOptimizer.CalculateWeightedConfidence | backend/app/services/rl_optimizer.py:129-154 | The method returns the blended confidence for the current weights. |
| RlOptimizer.WeightedJudgeScore | backend/app/services/rl_optimizer.py:156-174 | The weighted judge score always lies in [0, 10]. |
| RlOptimizer.WeightedJudgeScoreExact | backend/app/services/rl_optimizer.py:156-174 | For bounded weights and metric scores in [0, 10], the score is the weighted sum of relevance, factuality and completeness, with a missing metric counting as 0. |
| RlOptimizer.RLOptimizer.CalculateWeightedJudgeScore | backend/app/services/rl_optimizer.py:156-174 | The method returns the weighted judge score for the current judge weights. |
| RlOptimizer.PositiveRate | backend/app/services/rl_optimizer.py:232-233 | The share of positive entries in a non-empty partition lies in [0, 1]. |
| RlOptimizer.ThresholdMovesWhen | backend/app/services/rl_optimizer.py:226-253 | The threshold moves exactly when both the web-search and internal-only partitions have at least 3 entries and their positive rates differ by more than 0.15. |
| RlOptimizer.ThresholdDirection | backend/app/services/rl_optimizer.py:242-253 | A proposed threshold stays in [0.5, 0.9]. It goes down (more web search) when web search is rated better, and up when the internal knowledge base is. |
| RlOptimizer.ThresholdImpactSpec | backend/app/services/rl_optimizer.py:263-269 | The impact text says web search will trigger more often exactly when the new threshold is lower than the old one. |
| RlOptimizer.WebStep | backend/app/services/rl_optimizer.py:220-271 | The web-search learner reports a change exactly when a move is proposed, and otherwise leaves the configuration unchanged. A change sets the confidence threshold to the proposal, keeps the judge threshold and everything outside the web-search section, and bumps the version by one. |
| RlOptimizer.RLOptimizer.AnalyzeWebSearchPerformance | backend/app/services/rl_optimizer.py:220-271 | The method's change and new configuration are those of the web-search learning step. |
| RlOptimizer.CalibrationDirection | backend/app/services/rl_optimizer.py:273-316 | Recalibration happens exactly when at least 3 entries have confidence ≥ 0.7 and fewer than 60% of them are positive. It then moves weight from retrieval (never below 0.3) to answer quality (never above 0.7). |
| RlOptimizer.CalibrationStep | backend/app/services/rl_optimizer.py:273-316 | The calibration learner changes the configuration only when recalibration is proposed. It then writes both confidence weights, touches no other key, and bumps the version. |
| RlOptimizer.CalibrationProposalBounded | backend/app/services/rl_optimizer.py:299-302 | From in-range confidence weights and a rate in [0, 1], a proposed recalibration keeps both weights in [0.3, 0.7], and they still sum to 1. |
| RlOptimizer.RLOptimizer.AnalyzeConfidenceCalibration | backend/app/services/rl_optimizer.py:273-316 | The method's change and new configuration are those of the calibration step. |
| RlOptimizer.CollectSamples | backend/app/services/rl_optimizer.py:330-344 | The loop collects, in log order, the (score, positive?) pair of every entry that has the metric. |
| RlOptimizer.MetricSamplesCount | backend/app/services/rl_optimizer.py:330-344 | There is one sample per entry that carries the metric. |
| RlOptimizer.GroupScoresSplit | backend/app/services/rl_optimizer.py:336-344 | The positive and negative groups partition the samples. |
| RlOptimizer.CorrelationsSpec | backend/app/services/rl_optimizer.py:330-347 | A metric gets a correlation exactly when it has at least 10 samples. That correlation is the positive-minus-negative mean difference of its samples. |
| RlOptimizer.ArgMaxFirst | backend/app/services/rl_optimizer.py:370-371 | The selected metric has the largest change, and it is the first one with that value, as Python's `max` picks. |
| RlOptimizer.BlendBounds | backend/app/services/rl_optimizer.py:349-367 | A blended judge weight never falls below `(1 - lr/2)` times the old weight, so it stays non-negative. |
| RlOptimizer.JudgeStep | backend/app/services/rl_optimizer.py:318-385 | The judge-weight learner changes the configuration only when it proposes new weights. It writes exactly the judge weights and bumps the version. |
| RlOptimizer.RLOptimizer.AnalyzeJudgeCorrelation | backend/app/services/rl_optimizer.py:318-385 | The method's loop over the three metrics yields the judge step's change and new configuration. |
| RlOptimizer.CappedSpec | backend/app/services/rl_optimizer.py:405-407 | The history keeps the newest 50 entries, in order. |
| RlOptimizer.RecordStep | backend/app/services/rl_optimizer.py:387-411 | An empty log records nothing. Otherwise the history becomes the capped old history plus the new performance entry, nothing else changes, and the version is bumped. |
| RlOptimizer.RecordSpec | backend/app/services/rl_optimizer.py:387-411 | After recording, the last history entry is the new record, the length is the old length plus one capped at 50, and the earlier entries are the newest of the old ones. |
| RlOptimizer.RLOptimizer.RecordPerformance | backend/app/services/rl_optimizer.py:387-411 | The method performs the recording step on the configuration. |
| RlOptimizer.Learn | backend/app/services/rl_optimizer.py:176-218 | An optimisation pass reports insufficient data exactly when the log is shorter than `min_samples`, and changes nothing then. Otherwise it is time-stamped and lists at most three changes. |
| RlOptimizer.LearnVersion | backend/app/services/rl_optimizer.py:176-218 | A pass bumps the version once per listed change, plus once for the performance record when the log is non-empty. |
| RlOptimizer.LearnKeepsBounds | backend/app/services/rl_optimizer.py:176-218 | From a configuration whose learned parameters are in range, a pass is defined and keeps them in range. Threshold and weights stay non-negative and in their clamps, and the learning rate does not change. |
| RlOptimizer.RLOptimizer.UpdateFromFeedback | backend/app/services/rl_optimizer.py:176-218 | The method runs the three learners and the recorder in source order, and its outcome and new configuration are those of the pass. |
| RlOptimizer.ClassifySpec | backend/app/services/rl_optimizer.py:430-438 | The trend is improving above +0.02, declining at or below -0.02, and stable in between. |
| RlOptimizer.TrendWindows | backend/app/services/rl_optimizer.py:424-425 | Sizes of the recent window (last ≤5) and the older window (first ≤5). Both are non-empty, and they overlap exactly when the history has 5 to 8 entries. |
| RlOptimizer.TrendBounds | backend/app/services/rl_optimizer.py:413-440 | With two or more recorded rates in [0, 1], a trend is reported. Both window means lie in [0, 1], the improvement lies in [-1, 1] (so its percentage lies in [-100, 100]), and the report counts every data point. |
| RlOptimizer.RLOptimizer.GetPerformanceTrend | backend/app/services/rl_optimizer.py:413-440 | The method reports the trend of the stored history. |
| RlOptimizer.FreshConfig | backend/app/services/rl_optimizer.py:24-48 | A fresh configuration is well formed and in range: threshold 0.7, learning rate 0.1, five minimum samples, even confidence weights, version 2. |
| RlOptimizer.SampleRun | backend/app/services/rl_optimizer.py:448-466 | On the built-in sample of 8 entries, a fresh optimizer makes two changes: the threshold drops to 0.625 and the confidence weights become 0.4 / 0.6. The version reaches 5. |
| Feedback.FeedbackIdInjective | backend/app/services/feedback.py:79 | Two feedback ids are equal only when both the sequence number and the timestamp second are equal. |
| Feedback.Capitalize | backend/app/services/feedback.py:112 | `str.capitalize` upper-cases the first letter and lower-cases the rest, keeping the length. |
| Feedback.NewEntry | backend/app/services/feedback.py:78-91 | The new record's id uses the next sequence number and the current second, and its timestamp is now. It is positive, negative or web-assisted exactly as the request says. |
| Feedback.ValidRequestEntry | backend/app/models/schemas.py:61-73 | A request that meets its declared bounds stores a confidence in [0, 1] and judge scores in [0, 10] under the three dimension names. |
| Feedback.ShouldLearnMultiples | backend/app/services/feedback.py:99-100 | For a positive whole `min_samples`, learning runs exactly when the log length is a non-zero multiple of it. |
| Feedback.DefaultSchedule | backend/app/services/feedback.py:99-100 | At the default of 5, learning runs on every fifth submission. |
| Feedback.FeedbackService.constructor | backend/app/services/feedback.py:13-28 | The service starts with the stored log and its own freshly loaded optimizer. |
| Feedback.FeedbackService.SubmitFeedback | backend/app/services/feedback.py:45-113 | One submission appends exactly one new record. The reply is "success" with the new id and the capitalised message. The configuration becomes that of an optimisation pass over the whole log exactly when the learning schedule fires, and stays unchanged otherwise. The learned parameters stay in range. |
| Feedback.PartitionRate | backend/app/services/feedback.py:144-165 | Per partition, positives never exceed the total. The rate is 0 for an empty partition and positives over total otherwise, so it lies in [0, 1]. |
| Feedback.WebSearchSplit | backend/app/services/feedback.py:144-165 | The web-search and internal-only partitions cover the log, and their positives add up to all positives. |
| Feedback.BucketTotals | backend/app/services/feedback.py:179-190 | Every record falls in exactly one confidence bucket. |
| Feedback.BucketReport | backend/app/services/feedback.py:167-199 | The correlation is "insufficient data" exactly for an empty log. Otherwise the bucket totals add up to the log length. |
| Feedback.AnalyzeConfidenceCorrelation | backend/app/services/feedback.py:167-199 | The counting loop over the log yields the bucket report. |
| Feedback.StatsSpec | backend/app/services/feedback.py:115-142 | An empty log gives all zeros. Otherwise the rate is positives over the log length, in [0, 1]. When every record is rated, positives plus negatives is the total. |
| Feedback.FeedbackService.GetFeedbackStats | backend/app/services/feedback.py:115-142 | The method reports the statistics of the current log. |
| Feedback.NegativeQueries | backend/app/services/feedback.py:213-224 | The records are exactly the projections of the negative entries, in log order: the i-th record is built from the i-th negative entry. So every negative entry's record appears, and every record comes from a negative entry. |
| Feedback.FailedQueriesSpec | backend/app/services/feedback.py:201-229 | Failed queries come only from negative entries, newest first. They are a sub-multiset of the negative entries, and none left out is newer than one kept. There are `min(limit, count)` of them for a non-negative limit. |
| Feedback.PrefixOfSorted | backend/app/services/feedback.py:226-229 | Cutting a newest-first list at the limit keeps it sorted and part of the list. Nothing it drops is newer than anything it keeps. |
| Feedback.FeedbackService.GetFailedQueries | backend/app/services/feedback.py:201-229 | The method returns the newest `limit` failed queries of the log. |
| Feedback.ThresholdRecommendation | backend/app/services/feedback.py:255-269 | A threshold recommendation is made exactly when both partitions have more than 5 entries and one rate beats the other by more than 0.2. It suggests 0.6 (decrease) when web search is ahead and 0.9 (increase) when the knowledge base is. |
| Feedback.CalibrationRecommendation | backend/app/services/feedback.py:272-281 | Recalibration is recommended exactly when more than 3 entries are high-confidence and fewer than 60% of them are positive. The recommendation carries that rate. |
| Feedback.RecommendInsufficient | backend/app/services/feedback.py:240-245 | With fewer than 10 entries only the current count is reported. Otherwise the report carries the total. |
| Feedback.RecommendSpec | backend/app/services/feedback.py:249-287 | With 10 or more entries there are at most two recommendations. A threshold move is among them exactly when its condition holds, and so is a recalibration. |
| Feedback.FeedbackService.GetAdjustmentRecommendations | backend/app/services/feedback.py:231-287 | The method produces the recommendation report of the log. |
| HybridSearch.FusedSpec | backend/app/services/hybrid_search.py:108-133 | The fused list holds each document of either ranking exactly once, with its RRF score, sorted by score descending. |
| HybridSearch.FusedSymmetric | backend/app/services/hybrid_search.py:120-128 | Reciprocal rank fusion does not depend on which ranking comes first, up to how ties are ordered. |
| HybridSearch.FusedScoreBounds | backend/app/services/hybrid_search.py:120-128 | For rankings without repeats, every fused score is positive and at most `2/(k+1)`. |
| HybridSearch.ReciprocalRankFusion | backend/app/services/hybrid_search.py:108-133 | The two accumulation loops over a dictionary in insertion order, then a stable sort, give the fused ranking. |
| HybridSearch.PyIndex | backend/app/services/hybrid_search.py:165 | A list index is valid exactly in `[-n, n)`, with negative indices counting from the end. |
| HybridSearch.FirstTitleFault | backend/app/services/hybrid_search.py:148-153 | Reading the titles of a list of ids succeeds exactly when every id indexes the document list and its document has a title. Otherwise the result is the exception of the first id that fails: an index error, or a key error for a missing title. |
| HybridSearch.FetchDocs | backend/app/services/hybrid_search.py:160-168 | The copy loop succeeds exactly when every kept id indexes the document list. It returns the stored documents annotated with their RRF score and id, in order. Otherwise it reports the first bad id. |
| HybridSearch.HybridSearch | backend/app/services/hybrid_search.py:135-170 | The titles of the first three semantic ids, then the first three keyword ids, are read first, and the first failing read's exception is the result. After that, documents are retrieved exactly when all top-k fused ids index the document list. Each is a copy annotated with its RRF score and id, in fused order. Otherwise an index error is reported for the first bad id. |
| Reranker.Rerank | backend/app/services/reranker.py:20-64 | `rerank` writes the cross-encoder scores into the documents in place and returns the top-k of them by score, using the configured k when none is given. |
| Reranker.RerankedShape | backend/app/services/reranker.py:32-64 | No documents gives no results. Otherwise the result has `min(k, n)` entries for a non-negative k and is a prefix of the stably sorted, scored list. |
| Reranker.RerankedSortedMembers | backend/app/services/reranker.py:51-64 | The result is sorted by rerank score, and each entry is an input document carrying its own score. |
| Reranker.RerankedKeepsBest | backend/app/services/reranker.py:55-64 | No dropped document scores higher than a kept one. |
| Reranker.RerankedStable | backend/app/services/reranker.py:55-56 | Documents with equal scores keep their retrieval order. |
| Reranker.AboveThresholdSpec | backend/app/services/reranker.py:87-88 | The threshold filter keeps, in order, exactly the reranked documents scoring at least the threshold. |
| Reranker.RerankWithThreshold | backend/app/services/reranker.py:66-90 | `rerank_with_threshold` reranks in place and then keeps the documents at or above the threshold. |
| Rag.SafeString | backend/app/services/rag.py:16-22 | `None` and NaN become the default, and any other value becomes its string form. |
| Rag.FillRerankScores | backend/app/services/rag.py:161-164 | With the reranker off, every document without a rerank score gets its hybrid score (0.5 when it has none), in place. Documents that have a score keep it. |
| Rag.DisabledContext | backend/app/services/rag.py:158-164 | With the reranker off, the context is the first five retrieved documents with only their missing rerank scores filled. |
| Rag.MinOf | backend/app/services/rag.py:217 | The minimum is one of the scores and bounds them all from below. |
| Rag.MaxOf | backend/app/services/rag.py:218 | The maximum is one of the scores and bounds them all from above. |
| Rag.ScoreRange | backend/app/services/rag.py:219 | The range used for normalising is always positive: the spread, or 1 when all scores are equal. |
| Rag.RelevanceBounds | backend/app/services/rag.py:222-235 | Normalised relevance is the min-max normalised score clamped to [0, 1]. |
| Rag.RelevanceExtremes | backend/app/services/rag.py:214-235 | When the scores differ, the lowest-scored document gets relevance 0 and the highest gets 1. |
| Rag.RelevanceMonotone | backend/app/services/rag.py:214-235 | A higher rerank score never gets a lower relevance. |
| Rag.RelevanceUnclamped | backend/app/services/rag.py:214-235 | For a score in the list the clamp never bites. |
| Rag.RelevanceAllEqual | backend/app/services/rag.py:219-226 | When all scores are equal, each gets relevance 0. |
| Rag.WebRelevance | backend/app/services/rag.py:243-245 | A web result's score is used as is, and a missing, `None` or NaN score becomes 0.8. |
| Rag.SourcesValid | backend/app/models/schemas.py:7-13 | Every source meets the declared `relevance_score` range [0, 1] exactly when every web result's relevance lies in it. Internal relevances always do. |
| Rag.SourcesSpec | backend/app/services/rag.py:212-254 | There is one internal source per context document, with relevance in [0, 1] and in rerank-score order, followed by one web source per web result, in order. |
| Rag.DisabledRelevanceIsZero | backend/app/services/rag.py:158-237 | With the reranker off and no hybrid scores, every internal source has relevance 0. |
| Rag.AppendInternalSources | backend/app/services/rag.py:215-237 | The normalising loop builds the internal sources. |
| Rag.AppendWebSources | backend/app/services/rag.py:240-254 | The web loop appends one web source per result. |
| Rag.BuildSources | backend/app/services/rag.py:212-254 | Both loops together build the source list. |
| Rag.GateAtDefaults | backend/app/services/rag.py:175-183 | With the default thresholds, the pipeline's own gate (confidence = judge score / 10) fires exactly when the judge score is below 7. |
| Rag.ReportedScores | backend/app/services/rag.py:282-286 | The reported judge scores are exactly the three metrics, each defaulting to 5. |
| Rag.RAGService.constructor | backend/app/services/rag.py:28-48 | The service records whether the reranker is on and owns a freshly loaded optimizer. |
| Rag.PrintWebTitles | backend/app/services/rag.py:193-194 | The progress loop over the web results succeeds exactly when every title is present and a string. Otherwise it reports the first result that fails, with a KeyError for a missing title and a TypeError for any other value. |
| Rag.RAGService.ProcessQuery | backend/app/services/rag.py:154-289 | When a search returns results, their titles are printed first. If one cannot be printed, the query ends with that exception for the first such result. Otherwise the query is answered. Web search is reported as triggered exactly when it is enabled, requested or gated, and returns results. The sources are built from the context documents plus those results. The confidence is the blend of the retrieval score and the weighted answer score, in [0, 1]. The reported scores, answer and method are as described. |

## Left out

- Files and JSON:
  - Reading and writing `rl_config.json` and `feedback.json` is replaced by values: the stored configuration (no file, unreadable, or parsed) and the stored log are constructor parameters, and saves are state updates.
  - Console printing is left out. Three of its expressions can raise, and they are modelled as exceptions: the title reads of `hybrid_search`, the web titles in `process_query`, and the start-up threshold (`RlConfig.StartupFault`). The printed reranker titles are covered by the `Reranker.Rerank` line below. The other printed values come from parameters whose types make them formattable.
- External components are parameters:
  - the embedding model, FAISS and BM25 (the two rankings `HybridSearch` receives);
  - the cross-encoder (the scores `Rerank` receives);
  - the LLM judge (the retrieval evaluation and the answer scores `ProcessQuery` receives);
  - the web-search client (its results);
  - answer generation (the answer string).
- `datetime.now()` is a natural-number parameter. ISO-8601 text is not rendered.
  - Sorting failed queries by ISO string is modelled as sorting by instant.
  - `SubmitFeedback` uses one clock reading for both the id and the timestamp, where the source reads the clock twice.
  - `RlOptimizer.Learn` and `RlOptimizer.RecordStep` use one clock reading for every timestamp of an optimisation pass, where the source reads the clock separately for the pass's report, for the history record and for each save's `last_updated`.
- The `status` and `message` strings of the report dicts are represented by the report's variant, for example `TrendInsufficientData` for the message that at least 2 data points are needed.
- The reason and impact texts that format rates with `:.1%` are not rendered. Their rates and directions are kept as data, because Python's float formatting is not modelled.
- Floating point is modelled as exact reals. Rounding and overflow in the weighted scores, the RRF sum and the normalisation are not modelled.
- `RAGService` and `FeedbackService` each own a separate optimizer, as in the source. The model does not capture their sharing one configuration file on disk.
- `RlOptimizer.RLOptimizer.AnalyzeConfidenceCalibration` does not keep the medium- and low-confidence partitions the source also computes, because nothing in the source ever reads them.
- `RlConfig.RLConfig.constructor` does not raise the start-up message's exception (rl_optimizer.py:53). It always succeeds with the merged configuration, and so do the `RLOptimizer`, `RAGService` and `FeedbackService` constructors built on it. `RlConfig.StartupFault` and `RlConfig.StartupFaultNeedsFile` state which stored files make the source raise, and with which exception, because a Dafny constructor cannot end in an exception.
- `Rag.RAGService.ProcessQuery` starts from the hybrid results. The `hybrid_search(query, top_k=20)` call (rag.py:152) and its IndexError or KeyError are modelled separately by `HybridSearch.HybridSearch`, and the two are not composed.
- `RlConfig.Save`, `RlConfig.RLConfig.Update`, the `RlOptimizer.RLOptimizer` methods, `Rag.RAGService.ProcessQuery` and `Feedback.FeedbackService.SubmitFeedback` require the stored configuration's values to have the types their arithmetic needs. The requirements are a number for `version`, the thresholds, the learning rate and `min_samples`, dicts of numbers for the weights, and a list for the history. In the source a stored value of another type raises a `TypeError`, which the model does not include.
- `HybridSearch.HybridSearch` does not model the `TypeError` raised when a printed title is not a string (`None` or NaN), because `str` slicing of other values is not modelled. Its title reads fail only on a bad index or a missing `title` key.
- `Reranker.Rerank` does not model the `KeyError` raised when a document lacks its title or summary, because building the cross-encoder input is left to the caller. It also leaves out the `TypeError` that printing `doc['title'][:60]` raises when one of the three best titles is not a string (reranker.py:61). `Rerank` works in place on an array and is kept free of exceptions; whenever the source returns, it returns the same documents.
- `Feedback.FeedbackService.SubmitFeedback` requires a non-zero `min_samples`: in the source a zero makes `len % min_samples` raise, and the model does not include that exception.
  - It also requires the configuration's learned parameters to be in range, as they are from a fresh or saved configuration. That is what makes every pass well defined.
- `Feedback.BucketOf` treats a stored `null` confidence like a missing one (0.5), where the source would raise a `TypeError` on the comparison. A record's confidence is an option, so a `null` and a missing key are one case throughout:
  - `RlOptimizer.HighConfidence`, `RlOptimizer.Confidences` and `RlOptimizer.PerformanceEntry` read it as 0, where the source raises a `TypeError` for `null` (rl_optimizer.py:281, 398);
  - `Feedback.AsFailed` gives 0, where the source copies a stored `null` through as `None` (feedback.py:218).
- Web sources are not bounded: a web result's score is copied unchanged, so the declared `[0, 1]` range of a source's relevance is proved only for internal sources. That matches the code, which does not clamp web scores.
- Integers are unbounded, since Python ints are unbounded too.
- The analytics service, data processing, the HTTP routes and the application startup are not part of this model.
