# Sentiment explorer: a verified model of the sentiment-index core

The sentiment explorer computes a market-sentiment index for a list of
topics. The pipeline runs in four steps:

1. It collects recent news for each topic and tags every article with its topic.
2. It cleans the table of articles.
3. It classifies each article's description with a sentiment model behind an HTTP route.
4. It maps the labels to weights from -2 to 2 and reports 100 × the mean weight per topic.

A dashboard keeps the list of topics and shows the results as coloured bands.

The project models that core in Dafny:

- `wrappers.dfy` (`Wrappers`): `Option`, `Result` and a no-duplicates predicate.
- `sentiment_analysis.dfy` (`SentimentAnalysis`): the notebook pipeline. It has these parts:
  - the class `SentimentAnalyzerNotebook`, whose fields the steps reassign, with one method per step and `Run` for `main`;
  - a specification function for each step (`Collect`, `Clean`, `ClassifyAll`, `MapWeights`, `GroupMeans`);
  - `Pipeline`, which composes those functions;
  - lemmas about the functions, including cleaning idempotence and the exact survivor rule.
- `model_loader.dfy` (`ModelLoading`): the class `ModelLoader`, with its three fields that `LoadModel` sets one by one and the guarded `Predict`. It also holds the label → score dictionary as an insertion-ordered association list, and the first-maximum arg-max.
- `predict_route.dfy` (`PredictRoute`): the `/analyze/` route. A class `Route` holds the nullable module global `sentiment_model`. Two client scenarios show that the loader is reused and that a failed first load is never retried.
- `topic_input.dfy` (`TopicInput`): the session's topic list and the add-topic rule, with Python's `str.strip()` whitespace set written out.
- `display.dfy` (`Display`): the five bands and their colours, the descending sort with NaN last, the result panel as drawn and with the banding corrected, and the removal of one topic.

The following become parameters:

- the news search, as `NewsSource`;
- the HTTP call to the classifier, as `Classifier`, where `None` means the call or the `predicted_label` lookup failed;
- the artefact downloads, as `Hub`;
- tokenising, the forward pass and the softmax, as `Inference`.

Python's NaN is `None` in an `Option<real>`. Means are exact `real`s.

Four behaviours of the code that the model keeps:

- Cleaning also requires `img` (`app/notebooks/sentiment_analysis.py:64`, `113`).
- An unrecognised label becomes NaN and is skipped by the mean; it is not an error.
- A failed first load is never retried.
- There is no mutual exclusion around loading.

## Model

| member | source | states |
|---|---|---|
| `SentimentAnalysis.Batch` | app/notebooks/sentiment_analysis.py:64-70 | a batch succeeds exactly when each of title/desc/img/date is a column of some record; it keeps one row per record and tags every row with the query; otherwise it fails with a missing-column error naming the query |
| `SentimentAnalysis.BatchesPerQuery` | app/notebooks/sentiment_analysis.py:62-71 | the batches succeed exactly when every query's batch does, and then table i is the batch of query i |
| `SentimentAnalysis.BatchesFailureStops` | app/notebooks/sentiment_analysis.py:65-68 | once a query's batch fails, later queries do not change the result |
| `SentimentAnalysis.BatchesRows` | app/notebooks/sentiment_analysis.py:62-71 | the concatenated table has one row per collected record, and every row's query is one of the queries |
| `SentimentAnalysis.CollectShape` | app/notebooks/sentiment_analysis.py:62-71 | no queries means nothing to concatenate (an error); on success the table is the concatenation of the per-query batches in query order, with its row count and query tags |
| `SentimentAnalysis.SentimentAnalyzerNotebook.constructor` | app/notebooks/sentiment_analysis.py:23-39 | a fresh notebook keeps its search settings and has no table and no indicator |
| `SentimentAnalysis.SentimentAnalyzerNotebook.GetNewsDf` | app/notebooks/sentiment_analysis.py:55-71 | the loop over the queries leaves the table equal to `Collect`, or returns the first error and leaves the table unchanged |
| `SentimentAnalysis.DropIncompleteMembers` | app/notebooks/sentiment_analysis.py:113 | `dropna` keeps exactly the rows with every field present |
| `SentimentAnalysis.FirstOccurrencesMembers` | app/notebooks/sentiment_analysis.py:114 | `drop_duplicates` keeps every distinct row and no duplicate |
| `SentimentAnalysis.CleanMembers` | app/notebooks/sentiment_analysis.py:112-115 | the cleaned table holds exactly the complete rows of the input, each once |
| `SentimentAnalysis.CleanKeepsFirstCompleteRows` | app/notebooks/sentiment_analysis.py:112-115 | cleaning keeps row i exactly when it is complete and equals no earlier row, in the original order |
| `SentimentAnalysis.CleanIdempotent` | app/notebooks/sentiment_analysis.py:112-115 | cleaning a cleaned table changes nothing |
| `SentimentAnalysis.SentimentAnalyzerNotebook.Cleaning` | app/notebooks/sentiment_analysis.py:112-115 | the two loops leave the table equal to `Clean` of the old table |
| `SentimentAnalysis.Descriptions` | app/notebooks/sentiment_analysis.py:110 | one description per row, in row order, equal to that row's `desc` |
| `SentimentAnalysis.ClassifyAllPointwise` | app/notebooks/sentiment_analysis.py:101-110 | the labels exist exactly when every classifier call succeeds; then label k is the answer for description k |
| `SentimentAnalysis.SentimentAnalyzerNotebook.PooledSentimentPrediction` | app/notebooks/sentiment_analysis.py:104-108 | the sequential map returns one label per description, in order, or fails when any call failed |
| `SentimentAnalysis.SentimentAnalyzerNotebook.FeatureEngineering` | app/notebooks/sentiment_analysis.py:91-110 | the `sentiment` column is the classifier's labels of the `desc` column, row by row; the table is unchanged |
| `SentimentAnalysis.Weight` | app/notebooks/sentiment_analysis.py:133-140 | a label has a weight exactly when it is one of the five; label k of Very Negative … Very Positive weighs k − 2 |
| `SentimentAnalysis.MapWeights` | app/notebooks/sentiment_analysis.py:133-140 | one weight cell per label; a cell has a weight exactly when its label is one of Very Negative … Very Positive, label k of that scale weighs k − 2, any other label is NaN, and every weight lies in [-2, 2] |
| `SentimentAnalysis.ScaledMean` | app/notebooks/sentiment_analysis.py:141-143 | an empty group has no mean (NaN); otherwise mean × group size = 100 × sum of weights |
| `SentimentAnalysis.ScaledMeanBounds` | app/notebooks/sentiment_analysis.py:141-143 | the index of a non-empty group of weights in [-2, 2] lies in [-200, 200]; an empty group's index is NaN |
| `SentimentAnalysis.GroupMeansKeys` | app/notebooks/sentiment_analysis.py:141-142 | the indicator has an entry for a query exactly when some row carries that query |
| `SentimentAnalysis.GroupMeansValues` | app/notebooks/sentiment_analysis.py:141-143 | each entry is 100 × the mean of the group's recognised weights, and is NaN (no recognised label) or lies in [-200, 200] |
| `SentimentAnalysis.ThreeLabelExample` | app/notebooks/sentiment_analysis.py:133-143 | labels Very Positive, Positive, Negative on "Bitcoin" weigh 2, 1, -1 and give the index 200/3 |
| `SentimentAnalysis.ThreeLabelGroup` | app/notebooks/sentiment_analysis.py:141 | the "Bitcoin" group of the worked example collects the weights 2, 1, -1 in row order |
| `SentimentAnalysis.SentimentAnalyzerNotebook.SetSentimentIndicator` | app/notebooks/sentiment_analysis.py:116-144 | the weight column is the label lookup and the indicator is the per-query group mean × 100 |
| `SentimentAnalysis.PipelineSteps` | app/notebooks/sentiment_analysis.py:158-161 | a successful run collects, cleans, classifies exactly the cleaned descriptions, then aggregates, in that order |
| `SentimentAnalysis.CleanQueries` | app/notebooks/sentiment_analysis.py:112-115 | a query survives cleaning exactly when one of its rows is complete |
| `SentimentAnalysis.PipelineKeys` | app/notebooks/sentiment_analysis.py:141-142 | the indicator has one entry per query that has a complete collected row; a query with no surviving rows has none |
| `SentimentAnalysis.PipelineValues` | app/notebooks/sentiment_analysis.py:141-143 | every indicator key is one of the queries, and its value is NaN or lies in [-200, 200] |
| `SentimentAnalysis.SentimentAnalyzerNotebook.Run` | app/notebooks/sentiment_analysis.py:147-161 | `main` on success leaves the cleaned table, its `sentiment` column (row k's label is the classifier's answer for row k's description), its `sentiment_weight` column (the weights of those labels) and the indicator equal to the pipeline's result; a failed search leaves the notebook as it was; a failed labelling leaves the cleaned table with no `sentiment` or `sentiment_weight` column and the old indicator |
| `SentimentAnalysis.AnalyzeWithDefaults` | app/notebooks/sentiment_analysis.py:23 | a notebook built without arguments searches the last seven days (`7d`) of Portuguese (`pt`) news, and running it yields the pipeline's result for those settings |
| `ModelLoading.PutMembers` | api/ai/model_loader.py:41 | assigning a key yields the old keys plus that key |
| `ModelLoading.PutLength` | api/ai/model_loader.py:41 | assigning a key adds an entry exactly when the key is new |
| `ModelLoading.PutUnique` | api/ai/model_loader.py:41 | assigning a key keeps every key once |
| `ModelLoading.PutNewKey` | api/ai/model_loader.py:41 | a new key goes last |
| `ModelLoading.ScoreTableKeys` | api/ai/model_loader.py:40-41 | the scores have each label of `id2label` as a key exactly once and no other key |
| `ModelLoading.ScoreTableOfDistinct` | api/ai/model_loader.py:40-41 | with distinct labels, entry i is (label i, probability i) |
| `ModelLoading.MaxIndex` | api/ai/model_loader.py:42 | `max` picks an entry whose score is at least every score and strictly above every earlier one |
| `ModelLoading.PredictionIsArgMax` | api/ai/model_loader.py:40-49 | prediction fails exactly when there are fewer probabilities than labels, or no labels; otherwise the text is unchanged, the scores cover the labels once each, and the predicted label is a key whose score is maximal |
| `ModelLoading.PredictionTieBreak` | api/ai/model_loader.py:41-42 | with distinct labels, the scores follow class order and the predicted label is that of the lowest class index with maximal probability |
| `ModelLoading.ModelLoader.constructor` | api/ai/model_loader.py:16-20 | a fresh loader has the selected model's identifier and no tokenizer, configuration or model |
| `ModelLoading.ModelLoader.LoadModel` | api/ai/model_loader.py:22-29 | the loader downloads tokenizer, configuration and model in order; a failure raises "Failed to load model: …" and keeps the fields set before it |
| `ModelLoading.ModelLoader.Predict` | api/ai/model_loader.py:30-49 | without a tokenizer or model it raises the not-loaded error; any result echoes the input text |
| `PredictRoute.Respond` | api/routes/predict.py:53-61 | a prediction becomes the response with the same text, label and scores; any exception from `predict` becomes HTTP 500 with detail "Model loading failed: …" |
| `PredictRoute.Route.constructor` | api/routes/predict.py:9 | the global model starts unset |
| `PredictRoute.Route.EnsureModelLoaded` | api/routes/predict.py:11-37 | when unset, the wrapper creates a loader of the multilingual model, stores it, then loads it once; when set, it creates and loads nothing |
| `PredictRoute.Route.AnalyzeSentiment` | api/routes/predict.py:41-61 | the first request's load error escapes as is; otherwise the route answers from the stored loader, and an unloaded stored loader gives HTTP 500 with the not-loaded detail |
| `PredictRoute.FailedFirstLoadIsPermanent` | api/routes/predict.py:29-58 | after a failed first load, every later request gets HTTP 500 with the not-loaded detail, even with a working hub |
| `PredictRoute.LoadedModelIsReused` | api/routes/predict.py:29-36 | after a successful first load, later requests are answered from the first load's artefacts |
| `TopicInput.TrimLeftShape` | app/components/input.py:94 | left stripping drops exactly the leading whitespace |
| `TopicInput.TrimRightShape` | app/components/input.py:94 | right stripping drops exactly the trailing whitespace |
| `TopicInput.StripBlank` | app/components/input.py:94 | `strip()` gives "" exactly for values made only of whitespace |
| `TopicInput.Outcome` | app/components/input.py:93-101 | not pressed does nothing; a blank value warns; a listed value is reported as already added; anything else is added |
| `TopicInput.AddTopic` | app/components/input.py:94-100 | the list is unchanged unless the value is added; an added value goes last with the earlier entries unchanged; a list without duplicates stays so |
| `TopicInput.RawValueIsStored` | app/components/input.py:94-100 | " Bitcoin" is added next to "Bitcoin", a repeated "Bitcoin" and a blank value are not |
| `TopicInput.AddTopicInput` | app/components/input.py:77-102 | the topics key is initialised to the empty list when absent, then the add rule applies to it |
| `Display.BandOf` | app/components/main.py:78-89 | the five bands are score ≤ -1.5, (-1.5, -0.5], (-0.5, 0.5), [0.5, 1.5) and ≥ 1.5; NaN falls through to "Muito Positivo" |
| `Display.BandingMonotone` | app/components/main.py:80-89 | a higher score never gets a more negative band |
| `Display.LabelColourPairing` | app/components/main.py:81-89 | every score gets one of the five fixed (label, colour) pairs; equal labels have equal colours and different labels different colours |
| `Display.BandsDistinct` | app/components/main.py:81-89 | different bands have different labels and colours |
| `Display.AsWrittenBandOverstates` | app/components/main.py:114 | as written, the index 25 of one Positive and three Neutral labels is shown "Muito Positivo" though its mean 0.25 bands as "Neutro", and the index 100 of all Positive labels is not shown "Positivo" though its mean 1 is |
| `Display.CorrectedBandIsNearest` | app/components/main.py:114 | banding index / 100 gives the weight nearest the mean |
| `Display.CorrectedBandOfGroup` | app/components/main.py:114 | for a group's index, the corrected band's weight is within 0.5 of the group's mean weight |
| `Display.CorrectedBandOfUnanimousGroup` | app/components/main.py:114 | a group whose labels agree is shown with that label's band |
| `Display.InsertKeepsOrder` | app/components/main.py:109-111 | inserting a row into a descending table keeps it descending |
| `Display.InsertCount` | app/components/main.py:109-111 | inserting a row adds exactly that row |
| `Display.SortDescendingSpec` | app/components/main.py:109-111 | the result rows are in non-increasing index order with NaN last, and are a permutation of the indicator rows |
| `Display.PanelSpec` | app/components/main.py:109-128 | a panel shows every indicator row once, highest index first, each line with the label and colour of the band its index is given |
| `Display.ResultLinesSpec` | app/components/main.py:109-128 | the dashboard's panel shows every indicator row once, highest index first, each with the label and colour that the ±0.5 / ±1.5 thresholds give its raw index |
| `Display.CorrectedResultLinesSpec` | app/components/main.py:109-128 | banding index / 100 keeps the panel's rows and order, and each line's band is within 0.5 of the mean weight of the group its index came from |
| `Display.PanelOfQuarterIndex` | app/components/main.py:109-128 | a topic with index 25 is drawn "Muito Positivo" in #38A169 on the dashboard's panel and "Neutro" in #F6AD55 on the corrected one |
| `Display.RemoveFirstSpec` | app/components/main.py:60 | `remove` deletes the first occurrence of the topic and keeps the other entries in order |
| `Display.RemoveFirstCount` | app/components/main.py:60 | `remove` shortens the list by one and takes out exactly one copy of the topic |
| `Display.RemoveTopic` | app/components/main.py:59-60 | pressing ❌ removes the topic's first occurrence from the session's list |

## Left out

- Google News search and the HTTP call to the classifier service: network I/O, both parameters.
- `ThreadPoolExecutor` with one worker: modelled as a sequential map that fails when any call fails. In the code, `executor.map` re-raises the first failure and cancels the calls that have not started, so later descriptions may never be posted. The classifier is a function here, so only the batch's outcome is modelled, not which calls were made.
- Tokenising, the forward pass and the softmax: floating-point ML library calls. The probabilities are a given `seq<real>`, and `id2label` is taken as a sequence indexed by class. Scores summing to 1 is not modelled.
- Library exception texts: the text of a download failure is whatever the hub reports. The `IndexError` and empty-`max` messages are placeholders.
- The order of pandas group keys (sorted by query): the indicator is a `map`. Its order only matters to the display, which sorts anyway.
- `sort_values` uses an unstable sort by default. The model sorts stably, and only order and permutation are proved, not the order of ties.
- `SentimentAnalysis.SentimentAnalyzerNotebook.Cleaning` requires that no labels exist yet. `FeatureEngineering` requires a complete table. Both are only called from `main`, which guarantees those states.
- Streamlit rendering: HTML, `st.status`, `time.sleep`, `st.rerun`, messages, `:.2f` formatting, and the "Remover todos" button (app/components/main.py:63-65), which only rebinds a local attribute.
- PredictRoute.Route: requests are modelled one at a time, so "loaded at most once" and the permanent failure hold only for requests that come one after another. The route is a plain `def` run on a thread pool, and the code has no lock. Two concurrent first requests can both see no loader (api/routes/predict.py:30), and each creates and loads one. A request arriving while the first `load_model` runs sees a loader that is set but not loaded, and gets the not-loaded 500.
- api/app.py, app/app.py and the pydantic shapes in api/models/requests.py are bootstrap and schema only. The shapes are mirrored as datatypes.
- api/test/predict_test.py expects "label"/"confidence" keys and a 422 status for empty text. The route produces neither, so neither is modelled.

## Findings

| source | as written | input that shows it | evidently intended | confidence | as-written member | corrected member |
|---|---|---|---|---|---|---|
| app/components/main.py:114 | the band thresholds ±0.5 and ±1.5, which are on the scale of one weight, are applied to `sentiment_weight`, which is 100 × the mean weight | one Positive and three Neutral labels give the index 25 (mean 0.25, nearest Neutral), shown "Muito Positivo"; all-Positive labels give 100, also "Muito Positivo" | band the mean (index / 100), so the label is the weight nearest the mean | medium, not executed | `Display.AsWrittenBandOverstates` | `Display.CorrectedResultLinesSpec` |
