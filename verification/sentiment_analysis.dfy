/**
 * The notebook's sentiment-index pipeline: collect one batch of news per
 * query, clean the table, attach one predicted label per description, map
 * every label to a fixed weight and report, per query, 100 times the mean
 * weight of its rows.
 *
 * The news search and the sentiment service are network calls; they are the
 * parameters `fetch` and `classify`.
 */
module SentimentAnalysis {
  import opened Wrappers

  /** One record as the news search returns it: a dictionary from field name
      to value, where a key may be absent or present with no value. */
  type RawArticle = map<string, Option<string>>

  /** The settings the news search is created with. */
  datatype SearchSettings = SearchSettings(period: string, lang: string, encode: string)

  /** The settings of a notebook built without arguments. */
  const DefaultSettings := SearchSettings("7d", "pt", "utf-8")

  /** The news search: settings and query to the records found. */
  type NewsSource = (SearchSettings, string) -> seq<RawArticle>

  /** The sentiment service: a text to its predicted label; None when the
      reply carries no `predicted_label` (the lookup raises KeyError). */
  type Classifier = string -> Option<string>

  /** The columns kept from every search result, besides the query tag. */
  const RequiredFields: seq<string> := ["title", "desc", "img", "date"]

  /** One row of the news table. A column value may be missing (NaN). */
  datatype Article = Article(
    title: Option<string>,
    desc: Option<string>,
    img: Option<string>,
    date: Option<string>,
    query: string)

  datatype CollectError =
    | MissingColumns(query: string)  // selecting the required columns raised KeyError
    | NothingToConcatenate           // concatenating an empty list of tables raised ValueError

  datatype PipelineError =
    | CollectFailed(cause: CollectError)
    | ClassificationFailed           // some description got no label

  // ---------------------------------------------------------------------------
  // Collection

  /** The value of field `f` in a record; missing when the key is absent. */
  function Cell(rec: RawArticle, f: string): Option<string>
  {
    if f in rec then rec[f] else None
  }

  /** A table built from these records has column `f` when some record has the key. */
  predicate HasColumn(recs: seq<RawArticle>, f: string)
  {
    exists k :: 0 <= k < |recs| && f in recs[k]
  }

  predicate HasRequiredColumns(recs: seq<RawArticle>)
  {
    forall i :: 0 <= i < |RequiredFields| ==> HasColumn(recs, RequiredFields[i])
  }

  /** A row: the required columns of one record, tagged with its query. */
  function Project(rec: RawArticle, query: string): Article
  {
    Article(Cell(rec, "title"), Cell(rec, "desc"), Cell(rec, "img"), Cell(rec, "date"), query)
  }

  /** The table of one query's search results. */
  function Batch(query: string, recs: seq<RawArticle>): (r: Result<seq<Article>, CollectError>)
    ensures r.Success? <==> HasRequiredColumns(recs)
    ensures r.Failure? ==> r.error == MissingColumns(query)
    ensures r.Success? ==> |r.value| == |recs| > 0
    ensures r.Success? ==> forall k :: 0 <= k < |r.value| ==> r.value[k].query == query
  {
    if HasRequiredColumns(recs) then
      assert HasColumn(recs, RequiredFields[0]);
      Success(seq(|recs|, k requires 0 <= k < |recs| => Project(recs[k], query)))
    else
      Failure(MissingColumns(query))
  }

  /** The per-query tables, in query order; the first query whose results
      lack a required column stops the collection. */
  function Batches(settings: SearchSettings, queries: seq<string>, fetch: NewsSource)
    : Result<seq<seq<Article>>, CollectError>
  {
    if queries == [] then Success([])
    else
      var prior := Batches(settings, queries[..|queries| - 1], fetch);
      var q := queries[|queries| - 1];
      var batch := Batch(q, fetch(settings, q));
      if prior.Failure? then prior
      else if batch.Failure? then Failure(batch.error)
      else Success(prior.value + [batch.value])
  }

  /** Concatenation of tables, first to last. */
  function Flatten(tables: seq<seq<Article>>): seq<Article>
  {
    if tables == [] then [] else Flatten(tables[..|tables| - 1]) + tables[|tables| - 1]
  }

  /** The collected news table. */
  function Collect(settings: SearchSettings, queries: seq<string>, fetch: NewsSource)
    : Result<seq<Article>, CollectError>
  {
    match Batches(settings, queries, fetch)
    case Failure(e) => Failure(e)
    case Success(tables) =>
      if tables == [] then Failure(NothingToConcatenate) else Success(Flatten(tables))
  }

  /** The number of records the search returns over all queries. */
  function RecordCount(settings: SearchSettings, queries: seq<string>, fetch: NewsSource): nat
  {
    if queries == [] then 0
    else
      RecordCount(settings, queries[..|queries| - 1], fetch)
        + |fetch(settings, queries[|queries| - 1])|
  }

  /** Collection succeeds exactly when every query's results have the required
      columns, and then table i is the table of query i. */
  lemma {:induction false} BatchesPerQuery(settings: SearchSettings, queries: seq<string>, fetch: NewsSource)
    ensures Batches(settings, queries, fetch).Success?
        <==> forall i :: 0 <= i < |queries| ==> Batch(queries[i], fetch(settings, queries[i])).Success?
    ensures Batches(settings, queries, fetch).Success? ==>
              var tables := Batches(settings, queries, fetch).value;
              && |tables| == |queries|
              && forall i :: 0 <= i < |queries| ==>
                   Batch(queries[i], fetch(settings, queries[i])) == Success(tables[i])
  {
    if queries != [] {
      var init := queries[..|queries| - 1];
      BatchesPerQuery(settings, init, fetch);
      assert forall i :: 0 <= i < |init| ==> init[i] == queries[i];
    }
  }

  /** Once the tables of a prefix of the queries fail, the collection fails with that error. */
  lemma {:induction false} BatchesFailureStops(settings: SearchSettings, queries: seq<string>, fetch: NewsSource, n: nat)
    requires n <= |queries|
    requires Batches(settings, queries[..n], fetch).Failure?
    ensures Batches(settings, queries, fetch) == Batches(settings, queries[..n], fetch)
    decreases |queries| - n
  {
    if n < |queries| {
      assert queries[..n + 1][..n] == queries[..n];
      BatchesFailureStops(settings, queries, fetch, n + 1);
    } else {
      assert queries[..n] == queries;
    }
  }

  lemma {:induction false} BatchesRows(settings: SearchSettings, queries: seq<string>, fetch: NewsSource)
    requires Batches(settings, queries, fetch).Success?
    ensures |Flatten(Batches(settings, queries, fetch).value)| == RecordCount(settings, queries, fetch)
    ensures forall a :: a in Flatten(Batches(settings, queries, fetch).value) ==> a.query in queries
  {
    if queries != [] {
      var init := queries[..|queries| - 1];
      var q := queries[|queries| - 1];
      BatchesRows(settings, init, fetch);
      var tables := Batches(settings, queries, fetch).value;
      var prior := Batches(settings, init, fetch).value;
      assert tables == prior + [Batch(q, fetch(settings, q)).value];
      assert tables[..|tables| - 1] == prior;
      assert Flatten(tables) == Flatten(prior) + Batch(q, fetch(settings, q)).value;
      forall a | a in Flatten(tables) ensures a.query in queries {
        if a in Flatten(prior) {
          assert a.query in init;
        } else {
          assert a.query == q;
        }
      }
    }
  }

  /** The collected table is the concatenation of the per-query tables in
      query order; it holds one row per returned record, every row tagged with
      a query that was asked for; collection fails when no query is given. */
  lemma CollectShape(settings: SearchSettings, queries: seq<string>, fetch: NewsSource)
    ensures queries == [] ==> Collect(settings, queries, fetch) == Failure(NothingToConcatenate)
    ensures Collect(settings, queries, fetch).Success? ==>
              var rows := Collect(settings, queries, fetch).value;
              var tables := Batches(settings, queries, fetch).value;
              && rows == Flatten(tables)
              && |tables| == |queries|
              && (forall i :: 0 <= i < |queries| ==>
                   Batch(queries[i], fetch(settings, queries[i])) == Success(tables[i]))
              && |rows| == RecordCount(settings, queries, fetch)
              && (forall k :: 0 <= k < |rows| ==> rows[k].query in queries)
  {
    BatchesPerQuery(settings, queries, fetch);
    if Batches(settings, queries, fetch).Success? {
      BatchesRows(settings, queries, fetch);
    }
  }

  // ---------------------------------------------------------------------------
  // Cleaning

  /** No column of the row is missing (dropna keeps it). */
  predicate Complete(a: Article)
  {
    a.title.Some? && a.desc.Some? && a.img.Some? && a.date.Some?
  }

  /** The rows with no missing column, in table order. */
  function DropIncomplete(rows: seq<Article>): seq<Article>
  {
    if rows == [] then []
    else
      var last := rows[|rows| - 1];
      DropIncomplete(rows[..|rows| - 1]) + (if Complete(last) then [last] else [])
  }

  /** The first occurrence of every row, in order (drop_duplicates with keep='first'). */
  function FirstOccurrences(s: seq<Article>): seq<Article>
  {
    if s == [] then []
    else
      var init, last := s[..|s| - 1], s[|s| - 1];
      if last in init then FirstOccurrences(init) else FirstOccurrences(init) + [last]
  }

  /** The cleaned table. */
  function Clean(rows: seq<Article>): seq<Article>
  {
    FirstOccurrences(DropIncomplete(rows))
  }

  lemma DropIncompleteSnoc(p: seq<Article>, x: Article)
    ensures DropIncomplete(p + [x]) == DropIncomplete(p) + (if Complete(x) then [x] else [])
  {
    assert (p + [x])[..|p|] == p;
  }

  lemma FirstOccurrencesSnoc(s: seq<Article>, x: Article)
    ensures FirstOccurrences(s + [x]) == if x in s then FirstOccurrences(s) else FirstOccurrences(s) + [x]
  {
    assert (s + [x])[..|s|] == s;
  }

  /** Dropping incomplete rows keeps exactly the complete ones. */
  lemma {:induction false} DropIncompleteMembers(rows: seq<Article>)
    ensures forall a :: a in DropIncomplete(rows) <==> a in rows && Complete(a)
  {
    if rows != [] {
      var p, x := rows[..|rows| - 1], rows[|rows| - 1];
      DropIncompleteMembers(p);
      assert rows == p + [x];
      DropIncompleteSnoc(p, x);
    }
  }

  /** Keeping first occurrences loses no value and leaves no repeat. */
  lemma {:induction false} FirstOccurrencesMembers(s: seq<Article>)
    ensures forall a :: a in FirstOccurrences(s) <==> a in s
    ensures NoDuplicates(FirstOccurrences(s))
  {
    if s != [] {
      var p, x := s[..|s| - 1], s[|s| - 1];
      FirstOccurrencesMembers(p);
      assert s == p + [x];
      FirstOccurrencesSnoc(p, x);
    }
  }

  /** The cleaned table holds exactly the complete rows of the input, each once. */
  lemma CleanMembers(rows: seq<Article>)
    ensures forall a :: a in Clean(rows) <==> a in rows && Complete(a)
    ensures forall k :: 0 <= k < |Clean(rows)| ==> Complete(Clean(rows)[k])
    ensures NoDuplicates(Clean(rows))
  {
    DropIncompleteMembers(rows);
    FirstOccurrencesMembers(DropIncomplete(rows));
    forall k | 0 <= k < |Clean(rows)| ensures Complete(Clean(rows)[k]) {
      assert Clean(rows)[k] in Clean(rows);
    }
  }

  /** Row i survives cleaning: it is complete and no earlier row equals it. */
  predicate Survives(rows: seq<Article>, i: nat)
    requires i < |rows|
  {
    Complete(rows[i]) && rows[i] !in rows[..i]
  }

  /** The surviving rows among the first n, in table order. */
  function Survivors(rows: seq<Article>, n: nat): seq<Article>
    requires n <= |rows|
  {
    if n == 0 then []
    else Survivors(rows, n - 1) + (if Survives(rows, n - 1) then [rows[n - 1]] else [])
  }

  lemma {:induction false} CleanPrefix(rows: seq<Article>, n: nat)
    requires n <= |rows|
    ensures Clean(rows[..n]) == Survivors(rows, n)
  {
    if n > 0 {
      CleanPrefix(rows, n - 1);
      var p, x := rows[..n - 1], rows[n - 1];
      assert rows[..n] == p + [x];
      assert Survivors(rows, n) == Clean(p) + (if Survives(rows, n - 1) then [x] else []);
      DropIncompleteSnoc(p, x);
      if Complete(x) {
        FirstOccurrencesSnoc(DropIncomplete(p), x);
        DropIncompleteMembers(p);
        assert Survives(rows, n - 1) <==> x !in DropIncomplete(p);
        assert Clean(p + [x]) == FirstOccurrences(DropIncomplete(p) + [x]);
      } else {
        assert DropIncomplete(p) + [] == DropIncomplete(p);
        assert Clean(p + [x]) == Clean(p);
      }
    }
  }

  /** Cleaning keeps exactly the complete rows that are the first of their
      duplicates, in their original relative order. */
  lemma CleanKeepsFirstCompleteRows(rows: seq<Article>)
    ensures Clean(rows) == Survivors(rows, |rows|)
  {
    CleanPrefix(rows, |rows|);
    assert rows[..|rows|] == rows;
  }

  lemma {:induction false} DropIncompleteOfComplete(rows: seq<Article>)
    requires forall k :: 0 <= k < |rows| ==> Complete(rows[k])
    ensures DropIncomplete(rows) == rows
  {
    if rows != [] {
      DropIncompleteOfComplete(rows[..|rows| - 1]);
    }
  }

  lemma {:induction false} FirstOccurrencesOfDistinct(s: seq<Article>)
    requires NoDuplicates(s)
    ensures FirstOccurrences(s) == s
  {
    if s != [] {
      var init := s[..|s| - 1];
      FirstOccurrencesOfDistinct(init);
      assert s[|s| - 1] !in init;
    }
  }

  /** Cleaning a cleaned table changes nothing. */
  lemma CleanIdempotent(rows: seq<Article>)
    ensures Clean(Clean(rows)) == Clean(rows)
  {
    CleanMembers(rows);
    DropIncompleteOfComplete(Clean(rows));
    FirstOccurrencesOfDistinct(Clean(rows));
  }

  // ---------------------------------------------------------------------------
  // Labels

  /** The `desc` column of a table with no missing values. */
  function Descriptions(rows: seq<Article>): (r: seq<string>)
    requires forall k :: 0 <= k < |rows| ==> Complete(rows[k])
    ensures |r| == |rows|
    ensures forall k :: 0 <= k < |rows| ==> rows[k].desc == Some(r[k])
  {
    if rows == [] then []
    else
      assert Complete(rows[|rows| - 1]);
      Descriptions(rows[..|rows| - 1]) + [rows[|rows| - 1].desc.value]
  }

  /** The labels of the descriptions in order; None when some call yielded no label. */
  function ClassifyAll(descs: seq<string>, classify: Classifier): (r: Option<seq<string>>)
    ensures r.Some? ==> |r.value| == |descs|
  {
    if descs == [] then Some([])
    else
      var prior := ClassifyAll(descs[..|descs| - 1], classify);
      var answer := classify(descs[|descs| - 1]);
      if prior.Some? && answer.Some? then Some(prior.value + [answer.value]) else None
  }

  /** Labelling succeeds exactly when every description gets a label, and then
      label i is the label of description i. */
  lemma {:induction false} ClassifyAllPointwise(descs: seq<string>, classify: Classifier)
    ensures ClassifyAll(descs, classify).Some?
        <==> forall k :: 0 <= k < |descs| ==> classify(descs[k]).Some?
    ensures ClassifyAll(descs, classify).Some? ==>
              var labels := ClassifyAll(descs, classify).value;
              && |labels| == |descs|
              && forall k :: 0 <= k < |descs| ==> classify(descs[k]) == Some(labels[k])
  {
    if descs != [] {
      var init := descs[..|descs| - 1];
      ClassifyAllPointwise(init, classify);
      assert forall k :: 0 <= k < |init| ==> init[k] == descs[k];
    }
  }

  // ---------------------------------------------------------------------------
  // Weights and the per-query index

  /** The label scale, most negative first. */
  const LabelScale: seq<string> := ["Very Negative", "Negative", "Neutral", "Positive", "Very Positive"]

  /** The weight of a label; an unrecognised label maps to NaN (None). */
  function Weight(name: string): (w: Option<int>)
    ensures w.Some? <==> name in LabelScale
    ensures forall k :: 0 <= k < |LabelScale| && LabelScale[k] == name ==> w == Some(k - 2)
  {
    if name == "Very Positive" then Some(2)
    else if name == "Positive" then Some(1)
    else if name == "Neutral" then Some(0)
    else if name == "Negative" then Some(-1)
    else if name == "Very Negative" then Some(-2)
    else None
  }

  /** The `sentiment_weight` column: a label on the scale gets its offset
      from "Neutral", any other label NaN. */
  function MapWeights(labels: seq<string>): (r: seq<Option<int>>)
    ensures |r| == |labels|
    ensures forall k :: 0 <= k < |labels| ==> (r[k].Some? <==> labels[k] in LabelScale)
    ensures forall k, i :: 0 <= k < |labels| && 0 <= i < |LabelScale| && LabelScale[i] == labels[k] ==>
              r[k] == Some(i - 2)
    ensures WeightsInRange(r)
  {
    seq(|labels|, k requires 0 <= k < |labels| => Weight(labels[k]))
  }

  function Sum(ws: seq<int>): int
  {
    if ws == [] then 0 else Sum(ws[..|ws| - 1]) + ws[|ws| - 1]
  }

  predicate InWeightRange(ws: seq<int>)
  {
    forall k :: 0 <= k < |ws| ==> -2 <= ws[k] <= 2
  }

  lemma {:induction false} SumBounds(ws: seq<int>)
    requires InWeightRange(ws)
    ensures -2 * |ws| <= Sum(ws) <= 2 * |ws|
  {
    if ws != [] {
      SumBounds(ws[..|ws| - 1]);
    }
  }

  /** The non-NaN weights of the rows of query `q`, in table order. */
  function GroupWeights(rows: seq<Article>, weights: seq<Option<int>>, q: string): (ws: seq<int>)
    requires |weights| == |rows|
    ensures |ws| <= |rows|
  {
    if rows == [] then []
    else
      var n := |rows| - 1;
      GroupWeights(rows[..n], weights[..n], q)
        + (if rows[n].query == q && weights[n].Some? then [weights[n].value] else [])
  }

  /** Every recognised weight lies in [-2, 2]. */
  predicate WeightsInRange(weights: seq<Option<int>>)
  {
    forall k :: 0 <= k < |weights| && weights[k].Some? ==> -2 <= weights[k].value <= 2
  }

  lemma {:induction false} GroupWeightsInRange(rows: seq<Article>, weights: seq<Option<int>>, q: string)
    requires |weights| == |rows| && WeightsInRange(weights)
    ensures InWeightRange(GroupWeights(rows, weights, q))
  {
    if rows != [] {
      var n := |rows| - 1;
      GroupWeightsInRange(rows[..n], weights[..n], q);
    }
  }

  /** A group's index: 100 times the mean of its weights; NaN (None) when it has none. */
  function ScaledMean(ws: seq<int>): (m: Option<real>)
    ensures m.None? <==> ws == []
    ensures m.Some? ==> m.value * (|ws| as real) == 100.0 * (Sum(ws) as real)
  {
    if ws == [] then None else Some(100.0 * (Sum(ws) as real) / (|ws| as real))
  }

  lemma NonPositiveFactor(a: real, n: real)
    requires n > 0.0 && a * n <= 0.0
    ensures a <= 0.0
  {
  }

  /** An index of weights in [-2, 2] lies in [-200, 200]. */
  lemma ScaledMeanBounds(ws: seq<int>)
    requires InWeightRange(ws)
    ensures ScaledMean(ws).Some? ==> -200.0 <= ScaledMean(ws).value <= 200.0
  {
    if ws != [] {
      SumBounds(ws);
      var n, s, m := |ws| as real, Sum(ws) as real, ScaledMean(ws).value;
      assert m * n == 100.0 * s;
      assert (m - 200.0) * n == 100.0 * s - 200.0 * n;
      NonPositiveFactor(m - 200.0, n);
      assert (-200.0 - m) * n == -200.0 * n - 100.0 * s;
      NonPositiveFactor(-200.0 - m, n);
    }
  }

  /** The queries that have rows in the table. */
  function Queries(rows: seq<Article>): set<string>
  {
    set k | 0 <= k < |rows| :: rows[k].query
  }

  /** The sentiment indicator: one entry per query present in the table. */
  function GroupMeans(rows: seq<Article>, weights: seq<Option<int>>): map<string, Option<real>>
    requires |weights| == |rows|
  {
    map q | q in Queries(rows) :: ScaledMean(GroupWeights(rows, weights, q))
  }

  /** The indicator has an entry for exactly the queries of the table. */
  lemma GroupMeansKeys(rows: seq<Article>, weights: seq<Option<int>>, q: string)
    requires |weights| == |rows|
    ensures q in GroupMeans(rows, weights) <==> exists k :: 0 <= k < |rows| && rows[k].query == q
  {
    if exists k :: 0 <= k < |rows| && rows[k].query == q {
      var k :| 0 <= k < |rows| && rows[k].query == q;
      assert q in Queries(rows);
    }
  }

  /** Each entry is the scaled mean of its group's recognised weights (NaN
      only when no row of the group has a recognised label) and lies in
      [-200, 200]. */
  lemma GroupMeansValues(rows: seq<Article>, weights: seq<Option<int>>, q: string)
    requires |weights| == |rows| && WeightsInRange(weights)
    requires q in GroupMeans(rows, weights)
    ensures GroupMeans(rows, weights)[q] == ScaledMean(GroupWeights(rows, weights, q))
    ensures GroupMeans(rows, weights)[q].Some? ==> -200.0 <= GroupMeans(rows, weights)[q].value <= 200.0
  {
    var ws := GroupWeights(rows, weights, q);
    GroupWeightsInRange(rows, weights, q);
    ScaledMeanBounds(ws);
  }

  /** The worked example: labels Very Positive, Positive and Negative for one
      query give the index 200/3. */
  lemma ThreeLabelExample(a: Article, b: Article, c: Article)
    requires a.query == b.query == c.query == "Bitcoin"
    ensures MapWeights(["Very Positive", "Positive", "Negative"]) == [Some(2), Some(1), Some(-1)]
    ensures GroupMeans([a, b, c], [Some(2), Some(1), Some(-1)]) == map["Bitcoin" := Some(200.0 / 3.0)]
  {
    var rows, weights := [a, b, c], [Some(2), Some(1), Some(-1)];
    ThreeLabelGroup(a, b, c);
    assert Sum([2, 1, -1]) == 2 by {
      assert [2, 1, -1][..2] == [2, 1] && [2, 1][..1] == [2] && [2][..0] == [];
    }
    assert ScaledMean([2, 1, -1]) == Some(200.0 / 3.0);
    assert Queries(rows) == {"Bitcoin"} by {
      assert rows[0].query == "Bitcoin";
    }
    var m := GroupMeans(rows, weights);
    assert m.Keys == {"Bitcoin"};
    assert m["Bitcoin"] == Some(200.0 / 3.0);
  }

  lemma ThreeLabelGroup(a: Article, b: Article, c: Article)
    requires a.query == b.query == c.query == "Bitcoin"
    ensures GroupWeights([a, b, c], [Some(2), Some(1), Some(-1)], "Bitcoin") == [2, 1, -1]
  {
    assert [a, b, c][..2] == [a, b] && [Some(2), Some(1), Some(-1)][..2] == [Some(2), Some(1)];
    assert [a, b][..1] == [a] && [Some(2), Some(1)][..1] == [Some(2)];
    assert [a][..0] == [] && [Some(2)][..0] == [];
    assert GroupWeights([a], [Some(2)], "Bitcoin") == [2];
    assert GroupWeights([a, b], [Some(2), Some(1)], "Bitcoin") == [2, 1];
  }

  // ---------------------------------------------------------------------------
  // The whole run

  /** What a run computes: collect, clean, label the cleaned descriptions, aggregate. */
  function Pipeline(settings: SearchSettings, queries: seq<string>, fetch: NewsSource, classify: Classifier)
    : Result<map<string, Option<real>>, PipelineError>
  {
    match Collect(settings, queries, fetch)
    case Failure(e) => Failure(CollectFailed(e))
    case Success(collected) =>
      var cleaned := Clean(collected);
      CleanMembers(collected);
      match ClassifyAll(Descriptions(cleaned), classify)
      case None => Failure(ClassificationFailed)
      case Some(labels) => Success(GroupMeans(cleaned, MapWeights(labels)))
  }

  /** A successful run labels the cleaned table and aggregates it. */
  lemma PipelineSteps(settings: SearchSettings, queries: seq<string>, fetch: NewsSource, classify: Classifier)
    requires Pipeline(settings, queries, fetch, classify).Success?
    ensures Collect(settings, queries, fetch).Success?
    ensures var cleaned := Clean(Collect(settings, queries, fetch).value);
            && (forall k :: 0 <= k < |cleaned| ==> Complete(cleaned[k]))
            && ClassifyAll(Descriptions(cleaned), classify).Some?
            && var labels := ClassifyAll(Descriptions(cleaned), classify).value;
               && |labels| == |cleaned|
               && Pipeline(settings, queries, fetch, classify).value == GroupMeans(cleaned, MapWeights(labels))
  {
    CleanMembers(Collect(settings, queries, fetch).value);
  }

  /** A query keeps a row through cleaning exactly when it had a complete row. */
  lemma CleanQueries(rows: seq<Article>, q: string)
    ensures (exists k :: 0 <= k < |Clean(rows)| && Clean(rows)[k].query == q)
        <==> (exists k :: 0 <= k < |rows| && rows[k].query == q && Complete(rows[k]))
  {
    var cleaned := Clean(rows);
    CleanMembers(rows);
    if exists k :: 0 <= k < |cleaned| && cleaned[k].query == q {
      var k :| 0 <= k < |cleaned| && cleaned[k].query == q;
      assert cleaned[k] in rows;
      var j :| 0 <= j < |rows| && rows[j] == cleaned[k];
    }
    if exists k :: 0 <= k < |rows| && rows[k].query == q && Complete(rows[k]) {
      var k :| 0 <= k < |rows| && rows[k].query == q && Complete(rows[k]);
      assert rows[k] in cleaned;
      var j :| 0 <= j < |cleaned| && cleaned[j] == rows[k];
    }
  }

  /** A successful run reports exactly the queries that have a complete row in
      the collected table: a query whose rows all had a missing column gets no
      entry. */
  lemma PipelineKeys(settings: SearchSettings, queries: seq<string>, fetch: NewsSource, classify: Classifier, q: string)
    requires Pipeline(settings, queries, fetch, classify).Success?
    ensures Collect(settings, queries, fetch).Success?
    ensures var collected := Collect(settings, queries, fetch).value;
            (q in Pipeline(settings, queries, fetch, classify).value)
              <==> (exists k :: 0 <= k < |collected| && collected[k].query == q && Complete(collected[k]))
  {
    PipelineSteps(settings, queries, fetch, classify);
    var collected := Collect(settings, queries, fetch).value;
    var cleaned := Clean(collected);
    var labels := ClassifyAll(Descriptions(cleaned), classify).value;
    GroupMeansKeys(cleaned, MapWeights(labels), q);
    CleanQueries(collected, q);
  }

  /** Every query a successful run reports was asked for, and its index is NaN
      or lies in [-200, 200]. */
  lemma PipelineValues(settings: SearchSettings, queries: seq<string>, fetch: NewsSource, classify: Classifier, q: string)
    requires Pipeline(settings, queries, fetch, classify).Success?
    requires q in Pipeline(settings, queries, fetch, classify).value
    ensures q in queries
    ensures var m := Pipeline(settings, queries, fetch, classify).value[q];
            m.Some? ==> -200.0 <= m.value <= 200.0
  {
    PipelineSteps(settings, queries, fetch, classify);
    PipelineKeys(settings, queries, fetch, classify, q);
    CollectShape(settings, queries, fetch);
    var collected := Collect(settings, queries, fetch).value;
    var cleaned := Clean(collected);
    var labels := ClassifyAll(Descriptions(cleaned), classify).value;
    GroupMeansValues(cleaned, MapWeights(labels), q);
  }

  // ---------------------------------------------------------------------------
  // The analyser object

  class SentimentAnalyzerNotebook {
    const settings: SearchSettings
    /** The news table, once collected. */
    var newsDf: Option<seq<Article>>
    /** The `sentiment` column of the news table, once attached. */
    var sentiment: Option<seq<string>>
    /** The `sentiment_weight` column of the news table, once attached. */
    var sentimentWeight: Option<seq<Option<int>>>
    /** The per-query index, once computed. */
    var sentimentIndicator: Option<map<string, Option<real>>>

    constructor(settings: SearchSettings)
      ensures this.settings == settings
      ensures newsDf == None && sentiment == None && sentimentWeight == None
      ensures sentimentIndicator == None
    {
      this.settings := settings;
      newsDf, sentiment, sentimentWeight := None, None, None;
      sentimentIndicator := None;
    }

    /** Searches every query in turn and concatenates the tables. */
    method GetNewsDf(queries: seq<string>, fetch: NewsSource) returns (err: Option<CollectError>)
      modifies this
      ensures Collect(settings, queries, fetch).Success? ==>
                && err == None
                && newsDf == Some(Collect(settings, queries, fetch).value)
                && sentiment == None && sentimentWeight == None
      ensures Collect(settings, queries, fetch).Failure? ==>
                && err == Some(Collect(settings, queries, fetch).error)
                && newsDf == old(newsDf)
                && sentiment == old(sentiment) && sentimentWeight == old(sentimentWeight)
      ensures sentimentIndicator == old(sentimentIndicator)
    {
      var newsData: seq<seq<Article>> := [];
      for i := 0 to |queries|
        invariant Batches(settings, queries[..i], fetch) == Success(newsData)
      {
        var query := queries[i];
        assert queries[..i + 1][..i] == queries[..i];
        var table := Batch(query, fetch(settings, query));
        if table.Failure? {
          BatchesFailureStops(settings, queries, fetch, i + 1);
          return Some(table.error);
        }
        newsData := newsData + [table.value];
      }
      assert queries[..|queries|] == queries;
      if newsData == [] {
        return Some(NothingToConcatenate);
      }
      newsDf := Some(Flatten(newsData));
      sentiment, sentimentWeight := None, None;
      err := None;
    }

    /** Drops the rows with a missing column, then every repeat of an earlier row. */
    method Cleaning()
      requires newsDf.Some? && sentiment.None? && sentimentWeight.None?
      modifies this
      ensures newsDf == Some(Clean(old(newsDf.value)))
      ensures sentiment == None && sentimentWeight == None
      ensures sentimentIndicator == old(sentimentIndicator)
    {
      var rows := newsDf.value;
      var complete: seq<Article> := [];
      for i := 0 to |rows|
        invariant complete == DropIncomplete(rows[..i])
        invariant unchanged(this)
      {
        assert rows[..i + 1][..i] == rows[..i];
        if Complete(rows[i]) {
          complete := complete + [rows[i]];
        }
      }
      assert rows[..|rows|] == rows;
      var unique: seq<Article> := [];
      for i := 0 to |complete|
        invariant unique == FirstOccurrences(complete[..i])
        invariant unchanged(this)
      {
        assert complete[..i + 1][..i] == complete[..i];
        FirstOccurrencesMembers(complete[..i]);
        if complete[i] !in unique {
          unique := unique + [complete[i]];
        }
      }
      assert complete[..|complete|] == complete;
      newsDf := Some(unique);
    }

    /** Sends the descriptions to the sentiment service, in order; the batch
        fails when any reply had no label. Calls after the first failure may
        be cancelled by the pool; since the service is a function here, only
        the batch's outcome is modelled, not which calls were made. */
    static method PooledSentimentPrediction(descs: seq<string>, classify: Classifier)
      returns (labels: Option<seq<string>>)
      ensures labels == ClassifyAll(descs, classify)
      ensures labels.Some? <==> forall k :: 0 <= k < |descs| ==> classify(descs[k]).Some?
      ensures labels.Some? ==>
                && |labels.value| == |descs|
                && forall k :: 0 <= k < |descs| ==> classify(descs[k]) == Some(labels.value[k])
    {
      labels := Some([]);
      for i := 0 to |descs|
        invariant labels == ClassifyAll(descs[..i], classify)
      {
        assert descs[..i + 1][..i] == descs[..i];
        var answer := classify(descs[i]);
        if labels.Some? && answer.Some? {
          labels := Some(labels.value + [answer.value]);
        } else {
          labels := None;
        }
      }
      assert descs[..|descs|] == descs;
      ClassifyAllPointwise(descs, classify);
    }

    /** Attaches the predicted label of each row's description as the `sentiment` column. */
    method FeatureEngineering(classify: Classifier) returns (ok: bool)
      requires newsDf.Some?
      requires forall k :: 0 <= k < |newsDf.value| ==> Complete(newsDf.value[k])
      modifies this
      ensures newsDf == old(newsDf) && sentimentWeight == old(sentimentWeight)
      ensures var labels := ClassifyAll(Descriptions(old(newsDf.value)), classify);
              && ok == labels.Some?
              && sentiment == (if ok then labels else old(sentiment))
      ensures sentimentIndicator == old(sentimentIndicator)
    {
      var descs := Descriptions(newsDf.value);
      var labels := PooledSentimentPrediction(descs, classify);
      if labels.None? {
        return false;
      }
      sentiment := labels;
      ok := true;
    }

    /** Maps labels to weights and stores 100 times the mean weight per query. */
    method SetSentimentIndicator()
      requires newsDf.Some? && sentiment.Some? && |sentiment.value| == |newsDf.value|
      modifies this
      ensures newsDf == old(newsDf) && sentiment == old(sentiment)
      ensures sentimentWeight == Some(MapWeights(old(sentiment.value)))
      ensures sentimentIndicator == Some(GroupMeans(old(newsDf.value), MapWeights(old(sentiment.value))))
    {
      sentimentWeight := Some(MapWeights(sentiment.value));
      sentimentIndicator := Some(GroupMeans(newsDf.value, sentimentWeight.value));
    }

    /** Runs collection, cleaning, labelling and aggregation, in that order.
        A failed search leaves the notebook as it was; a failed labelling
        leaves the cleaned table without its `sentiment` column; a success
        leaves the cleaned table with both columns and the indicator. */
    method Run(queries: seq<string>, fetch: NewsSource, classify: Classifier)
      returns (err: Option<PipelineError>)
      modifies this
      ensures Pipeline(settings, queries, fetch, classify).Success? ==>
                && err == None
                && sentimentIndicator == Some(Pipeline(settings, queries, fetch, classify).value)
                && newsDf == Some(Clean(Collect(settings, queries, fetch).value))
                && sentiment.Some? && |sentiment.value| == |newsDf.value|
                && (forall k :: 0 <= k < |newsDf.value| ==>
                      newsDf.value[k].desc.Some? && classify(newsDf.value[k].desc.value) == Some(sentiment.value[k]))
                && sentimentWeight == Some(MapWeights(sentiment.value))
      ensures Pipeline(settings, queries, fetch, classify).Failure? ==>
                && err == Some(Pipeline(settings, queries, fetch, classify).error)
                && sentimentIndicator == old(sentimentIndicator)
      ensures Collect(settings, queries, fetch).Failure? ==>
                && newsDf == old(newsDf)
                && sentiment == old(sentiment) && sentimentWeight == old(sentimentWeight)
      ensures Pipeline(settings, queries, fetch, classify) == Failure(ClassificationFailed) ==>
                && Collect(settings, queries, fetch).Success?
                && newsDf == Some(Clean(Collect(settings, queries, fetch).value))
                && sentiment == None && sentimentWeight == None
    {
      var collectErr := GetNewsDf(queries, fetch);
      if collectErr.Some? {
        return Some(CollectFailed(collectErr.value));
      }
      Cleaning();
      CleanMembers(Collect(settings, queries, fetch).value);
      var ok := FeatureEngineering(classify);
      if !ok {
        return Some(ClassificationFailed);
      }
      ClassifyAllPointwise(Descriptions(newsDf.value), classify);
      SetSentimentIndicator();
      err := None;
    }
  }

  /** A notebook built with the default settings and run on the given
      queries: its indicator is the pipeline's result for the last seven
      days of Portuguese news. */
  method AnalyzeWithDefaults(queries: seq<string>, fetch: NewsSource, classify: Classifier)
    returns (indicator: Result<map<string, Option<real>>, PipelineError>)
    ensures indicator == Pipeline(SearchSettings("7d", "pt", "utf-8"), queries, fetch, classify)
  {
    var analyzer := new SentimentAnalyzerNotebook(DefaultSettings);
    var err := analyzer.Run(queries, fetch, classify);
    if err.Some? {
      indicator := Failure(err.value);
    } else {
      indicator := Success(analyzer.sentimentIndicator.value);
    }
  }
}
