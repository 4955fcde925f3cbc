/**
 * The dashboard's result and topic panels: the five sentiment bands with
 * their colours, the ordering of the result rows, and the removal of a single
 * topic from the session's list.
 */
module Display {
  import opened Wrappers
  import opened TopicInput
  import SentimentAnalysis

  // ---------------------------------------------------------------------------
  // Banding

  /** The five bands the dashboard shows. */
  datatype Band = MuitoNegativo | Negativo | Neutro | Positivo | MuitoPositivo
  {
    function Text(): string
    {
      match this
      case MuitoNegativo => "Muito Negativo"
      case Negativo => "Negativo"
      case Neutro => "Neutro"
      case Positivo => "Positivo"
      case MuitoPositivo => "Muito Positivo"
    }

    function Colour(): string
    {
      match this
      case MuitoNegativo => "#3182CE"
      case Negativo => "#4299E1"
      case Neutro => "#F6AD55"
      case Positivo => "#48BB78"
      case MuitoPositivo => "#38A169"
    }

    /** The label weight the band stands for, from -2 to 2. */
    function Rank(): int
    {
      match this
      case MuitoNegativo => -2
      case Negativo => -1
      case Neutro => 0
      case Positivo => 1
      case MuitoPositivo => 2
    }
  }

  /** The threshold chain of the result panel. A score is a number or NaN
      (`None`); NaN fails every comparison and so falls through to the last band. */
  function BandOf(score: Option<real>): (b: Band)
    ensures score.None? ==> b == MuitoPositivo
    ensures score.Some? ==>
              && (b == MuitoNegativo <==> score.value <= -1.5)
              && (b == Negativo <==> -1.5 < score.value <= -0.5)
              && (b == Neutro <==> -0.5 < score.value < 0.5)
              && (b == Positivo <==> 0.5 <= score.value < 1.5)
              && (b == MuitoPositivo <==> 1.5 <= score.value)
  {
    if score.Some? && score.value <= -1.5 then MuitoNegativo
    else if score.Some? && score.value <= -0.5 then Negativo
    else if score.Some? && score.value < 0.5 then Neutro
    else if score.Some? && score.value < 1.5 then Positivo
    else MuitoPositivo
  }

  /** The (label, colour) pair the panel shows for a score. */
  function SentimentLabel(score: Option<real>): (string, string)
  {
    (BandOf(score).Text(), BandOf(score).Colour())
  }

  /** A higher score never gets a more negative band. */
  lemma BandingMonotone(x: real, y: real)
    requires x <= y
    ensures BandOf(Some(x)).Rank() <= BandOf(Some(y)).Rank()
  {
  }

  /** Every score gets one of the five fixed (label, colour) pairs, so a
      label always comes with the same colour and different labels with
      different colours. */
  lemma LabelColourPairing(x: Option<real>, y: Option<real>)
    ensures SentimentLabel(x) in {("Muito Negativo", "#3182CE"), ("Negativo", "#4299E1"), ("Neutro", "#F6AD55"),
                                  ("Positivo", "#48BB78"), ("Muito Positivo", "#38A169")}
    ensures SentimentLabel(x).0 == SentimentLabel(y).0 <==> SentimentLabel(x).1 == SentimentLabel(y).1
  {
    var a, b := BandOf(x), BandOf(y);
    if a != b {
      BandsDistinct(a, b);
    }
  }

  /** Different bands have different labels and different colours. */
  lemma BandsDistinct(a: Band, b: Band)
    requires a != b
    ensures a.Text() != b.Text() && a.Colour() != b.Colour()
  {
    assert |a.Text()| != |b.Text()| || (|a.Text()| >= 8 && a.Text()[|a.Text()| - 8] != b.Text()[|b.Text()| - 8]);
    assert a.Colour()[1] != b.Colour()[1] || a.Colour()[2] != b.Colour()[2];
  }

  // ---------------------------------------------------------------------------
  // The banded value: as written and corrected

  /** The panel bands a row's `sentiment_weight`, which is the group mean
      scaled by 100, against the thresholds of a single weight. The scaled
      index of one "Positive" and three "Neutral" labels is 25: its mean
      0.25 bands as "Neutro", but the panel shows "Muito Positivo". A topic
      whose every label is "Positive" is shown as "Muito Positivo" too. */
  lemma AsWrittenBandOverstates()
    ensures SentimentAnalysis.ScaledMean([1, 0, 0, 0]) == Some(25.0)
    ensures BandOf(Some(25.0)) == MuitoPositivo && BandOf(Some(0.25)) == Neutro
    ensures SentimentAnalysis.ScaledMean([1]) == Some(100.0)
    ensures BandOf(Some(100.0)).Rank() != 1 && BandOf(Some(1.0)) == Positivo
  {
    assert SentimentAnalysis.Sum([1, 0, 0, 0]) == 1 by {
      assert [1, 0, 0, 0][..3] == [1, 0, 0];
      assert [1, 0, 0][..2] == [1, 0];
      assert [1, 0][..1] == [1];
    }
    assert SentimentAnalysis.Sum([1]) == 1 by {
      assert [1][..0] == [];
    }
  }

  /** The band of the mean itself: the index divided back by 100. */
  function CorrectedBand(index: Option<real>): Band
  {
    match index
    case None => BandOf(None)
    case Some(v) => BandOf(Some(v / 100.0))
  }

  /** For an index in [-200, 200] the band's weight is the one nearest the mean. */
  lemma CorrectedBandIsNearest(index: real)
    requires -200.0 <= index <= 200.0
    ensures -0.5 <= index / 100.0 - CorrectedBand(Some(index)).Rank() as real <= 0.5
  {
  }

  /** For the index of a group of weights, the corrected band's weight is
      within 0.5 of the group's mean weight. */
  lemma CorrectedBandOfGroup(ws: seq<int>)
    requires ws != [] && SentimentAnalysis.InWeightRange(ws)
    ensures var mean := (SentimentAnalysis.Sum(ws) as real) / (|ws| as real);
            -0.5 <= mean - CorrectedBand(SentimentAnalysis.ScaledMean(ws)).Rank() as real <= 0.5
  {
    SentimentAnalysis.ScaledMeanBounds(ws);
    var n, s := |ws| as real, SentimentAnalysis.Sum(ws) as real;
    var v := 100.0 * s / n;
    assert SentimentAnalysis.ScaledMean(ws) == Some(v);
    HundredthOfQuotient(s, n);
    CorrectedBandIsNearest(v);
  }

  /** A group whose labels all agree is shown with that label's band. */
  lemma CorrectedBandOfUnanimousGroup(ws: seq<int>)
    requires ws != [] && SentimentAnalysis.InWeightRange(ws)
    requires forall k :: 0 <= k < |ws| ==> ws[k] == ws[0]
    ensures CorrectedBand(SentimentAnalysis.ScaledMean(ws)).Rank() == ws[0]
  {
    CorrectedBandOfGroup(ws);
    UniformSum(ws);
    var n, w := |ws| as real, ws[0] as real;
    assert SentimentAnalysis.Sum(ws) as real == w * n;
    QuotientOfMultiple(w, n);
  }

  lemma HundredthOfQuotient(s: real, n: real)
    requires n > 0.0
    ensures (100.0 * s / n) / 100.0 == s / n
  {
  }

  lemma QuotientOfMultiple(w: real, n: real)
    requires n > 0.0
    ensures (w * n) / n == w
  {
  }

  lemma {:induction false} UniformSum(ws: seq<int>)
    requires ws != [] && forall k :: 0 <= k < |ws| ==> ws[k] == ws[0]
    ensures SentimentAnalysis.Sum(ws) == ws[0] * |ws|
  {
    if |ws| > 1 {
      var init := ws[..|ws| - 1];
      assert init[0] == ws[0];
      UniformSum(init);
    } else {
      assert ws[..0] == [];
    }
  }

  // ---------------------------------------------------------------------------
  // Ordering the result rows

  /** A row of the indicator table: a query and its index (NaN as `None`). */
  datatype IndicatorRow = IndicatorRow(query: string, weight: Option<real>)

  /** The descending order with NaN placed last. */
  predicate AtLeast(x: Option<real>, y: Option<real>)
  {
    y.None? || (x.Some? && x.value >= y.value)
  }

  predicate Descending(rows: seq<IndicatorRow>)
  {
    forall i, j :: 0 <= i < j < |rows| ==> AtLeast(rows[i].weight, rows[j].weight)
  }

  function Insert(r: IndicatorRow, rows: seq<IndicatorRow>): seq<IndicatorRow>
  {
    if rows == [] then [r]
    else if AtLeast(r.weight, rows[0].weight) then [r] + rows
    else [rows[0]] + Insert(r, rows[1..])
  }

  /** `sort_values(by="sentiment_weight", ascending=False)`. */
  function SortDescending(rows: seq<IndicatorRow>): seq<IndicatorRow>
  {
    if rows == [] then [] else Insert(rows[0], SortDescending(rows[1..]))
  }

  /** Every row of `rows` is at or below `w`. */
  predicate Heads(w: Option<real>, rows: seq<IndicatorRow>)
  {
    forall k :: 0 <= k < |rows| ==> AtLeast(w, rows[k].weight)
  }

  lemma ConsDescending(h: IndicatorRow, rows: seq<IndicatorRow>)
    requires Descending(rows) && Heads(h.weight, rows)
    ensures Descending([h] + rows)
  {
    forall i, j | 0 <= i < j < |[h] + rows|
      ensures AtLeast(([h] + rows)[i].weight, ([h] + rows)[j].weight)
    {
      if i > 0 {
        assert ([h] + rows)[i] == rows[i - 1];
      }
      assert ([h] + rows)[j] == rows[j - 1];
    }
  }

  lemma {:induction false} InsertHeads(w: Option<real>, r: IndicatorRow, rows: seq<IndicatorRow>)
    requires Heads(w, rows) && AtLeast(w, r.weight)
    ensures Heads(w, Insert(r, rows))
  {
    if rows != [] && !AtLeast(r.weight, rows[0].weight) {
      var t := Insert(r, rows[1..]);
      assert Heads(w, rows[1..]) by {
        forall k | 0 <= k < |rows[1..]| ensures AtLeast(w, rows[1..][k].weight) {
          assert rows[1..][k] == rows[k + 1];
        }
      }
      InsertHeads(w, r, rows[1..]);
      forall k | 0 <= k < |[rows[0]] + t| ensures AtLeast(w, ([rows[0]] + t)[k].weight) {
        if k > 0 {
          assert ([rows[0]] + t)[k] == t[k - 1];
        }
      }
    } else if rows != [] {
      forall k | 0 <= k < |[r] + rows| ensures AtLeast(w, ([r] + rows)[k].weight) {
        if k > 0 {
          assert ([r] + rows)[k] == rows[k - 1];
        }
      }
    }
  }

  lemma {:induction false} InsertKeepsOrder(r: IndicatorRow, rows: seq<IndicatorRow>)
    requires Descending(rows)
    ensures Descending(Insert(r, rows))
  {
    if rows == [] {
    } else if AtLeast(r.weight, rows[0].weight) {
      assert Heads(r.weight, rows) by {
        forall k | 0 <= k < |rows| ensures AtLeast(r.weight, rows[k].weight) {
          if k > 0 {
            assert AtLeast(rows[0].weight, rows[k].weight);
          }
        }
      }
      ConsDescending(r, rows);
    } else {
      var tail := rows[1..];
      assert Descending(tail) by {
        forall i, j | 0 <= i < j < |tail| ensures AtLeast(tail[i].weight, tail[j].weight) {
          assert tail[i] == rows[i + 1] && tail[j] == rows[j + 1];
        }
      }
      assert Heads(rows[0].weight, tail) by {
        forall k | 0 <= k < |tail| ensures AtLeast(rows[0].weight, tail[k].weight) {
          assert tail[k] == rows[k + 1];
        }
      }
      InsertKeepsOrder(r, tail);
      InsertHeads(rows[0].weight, r, tail);
      ConsDescending(rows[0], Insert(r, tail));
    }
  }

  lemma {:induction false} InsertCount(r: IndicatorRow, rows: seq<IndicatorRow>)
    ensures multiset(Insert(r, rows)) == multiset(rows) + multiset{r}
  {
    if rows != [] && !AtLeast(r.weight, rows[0].weight) {
      InsertCount(r, rows[1..]);
      assert rows == [rows[0]] + rows[1..];
    }
  }

  /** The result rows come out in non-increasing index order with NaN last,
      and are the same rows as before, each as often as before. */
  lemma {:induction false} SortDescendingSpec(rows: seq<IndicatorRow>)
    ensures Descending(SortDescending(rows))
    ensures multiset(SortDescending(rows)) == multiset(rows)
  {
    if rows != [] {
      SortDescendingSpec(rows[1..]);
      InsertKeepsOrder(rows[0], SortDescending(rows[1..]));
      InsertCount(rows[0], SortDescending(rows[1..]));
      assert rows == [rows[0]] + rows[1..];
    }
  }

  /** One rendered line of the result panel. */
  datatype ResultLine = ResultLine(query: string, text: string, colour: string, weight: Option<real>)

  /** A panel: the rows sorted by index, each shown with the band `band` gives its index. */
  function Panel(rows: seq<IndicatorRow>, band: Option<real> -> Band): seq<ResultLine>
  {
    var sorted := SortDescending(rows);
    seq(|sorted|, i requires 0 <= i < |sorted| =>
      ResultLine(sorted[i].query, band(sorted[i].weight).Text(),
                 band(sorted[i].weight).Colour(), sorted[i].weight))
  }

  /** Any panel shows every row once, highest index first, each line with
      the label and colour of the band its index is given. */
  lemma PanelSpec(rows: seq<IndicatorRow>, band: Option<real> -> Band)
    ensures |Panel(rows, band)| == |rows|
    ensures forall i, j :: 0 <= i < j < |rows| ==>
              AtLeast(Panel(rows, band)[i].weight, Panel(rows, band)[j].weight)
    ensures multiset(seq(|rows|, i requires 0 <= i < |rows| =>
                         IndicatorRow(Panel(rows, band)[i].query, Panel(rows, band)[i].weight))) == multiset(rows)
    ensures forall i :: 0 <= i < |rows| ==>
              && Panel(rows, band)[i].text == band(Panel(rows, band)[i].weight).Text()
              && Panel(rows, band)[i].colour == band(Panel(rows, band)[i].weight).Colour()
  {
    SortDescendingSpec(rows);
    var sorted := SortDescending(rows);
    assert |sorted| == |rows| by {
      assert |multiset(sorted)| == |multiset(rows)|;
    }
    var back := seq(|rows|, i requires 0 <= i < |rows| =>
                      IndicatorRow(Panel(rows, band)[i].query, Panel(rows, band)[i].weight));
    assert back == sorted;
  }

  /** The result panel as the dashboard draws it: each line banded on the
      raw `sentiment_weight`. */
  function ResultLines(rows: seq<IndicatorRow>): seq<ResultLine>
  {
    Panel(rows, BandOf)
  }

  /** The dashboard's panel shows every row once, highest index first, each
      with the band of its raw index against the ±0.5 / ±1.5 thresholds. */
  lemma ResultLinesSpec(rows: seq<IndicatorRow>)
    ensures |ResultLines(rows)| == |rows|
    ensures forall i, j :: 0 <= i < j < |rows| ==>
              AtLeast(ResultLines(rows)[i].weight, ResultLines(rows)[j].weight)
    ensures multiset(seq(|rows|, i requires 0 <= i < |rows| =>
                         IndicatorRow(ResultLines(rows)[i].query, ResultLines(rows)[i].weight))) == multiset(rows)
    ensures forall i :: 0 <= i < |rows| ==>
              && ResultLines(rows)[i].text == BandOf(ResultLines(rows)[i].weight).Text()
              && ResultLines(rows)[i].colour == BandOf(ResultLines(rows)[i].weight).Colour()
  {
    PanelSpec(rows, BandOf);
  }

  /** The result panel with each line banded on its mean weight (index / 100). */
  function CorrectedResultLines(rows: seq<IndicatorRow>): seq<ResultLine>
  {
    Panel(rows, CorrectedBand)
  }

  /** The corrected panel keeps the dashboard's rows and order and shows,
      for every index computed from a group of weights, the band nearest
      that group's mean weight. */
  lemma CorrectedResultLinesSpec(rows: seq<IndicatorRow>)
    ensures |CorrectedResultLines(rows)| == |rows|
    ensures forall i :: 0 <= i < |rows| ==>
              && CorrectedResultLines(rows)[i].query == ResultLines(rows)[i].query
              && CorrectedResultLines(rows)[i].weight == ResultLines(rows)[i].weight
    ensures forall i :: 0 <= i < |rows| ==>
              && CorrectedResultLines(rows)[i].text == CorrectedBand(CorrectedResultLines(rows)[i].weight).Text()
              && CorrectedResultLines(rows)[i].colour == CorrectedBand(CorrectedResultLines(rows)[i].weight).Colour()
    ensures forall i, ws ::
              && 0 <= i < |rows| && ws != [] && SentimentAnalysis.InWeightRange(ws)
              && CorrectedResultLines(rows)[i].weight == SentimentAnalysis.ScaledMean(ws)
              ==>
                var mean := (SentimentAnalysis.Sum(ws) as real) / (|ws| as real);
                -0.5 <= mean - CorrectedBand(CorrectedResultLines(rows)[i].weight).Rank() as real <= 0.5
  {
    PanelSpec(rows, BandOf);
    PanelSpec(rows, CorrectedBand);
    forall ws: seq<int> | ws != [] && SentimentAnalysis.InWeightRange(ws)
      ensures var mean := (SentimentAnalysis.Sum(ws) as real) / (|ws| as real);
              -0.5 <= mean - CorrectedBand(SentimentAnalysis.ScaledMean(ws)).Rank() as real <= 0.5
    {
      CorrectedBandOfGroup(ws);
    }
  }

  /** A topic with the index 25 (one "Positive" and three "Neutral" labels)
      is drawn "Muito Positivo" in green on the dashboard and "Neutro" on the
      corrected panel. */
  lemma PanelOfQuarterIndex()
    ensures ResultLines([IndicatorRow("Bitcoin", Some(25.0))])
              == [ResultLine("Bitcoin", "Muito Positivo", "#38A169", Some(25.0))]
    ensures CorrectedResultLines([IndicatorRow("Bitcoin", Some(25.0))])
              == [ResultLine("Bitcoin", "Neutro", "#F6AD55", Some(25.0))]
  {
    var rows := [IndicatorRow("Bitcoin", Some(25.0))];
    PanelSpec(rows, BandOf);
    PanelSpec(rows, CorrectedBand);
  }

  // ---------------------------------------------------------------------------
  // Removing a topic

  /** The position `list.remove(x)` deletes: that of the first x. */
  function FirstIndex(topics: seq<string>, x: string): (i: nat)
    requires x in topics
    ensures i < |topics| && topics[i] == x
  {
    if topics[0] == x then 0 else 1 + FirstIndex(topics[1..], x)
  }

  /** `list.remove(x)`: drops the first occurrence of x. */
  function RemoveFirst(topics: seq<string>, x: string): seq<string>
    requires x in topics
  {
    var i := FirstIndex(topics, x);
    topics[..i] + topics[i + 1..]
  }

  /** No copy of the topic comes before the one removed, so removal takes out
      the first occurrence and keeps everything else in order. */
  lemma {:induction false} RemoveFirstSpec(topics: seq<string>, x: string) returns (i: nat)
    requires x in topics
    ensures i == FirstIndex(topics, x)
    ensures i < |topics| && topics[i] == x && x !in topics[..i]
    ensures RemoveFirst(topics, x) == topics[..i] + topics[i + 1..]
  {
    i := FirstIndex(topics, x);
    if topics[0] != x {
      var rest := topics[1..];
      var j := RemoveFirstSpec(rest, x);
      assert i == j + 1;
      assert topics[..i] == [topics[0]] + rest[..j];
    }
  }

  /** Removal takes out exactly one copy of the topic. */
  lemma RemoveFirstCount(topics: seq<string>, x: string)
    requires x in topics
    ensures |RemoveFirst(topics, x)| == |topics| - 1
    ensures multiset(RemoveFirst(topics, x)) == multiset(topics) - multiset{x}
  {
    var i := RemoveFirstSpec(topics, x);
    assert topics == topics[..i] + [x] + topics[i + 1..];
  }

  /** Pressing the ❌ button next to a listed topic. */
  method RemoveTopic(session: SessionState, topic: string)
    requires session.hasTopics && topic in session.topics
    modifies session
    ensures session.hasTopics
    ensures session.topics == RemoveFirst(old(session.topics), topic)
  {
    session.topics := RemoveFirst(session.topics, topic);
  }
}
