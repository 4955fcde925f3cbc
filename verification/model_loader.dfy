/**
 * The sentiment model loader of the prediction service: which pretrained
 * model it uses, the three artefacts it loads one after the other, and how a
 * prediction is assembled from the model's class probabilities.
 *
 * Downloading artefacts and running the network are calls into the ML
 * library; they are the parameters `hub` and `infer`.
 */
module ModelLoading {
  import opened Wrappers

  /** The models the loader can be created with. */
  datatype ModelSelection = TwitterRoberta | MultilingualBert {
    function Identifier(): string
    {
      match this
      case TwitterRoberta => "cardiffnlp/twitter-roberta-base-sentiment-latest"
      case MultilingualBert => "tabularisai/multilingual-sentiment-analysis"
    }
  }

  /** Loaded artefacts; their contents belong to the ML library. */
  datatype Tokenizer = Tokenizer(name: string)
  datatype SequenceClassifier = SequenceClassifier(name: string)

  /** The model configuration: `id2label[i]` is the label of class i. */
  datatype Config = Config(id2label: seq<string>)

  /** The model hub: each download yields the artefact or fails with the text
      of the library's exception. */
  datatype Hub = Hub(
    tokenizer: string -> Result<Tokenizer, string>,
    config: string -> Result<Config, string>,
    model: string -> Result<SequenceClassifier, string>)

  /** Tokenising, the forward pass and the softmax: the class probabilities
      of the (single) input text. */
  type Inference = (Tokenizer, SequenceClassifier, string) -> seq<real>

  const LoadFailurePrefix := "Failed to load model: "
  const NotLoadedMessage := "Model and tokenizer must be loaded before prediction."

  /** Why `predict` raised. */
  datatype PredictError =
    | NotLoaded              // RuntimeError from the guard
    | ScoreIndexOutOfRange   // fewer probabilities than labels (IndexError)
    | NoScores               // no labels: max() of an empty dict (ValueError)
  {
    function Message(): string
    {
      match this
      case NotLoaded => NotLoadedMessage
      case ScoreIndexOutOfRange => "index out of bounds"
      case NoScores => "max() arg is an empty sequence"
    }
  }

  /** A Python dict from label to score, in insertion order. */
  type ScoreTable = seq<(string, real)>

  /** The result record of `predict`. */
  datatype Prediction = Prediction(text: string, predictedLabel: string, scores: ScoreTable)

  // ---------------------------------------------------------------------------
  // The label -> score dictionary

  function Keys(d: ScoreTable): (r: seq<string>)
    ensures |r| == |d| && forall i :: 0 <= i < |d| ==> r[i] == d[i].0
  {
    if d == [] then [] else [d[0].0] + Keys(d[1..])
  }

  /** `d[k] = v`: the value of an existing key is replaced where it stands, a new key goes last. */
  function Put(d: ScoreTable, k: string, v: real): ScoreTable
  {
    if d == [] then [(k, v)]
    else if d[0].0 == k then [(k, v)] + d[1..]
    else [d[0]] + Put(d[1..], k, v)
  }

  /** After `d[k] = v` the keys are the old ones plus k. */
  lemma {:induction false} PutMembers(d: ScoreTable, k: string, v: real)
    ensures forall x :: x in Keys(Put(d, k, v)) <==> x in Keys(d) || x == k
  {
    if d != [] {
      PutMembers(d[1..], k, v);
      assert Keys(d) == [d[0].0] + Keys(d[1..]);
      if d[0].0 == k {
        assert Keys(Put(d, k, v)) == Keys(d);
      } else {
        assert Keys(Put(d, k, v)) == [d[0].0] + Keys(Put(d[1..], k, v));
      }
    }
  }

  /** `d[k] = v` adds an entry exactly when k is a new key. */
  lemma {:induction false} PutLength(d: ScoreTable, k: string, v: real)
    ensures |Put(d, k, v)| == if k in Keys(d) then |d| else |d| + 1
  {
    if d != [] {
      PutLength(d[1..], k, v);
      assert Keys(d) == [d[0].0] + Keys(d[1..]);
    }
  }

  /** `d[k] = v` keeps every key once. */
  lemma {:induction false} PutUnique(d: ScoreTable, k: string, v: real)
    requires NoDuplicates(Keys(d))
    ensures NoDuplicates(Keys(Put(d, k, v)))
  {
    if d != [] {
      var tail := Keys(d[1..]);
      assert Keys(d) == [d[0].0] + tail;
      assert NoDuplicates(tail) by {
        forall i, j | 0 <= i < j < |tail| ensures tail[i] != tail[j] {
          assert Keys(d)[i + 1] != Keys(d)[j + 1];
        }
      }
      if d[0].0 == k {
        assert Keys(Put(d, k, v)) == Keys(d);
      } else {
        PutUnique(d[1..], k, v);
        PutMembers(d[1..], k, v);
        var rest := Keys(Put(d[1..], k, v));
        assert Keys(Put(d, k, v)) == [d[0].0] + rest;
        assert d[0].0 !in rest;
        forall i, j | 0 <= i < j < |[d[0].0] + rest|
          ensures ([d[0].0] + rest)[i] != ([d[0].0] + rest)[j]
        {
          if i == 0 {
            assert ([d[0].0] + rest)[j] == rest[j - 1];
          }
        }
      }
    }
  }

  /** `d[k] = v` for a new key appends the pair. */
  lemma {:induction false} PutNewKey(d: ScoreTable, k: string, v: real)
    requires k !in Keys(d)
    ensures Put(d, k, v) == d + [(k, v)]
  {
    if d != [] {
      assert Keys(d) == [d[0].0] + Keys(d[1..]);
      PutNewKey(d[1..], k, v);
      assert d == [d[0]] + d[1..];
    }
  }

  /** `{labels[i]: probs[i] for i in range(len(labels))}`. */
  function ScoreTableOf(labels: seq<string>, probs: seq<real>): ScoreTable
    requires |labels| <= |probs|
  {
    if labels == [] then []
    else
      var n := |labels| - 1;
      Put(ScoreTableOf(labels[..n], probs), labels[n], probs[n])
  }

  /** The dictionary has each label as a key exactly once, and no other key. */
  lemma {:induction false} ScoreTableKeys(labels: seq<string>, probs: seq<real>)
    requires |labels| <= |probs|
    ensures NoDuplicates(Keys(ScoreTableOf(labels, probs)))
    ensures forall x :: x in Keys(ScoreTableOf(labels, probs)) <==> x in labels
    ensures |ScoreTableOf(labels, probs)| <= |labels|
    ensures labels != [] ==> |ScoreTableOf(labels, probs)| > 0
  {
    if labels != [] {
      var n := |labels| - 1;
      ScoreTableKeys(labels[..n], probs);
      var prior := ScoreTableOf(labels[..n], probs);
      PutMembers(prior, labels[n], probs[n]);
      PutLength(prior, labels[n], probs[n]);
      PutUnique(prior, labels[n], probs[n]);
      assert labels == labels[..n] + [labels[n]];
    }
  }

  /** With distinct labels, entry i of the dictionary is label i with the probability of class i. */
  lemma {:induction false} ScoreTableOfDistinct(labels: seq<string>, probs: seq<real>)
    requires |labels| <= |probs| && NoDuplicates(labels)
    ensures |ScoreTableOf(labels, probs)| == |labels|
    ensures forall i :: 0 <= i < |labels| ==> ScoreTableOf(labels, probs)[i] == (labels[i], probs[i])
  {
    if labels != [] {
      var n := |labels| - 1;
      ScoreTableOfDistinct(labels[..n], probs);
      var prior := ScoreTableOf(labels[..n], probs);
      forall i | 0 <= i < |prior| ensures Keys(prior)[i] != labels[n] {
        assert Keys(prior)[i] == labels[i];
      }
      PutNewKey(prior, labels[n], probs[n]);
    }
  }

  /** `max(d, key=d.get)`: the position of the first entry with the largest score. */
  function MaxIndex(d: ScoreTable): (k: nat)
    requires |d| > 0
    ensures k < |d|
    ensures forall i :: 0 <= i < |d| ==> d[i].1 <= d[k].1
    ensures forall i :: 0 <= i < k ==> d[i].1 < d[k].1
  {
    if |d| == 1 then 0
    else
      var j := MaxIndex(d[..|d| - 1]);
      if d[|d| - 1].1 > d[j].1 then |d| - 1 else j
  }

  /** `predict` over the loaded configuration and the probabilities of the text. */
  function PredictFrom(text: string, labels: seq<string>, probs: seq<real>): Result<Prediction, PredictError>
  {
    if |probs| < |labels| then Failure(ScoreIndexOutOfRange)
    else
      var table := ScoreTableOf(labels, probs);
      if table == [] then Failure(NoScores)
      else Success(Prediction(text, table[MaxIndex(table)].0, table))
  }

  /** A prediction fails exactly when there are fewer probabilities than labels
      or no label; otherwise it echoes the text, its scores have each label once,
      and the predicted label is a key whose score is at least every other score. */
  lemma PredictionIsArgMax(text: string, labels: seq<string>, probs: seq<real>)
    ensures PredictFrom(text, labels, probs).Failure? <==> |probs| < |labels| || labels == []
    ensures PredictFrom(text, labels, probs).Success? ==>
              var p := PredictFrom(text, labels, probs).value;
              && p.text == text
              && NoDuplicates(Keys(p.scores))
              && (forall x :: x in Keys(p.scores) <==> x in labels)
              && p.predictedLabel in labels
              && exists k :: 0 <= k < |p.scores| && p.scores[k].0 == p.predictedLabel
                   && forall i :: 0 <= i < |p.scores| ==> p.scores[i].1 <= p.scores[k].1
  {
    if |labels| <= |probs| {
      ScoreTableKeys(labels, probs);
      var table := ScoreTableOf(labels, probs);
      if table != [] {
        var k := MaxIndex(table);
        assert Keys(table)[k] == table[k].0;
      }
    }
  }

  /** With distinct labels, the scores are the class probabilities in class
      order, and the predicted label is that of the lowest class index with
      the largest probability. */
  lemma PredictionTieBreak(text: string, labels: seq<string>, probs: seq<real>)
    requires 0 < |labels| <= |probs| && NoDuplicates(labels)
    ensures PredictFrom(text, labels, probs).Success?
    ensures var p := PredictFrom(text, labels, probs).value;
            && |p.scores| == |labels|
            && (forall i :: 0 <= i < |labels| ==> p.scores[i] == (labels[i], probs[i]))
            && exists k :: 0 <= k < |labels| && p.predictedLabel == labels[k]
                 && (forall i :: 0 <= i < |labels| ==> probs[i] <= probs[k])
                 && (forall i :: 0 <= i < k ==> probs[i] < probs[k])
  {
    ScoreTableOfDistinct(labels, probs);
    var table := ScoreTableOf(labels, probs);
    var k := MaxIndex(table);
    assert table[k] == (labels[k], probs[k]);
    forall i | 0 <= i < |labels| ensures probs[i] <= probs[k] {
      assert table[i] == (labels[i], probs[i]);
    }
    forall i | 0 <= i < k ensures probs[i] < probs[k] {
      assert table[i] == (labels[i], probs[i]);
    }
  }

  // ---------------------------------------------------------------------------
  // Loading

  /** The exception `load_model` raises, if any: the first download that fails. */
  function LoadError(hub: Hub, name: string): Option<string>
  {
    if hub.tokenizer(name).Failure? then Some(LoadFailurePrefix + hub.tokenizer(name).error)
    else if hub.config(name).Failure? then Some(LoadFailurePrefix + hub.config(name).error)
    else if hub.model(name).Failure? then Some(LoadFailurePrefix + hub.model(name).error)
    else None
  }

  class ModelLoader {
    const modelName: string
    var tokenizer: Option<Tokenizer>
    var config: Option<Config>
    var model: Option<SequenceClassifier>

    /** The model is only ever set after the configuration. */
    ghost predicate Valid()
      reads this
    {
      model.Some? ==> config.Some?
    }

    /** The guard of `predict`. */
    predicate Loaded()
      reads this
    {
      tokenizer.Some? && model.Some?
    }

    /** The three artefacts are the ones the hub serves for this model. */
    predicate LoadedFrom(hub: Hub)
      reads this
    {
      && LoadError(hub, modelName).None?
      && tokenizer == Some(hub.tokenizer(modelName).value)
      && config == Some(hub.config(modelName).value)
      && model == Some(hub.model(modelName).value)
    }

    constructor(selection: ModelSelection)
      ensures Valid() && !Loaded()
      ensures modelName == selection.Identifier()
      ensures tokenizer == None && config == None && model == None
    {
      modelName := selection.Identifier();
      tokenizer, config, model := None, None, None;
    }

    /** Downloads the tokenizer, the configuration and the model, in that
        order; the first failure stops the load and leaves the later fields as
        they were. */
    method LoadModel(hub: Hub) returns (err: Option<string>)
      requires Valid()
      modifies this
      ensures Valid()
      ensures err == LoadError(hub, modelName)
      ensures err.None? ==> Loaded() && LoadedFrom(hub)
      ensures tokenizer == if hub.tokenizer(modelName).Success? then Some(hub.tokenizer(modelName).value) else old(tokenizer)
      ensures config == if hub.tokenizer(modelName).Success? && hub.config(modelName).Success?
                        then Some(hub.config(modelName).value) else old(config)
      ensures model == if err.None? then Some(hub.model(modelName).value) else old(model)
    {
      var t := hub.tokenizer(modelName);
      if t.Failure? {
        return Some(LoadFailurePrefix + t.error);
      }
      tokenizer := Some(t.value);
      var c := hub.config(modelName);
      if c.Failure? {
        return Some(LoadFailurePrefix + c.error);
      }
      config := Some(c.value);
      var m := hub.model(modelName);
      if m.Failure? {
        return Some(LoadFailurePrefix + m.error);
      }
      model := Some(m.value);
      err := None;
    }

    /** Classifies a text with the loaded model. */
    function Predict(text: string, infer: Inference): (r: Result<Prediction, PredictError>)
      reads this
      requires Valid()
      ensures r.Failure? <==> !Loaded() || PredictFrom(text, config.value.id2label, infer(tokenizer.value, model.value, text)).Failure?
      ensures !Loaded() ==> r == Failure(NotLoaded)
      ensures r.Success? ==> r.value.text == text
    {
      if !Loaded() then Failure(NotLoaded)
      else
        PredictionIsArgMax(text, config.value.id2label, infer(tokenizer.value, model.value, text));
        PredictFrom(text, config.value.id2label, infer(tokenizer.value, model.value, text))
    }
  }
}
