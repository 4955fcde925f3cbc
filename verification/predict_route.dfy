/**
 * The `/analyze/` route of the prediction service. A module-level loader is
 * created and loaded by the first request and reused by every later one,
 * whether or not that first load succeeded.
 */
module PredictRoute {
  import opened Wrappers
  import opened ModelLoading

  datatype SentimentRequest = SentimentRequest(text: string)
  datatype SentimentResponse = SentimentResponse(text: string, predictedLabel: string, scores: ScoreTable)

  /** How a request ends. */
  datatype Outcome =
    | Ok(response: SentimentResponse)
    | HttpError(status: int, detail: string)   // the HTTPException raised by the route body
    | Unhandled(message: string)               // an exception raised outside the route body's try

  const DetailPrefix := "Model loading failed: "

  /** The route body's handling of what `predict` returned or raised. */
  function Respond(p: Result<Prediction, PredictError>): (o: Outcome)
    ensures o.Ok? <==> p.Success?
    ensures o.Ok? ==> && o.response.text == p.value.text
                      && o.response.predictedLabel == p.value.predictedLabel
                      && o.response.scores == p.value.scores
    ensures !o.Ok? ==> o.HttpError? && o.status == 500 && DetailPrefix <= o.detail
    ensures p == Failure(NotLoaded) ==> o.detail == DetailPrefix + NotLoadedMessage
  {
    match p
    case Success(v) => Ok(SentimentResponse(v.text, v.predictedLabel, v.scores))
    case Failure(e) => HttpError(500, DetailPrefix + e.Message())
  }

  /** The model the route creates: the loader's default. */
  const DefaultModel := MultilingualBert.Identifier()

  class Route {
    /** The module-global `sentiment_model`: null until the first request. */
    var sentimentModel: ModelLoader?
    /** How many times `load_model` has been called. */
    ghost var loadAttempts: nat

    ghost predicate Valid()
      reads this, sentimentModel
    {
      && loadAttempts <= 1
      && (sentimentModel == null <==> loadAttempts == 0)
      && (sentimentModel != null ==> sentimentModel.Valid() && sentimentModel.modelName == DefaultModel)
    }

    constructor()
      ensures Valid() && sentimentModel == null
    {
      sentimentModel := null;
      loadAttempts := 0;
    }

    /** `ensure_model_loaded`: on the first request, creates the loader,
        publishes it, then loads it; a load error propagates. Later requests
        neither create nor load anything. */
    method EnsureModelLoaded(hub: Hub) returns (err: Option<string>)
      requires Valid()
      modifies this
      ensures Valid() && sentimentModel != null
      ensures old(sentimentModel) != null ==>
                sentimentModel == old(sentimentModel) && loadAttempts == old(loadAttempts) && err == None
      ensures old(sentimentModel) == null ==>
                && fresh(sentimentModel) && loadAttempts == 1
                && err == LoadError(hub, DefaultModel)
                && (err.None? <==> sentimentModel.Loaded())
                && (err.None? ==> sentimentModel.LoadedFrom(hub))
    {
      if sentimentModel == null {
        var loader := new ModelLoader(MultilingualBert);
        sentimentModel := loader;
        loadAttempts := loadAttempts + 1;
        err := loader.LoadModel(hub);
      } else {
        err := None;
      }
    }

    /** `analyze_sentiment` behind its decorator. */
    method AnalyzeSentiment(request: SentimentRequest, hub: Hub, infer: Inference) returns (out: Outcome)
      requires Valid()
      modifies this
      ensures Valid() && sentimentModel != null
      ensures old(sentimentModel) != null ==>
                && sentimentModel == old(sentimentModel) && loadAttempts == old(loadAttempts)
                && out == Respond(old(sentimentModel.Predict(request.text, infer)))
      ensures old(sentimentModel) != null && !old(sentimentModel.Loaded()) ==>
                out == HttpError(500, DetailPrefix + NotLoadedMessage)
      ensures old(sentimentModel) == null ==>
                && fresh(sentimentModel) && loadAttempts == 1
                && out == (if LoadError(hub, DefaultModel).Some? then Unhandled(LoadError(hub, DefaultModel).value)
                           else Respond(sentimentModel.Predict(request.text, infer)))
                && (sentimentModel.Loaded() <==> LoadError(hub, DefaultModel).None?)
                && (LoadError(hub, DefaultModel).None? ==> sentimentModel.LoadedFrom(hub))
    {
      var err := EnsureModelLoaded(hub);
      if err.Some? {
        return Unhandled(err.value);
      }
      var prediction := sentimentModel.Predict(request.text, infer);
      out := Respond(prediction);
    }
  }

  /** A first load that fails is never retried: the first request ends with
      the load error, and any later request, even one whose hub would now
      succeed, gets the 500 of an unloaded model. */
  method FailedFirstLoadIsPermanent(first: SentimentRequest, second: SentimentRequest,
                                    brokenHub: Hub, workingHub: Hub, infer: Inference)
    returns (firstOutcome: Outcome, secondOutcome: Outcome)
    requires LoadError(brokenHub, DefaultModel).Some?
    ensures firstOutcome == Unhandled(LoadError(brokenHub, DefaultModel).value)
    ensures secondOutcome == HttpError(500, DetailPrefix + NotLoadedMessage)
  {
    var route := new Route();
    firstOutcome := route.AnalyzeSentiment(first, brokenHub, infer);
    secondOutcome := route.AnalyzeSentiment(second, workingHub, infer);
  }

  /** After a successful first load, every request is answered from the same
      loaded model and the hub is not consulted again. */
  method LoadedModelIsReused(first: SentimentRequest, second: SentimentRequest,
                             hub: Hub, laterHub: Hub, infer: Inference)
    returns (firstOutcome: Outcome, secondOutcome: Outcome)
    requires LoadError(hub, DefaultModel).None?
    ensures firstOutcome == Respond(PredictFrom(first.text, hub.config(DefaultModel).value.id2label,
                                                infer(hub.tokenizer(DefaultModel).value, hub.model(DefaultModel).value, first.text)))
    ensures secondOutcome == Respond(PredictFrom(second.text, hub.config(DefaultModel).value.id2label,
                                                 infer(hub.tokenizer(DefaultModel).value, hub.model(DefaultModel).value, second.text)))
  {
    var route := new Route();
    firstOutcome := route.AnalyzeSentiment(first, hub, infer);
    secondOutcome := route.AnalyzeSentiment(second, laterHub, infer);
  }
}
