/**
 * The HTTP endpoints of the backend (backend/main.py) as a state machine over
 * the globals `df_cache`, `trained_model` and `trained_features`. Reading the
 * upload, and everything pandas and scikit-learn do, comes in as parameters.
 * Failures of training and prediction are folded into `{"error": ...}` bodies.
 */
module Server {
  import opened Values
  import opened JsValues
  import opened Training

  /** The `/upload` reply: the JSON body, or the HTTPException FastAPI turns into a status and `detail`. */
  datatype UploadResponse =
    | Uploaded(message: string, columns: seq<string>)
    | HttpError(status: int, detail: string)

  /** The `/train` request body (`TrainRequest`). */
  datatype TrainInput = TrainInput(targetColumn: string, algorithm: string, task: string)

  /** The `/predict` request body (`PredictInput`): `values`, or the legacy `test_input`. */
  datatype PredictInput = PredictInput(values: Option<seq<real>>, testInput: Option<seq<real>>)

  const UploadFirst := "Please upload CSV first"
  const NotTrained := "Model not trained yet"
  const MissingValues := "Missing 'values' (or legacy 'test_input')"

  /** `{"error": message}`. */
  function ErrorBody(message: string): Json
  {
    JObj(map["error" := JStr(message)])
  }

  /** The name under which `/train` repeats the score. */
  function MetricName(task: string): (name: string)
    ensures name == "accuracy" <==> Lower(task) == "classification"
    ensures name == "accuracy" || name == "r2"
  {
    if Lower(task) == "classification" then "accuracy" else "r2"
  }

  function JsonStrings(names: seq<string>): (items: seq<Json>)
    ensures |items| == |names|
    ensures forall i :: 0 <= i < |names| ==> items[i] == JStr(names[i])
  {
    seq(|names|, i requires 0 <= i < |names| => JStr(names[i]))
  }

  /** The body `/train` returns after a successful `train_model`. */
  function TrainedBody(algorithm: string, task: string, score: real, features: seq<string>): (body: Json)
  {
    JObj(map[
      "message" := JStr("Model trained using " + algorithm),
      "metric" := JNum(score),
      "metric_name" := JStr(MetricName(task)),
      MetricName(task) := JNum(score),
      "features" := JArr(JsonStrings(features))])
  }

  /**
   * The success body carries the score under `metric` and again under the
   * name `metric_name` gives, and the feature names as an array of strings.
   */
  lemma TrainedBodyFields(algorithm: string, task: string, score: real, features: seq<string>)
    ensures var body := TrainedBody(algorithm, task, score, features);
      && body.JObj?
      && body.fields.Keys == {"message", "metric", "metric_name", "features", MetricName(task)}
      && body.fields["metric"] == JNum(score)
      && body.fields["metric_name"] == JStr(MetricName(task))
      && body.fields[MetricName(task)] == JNum(score)
      && body.fields["features"] == JArr(JsonStrings(features))
      && "error" !in body.fields
  {
  }

  /** `{"prediction": p}` for a prediction, `{"error": str(e)}` for what it raised. */
  function PredictionBody(r: Result<Json>): Json
  {
    match r
    case Ok(p) => JObj(map["prediction" := p])
    case Err(e) => ErrorBody(e)
  }

  class Backend {
    var dfCache: Option<Frame>
    var trainedModel: Option<Model>
    var trainedFeatures: Option<seq<string>>
    /** The globals of train.py, which `train_model` and `predict` share. */
    const trainer: TrainModule

    /** The process at start-up: nothing cached, nothing trained. */
    constructor ()
      ensures dfCache == None && trainedModel == None && trainedFeatures == None
      ensures fresh(trainer)
      ensures trainer.featureNames == [] && trainer.taskType == "regression" && trainer.labelEncoder == None
    {
      dfCache := None;
      trainedModel := None;
      trainedFeatures := None;
      trainer := new TrainModule();
    }

    /**
     * `POST /upload`. `read` is what reading the file and `pd.read_csv` give.
     * A successful read replaces the cached frame and returns its columns; a
     * failed one keeps the old frame and answers 400 with "Invalid CSV: ...".
     * The trained model and its features are never touched.
     */
    method Upload(read: Result<Frame>) returns (response: UploadResponse)
      modifies this`dfCache
      ensures read.Ok? ==>
                && dfCache == Some(read.value)
                && response == Uploaded("CSV uploaded successfully", read.value.columns)
      ensures read.Err? ==>
                && dfCache == old(dfCache)
                && response == HttpError(400, "Invalid CSV: " + read.error)
    {
      match read {
        case Err(e) =>
          return HttpError(400, "Invalid CSV: " + e);
        case Ok(df) =>
          dfCache := Some(df);
      }
      response := Uploaded("CSV uploaded successfully", dfCache.value.columns);
    }

    /**
     * `POST /train`. Without a cached frame it answers "Please upload CSV
     * first" and changes nothing. Otherwise it runs `train_model`; if that
     * raises, the error text is returned and `trained_model` and
     * `trained_features` keep their values (the tuple assignment never
     * completes), though train.py's globals have changed as TrainModel says.
     */
    method Train(data: TrainInput, lib: Library) returns (body: Json)
      modifies this`trainedModel, this`trainedFeatures, trainer
      ensures dfCache.None? ==>
                && body == ErrorBody(UploadFirst)
                && trainedModel == old(trainedModel) && trainedFeatures == old(trainedFeatures)
                && unchanged(trainer)
      ensures dfCache.Some? ==>
        var df := dfCache.value;
        var outcome := TrainOutcome(df, data.targetColumn, data.algorithm, data.task, lib);
        && trainer.taskType == Lower(data.task)
        && trainer.featureNames == (if data.targetColumn in df.columns then FeatureNames(df.columns, data.targetColumn) else old(trainer.featureNames))
        && trainer.labelEncoder == (if data.targetColumn in df.columns then EncoderFor(Lower(data.task), df, data.targetColumn) else old(trainer.labelEncoder))
        && (outcome.Err? ==>
              && body == ErrorBody(outcome.error)
              && trainedModel == old(trainedModel) && trainedFeatures == old(trainedFeatures))
        && (outcome.Ok? ==>
              && body == TrainedBody(data.algorithm, data.task, outcome.value.score, outcome.value.features)
              && trainedModel == Some(outcome.value.model) && trainedFeatures == Some(outcome.value.features))
    {
      if dfCache.None? {
        return ErrorBody(UploadFirst);
      }
      var r := trainer.TrainModel(dfCache.value, data.targetColumn, data.algorithm, data.task, lib);
      match r {
        case Err(e) =>
          body := ErrorBody(e);
        case Ok(t) =>
          trainedModel, trainedFeatures := Some(t.model), Some(t.features);
          body := TrainedBody(data.algorithm, data.task, t.score, t.features);
      }
    }

    /**
     * `POST /predict`. It never raises: with no trained model it answers
     * "Model not trained yet"; it prefers `values` to `test_input` and, when
     * both are missing, answers with the missing-values error without
     * predicting; otherwise it returns the prediction or what predicting raised.
     */
    method Predict(data: PredictInput,
                   infer: (Model, seq<string>, seq<real>) -> Result<Json>,
                   inverse: (Encoder, Json) -> Result<Json>) returns (body: Json)
      ensures trainedModel.None? ==> body == ErrorBody(NotTrained)
      ensures trainedModel.Some? && data.values.Some? ==>
        body == PredictionBody(trainer.Predict(trainedModel.value, data.values.value, infer, inverse))
      ensures trainedModel.Some? && data.values.None? && data.testInput.Some? ==>
        body == PredictionBody(trainer.Predict(trainedModel.value, data.testInput.value, infer, inverse))
      ensures trainedModel.Some? && data.values.None? && data.testInput.None? ==>
        body == ErrorBody(MissingValues)
      ensures body.JObj? && |body.fields| == 1 && ("error" in body.fields || "prediction" in body.fields)
    {
      if trainedModel.None? {
        return ErrorBody(NotTrained);
      }
      var inputValues := if data.values.Some? then data.values else data.testInput;
      if inputValues.None? {
        return ErrorBody(MissingValues);
      }
      body := PredictionBody(trainer.Predict(trainedModel.value, inputValues.value, infer, inverse));
    }
  }
}
