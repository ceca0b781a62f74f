/**
 * The browser client (frontend/app/page.tsx): the session cells of the `Home`
 * component, the task-keyed algorithm catalog, and the upload, train and
 * predict handlers. Each handler is one atomic step that takes what the
 * request came back with (a delivered body or a transport failure) in place
 * of the HTTP call, and records every `alert` it raises.
 */
module Client {
  import opened Values
  import opened JsValues
  import JsText
  import JsNumber

  // ---------------------------------------------------------------------
  // The algorithm catalog

  datatype AlgorithmOption = AlgorithmOption(value: string, caption: string)

  const RegressionAlgorithms: seq<AlgorithmOption> := [
    AlgorithmOption("random_forest", "Random Forest"),
    AlgorithmOption("gradient_boosting", "Gradient Boosting"),
    AlgorithmOption("linear_regression", "Linear Regression"),
    AlgorithmOption("knn", "K-Nearest Neighbors"),
    AlgorithmOption("svm", "Support Vector Machine")]

  const ClassificationAlgorithms: seq<AlgorithmOption> := [
    AlgorithmOption("random_forest", "Random Forest"),
    AlgorithmOption("gradient_boosting", "Gradient Boosting"),
    AlgorithmOption("logistic_regression", "Logistic Regression"),
    AlgorithmOption("knn", "K-Nearest Neighbors"),
    AlgorithmOption("svm", "Support Vector Machine"),
    AlgorithmOption("naive_bayes", "Naive Bayes")]

  /** `algorithmOptions`: the classification list for "classification", the regression list otherwise. */
  function AlgorithmOptions(task: string): seq<AlgorithmOption>
  {
    if task == "classification" then ClassificationAlgorithms else RegressionAlgorithms
  }

  /** The option values, in display order. */
  function OptionValues(options: seq<AlgorithmOption>): (values: seq<string>)
    ensures |values| == |options|
    ensures forall i :: 0 <= i < |options| ==> values[i] == options[i].value
  {
    seq(|options|, i requires 0 <= i < |options| => options[i].value)
  }

  /** The first option of the target select has no value, so its text is its value. */
  const Placeholder := "-- Select --"

  /** The values the target select can report: the placeholder, then every column. */
  function TargetChoices(columns: seq<string>): (choices: seq<string>)
    ensures |choices| == |columns| + 1 && choices[0] == Placeholder && choices[1..] == columns
  {
    [Placeholder] + columns
  }

  // ---------------------------------------------------------------------
  // What a request comes back with

  /**
   * The settled axios call: the parsed body, or a rejection with the
   * error's text and, when the server answered, the body of its answer.
   */
  datatype Transport<T> = Delivered(body: T) | Failed(error: string, response: Option<Json>)

  /** An `alert(...)` call: a JSON value, or the rejected request's error object. */
  datatype Alert = Shown(value: Json) | ShownError(error: string)

  /** The local file chosen in the file input. */
  datatype LocalFile = LocalFile(name: string, contents: seq<bv8>)

  /** The JSON body `handleTrain` posts. */
  datatype TrainRequest = TrainRequest(targetColumn: string, algorithm: string, task: string)

  const UploadFallback := "Error uploading CSV"
  const PredictionFailed := "Prediction error"

  // ---------------------------------------------------------------------
  // handleCSVUpload

  /** `detail ?? error ?? "Error uploading CSV"` from the failed upload's response body. */
  function UploadFailureMessage(response: Option<Json>): Json
  {
    Coalesce(Field(response, "detail"), Coalesce(Field(response, "error"), Some(JStr(UploadFallback)))).value
  }

  /** The columns after an upload request settles. */
  function UploadColumns(columns: seq<string>, reply: Transport<seq<string>>): seq<string>
  {
    if reply.Delivered? then reply.body else columns
  }

  /** The alerts an upload request raises. */
  function UploadAlerts(reply: Transport<seq<string>>): seq<Alert>
  {
    if reply.Failed? then [Shown(UploadFailureMessage(reply.response))] else []
  }

  /**
   * A failed upload shows the server's `detail` when it is there (and not
   * null), else its `error`, else "Error uploading CSV"; the columns stay.
   */
  lemma UploadFailureShown(columns: seq<string>, error: string, response: Option<Json>)
    ensures UploadColumns(columns, Failed(error, response)) == columns
    ensures !Nullish(Field(response, "detail")) ==>
      UploadAlerts(Failed(error, response)) == [Shown(Field(response, "detail").value)]
    ensures Nullish(Field(response, "detail")) && !Nullish(Field(response, "error")) ==>
      UploadAlerts(Failed(error, response)) == [Shown(Field(response, "error").value)]
    ensures Nullish(Field(response, "detail")) && Nullish(Field(response, "error")) ==>
      UploadAlerts(Failed(error, response)) == [Shown(JStr(UploadFallback))]
  {
  }

  // ---------------------------------------------------------------------
  // handleTrain

  /** The request `handleTrain` sends, or None when `!target || !algo` returns early. */
  function TrainRequestFor(target: string, algo: string, task: string): (r: Option<TrainRequest>)
    ensures r.None? <==> target == "" || algo == ""
    ensures r.Some? ==> r.value.targetColumn == target && r.value.algorithm == algo && r.value.task == task
  {
    if target == "" || algo == "" then None else Some(TrainRequest(target, algo, task))
  }

  /** `res.data?.metric ?? res.data?.accuracy ?? res.data?.r2`. */
  function ScoreOf(body: Json): Option<Json>
  {
    Coalesce(Field(Some(body), "metric"), Coalesce(Field(Some(body), "accuracy"), Field(Some(body), "r2")))
  }

  /** Whether a delivered training body is accepted: its `error` is not truthy. */
  predicate TrainAccepted(reply: Transport<Json>)
  {
    reply.Delivered? && !Truthy(Field(Some(reply.body), "error"))
  }

  /** `accuracy` after a training request settles: set only to a numeric score of an accepted body. */
  function NextAccuracy(accuracy: Option<real>, reply: Transport<Json>): Option<real>
  {
    if TrainAccepted(reply) && ScoreOf(reply.body).Some? && ScoreOf(reply.body).value.JNum?
    then Some(ScoreOf(reply.body).value.x)
    else accuracy
  }

  /** `features` after a training request settles: replaced only by an array in an accepted body. */
  function NextFeatures(features: seq<Json>, reply: Transport<Json>): seq<Json>
  {
    if TrainAccepted(reply) && Field(Some(reply.body), "features").Some?
       && Field(Some(reply.body), "features").value.JArr?
    then Field(Some(reply.body), "features").value.items
    else features
  }

  /**
   * The alerts a training request raises: the error object on a transport
   * failure, the body's truthy `error`, or else its truthy `message`.
   */
  function TrainAlerts(reply: Transport<Json>): seq<Alert>
  {
    match reply
    case Failed(e, _) => [ShownError(e)]
    case Delivered(body) =>
      if Truthy(Field(Some(body), "error")) then [Shown(Field(Some(body), "error").value)]
      else if Truthy(Field(Some(body), "message")) then [Shown(Field(Some(body), "message").value)]
      else []
  }

  /**
   * A training reply that fails, in transport or with a truthy `error`,
   * leaves the score and the feature list as they were and surfaces the failure.
   */
  lemma TrainFailureKeepsResults(accuracy: Option<real>, features: seq<Json>, reply: Transport<Json>)
    requires !TrainAccepted(reply)
    ensures NextAccuracy(accuracy, reply) == accuracy
    ensures NextFeatures(features, reply) == features
    ensures |TrainAlerts(reply)| == 1
    ensures reply.Delivered? ==> TrainAlerts(reply) == [Shown(Field(Some(reply.body), "error").value)]
  {
  }

  /**
   * Score resolution: the score is the first of `metric`, `accuracy`, `r2`
   * that is neither missing nor null, and `accuracy` takes it only if it is
   * a number. A present non-numeric `metric` therefore hides a numeric
   * `accuracy` or `r2`, and the previous score stays.
   */
  lemma ScoreResolution(accuracy: Option<real>, body: Json)
    requires !Truthy(Field(Some(body), "error"))
    ensures !Nullish(Field(Some(body), "metric")) ==> ScoreOf(body) == Field(Some(body), "metric")
    ensures Nullish(Field(Some(body), "metric")) && !Nullish(Field(Some(body), "accuracy")) ==>
      ScoreOf(body) == Field(Some(body), "accuracy")
    ensures Nullish(Field(Some(body), "metric")) && Nullish(Field(Some(body), "accuracy")) ==>
      ScoreOf(body) == Field(Some(body), "r2")
    ensures !Nullish(Field(Some(body), "metric")) && !Field(Some(body), "metric").value.JNum? ==>
      NextAccuracy(accuracy, Delivered(body)) == accuracy
    ensures ScoreOf(body).Some? && ScoreOf(body).value.JNum? ==>
      NextAccuracy(accuracy, Delivered(body)) == Some(ScoreOf(body).value.x)
    ensures !(ScoreOf(body).Some? && ScoreOf(body).value.JNum?) ==>
      NextAccuracy(accuracy, Delivered(body)) == accuracy
  {
  }

  /** An accepted body without a `features` array keeps the previous list rather than clearing it. */
  lemma FeaturesKeptWithoutArray(features: seq<Json>, body: Json)
    requires !Truthy(Field(Some(body), "error"))
    ensures (Field(Some(body), "features").Some? && Field(Some(body), "features").value.JArr?) ==>
      NextFeatures(features, Delivered(body)) == Field(Some(body), "features").value.items
    ensures !(Field(Some(body), "features").Some? && Field(Some(body), "features").value.JArr?) ==>
      NextFeatures(features, Delivered(body)) == features
  {
  }

  // ---------------------------------------------------------------------
  // handlePredict

  /** `testInput.split(",").map((val) => parseFloat(val.trim()))`. */
  function ParseInput(testInput: string): (values: seq<JsNumber.Num>)
    ensures |values| == JsText.Count(testInput, ',') + 1
  {
    JsText.SplitCount(testInput, ',');
    var pieces := JsText.Split(testInput, ',');
    seq(|pieces|, i requires 0 <= i < |pieces| => JsNumber.ParseFloat(JsText.Trim(pieces[i])))
  }

  /**
   * Every comma-separated piece yields one number, the piece trimmed then
   * parsed; a blank piece yields NaN, and no piece is rejected.
   */
  lemma ParseInputPieces(testInput: string, i: nat)
    requires i < |JsText.Split(testInput, ',')|
    ensures |ParseInput(testInput)| == |JsText.Split(testInput, ',')|
    ensures ParseInput(testInput)[i] == JsNumber.ParseFloat(JsText.Trim(JsText.Split(testInput, ',')[i]))
    ensures JsText.AllWhiteSpace(JsText.Split(testInput, ',')[i]) ==> ParseInput(testInput)[i] == JsNumber.NaN
  {
    var piece := JsText.Split(testInput, ',')[i];
    if JsText.AllWhiteSpace(piece) {
      JsText.TrimAllWhiteSpace(piece);
      JsNumber.ParseFloatEmpty();
    }
  }

  /**
   * `prediction` after a predict request settles: any delivered body other
   * than `null` sets it to `String(res.data.prediction)`, which is
   * "undefined" when the body has no `prediction`; a null body throws
   * inside the handler and, like a transport failure, changes nothing.
   */
  function PredictionText(prediction: Option<string>, reply: Transport<Json>, numberText: real -> string): Option<string>
  {
    if reply.Delivered? && !reply.body.JNull? then Some(ToJsString(Field(Some(reply.body), "prediction"), numberText))
    else prediction
  }

  /** The alerts a predict request raises: "Prediction error" when the handler's try block fails. */
  function PredictAlerts(reply: Transport<Json>): seq<Alert>
  {
    if reply.Delivered? && !reply.body.JNull? then [] else [Shown(JStr(PredictionFailed))]
  }

  /**
   * A backend `{"error": ...}` body is a transport success: the prediction
   * becomes the text "undefined" and nothing is alerted. A transport failure
   * keeps the previous prediction and alerts "Prediction error".
   */
  lemma PredictOutcomes(prediction: Option<string>, message: string, error: string, response: Option<Json>, numberText: real -> string)
    ensures var body := JObj(map["error" := JStr(message)]);
      PredictionText(prediction, Delivered(body), numberText) == Some("undefined")
      && PredictAlerts(Delivered(body)) == []
    ensures PredictionText(prediction, Failed(error, response), numberText) == prediction
    ensures PredictAlerts(Failed(error, response)) == [Shown(JStr(PredictionFailed))]
  {
    var body := JObj(map["error" := JStr(message)]);
    assert "prediction" !in body.fields;
  }

  // ---------------------------------------------------------------------
  // The component's state

  class Session {
    var file: Option<LocalFile>
    var columns: seq<string>
    var target: string
    var features: seq<Json>
    var task: string
    var algo: string
    var testInput: string
    var prediction: Option<string>
    var accuracy: Option<real>
    /** Every `alert` raised so far, oldest first. */
    var alerts: seq<Alert>

    /** The initial `useState` values. */
    constructor ()
      ensures file == None && columns == [] && target == "" && features == []
      ensures task == "regression" && algo == "random_forest" && testInput == ""
      ensures prediction == None && accuracy == None && alerts == []
    {
      file := None;
      columns := [];
      target := "";
      features := [];
      task := "regression";
      algo := "random_forest";
      testInput := "";
      prediction := None;
      accuracy := None;
      alerts := [];
    }

    /** The configuration panel (target, task, algorithm, train button) is rendered. */
    predicate ShowsConfiguration()
      reads this
    {
      |columns| > 0
    }

    /** The predict panel (features, input, predict button) is rendered. */
    predicate ShowsPredictPanel()
      reads this
    {
      target != ""
    }

    /** The score line is rendered. */
    predicate ShowsScore()
      reads this
    {
      accuracy.Some?
    }

    /** The file input's `onChange`. */
    method SelectFile(f: Option<LocalFile>)
      modifies this`file
      ensures file == f
    {
      file := f;
    }

    /**
     * The target select's `onChange`: nothing checks the value against the
     * columns, and the predict panel shows for any non-empty value.
     */
    method SelectTarget(value: string)
      modifies this`target
      ensures target == value
      ensures ShowsPredictPanel() <==> value != ""
    {
      target := value;
    }

    /** The task select's `onChange`: the algorithm is not reset, the results are not cleared. */
    method SelectTask(value: string)
      modifies this`task
      ensures task == value
    {
      task := value;
    }

    /** The algorithm select's `onChange`. */
    method SelectAlgorithm(value: string)
      modifies this`algo
      ensures algo == value
    {
      algo := value;
    }

    /** The test-input box's `onChange`. */
    method EditTestInput(value: string)
      modifies this`testInput
      ensures testInput == value
    {
      testInput := value;
    }

    /**
     * `handleCSVUpload`. With no file chosen nothing is sent and nothing
     * changes; otherwise the file is sent, a delivered reply sets `columns`
     * to exactly the returned list, and a failed one alerts its message.
     */
    method Upload(reply: Transport<seq<string>>) returns (sent: Option<LocalFile>)
      modifies this`columns, this`alerts
      ensures sent == file
      ensures sent.None? ==> columns == old(columns) && alerts == old(alerts)
      ensures sent.Some? ==>
                && columns == UploadColumns(old(columns), reply)
                && alerts == old(alerts) + UploadAlerts(reply)
      ensures sent.Some? && reply.Delivered? ==> (ShowsConfiguration() <==> |reply.body| > 0)
      ensures (sent.None? || reply.Failed?) ==> ShowsConfiguration() == old(ShowsConfiguration())
    {
      if file.None? {
        return None;
      }
      sent := file;
      match reply {
        case Delivered(cols) =>
          columns := cols;
        case Failed(_, response) =>
          alerts := alerts + [Shown(UploadFailureMessage(response))];
      }
    }

    /**
     * `handleTrain`. With an empty target or algorithm nothing is sent and
     * nothing changes; otherwise the current target, algorithm and task are
     * sent and the reply is folded into `accuracy`, `features` and the alerts.
     */
    method Train(reply: Transport<Json>) returns (sent: Option<TrainRequest>)
      modifies this`accuracy, this`features, this`alerts
      ensures sent == TrainRequestFor(target, algo, task)
      ensures sent.None? ==> accuracy == old(accuracy) && features == old(features) && alerts == old(alerts)
      ensures sent.Some? ==>
                && accuracy == NextAccuracy(old(accuracy), reply)
                && features == NextFeatures(old(features), reply)
                && alerts == old(alerts) + TrainAlerts(reply)
      ensures old(ShowsScore()) ==> ShowsScore()
      ensures sent.Some? && TrainAccepted(reply) && ScoreOf(reply.body).Some? && ScoreOf(reply.body).value.JNum? ==> ShowsScore()
      ensures (sent.None? || !TrainAccepted(reply)) ==> ShowsScore() == old(ShowsScore())
    {
      if target == "" || algo == "" {
        return None;
      }
      sent := Some(TrainRequest(target, algo, task));
      match reply {
        case Failed(e, _) =>
          alerts := alerts + [ShownError(e)];
        case Delivered(body) =>
          var error := Field(Some(body), "error");
          if Truthy(error) {
            alerts := alerts + [Shown(error.value)];
            return;
          }
          var score := ScoreOf(body);
          if score.Some? && score.value.JNum? {
            accuracy := Some(score.value.x);
          }
          var returned := Field(Some(body), "features");
          if returned.Some? && returned.value.JArr? {
            features := returned.value.items;
          }
          var message := Field(Some(body), "message");
          if Truthy(message) {
            alerts := alerts + [Shown(message.value)];
          }
      }
    }

    /**
     * `handlePredict`. There is no guard: the input is always split, trimmed,
     * parsed and sent. `numberText` is the engine's Number-to-String.
     */
    method Predict(reply: Transport<Json>, numberText: real -> string) returns (sent: seq<JsNumber.Num>)
      modifies this`prediction, this`alerts
      ensures sent == ParseInput(testInput)
      ensures prediction == PredictionText(old(prediction), reply, numberText)
      ensures alerts == old(alerts) + PredictAlerts(reply)
    {
      sent := ParseInput(testInput);
      if reply.Delivered? && !reply.body.JNull? {
        prediction := Some(ToJsString(Field(Some(reply.body), "prediction"), numberText));
      } else {
        alerts := alerts + [Shown(JStr(PredictionFailed))];
      }
    }
  }

  /**
   * The first choice of the target select is the placeholder, whose text is
   * not empty: choosing it passes the train guard and the request names
   * "-- Select --" as the target column.
   */
  lemma PlaceholderPassesGuard(columns: seq<string>, algo: string, task: string)
    requires algo != ""
    ensures TrainRequestFor(TargetChoices(columns)[0], algo, task) == Some(TrainRequest(Placeholder, algo, task))
  {
  }
}
