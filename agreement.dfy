/**
 * How the browser client and the backend fit together: the client's
 * algorithm catalog against the backend's dispatch table, and what the
 * client makes of each body the backend's endpoints produce. FastAPI answers
 * the `{"error": ...}` bodies with status 200, so the client receives them as
 * delivered replies; among the bodies modelled here, only an HTTPException
 * (the upload's 400) reaches it as a failed request carrying `{"detail": ...}`.
 */
module Agreement {
  import opened Values
  import opened JsValues
  import opened Training
  import Server
  import Client

  // ---------------------------------------------------------------------
  // The catalog and the dispatch table

  /** The task values the client's task select offers. */
  predicate OfferedTask(task: string)
  {
    task == "regression" || task == "classification"
  }

  /** The catalog's option values are already lowercase, so the backend's lowercasing keeps them. */
  lemma CatalogIsLowercase(task: string, v: string)
    requires v in Client.OptionValues(Client.AlgorithmOptions(task))
    ensures Lower(v) == v
  {
    var values := Client.OptionValues(Client.AlgorithmOptions(task));
    assert NoCapitals(v) by {
      assert v in {"random_forest", "gradient_boosting", "linear_regression", "knn", "svm",
                   "logistic_regression", "naive_bayes"};
    }
    LowerFixesLowercase(v);
  }

  /** Both offered task values are lowercase. */
  lemma OfferedTaskIsLowercase(task: string)
    requires OfferedTask(task)
    ensures Lower(task) == task
  {
    assert NoCapitals(task);
    LowerFixesLowercase(task);
  }

  /** The values each task's list offers are exactly the keys the table accepts for that task. */
  lemma CatalogValues(task: string)
    requires OfferedTask(task)
    ensures task == "classification" ==> (set v | v in Client.OptionValues(Client.AlgorithmOptions(task))) == ClassificationKeys
    ensures task == "regression" ==> (set v | v in Client.OptionValues(Client.AlgorithmOptions(task))) == RegressionKeys
  {
    var values := Client.OptionValues(Client.AlgorithmOptions(task));
    if task == "classification" {
      assert values == ["random_forest", "gradient_boosting", "logistic_regression", "knn", "svm", "naive_bayes"];
    } else {
      assert values == ["random_forest", "gradient_boosting", "linear_regression", "knn", "svm"];
    }
  }

  /**
   * For either offered task, the backend builds an estimator for an
   * algorithm, which it lowercases first, exactly when the lowercased
   * algorithm is a value the client's list for that task offers.
   */
  lemma CatalogMatchesTable(task: string, algorithm: string)
    requires OfferedTask(task)
    ensures SelectModel(Lower(task), Lower(algorithm)).Ok? <==>
      Lower(algorithm) in Client.OptionValues(Client.AlgorithmOptions(task))
  {
    OfferedTaskIsLowercase(task);
    CatalogValues(task);
    SelectModelAccepts(task, Lower(algorithm));
  }

  /**
   * An algorithm picked from one task's list that the other task's list
   * does not offer is rejected by the table when sent with the other task,
   * with that task's error message.
   */
  lemma StaleAlgorithmRejected(t1: string, t2: string, algo: string)
    requires OfferedTask(t1) && OfferedTask(t2)
    requires algo in Client.OptionValues(Client.AlgorithmOptions(t1))
    requires algo !in Client.OptionValues(Client.AlgorithmOptions(t2))
    ensures SelectModel(Lower(t2), Lower(algo))
      == Err(if t2 == "classification" then UnsupportedClassification else UnsupportedRegression)
  {
    CatalogIsLowercase(t1, algo);
    CatalogMatchesTable(t2, algo);
    OfferedTaskIsLowercase(t2);
    SelectModelAccepts(t2, algo);
    CatalogValues(t2);
  }

  /** `algo` is offered for `t1` but not for `t2`, both being tasks the select offers. */
  predicate OnlyOfferedFor(t1: string, t2: string, algo: string)
  {
    && OfferedTask(t1) && OfferedTask(t2)
    && algo in Client.OptionValues(Client.AlgorithmOptions(t1))
    && algo !in Client.OptionValues(Client.AlgorithmOptions(t2))
  }

  /**
   * Switching the task does not reset the algorithm: after picking `algo`
   * under `t1` and then switching to `t2`, a train click still sends `algo`
   * with `t2`; when `t2`'s list lacks `algo`, the backend's table rejects it.
   */
  method StaleAlgorithmSent(session: Client.Session, target: string, t1: string, t2: string, algo: string, reply: Client.Transport<Json>)
    returns (sent: Option<Client.TrainRequest>)
    requires target != "" && algo != ""
    modifies session
    ensures sent == Some(Client.TrainRequest(target, algo, t2))
    ensures OnlyOfferedFor(t1, t2, algo) ==> SelectModel(Lower(sent.value.task), Lower(sent.value.algorithm)).Err?
  {
    session.SelectTarget(target);
    session.SelectTask(t1);
    session.SelectAlgorithm(algo);
    session.SelectTask(t2);
    sent := session.Train(reply);
    assert sent == Some(Client.TrainRequest(target, algo, t2));
    if OnlyOfferedFor(t1, t2, algo) {
      StaleAlgorithmRejected(t1, t2, algo);
    }
  }

  // ---------------------------------------------------------------------
  // What the client makes of the backend's bodies

  /** The upload reply as the client receives it; `error` is the request library's message for the 400. */
  function UploadReply(response: Server.UploadResponse, error: string): Client.Transport<seq<string>>
  {
    match response
    case Uploaded(_, columns) => Client.Delivered(columns)
    case HttpError(_, detail) => Client.Failed(error, Some(JObj(map["detail" := JStr(detail)])))
  }

  /**
   * An upload the backend accepts gives the client exactly the frame's
   * columns; one it rejects leaves the columns and shows "Invalid CSV: ...".
   */
  lemma UploadAgreement(columns: seq<string>, read: Result<Frame>, error: string)
    ensures read.Ok? ==>
      Client.UploadColumns(columns, UploadReply(Server.Uploaded("CSV uploaded successfully", read.value.columns), error))
        == read.value.columns
    ensures read.Err? ==>
      var reply := UploadReply(Server.HttpError(400, "Invalid CSV: " + read.error), error);
      Client.UploadColumns(columns, reply) == columns
      && Client.UploadAlerts(reply) == [Client.Shown(JStr("Invalid CSV: " + read.error))]
  {
  }

  /**
   * A successful training body sets the client's score to the backend's
   * score and its feature list to the backend's feature names, and shows
   * the "Model trained using ..." message.
   */
  lemma TrainedBodyRead(accuracy: Option<real>, features: seq<Json>, algorithm: string, task: string, score: real, names: seq<string>)
    ensures var reply := Client.Delivered(Server.TrainedBody(algorithm, task, score, names));
      && Client.NextAccuracy(accuracy, reply) == Some(score)
      && Client.NextFeatures(features, reply) == Server.JsonStrings(names)
      && Client.TrainAlerts(reply) == [Client.Shown(JStr("Model trained using " + algorithm))]
  {
    var body := Server.TrainedBody(algorithm, task, score, names);
    Server.TrainedBodyFields(algorithm, task, score, names);
    assert Client.ScoreOf(body) == Some(JNum(score));
    assert |"Model trained using " + algorithm| > 0;
  }

  /**
   * An `{"error": m}` body from `/train` leaves the score and the feature
   * list as they were; it is shown unless `m` is empty, in which case the
   * failure passes silently.
   */
  lemma ErrorBodyRead(accuracy: Option<real>, features: seq<Json>, m: string)
    ensures var reply := Client.Delivered(Server.ErrorBody(m));
      && Client.NextAccuracy(accuracy, reply) == accuracy
      && Client.NextFeatures(features, reply) == features
      && Client.TrainAlerts(reply) == (if m == "" then [] else [Client.Shown(JStr(m))])
  {
    var body := Server.ErrorBody(m);
    assert "metric" !in body.fields && "accuracy" !in body.fields && "r2" !in body.fields;
    assert "features" !in body.fields && "message" !in body.fields;
  }

  /**
   * The client shows the prediction as `String(prediction)`; every error
   * body from `/predict`, "Model not trained yet" included, is shown as the
   * text "undefined" without an alert.
   */
  lemma PredictionBodyRead(prediction: Option<string>, r: Result<Json>, numberText: real -> string)
    ensures var reply := Client.Delivered(Server.PredictionBody(r));
      && Client.PredictAlerts(reply) == []
      && (r.Ok? ==> Client.PredictionText(prediction, reply, numberText) == Some(JsonText(r.value, numberText)))
      && (r.Err? ==> Client.PredictionText(prediction, reply, numberText) == Some("undefined"))
  {
    var body := Server.PredictionBody(r);
    if r.Err? {
      assert "prediction" !in body.fields;
    }
  }

  // ---------------------------------------------------------------------
  // A failed retraining after a successful one

  /**
   * A classifier is trained on a text target; a retraining of the same
   * target as a regression with a classification-only algorithm then fails.
   * The failed call has already set `task_type` to "regression" and dropped
   * the label encoder, while `trained_model` is still the classifier:
   * predictions made with it are no longer decoded back to the text labels.
   */
  method StaleDecodeAfterFailedRetrain(df: Frame, target: string, first: Server.TrainInput, second: Server.TrainInput, lib: Library)
    returns (firstBody: Json, secondBody: Json, classifierKept: bool, decodes: bool)
    requires target in df.columns && target in df.objectColumns
    requires lib.encodeFailure.None? && lib.splitFailure.None? && lib.fitOutcome.Ok?
    requires first.targetColumn == target && Lower(first.task) == "classification" && Lower(first.algorithm) in ClassificationKeys
    requires second.targetColumn == target && Lower(second.task) == "regression" && Lower(second.algorithm) !in RegressionKeys
    ensures firstBody == Server.TrainedBody(first.algorithm, first.task, lib.fitOutcome.value.score, FeatureNames(df.columns, target))
    ensures secondBody == Server.ErrorBody(UnsupportedRegression)
    ensures classifierKept && !decodes
  {
    var backend := new Server.Backend();
    var response := backend.Upload(Ok(df));
    SelectModelAccepts(Lower(first.task), Lower(first.algorithm));
    SelectModelAccepts(Lower(second.task), Lower(second.algorithm));
    TrainOutcomeOk(df, target, first.algorithm, first.task, lib);
    firstBody := backend.Train(first, lib);
    secondBody := backend.Train(second, lib);
    classifierKept := backend.trainedModel.Some? && IsClassifier(backend.trainedModel.value.kind);
    decodes := backend.trainer.Decodes();
  }
}
