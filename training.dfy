/**
 * The training module of the backend (backend/train.py): case-normalisation
 * of the task and algorithm, derivation of the feature names, the label-encoder
 * decision, the (task, algorithm) dispatch table, and the three module globals
 * `feature_names`, `task_type` and `label_encoder` that `train_model` assigns
 * and `predict` reads. pandas and scikit-learn are opaque: what their calls
 * return or raise is given to the model as parameters.
 */
module Training {
  import opened Values
  import opened JsValues

  // ---------------------------------------------------------------------
  // Python's str.lower(), on ASCII letters

  function LowerChar(c: char): char
  {
    if 'A' <= c <= 'Z' then (c as int + 32) as char else c
  }

  /** `s.lower()`, restricted to the ASCII letters. */
  function Lower(s: string): (r: string)
    ensures |r| == |s|
    ensures forall i :: 0 <= i < |s| ==> r[i] == LowerChar(s[i])
  {
    if s == [] then [] else [LowerChar(s[0])] + Lower(s[1..])
  }

  /** Lowercasing twice is lowercasing once. */
  lemma LowerIdempotent(s: string)
    ensures Lower(Lower(s)) == Lower(s)
  {
    var once := Lower(s);
    var twice := Lower(once);
    forall i | 0 <= i < |s|
      ensures twice[i] == once[i]
    {
      assert twice[i] == LowerChar(once[i]);
    }
  }

  /** No ASCII capital letter occurs in `s`. */
  predicate NoCapitals(s: string)
  {
    forall i :: 0 <= i < |s| ==> !('A' <= s[i] <= 'Z')
  }

  /** Lowercasing changes exactly the strings that contain a capital letter. */
  lemma LowerFixesLowercase(s: string)
    ensures Lower(s) == s <==> NoCapitals(s)
  {
    if Lower(s) == s {
      forall i | 0 <= i < |s|
        ensures !('A' <= s[i] <= 'Z')
      {
        assert Lower(s)[i] == LowerChar(s[i]);
      }
    }
  }

  /** The same character, or the capital and small forms of one ASCII letter. */
  predicate SameLetter(a: char, b: char)
  {
    || a == b
    || ('A' <= a <= 'Z' && b as int == a as int + 32)
    || ('A' <= b <= 'Z' && a as int == b as int + 32)
  }

  /** Two strings that differ only in the case of ASCII letters. */
  predicate EqualIgnoringCase(x: string, y: string)
  {
    |x| == |y| && forall i :: 0 <= i < |x| ==> SameLetter(x[i], y[i])
  }

  /** Two characters lowercase alike exactly when they are the same letter up to case. */
  lemma LowerCharIgnoresCase(a: char, b: char)
    ensures SameLetter(a, b) <==> LowerChar(a) == LowerChar(b)
  {
  }

  /** Strings lowercase to the same string exactly when they differ only in letter case. */
  lemma LowerIgnoresCase(x: string, y: string)
    ensures EqualIgnoringCase(x, y) <==> Lower(x) == Lower(y)
  {
    if |x| == |y| {
      forall i | 0 <= i < |x|
        ensures SameLetter(x[i], y[i]) <==> Lower(x)[i] == Lower(y)[i]
      {
        LowerCharIgnoresCase(x[i], y[i]);
      }
      if Lower(x) != Lower(y) {
        var k :| 0 <= k < |x| && Lower(x)[k] != Lower(y)[k];
        assert !SameLetter(x[k], y[k]);
      }
    }
  }

  // ---------------------------------------------------------------------
  // Data frames, as far as train_model looks at them

  /**
   * A pandas DataFrame as read from the uploaded CSV: its column labels in
   * order, and which of them have the `object` dtype (text values).
   */
  datatype Frame = Frame(columns: seq<string>, objectColumns: set<string>)

  /**
   * `df.drop(columns=[target]).columns.to_list()`: every column label
   * except the target, in the frame's order.
   */
  function FeatureNames(columns: seq<string>, target: string): (names: seq<string>)
    ensures |names| <= |columns|
    ensures forall x :: x in names ==> x in columns
    ensures target !in names
  {
    if columns == [] then []
    else if columns[0] == target then FeatureNames(columns[1..], target)
    else [columns[0]] + FeatureNames(columns[1..], target)
  }

  /** A feature name is exactly a column other than the target. */
  lemma {:induction false} FeatureNamesMembers(columns: seq<string>, target: string, x: string)
    ensures x in FeatureNames(columns, target) <==> x in columns && x != target
  {
    if columns != [] {
      FeatureNamesMembers(columns[1..], target, x);
      assert x in columns <==> x == columns[0] || x in columns[1..];
    }
  }

  /**
   * When the target occurs once, at position `k`, the feature names are the
   * columns with that one position cut out: the order of the rest is kept.
   */
  lemma {:induction false} FeatureNamesCutsTarget(columns: seq<string>, target: string, k: nat)
    requires k < |columns| && columns[k] == target
    requires forall j :: 0 <= j < |columns| && j != k ==> columns[j] != target
    ensures FeatureNames(columns, target) == columns[..k] + columns[k + 1..]
  {
    if k == 0 {
      NoTargetKeepsAll(columns[1..], target);
    } else {
      FeatureNamesCutsTarget(columns[1..], target, k - 1);
      assert columns[1..][..k - 1] == columns[1..k];
      assert columns[1..][k..] == columns[k + 1..];
      assert columns[..k] == [columns[0]] + columns[1..k];
    }
  }

  /** Without the target among them, every column is a feature. */
  lemma {:induction false} NoTargetKeepsAll(columns: seq<string>, target: string)
    requires target !in columns
    ensures FeatureNames(columns, target) == columns
  {
    if columns != [] {
      NoTargetKeepsAll(columns[1..], target);
    }
  }

  // ---------------------------------------------------------------------
  // The model-selection table

  /** The estimator `train_model` constructs. */
  datatype ModelKind =
    | RandomForestClassifier
    | GradientBoostingClassifier
    | LogisticRegression(maxIter: nat)
    | KNeighborsClassifier
    | SVC
    | GaussianNB
    | RandomForestRegressor
    | GradientBoostingRegressor
    | LinearRegression
    | KNeighborsRegressor
    | SVR

  predicate IsClassifier(k: ModelKind)
  {
    k.RandomForestClassifier? || k.GradientBoostingClassifier? || k.LogisticRegression?
    || k.KNeighborsClassifier? || k.SVC? || k.GaussianNB?
  }

  const UnsupportedClassification := "Unsupported classification algorithm"
  const UnsupportedRegression := "Unsupported regression algorithm"
  const UnsupportedTask := "Task must be 'classification' or 'regression'"

  /** The algorithm keys the classification branch accepts. */
  const ClassificationKeys: set<string> :=
    {"random_forest", "gradient_boosting", "logistic_regression", "knn", "svm", "naive_bayes"}

  /** The algorithm keys the regression branch accepts. */
  const RegressionKeys: set<string> :=
    {"random_forest", "gradient_boosting", "linear_regression", "knn", "svm"}

  /**
   * The if/elif chain of step 4 of `train_model`, on the already lowercased
   * task and algorithm: the estimator, or the `ValueError` text.
   */
  function SelectModel(task: string, algorithm: string): Result<ModelKind>
  {
    if task == "classification" then
      if algorithm == "random_forest" then Ok(RandomForestClassifier)
      else if algorithm == "gradient_boosting" then Ok(GradientBoostingClassifier)
      else if algorithm == "logistic_regression" then Ok(LogisticRegression(200))
      else if algorithm == "knn" then Ok(KNeighborsClassifier)
      else if algorithm == "svm" then Ok(SVC)
      else if algorithm == "naive_bayes" then Ok(GaussianNB)
      else Err(UnsupportedClassification)
    else if task == "regression" then
      if algorithm == "random_forest" then Ok(RandomForestRegressor)
      else if algorithm == "gradient_boosting" then Ok(GradientBoostingRegressor)
      else if algorithm == "linear_regression" then Ok(LinearRegression)
      else if algorithm == "knn" then Ok(KNeighborsRegressor)
      else if algorithm == "svm" then Ok(SVR)
      else Err(UnsupportedRegression)
    else Err(UnsupportedTask)
  }

  /**
   * The table accepts exactly the catalogued keys of each task, and names
   * the branch that rejected everything else.
   */
  lemma SelectModelAccepts(task: string, algorithm: string)
    ensures SelectModel(task, algorithm).Ok? <==>
      (task == "classification" && algorithm in ClassificationKeys)
      || (task == "regression" && algorithm in RegressionKeys)
    ensures task == "classification" && algorithm !in ClassificationKeys ==>
      SelectModel(task, algorithm) == Err(UnsupportedClassification)
    ensures task == "regression" && algorithm !in RegressionKeys ==>
      SelectModel(task, algorithm) == Err(UnsupportedRegression)
    ensures task != "classification" && task != "regression" ==>
      SelectModel(task, algorithm) == Err(UnsupportedTask)
  {
  }

  /**
   * A classification request always gets a classifier and a regression
   * request a regressor, and within one task no two keys share an estimator.
   */
  lemma SelectModelKinds(task: string, a: string, b: string)
    ensures SelectModel(task, a).Ok? ==> (IsClassifier(SelectModel(task, a).value) <==> task == "classification")
    ensures SelectModel(task, a).Ok? && SelectModel(task, b).Ok? && a != b ==>
      SelectModel(task, a).value != SelectModel(task, b).value
  {
  }

  /**
   * Dispatch after lowercasing is case-insensitive: requests whose task and
   * algorithm differ only in letter case select the same estimator or fail
   * with the same error.
   */
  lemma DispatchIgnoresCase(task1: string, algorithm1: string, task2: string, algorithm2: string)
    requires EqualIgnoringCase(task1, task2) && EqualIgnoringCase(algorithm1, algorithm2)
    ensures SelectModel(Lower(task1), Lower(algorithm1)) == SelectModel(Lower(task2), Lower(algorithm2))
  {
    LowerIgnoresCase(task1, task2);
    LowerIgnoresCase(algorithm1, algorithm2);
  }

  // ---------------------------------------------------------------------
  // The label encoder

  /** A `LabelEncoder` created for the target column named here. */
  datatype Encoder = LabelEncoder(column: string)

  /**
   * The encoder step 2 of `train_model` leaves in `label_encoder`: a fresh
   * encoder for a classification task whose target has the object dtype,
   * None on every other path.
   */
  function EncoderFor(taskType: string, df: Frame, target: string): (e: Option<Encoder>)
    ensures e.Some? <==> taskType == "classification" && target in df.objectColumns
  {
    if taskType == "classification" && target in df.objectColumns then Some(LabelEncoder(target)) else None
  }

  // ---------------------------------------------------------------------
  // train_model

  /** A fitted estimator; `fitted` stands for the learned parameters. */
  datatype Model = Model(kind: ModelKind, fitted: nat)

  /** What scikit-learn's fit, predict and scoring produce: the parameters and the test score. */
  datatype Fit = Fit(fitted: nat, score: real)

  /**
   * What the pandas and scikit-learn calls of one `train_model` run do:
   * the text of the KeyError `df.drop` raises for a missing target, whether
   * `fit_transform` and `train_test_split` raise, and the outcome of fitting
   * and scoring.
   */
  datatype Library = Library(
    missingColumnError: string,
    encodeFailure: Option<string>,
    splitFailure: Option<string>,
    fitOutcome: Result<Fit>)

  /** The tuple `train_model` returns. */
  datatype Trained = Trained(model: Model, score: real, features: seq<string>)

  /** What `train_model` returns or raises, step by step in the source's order. */
  function TrainOutcome(df: Frame, target: string, algorithm: string, task: string, lib: Library): Result<Trained>
  {
    var taskType := Lower(task);
    if target !in df.columns then Err(lib.missingColumnError)
    else if EncoderFor(taskType, df, target).Some? && lib.encodeFailure.Some? then Err(lib.encodeFailure.value)
    else if lib.splitFailure.Some? then Err(lib.splitFailure.value)
    else match SelectModel(taskType, Lower(algorithm))
      case Err(e) => Err(e)
      case Ok(kind) =>
        match lib.fitOutcome
        case Err(e) => Err(e)
        case Ok(fit) => Ok(Trained(Model(kind, fit.fitted), fit.score, FeatureNames(df.columns, target)))
  }

  /**
   * A successful training used a catalogued (task, algorithm) pair after
   * lowercasing, built the estimator the table names for it, and reports the
   * frame's columns other than the target as its features.
   */
  lemma TrainOutcomeOk(df: Frame, target: string, algorithm: string, task: string, lib: Library)
    requires TrainOutcome(df, target, algorithm, task, lib).Ok?
    ensures target in df.columns
    ensures SelectModel(Lower(task), Lower(algorithm)).Ok?
    ensures TrainOutcome(df, target, algorithm, task, lib).value.model.kind == SelectModel(Lower(task), Lower(algorithm)).value
    ensures TrainOutcome(df, target, algorithm, task, lib).value.features == FeatureNames(df.columns, target)
    ensures IsClassifier(TrainOutcome(df, target, algorithm, task, lib).value.model.kind) <==> Lower(task) == "classification"
  {
    SelectModelKinds(Lower(task), Lower(algorithm), Lower(algorithm));
  }

  /**
   * When the frame has the target and the data-preparation steps succeed,
   * an unsupported task or algorithm is reported with the table's own message.
   */
  lemma TrainOutcomeRejects(df: Frame, target: string, algorithm: string, task: string, lib: Library)
    requires target in df.columns && lib.encodeFailure.None? && lib.splitFailure.None?
    requires SelectModel(Lower(task), Lower(algorithm)).Err?
    ensures TrainOutcome(df, target, algorithm, task, lib) == Err(SelectModel(Lower(task), Lower(algorithm)).error)
  {
  }

  /** The module globals of train.py and the two functions that use them. */
  class TrainModule {
    var featureNames: seq<string>
    var taskType: string
    var labelEncoder: Option<Encoder>

    /** The module as imported: `[]`, `"regression"`, `None`. */
    constructor ()
      ensures featureNames == [] && taskType == "regression" && labelEncoder == None
    {
      featureNames := [];
      taskType := "regression";
      labelEncoder := None;
    }

    /**
     * `train_model(df, target_column, algorithm, task)`. The globals are
     * assigned as the steps run, so a call that raises after a step keeps
     * that step's assignment: `task_type` always changes, and once the
     * target column is found `feature_names` and `label_encoder` change too,
     * even when the table then rejects the task or algorithm.
     */
    method TrainModel(df: Frame, targetColumn: string, algorithm: string, task: string, lib: Library)
      returns (r: Result<Trained>)
      modifies this
      ensures r == TrainOutcome(df, targetColumn, algorithm, task, lib)
      ensures taskType == Lower(task)
      ensures featureNames == if targetColumn in df.columns then FeatureNames(df.columns, targetColumn) else old(featureNames)
      ensures labelEncoder == if targetColumn in df.columns then EncoderFor(taskType, df, targetColumn) else old(labelEncoder)
    {
      taskType := Lower(task);
      var algorithmKey := Lower(algorithm);
      if targetColumn !in df.columns {
        return Err(lib.missingColumnError);
      }
      featureNames := FeatureNames(df.columns, targetColumn);
      if taskType == "classification" {
        if targetColumn in df.objectColumns {
          labelEncoder := Some(LabelEncoder(targetColumn));
          if lib.encodeFailure.Some? {
            return Err(lib.encodeFailure.value);
          }
        } else {
          labelEncoder := None;
        }
      } else {
        labelEncoder := None;
      }
      if lib.splitFailure.Some? {
        return Err(lib.splitFailure.value);
      }
      var selected := SelectModel(taskType, algorithmKey);
      if selected.Err? {
        return Err(selected.error);
      }
      if lib.fitOutcome.Err? {
        return Err(lib.fitOutcome.error);
      }
      var fit := lib.fitOutcome.value;
      r := Ok(Trained(Model(selected.value, fit.fitted), fit.score, featureNames));
    }

    /** Whether `predict` maps the model's output back through the label encoder. */
    predicate Decodes()
      reads this
    {
      taskType == "classification" && labelEncoder.Some?
    }

    /**
     * `predict(model, input_list)`. `infer` is the estimator's prediction for
     * a one-row frame with the columns `feature_names` (or what building the
     * frame or predicting raised); `inverse` is `inverse_transform` of the
     * encoder on that output. The output is decoded only when `Decodes()`.
     */
    function Predict(model: Model, input: seq<real>,
                     infer: (Model, seq<string>, seq<real>) -> Result<Json>,
                     inverse: (Encoder, Json) -> Result<Json>): (r: Result<Json>)
      reads this
      ensures infer(model, featureNames, input).Err? ==> r == infer(model, featureNames, input)
      ensures !Decodes() ==> r == infer(model, featureNames, input)
      ensures Decodes() && infer(model, featureNames, input).Ok? ==>
        r == inverse(labelEncoder.value, infer(model, featureNames, input).value)
    {
      match infer(model, featureNames, input)
      case Err(e) => Err(e)
      case Ok(p) => if Decodes() then inverse(labelEncoder.value, p) else Ok(p)
    }
  }
}
