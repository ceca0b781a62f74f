# ModelForge in Dafny

ModelForge is a small no-code machine-learning tool. A browser page
(`frontend/app/page.tsx`) lets a user upload a CSV file, pick a target
column, a task (regression or classification) and an algorithm, train a
model, and send a comma-separated row of numbers for a prediction. A FastAPI
backend (`backend/main.py`) keeps the uploaded frame and the last trained
model in process globals. It delegates to `backend/train.py`, which
lowercases the task and algorithm, derives the feature names, decides on a
label encoder, dispatches to one of eleven scikit-learn estimators, and
records `feature_names`, `task_type` and `label_encoder` for `predict`.

The model follows the code's own form:

- `Client.Session` (client.dfy) is a class. Its fields are the page's
  `useState` cells, plus a log of every `alert`. Its methods are the
  `onChange` setters and the three handlers. Each handler is one atomic
  step that takes what the HTTP call came back with as a parameter: a
  delivered JSON body, or a transport failure with the error text and
  the server's answer.
- `Training.TrainModule` (training.dfy) holds the three globals of
  train.py. `TrainModel` assigns them in the source's order. So a call
  that raises part-way keeps the assignments already made. `Predict`
  reads them.
- `Server.Backend` (server.dfy) holds `df_cache`, `trained_model` and
  `trained_features`, with the `/upload`, `/train` and `/predict`
  endpoints as methods.
- The JavaScript semantics the client relies on are written out as pure
  functions:
  - optional chaining, `??`, truthiness and `String(v)` (js_values.dfy);
  - `split`, `join` and `trim` (js_text.dfy);
  - `parseFloat` (js_number.dfy).
- agreement.dfy relates the two sides. It checks the client's algorithm
  catalog against the backend's dispatch table. It states what the client
  does with each body the endpoints produce. And it shows what a failed
  retraining leaves behind.

The model follows the code as written:

- selecting another task does not reset the algorithm;
- the target is not checked against the columns;
- training results are not cleared when the configuration changes or a
  later training fails;
- the model adds no busy flag; each handler is one atomic step.

`Client.Session.SelectTask`, `Client.Session.SelectTarget`,
`Agreement.StaleAlgorithmSent` and `Client.TrainFailureKeepsResults`
state the first three behaviours as the code has them.

## Model

| member | source | states |
|---|---|---|
| Training.LowerIdempotent | backend/train.py:36-37 | lowercasing an already lowercased key changes nothing |
| Training.LowerFixesLowercase | backend/train.py:36-37 | lowercasing leaves a string unchanged exactly when it has no capital letter |
| Training.LowerCharIgnoresCase | backend/train.py:36-37 | two characters lowercase alike if and only if they are equal or the capital and small forms of one ASCII letter |
| Training.LowerIgnoresCase | backend/train.py:36-37 | two strings lowercase to the same key if and only if, position by position, their characters are equal or differ only in letter case |
| Training.FeatureNames | backend/train.py:42-45 | no more names than columns, every name is a column, and the target is never among them |
| Training.FeatureNamesMembers | backend/train.py:42-45 | a name is a feature exactly when it is a column other than the target |
| Training.FeatureNamesCutsTarget | backend/train.py:42-45 | when the target occurs once, the features are the columns with that position cut out, in order |
| Training.NoTargetKeepsAll | backend/train.py:42-45 | without the target among them, every column is a feature |
| Training.SelectModelAccepts | backend/train.py:73-104 | the table accepts exactly six classification keys and five regression keys; everything else gets the error message of the branch that rejected it |
| Training.SelectModelKinds | backend/train.py:73-104 | a classification request gets a classifier and a regression request a regressor; within one task, distinct keys give distinct estimators |
| Training.DispatchIgnoresCase | backend/train.py:36-104 | requests that differ only in letter case select the same estimator or fail with the same error |
| Training.EncoderFor | backend/train.py:50-57 | a label encoder is kept exactly for a classification task whose target column holds text |
| Training.TrainOutcomeOk | backend/train.py:22-121 | a successful training found the target, used a catalogued key, built the estimator the table names (a classifier exactly for classification), and reports the non-target columns as features |
| Training.TrainOutcomeRejects | backend/train.py:36-104 | once the target is found and data preparation succeeds, an unsupported task or algorithm is raised with the table's own message |
| Training.TrainModule.constructor | backend/train.py:16-19 | the globals start as `[]`, `"regression"` and `None` |
| Training.TrainModule.TrainModel | backend/train.py:22-121 | returns or raises what the steps give, in order; `task_type` is always updated, and `feature_names` and `label_encoder` are updated once the target column is found, even if a later step raises |
| Training.TrainModule.Predict | backend/train.py:124-140 | the estimator's output is decoded through the encoder only for a classification task with an encoder; errors pass through |
| Server.MetricName | backend/main.py:72 | the metric is named "accuracy" exactly for a task that lowercases to "classification", and "r2" otherwise |
| Server.TrainedBodyFields | backend/main.py:72-80 | the success body carries the score under `metric` and under its metric name, the metric name, the message and the features, and no `error` |
| Server.Backend.constructor | backend/main.py:20-22 | nothing is cached or trained at start-up, and the train.py globals hold their initial values |
| Server.Backend.Upload | backend/main.py:42-54 | a readable file replaces the cached frame and returns its columns; an unreadable one keeps the old frame and answers 400 with "Invalid CSV: ..." |
| Server.Backend.Train | backend/main.py:57-83 | without a frame it answers "Please upload CSV first" and changes nothing; otherwise the train.py globals change as `TrainModel` says, and the trained model and features are replaced only on success |
| Server.Backend.Predict | backend/main.py:86-100 | not trained, `values` preferred over `test_input`, the missing-input error, and a body with exactly one key, `error` or `prediction` |
| JsValues.Coalesce | frontend/app/page.tsx:74-75 | `a ?? b` is `a` unless `a` is null or undefined, in which case it is `b` |
| JsText.Split | frontend/app/page.tsx:95-97 | splitting yields at least one piece, and no piece contains the separator |
| JsText.SplitCount | frontend/app/page.tsx:95-97 | splitting yields one piece more than there are separators |
| JsText.SplitJoin | frontend/app/page.tsx:95-97 | joining the pieces with the separator gives back the input |
| JsText.TrimStart | frontend/app/page.tsx:97 | drops exactly a white-space prefix, and what is left does not start with white space |
| JsText.TrimEnd | frontend/app/page.tsx:97 | drops exactly a white-space suffix, and what is left does not end with white space |
| JsText.TrimIsInfix | frontend/app/page.tsx:97 | the trimmed piece is an infix between a white-space prefix and a white-space suffix |
| JsText.TrimEnds | frontend/app/page.tsx:97 | a trimmed piece neither starts nor ends with white space |
| JsText.TrimUnchanged | frontend/app/page.tsx:97 | a piece with no white space at either end is its own trim |
| JsText.TrimLeadingSpace | frontend/app/page.tsx:97 | a space typed after a comma is dropped |
| JsText.TrimAllWhiteSpace | frontend/app/page.tsx:97 | a blank piece trims to the empty string |
| JsNumber.UnsignedPrefixNaN | frontend/app/page.tsx:97 | an unsigned literal reads as NaN exactly when it starts with neither `Infinity`, a digit, nor a point followed by a digit |
| JsNumber.ParseFloatNaN | frontend/app/page.tsx:97 | `parseFloat` gives NaN exactly when the text does not start like a number after white space and a sign |
| JsNumber.ParseFloatEmpty | frontend/app/page.tsx:97 | the empty piece parses to NaN |
| JsNumber.ParseFloatInteger | frontend/app/page.tsx:97 | a string of digits parses to the integer it denotes |
| JsNumber.ParseFloatDecimal | frontend/app/page.tsx:97 | digits, a point and digits parse to the digits read without the point, scaled down by the number of fraction digits |
| JsNumber.ParseFloatLetter | frontend/app/page.tsx:97 | text that starts with an ASCII letter parses to NaN, unless it starts with `Infinity` |
| JsNumber.ParseFloatInfinity | frontend/app/page.tsx:97 | text that starts with `Infinity` parses to positive infinity, whatever follows |
| Client.UploadFailureShown | frontend/app/page.tsx:46-56 | a failed upload keeps the columns and shows `detail`, else `error`, else "Error uploading CSV" |
| Client.TrainRequestFor | frontend/app/page.tsx:59-67 | a request is sent exactly when target and algorithm are both non-empty, and it carries the current target, algorithm and task |
| Client.TrainFailureKeepsResults | frontend/app/page.tsx:62-91 | a transport failure or a truthy `error` leaves score and features unchanged and raises exactly one alert |
| Client.ScoreResolution | frontend/app/page.tsx:74-79 | the score is the first non-nullish value among `metric`, `accuracy` and `r2`, and it is taken only if it is a number |
| Client.FeaturesKeptWithoutArray | frontend/app/page.tsx:81-83 | an accepted body replaces the features only with a `features` array, and otherwise keeps the old list |
| Client.ParseInput | frontend/app/page.tsx:95-97 | one number is sent per comma-separated piece: there is one more number than there are commas |
| Client.ParseInputPieces | frontend/app/page.tsx:95-97 | each number is its piece trimmed then parsed, and a blank piece gives NaN |
| Client.PredictOutcomes | frontend/app/page.tsx:98-106 | an `{"error": ...}` body sets the prediction to "undefined" with no alert; a transport failure keeps the prediction and alerts "Prediction error" |
| Client.PlaceholderPassesGuard | frontend/app/page.tsx:135-146 | the first choice of the target select, the placeholder, passes the train guard and is sent as the target column |
| Client.Session.constructor | frontend/app/page.tsx:7-15 | the initial `useState` values |
| Client.Session.SelectFile | frontend/app/page.tsx:118-122 | the file input sets the chosen file and nothing else |
| Client.Session.SelectTarget | frontend/app/page.tsx:135-139 | the target select sets the target without checking it against the columns; the predict panel shows exactly when the value is non-empty |
| Client.Session.SelectTask | frontend/app/page.tsx:151-155 | the task select sets the task and leaves the algorithm and the results alone |
| Client.Session.SelectAlgorithm | frontend/app/page.tsx:167-171 | the algorithm select sets the algorithm |
| Client.Session.EditTestInput | frontend/app/page.tsx:212-218 | the input box sets the test input |
| Client.Session.Upload | frontend/app/page.tsx:40-57 | sends the chosen file, or nothing and no change without one; a delivered reply sets the columns to exactly the returned list, and a failure alerts its message; the configuration panel shows after a delivered non-empty list, hides after a delivered empty one, and is unchanged otherwise |
| Client.Session.Train | frontend/app/page.tsx:59-92 | sends nothing and changes nothing behind the guard; otherwise score, features and alerts follow the reply as the specification functions state; a shown score stays shown, a numeric score in an accepted body shows it, and a failed reply leaves the stage as it was |
| Client.Session.Predict | frontend/app/page.tsx:94-107 | always sends the parsed input; the prediction becomes `String(prediction)` of any non-null body, and otherwise "Prediction error" is alerted |
| Agreement.CatalogIsLowercase | frontend/app/page.tsx:17-32 | every catalog value is already lowercase, so the backend's lowercasing keeps it |
| Agreement.OfferedTaskIsLowercase | frontend/app/page.tsx:156-161 | both task values the select offers are lowercase |
| Agreement.CatalogValues | frontend/app/page.tsx:17-35 | each task's list offers exactly the keys the backend table accepts for that task |
| Agreement.CatalogMatchesTable | frontend/app/page.tsx:17-35 | for either offered task, the backend builds an estimator for an algorithm if and only if the client's list for that task offers the algorithm's lowercase form |
| Agreement.StaleAlgorithmRejected | backend/train.py:73-104 | any algorithm offered for one task and not for the other is rejected with the other task's error message when sent with the other task |
| Agreement.StaleAlgorithmSent | frontend/app/page.tsx:151-171 | after choosing an algorithm and then switching the task, a train click sends that algorithm with the new task; when the new task's list lacks it, the table rejects it |
| Agreement.UploadAgreement | backend/main.py:42-54 | the client's columns become exactly the frame's columns, and a rejected upload shows the backend's "Invalid CSV: ..." detail |
| Agreement.TrainedBodyRead | backend/main.py:74-80 | a success body sets the client's score to the backend's score and its features to the backend's feature names, and shows the message |
| Agreement.ErrorBodyRead | backend/main.py:82-83 | an error body leaves score and features unchanged and is shown, except that an empty message passes silently |
| Agreement.PredictionBodyRead | backend/main.py:96-100 | a prediction body is shown as `String(prediction)`, and every error body as "undefined" with no alert |
| Agreement.StaleDecodeAfterFailedRetrain | backend/main.py:64-83 | after a successful classifier training, a failed regression retraining keeps the classifier but disables decoding of its predictions |

## Left out

- Training.Lower: `str.lower()` is modelled on the ASCII letters only; other cased letters are left as they are.
- JsNumber.ParseFloatDecimal: values are exact decimals. Rounding to the nearest double, overflow to infinity and the sign of zero are not modelled.
- JsNumber.ParseFloatInteger: the same holds for integers. Above 2^53 a double cannot hold every integer, so `parseFloat` rounds where the model does not.
- Training.EncoderFor: an encoder is identified only by its column. An encoder refitted on another frame cannot be told apart from the earlier fitted one. Neither can the unfitted encoder left in `label_encoder` when `fit_transform` raises.
- Response bodies are assumed to be JSON-encodable. A body that is not would make FastAPI answer with status 500. Examples would be a NaN R² from a one-row test split, or a numpy integer prediction. That case is not modelled. For `/train` it would come after `trained_model` was already reassigned.
- JsValues.ToJsString: the engine's number-to-string conversion is a parameter (`numberText`), not a definition.
- `JSON.stringify` sends NaN as `null`, and FastAPI/pydantic then validates the body. Neither is modelled: the client's `sent` values are the parsed numbers, and the backend's `PredictInput` holds reals.
- pandas and scikit-learn are parameters. What reading the CSV, dropping the target, encoding labels, splitting, fitting and scoring return or raise is given as a `Library` record. Prediction and `inverse_transform` are given as functions. The `stratify` and `random_state` arguments, the test size and the metrics themselves are therefore not modelled.
- The upload's success body is typed as the list of column names. A delivered body without a `columns` list, which would set the columns to `undefined`, is not modelled.
- The following are not modelled: the async interleaving of handlers and two requests in flight at once; `console.error`; the backend URL and `next.config.ts` rewrite; CORS; the `GET /` health endpoint; the score formatting with `toFixed`.
- Every setter and handler of `Client.Session` may be called in any state. The page renders the selects and the Train button only when `columns.length > 0` (frontend/app/page.tsx:130), and the Predict button only when `target` is non-empty (frontend/app/page.tsx:200); no contract depends on that gating.
- A JavaScript runtime error other than a `null` prediction body is not modelled.
