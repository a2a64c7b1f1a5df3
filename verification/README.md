# Ronin trader classification: request validation and prediction responses

This project models the request-validation and prediction-response contract of
the Ronin trader classifier, and proves properties of it in Dafny. The service
takes a pre-trained binary classifier and predicts whether a Ronin blockchain
trader will remain active. The contract exists in three variants, and the model
keeps their differences:

- **`/predict`** (`Api.PredictOne`) validates one JSON record in this order:
  empty body, then missing features as a set difference, then each required
  field in feature-name order (type check before sign check, first failure
  wins). It then builds the ordered feature row and maps the classifier's
  answer to a fixed result record that echoes the whole body.
- **`/predict_batch`** (`Api.PredictBatch`) checks the `traders` container and
  then loops over the traders. Each trader is checked for missing features
  only. The first bad trader aborts the batch with no partial results. On
  success there is one indexed result per trader and a good/bad/total summary.
- **`RoninTraderPredictor`** (`Library`) has three parts. `validate_input`
  checks presence, then negativity in the record's own key order. It does no
  type check and skips keys that are not features. `predict_single` uses the
  same result mapping as the service. `predict_batch` takes a DataFrame,
  checks its columns, selects them in feature order, and adds five prediction
  columns.

The classifier is a parameter `Scoring.Classifier = seq<Value> -> Option<Output>`.
It is an opaque, deterministic function of the row handed to `np.array`. It
returns `None` when the numeric library raises. The feature names are a
parameter too, because both are loaded once at start-up. JSON values are
`Json.Value`. Python's rules are written out where the code depends on them:
truthiness for `if not data`, `isinstance(v, (int, float))` (which accepts
booleans), `v < 0` (which raises on non-numbers), and `in` (key, element or
substring membership, depending on the container). An exception caught by a
view's `except` becomes the error `Internal` (status 500).

Files: `wrappers.dfy` (Option, Result), `json.dfy`, `features.dfy` (the
required set, the missing set, the ordered row), `scoring.dfy` (result mapping),
`api.dfy` (`app.py`), `library.dfy` (`predict.py`), `agreement.dfy` (where the
service and the library accept the same records), `examples.dfy` (the manual
harness inputs, and the places where the service and the library disagree).

## Behaviour worth knowing

The model follows the code. The points below are where the code differs from
what a reader of the view docstrings (app.py:73-92, 150-190) might expect.

- A boolean feature value passes `/predict`'s type check, because `bool` is a
  subclass of `int` (`Examples.BooleanPassesTypeCheck`).
- `/predict_batch` makes no type or sign check, so a negative count reaches the
  model (`Examples.BatchSkipsSignCheck`).
- Per-field validation stops at the first failing field in feature-name order.
  The library instead reports the first negative value in the record's own
  order (`Examples.NegativeReportOrderDiffers`).
- Nothing in the code makes the two class probabilities sum to one, so no
  contract claims it.
- The label tests `class == 1` but the flag tests `class != 0`. The batch
  summary counts the flag. The two agree exactly when the class is 0 or 1
  (`Scoring.LabelAgreesWithFlag`, `Scoring.LabelAndFlagDivergeOutsideBinary`).
  A two-class model whose classes are not {0, 1} (say {0, 2}) makes them
  diverge.

## Model

| member | source | states |
|---|---|---|
| Json.BelowZero | predict.py:57 | Python's `value < 0` is defined exactly for numbers and booleans (otherwise a TypeError); it is true exactly for a negative int or float |
| Json.Truthy | app.py:98 | a value is falsy exactly when it is None, False, zero, or an empty str, list or dict |
| Json.TypeNameIdentifiesKind | app.py:112-115 | the reported type name identifies the JSON kind: each of `NoneType`, `bool`, `int`, `float`, `str`, `list` and `dict` is given for exactly one kind of value, and `isinstance(v, (int, float))` holds exactly for the kinds named `bool`, `int` and `float` |
| Json.Contains | app.py:196 | `'traders' in data` is key membership for a dict, element membership for a list and substring search for a str, and raises for values that are not containers |
| Features.Missing | app.py:102 | the reported missing set holds exactly the feature names that are not keys of the record, and it is empty exactly when every feature is present |
| Features.Row | app.py:125 | the model row has one cell per feature name, and cell k holds the record's value for feature k, in feature-name order |
| Scoring.Label | app.py:133 | the label is "Good Trader" exactly for class 1, and "Bad Trader" otherwise |
| Scoring.Confidence | app.py:135 | confidence is at least each class probability and equals one of them (their maximum) |
| Scoring.MakePrediction | app.py:132-139 | the result record gives the label for class 1, the activity flag for every nonzero class, the confidence as the maximum probability, good = p[1], bad = p[0], and echoes the input unchanged |
| Scoring.LabelAgreesWithFlag | app.py:133-134 | for a class in {0, 1}, the label is "Good Trader" exactly when the trader is predicted to remain active |
| Scoring.LabelAndFlagDivergeOutsideBinary | app.py:133-134 | a class other than 0 and 1 is labelled "Bad Trader" yet flagged as remaining active |
| Api.CheckFields | app.py:111-122 | no error exactly when every required value is a non-negative number; otherwise the error is that of the first failing feature in feature-name order, a type error if the value is not a number and a negative-value error if it is |
| Api.CheckFieldsReadsOnlyRequired | app.py:111-122 | the per-field checks look only at the values of the feature names |
| Api.PredictOne | app.py:94-141 | "No data provided" exactly for a falsy body; a non-dict body raises (500); a missing feature gives exactly the missing set, before any value is examined; when every feature is present but some value fails, the reply is the error of the first failing feature in feature-name order, a type error with its type name for a non-number and a negative-value error with the value otherwise; the reply is the 500 `Internal` exactly for a truthy non-dict body or for a body that passes every check and then makes the classifier raise; success means every feature is present and is a non-negative number, and the result is the mapped classifier answer on the feature-ordered row, echoing the body |
| Api.ExtraKeyNeverRejects | app.py:102-108 | on a non-empty record, adding a key that is not a feature name never changes the outcome: the same error, or the same prediction echoing the larger record |
| Api.TradersOf | app.py:196-205 | the batch container is accepted exactly when the body is a dict whose `traders` is a non-empty list; the absent-key, not-a-list and empty-list errors occur exactly in their cases |
| Api.TraderStep | app.py:209-233 | a trader is processed exactly when it is a dict holding every feature and the model answers, giving the shared result record echoing the trader; a non-dict raises; a dict lacking a feature always gives the missing set (never a model failure); the model fails exactly when the dict is complete and the classifier raises |
| Api.FaultAt | app.py:213-216 | a trader lacking features gets a 400 naming its index and missing set; every other trader fault is a Python exception caught as a 500 |
| Api.ProcessTraders | app.py:208-233 | either every trader succeeds and result j carries index start+j and that trader's prediction, or the error is that of the lowest-index failing trader, and no partial results are returned |
| Api.CountActive | app.py:236-237 | the good-trader count is the number of results whose flag says the trader remains active, and never exceeds the number of results |
| Api.PredictBatch | app.py:192-247 | container errors come first; success happens exactly when every trader passes; result k has index k and echoes trader k; total = number of traders ≥ 1 and good + bad = total; otherwise the error is the first failing trader's |
| Api.OneActiveSummary | app.py:236-244 | an accepted batch in which exactly one trader is flagged active is summarised as total n, good 1, bad n - 1 |
| Api.BinaryGoodCountsLabels | app.py:227-236 | with a classifier that answers only classes 0 and 1, the good-trader count equals the number of results labelled "Good Trader" |
| Api.PredictOneLabelAgreesWithFlag | app.py:133-134 | with a classifier that answers only classes 0 and 1, `/predict` labels a trader "Good Trader" exactly when it flags the trader as remaining active |
| Library.ToMap | predict.py:81 | looking a key up in a record gives the value paired with that key, and the lookup table has exactly the record's keys |
| Library.ScanNegatives | predict.py:55-58 | the scan passes exactly when every required entry compares as non-negative; otherwise it fails at the first such entry in the record's own order, with a ValueError if the value is negative and a TypeError if it does not compare |
| Library.ValidateInput | predict.py:41-60 | returns True exactly when every feature is present and every required entry is a non-negative number; missing features are reported as a set before any value is examined; otherwise the first bad required entry in record order decides the error |
| Library.ScanSkipsExtraPair | predict.py:56-58 | the negativity scan never looks at an entry whose key is not a feature name, wherever that entry sits in the record |
| Library.ExtraPairIgnored | predict.py:51-58 | inserting a non-feature key with any value, even a negative one, never changes the outcome of `validate_input` |
| Library.PredictSingle | predict.py:62-99 | validation errors propagate unchanged; the row is built and classified only after validation succeeds; on success the result is the shared mapping of the model's answer on the feature-ordered row, echoing the record |
| Library.AppendColumns | predict.py:125-130 | assigning columns keeps every existing label at its position (an existing label is overwritten in place), appends new ones, and never duplicates a label; when the added labels are distinct and all new, they are appended in assignment order |
| Library.AddPredictionColumns | predict.py:124-130 | the output frame keeps every input row and column, in order, and gains the five prediction columns; when none of them was already a column, they follow the input columns in assignment order (`prediction`, `will_remain_active`, `confidence`, `probability_good_trader`, `probability_bad_trader`) |
| Library.SelectColumns | predict.py:117 | `traders_df[feature_names]` gives one feature-ordered row per input row |
| Library.ClassifyAll | predict.py:120-121 | the model answers every row, in row order, or the call raises |
| Library.PredictionCells | predict.py:125-130 | a row gains exactly the five prediction columns, holding the same label, confidence and probabilities as the service's result record, and under `will_remain_active` the raw class itself, whose non-zero-ness is the service's activity flag |
| Library.PredictFrame | predict.py:101-132 | a missing column is reported exactly when one of the feature names is absent; otherwise the output has the same rows, all original columns as a prefix, then (when none of them was already a column) the five prediction columns in assignment order, filled from the model's answer on each selected row |
| Library.PredictFrameRows | predict.py:124-130 | every row keeps its input cells (such as `wallet`) under labels that are not prediction columns, and gets the label, the raw class, the confidence and both probabilities from the shared mapping |
| Agreement.FieldChecksAgree | predict.py:55-58 | when every feature is present, the library's negativity scan passes exactly when the service's per-field checks pass, even though it makes no type check |
| Agreement.ServiceAgreesWithLibrary | predict.py:62-99 | on a non-empty dict, `/predict` succeeds exactly when `predict_single` does; both report a missing feature, and the same missing set; on success both give the same label, flag, confidence and probabilities |
| Examples.IncompleteRecordRejected | test_api.py:170-187 | a record with only `tx_count_365d` and `total_volume` is rejected with missing = {active_weeks, avg_tx_value, tx_per_active_week} |
| Examples.NegativeCountRejected | test_api.py:194-213 | `tx_count_365d = -10`, with the other features valid, is rejected, naming that feature and that value |
| Examples.BatchSkipsSignCheck | app.py:209-219 | the same record with `tx_count_365d = -10`, sent as a one-trader batch, is accepted whenever the classifier answers the row |
| Examples.BooleanPassesTypeCheck | app.py:112 | a boolean feature value passes the single-record checks |
| Examples.StringValueDiffers | predict.py:56-58 | a string feature value gets a 400 naming type `str` from the service, but raises a TypeError in the library |
| Examples.NegativeReportOrderDiffers | predict.py:56-58 | with two negative features, the service reports the first in feature order and the library reports the first in record order |
| Examples.HarnessBatchAccepted | test_api.py:118-141 | under the example classifier `GoodAtFiveHundred` (good exactly when the yearly count is 500), the harness's three-trader batch is accepted with three results, and only the first trader is predicted active |
| Examples.HarnessBatchSummary | app.py:236-244 | under the same example classifier, the harness batch is summarised as total 3, good 1, bad 2 |

## Left out

- Model and feature-name loading (`load_model`, the predictor's constructor): this is file I/O, unpickling and environment-variable reads. The classifier and the feature names are parameters instead.
- Classifier internals: the random forest's `predict` and `predict_proba` are an opaque function. `np.array`'s conversion of the row, including booleans, strings and None, is inside that function. Its failure is `None`.
- `percentage_good` and the `float(...)` conversions: these are floating point. Probabilities are exact reals, the summary percentage is not computed, and NaN and infinities are not represented.
- Error message texts and the 500 response's `message`/`traceback`: each error keeps its structured fields (feature, type name, value, missing set, index), and `Internal` carries no text.
- Request parsing by Flask (content type, malformed JSON): the model starts from the value `get_json()` returns, and `Null` stands for None.
- The order of the `missing` list: `list(set)` order depends on hashing, so the model reports a set.
- The constant endpoints `home`, `health` and `get_features`, plus routing and start-up: they return fixed JSON.
- Scoring.Confidence: it takes the maximum of the two class probabilities of a binary model (`Scoring.Output` holds two). For a model with three or more classes, `max(probability)` at app.py:135 ranges over more entries, and that case is not modelled.
- Library.PredictFrame: sklearn refusing a frame with no rows is not modelled. Neither are pandas dtypes or duplicate column labels (the model requires distinct labels). The matrix call is modelled row by row.
- The library's `main()` and its printing, the manual test harness (its inputs appear only as example lemmas), and the Dune fetch script: these are I/O.
- Repeatability of a prediction: it holds by construction, because every operation is a pure function.
