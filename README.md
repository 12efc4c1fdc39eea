# Churn prediction: the train/serve schema contract

This project models the schema contract of a small churn-prediction system.
A training script reads a customer dataset, resolves the target column and
encodes the labels. It checks that a fixed list of five features is present,
projects the dataset onto them, and coerces `TotalCharges` to a number. It then
splits the features into numeric and categorical columns by dtype, fits a
scikit-learn pipeline, and writes the fitted pipeline and a metadata record
`{feature_names, numeric, categorical}`. A FastAPI service loads both artifacts
once at start-up. It validates every `/predict` request against
`feature_names` before calling the pipeline, and turns the pipeline's answer into
a `prediction` and a two-tier `risk_level`.

Modules:

- `Table` (`table.dfy`): cell values, column dtypes and dataframes (an ordered
  column list, a dtype per column, and rows over the shared column set). It also
  holds the order-preserving filter behind the script's list comprehensions, and
  `MissingNames`, the "required names not present, in order" comprehension that
  both halves use.
- `Training` (`training.dfy`): the training script as pure functions. `Train`
  returns what would be fitted and saved (`Ok`), or the exception that stops the
  script before `fit` and before any file is written (`Err`).
- `Serving` (`serving.dfy`): the service. The class `ServingState` holds the two
  globals assigned at start-up (`model`, `feature_names`). Its constructor `Load`
  mirrors the nested `try`/`except` over the outcomes of the file reads.
  `Predict` is the read-only request handler, proved equal to the specification
  function `Respond`.
- `Wrappers` (`wrappers.dfy`): `Option` and `Result`.

Behaviour of the code that the model keeps, although it is easy to misread:

- The fallback for a missing target column is a case-insensitive *exact* match.
  The last of several columns that match up to case is used. It is not a
  substring search for "churn".
- The risk classifier has two tiers: `High` when the probability is above 0.7,
  `Low` otherwise. There is no `Medium`.
- The fallback label codes are pandas category codes. Their order is the
  library's, not the order in which values are first seen.
- A feature whose dtype is neither int64/float64 nor object/category (a boolean
  column, say) lands in neither `numeric` nor `categorical`. So the two lists
  cover `feature_names` only when no such dtype occurs (`PartitionCoversIff`).
- The synthetic tenure is drawn from 1 to 71, because `randint` excludes its
  upper bound.

## Model

| member | source | states |
|---|---|---|
| `Table.MissingNames` | train.py:59 | the result holds exactly the wanted names that are absent, each as often as it occurs in the wanted list and in the wanted order (a subsequence); it is empty iff every wanted name is present |
| `Training.LowerIndex` | train.py:46 | the lowercase dictionary's keys are the lowercased columns; each key maps to the last column with that lowercase, since later entries overwrite earlier ones |
| `Training.ResolveTarget` | train.py:44-50 | a target that is a column is used unchanged; otherwise the result is the last column equal to it up to case; the result is `Ok` iff such a column exists; otherwise the error names the configured target |
| `Training.ResolveIsNoSubstringSearch` | train.py:44-50 | `ChurnFlag` does not resolve a configured `Churn`: the fallback is an exact match up to case |
| `Training.ResolveTakesLastCaseMatch` | train.py:46-48 | with columns `churn value` and `CHURN VALUE`, the target resolves to the later one |
| `Training.TargetIsNoFeature` | train.py:19-25 | a target resolved from `Churn Value` is never one of the selected features |
| `Training.EncodeLabels` | train.py:52-55 | when every value is `Yes` or `No`, the label is 1 for `Yes` and 0 for `No`; when some value is neither, every label is that value's category code; one label per row |
| `Training.FallbackCodesInjective` | train.py:53-55 | fallback codes give equal values equal codes and distinct present values distinct codes between 0 and the number of categories (exclusive); a missing value gets -1 |
| `Training.Project` | train.py:63 | the projection's columns are exactly the requested features in that order; every row keeps its values for those columns; the frame stays well formed |
| `Training.ProjectIgnoresColumnOrder` | train.py:63 | two datasets that differ only in column order project to the same feature table |
| `Training.CoerceValue` | train.py:67 | a coerced cell is numeric or missing; cells that are not strings are kept; a string becomes missing iff it does not parse; a parsed string becomes the number read from it, an integer iff it was read as one |
| `Training.CoerceTotalCharges` | train.py:65-67 | an object-typed `TotalCharges` becomes int64 or float64; each cell keeps the number read from it, or is missing exactly when nothing could be read; other dtypes and all other columns are unchanged |
| `Training.SelectDtypes` | train.py:70-71 | the selected names are exactly the columns whose dtype is in the requested kinds, in column order |
| `Training.PartitionCoversIff` | train.py:70-71 | every feature is numeric or categorical iff no feature has a dtype outside both lists |
| `Training.SelectedFeaturesDistinct` | train.py:19-25 | the five selected features are distinct |
| `Training.FeatureTable` | train.py:63-67 | the feature table has exactly the selected features in their order, one row per dataset row, and unchanged values outside `TotalCharges`; an object `TotalCharges` becomes numeric, each cell the number read from it or missing exactly when none is read; a `TotalCharges` of any other dtype is unchanged, dtype and cells |
| `Training.MetadataOf` | train.py:104-108 | `feature_names` equals the feature table's columns; `numeric` and `categorical` are disjoint, order-preserving subsequences of it, chosen by dtype |
| `Training.Train` | train.py:44-108 | a target failure is reported first and a feature-check failure (the missing names, in order) second; the script reaches `fit` iff neither occurs; then the metadata is that of the feature table, `feature_names` is the selected list and excludes the target, and the labels are the encoding of the resolved target column, one per row |
| `Training.SyntheticRow` | train.py:32-37 | a generated row has exactly the six columns, each value of its column's dtype; tenure is an integer from 1 to 71, the monthly charge a float in [20, 120), the total charge a float in [20, 5000), the contract and the payment method come from their three-element lists, and the answer is `Yes` or `No` |
| `Training.SyntheticFrameLabelled` | train.py:31-38 | the generated dataframe is well formed, has 100 rows, the five features followed by the answer column with the generators' dtypes, and every row within the generators' ranges |
| `Training.SyntheticFrame` | train.py:31-38 | the fallback dataframe as written has the columns `tenure`, `MonthlyCharges`, `TotalCharges`, `Contract`, `PaymentMethod`, `Churn` |
| `Training.SyntheticTrainingFails` | train.py:16-50 | training on the fallback dataframe as written always fails target resolution |
| `Training.SyntheticFrameCorrected` | train.py:31-38 | the corrected fallback dataframe names its answer column `Churn Value`, keeps the generators' dtypes, and holds only `Yes`/`No` there |
| `Training.SyntheticCorrectedTrains` | train.py:31-71 | the corrected fallback passes the schema checks and reaches `fit`: three numeric and two categorical features, and label 1 exactly for `Yes` |
| `Training.SyntheticLabels` | train.py:52-54 | the corrected fallback's labels are 1 exactly where the answer is `Yes` |
| `Training.SyntheticFeatureDtypes` | train.py:63-71 | the corrected fallback splits into `tenure`, `MonthlyCharges`, `TotalCharges` (numeric) and `Contract`, `PaymentMethod` (categorical) |
| `Training.FallbackDtypesSplit` | train.py:63-71 | any dataset whose five features have the fallback's dtypes splits into the same three numeric and two categorical features |
| `Training.FeatureTableKeepsNumericDtypes` | train.py:63-67 | when `TotalCharges` is already float64, every feature keeps its dtype in the feature table |
| `Training.TelcoSplit` | train.py:70-71 | a feature table with the fallback's dtypes has exactly those numeric and categorical features |
| `Serving.MetaJson` | train.py:104-108 | the metadata file has exactly the keys `feature_names`, `numeric`, `categorical`, holding the record's three lists |
| `Serving.LoadStartup` | src/app.py:28-43 | when the working directory's model and metadata both load, that model is kept and the feature list is read from that metadata; any failure other than file-not-found empties the feature list (and a failed model read leaves no model); after a file-not-found both the model and the feature list come from the parent directory when its model loads, and the feature list is empty unless both parent files load; a non-empty feature list implies a loaded model |
| `Serving.ParentOnlyAfterNotFound` | src/app.py:30-38 | unless the first attempt raised file-not-found, the parent directory's files do not affect the start-up state |
| `Serving.ServingState.Load` | src/app.py:28-43 | the constructor leaves exactly the start-up state `LoadStartup` describes, and that state is valid |
| `Serving.RiskLevel` | src/app.py:73 | `High` iff the unrounded probability is above 0.7, `Low` otherwise |
| `Serving.PredictionText` | src/app.py:71 | `Churn` iff the class label is 1, `No Churn` otherwise |
| `Serving.SuccessBody` | src/app.py:70-74 | a success body has exactly the keys `prediction`, `probability`, `risk_level`; the prediction is `Churn` iff the label is 1 and `No Churn` otherwise; the risk tier is `High` iff the probability is above 0.7 and `Low` otherwise; the probability is the pipeline's |
| `Serving.Respond` | src/app.py:53-76 | an empty feature list gives 500 `Model not loaded` for every request; otherwise missing features give 400 with exactly the missing names in feature order; a complete request gives the pipeline's scored body, or a 500 carrying the pipeline's exception message |
| `Serving.RejectedRequestsNeverReachModel` | src/app.py:54-62 | a request rejected as degraded or incomplete gets the same error whatever the pipeline is |
| `Serving.CompleteRequestsPassValidation` | src/app.py:60-76 | a request that carries every feature passes validation whatever its extra keys; its response is the scored body or the 500 error that the pipeline's answer for it determines |
| `Serving.ServingState.Predict` | src/app.py:53-76 | the handler's response is `Respond` of the loaded state and the request, and the state is unchanged |
| `Serving.RowsCarryAllColumns` | src/app.py:60-61 | a row of a well-formed table misses none of the table's columns |
| `Serving.TrainedArtifactsServe` | src/app.py:40-62 | a service started on a successful run's artifacts requires exactly the selected features, has its model, and accepts every row of the training feature table |

## Findings

| source | as written | input that shows it | evidently intended | confidence | as-written member | corrected member |
|---|---|---|---|---|---|---|
| train.py:37 | the synthetic fallback names its answer column `Churn`, but the target is `Churn Value` (line 16), and resolution matches whole names up to case (lines 44-50) | no `./data/churn.csv`: every generated dataset raises "Target column 'Churn Value' not found." | the fallback dataset reaches `fit`, so its answer column carries the configured target name | high; not executed | `Training.SyntheticTrainingFails` | `Training.SyntheticCorrectedTrains` |

## Left out

- The scikit-learn pipeline (imputers, scaler, one-hot encoder, random forest) is left out. `fit` is not modelled; the fitted pipeline is an opaque `Classifier` from a request row to a class label and probability, or to an exception message. How it ignores extra request columns is not modelled.
- File I/O is left out (`joblib`, `json`, `os.path.exists`, `os.makedirs`, `read_csv`). Each artifact read is a `Load` outcome passed in, and the dataset is a `Frame` passed in, dtypes included.
- CSV dtype inference is not modelled; dtypes come with the frame.
- The random generators are left out. Their draws are parameters constrained to the generators' ranges.
- `pd.to_numeric` string parsing is the parameter `parse`.
- The int64/float64 choice after coercion is simplified: int64 when every cell is an integer, float64 otherwise.
- pandas category ordering is the parameter `categories`. Only injectivity and the code range are proved, not the library's order.
- `Training.Lower`: lowercases ASCII letters only, not Python's full Unicode `str.lower`.
- `round(probability, 4)` is not modelled. The response carries the unrounded probability as a `real`; floating point is not modelled.
- Error texts are kept as data: `MissingFeatures(names)` and `TrainError` values stand for the formatted messages. Python's list rendering inside them is not modelled.
- A metadata `feature_names` value that is not a list of strings is not modelled.
- Duplicate column names in a CSV are excluded by `WellFormed`.
- `print` logging, the `GET /` HTML endpoint, CORS, `uvicorn` start-up and the React client are glue with no schema logic.
