# Heart-failure risk prediction — a verified model of its core logic

This project models the deterministic parts of a heart-disease risk
predictor in Dafny and proves properties about them. The predictor trains a
random-forest classifier on thirteen clinical features (age, sex, chest-pain
type, blood pressure, cholesterol, fasting blood sugar, ECG result, maximum
heart rate, exercise angina, ST depression, ST slope, vessel count,
thalassemia). It serves predictions over HTTP and shows them in a browser
form. The model covers five pieces:

- **Synthetic training data** (`synthetic_data.dfy`, module `SyntheticData`):
  - the value domains of the offline generator;
  - the five risk masks;
  - the label array, which is zero-initialised and then overwritten in place, in precedence order. It is proved equal to the closed form `critical ∨ severe ∨ (moderate ∧ ¬protective)`.
  - The offline trainer scales all thirteen columns with one scaler, and this variant is kept separate.
- **The model object** (`heart_model.dfy`, module `HeartModel`, class `HeartFailureModel`):
  - the numeric/categorical split;
  - standardisation of the five numeric columns only, with parameters fitted on the training split;
  - pass-through of the eight categorical columns, and re-assembly in canonical column order, identical for training and inference;
  - the confusion counts, sensitivity and specificity;
  - the descending importance sort;
  - the model/scaler artifact pairing on save and load.
  - The scaler is an abstract per-column affine map, and its fitting rule is a parameter. The forest is an opaque classifier.
- **The HTTP service** (`api.dfy`, module `Api`, class `PredictionService`):
  - the in-memory prediction history: append on a successful predict, list, and delete by index;
  - the response message;
  - the constant feature-domain table;
  - the static importance ranking. Its weights are handled as integers in ten-thousandths.
- **Data cleaning** (`data_preparation.dfy`, module `DataPreparation`):
  - a column-by-column coercion loop, proved equal to a row-wise reference;
  - target binarisation;
  - the drop of incomplete rows.
- **The browser form** (`frontend.dfy`, module `Frontend`):
  - assembly of the thirteen-key record;
  - the check that rejects the first unparsed value and names its key;
  - how a response is classified and defaulted for display.

Shared modules:

- `wrappers.dfy` holds `Option` and `Result`.
- `features.dfy` holds the feature lists.
- `frames.dfy` models the DataFrame and scaler operations the core uses:
  - column selection by name, raising a key error that lists the missing names;
  - column assignment, which replaces or appends;
  - scaler fit and transform, where a zero standard deviation becomes 1 and transform insists on the fitted column names, in order, and at least one row.

Two behaviours of the code a caller might not expect:

- `load_model` replaces the classifier before the scaler file is read. A missing scaler file therefore leaves a new classifier beside the old scaler. `HeartFailureModel.LoadModel` states this partial update.
- The code has no zero-denominator guard for sensitivity and specificity. In the code, though, a test split missing one class already fails in the ROC-AUC step. `Evaluate` models that failure, and proves both denominators positive whenever evaluation succeeds.

## Model

| member | source | states |
|---|---|---|
| Features.FeatureSplit | model/heart_model.py:37-42 | 13 names split 5 numeric / 8 categorical, each list without repeats, the two disjoint, and a name is a feature exactly when it is numeric or categorical |
| Frames.Select | model/heart_model.py:147 | selection fails exactly when a requested name is absent, with a key error listing exactly the absent names; on success the index is kept and the columns are the requested ones in the requested order |
| Frames.Put | model/heart_model.py:168 | after assigning a column its name looks up the new column, every other name still looks up its old column, no name but its own is added, and every column is the new one or an old one |
| Frames.AssignColumns | model/heart_model.py:61-62 | `dst[names] = src[names]` fails exactly when src lacks a name; on success every assigned name looks up src's column, every other column of dst is kept, the index is dst's, and the result stays rectangular |
| Frames.AffineFrom | model/heart_model.py:45 | the fitted scale is the standard deviation, or 1 when that is 0 |
| Frames.Standardize | model/heart_model.py:45-46 | standardising is invertible: `z·scale + mean` gives the input back |
| Frames.FitParams | model/heart_model.py:45 | definition (used by `Frames.Fit`): one fitted affine map per column, in column order, each fitted on that column's values |
| Frames.Fit | model/heart_model.py:45 | fitting fails on a frame without rows or without columns, otherwise yields a fitted scaler over the frame's column names |
| Frames.Transform | model/heart_model.py:46 | transform fails unless the scaler is fitted on exactly the frame's column names in order and the frame has a row; then it standardises every column with its own parameters and keeps the index |
| Frames.Standardized | model/heart_model.py:158 | definition (used by `Frames.Transform`): the index and column names are kept and every column is mapped by its own affine map |
| SyntheticData.Clip | backend/train_model.py:15 | the result lies in [lo, hi] and equals the input when it already does |
| SyntheticData.ClipToInt | backend/train_model.py:22 | clip followed by truncation stays within the integer bounds |
| SyntheticData.Generate | backend/train_model.py:15-31 | every generated record lies in the generator's domains (age 25..80, trestbps 90..200, chol 120..400, thalach 70..200, oldpeak 0..6.2, codes in their randint ranges, binary flags); fbs is 1 exactly when the sugar draw exceeds 120 |
| SyntheticData.ClosedFormLabel | backend/train_model.py:91-95 | the label is 0 or 1, and 1 exactly when critical, severe, or moderate without protection |
| SyntheticData.CriticalRisk | backend/train_model.py:40-44 | definition (used by `ClosedFormLabel` and `AssignLabels`): three or more vessels, ST depression above 4.5, or asymptomatic pain with exercise angina and at least two vessels |
| SyntheticData.SevereRisk | backend/train_model.py:47-52 | definition (used by `ClosedFormLabel` and `AssignLabels`): the four age, heart-rate, blood-pressure and pain combinations of the severe mask |
| SyntheticData.ModerateRisk | backend/train_model.py:55-62 | definition (used by `ClosedFormLabel` and `AssignLabels`): the six disjuncts of the moderate mask |
| SyntheticData.Protective | backend/train_model.py:65-74 | definition (used by `ClosedFormLabel` and `AssignLabels`): all eight protective bounds hold at once |
| SyntheticData.VeryLowRisk | backend/train_model.py:77-88 | definition (used by `AssignLabels`): all ten very-low-risk bounds hold at once |
| SyntheticData.AssignWhere | backend/train_model.py:91 | `y[mask] = v` sets every selected entry to v and leaves every other entry as it was |
| SyntheticData.AssignLabels | backend/train_model.py:37-95 | after zero-initialisation and the five overwrites in precedence order, every entry of the array equals the closed-form label |
| SyntheticData.CreateHeartDiseaseDataset | backend/train_model.py:9-97 | 3000 records, each generated from its draws and within the domains, with labels equal to the closed form |
| SyntheticData.VeryLowIsProtective | backend/train_model.py:65-88 | every very-low-risk record is protective |
| SyntheticData.ProtectiveExcludesCriticalAndSevere | backend/train_model.py:40-74 | no protective record is critical or severe |
| SyntheticData.VeryLowNeverCritical | backend/train_model.py:95 | the very-low override never meets a critical record, so it never downgrades critical risk |
| SyntheticData.CriticalIsLabelledHigh | backend/train_model.py:91 | every critical record is labelled 1 |
| SyntheticData.SevereIsLabelledHigh | backend/train_model.py:92 | every severe, non-critical record is labelled 1 |
| SyntheticData.ModerateUnprotectedIsLabelledHigh | backend/train_model.py:93 | every moderate record that is neither critical, severe nor protective is labelled 1 |
| SyntheticData.ProtectiveIsLabelledLow | backend/train_model.py:94 | every protective record is labelled 0 |
| SyntheticData.NoRiskIsLabelledLow | backend/train_model.py:37 | a record in no risk mask keeps the initial 0 |
| SyntheticData.VeryLowRiskCaseLabel | backend/train_model.py:146-160 | the "Very Low Risk" case is not in the very-low mask (age 35 is not below 35) but is protective, in the domains, and labelled 0 |
| SyntheticData.VeryHighRiskCaseLabel | backend/train_model.py:161-175 | the "Very High Risk" case is critical through its three vessels (ST depression 4.5 is not above 4.5), in the domains, and labelled 1 |
| SyntheticData.PatientFrame | backend/train_model.py:34 | definition (used by `SyntheticData.ScaleAllFeatures`): the generated records as a well-formed frame with the canonical columns and one row per record, values in field order |
| SyntheticData.ScaleAllFeatures | backend/train_model.py:108-110 | scaling succeeds exactly when both splits have rows; both splits are standardised, every one of the thirteen columns, with the parameters fitted on the training split |
| HeartModel.Row | model/heart_model.py:174-175 | definition (used by `Classify` and `Probabilities`): a row holds one value per column, each the column's value at that row |
| HeartModel.Classify | model/heart_model.py:174 | definition (used by `HeartFailureModel.Evaluate`): one label per row, in row order, each the classifier's label for that row |
| HeartModel.Probabilities | model/heart_model.py:175 | definition: one probability per row, in row order, each the classifier's probability for that row |
| HeartModel.FitNumeric | model/heart_model.py:45 | fitting on the training split succeeds exactly when its five numeric columns are present and it has a row, and the scaler is then the one fitted on the training split's numeric columns, in numeric order |
| HeartModel.TransformColumns | model/heart_model.py:45-66 | definition (used by `HeartFailureModel.PreprocessData` and `Predict`; its properties are `TransformColumnsSpec`): select the numeric columns, standardise them, add the categorical columns back, put the columns in canonical order; the first failing step's error otherwise |
| HeartModel.TransformColumnsSpec | model/heart_model.py:49-66 | the shared column treatment succeeds exactly when all 13 features are present, the scaler was fitted on the numeric names and there is a row; the result keeps the index, has the canonical column order, passes every categorical column through unchanged, and standardises every numeric column with its fitted parameters |
| HeartModel.SelectedTransformsAlike | model/heart_model.py:147-171 | selecting the thirteen features before the treatment gives the same result as treating the frame directly |
| HeartModel.Pairs | model/heart_model.py:109 | definition (used by `CountPairsIsMultiplicity`): the (true, predicted) pair at each test position |
| HeartModel.CountPairs | model/heart_model.py:109 | a confusion cell counts at most one entry per position |
| HeartModel.CountPairsIsMultiplicity | model/heart_model.py:109 | a confusion cell is the number of positions carrying its (true, predicted) pair: that pair's multiplicity in the multiset of position pairs |
| HeartModel.ConfusionTotal | model/heart_model.py:109-112 | with two classes, tn+fp+fn+tp is the number of test labels, fn+tp counts the positives, tn+fp the negatives, and tn+tp the exact matches |
| HeartModel.Confusion | model/heart_model.py:109-112 | definition (used by `Score`; its properties are `ConfusionTotal` and `CountPairsIsMultiplicity`): the unpacked matrix tn, fp, fn, tp, each the count of its (true, predicted) pair |
| HeartModel.BothClassesCounted | model/heart_model.py:108-114 | when both classes occur, both class counts are positive |
| HeartModel.Sensitivity | model/heart_model.py:113 | the rate times tp+fn is tp, so it is tp/(tp+fn); it lies in [0, 1], is 1 exactly when there are no false negatives, and 0 exactly when there are no true positives |
| HeartModel.Specificity | model/heart_model.py:114 | the rate times tn+fp is tn, so it is tn/(tn+fp); it lies in [0, 1], is 1 exactly when there are no false positives, and 0 exactly when there are no true negatives |
| HeartModel.Score | model/heart_model.py:107-114 | the counts are the confusion cells and add up to the test size; both rate denominators are the positive class sizes; accuracy times the test size is the number of matches |
| HeartModel.Zip | model/heart_model.py:127-129 | definition (used by `HeartFailureModel.GetFeatureImportance`): one (feature, importance) pair per feature, in feature order |
| HeartModel.Insert | model/heart_model.py:130 | inserting into a non-increasing ranking keeps it non-increasing and adds exactly that row |
| HeartModel.SortByImportance | model/heart_model.py:130 | the descending sort is a non-increasing permutation of its input |
| HeartModel.SortKeepsSorted | model/heart_model.py:130 | a ranking whose importances strictly decrease is returned as it is (with no ties its sorted order is unique) |
| HeartModel.ScalerPath | model/heart_model.py:181-185 | the scaler lives in the model path's directory under `scaler.joblib`, and coincides with the model path exactly when the model is itself named `scaler.joblib` |
| HeartModel.AsModel | model/heart_model.py:191 | definition (used by `ArtifactPair` and `HeartFailureModel.LoadModel`): the object loaded from the model file, used as the classifier |
| HeartModel.AsScaler | model/heart_model.py:192 | definition (used by `ArtifactPair` and `HeartFailureModel.LoadModel`): the object loaded from the scaler file, used as the scaler |
| HeartModel.ArtifactPair | model/heart_model.py:189-192 | a load finds the pair exactly when both files exist; a missing model file is reported first, and a missing scaler file is reported as scaler.joblib in the model's directory |
| HeartModel.HeartFailureModel.constructor | model/heart_model.py:13-19 | a new model has no classifier and an unfitted scaler |
| HeartModel.HeartFailureModel.PreprocessData | model/heart_model.py:34-68 | the scaler becomes the one fitted on the training split's numeric columns (kept even if a later step fails); a fit that starts and fails (the numeric columns are present but the split has no rows) leaves the scaler reset to unfitted, and a missing numeric column leaves it as it was; preprocessing succeeds exactly when the shared column treatment with that scaler succeeds on both splits, and then returns exactly those two treated frames |
| HeartModel.HeartFailureModel.Train | model/heart_model.py:97 | the selected estimator becomes the classifier; the scaler is untouched |
| HeartModel.HeartFailureModel.Evaluate | model/heart_model.py:101-122 | without a classifier evaluation fails; it succeeds exactly when the label count matches the rows, the test labels are exactly two classes, and every prediction is one of them; the report is then the score of the predictions |
| HeartModel.HeartFailureModel.GetFeatureImportance | model/heart_model.py:124-142 | without a classifier it fails; with one importance per feature it returns one row per feature, non-increasing, a permutation of the (feature, importance) pairs |
| HeartModel.HeartFailureModel.Predict | model/heart_model.py:144-177 | prediction succeeds exactly when the shared column treatment with the loaded scaler succeeds and a classifier is loaded; it then gives one label and one probability per input row, each the classifier's on that row of the treated frame, which keeps the input's index |
| HeartModel.HeartFailureModel.SaveModel | model/heart_model.py:179-185 | after saving, the scaler is at the scaler path, the classifier at the model path (unless the two coincide), and every other file is unchanged |
| HeartModel.HeartFailureModel.LoadModel | model/heart_model.py:187-192 | a missing model file changes nothing; a missing scaler file is reported as scaler.joblib in the model's directory and leaves the new classifier beside the old scaler; with both files the pair is loaded |
| HeartModel.SaveThenLoad | model/heart_model.py:181-192 | a saved pair is found again on load, unless the model file is itself named `scaler.joblib` |
| HeartModel.SaveUnderScalerName | model/heart_model.py:184-185 | a model saved under the scaler's file name is overwritten by the scaler and comes back as no classifier |
| Api.FrameOf | api/app.py:33 | definition (used by `Api.PredictionService.Predict`): a request body becomes a one-row frame with index 0 and one column per key, in key order |
| Api.Message | api/app.py:42 | the message is the high-risk one exactly when the prediction is 1, the low-risk one otherwise |
| Api.Status | api/app.py:55-69 | a failed predict is a 400, a bad delete index a 404 |
| Api.ResponseFor | api/app.py:39-44 | the response carries the first row's label and probability, the given timestamp, and the high-risk message exactly for label 1 |
| Api.RemoveAt | api/app.py:67 | removing at i drops exactly that element: one fewer, earlier ones in place, later ones shifted down by one |
| Api.PredictionService.constructor | api/app.py:24 | the history starts empty |
| Api.PredictionService.Predict | api/app.py:26-56 | a request succeeds exactly when the model predicts on its frame; success appends exactly one (body, response) record at the end, failure appends nothing and is a bad request carrying the cause |
| Api.PredictionService.GetPredictions | api/app.py:58-61 | listing returns the history unchanged |
| Api.PredictionService.DeletePrediction | api/app.py:63-69 | a valid index removes exactly that record and reports success; any other index leaves the history unchanged and is not found |
| Api.PredictAnswersOneRow | api/app.py:36-41 | a successful prediction for a request body has exactly one label and one probability |
| Api.PredictDefinedFor | api/app.py:30-36 | a request is predicted exactly when a classifier and a numeric-column scaler are loaded and the body carries all thirteen features |
| Api.FeatureTableShape | api/app.py:78-174 | the table documents the thirteen features in canonical order, numeric entries for exactly the numeric features, each with lo < hi, and value descriptions only for listed codes |
| Api.CategoricalCodes | api/app.py:84-172 | sex, fbs and exang allow {0,1}; restecg and slope {0,1,2}; cp, ca and thal {0,1,2,3} |
| Api.AsImportances | api/app.py:181-195 | each served weight is its ten-thousandths count divided by 10000 |
| Api.StaticImportanceOrdered | api/app.py:181-195 | thirteen entries, strictly decreasing |
| Api.StaticImportanceSum | api/app.py:181-195 | the weights sum to exactly 10000 ten-thousandths |
| Api.StaticImportanceIsSorted | api/app.py:181-195 | the served ranking is already in the order the model's importance sort produces |
| DataPreparation.ToNumeric | utility/data_preparation.py:27 | coercion yields a number or missing; numbers and missing are kept, and text becomes a number exactly when it parses |
| DataPreparation.ToNumericIdempotent | utility/data_preparation.py:26-30 | coercing twice is coercing once |
| DataPreparation.Binarise | utility/data_preparation.py:33 | the target becomes 0 or 1, 1 exactly for a positive number |
| DataPreparation.KeepComplete | utility/data_preparation.py:36 | every kept row is an input row with no missing cell |
| DataPreparation.KeepCompleteMembers | utility/data_preparation.py:36 | a row is kept exactly when it is an input row with no missing cell |
| DataPreparation.KeepCompleteAppend | utility/data_preparation.py:36 | dropping commutes with concatenation, so kept rows keep their relative order |
| DataPreparation.FirstAbsent | utility/data_preparation.py:26-33 | none exactly when all requested names are present; otherwise a requested name missing from the header before which every requested name is present |
| DataPreparation.CoerceColumn | utility/data_preparation.py:27 | one column is coerced in every row and every other cell is kept |
| DataPreparation.CoerceColumns | utility/data_preparation.py:26-30 | the loop fails exactly when a listed column is absent, with a key error naming the first such; otherwise every listed column is coerced in every row and every other cell is kept |
| DataPreparation.BinariseColumn | utility/data_preparation.py:33 | the target is binarised in every row and every other cell is kept |
| DataPreparation.PrepareData | utility/data_preparation.py:15-36 | the numeric-then-categorical coercion loops, the binarisation and the drop give exactly the row-wise reference: a key error for the first absent column (the listed columns, then the target), a type error for text in the target, otherwise every raw row cleaned cell by cell with the incomplete rows dropped |
| DataPreparation.AbsentInOrder | utility/data_preparation.py:26-33 | the first absent column is sought among the numeric columns, then the categorical ones, then the target |
| DataPreparation.CleanRowTarget | utility/data_preparation.py:33 | a cleaned target is 0 or 1, 1 exactly when the raw target is a positive number, and a missing target becomes 0 |
| DataPreparation.CleanRowCoerced | utility/data_preparation.py:26-30 | each listed column of a cleaned row is the coerced raw cell, a number or missing |
| DataPreparation.CleanedRows | utility/data_preparation.py:26-36 | the cleaned table keeps the header; each of its rows is complete, has a number in every listed column, and a 0/1 target |
| DataPreparation.CleanedKeeps | utility/data_preparation.py:33-36 | every raw row whose cleaned form is complete is kept, and a missing target alone never drops a row |
| Frontend.AssembleRecord | frontend/js/script.js:25-39 | the record has exactly the thirteen keys in canonical order, each with its parsed field |
| Frontend.InvalidValueMessage | frontend/js/script.js:44 | the error message ends with the offending key |
| Frontend.ValidateRecord | frontend/js/script.js:42-49 | the check succeeds exactly when every value parsed, returning the record unchanged; otherwise its error names the first key, in insertion order, whose value did not parse |
| Frontend.GetFormData | frontend/js/script.js:23-54 | a complete form yields the record with the thirteen keys in canonical order; otherwise the error names the first feature whose value did not parse |
| Frontend.ValidFormHasAllFields | frontend/js/script.js:25-46 | a record that passes the check has all thirteen form fields present |
| Frontend.ResultClass | frontend/js/script.js:100 | the result is styled high-risk exactly when the prediction is 1 |
| Frontend.DisplayMessage | frontend/js/script.js:102 | the server's message is shown unless absent or empty, in which case the default is shown; never an empty message |
| Frontend.DisplayProbability | frontend/js/script.js:103-107 | a missing probability is shown and charted as 0, otherwise the server's probability |
| Frontend.ChartData | frontend/js/script.js:150 | the chart has two parts, the second the probability, summing to 1 |
| Frontend.ProbabilityPercent | frontend/js/script.js:103-104 | the displayed percentage is the probability times 100, within [0, 100] for a probability in [0, 1] |
| Frontend.DisplayAgrees | frontend/js/script.js:103-107 | the charted high-risk part times 100 is the displayed percentage; a missing probability charts as [1, 0] |

## Left out

- Random sampling: the generator takes its normal, exponential, binomial and randint draws as parameters, and the seed is not modelled. A randint draw's range is its type.
- Forest fitting, the grid search, train_test_split and ROC-AUC are library code (model/heart_model.py:70-99, 108). The classifier is an opaque datatype of per-row label and probability functions plus importances. `Train` receives the selected forest. The ROC-AUC value itself is not computed: only its failure on a test split without exactly two classes is modelled.
- StandardScaler internals: the per-column (mean, standard deviation) rule is a parameter. Only the zero-deviation rule and the name, order and row checks are modelled.
- Floating point: values are reals, so rounding in standardisation and in the rates is not modelled.
- joblib, file and CSV I/O are modelled only as a map from paths to stored artifacts. Directory creation, reading and writing the data file, the data file's existence check, and metrics output are left out. A stored object of the wrong kind loads as no classifier or an unfitted scaler.
- Plotting and figure saving (model/heart_model.py:133-140) and every print are left out.
- HeartModel.HeartFailureModel.Predict: the branch for input that is not a frame is not modelled, because every caller passes a frame.
- HeartModel.HeartFailureModel.PreprocessData: on failure the contract states only that the call fails, not which error it raises. The error is the first failing step's, as in the code. A scaler reset by a failed fit is modelled as unfitted. A later transform with it fails either way, but the model reports not-fitted where scikit-learn may raise a different exception.
- HeartModel.HeartFailureModel.GetFeatureImportance: the contract does not fix the order of rows with equal importance, because the descending sort does not promise one.
- Frames.AssignColumns: pandas aligns assigned columns on the index. Every call site assigns between frames that share one index, so the model assigns by position.
- The DataFrames built inside `preprocess_data` and `predict` are fresh local objects, so they are modelled as values. Their in-place column assignment is modelled as a function from the old frame to the new one. No aliasing is lost.
- HTTP routing, CORS, JSON parsing, the health route and concurrency are left out. Timestamps are a parameter. Request bodies are objects of numeric fields. Non-numeric JSON values and non-object bodies are not modelled. The history is used sequentially.
- Api.PredictionService.DeletePrediction: the route's integer converter does not match negative indices at all. The model applies the handler's own bounds check to any integer, and both ways a negative index is not found.
- DataPreparation: text parsing is a parameter. The raw file is assumed to have unique column names and one cell per column, as the CSV reader guarantees. The index labels that survive the drop are not modelled.
- Frontend: the DOM, fetch, the chart and printing are left out, as are `toFixed` and the module-level chart handle. `parseInt`/`parseFloat` are left out: a parsed value is an `Option`, with NaN as None, and integer truncation by `parseInt` is not modelled.
- backend/model/heart_model.py, backend/app.py, server.js, backend/test_model.py, utility/train_model.py and `load_data` are not part of this model: they are orchestration and transport.
