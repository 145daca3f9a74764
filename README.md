# SHDP prediction layer in Dafny

This project models the prediction layer of the Smart Health Disease Prediction backend (`backend/utils/predictor.py`). The layer does three things:

- It validates a caller's symptom list against a fixed per-disease feature count: diabetes 8, heart 13, parkinson 22.
- It runs an opaque classifier on the validated 1 x N row.
- It turns the classifier's output into a response: a display name with a positive or negative indication, a three-band risk level (Low / Medium / High), and a confidence percentage.

The layer has no loops and no state, so everything is a function.

- `wrappers.dfy` (module `Wrappers`): `Option` and `Result`. These stand for `None` returns and for raised exceptions.
- `predictor.dfy` (module `Predictor`):
  - the two configuration tables `FeatureCounts` and `DiseaseNames`;
  - the data model: `Symptom`, `Model`, `Error`, `RiskLevel`, `Estimate` and `Prediction`;
  - the operations `ValidateSymptoms`, `CalculateRiskLevel` and `PredictDisease`, with the helpers they are built from.
- `predictor_properties.dfy` (module `PredictorProperties`): lemmas that relate several calls or several models.

The classifier is a value `Model(predict, predictProba)`. `predict` maps the feature matrix to one class label per row. `predictProba` maps it to one probability vector per row. `predictProba` is `None` when the model object has no `predict_proba` attribute, which is the `except AttributeError` branch. `np.random.randint(0, 20)` in that branch becomes a parameter `jitter` with `0 <= jitter < 20`.

In the source, a model without `predict_proba` takes its probability from the placeholder confidence 75..94, so its risk level is always High. `PredictDisease` states this as it is written.

`validate_symptoms` has no separate check for an empty symptom list. Its caller in backend/app.py:62 rejects an empty list before calling it. Inside `validate_symptoms`, an empty list for a known disease type fails the length check like any other wrong length. The model follows `validate_symptoms`.

## Model

| member | source | states |
|---|---|---|
| `Predictor.Coerce` | backend/utils/predictor.py:50-53 | float coercion succeeds exactly when every element is numeric; it then keeps the length and the values in order |
| `Predictor.ValidateSymptoms` | backend/utils/predictor.py:39-55 | an unknown disease type fails, naming the type; a known type with the wrong length fails with the expected and received counts; a right-length list with a non-numeric element fails; otherwise the result is one row of exactly FEATURE_COUNTS[type] values equal to the inputs in order (success if and only if all three checks pass) |
| `Predictor.CalculateRiskLevel` | backend/utils/predictor.py:68-73 | Low if and only if p < 0.3, Medium if and only if 0.3 <= p < 0.6, High if and only if p >= 0.6; each band includes its lower bound |
| `Predictor.PositiveClassProbability` | backend/utils/predictor.py:103 | the selected probability is an entry of the vector: entry 1 when there are two or more entries, entry 0 when there is one; an empty vector raises IndexError |
| `Predictor.EstimateRisk` | backend/utils/predictor.py:99-109 | without predict_proba the confidence is the integer 75 + draw, within [75, 94], and the probability is confidence / 100; with predict_proba the estimate exists exactly when there is a first vector and it is non-empty; the probability is then its positive-class entry (entry 1 if it has two or more entries, else entry 0), with confidence = probability * 100; otherwise the error is EmptyModelOutput (the IndexError) |
| `Predictor.TitleFrom` | backend/utils/predictor.py:116 | `str.title` fallback: same length; each letter is upper-cased at the start of a run of letters and lower-cased inside one; other characters are unchanged |
| `Predictor.DisplayName` | backend/utils/predictor.py:116 | a known type gets its DISEASE_NAMES entry; any other type gets the title-cased token |
| `Predictor.IndicationSuffix` | backend/utils/predictor.py:122-125 | " - Positive Indication" for label 1, " - Negative Indication" for any other label |
| `Predictor.PredictDisease` | backend/utils/predictor.py:93-127 | a validation failure is returned as it is; a response implies validation passed and `predict` returned a label, and its name is DISEASE_NAMES[type] plus the suffix chosen by that label; without predict_proba the confidence is an integer in [75, 94] and the risk level is "High"; when validation passes but the call still fails, the error is EmptyModelOutput (the IndexError), never a validation error |
| `PredictorProperties.ConfigurationTables` | backend/utils/predictor.py:11-22 | both tables have exactly the keys diabetes, heart and parkinson; the counts are 8, 13 and 22 |
| `PredictorProperties.UnknownDiseaseTypeRejected` | backend/utils/predictor.py:39-42 | any token other than the three disease types fails validation with UnknownDiseaseType, for any symptom list |
| `PredictorProperties.RiskLevelMonotone` | backend/utils/predictor.py:68-73 | p <= q implies level(p) <= level(q) in the order Low < Medium < High |
| `PredictorProperties.RiskLevelBoundaries` | backend/utils/predictor.py:68-73 | 0.0 and 0.29999 give Low; 0.3 and 0.59999 give Medium; 0.6 and 1.0 give High |
| `PredictorProperties.ValidationPrecedesInference` | backend/utils/predictor.py:94-97 | when validation fails, the result is the same failure for every model and every random draw |
| `PredictorProperties.ModelConsultedOnlyOnValidatedRow` | backend/utils/predictor.py:94-101 | two models that agree on the validated row give the same response, so the model is never asked about anything else |
| `PredictorProperties.PredictDiseaseSucceeds` | backend/utils/predictor.py:94-103 | a response is produced if and only if validation passes, `predict` returns a label and, when predict_proba exists, its first vector is non-empty |
| `PredictorProperties.RiskFromPositiveClassProbability` | backend/utils/predictor.py:100-112 | with predict_proba, the risk level is the name of the band of the positive-class entry of the first probability vector, and the confidence is that entry times 100 |
| `PredictorProperties.ConfidenceIsPercentage` | backend/utils/predictor.py:101-109 | when the model's probabilities lie in [0, 1], the confidence lies in [0, 100] |
| `PredictorProperties.DiabetesPositiveExample` | backend/utils/predictor.py:93-127 | symptoms [2,120,70,30,80,25.5,0.5,33] for diabetes, with a model that predicts 1 and probabilities [0.2, 0.8], give "Diabetes Risk Assessment - Positive Indication", High, 80 |
| `PredictorProperties.TitleIdempotent` | backend/utils/predictor.py:116 | title-casing an already title-cased token changes nothing |

## Left out

- Rounding and formatting of the confidence. `round(probability * 100, 1)` and the `"<value>%"` f-string are not modelled. The confidence is kept as the exact number `probability * 100` (or `75 + draw`).
- Floating point. Probabilities and symptom values are exact reals, so the thresholds 0.3 and 0.6 are exact. NaN and infinities do not exist in the model.
- numpy's coercion. Each symptom is either `Number(x)` or `NotNumeric`. What numpy does with particular Python objects is not modelled: numeric strings, booleans, `None` (which becomes NaN), nested lists, and Python integers too large for a double. Such an integer makes the conversion raise `OverflowError`, which `except (ValueError, TypeError)` does not catch; the model's `Number(x)` always converts.
- Randomness. `np.random.randint(0, 20)` is the parameter `jitter`, which any value in [0, 20) may take.
- Exceptions raised inside the classifier. `predict` and `predict_proba` are total functions here. An `AttributeError` raised inside an existing `predict_proba` would also take the placeholder branch in the source; the model treats only a missing `predict_proba` that way.
- Predictor.TitleFrom: cases only ASCII letters. Python's `str.title` also cases non-ASCII letters. After validation this fallback is never reached, because every validated type has a display name.
- backend/app.py is not part of this model: the Flask routes, JSON parsing, CORS and the mapping of exceptions to HTTP status codes.
- backend/utils/load_model.py is not part of this model: path construction, the existence check, `joblib` deserialization and `get_model_info`.
