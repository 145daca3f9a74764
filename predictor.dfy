/**
  The prediction layer of the health-risk service (backend/utils/predictor.py):
  per-disease validation of the symptom vector, the three-band risk
  classifier, and the shaping of the response from the output of an opaque
  classification model.
*/
module Predictor {
  import opened Wrappers

  // ---------------------------------------------------------------------------
  // Static configuration tables
  // ---------------------------------------------------------------------------

  /** FEATURE_COUNTS: the number of features each model expects. */
  const FeatureCounts: map<string, nat> :=
    map["diabetes" := 8, "heart" := 13, "parkinson" := 22]

  /** DISEASE_NAMES: the display name of each disease type. */
  const DiseaseNames: map<string, string> :=
    map["diabetes" := "Diabetes Risk Assessment",
        "heart" := "Heart Disease Risk Assessment",
        "parkinson" := "Parkinson's Disease Risk Assessment"]

  const PositiveSuffix: string := " - Positive Indication"
  const NegativeSuffix: string := " - Negative Indication"

  // ---------------------------------------------------------------------------
  // Data model
  // ---------------------------------------------------------------------------

  /** One element of the caller's symptom list: either something that coerces
      to a float, or something that makes the coercion raise. */
  datatype Symptom = Number(value: real) | NotNumeric

  /** The model input: a matrix, here always one row of N features. */
  type Features = seq<seq<real>>

  /** The loaded classifier, opaque: `predict` gives one class label per row,
      `predictProba` one probability vector per row, and is `None` when the
      model object has no `predict_proba` attribute. */
  datatype Model = Model(predict: Features -> seq<int>,
                         predictProba: Option<Features -> seq<seq<real>>>)

  /** The errors the layer raises. The first three are the `ValueError`s of
      the validator; the last is the `IndexError` of indexing an empty model
      output. */
  datatype Error =
    | UnknownDiseaseType(diseaseType: string)
    | FeatureCountMismatch(diseaseType: string, expected: nat, received: nat)
    | NonNumericSymptom
    | EmptyModelOutput

  datatype RiskLevel = Low | Medium | High {
    /** The string the response carries. */
    function Name(): string {
      match this
      case Low => "Low"
      case Medium => "Medium"
      case High => "High"
    }

    /** Position in the order Low < Medium < High. */
    function Rank(): nat {
      match this
      case Low => 0
      case Medium => 1
      case High => 2
    }
  }

  /** The probability the risk band is computed from and the confidence
      percentage reported next to it. */
  datatype Estimate = Estimate(probability: real, confidence: real)

  /** The response dictionary; `riskLevel` is one of "Low", "Medium" and
      "High", and `confidence` is the number before "%". */
  datatype Prediction = Prediction(predictedDisease: string, riskLevel: string, confidence: real)

  // ---------------------------------------------------------------------------
  // validate_symptoms
  // ---------------------------------------------------------------------------

  predicate AllNumeric(symptoms: seq<Symptom>) {
    forall i :: 0 <= i < |symptoms| ==> symptoms[i].Number?
  }

  /** The element-wise float coercion of `np.array(symptoms, dtype=float)`:
      succeeds with the values in order exactly when every element is numeric. */
  function Coerce(symptoms: seq<Symptom>): (r: Option<seq<real>>)
    ensures r.Some? <==> AllNumeric(symptoms)
    ensures r.Some? ==> |r.value| == |symptoms|
    ensures r.Some? ==> forall i :: 0 <= i < |symptoms| ==> r.value[i] == symptoms[i].value
  {
    if symptoms == [] then Some([])
    else match symptoms[0]
      case NotNumeric => None
      case Number(x) =>
        match Coerce(symptoms[1..])
        case None => None
        case Some(rest) => Some([x] + rest)
  }

  /** Checks the disease type and the length, coerces, and returns a 1 x N row. */
  function ValidateSymptoms(diseaseType: string, symptoms: seq<Symptom>): (r: Result<Features, Error>)
    ensures diseaseType !in FeatureCounts ==> r == Failure(UnknownDiseaseType(diseaseType))
    ensures diseaseType in FeatureCounts && |symptoms| != FeatureCounts[diseaseType] ==>
              r == Failure(FeatureCountMismatch(diseaseType, FeatureCounts[diseaseType], |symptoms|))
    ensures diseaseType in FeatureCounts && |symptoms| == FeatureCounts[diseaseType] && !AllNumeric(symptoms) ==>
              r == Failure(NonNumericSymptom)
    ensures r.Success? <==>
              diseaseType in FeatureCounts && |symptoms| == FeatureCounts[diseaseType] && AllNumeric(symptoms)
    ensures r.Success? ==>
              |r.value| == 1 && |r.value[0]| == FeatureCounts[diseaseType] &&
              forall i :: 0 <= i < |symptoms| ==> r.value[0][i] == symptoms[i].value
  {
    if diseaseType !in FeatureCounts then Failure(UnknownDiseaseType(diseaseType))
    else if |symptoms| != FeatureCounts[diseaseType] then
      Failure(FeatureCountMismatch(diseaseType, FeatureCounts[diseaseType], |symptoms|))
    else match Coerce(symptoms)
      case None => Failure(NonNumericSymptom)
      case Some(values) => Success([values])
  }

  // ---------------------------------------------------------------------------
  // calculate_risk_level
  // ---------------------------------------------------------------------------

  /** Three bands, each closed at its lower bound: [.., 0.3), [0.3, 0.6), [0.6, ..). */
  function CalculateRiskLevel(probability: real): (r: RiskLevel)
    ensures r == Low <==> probability < 0.3
    ensures r == Medium <==> 0.3 <= probability < 0.6
    ensures r == High <==> 0.6 <= probability
  {
    if probability < 0.3 then Low
    else if probability < 0.6 then Medium
    else High
  }

  // ---------------------------------------------------------------------------
  // predict_disease
  // ---------------------------------------------------------------------------

  /** The positive-class entry of one probability vector: entry 1 when there
      is more than one entry, else entry 0; indexing an empty vector fails. */
  function PositiveClassProbability(probabilities: seq<real>): (r: Option<real>)
    ensures r.Some? <==> |probabilities| > 0
    ensures r.Some? ==> r.value in probabilities
    ensures |probabilities| >= 2 ==> r == Some(probabilities[1])
    ensures |probabilities| == 1 ==> r == Some(probabilities[0])
  {
    if |probabilities| > 1 then Some(probabilities[1])
    else if |probabilities| == 1 then Some(probabilities[0])
    else None
  }

  /** The `try`/`except AttributeError` block: the model's own probability
      when it has `predict_proba`, otherwise the placeholder 75 + jitter. */
  function EstimateRisk(model: Model, features: Features, jitter: int): (r: Result<Estimate, Error>)
    requires 0 <= jitter < 20
    ensures model.predictProba.None? ==>
              r.Success? && r.value.confidence == (75 + jitter) as real &&
              75.0 <= r.value.confidence <= 94.0 && r.value.probability * 100.0 == r.value.confidence
    ensures model.predictProba.Some? ==>
              var rows := model.predictProba.value(features);
              (r.Success? <==> |rows| > 0 && |rows[0]| > 0) &&
              (r.Success? ==> |rows| > 0 && PositiveClassProbability(rows[0]).Some? &&
                              r.value.probability == PositiveClassProbability(rows[0]).value &&
                              r.value.probability in rows[0] && r.value.confidence == r.value.probability * 100.0) &&
              (r.Failure? ==> r.error == EmptyModelOutput)
  {
    match model.predictProba
    case None =>
      var confidence := 75 + jitter;
      Success(Estimate(confidence as real / 100.0, confidence as real))
    case Some(predictProba) =>
      var rows := predictProba(features);
      if |rows| == 0 then Failure(EmptyModelOutput)
      else match PositiveClassProbability(rows[0])
        case None => Failure(EmptyModelOutput)
        case Some(p) => Success(Estimate(p, p * 100.0))
  }

  /** The upper-case form of an ASCII letter; any other character is unchanged. */
  function ToUpper(c: char): char {
    if 'a' <= c <= 'z' then (c as int - 32) as char else c
  }

  /** The lower-case form of an ASCII letter; any other character is unchanged. */
  function ToLower(c: char): char {
    if 'A' <= c <= 'Z' then (c as int + 32) as char else c
  }

  predicate IsCased(c: char) {
    'a' <= c <= 'z' || 'A' <= c <= 'Z'
  }

  /** What `str.title` puts at position i: a letter is upper-cased at the start
      of a run of letters and lower-cased inside one; other characters stay. */
  function TitleCaseAt(s: string, i: nat, afterCased: bool): char
    requires i < |s|
  {
    var inRun := if i == 0 then afterCased else IsCased(s[i - 1]);
    if !IsCased(s[i]) then s[i] else if inRun then ToLower(s[i]) else ToUpper(s[i])
  }

  /** `str.title` over ASCII, scanning left to right with a "previous
      character was a letter" flag. */
  function TitleFrom(s: string, afterCased: bool): (r: string)
    ensures |r| == |s|
    ensures forall i :: 0 <= i < |s| ==> r[i] == TitleCaseAt(s, i, afterCased)
  {
    if s == [] then []
    else
      var c := if !IsCased(s[0]) then s[0] else if afterCased then ToLower(s[0]) else ToUpper(s[0]);
      var rest := TitleFrom(s[1..], IsCased(s[0]));
      assert forall i :: 1 <= i < |s| ==> rest[i - 1] == TitleCaseAt(s, i, afterCased) by {
        forall i | 1 <= i < |s| ensures rest[i - 1] == TitleCaseAt(s, i, afterCased) {
          assert rest[i - 1] == TitleCaseAt(s[1..], i - 1, IsCased(s[0]));
        }
      }
      [c] + rest
  }

  function Title(s: string): string {
    TitleFrom(s, false)
  }

  /** `DISEASE_NAMES.get(disease_type, disease_type.title())`. */
  function DisplayName(diseaseType: string): (r: string)
    ensures diseaseType in DiseaseNames ==> r == DiseaseNames[diseaseType]
    ensures diseaseType !in DiseaseNames ==> r == Title(diseaseType)
  {
    if diseaseType in DiseaseNames then DiseaseNames[diseaseType] else Title(diseaseType)
  }

  function IndicationSuffix(classLabel: int): (r: string)
    ensures classLabel == 1 ==> r == PositiveSuffix
    ensures classLabel != 1 ==> r == NegativeSuffix
  {
    if classLabel == 1 then PositiveSuffix else NegativeSuffix
  }

  /** predict_disease: validate, predict, estimate, classify and shape the
      response. `jitter` stands for the `np.random.randint(0, 20)` draw. */
  function PredictDisease(model: Model, diseaseType: string, symptoms: seq<Symptom>, jitter: int)
    : (r: Result<Prediction, Error>)
    requires 0 <= jitter < 20
    ensures ValidateSymptoms(diseaseType, symptoms).Failure? ==>
              r == Failure(ValidateSymptoms(diseaseType, symptoms).error)
    ensures r.Success? ==>
              && ValidateSymptoms(diseaseType, symptoms).Success?
              && diseaseType in DiseaseNames
              && var labels := model.predict(ValidateSymptoms(diseaseType, symptoms).value);
              && |labels| > 0
              && r.value.predictedDisease ==
                   DiseaseNames[diseaseType] + (if labels[0] == 1 then PositiveSuffix else NegativeSuffix)
    ensures r.Success? && model.predictProba.None? ==>
              75.0 <= r.value.confidence <= 94.0 && r.value.confidence.Floor as real == r.value.confidence &&
              r.value.riskLevel == "High"
    ensures ValidateSymptoms(diseaseType, symptoms).Success? && r.Failure? ==> r.error == EmptyModelOutput
  {
    match ValidateSymptoms(diseaseType, symptoms)
    case Failure(e) => Failure(e)
    case Success(features) =>
      var labels := model.predict(features);
      if |labels| == 0 then Failure(EmptyModelOutput)
      else match EstimateRisk(model, features, jitter)
        case Failure(e) => Failure(e)
        case Success(estimate) =>
          var name := DisplayName(diseaseType) + IndicationSuffix(labels[0]);
          Success(Prediction(name, CalculateRiskLevel(estimate.probability).Name(), estimate.confidence))
  }
}
