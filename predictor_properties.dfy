/** Properties of the prediction layer that relate several calls, or several
    models, to one another. */
module PredictorProperties {
  import opened Wrappers
  import opened Predictor

  // ---------------------------------------------------------------------------
  // The configuration tables
  // ---------------------------------------------------------------------------

  /** Exactly three disease types are known, both tables have the same keys,
      and the feature counts are 8, 13 and 22. */
  lemma ConfigurationTables()
    ensures FeatureCounts.Keys == DiseaseNames.Keys == {"diabetes", "heart", "parkinson"}
    ensures FeatureCounts["diabetes"] == 8 && FeatureCounts["heart"] == 13 && FeatureCounts["parkinson"] == 22
  {
  }

  /** Any token other than the three disease types is rejected, naming it. */
  lemma UnknownDiseaseTypeRejected(diseaseType: string, symptoms: seq<Symptom>)
    requires diseaseType != "diabetes" && diseaseType != "heart" && diseaseType != "parkinson"
    ensures ValidateSymptoms(diseaseType, symptoms) == Failure(UnknownDiseaseType(diseaseType))
  {
  }

  // ---------------------------------------------------------------------------
  // calculate_risk_level
  // ---------------------------------------------------------------------------

  /** A higher probability never gives a lower band. */
  lemma RiskLevelMonotone(p: real, q: real)
    requires p <= q
    ensures CalculateRiskLevel(p).Rank() <= CalculateRiskLevel(q).Rank()
  {
  }

  /** The band boundaries: each band includes its lower bound. */
  lemma RiskLevelBoundaries()
    ensures CalculateRiskLevel(0.0) == Low && CalculateRiskLevel(0.29999) == Low
    ensures CalculateRiskLevel(0.3) == Medium && CalculateRiskLevel(0.59999) == Medium
    ensures CalculateRiskLevel(0.6) == High && CalculateRiskLevel(1.0) == High
  {
  }

  // ---------------------------------------------------------------------------
  // predict_disease
  // ---------------------------------------------------------------------------

  /** Two models give the same answers on the row `features`. */
  predicate AgreeOn(m1: Model, m2: Model, features: Features) {
    && m1.predict(features) == m2.predict(features)
    && m1.predictProba.Some? == m2.predictProba.Some?
    && (m1.predictProba.Some? ==> m1.predictProba.value(features) == m2.predictProba.value(features))
  }

  /** Validation comes before inference: input that fails validation gives the
      validation error whatever the model and whatever the random draw. */
  lemma ValidationPrecedesInference(m1: Model, m2: Model, diseaseType: string, symptoms: seq<Symptom>,
                                    jitter1: int, jitter2: int)
    requires 0 <= jitter1 < 20 && 0 <= jitter2 < 20
    requires ValidateSymptoms(diseaseType, symptoms).Failure?
    ensures PredictDisease(m1, diseaseType, symptoms, jitter1) == PredictDisease(m2, diseaseType, symptoms, jitter2)
    ensures PredictDisease(m1, diseaseType, symptoms, jitter1).Failure?
  {
  }

  /** The model is consulted on the validated row and on nothing else: two
      models that agree on that row give the same response. */
  lemma ModelConsultedOnlyOnValidatedRow(m1: Model, m2: Model, diseaseType: string, symptoms: seq<Symptom>,
                                         jitter: int)
    requires 0 <= jitter < 20
    requires ValidateSymptoms(diseaseType, symptoms).Success?
    requires AgreeOn(m1, m2, ValidateSymptoms(diseaseType, symptoms).value)
    ensures PredictDisease(m1, diseaseType, symptoms, jitter) == PredictDisease(m2, diseaseType, symptoms, jitter)
  {
  }

  /** When does predict_disease return a response: valid input, a non-empty
      `predict` output and, if the model has `predict_proba`, a non-empty
      first probability vector. */
  lemma PredictDiseaseSucceeds(model: Model, diseaseType: string, symptoms: seq<Symptom>, jitter: int)
    requires 0 <= jitter < 20
    ensures PredictDisease(model, diseaseType, symptoms, jitter).Success? <==>
              && ValidateSymptoms(diseaseType, symptoms).Success?
              && var features := ValidateSymptoms(diseaseType, symptoms).value;
              && |model.predict(features)| > 0
              && (model.predictProba.Some? ==>
                    |model.predictProba.value(features)| > 0 && |model.predictProba.value(features)[0]| > 0)
  {
  }

  /** With `predict_proba`, the band and the confidence both come from the
      positive-class entry of the first probability vector. */
  lemma RiskFromPositiveClassProbability(model: Model, diseaseType: string, symptoms: seq<Symptom>, jitter: int)
    requires 0 <= jitter < 20
    requires model.predictProba.Some?
    requires PredictDisease(model, diseaseType, symptoms, jitter).Success?
    ensures var features := ValidateSymptoms(diseaseType, symptoms).value;
            var rows := model.predictProba.value(features);
            var r := PredictDisease(model, diseaseType, symptoms, jitter).value;
            && |rows| > 0
            && PositiveClassProbability(rows[0]).Some?
            && r.riskLevel == CalculateRiskLevel(PositiveClassProbability(rows[0]).value).Name()
            && r.confidence == PositiveClassProbability(rows[0]).value * 100.0
  {
  }

  /** The confidence is a percentage whenever the model's probabilities are
      probabilities. */
  lemma ConfidenceIsPercentage(model: Model, diseaseType: string, symptoms: seq<Symptom>, jitter: int)
    requires 0 <= jitter < 20
    requires PredictDisease(model, diseaseType, symptoms, jitter).Success?
    requires model.predictProba.Some? ==>
               var rows := model.predictProba.value(ValidateSymptoms(diseaseType, symptoms).value);
               |rows| > 0 && forall i :: 0 <= i < |rows[0]| ==> 0.0 <= rows[0][i] <= 1.0
    ensures 0.0 <= PredictDisease(model, diseaseType, symptoms, jitter).value.confidence <= 100.0
  {
  }

  /** The diabetes symptom list of the example below validates to its own row. */
  lemma ExampleSymptomsValidate()
    ensures ValidateSymptoms("diabetes", [Number(2.0), Number(120.0), Number(70.0), Number(30.0),
                                          Number(80.0), Number(25.5), Number(0.5), Number(33.0)])
            == Success([[2.0, 120.0, 70.0, 30.0, 80.0, 25.5, 0.5, 33.0]])
  {
    var symptoms := [Number(2.0), Number(120.0), Number(70.0), Number(30.0),
                     Number(80.0), Number(25.5), Number(0.5), Number(33.0)];
    var row := [2.0, 120.0, 70.0, 30.0, 80.0, 25.5, 0.5, 33.0];
    assert forall i :: 0 <= i < 8 ==> symptoms[i] == Number(row[i]);
    assert AllNumeric(symptoms);
    var values := Coerce(symptoms).value;
    assert |values| == 8 && forall i :: 0 <= i < 8 ==> values[i] == row[i];
    assert values == row;
  }

  /** A diabetes request against any model that, on this row, predicts class 1
      with probabilities [0.2, 0.8]. */
  lemma DiabetesPositiveExample(model: Model, jitter: int)
    requires 0 <= jitter < 20
    requires model.predict([[2.0, 120.0, 70.0, 30.0, 80.0, 25.5, 0.5, 33.0]]) == [1]
    requires model.predictProba.Some?
    requires model.predictProba.value([[2.0, 120.0, 70.0, 30.0, 80.0, 25.5, 0.5, 33.0]]) == [[0.2, 0.8]]
    ensures PredictDisease(model, "diabetes", [Number(2.0), Number(120.0), Number(70.0), Number(30.0),
                                               Number(80.0), Number(25.5), Number(0.5), Number(33.0)], jitter)
            == Success(Prediction("Diabetes Risk Assessment - Positive Indication", "High", 80.0))
  {
    ExampleSymptomsValidate();
    var row := [2.0, 120.0, 70.0, 30.0, 80.0, 25.5, 0.5, 33.0];
    assert EstimateRisk(model, [row], jitter) == Success(Estimate(0.8, 80.0));
    ExampleDisplayName();
  }

  lemma ExampleDisplayName()
    ensures DisplayName("diabetes") + IndicationSuffix(1) == "Diabetes Risk Assessment - Positive Indication"
  {
  }

  // ---------------------------------------------------------------------------
  // The title-case fallback for display names
  // ---------------------------------------------------------------------------

  /** Title-casing a title-cased string changes nothing. */
  lemma TitleIdempotent(s: string)
    ensures Title(Title(s)) == Title(s)
  {
  }
}
