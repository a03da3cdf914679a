/**
 The churn testing script: `predict_churn`, which reorders a customer dictionary into the
 trained column order, asks the fitted classifier for a class and class probabilities and
 assembles the result record, and the API-style response built from that record.

 Loading the pickled model and metadata, the console loop and the printing are not modelled.
 */
module ChurnPredictor {
  import opened Np
  import opened Features
  import opened ChurnCommon
  import opened ChurnTraining

  datatype Option<T> = None | Some(value: T)

  /** The dictionary `predict_churn` returns: the prediction fields, or only an `error` field
      when selecting the feature columns raised. */
  datatype PredictionRecord =
    | Prediction(
        prediction: int,
        churnProbability: real,
        noChurnProbability: real,
        riskLevel: Band,
        predictionLabel: string)
    | ErrorRecord(error: SelectError)

  function PredictChurn(model: Classifier, info: ChurnModelInfo, customerData: map<string, real>): (r: PredictionRecord)
    ensures r.ErrorRecord? <==> exists n :: n in info.featureNames && n !in customerData
    ensures r.ErrorRecord? ==> forall n :: n in r.error.missing <==> n in info.featureNames && n !in customerData
    ensures r.Prediction? ==> r.riskLevel == RiskLevel(r.churnProbability)
    ensures r.Prediction? ==> r.predictionLabel == PredictionLabel(r.prediction)
    ensures r.Prediction? ==>
              var row := Select(customerData, info.featureNames);
              && r.prediction == model.predict(row)
              && r.churnProbability == model.predictProba(row).churn
              && r.noChurnProbability == model.predictProba(row).noChurn
  {
    match Project(customerData, info.featureNames)
    case Err(e) => ErrorRecord(e)
    case Ok(row) =>
      var prediction := model.predict(row);
      var probabilities := model.predictProba(row);
      var churnProbability := probabilities.churn;
      Prediction(
        prediction,
        churnProbability,
        probabilities.noChurn,
        RiskLevel(churnProbability),
        PredictionLabel(prediction))
  }

  /** The prediction depends only on the values under the trained feature names: keys outside
      them are dropped and the order the dictionary was written in does not matter. */
  lemma PredictChurnIgnoresOtherKeys(model: Classifier, info: ChurnModelInfo, data1: map<string, real>, data2: map<string, real>)
    requires AgreeOn(data1, data2, info.featureNames)
    ensures PredictChurn(model, info, data1) == PredictChurn(model, info, data2)
  {
    ProjectIgnoresOtherKeys(data1, data2, info.featureNames);
  }

  /** A dictionary holding exactly a feature row under the trained names is predicted on that
      very row. */
  lemma PredictChurnOnRow(model: Classifier, info: ChurnModelInfo, values: seq<real>)
    requires |values| == |info.featureNames|
    requires Distinct(info.featureNames)
    ensures PredictChurn(model, info, RowDict(info.featureNames, values)) ==
            Prediction(
              model.predict(values),
              model.predictProba(values).churn,
              model.predictProba(values).noChurn,
              RiskLevel(model.predictProba(values).churn),
              PredictionLabel(model.predict(values)))
  {
    RowDictRoundTrip(info.featureNames, values);
  }

  /** A generated customer's dictionary, fed to a model trained by the training script, is
      predicted on the customer's feature row in training column order. */
  lemma PredictChurnOnCustomer(model: Classifier, accuracy: real, importances: seq<real>, c: Customer)
    requires |importances| == |FeatureColumns|
    ensures PredictChurn(model, BuildModelInfo(accuracy, importances), CustomerFrame(c)) ==
            Prediction(
              model.predict(CustomerValues(c)),
              model.predictProba(CustomerValues(c)).churn,
              model.predictProba(CustomerValues(c)).noChurn,
              RiskLevel(model.predictProba(CustomerValues(c)).churn),
              PredictionLabel(model.predict(CustomerValues(c))))
  {
    FeatureMatrixRow(c);
  }

  /** `max(churn_probability, no_churn_probability)`. */
  function Confidence(churnProbability: real, noChurnProbability: real): (c: real)
    ensures c >= churnProbability && c >= noChurnProbability
    ensures c == churnProbability || c == noChurnProbability
  {
    Maximum(churnProbability, noChurnProbability)
  }

  /** When the two class probabilities sum to one, the confidence is at least one half. */
  lemma ConfidenceAtLeastHalf(churnProbability: real, noChurnProbability: real)
    requires churnProbability + noChurnProbability == 1.0
    ensures Confidence(churnProbability, noChurnProbability) >= 0.5
  {
  }

  /** The API-style response; the processing time and the timestamp are left out. */
  datatype ApiResponse = ApiResponse(
    modelId: string,
    prediction: int,
    probability: real,
    confidence: real,
    riskLevel: Band,
    predictionLabel: string,
    input: map<string, real>)

  /** The response built from a prediction record. An error record has no prediction fields,
      so reading them fails and no response is produced. */
  function BuildApiResponse(result: PredictionRecord, customerData: map<string, real>): (r: Option<ApiResponse>)
    ensures r.Some? <==> result.Prediction?
    ensures r.Some? ==> r.value.modelId == "customer-churn-classifier"
    ensures r.Some? ==> r.value.confidence == Confidence(result.churnProbability, result.noChurnProbability)
    ensures r.Some? ==> r.value.confidence >= r.value.probability && r.value.confidence >= result.noChurnProbability
    ensures r.Some? ==> r.value.predictionLabel == result.predictionLabel
    ensures r.Some? ==> r.value.probability == result.churnProbability && r.value.input == customerData
    ensures r.Some? ==> r.value.prediction == result.prediction && r.value.riskLevel == result.riskLevel
  {
    match result
    case ErrorRecord(_) => None
    case Prediction(prediction, churnProbability, noChurnProbability, riskLevel, predictionLabel) =>
      Some(ApiResponse(
        "customer-churn-classifier",
        prediction,
        churnProbability,
        Confidence(churnProbability, noChurnProbability),
        riskLevel,
        predictionLabel,
        customerData))
  }
}
