/**
 What the churn training script and the churn testing script share: the fitted classifier as
 seen from outside, the three risk bands a churn probability falls into, and the label printed
 for a predicted class.
 */
module ChurnCommon {

  /** One row of `predict_proba`: index 0 is the "No Churn" class, index 1 the "Churn" class. */
  datatype ProbaPair = ProbaPair(noChurn: real, churn: real)

  /** The fitted random forest, opaque: `predict` gives the class of a feature row and
      `predictProba` the class probabilities. */
  datatype Classifier = Classifier(predict: seq<real> -> int, predictProba: seq<real> -> ProbaPair)

  datatype Band = Low | Medium | High
  {
    /** The string the scripts print and return. */
    function Name(): string
    {
      match this
      case Low => "Low"
      case Medium => "Medium"
      case High => "High"
    }

    /** Position in the order Low < Medium < High. */
    function Rank(): nat
    {
      match this
      case Low => 0
      case Medium => 1
      case High => 2
    }
  }

  /** The risk band of a churn probability: above 0.7 is High, above 0.3 up to 0.7 is Medium,
      anything else (0.3 itself included) is Low. */
  function RiskLevel(p: real): (b: Band)
    ensures b == High <==> p > 0.7
    ensures b == Medium <==> 0.3 < p <= 0.7
    ensures b == Low <==> p <= 0.3
  {
    if p > 0.7 then High
    else if p > 0.3 then Medium
    else Low
  }

  /** The two thresholds belong to the lower band. */
  lemma RiskLevelBoundaries()
    ensures RiskLevel(0.7) == Medium && RiskLevel(0.70001) == High
    ensures RiskLevel(0.3) == Low && RiskLevel(0.30001) == Medium
  {
  }

  /** A higher probability never gives a lower band. */
  lemma RiskLevelMonotone(p: real, q: real)
    requires p <= q
    ensures RiskLevel(p).Rank() <= RiskLevel(q).Rank()
  {
  }

  /** The label of a predicted class: "Churn" for class 1, "No Churn" for every other class. */
  function PredictionLabel(prediction: int): (s: string)
    ensures s == "Churn" <==> prediction == 1
    ensures s == "No Churn" <==> prediction != 1
  {
    if prediction == 1 then "Churn" else "No Churn"
  }
}
