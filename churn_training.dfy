/**
 The churn training script: the synthetic customer generator (feature draws, the total-charges
 floor, the clipped churn-probability rule and the Bernoulli label), the feature columns the
 classifier is trained on, the feature-importance table, the metadata record saved beside the
 model, and the sample predictions printed after training.

 Fitting the forest, the train/test split and the metrics are not modelled: the fitted model is
 a `Classifier` and its accuracy and importances are parameters.
 */
module ChurnTraining {
  import opened Np
  import opened Features
  import opened ChurnCommon

  /** The columns the classifier is trained on, in training order. */
  const FeatureColumns: seq<string> := [
    "age", "tenure", "monthly_charges", "total_charges",
    "contract_type", "payment_method", "internet_service", "tech_support"
  ]

  lemma FeatureColumnsDistinct()
    ensures |FeatureColumns| == 8 && Distinct(FeatureColumns)
  {
  }

  /** One synthetic customer: the eight feature columns. */
  datatype Customer = Customer(
    age: int,
    tenure: int,
    monthlyCharges: real,
    totalCharges: real,
    contractType: int,      // 0 month-to-month, 1 one year, 2 two year
    paymentMethod: int,     // 0 electronic check, 1 mailed check, 2 bank transfer, 3 credit card
    internetService: int,   // 0 DSL, 1 fibre optic, 2 none
    techSupport: int)       // 0 no, 1 yes

  /** A customer with its drawn churn label. */
  datatype ChurnRecord = ChurnRecord(customer: Customer, churn: int)

  /** The raw random values behind one customer, one per numpy draw. */
  datatype ChurnDraw = ChurnDraw(
    age: nat,
    tenure: nat,
    monthlyOffset: real,
    noise: real,
    contractType: nat,
    paymentMethod: nat,
    internetService: nat,
    techSupport: nat,
    churn: real)

  predicate ValidDraw(d: ChurnDraw)
  {
    0.0 <= d.monthlyOffset < 100.0 && 0.0 <= d.churn < 1.0
  }

  /** The ranges every generated customer lies in. */
  predicate InDrawRanges(c: Customer)
  {
    && 18 <= c.age <= 80
    && 1 <= c.tenure <= 72
    && 20.0 <= c.monthlyCharges < 120.0
    && c.totalCharges >= 20.0
    && c.contractType in {0, 1, 2}
    && c.paymentMethod in {0, 1, 2, 3}
    && c.internetService in {0, 1, 2}
    && c.techSupport in {0, 1}
  }

  /** Total charges: monthly charges times tenure plus noise, floored at 20. */
  function TotalCharges(monthly: real, tenure: int, noise: real): (t: real)
    ensures t >= 20.0
    ensures monthly * tenure as real + noise >= 20.0 ==> t == monthly * tenure as real + noise
    ensures monthly * tenure as real + noise < 20.0 ==> t == 20.0
  {
    Maximum(monthly * tenure as real + noise, 20.0)
  }

  /** The feature columns of one customer, from its draws. */
  function DrawCustomer(d: ChurnDraw): (c: Customer)
    requires ValidDraw(d)
    ensures InDrawRanges(c)
    ensures c.totalCharges == TotalCharges(c.monthlyCharges, c.tenure, d.noise)
  {
    var age := RandInt(18, 81, d.age);
    var tenure := RandInt(1, 73, d.tenure);
    var monthly := Uniform(20.0, 120.0, d.monthlyOffset);
    Customer(
      age,
      tenure,
      monthly,
      TotalCharges(monthly, tenure, d.noise),
      Choice([0, 1, 2], d.contractType),
      Choice([0, 1, 2, 3], d.paymentMethod),
      Choice([0, 1, 2], d.internetService),
      Choice([0, 1], d.techSupport))
  }

  /** The draw ranges are exact: a customer comes out of some valid draw iff it lies in them. */
  lemma DrawnCustomersAreExactlyInRange(c: Customer)
    ensures (exists d :: ValidDraw(d) && DrawCustomer(d) == c) <==> InDrawRanges(c)
  {
    if InDrawRanges(c) {
      var d := DrawFor(c);
      assert ValidDraw(d) && DrawCustomer(d) == c;
    }
  }

  /** A valid draw that produces a given in-range customer. */
  lemma DrawFor(c: Customer) returns (d: ChurnDraw)
    requires InDrawRanges(c)
    ensures ValidDraw(d) && DrawCustomer(d) == c
  {
    var raw := c.monthlyCharges * c.tenure as real;
    d := ChurnDraw(
      c.age - 18, c.tenure - 1, c.monthlyCharges - 20.0, c.totalCharges - raw,
      c.contractType, c.paymentMethod, c.internetService, c.techSupport, 0.0);
    RandIntHits(18, 81, c.age);
    RandIntHits(1, 73, c.tenure);
    assert TotalCharges(c.monthlyCharges, c.tenure, d.noise) == c.totalCharges;
    ChoiceHits([0, 1, 2], c.contractType);
    ChoiceHits([0, 1, 2, 3], c.paymentMethod);
    ChoiceHits([0, 1, 2], c.internetService);
    ChoiceHits([0, 1], c.techSupport);
  }

  /** One term `weight * (condition)` of the churn-probability sum. */
  datatype Term = Term(weight: real, active: bool)

  /** The sum of the weights of the active terms. */
  function IndicatorSum(ts: seq<Term>): real
  {
    if ts == [] then 0.0
    else (if ts[0].active then ts[0].weight else 0.0) + IndicatorSum(ts[1..])
  }

  /** The sum of the positive weights: what the sum is when every raising term is active. */
  function PositiveWeight(ts: seq<Term>): real
  {
    if ts == [] then 0.0
    else (if ts[0].weight > 0.0 then ts[0].weight else 0.0) + PositiveWeight(ts[1..])
  }

  /** The sum of the negative weights: what the sum is when every lowering term is active. */
  function NegativeWeight(ts: seq<Term>): real
  {
    if ts == [] then 0.0
    else (if ts[0].weight < 0.0 then ts[0].weight else 0.0) + NegativeWeight(ts[1..])
  }

  lemma {:induction false} IndicatorSumBounds(ts: seq<Term>)
    ensures NegativeWeight(ts) <= IndicatorSum(ts) <= PositiveWeight(ts)
  {
    if ts != [] {
      IndicatorSumBounds(ts[1..]);
    }
  }

  /** `us` has the same weights as `ts`, every raising term of `ts` is active in `us` and every
      lowering term of `us` is active in `ts`. */
  ghost predicate Dominates(ts: seq<Term>, us: seq<Term>)
  {
    |ts| == |us| && forall i :: 0 <= i < |ts| ==> TermDominates(ts[i], us[i])
  }

  ghost predicate TermDominates(t: Term, u: Term)
  {
    && t.weight == u.weight
    && (t.weight >= 0.0 && t.active ==> u.active)
    && (t.weight < 0.0 && u.active ==> t.active)
  }

  lemma {:induction false} IndicatorSumMonotone(ts: seq<Term>, us: seq<Term>)
    requires Dominates(ts, us)
    ensures IndicatorSum(ts) <= IndicatorSum(us)
  {
    if ts != [] {
      assert Dominates(ts[1..], us[1..]) by {
        forall i | 0 <= i < |ts[1..]|
          ensures ts[1..][i] == ts[i + 1] && us[1..][i] == us[i + 1]
        {
        }
      }
      IndicatorSumMonotone(ts[1..], us[1..]);
    }
  }

  const BaseChurnProbability: real := 0.1

  /** The indicator terms of the churn rule, in the order the script adds them. */
  function ChurnTerms(c: Customer): seq<Term>
  {
    [ Term(0.3, c.tenure < 6),              // new customers
      Term(0.2, c.contractType == 0),       // month-to-month contract
      Term(0.15, c.paymentMethod == 0),     // electronic check
      Term(0.1, c.monthlyCharges > 80.0),   // high charges
      Term(0.1, c.age < 30),                // younger customers
      Term(-0.15, c.techSupport == 1),      // tech support
      Term(0.1, c.internetService == 1) ]   // fibre optic
  }

  /** The churn probability before clipping. */
  function RawChurnProbability(c: Customer): real
  {
    BaseChurnProbability + IndicatorSum(ChurnTerms(c))
  }

  /** The churn probability the label is drawn with: the raw value clipped to [0, 1]. */
  function ChurnProbability(c: Customer): (p: real)
    ensures 0.0 <= p <= 1.0
    ensures 0.0 <= RawChurnProbability(c) <= 1.0 ==> p == RawChurnProbability(c)
    ensures RawChurnProbability(c) < 0.0 ==> p == 0.0
    ensures RawChurnProbability(c) > 1.0 ==> p == 1.0
  {
    Clip(RawChurnProbability(c), 0.0, 1.0)
  }

  /** Before clipping the probability lies in [0.1 - 0.15, 0.1 + 0.95]. */
  lemma RawChurnProbabilityBounds(c: Customer)
    ensures -0.05 <= RawChurnProbability(c) <= 1.05
  {
    var ts := ChurnTerms(c);
    IndicatorSumBounds(ts);
    assert PositiveWeight(ts[6..]) == 0.1;
    assert PositiveWeight(ts[5..]) == 0.1;
    assert PositiveWeight(ts[4..]) == 0.2;
    assert PositiveWeight(ts[3..]) == 0.3;
    assert PositiveWeight(ts[2..]) == 0.45;
    assert PositiveWeight(ts[1..]) == 0.65;
    assert PositiveWeight(ts) == 0.95;
    assert NegativeWeight(ts[6..]) == 0.0;
    assert NegativeWeight(ts[5..]) == -0.15;
    assert NegativeWeight(ts[4..]) == -0.15;
    assert NegativeWeight(ts[3..]) == -0.15;
    assert NegativeWeight(ts[2..]) == -0.15;
    assert NegativeWeight(ts[1..]) == -0.15;
    assert NegativeWeight(ts) == -0.15;
  }

  /** `d` has every risk-raising indicator `c` has, and tech support only where `c` has it. */
  ghost predicate AtLeastAsRisky(c: Customer, d: Customer)
  {
    && (c.tenure < 6 ==> d.tenure < 6)
    && (c.contractType == 0 ==> d.contractType == 0)
    && (c.paymentMethod == 0 ==> d.paymentMethod == 0)
    && (c.monthlyCharges > 80.0 ==> d.monthlyCharges > 80.0)
    && (c.age < 30 ==> d.age < 30)
    && (d.techSupport == 1 ==> c.techSupport == 1)
    && (c.internetService == 1 ==> d.internetService == 1)
  }

  /** The churn probability is monotone in the indicators, before and after clipping. */
  lemma ChurnProbabilityMonotone(c: Customer, d: Customer)
    requires AtLeastAsRisky(c, d)
    ensures RawChurnProbability(c) <= RawChurnProbability(d)
    ensures ChurnProbability(c) <= ChurnProbability(d)
  {
    var ts, us := ChurnTerms(c), ChurnTerms(d);
    assert TermDominates(ts[0], us[0]) && TermDominates(ts[1], us[1]) && TermDominates(ts[2], us[2]);
    assert TermDominates(ts[3], us[3]) && TermDominates(ts[4], us[4]) && TermDominates(ts[5], us[5]);
    assert TermDominates(ts[6], us[6]);
    IndicatorSumMonotone(ts, us);
    ClipMonotone(RawChurnProbability(c), RawChurnProbability(d), 0.0, 1.0);
  }

  /** Setting any one raising indicator never lowers the probability; giving tech support
      never raises it. */
  lemma SingleIndicatorEffects(c: Customer, tenure: int, monthly: real, age: int)
    ensures tenure < 6 ==> ChurnProbability(c) <= ChurnProbability(c.(tenure := tenure))
    ensures ChurnProbability(c) <= ChurnProbability(c.(contractType := 0))
    ensures ChurnProbability(c) <= ChurnProbability(c.(paymentMethod := 0))
    ensures monthly > 80.0 ==> ChurnProbability(c) <= ChurnProbability(c.(monthlyCharges := monthly))
    ensures age < 30 ==> ChurnProbability(c) <= ChurnProbability(c.(age := age))
    ensures ChurnProbability(c) <= ChurnProbability(c.(internetService := 1))
    ensures ChurnProbability(c.(techSupport := 1)) <= ChurnProbability(c)
  {
    if tenure < 6 {
      ChurnProbabilityMonotone(c, c.(tenure := tenure));
    }
    ChurnProbabilityMonotone(c, c.(contractType := 0));
    ChurnProbabilityMonotone(c, c.(paymentMethod := 0));
    if monthly > 80.0 {
      ChurnProbabilityMonotone(c, c.(monthlyCharges := monthly));
    }
    if age < 30 {
      ChurnProbabilityMonotone(c, c.(age := age));
    }
    ChurnProbabilityMonotone(c, c.(internetService := 1));
    ChurnProbabilityMonotone(c.(techSupport := 1), c);
  }

  /** One generated record: the customer and a Bernoulli label at its churn probability. */
  function GenerateRecord(d: ChurnDraw): (r: ChurnRecord)
    requires ValidDraw(d)
    ensures r.customer == DrawCustomer(d)
    ensures r.churn == Bernoulli(ChurnProbability(r.customer), d.churn)
    ensures InDrawRanges(r.customer)
    ensures r.churn == 0 || r.churn == 1
    ensures r.churn == 1 ==> ChurnProbability(r.customer) > 0.0
    ensures r.churn == 0 ==> ChurnProbability(r.customer) < 1.0
  {
    var c := DrawCustomer(d);
    ChurnRecord(c, Bernoulli(ChurnProbability(c), d.churn))
  }

  /** The synthetic data set, one record per draw. */
  function GenerateSyntheticData(draws: seq<ChurnDraw>): (data: seq<ChurnRecord>)
    requires forall i :: 0 <= i < |draws| ==> ValidDraw(draws[i])
    ensures |data| == |draws|
    ensures forall i :: 0 <= i < |data| ==> data[i] == GenerateRecord(draws[i])
    ensures forall i :: 0 <= i < |data| ==> data[i].customer == DrawCustomer(draws[i])
    ensures forall i :: 0 <= i < |data| ==>
              && InDrawRanges(data[i].customer)
              && (data[i].churn == 0 || data[i].churn == 1)
              && (data[i].churn == 1 ==> ChurnProbability(data[i].customer) > 0.0)
              && (data[i].churn == 0 ==> ChurnProbability(data[i].customer) < 1.0)
  {
    seq(|draws|, i requires 0 <= i < |draws| => GenerateRecord(draws[i]))
  }

  /** The customer as a feature row in training column order. */
  function CustomerValues(c: Customer): seq<real>
  {
    [ c.age as real, c.tenure as real, c.monthlyCharges, c.totalCharges,
      c.contractType as real, c.paymentMethod as real, c.internetService as real,
      c.techSupport as real ]
  }

  /** The customer as the dictionary the data frame is built from; the script writes its keys
      in the order of the feature columns. */
  function CustomerFrame(c: Customer): (m: map<string, real>)
    ensures m.Keys == set n | n in FeatureColumns
  {
    FeatureColumnsDistinct();
    RowDict(FeatureColumns, CustomerValues(c))
  }

  /** Selecting the feature columns from a customer's dictionary gives its feature row. */
  lemma FeatureMatrixRow(c: Customer)
    ensures Project(CustomerFrame(c), FeatureColumns) == Ok(CustomerValues(c))
  {
    FeatureColumnsDistinct();
    RowDictRoundTrip(FeatureColumns, CustomerValues(c));
  }

  /** One entry of the feature-importance table. */
  datatype FeatureImportance = FeatureImportance(feature: string, importance: real)

  function ImportanceRecords(names: seq<string>, importances: seq<real>): (r: seq<FeatureImportance>)
    requires |names| == |importances|
    ensures |r| == |names|
    ensures forall i :: 0 <= i < |r| ==> r[i] == FeatureImportance(names[i], importances[i])
  {
    seq(|names|, i requires 0 <= i < |names| => FeatureImportance(names[i], importances[i]))
  }

  ghost predicate SortedByImportance(s: seq<FeatureImportance>)
  {
    forall i, j :: 0 <= i < j < |s| ==> s[i].importance >= s[j].importance
  }

  /** Inserts `e` before the first entry it is at least as important as. */
  function InsertByImportance(e: FeatureImportance, s: seq<FeatureImportance>): (r: seq<FeatureImportance>)
    requires SortedByImportance(s)
    ensures SortedByImportance(r)
    ensures multiset(r) == multiset(s) + multiset{e}
    ensures |r| == |s| + 1
    ensures r[0] == e || (|s| > 0 && r[0] == s[0])
  {
    if s == [] || e.importance >= s[0].importance then
      PrependSorted(e, s);
      [e] + s
    else
      var rest := InsertByImportance(e, s[1..]);
      PrependSorted(s[0], rest);
      assert multiset(s) == multiset{s[0]} + multiset(s[1..]) by {
        assert s == [s[0]] + s[1..];
      }
      [s[0]] + rest
  }

  lemma PrependSorted(x: FeatureImportance, s: seq<FeatureImportance>)
    requires SortedByImportance(s)
    requires s != [] ==> x.importance >= s[0].importance
    ensures SortedByImportance([x] + s)
  {
    var r := [x] + s;
    forall i, j | 0 <= i < j < |r|
      ensures r[i].importance >= r[j].importance
    {
      if i == 0 && j > 1 {
        assert s[0].importance >= s[j - 1].importance;
      }
    }
  }

  /** `sort_values('importance', ascending=False)`: the entries from most to least important. */
  function SortByImportance(s: seq<FeatureImportance>): (r: seq<FeatureImportance>)
    ensures SortedByImportance(r)
    ensures multiset(r) == multiset(s)
    ensures |r| == |s|
  {
    if s == [] then []
    else
      assert s == [s[0]] + s[1..];
      var r := InsertByImportance(s[0], SortByImportance(s[1..]));
      assert |multiset(r)| == |multiset(s)|;
      r
  }

  /** The feature-importance table: every (feature, importance) pair once, most important first. */
  function FeatureImportanceTable(importances: seq<real>): (table: seq<FeatureImportance>)
    requires |importances| == |FeatureColumns|
    ensures |table| == 8
    ensures SortedByImportance(table)
    ensures multiset(table) == multiset(ImportanceRecords(FeatureColumns, importances))
  {
    SortByImportance(ImportanceRecords(FeatureColumns, importances))
  }

  /** The metadata saved beside the fitted model. */
  datatype ChurnModelInfo = ChurnModelInfo(
    featureNames: seq<string>,
    modelType: string,
    accuracy: real,
    featureImportance: seq<FeatureImportance>)

  function BuildModelInfo(accuracy: real, importances: seq<real>): (info: ChurnModelInfo)
    requires |importances| == |FeatureColumns|
    ensures info.featureNames == FeatureColumns && Distinct(info.featureNames)
    ensures info.modelType == "RandomForestClassifier"
    ensures info.accuracy == accuracy
    ensures |info.featureImportance| == |info.featureNames|
    ensures SortedByImportance(info.featureImportance)
    ensures multiset(info.featureImportance) == multiset(ImportanceRecords(FeatureColumns, importances))
  {
    FeatureColumnsDistinct();
    ChurnModelInfo(FeatureColumns, "RandomForestClassifier", accuracy, FeatureImportanceTable(importances))
  }

  /** The risk band as the training script prints it, one nested conditional expression. */
  function PrintedRiskLevel(p: real): string
  {
    if p > 0.7 then "High" else if p > 0.3 then "Medium" else "Low"
  }

  /** The printed band is the band the prediction function returns. */
  lemma PrintedRiskLevelAgrees(p: real)
    ensures PrintedRiskLevel(p) == RiskLevel(p).Name()
  {
  }

  /** What the script prints for one sample customer. */
  datatype SampleReport = SampleReport(predictionLabel: string, prediction: int, probability: real, riskLevel: string)

  function ReportSamplePrediction(model: Classifier, featureColumns: seq<string>, data: map<string, real>): (r: Result<SampleReport>)
    ensures r.Ok? <==> forall n :: n in featureColumns ==> n in data
    ensures r.Ok? ==> r.value.riskLevel == RiskLevel(r.value.probability).Name()
    ensures r.Ok? ==> r.value.predictionLabel == PredictionLabel(r.value.prediction)
    ensures r.Ok? ==>
              && r.value.prediction == model.predict(Select(data, featureColumns))
              && r.value.probability == model.predictProba(Select(data, featureColumns)).churn
  {
    match Project(data, featureColumns)
    case Err(e) => Err(e)
    case Ok(row) =>
      var prediction := model.predict(row);
      var probability := model.predictProba(row).churn;
      Ok(SampleReport(PredictionLabel(prediction), prediction, probability, PrintedRiskLevel(probability)))
  }

  const LowRiskCustomer: Customer := Customer(45, 36, 65.0, 2340.0, 2, 3, 0, 1)
  const HighRiskCustomer: Customer := Customer(25, 3, 95.0, 285.0, 0, 0, 1, 0)
  const MediumRiskCustomer: Customer := Customer(35, 18, 75.0, 1350.0, 1, 2, 0, 1)

  /** Under the generator's own rule the "High Risk" sample reaches the upper bound of the raw
      probability and always churns; the "Low Risk" sample reaches the lower bound and never
      churns; the "Medium Risk" sample gets the same probability as the "Low Risk" one. */
  lemma SampleCustomersUnderGenerator()
    ensures RawChurnProbability(HighRiskCustomer) == 1.05 && ChurnProbability(HighRiskCustomer) == 1.0
    ensures RawChurnProbability(LowRiskCustomer) == -0.05 && ChurnProbability(LowRiskCustomer) == 0.0
    ensures RawChurnProbability(MediumRiskCustomer) == -0.05 && ChurnProbability(MediumRiskCustomer) == 0.0
    ensures forall u :: 0.0 <= u < 1.0 ==> Bernoulli(ChurnProbability(HighRiskCustomer), u) == 1
    ensures forall u :: 0.0 <= u < 1.0 ==> Bernoulli(ChurnProbability(LowRiskCustomer), u) == 0
  {
    assert RawChurnProbability(HighRiskCustomer) == 1.05;
    assert RawChurnProbability(LowRiskCustomer) == -0.05;
    assert RawChurnProbability(MediumRiskCustomer) == -0.05;
  }
}
