# ml-model-dashboard: the deterministic core, in Dafny

The repository holds two demo pipelines. A churn classifier (`classification-ml-model/`)
synthesizes customers, fits a random forest and predicts churn with a risk band. A house-price
regressor (`sample-ml-model/`) synthesizes houses and fits a linear regression. Almost all of it
is glue around numpy, pandas, scikit-learn and joblib. This project models the part that is
exact:

- the synthesizers' per-row rules: integer draw ranges (numpy's `randint` excludes its upper
  bound), the total-charges floor of 20, the churn probability as an affine sum of indicator
  terms clipped to [0, 1], the Bernoulli churn label, and the house price as a linear rule
  floored at 50000;
- the three-band risk classifier (High above 0.7, Medium above 0.3, Low otherwise) and the
  "Churn"/"No Churn" label, defined in `ChurnCommon`. The training script writes the band again
  inline when it prints sample predictions. That copy is `ChurnTraining.PrintedRiskLevel`, and
  `ChurnTraining.PrintedRiskLevelAgrees` proves it equal to `ChurnCommon.RiskLevel`;
- column selection by name (`frame[names]`): values in the trained column order, a KeyError
  naming the absent columns, other keys dropped;
- `predict_churn`'s result record, its error record, and the API response's `confidence`;
- the feature-importance table (sorted most important first, a permutation of the pairs);
- the metadata records both training scripts save.

Modules: `Np` (numpy primitives, `np.dfy`), `Features` (column selection, `features.dfy`),
`ChurnCommon` (classifier interface, risk band, label, `churn_common.dfy`), `ChurnTraining`
(`churn_training.dfy`), `ChurnPredictor` (`churn_predictor.dfy`), `HouseTraining`
(`house_training.dfy`).

Every random draw is a parameter. An integer draw is an arbitrary natural reduced into the
range. A uniform draw is an offset in [0, width). Normal noise is an arbitrary real. The fitted
classifier is a pair of opaque functions: one gives the class, the other the class
probabilities. Probabilities and charges are `real`, so the thresholds hold exactly and floating
point rounding is not modelled.

Behaviour of the code worth knowing:

- Keys of a prediction input outside the trained columns are dropped silently
  (`Features.ProjectIgnoresOtherKeys`, `ChurnPredictor.PredictChurnIgnoresOtherKeys`).
- The synthesizers do not check the sample count; here it is the length of the draw sequence.
- The house metadata describes square footage as "800-4000" and age as "0-50". The draws can
  never produce 4000 or 50 (`HouseTraining.DrawnHousesAreExactlyInRange`).

The "Medium Risk Customer" sample of the training script gets generator probability 0, the same
as the "Low Risk Customer" (`ChurnTraining.SampleCustomersUnderGenerator`). Its printed band
depends only on the fitted forest.

## Model

| member | source | states |
|---|---|---|
| `Np.RandInt` | classification-ml-model/train_churn_model.py:22-23 | `randint(low, high)` gives an integer in [low, high): the upper bound is exclusive |
| `Np.RandIntRange` | sample-ml-model/train_model.py:20-23 | an integer can be drawn iff it lies in [low, high), so both ends of each draw range are exact |
| `Np.Choice` | classification-ml-model/train_churn_model.py:28-31 | `choice` returns one of the listed options |
| `Np.ChoiceRange` | classification-ml-model/train_churn_model.py:28-31 | a value can be chosen iff it is one of the options |
| `Np.Uniform` | classification-ml-model/train_churn_model.py:24 | `uniform(low, high)` lies in [low, high) |
| `Np.Bernoulli` | classification-ml-model/train_churn_model.py:61 | the label is 0 or 1; probability 0 always gives 0 and probability 1 always gives 1 |
| `Np.Maximum` | classification-ml-model/train_churn_model.py:26 | the result is at least both arguments and equals one of them |
| `Np.Clip` | classification-ml-model/train_churn_model.py:58 | the result lies in [lo, hi]; it equals x when x is in range, lo below it, hi above it |
| `Np.ClipMonotone` | classification-ml-model/train_churn_model.py:58 | clipping preserves the order of two values |
| `Features.Missing` | classification-ml-model/test_churn_model.py:30 | exactly the requested names the row lacks |
| `Features.Select` | classification-ml-model/test_churn_model.py:30 | position i holds the row's value under the i-th requested name |
| `Features.Project` | classification-ml-model/test_churn_model.py:29-30 | error iff some requested name is absent; the error names exactly the absent names; otherwise the values in requested order |
| `Features.ProjectIgnoresOtherKeys` | classification-ml-model/test_churn_model.py:29-30 | two rows that agree on the requested names project identically, so extra keys and key order make no difference |
| `Features.RowDict` | classification-ml-model/train_churn_model.py:34-43 | the dictionary of a row has exactly the column names as keys and each value under its own name |
| `Features.RowDictRoundTrip` | classification-ml-model/train_churn_model.py:198-199 | writing a row under distinct names and selecting those names in order gives the row back |
| `ChurnCommon.RiskLevel` | classification-ml-model/test_churn_model.py:38-43 | High iff p > 0.7, Medium iff 0.3 < p <= 0.7, Low iff p <= 0.3 |
| `ChurnCommon.RiskLevelBoundaries` | classification-ml-model/test_churn_model.py:38-43 | 0.7 is Medium, 0.70001 High, 0.3 Low, 0.30001 Medium |
| `ChurnCommon.RiskLevelMonotone` | classification-ml-model/test_churn_model.py:38-43 | a higher probability never yields a lower band |
| `ChurnCommon.PredictionLabel` | classification-ml-model/test_churn_model.py:50 | "Churn" iff the class is 1, "No Churn" otherwise |
| `ChurnTraining.FeatureColumnsDistinct` | classification-ml-model/train_churn_model.py:78-81 | the training columns are 8 distinct names |
| `ChurnTraining.TotalCharges` | classification-ml-model/train_churn_model.py:25-26 | total charges are at least 20; equal to monthly times tenure plus noise when that is at least 20, and 20 otherwise |
| `ChurnTraining.DrawCustomer` | classification-ml-model/train_churn_model.py:22-31 | every drawn customer has age in [18,80], tenure in [1,72], monthly charges in [20,120), total charges of at least 20, contract in {0,1,2}, payment in {0..3}, internet in {0,1,2} and tech support in {0,1}; its total charges are `TotalCharges` of its own monthly charges, tenure and noise draw |
| `ChurnTraining.DrawnCustomersAreExactlyInRange` | classification-ml-model/train_churn_model.py:22-31 | a customer comes out of some valid draw iff it lies in those ranges |
| `ChurnTraining.IndicatorSumBounds` | classification-ml-model/train_churn_model.py:46-55 | a weighted indicator sum lies between the sum of its negative weights and the sum of its positive weights |
| `ChurnTraining.IndicatorSumMonotone` | classification-ml-model/train_churn_model.py:46-55 | activating positively weighted terms, or deactivating negatively weighted ones, never lowers the sum |
| `ChurnTraining.RawChurnProbabilityBounds` | classification-ml-model/train_churn_model.py:46-55 | before clipping the churn probability lies in [-0.05, 1.05] |
| `ChurnTraining.ChurnProbability` | classification-ml-model/train_churn_model.py:46-58 | the clipped probability lies in [0, 1]; it equals the raw value whenever that is in [0, 1], is 0 when the raw value is below 0 and 1 when it is above 1 |
| `ChurnTraining.ChurnProbabilityMonotone` | classification-ml-model/train_churn_model.py:46-58 | a customer with every raising indicator of another, and tech support only where the other has it, has raw and clipped probability at least as high |
| `ChurnTraining.SingleIndicatorEffects` | classification-ml-model/train_churn_model.py:46-58 | setting any one indicator never lowers the probability: a tenure below 6, month-to-month, electronic check, charges above 80, an age below 30 or fibre; setting tech support never raises it |
| `ChurnTraining.GenerateRecord` | classification-ml-model/train_churn_model.py:46-62 | the record's customer is the customer drawn from the same draw and lies in the draw ranges; the label is the Bernoulli draw of that customer's churn probability with the record's own label draw, so it is 0 or 1, label 1 needs a positive probability and label 0 a probability below 1 |
| `ChurnTraining.GenerateSyntheticData` | classification-ml-model/train_churn_model.py:17-64 | one record per draw; record i is the record generated from draw i, so its customer is in range and its 0/1 label agrees with the customer's churn probability as above |
| `ChurnTraining.CustomerFrame` | classification-ml-model/train_churn_model.py:34-43 | the data-frame dictionary of a customer has exactly the feature columns as keys |
| `ChurnTraining.FeatureMatrixRow` | classification-ml-model/train_churn_model.py:78-83 | selecting the feature columns from a customer's dictionary gives its 8 values in training column order |
| `ChurnTraining.ImportanceRecords` | classification-ml-model/train_churn_model.py:122-124 | entry i pairs the i-th feature with the i-th importance |
| `ChurnTraining.InsertByImportance` | classification-ml-model/train_churn_model.py:125 | inserting into a table sorted by decreasing importance keeps it sorted and adds exactly the one entry |
| `ChurnTraining.SortByImportance` | classification-ml-model/train_churn_model.py:122-125 | the result is sorted by non-increasing importance and is a permutation of the input |
| `ChurnTraining.FeatureImportanceTable` | classification-ml-model/train_churn_model.py:122-125 | the table has 8 entries, is sorted by non-increasing importance and is a permutation of the (feature, importance) pairs |
| `ChurnTraining.BuildModelInfo` | classification-ml-model/train_churn_model.py:137-142 | the saved metadata has the 8 distinct training columns, the model type, the accuracy, and the sorted importance table with one entry per feature |
| `ChurnTraining.PrintedRiskLevelAgrees` | classification-ml-model/train_churn_model.py:209 | the inline band expression printed after training is the same function as `predict_churn`'s band |
| `ChurnTraining.ReportSamplePrediction` | classification-ml-model/train_churn_model.py:196-209 | succeeds iff the sample has every feature column; the printed band is the risk band of the printed probability and the label is that of the class ("Churn" iff 1, "No Churn" otherwise); class and probability come from the row in column order |
| `ChurnTraining.SampleCustomersUnderGenerator` | classification-ml-model/train_churn_model.py:154-194 | under the generator's rule the High Risk sample has raw probability 1.05, clipped to 1, and is always labelled churn; Low Risk has -0.05, clipped to 0, never churn; Medium Risk also gets 0 |
| `ChurnPredictor.PredictChurn` | classification-ml-model/test_churn_model.py:25-54 | error record iff a trained feature name is missing, naming exactly the missing names; otherwise the class, `probabilities[1]` and `probabilities[0]` of the row in trained order, its risk band, and the label of the class ("Churn" iff 1, "No Churn" otherwise) |
| `ChurnPredictor.PredictChurnIgnoresOtherKeys` | classification-ml-model/test_churn_model.py:29-30 | the result depends only on the values under the trained names, not on extra keys or key order |
| `ChurnPredictor.PredictChurnOnRow` | classification-ml-model/test_churn_model.py:29-51 | a dictionary holding a feature row under the trained names is predicted on exactly that row |
| `ChurnPredictor.PredictChurnOnCustomer` | classification-ml-model/test_churn_model.py:29-35 | a generated customer fed to a model saved by the training script always gets a prediction: class, churn and no-churn probability, band and label are those of its row in training column order |
| `ChurnPredictor.Confidence` | classification-ml-model/test_churn_model.py:208 | confidence is the larger of the two class probabilities: at least both and equal to one of them |
| `ChurnPredictor.ConfidenceAtLeastHalf` | classification-ml-model/test_churn_model.py:208 | when the class probabilities sum to 1 the confidence is at least 0.5 |
| `ChurnPredictor.BuildApiResponse` | classification-ml-model/test_churn_model.py:196-214 | a response exists iff the record is a prediction; it carries the model id, the prediction, the churn probability, the confidence of the two class probabilities (their maximum, so at least both), the band, the label and the input |
| `HouseTraining.Price` | sample-ml-model/train_model.py:26-40 | the price is at least 50000 and at least the linear rule; it equals the rule whenever the rule is at least 50000 and is exactly 50000 otherwise |
| `HouseTraining.DrawHouse` | sample-ml-model/train_model.py:20-40 | every drawn house has bedrooms in [1,5], bathrooms in [1,3], sqft in [800,3999], age in [0,49] and price at least 50000; the price is `Price` of the house's own features and its noise draw |
| `HouseTraining.DrawnHousesAreExactlyInRange` | sample-ml-model/train_model.py:20-23 | a house comes out of some draw iff it lies in those ranges, so 4000 sqft and age 50 never occur |
| `HouseTraining.GenerateSampleData` | sample-ml-model/train_model.py:15-51 | one house per draw, each from its own draw, all in range |
| `HouseTraining.NoiselessPriceRange` | sample-ml-model/train_model.py:20-37 | with zero noise the price over the draw ranges lies in [121000, 619900], both ends are reached, and the floor never applies |
| `HouseTraining.PriceMonotone` | sample-ml-model/train_model.py:32-40 | with the noise fixed the price is non-decreasing in bedrooms, bathrooms and sqft and non-increasing in age |
| `HouseTraining.BuildModelInfo` | sample-ml-model/train_model.py:100-121 | the metadata lists the 4 distinct features, describes exactly those features, has exactly the metrics r2_score and rmse, and its sample input read in feature order is the sample house |
| `HouseTraining.Performance` | sample-ml-model/train_model.py:111-114 | the performance record has exactly the keys r2_score and rmse, holding the two metrics |
| `HouseTraining.FeatureDescriptionsCoverFeatures` | sample-ml-model/train_model.py:103-108 | the keys of the feature descriptions are exactly the feature names, which are distinct |
| `HouseTraining.SampleInputMatchesSampleHouse` | sample-ml-model/train_model.py:115-120 | the sample input read in the order of `features` is [3, 2, 1500, 10], the positional sample house |

## Left out

- Fitting, `predict` and `predict_proba` of the random forest and the linear regression: opaque library numerics. The classifier is a pair of uninterpreted functions; the regressor's sample prediction is not modelled.
- `train_test_split` (with stratification) and the metrics (accuracy, classification report, confusion matrix, R², MSE, RMSE): opaque floating-point library code. Accuracy, importances, R² and RMSE are parameters.
- The random generator and global seeding: draws are parameters. The draw order of numpy's column-wise stream is not modelled. Neither are the `choice` probabilities nor the normal noise's distribution.
- Np.Bernoulli: states only that the label is 0 or 1 and what happens at probabilities 0 and 1. The model draws it as `u < p`, and numpy's sampling algorithm is not modelled.
- ChurnTraining.SortByImportance: pandas' default sort is not stable, so the order of entries with equal importance is not modelled. The model keeps input order for ties; the contract holds for any tie order.
- Features.Project: the text of pandas' KeyError message is not modelled; the error carries the missing names.
- ChurnPredictor.PredictChurn: exceptions other than a missing column are not modelled. The classifier is a total function, so `predict` and `predict_proba` never raise here. `int()` and `float()` are the identity.
- ChurnPredictor.BuildApiResponse: `processingTime` (a random draw) and `timestamp` (the clock) are left out.
- Loading and saving with joblib and json, including `load_model`'s missing-file path: file I/O.
- The interactive `input()` loop, all printing and JSON pretty-printing: console I/O.
- `sample-ml-model/test_model.py` and both `quick_start.py` scripts: they pass lists to the opaque model, print, or orchestrate subprocesses and pip.
- IEEE floating point: probabilities, charges and prices are exact reals.
