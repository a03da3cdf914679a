/**
 The house-price training script: the synthetic house generator (integer feature draws and the
 linear price rule floored at 50000) and the metadata record written beside the model.

 Fitting the linear regression, the train/test split and the metrics are not modelled: the
 R-squared score and the RMSE are parameters.
 */
module HouseTraining {
  import opened Np
  import opened Features

  const BasePrice: int := 50000
  const PricePerBedroom: int := 25000
  const PricePerBathroom: int := 15000
  const PricePerSqft: int := 100
  const AgeDepreciation: int := 1000
  /** The floor `np.maximum` applies to every price. */
  const MinimumPrice: real := 50000.0

  /** One synthetic house: the four features and the price. */
  datatype House = House(bedrooms: int, bathrooms: int, sqft: int, age: int, price: real)

  /** The raw random values behind one house, one per numpy draw. */
  datatype HouseDraw = HouseDraw(bedrooms: nat, bathrooms: nat, sqft: nat, age: nat, noise: real)

  /** The feature ranges the draws produce; the upper bounds of `randint` are exclusive, so a
      house never has 4000 square feet or an age of 50. */
  predicate FeaturesInDrawRanges(bedrooms: int, bathrooms: int, sqft: int, age: int)
  {
    1 <= bedrooms <= 5 && 1 <= bathrooms <= 3 && 800 <= sqft <= 3999 && 0 <= age <= 49
  }

  predicate InDrawRanges(h: House)
  {
    FeaturesInDrawRanges(h.bedrooms, h.bathrooms, h.sqft, h.age) && h.price >= MinimumPrice
  }

  /** The linear price rule before the floor. */
  function RawPrice(bedrooms: int, bathrooms: int, sqft: int, age: int, noise: real): real
  {
    (BasePrice
     + bedrooms * PricePerBedroom
     + bathrooms * PricePerBathroom
     + sqft * PricePerSqft
     - age * AgeDepreciation) as real
    + noise
  }

  /** The price of a house: the linear rule, floored at 50000. */
  function Price(bedrooms: int, bathrooms: int, sqft: int, age: int, noise: real): (p: real)
    ensures p >= MinimumPrice
    ensures p >= RawPrice(bedrooms, bathrooms, sqft, age, noise)
    ensures RawPrice(bedrooms, bathrooms, sqft, age, noise) >= MinimumPrice ==>
              p == RawPrice(bedrooms, bathrooms, sqft, age, noise)
    ensures RawPrice(bedrooms, bathrooms, sqft, age, noise) < MinimumPrice ==> p == MinimumPrice
  {
    Maximum(RawPrice(bedrooms, bathrooms, sqft, age, noise), MinimumPrice)
  }

  function DrawHouse(d: HouseDraw): (h: House)
    ensures InDrawRanges(h)
    ensures h.price == Price(h.bedrooms, h.bathrooms, h.sqft, h.age, d.noise)
  {
    var bedrooms := RandInt(1, 6, d.bedrooms);
    var bathrooms := RandInt(1, 4, d.bathrooms);
    var sqft := RandInt(800, 4000, d.sqft);
    var age := RandInt(0, 50, d.age);
    House(bedrooms, bathrooms, sqft, age, Price(bedrooms, bathrooms, sqft, age, d.noise))
  }

  /** The draw ranges are exact: a house comes out of some draw iff it lies in them. */
  lemma DrawnHousesAreExactlyInRange(h: House)
    ensures (exists d :: DrawHouse(d) == h) <==> InDrawRanges(h)
  {
    if InDrawRanges(h) {
      var d := DrawFor(h);
      assert DrawHouse(d) == h;
    }
  }

  /** A draw that produces a given in-range house. */
  lemma DrawFor(h: House) returns (d: HouseDraw)
    requires InDrawRanges(h)
    ensures DrawHouse(d) == h
  {
    var noise := h.price - RawPrice(h.bedrooms, h.bathrooms, h.sqft, h.age, 0.0);
    d := HouseDraw(h.bedrooms - 1, h.bathrooms - 1, h.sqft - 800, h.age, noise);
    RandIntHits(1, 6, h.bedrooms);
    RandIntHits(1, 4, h.bathrooms);
    RandIntHits(800, 4000, h.sqft);
    RandIntHits(0, 50, h.age);
    assert RandInt(1, 6, d.bedrooms) == h.bedrooms && RandInt(1, 4, d.bathrooms) == h.bathrooms;
    assert RandInt(800, 4000, d.sqft) == h.sqft && RandInt(0, 50, d.age) == h.age;
    assert RawPrice(h.bedrooms, h.bathrooms, h.sqft, h.age, noise) == h.price;
    assert Price(h.bedrooms, h.bathrooms, h.sqft, h.age, noise) == h.price;
  }

  /** The synthetic data set, one house per draw. */
  function GenerateSampleData(draws: seq<HouseDraw>): (data: seq<House>)
    ensures |data| == |draws|
    ensures forall i :: 0 <= i < |data| ==> data[i] == DrawHouse(draws[i])
    ensures forall i :: 0 <= i < |data| ==> InDrawRanges(data[i])
  {
    seq(|draws|, i requires 0 <= i < |draws| => DrawHouse(draws[i]))
  }

  /** Without noise the price over the draw ranges lies in [121000, 619900], both ends are
      reached, and the floor never applies. */
  lemma NoiselessPriceRange(bedrooms: int, bathrooms: int, sqft: int, age: int)
    requires FeaturesInDrawRanges(bedrooms, bathrooms, sqft, age)
    ensures 121000.0 <= RawPrice(bedrooms, bathrooms, sqft, age, 0.0) <= 619900.0
    ensures Price(bedrooms, bathrooms, sqft, age, 0.0) == RawPrice(bedrooms, bathrooms, sqft, age, 0.0)
    ensures RawPrice(1, 1, 800, 49, 0.0) == 121000.0
    ensures RawPrice(5, 3, 3999, 0, 0.0) == 619900.0
  {
  }

  /** With the noise fixed, the price rises with bedrooms, bathrooms and square footage and
      falls with age. */
  lemma PriceMonotone(b1: int, ba1: int, s1: int, a1: int, b2: int, ba2: int, s2: int, a2: int, noise: real)
    requires b1 <= b2 && ba1 <= ba2 && s1 <= s2 && a1 >= a2
    ensures Price(b1, ba1, s1, a1, noise) <= Price(b2, ba2, s2, a2, noise)
  {
  }

  /** The feature order of the regressor. */
  const HouseFeatures: seq<string> := ["bedrooms", "bathrooms", "sqft", "age"]

  /** The positional sample house the script predicts after training. */
  const SampleHouse: seq<int> := [3, 2, 1500, 10]

  /** The metadata written beside the model. */
  datatype HouseModelInfo = HouseModelInfo(
    modelType: string,
    features: seq<string>,
    featureDescriptions: map<string, string>,
    target: string,
    targetDescription: string,
    performance: map<string, real>,
    sampleInput: map<string, int>)

  function BuildModelInfo(r2: real, rmse: real): (info: HouseModelInfo)
    ensures info.modelType == "LinearRegression"
    ensures info.features == HouseFeatures && Distinct(info.features)
    ensures info.featureDescriptions.Keys == set n | n in info.features
    ensures info.target == "price"
    ensures info.performance.Keys == {"r2_score", "rmse"}
    ensures info.performance["r2_score"] == r2 && info.performance["rmse"] == rmse
    ensures Project(info.sampleInput, info.features) == Ok(SampleHouse)
  {
    FeatureDescriptionsCoverFeatures();
    SampleInputMatchesSampleHouse();
    HouseModelInfo(
      "LinearRegression",
      HouseFeatures,
      FeatureDescriptions,
      "price",
      "House price in USD",
      Performance(r2, rmse),
      SampleInput)
  }

  /** The `performance` record: exactly the two metrics. */
  function Performance(r2: real, rmse: real): (m: map<string, real>)
    ensures m.Keys == {"r2_score", "rmse"}
    ensures m["r2_score"] == r2 && m["rmse"] == rmse
  {
    map["r2_score" := r2, "rmse" := rmse]
  }

  const FeatureDescriptions: map<string, string> := map[
    "bedrooms" := "Number of bedrooms (1-5)",
    "bathrooms" := "Number of bathrooms (1-3)",
    "sqft" := "Square footage (800-4000)",
    "age" := "Age of house in years (0-50)"]

  const SampleInput: map<string, int> := map["bedrooms" := 3, "bathrooms" := 2, "sqft" := 1500, "age" := 10]

  /** Every feature has a description and every description belongs to a feature. */
  lemma FeatureDescriptionsCoverFeatures()
    ensures Distinct(HouseFeatures)
    ensures FeatureDescriptions.Keys == set n | n in HouseFeatures
  {
    assert (set n | n in HouseFeatures) == {"bedrooms", "bathrooms", "sqft", "age"};
  }

  /** Reading the sample input dictionary in feature order gives the positional sample house. */
  lemma SampleInputMatchesSampleHouse()
    ensures Project(SampleInput, HouseFeatures) == Ok(SampleHouse)
  {
    var r := Project(SampleInput, HouseFeatures);
    assert forall n :: n in HouseFeatures ==> n in SampleInput;
    assert r.Ok?;
    assert r.value == SampleHouse;
  }
}
