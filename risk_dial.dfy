/**
 * The age- and family-based advice shown on the risk dial: each of the six risk tiers
 * (0 = minimal … 5 = ultra) is classed as acceptable, risky or not recommended.
 */
module RiskDial {
  import opened Wrappers

  datatype Recommendation = Acceptable | Risky | NotRecommended

  /** The two limits of the advice: tiers up to `maxAcceptableRisk` are fine, tiers up to `maxRiskyLevel` risky. */
  datatype Thresholds = Thresholds(maxAcceptableRisk: int, maxRiskyLevel: int)

  /** 'single-parent' is grouped with 'single'. */
  predicate IsSingle(familySituation: string)
  {
    familySituation == "single" || familySituation == "single-parent"
  }

  /** The limits for a known age and family situation; situations the table does not name keep the default (5, 5). */
  function RiskThresholds(age: int, familySituation: string): (t: Thresholds)
    ensures 1 <= t.maxAcceptableRisk <= t.maxRiskyLevel <= 5
    ensures t.maxRiskyLevel - t.maxAcceptableRisk <= 1
  {
    var isMarriedWithKids := familySituation == "family";
    var isMarriedNoKids := familySituation == "couple";
    var isSingle := IsSingle(familySituation);
    if age < 30 then
      if isMarriedWithKids then Thresholds(4, 5) else Thresholds(5, 5)
    else if age < 40 then
      if isSingle then Thresholds(5, 5)
      else if isMarriedNoKids then Thresholds(4, 5)
      else if isMarriedWithKids then Thresholds(2, 3)
      else Thresholds(5, 5)
    else if age < 50 then
      if isSingle then Thresholds(4, 5)
      else if isMarriedNoKids then Thresholds(2, 3)
      else if isMarriedWithKids then Thresholds(1, 2)
      else Thresholds(5, 5)
    else if age < 60 then
      Thresholds(2, 3)
    else
      Thresholds(1, 2)
  }

  /** JavaScript falsiness of the two optional inputs: absent, age 0, or the empty string. */
  predicate MissingProfile(age: Option<int>, familySituation: Option<string>)
  {
    age == None || age == Some(0) || familySituation == None || familySituation == Some("")
  }

  /** The advice for one risk tier. */
  function GetRiskRecommendation(age: Option<int>, familySituation: Option<string>, riskLevel: int): (r: Recommendation)
    ensures MissingProfile(age, familySituation) ==> r == Acceptable
    ensures !MissingProfile(age, familySituation) ==>
      var t := RiskThresholds(age.value, familySituation.value);
      && (r == Acceptable <==> riskLevel <= t.maxAcceptableRisk)
      && (r == Risky <==> t.maxAcceptableRisk < riskLevel <= t.maxRiskyLevel)
      && (r == NotRecommended <==> t.maxRiskyLevel < riskLevel)
  {
    if MissingProfile(age, familySituation) then Acceptable
    else
      var t := RiskThresholds(age.value, familySituation.value);
      if riskLevel <= t.maxAcceptableRisk then Acceptable
      else if riskLevel <= t.maxRiskyLevel then Risky
      else NotRecommended
  }

  /** An acceptable tier makes every lower tier acceptable. */
  lemma AcceptableIsDownwardClosed(age: Option<int>, familySituation: Option<string>, level: int, lower: int)
    requires lower <= level
    requires GetRiskRecommendation(age, familySituation, level) == Acceptable
    ensures GetRiskRecommendation(age, familySituation, lower) == Acceptable
  {
  }

  /** A tier that is not recommended makes every higher tier not recommended. */
  lemma NotRecommendedIsUpwardClosed(age: Option<int>, familySituation: Option<string>, level: int, higher: int)
    requires level <= higher
    requires GetRiskRecommendation(age, familySituation, level) == NotRecommended
    ensures GetRiskRecommendation(age, familySituation, higher) == NotRecommended
  {
  }

  /** From 60 on: tiers 0–1 acceptable, 2 risky, 3–5 not recommended. */
  lemma SeniorBands(age: int, familySituation: string, level: int)
    requires age >= 60 && familySituation != ""
    ensures GetRiskRecommendation(Some(age), Some(familySituation), level) ==
      if level <= 1 then Acceptable else if level == 2 then Risky else NotRecommended
  {
  }

  /** Between 50 and 59 the family situation does not matter. */
  lemma FiftiesIgnoreFamily(age: int, family1: string, family2: string, level: int)
    requires 50 <= age < 60 && family1 != "" && family2 != ""
    ensures GetRiskRecommendation(Some(age), Some(family1), level) == GetRiskRecommendation(Some(age), Some(family2), level)
    ensures RiskThresholds(age, family1) == Thresholds(2, 3)
  {
  }

  /** Under 30 without children every tier of the dial is acceptable. */
  lemma YoungWithoutKidsAcceptsAll(age: int, familySituation: string, level: int)
    requires 0 < age < 30 && familySituation != "" && familySituation != "family"
    requires level <= 5
    ensures GetRiskRecommendation(Some(age), Some(familySituation), level) == Acceptable
  {
  }

  /** A single parent gets the same advice as a single person at every age. */
  lemma SingleParentIsSingle(age: Option<int>, level: int)
    ensures GetRiskRecommendation(age, Some("single-parent"), level) == GetRiskRecommendation(age, Some("single"), level)
  {
  }
}
