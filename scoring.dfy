/**
 * The arithmetic of the heuristic "random forest": six threshold rules
 * ("tree votes"), their fixed weights, the weighted sum, the variance term,
 * the clamp to [0, 1], rounding, the four risk categories and their fixed
 * recommendation lists. Numbers are exact reals; the random draws are inputs.
 */
module Scoring {
  import opened Patient
  import opened Ranking

  /** Tree 1, age and sex: +0.3 over 65, a further +0.2 over 75, +0.1 for a male patient. */
  function AgeVote(d: PatientRecord): (v: real)
    ensures 0.0 <= v <= 0.6
  {
    (if d.age > 65 then 0.3 else 0.0)
    + (if d.age > 75 then 0.2 else 0.0)
    + (if d.sex then 0.1 else 0.0)
  }

  /** Tree 2, comorbidities and lifestyle: anaemia, diabetes, high blood pressure, smoking. */
  function ComorbidityVote(d: PatientRecord): (v: real)
    ensures 0.0 <= v <= 0.8
  {
    (if d.anaemia then 0.25 else 0.0)
    + (if d.diabetes then 0.2 else 0.0)
    + (if d.highBloodPressure then 0.15 else 0.0)
    + (if d.smoking then 0.2 else 0.0)
  }

  /** Tree 3, cardiac function: the lower the ejection fraction band, the larger the vote. */
  function CardiacVote(d: PatientRecord): (v: real)
    ensures 0.0 <= v <= 0.4
  {
    if d.ejectionFraction < 30 then 0.4
    else if d.ejectionFraction < 40 then 0.25
    else if d.ejectionFraction < 50 then 0.1
    else 0.0
  }

  /** Tree 4, renal function: serum creatinine band, plus 0.15 for serum sodium under 135. */
  function RenalVote(d: PatientRecord): (v: real)
    ensures 0.0 <= v <= 0.45
  {
    (if d.serumCreatinine > 2.0 then 0.3 else if d.serumCreatinine > 1.4 then 0.2 else 0.0)
    + (if d.serumSodium < 135 then 0.15 else 0.0)
  }

  /** Tree 5, laboratory markers: creatinine phosphokinase band and platelet band. */
  function LabVote(d: PatientRecord): (v: real)
    ensures 0.0 <= v <= 0.35
  {
    (if d.creatininePhosphokinase > 1000.0 then 0.2
     else if d.creatininePhosphokinase > 500.0 then 0.1 else 0.0)
    + (if d.platelets < 150000 then 0.15 else if d.platelets < 200000 then 0.05 else 0.0)
  }

  /** Tree 6, follow-up: short follow-up bands, plus 0.4 when a death event is recorded. */
  function FollowUpVote(d: PatientRecord): (v: real)
    ensures 0.0 <= v <= 0.65
  {
    (if d.time < 30 then 0.25 else if d.time < 60 then 0.15 else 0.0)
    + (if d.deathEvent then 0.4 else 0.0)
  }

  /** The six votes in the order they are pushed. */
  function TreeVotes(d: PatientRecord): (votes: seq<real>)
    ensures |votes| == 6
  {
    [AgeVote(d), ComorbidityVote(d), CardiacVote(d), RenalVote(d), LabVote(d), FollowUpVote(d)]
  }

  /** The fixed per-tree weights. */
  const TreeWeights: seq<real> := [0.15, 0.18, 0.25, 0.20, 0.12, 0.10]

  /** `sum of votes[i] * weights[i]`, accumulated from the first pair to the last. */
  function WeightedSum(votes: seq<real>, weights: seq<real>): real
    requires |votes| == |weights|
  {
    if votes == [] then 0.0
    else WeightedSum(votes[..|votes| - 1], weights[..|weights| - 1])
         + votes[|votes| - 1] * weights[|weights| - 1]
  }

  /** A weighted sum of six pairs, written out. */
  lemma WeightedSumOfSix(votes: seq<real>, weights: seq<real>)
    requires |votes| == |weights| == 6
    ensures WeightedSum(votes, weights)
         == votes[0] * weights[0] + votes[1] * weights[1] + votes[2] * weights[2]
          + votes[3] * weights[3] + votes[4] * weights[4] + votes[5] * weights[5]
  {
    var v, w := votes, weights;
    assert v[..1][..0] == [] && w[..1][..0] == [];
    assert WeightedSum(v[..1], w[..1]) == v[0] * w[0];
    assert v[..2][..1] == v[..1] && w[..2][..1] == w[..1];
    assert WeightedSum(v[..2], w[..2]) == WeightedSum(v[..1], w[..1]) + v[1] * w[1];
    assert v[..3][..2] == v[..2] && w[..3][..2] == w[..2];
    assert WeightedSum(v[..3], w[..3]) == WeightedSum(v[..2], w[..2]) + v[2] * w[2];
    assert v[..4][..3] == v[..3] && w[..4][..3] == w[..3];
    assert WeightedSum(v[..4], w[..4]) == WeightedSum(v[..3], w[..3]) + v[3] * w[3];
    assert v[..5][..4] == v[..4] && w[..5][..4] == w[..4];
    assert WeightedSum(v[..5], w[..5]) == WeightedSum(v[..4], w[..4]) + v[4] * w[4];
    assert v[..5] == v[..|v| - 1] && w[..5] == w[..|w| - 1];
  }

  /** One more iteration of the accumulating loop adds the next vote times its weight. */
  lemma WeightedSumStep(votes: seq<real>, weights: seq<real>, i: nat)
    requires i < |votes| == |weights|
    ensures WeightedSum(votes[..i + 1], weights[..i + 1])
         == WeightedSum(votes[..i], weights[..i]) + votes[i] * weights[i]
  {
    assert votes[..i + 1][..i] == votes[..i] && weights[..i + 1][..i] == weights[..i];
  }

  /** The noise-free ensemble score of a record. */
  function EnsembleScore(d: PatientRecord): real {
    WeightedSum(TreeVotes(d), TreeWeights)
  }

  /** The weights sum to one: a record on which every tree voted 1 would score exactly 1. */
  lemma WeightsSumToOne()
    ensures WeightedSum([1.0, 1.0, 1.0, 1.0, 1.0, 1.0], TreeWeights) == 1.0
  {
    WeightedSumOfSix([1.0, 1.0, 1.0, 1.0, 1.0, 1.0], TreeWeights);
  }

  /** The ensemble score as the explicit weighted combination of the six votes. */
  lemma EnsembleScoreExpanded(d: PatientRecord)
    ensures EnsembleScore(d)
         == 0.15 * AgeVote(d) + 0.18 * ComorbidityVote(d) + 0.25 * CardiacVote(d)
          + 0.20 * RenalVote(d) + 0.12 * LabVote(d) + 0.10 * FollowUpVote(d)
  {
    WeightedSumOfSix(TreeVotes(d), TreeWeights);
  }

  /** Every record's noise-free score lies in [0, 0.531]. */
  lemma EnsembleScoreBounds(d: PatientRecord)
    ensures 0.0 <= EnsembleScore(d) <= 0.531
  {
    EnsembleScoreExpanded(d);
  }

  /** A record that triggers every rule at its largest band. */
  const HighestRiskRecord: PatientRecord :=
    PatientRecord(80, true, 1500.0, true, 20, true, 100000, 2.5, 130, true, true, 10, true)

  /** A record that triggers no rule at all. */
  const LowestRiskRecord: PatientRecord :=
    PatientRecord(40, false, 100.0, false, 60, false, 300000, 1.0, 140, false, false, 100, false)

  /** Both ends of [0, 0.531] are reached. */
  lemma EnsembleScoreBoundsAttained()
    ensures EnsembleScore(HighestRiskRecord) == 0.531
    ensures EnsembleScore(LowestRiskRecord) == 0.0
  {
    EnsembleScoreExpanded(HighestRiskRecord);
    EnsembleScoreExpanded(LowestRiskRecord);
  }

  /** The variance term `(draw - 0.5) * 0.1` for a draw in [0, 1). */
  function Variance(draw: real): (n: real)
    requires 0.0 <= draw < 1.0
    ensures -0.05 <= n < 0.05
  {
    (draw - 0.5) * 0.1
  }

  /** `Math.max(0, Math.min(1, x))`. */
  function Clamp(x: real): (c: real)
    ensures 0.0 <= c <= 1.0
    ensures 0.0 <= x <= 1.0 ==> c == x
    ensures x < 0.0 ==> c == 0.0
    ensures x > 1.0 ==> c == 1.0
  {
    if x > 1.0 then 1.0 else if x < 0.0 then 0.0 else x
  }

  /** `Math.round(x)`: the nearest integer, halves rounded up. */
  function Round(x: real): (n: int)
    ensures x - 0.5 < n as real <= x + 0.5
  {
    (x + 0.5).Floor
  }

  lemma RoundMonotone(x: real, y: real)
    requires x <= y
    ensures Round(x) <= Round(y)
  {
  }

  /** The clamped score of a record under a given variance draw. */
  function Score(d: PatientRecord, varianceDraw: real): (s: real)
    requires 0.0 <= varianceDraw < 1.0
    ensures 0.0 <= s <= 1.0
  {
    Clamp(EnsembleScore(d) + Variance(varianceDraw))
  }

  /** The score never reaches 0.581: the variance moves the noise-free score by less than 0.05. */
  lemma ScoreBelowCriticalBand(d: PatientRecord, varianceDraw: real)
    requires 0.0 <= varianceDraw < 1.0
    ensures Score(d, varianceDraw) < 0.581
  {
    EnsembleScoreBounds(d);
  }

  /** `risk_score`, the clamped score as a whole percentage. */
  function RiskScore(score: real): (pct: int)
    requires 0.0 <= score <= 1.0
    ensures 0 <= pct <= 100
  {
    Round(score * 100.0)
  }

  /** `confidence`, a percentage drawn from the independent second draw. */
  function Confidence(draw: real): (pct: int)
    requires 0.0 <= draw < 1.0
    ensures 82 <= pct <= 97
  {
    Round((0.82 + draw * 0.15) * 100.0)
  }

  datatype Category = Low | Moderate | High | Critical

  /** The position of a category on the scale from Low to Critical. */
  function Severity(c: Category): nat {
    match c
    case Low => 0
    case Moderate => 1
    case High => 2
    case Critical => 3
  }

  /** The category of a clamped score; each band's lower bound is inclusive. */
  function Categorize(score: real): Category {
    if score < 0.25 then Low
    else if score < 0.45 then Moderate
    else if score < 0.70 then High
    else Critical
  }

  lemma CategoryBands(score: real)
    ensures Categorize(score) == Low <==> score < 0.25
    ensures Categorize(score) == Moderate <==> 0.25 <= score < 0.45
    ensures Categorize(score) == High <==> 0.45 <= score < 0.70
    ensures Categorize(score) == Critical <==> 0.70 <= score
  {
  }

  /** A higher score never lands in a less severe category. */
  lemma CategorizeMonotone(s1: real, s2: real)
    requires s1 <= s2
    ensures Severity(Categorize(s1)) <= Severity(Categorize(s2))
  {
  }

  /** The fixed recommendation list shown for each category. */
  function Recommendations(c: Category): (recs: seq<string>)
    ensures |recs| == if c == Low then 4 else 5
  {
    match c
    case Low => [
      "Continue regular monitoring",
      "Maintain healthy lifestyle",
      "Follow up in 6 months",
      "Focus on preventive care"
    ]
    case Moderate => [
      "Increase monitoring frequency",
      "Consider lifestyle modifications",
      "Follow up in 3 months",
      "Monitor blood pressure regularly",
      "Optimize medication adherence"
    ]
    case High => [
      "Immediate medical attention required",
      "Consider hospitalization",
      "Optimize heart failure medications",
      "Weekly monitoring recommended",
      "Cardiology consultation needed"
    ]
    case Critical => [
      "Emergency medical evaluation needed",
      "Consider ICU admission",
      "Aggressive treatment protocol",
      "Daily monitoring essential",
      "Advanced heart failure team consultation"
    ]
  }

  /** Tree 1's importance entry: age. */
  function AgeImportance(d: PatientRecord): seq<FeatureWeight> {
    [FeatureWeight(Age, if d.age > 65 then 0.25 else 0.15)]
  }

  /** Tree 2's importance entries: anaemia, then diabetes. */
  function ComorbidityImportance(d: PatientRecord): seq<FeatureWeight> {
    [FeatureWeight(Anaemia, if d.anaemia then 0.2 else 0.05),
     FeatureWeight(Diabetes, if d.diabetes then 0.15 else 0.05)]
  }

  /** Tree 3's importance entry: ejection fraction. */
  function CardiacImportance(d: PatientRecord): seq<FeatureWeight> {
    [FeatureWeight(EjectionFraction, if d.ejectionFraction < 40 then 0.3 else 0.1)]
  }

  /** Tree 4's importance entry: serum creatinine. */
  function RenalImportance(d: PatientRecord): seq<FeatureWeight> {
    [FeatureWeight(SerumCreatinine, if d.serumCreatinine > 1.4 then 0.25 else 0.1)]
  }

  /** Tree 5's importance entry: creatinine phosphokinase. */
  function LabImportance(d: PatientRecord): seq<FeatureWeight> {
    [FeatureWeight(CreatininePhosphokinase, if d.creatininePhosphokinase > 500.0 then 0.15 else 0.05)]
  }

  /** Tree 6's importance entries: time, then death event. */
  function FollowUpImportance(d: PatientRecord): seq<FeatureWeight> {
    [FeatureWeight(Time, if d.time < 30 then 0.2 else 0.1),
     FeatureWeight(DeathEvent, if d.deathEvent then 0.35 else 0.05)]
  }

  /**
   * The per-feature importance entries in the order the scorer assigns the
   * keys, each resolved by the same thresholds as the votes.
   */
  function FeatureImportance(d: PatientRecord): (entries: seq<FeatureWeight>)
    ensures |entries| == 8
  {
    AgeImportance(d) + ComorbidityImportance(d) + CardiacImportance(d)
    + RenalImportance(d) + LabImportance(d) + FollowUpImportance(d)
  }

  /** The importance values that can occur. */
  predicate IsImportanceLevel(v: real) {
    v == 0.05 || v == 0.1 || v == 0.15 || v == 0.2 || v == 0.25 || v == 0.3 || v == 0.35
  }

  /** The eight keys, in the order the scorer assigns them. */
  const ImportanceKeys: seq<Field> :=
    [Age, Anaemia, Diabetes, EjectionFraction, SerumCreatinine, CreatininePhosphokinase, Time, DeathEvent]

  /** Every record yields the same eight keys in the same order, each with one of the fixed levels. */
  lemma FeatureImportanceShape(d: PatientRecord)
    ensures forall k :: 0 <= k < 8 ==> FeatureImportance(d)[k].feature == ImportanceKeys[k]
    ensures forall k :: 0 <= k < 8 ==> IsImportanceLevel(FeatureImportance(d)[k].importance)
  {
  }
}
