/**
 * `simulateSVCPrediction`: from one patient record and two random draws to
 * the risk assessment the result panel shows. `Predict` is the
 * specification; `SimulateSvcPrediction` builds the same record step by step
 * (accumulated votes, pushes, the weighted-sum loop) and is proved equal to it.
 */
module Prediction {
  import opened Patient
  import opened Ranking
  import opened Labels
  import opened Scoring

  /** One displayed top feature: its label and its importance as a whole percentage. */
  datatype TopFeature = TopFeature(feature: string, importance: int)

  /** The risk assessment handed to the result panel. */
  datatype Assessment = Assessment(
    riskScore: int,
    riskCategory: Category,
    confidence: int,
    recommendations: seq<string>,
    topFeatures: seq<TopFeature>,
    treeCount: int
  )

  /** `{ feature: <label>, importance: Math.round(importance * 100) }` for one entry. */
  function Shown(e: FeatureWeight): TopFeature {
    TopFeature(FormatLabel(FieldName(e.feature)), Round(e.importance * 100.0))
  }

  /** The three most important entries, ranked, labelled and rounded. */
  function TopFeatures(entries: seq<FeatureWeight>): seq<TopFeature> {
    var top := TopThree(RankByImportance(entries));
    seq(|top|, i requires 0 <= i < |top| => Shown(top[i]))
  }

  /** The specification of one evaluation. */
  function Predict(d: PatientRecord, varianceDraw: real, confidenceDraw: real): Assessment
    requires 0.0 <= varianceDraw < 1.0 && 0.0 <= confidenceDraw < 1.0
  {
    var score := Score(d, varianceDraw);
    var category := Categorize(score);
    Assessment(
      RiskScore(score),
      category,
      Confidence(confidenceDraw),
      Recommendations(category),
      TopFeatures(FeatureImportance(d)),
      |TreeVotes(d)|)
  }

  /** Tree 1: its vote accumulator and its importance entry. */
  method AgeTree(data: PatientRecord) returns (vote: real, importance: seq<FeatureWeight>)
    ensures vote == AgeVote(data) && importance == AgeImportance(data)
  {
    vote := 0.0;
    if data.age > 65 { vote := vote + 0.3; }
    if data.age > 75 { vote := vote + 0.2; }
    if data.sex { vote := vote + 0.1; }
    importance := [FeatureWeight(Age, if data.age > 65 then 0.25 else 0.15)];
  }

  /** Tree 2: its vote accumulator and its two importance entries. */
  method ComorbidityTree(data: PatientRecord) returns (vote: real, importance: seq<FeatureWeight>)
    ensures vote == ComorbidityVote(data) && importance == ComorbidityImportance(data)
  {
    vote := 0.0;
    if data.anaemia { vote := vote + 0.25; }
    if data.diabetes { vote := vote + 0.2; }
    if data.highBloodPressure { vote := vote + 0.15; }
    if data.smoking { vote := vote + 0.2; }
    importance := [FeatureWeight(Anaemia, if data.anaemia then 0.2 else 0.05)];
    importance := importance + [FeatureWeight(Diabetes, if data.diabetes then 0.15 else 0.05)];
  }

  /** Tree 3: its vote accumulator and its importance entry. */
  method CardiacTree(data: PatientRecord) returns (vote: real, importance: seq<FeatureWeight>)
    ensures vote == CardiacVote(data) && importance == CardiacImportance(data)
  {
    vote := 0.0;
    if data.ejectionFraction < 30 { vote := vote + 0.4; }
    else if data.ejectionFraction < 40 { vote := vote + 0.25; }
    else if data.ejectionFraction < 50 { vote := vote + 0.1; }
    importance := [FeatureWeight(EjectionFraction, if data.ejectionFraction < 40 then 0.3 else 0.1)];
  }

  /** Tree 4: its vote accumulator and its importance entry. */
  method RenalTree(data: PatientRecord) returns (vote: real, importance: seq<FeatureWeight>)
    ensures vote == RenalVote(data) && importance == RenalImportance(data)
  {
    vote := 0.0;
    if data.serumCreatinine > 2.0 { vote := vote + 0.3; }
    else if data.serumCreatinine > 1.4 { vote := vote + 0.2; }
    if data.serumSodium < 135 { vote := vote + 0.15; }
    importance := [FeatureWeight(SerumCreatinine, if data.serumCreatinine > 1.4 then 0.25 else 0.1)];
  }

  /** Tree 5: its vote accumulator and its importance entry. */
  method LabTree(data: PatientRecord) returns (vote: real, importance: seq<FeatureWeight>)
    ensures vote == LabVote(data) && importance == LabImportance(data)
  {
    vote := 0.0;
    if data.creatininePhosphokinase > 1000.0 { vote := vote + 0.2; }
    else if data.creatininePhosphokinase > 500.0 { vote := vote + 0.1; }
    if data.platelets < 150000 { vote := vote + 0.15; }
    else if data.platelets < 200000 { vote := vote + 0.05; }
    importance := [FeatureWeight(CreatininePhosphokinase, if data.creatininePhosphokinase > 500.0 then 0.15 else 0.05)];
  }

  /** Tree 6: its vote accumulator and its two importance entries. */
  method FollowUpTree(data: PatientRecord) returns (vote: real, importance: seq<FeatureWeight>)
    ensures vote == FollowUpVote(data) && importance == FollowUpImportance(data)
  {
    vote := 0.0;
    if data.time < 30 { vote := vote + 0.25; }
    else if data.time < 60 { vote := vote + 0.15; }
    if data.deathEvent { vote := vote + 0.4; }
    importance := [FeatureWeight(Time, if data.time < 30 then 0.2 else 0.1)];
    importance := importance + [FeatureWeight(DeathEvent, if data.deathEvent then 0.35 else 0.05)];
  }

  /** The weighted-sum loop: each vote times its tree's weight, added in order. */
  method AccumulateWeightedSum(treeVotes: seq<real>, treeWeights: seq<real>) returns (weightedRiskScore: real)
    requires |treeVotes| == |treeWeights|
    ensures weightedRiskScore == WeightedSum(treeVotes, treeWeights)
  {
    weightedRiskScore := 0.0;
    for i := 0 to |treeVotes|
      invariant weightedRiskScore == WeightedSum(treeVotes[..i], treeWeights[..i])
    {
      WeightedSumStep(treeVotes, treeWeights, i);
      weightedRiskScore := weightedRiskScore + treeVotes[i] * treeWeights[i];
    }
    assert treeVotes[..|treeVotes|] == treeVotes && treeWeights[..|treeVotes|] == treeWeights;
  }

  /**
   * The scorer as the source runs it: six trees, each pushing its vote and
   * assigning its importance entries, a loop that accumulates the weighted
   * sum, then the variance, the clamp and the result record.
   */
  method SimulateSvcPrediction(data: PatientRecord, varianceDraw: real, confidenceDraw: real)
    returns (result: Assessment)
    requires 0.0 <= varianceDraw < 1.0 && 0.0 <= confidenceDraw < 1.0
    ensures result == Predict(data, varianceDraw, confidenceDraw)
    ensures 0 <= result.riskScore <= 100
    ensures 82 <= result.confidence <= 97
    ensures result.treeCount == 6
    ensures result.recommendations == Recommendations(result.riskCategory)
  {
    var treeVotes: seq<real> := [];
    var featureImportance: seq<FeatureWeight> := [];

    var tree1Vote, tree1Importance := AgeTree(data);
    treeVotes := treeVotes + [tree1Vote];
    featureImportance := featureImportance + tree1Importance;

    var tree2Vote, tree2Importance := ComorbidityTree(data);
    treeVotes := treeVotes + [tree2Vote];
    featureImportance := featureImportance + tree2Importance;

    var tree3Vote, tree3Importance := CardiacTree(data);
    treeVotes := treeVotes + [tree3Vote];
    featureImportance := featureImportance + tree3Importance;

    var tree4Vote, tree4Importance := RenalTree(data);
    treeVotes := treeVotes + [tree4Vote];
    featureImportance := featureImportance + tree4Importance;

    var tree5Vote, tree5Importance := LabTree(data);
    treeVotes := treeVotes + [tree5Vote];
    featureImportance := featureImportance + tree5Importance;

    var tree6Vote, tree6Importance := FollowUpTree(data);
    treeVotes := treeVotes + [tree6Vote];
    featureImportance := featureImportance + tree6Importance;

    assert treeVotes == TreeVotes(data);
    assert featureImportance == FeatureImportance(data) by {
      assert featureImportance
          == AgeImportance(data) + ComorbidityImportance(data) + CardiacImportance(data)
           + RenalImportance(data) + LabImportance(data) + FollowUpImportance(data);
    }

    var weightedRiskScore := AccumulateWeightedSum(treeVotes, TreeWeights);
    assert weightedRiskScore == EnsembleScore(data);

    var forestVariance := (varianceDraw - 0.5) * 0.1;
    weightedRiskScore := Clamp(weightedRiskScore + forestVariance);
    assert weightedRiskScore == Score(data, varianceDraw);

    var topFeatures := TopFeatures(featureImportance);
    var riskCategory := Categorize(weightedRiskScore);
    var recommendations := Recommendations(riskCategory);

    result := Assessment(
      Round(weightedRiskScore * 100.0),
      riskCategory,
      Round((0.82 + confidenceDraw * 0.15) * 100.0),
      recommendations,
      topFeatures,
      |treeVotes|);
    assert result.topFeatures == TopFeatures(FeatureImportance(data));
    assert result.riskScore == RiskScore(Score(data, varianceDraw));
    assert result.confidence == Confidence(confidenceDraw);
  }

  /** `risk_score` is a percentage; indeed it never exceeds 58. */
  lemma RiskScoreRange(d: PatientRecord, varianceDraw: real, confidenceDraw: real)
    requires 0.0 <= varianceDraw < 1.0 && 0.0 <= confidenceDraw < 1.0
    ensures 0 <= Predict(d, varianceDraw, confidenceDraw).riskScore <= 58
  {
    ScoreBelowCriticalBand(d, varianceDraw);
  }

  /** No record and no draw leads to the Critical category. */
  lemma CriticalIsUnreachable(d: PatientRecord, varianceDraw: real, confidenceDraw: real)
    requires 0.0 <= varianceDraw < 1.0 && 0.0 <= confidenceDraw < 1.0
    ensures Predict(d, varianceDraw, confidenceDraw).riskCategory != Critical
  {
    ScoreBelowCriticalBand(d, varianceDraw);
  }

  /** Each of the other three categories does occur. */
  lemma ReachableCategories()
    ensures Predict(LowestRiskRecord, 0.5, 0.0).riskCategory == Low
    ensures Predict(HighestRiskRecord, 0.0, 0.0).riskCategory == High
    ensures Predict(HighestRiskRecord.(age := 70, highBloodPressure := false), 0.0, 0.0).riskCategory == Moderate
  {
    EnsembleScoreBoundsAttained();
    EnsembleScoreExpanded(HighestRiskRecord.(age := 70, highBloodPressure := false));
  }

  /**
   * The top features: three entries, in non-increasing importance, each the
   * label of one of the ranked entries; every entry left out is no more
   * important than the third one shown.
   */
  lemma TopFeaturesRanked(d: PatientRecord)
    ensures var ranked := RankByImportance(FeatureImportance(d));
      var top := TopFeatures(FeatureImportance(d));
      |ranked| == 8 && |top| == 3
      && (forall i :: 0 <= i < 3 ==> top[i] == Shown(ranked[i]))
      && (forall i, j :: 0 <= i < j < 3 ==> top[i].importance >= top[j].importance)
      && (forall k :: 3 <= k < 8 ==> ranked[k].importance <= ranked[2].importance)
  {
    var ranked := RankByImportance(FeatureImportance(d));
    RankingPermutes(FeatureImportance(d));
    RankingIsRanked(FeatureImportance(d));
    forall i, j | 0 <= i < j < 3 ensures Round(ranked[i].importance * 100.0) >= Round(ranked[j].importance * 100.0) {
      RoundMonotone(ranked[j].importance * 100.0, ranked[i].importance * 100.0);
    }
  }

  /**
   * Every displayed importance is one of the seven percentages the
   * thresholds can produce, and no displayed label keeps an underscore.
   */
  lemma TopFeatureValues(d: PatientRecord)
    ensures var top := TopFeatures(FeatureImportance(d));
      forall i :: 0 <= i < |top| ==>
        top[i].importance in {5, 10, 15, 20, 25, 30, 35} && '_' !in top[i].feature
  {
    var entries := FeatureImportance(d);
    var ranked := RankByImportance(entries);
    RankingPermutes(entries);
    FeatureImportanceShape(d);
    forall i | 0 <= i < 3 ensures IsImportanceLevel(ranked[i].importance) {
      assert ranked[i] in multiset(entries);
      var k :| 0 <= k < |entries| && entries[k] == ranked[i];
    }
  }

  /**
   * The form's initial record with a neutral variance draw: votes 0.1, 0,
   * 0.25, 0.2, 0.1 and 0.25 give a score of 0.1545, so 15 and Low, and the
   * ejection-fraction entry, at 0.3, is the first feature shown, as 30.
   */
  lemma InitialFormAssessment()
    ensures Score(InitialForm, 0.5) == 0.1545
    ensures Predict(InitialForm, 0.5, 0.5).riskScore == 15
    ensures Predict(InitialForm, 0.5, 0.5).riskCategory == Low
    ensures RankByImportance(FeatureImportance(InitialForm))[0] == FeatureWeight(EjectionFraction, 0.3)
    ensures Predict(InitialForm, 0.5, 0.5).topFeatures[0].importance == 30
  {
    EnsembleScoreExpanded(InitialForm);
    var score := Score(InitialForm, 0.5);
    assert score == 0.1545;
    assert RiskScore(score) == 15;
    InitialFormLeader();
  }

  /** For the initial record, ejection fraction outranks every other entry. */
  lemma InitialFormLeader()
    ensures RankByImportance(FeatureImportance(InitialForm))[0] == FeatureWeight(EjectionFraction, 0.3)
    ensures TopFeatures(FeatureImportance(InitialForm))[0].importance == 30
  {
    var entries := FeatureImportance(InitialForm);
    var ef := FeatureWeight(EjectionFraction, 0.3);
    assert entries == [FeatureWeight(Age, 0.15), FeatureWeight(Anaemia, 0.05), FeatureWeight(Diabetes, 0.05),
                       ef, FeatureWeight(SerumCreatinine, 0.25), FeatureWeight(CreatininePhosphokinase, 0.15),
                       FeatureWeight(Time, 0.2), FeatureWeight(DeathEvent, 0.05)];
    RankingLeader(entries, ef);
    assert TopThree(RankByImportance(entries))[0] == ef;
  }

  /**
   * A recorded death event with a four-day follow-up and every other field
   * at its lowest risk: only tree 6 votes (0.65, weighted 0.065), and the
   * death-event entry, at 0.35, is the first feature shown, as 35.
   */
  lemma DeathEventLeadsTopFeatures()
    ensures var d := LowestRiskRecord.(deathEvent := true, time := 4);
      EnsembleScore(d) == 0.065
      && RankByImportance(FeatureImportance(d))[0] == FeatureWeight(DeathEvent, 0.35)
      && TopFeatures(FeatureImportance(d))[0].importance == 35
  {
    var d := LowestRiskRecord.(deathEvent := true, time := 4);
    EnsembleScoreExpanded(d);
    var entries := FeatureImportance(d);
    var ranked := RankByImportance(entries);
    var death := FeatureWeight(DeathEvent, 0.35);
    assert entries == [FeatureWeight(Age, 0.15), FeatureWeight(Anaemia, 0.05), FeatureWeight(Diabetes, 0.05),
                       FeatureWeight(EjectionFraction, 0.1), FeatureWeight(SerumCreatinine, 0.1),
                       FeatureWeight(CreatininePhosphokinase, 0.05), FeatureWeight(Time, 0.2), death];
    RankingLeader(entries, death);
    assert TopThree(ranked)[0] == death;
  }
}
