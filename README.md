# Heart-failure risk scorer, modelled in Dafny

The application is a single-page form that collects thirteen clinical fields
of one heart-failure patient. It computes a risk assessment in the browser
with a hand-written heuristic that it calls a "random forest". There are six
threshold rules ("trees"), and each one casts a vote. The votes are combined
with fixed weights, and a small random variance is added. The result is
clamped to [0, 1] and mapped to one of four risk categories. Each category
comes with a fixed list of recommendations. The assessment also lists the
three most important features: eight per-feature importance entries are
sorted in descending order by a stable sort, and their snake_case keys are
turned into Title Case labels. A confidence percentage is drawn independently.

This project models two parts of the application:
- the scoring function `simulateSVCPrediction`;
- the single-field form updater `handleInputChange`.

The modules:
- `Patient` (patient.dfy) holds the patient record, its field keys, the
  initial form state and the updater, with lemmas about overwriting and
  commuting updates.
- `Labels` (labels.dfy) holds the two regular-expression passes that turn a
  key into a label.
- `Ranking` (ranking.dfy) holds the stable descending sort and the first-three
  slice. It proves that the sort returns a permutation, that its output is
  ranked, that it is stable, and that it is the only ranked and stable order.
- `Scoring` (scoring.dfy) holds:
  - the six votes, the weights and the weighted sum;
  - the variance, the clamp and `Math.round`;
  - the category bands and the recommendation tables;
  - the importance entries.
- `Prediction` (prediction.dfy) holds:
  - `Predict`, the specification of one evaluation;
  - `SimulateSvcPrediction`, the step-by-step scorer, proved equal to `Predict`;
  - lemmas about the reachable scores and categories and about the top features.

The model computes with exact rationals (`real`). The two `Math.random()`
calls become the parameters `varianceDraw` and `confidenceDraw`, each in
[0, 1).

One result is worth stating here. The noise-free weighted score never exceeds
0.531, and the variance adds less than 0.05. The clamped score therefore stays
below 0.581, so the `Critical` branch (a score of at least 0.70) can never be
taken, and the risk score never exceeds 58.

Three facts about the code follow from the model:
- `top_features` always has exactly three entries, because the importance
  object always has eight keys.
- The Critical band (a score of at least 0.70) is modelled but never reached.
- The variance `(r - 0.5) * 0.1` lies in [-0.05, 0.05), because
  `Math.random()` never returns 1.

## Model

| member | source | states |
|---|---|---|
| Patient.HandleInputChange | src/App.jsx:25-30 | the updated record holds the new value in the named field |
| Patient.OtherFieldsUnchanged | src/App.jsx:25-30 | every other field of the updated record keeps its previous value |
| Patient.UnchangedValueIsNoOp | src/App.jsx:25-30 | writing back a field's current value gives the same record |
| Patient.LaterChangeWins | src/App.jsx:25-30 | a second change to the same field overrides the first |
| Patient.ChangesCommute | src/App.jsx:25-30 | changes to two different fields give the same record in either order |
| Patient.FieldsDetermineRecord | src/App.jsx:5-19 | a record is determined by the values of its thirteen fields |
| Patient.Get | src/App.jsx:5-19 | every field reads a value of that field's kind (integer, decimal or checkbox) |
| Scoring.AgeVote | src/App.jsx:38-43 | tree 1's vote lies in [0, 0.6] |
| Scoring.ComorbidityVote | src/App.jsx:46-52 | tree 2's vote lies in [0, 0.8] |
| Scoring.CardiacVote | src/App.jsx:56-61 | tree 3's vote lies in [0, 0.4] |
| Scoring.RenalVote | src/App.jsx:64-69 | tree 4's vote lies in [0, 0.45] |
| Scoring.LabVote | src/App.jsx:72-78 | tree 5's vote lies in [0, 0.35] |
| Scoring.FollowUpVote | src/App.jsx:81-86 | tree 6's vote lies in [0, 0.65] |
| Scoring.TreeVotes | src/App.jsx:35-86 | six votes are pushed, which is `tree_count` |
| Scoring.WeightedSumOfSix | src/App.jsx:91-96 | the accumulated weighted sum of six votes is the sum of the six vote-weight products |
| Scoring.WeightedSumStep | src/App.jsx:94-96 | one loop iteration adds the next vote times its weight |
| Scoring.WeightsSumToOne | src/App.jsx:91 | the six tree weights add up to exactly 1 |
| Scoring.WeightedSum | src/App.jsx:91-96 | the sum of each vote times its tree's weight, accumulated from the first pair to the last; see `WeightedSumStep` and `WeightedSumOfSix` |
| Scoring.EnsembleScore | src/App.jsx:91-96 | the noise-free weighted score of a record; see `EnsembleScoreExpanded` and `EnsembleScoreBounds` |
| Scoring.EnsembleScoreExpanded | src/App.jsx:38-96 | the noise-free score is 0.15, 0.18, 0.25, 0.20, 0.12 and 0.10 times the six votes |
| Scoring.EnsembleScoreBounds | src/App.jsx:38-96 | every record's noise-free score lies in [0, 0.531] |
| Scoring.EnsembleScoreBoundsAttained | src/App.jsx:38-96 | a record that meets every rule scores exactly 0.531, and one that meets none scores 0 |
| Scoring.Variance | src/App.jsx:99 | the forest variance lies in [-0.05, 0.05) |
| Scoring.Clamp | src/App.jsx:100 | the clamped value lies in [0, 1], equals its input inside that range, and is 0 below it and 1 above it |
| Scoring.Score | src/App.jsx:99-100 | the final score lies in [0, 1] |
| Scoring.ScoreBelowCriticalBand | src/App.jsx:38-100 | the final score is below 0.581 for every record and draw |
| Scoring.Round | src/App.jsx:113 | `Math.round` gives the integer n with x - 0.5 < n <= x + 0.5 |
| Scoring.RoundMonotone | src/App.jsx:113 | rounding preserves order |
| Scoring.RiskScore | src/App.jsx:154 | `risk_score` lies in [0, 100] |
| Scoring.Confidence | src/App.jsx:156 | `confidence` lies in [82, 97] |
| Scoring.CategoryBands | src/App.jsx:116-151 | Low iff score < 0.25, Moderate iff 0.25 <= score < 0.45, High iff 0.45 <= score < 0.70, Critical iff 0.70 <= score |
| Scoring.Categorize | src/App.jsx:116-142 | the category of the clamped score's band; see `CategoryBands` and `CategorizeMonotone` |
| Scoring.CategorizeMonotone | src/App.jsx:116-151 | a higher score never gives a less severe category |
| Scoring.Recommendations | src/App.jsx:118-150 | Low has four recommendations and every other category has five |
| Scoring.AgeImportance | src/App.jsx:44 | the age entry: 0.25 over 65, else 0.15; see `FeatureImportanceShape` |
| Scoring.ComorbidityImportance | src/App.jsx:53-54 | the anaemia entry (0.2 or 0.05), then the diabetes entry (0.15 or 0.05); see `FeatureImportanceShape` |
| Scoring.CardiacImportance | src/App.jsx:62 | the ejection-fraction entry: 0.3 under 40, else 0.1; see `FeatureImportanceShape` |
| Scoring.RenalImportance | src/App.jsx:70 | the serum-creatinine entry: 0.25 over 1.4, else 0.1; see `FeatureImportanceShape` |
| Scoring.LabImportance | src/App.jsx:79 | the creatinine-phosphokinase entry: 0.15 over 500, else 0.05; see `FeatureImportanceShape` |
| Scoring.FollowUpImportance | src/App.jsx:87-88 | the time entry (0.2 under 30, else 0.1), then the death-event entry (0.35 or 0.05); see `FeatureImportanceShape` |
| Scoring.FeatureImportance | src/App.jsx:44-88 | every record yields eight importance entries |
| Scoring.FeatureImportanceShape | src/App.jsx:44-88 | the eight keys always come in assignment order, each with one of the levels 0.05 to 0.35 |
| Ranking.InsertAfterPrefix | src/App.jsx:107-108 | an inserted entry goes after every entry that strictly outranks it and before the first that does not, so it precedes entries of equal importance |
| Ranking.Insert | src/App.jsx:107-108 | one insertion step of the stable descending sort; see `InsertAfterPrefix`, `InsertPermutes` and `InsertKeepsRanked` |
| Ranking.RankByImportance | src/App.jsx:107-108 | the entries sorted by descending importance, ties in input order; see `RankingPermutes`, `RankingIsRanked`, `RankingIsStable` and `RankingIsUnique` |
| Ranking.InsertPermutes | src/App.jsx:107-108 | inserting one entry adds exactly that entry |
| Ranking.InsertKeepsRanked | src/App.jsx:107-108 | inserting into a ranked sequence keeps it ranked |
| Ranking.RankingPermutes | src/App.jsx:107-108 | the sorted entries are a permutation of the input |
| Ranking.RankingIsRanked | src/App.jsx:107-108 | the sorted entries have non-increasing importance (comparator `b - a`) |
| Ranking.RankingIsStable | src/App.jsx:107-108 | entries of equal importance keep their insertion order |
| Ranking.RankedIsDetermined | src/App.jsx:107-108 | two ranked sequences with the same entries per importance, in the same order, are equal |
| Ranking.RankingIsUnique | src/App.jsx:107-108 | every ranked, stable reordering of the input equals the ranking, so any stable descending sort gives the same result |
| Ranking.RankingLeader | src/App.jsx:107-108 | an entry that outranks every other entry comes first after sorting |
| Ranking.TopThree | src/App.jsx:109 | the slice is a prefix of at most three entries, three whenever there are at least three |
| Labels.ToUpper | src/App.jsx:112 | lower-case ASCII letters move to upper case and every other character is kept |
| Labels.SpaceUnderscores | src/App.jsx:112 | the first pass keeps the length and replaces exactly the underscores with spaces |
| Labels.CapitalizeAfter | src/App.jsx:112 | the second pass keeps the length and changes characters only by upper-casing them |
| Labels.CapitalizeWords | src/App.jsx:112 | the second pass over a whole label; see `CapitalizeWordsAt` |
| Labels.CapitalizeWordsAt | src/App.jsx:112 | the second pass upper-cases exactly the word characters that start a word (`\b\w`) |
| Labels.FormatLabel | src/App.jsx:112 | a label is as long as its key, has no underscore, and has a space exactly where the key has an underscore or a space |
| Labels.FormatLabelAt | src/App.jsx:112 | character by character, an underscore becomes a space, a word start is upper-cased and every other character is kept |
| Labels.FormatOneWord | src/App.jsx:112 | a one-word key is shown with its first letter upper-cased |
| Labels.FormatTwoWords | src/App.jsx:112 | a key `w1_w2` is shown as `W1 W2` |
| Prediction.AgeTree | src/App.jsx:38-44 | tree 1's accumulated vote and its importance entry equal the specification |
| Prediction.ComorbidityTree | src/App.jsx:46-54 | tree 2's accumulated vote and its two importance entries equal the specification |
| Prediction.CardiacTree | src/App.jsx:56-62 | tree 3's accumulated vote and its importance entry equal the specification |
| Prediction.RenalTree | src/App.jsx:64-70 | tree 4's accumulated vote and its importance entry equal the specification |
| Prediction.LabTree | src/App.jsx:72-79 | tree 5's accumulated vote and its importance entry equal the specification |
| Prediction.FollowUpTree | src/App.jsx:81-88 | tree 6's accumulated vote and its two importance entries equal the specification |
| Prediction.Predict | src/App.jsx:32-161 | the assessment of one evaluation; see `SimulateSvcPrediction`, `RiskScoreRange`, `CriticalIsUnreachable` and `ReachableCategories` |
| Prediction.Shown | src/App.jsx:111-114 | one displayed feature: the key's label and `Math.round(importance * 100)`; see `TopFeatureValues` |
| Prediction.TopFeatures | src/App.jsx:107-114 | the first three ranked entries, labelled and rounded; see `TopFeaturesRanked` and `TopFeatureValues` |
| Prediction.AccumulateWeightedSum | src/App.jsx:92-96 | the loop's accumulated total is the weighted sum of the votes |
| Prediction.SimulateSvcPrediction | src/App.jsx:32-161 | the step-by-step scorer returns exactly `Predict`, with risk score in [0, 100], confidence in [82, 97], six trees and the category's own recommendations |
| Prediction.RiskScoreRange | src/App.jsx:99-100 | the risk score never exceeds 58 |
| Prediction.CriticalIsUnreachable | src/App.jsx:142-151 | no record and no draw reaches the Critical category |
| Prediction.ReachableCategories | src/App.jsx:116-141 | Low, Moderate and High each occur for some record and draw |
| Prediction.TopFeaturesRanked | src/App.jsx:107-114 | three features are shown, taken from the first three ranked entries, with non-increasing displayed importance, and no entry left out outranks the third one shown |
| Prediction.TopFeatureValues | src/App.jsx:111-114 | every displayed importance is one of 5, 10, 15, 20, 25, 30 and 35, and no label contains an underscore |
| Prediction.InitialFormAssessment | src/App.jsx:5-19 | the initial form with a neutral draw scores 0.1545, so risk score 15 and Low, and shows ejection fraction first, as 30 |
| Prediction.InitialFormLeader | src/App.jsx:44-113 | for the initial form, the ejection-fraction entry (0.3) outranks every other entry and is shown as 30 |
| Prediction.DeathEventLeadsTopFeatures | src/App.jsx:81-114 | with a death event, a four-day follow-up and every other field at its lowest risk, the noise-free score is 0.065 and the death-event entry is shown first, as 35 |

## Left out

- The page itself is not modelled. That covers the JSX rendering, the colour
  helper for categories, the React state hooks, the submit handler and its
  2-second delay, and the loading and result flags. None of them compute
  anything about the assessment.
- `Math.random()` is not modelled. Its two draws are parameters in [0, 1).
  They are taken in the source's order: the variance first, then the
  confidence.
- IEEE-754 doubles are not modelled; the model uses exact rationals. Float
  rounding can move a result that lies exactly on a threshold, for example a
  score of exactly 0.25 or a percentage that ends in .5. The model treats
  such values exactly.
- Form-input parsing is not modelled. The model does not cover
  `parseInt`/`parseFloat`, empty fields that become `NaN`, or the browser's
  min/max limits. Every field holds a number or a checkbox state.
- Patient.HandleInputChange: requires that the value has the kind of the
  named field. The JavaScript object would store any value under any key,
  but every form control passes a value of its field's kind. Keys are the
  `Field` enumeration, so a key outside the thirteen fields cannot be
  written. `FieldName` gives each field's property name.
- Labels.ToUpper: only ASCII letters are mapped. Every key is lower-case
  ASCII, so `toUpperCase` on other characters never occurs.
- The labels of the concrete keys are not evaluated one by one. They follow
  from `FormatOneWord` and `FormatTwoWords`: every key is one or two
  lower-case words joined by an underscore.
- The Critical recommendation list is part of the model, but no input
  reaches it; `Prediction.CriticalIsUnreachable` proves this.
