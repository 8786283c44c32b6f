# HCH Risk Stratification hospitalisation-probability model in Dafny

This project models the core of the HCH Risk Stratification "PRM" engine.
The engine scores a patient record and returns the probability of a
hospitalisation.

The patient record holds:
- age and sex;
- five categorical demographic fields: ethnicity, BMI category, smoking status, alcohol status and IRSAD decile;
- a set of medication groups and a set of diseases;
- thirteen pathology results, each LOW, MED, HIGH or NO_TEST_HISTORY.

The calculator builds a linear predictor from:
- an intercept;
- a cubic in age;
- one coefficient per categorical value;
- one coefficient per medication group;
- a cubic in the number of diseases;
- one coefficient per disease group present, where the groups come from a fixed disease → group table;
- for female patients only, one interaction coefficient for each of nine disease groups.

The score is exp(lp) / (1 + exp(lp)), rounded half up to eight decimal places.

Modules:
- `PrmData` (`prm_data.dfy`): the enumerations, the 33-entry disease → group table, the record, its defaults, and its getters and setters.
  - The setters are modelled as one `Set(r, v)` over a tagged `Value`.
  - The getters are modelled as one `Get(r, f)` over a `Field` name.
- `Coefficients` (`coefficients.dfy`): every coefficient of the model, as exact decimals.
  - Each lookup states which variant is its reference, the one that contributes zero.
  - The pathology table records which tests merge MED with HIGH, and that platelets has no MED coefficient.
- `Sums` (`sums.dfy`): sums over a finite set, defined along a canonical listing of the enumeration. They are proved independent of the order in which a loop visits the set.
- `ScoreCalculator` (`score_calculator.dfy`):
  - `LinearPredictor`, the closed form of the predictor;
  - `ExtractDiseaseGroups`;
  - `CalculateLinearPredictor`, which follows the calculator's accumulation step by step and is proved to compute the closed form.
- `PredictorProperties` (`predictor_properties.dfy`): structural properties of the predictor:
  - the reference record scores the intercept;
  - each categorical field shifts the predictor by its own coefficient only;
  - merged pathology categories;
  - the age cubic;
  - per-member set contributions;
  - female-only interactions;
  - the default record's exact predictor.
- `Rounding` (`rounding.dfy`): rounding half up to eight decimal places, characterised as "the nearest grid point, ties away from zero".
- `PrmScore` (`prm_score.dfy`): the probability of an exponent, its bounds and monotonicity, its saturation thresholds, and the scoring step with the exponential taken as a parameter.
- `Scenario` (`scenario.dfy`): a worked example. Its input is the example data file in the Javadoc of `PRM.java` (lines 48-113). The patient is a 44-year-old woman with every medication group and every disease, at decile TEN, with cholesterol MED, LDL HIGH and albumin-creatinine ratio untested. Her linear predictor is exactly 36.188348860924, and her probability rounds to exactly 1.00000000.

All calculator arithmetic is exact decimal arithmetic (add, multiply, pow), so it is modelled with `real`.

Three consequences of the code that a reader might not expect:
- The Disease enumeration has 33 values, including RHEUMATIC_HEART.
- BMI_7_TO_25 is the BMI reference variant: its coefficient is zero.
- Rounding can give exactly 0 or exactly 1. Rounding to eight places gives exactly 1.00000000 once exp(lp) reaches 199999999, i.e. for a predictor of about 19.1 or more. The worked example above is such a case. It gives exactly 0.00000000 once exp(lp) falls below 1/199999999.

## Model

Paths are relative to the repository root.

| member | source | states |
|---|---|---|
| PrmData.NewRecord | src/main/java/com/filA3/prm/HCHRiskStratificationPRMData.java:214-252 | A new record has age 0, is not female, has UNKNOWN/NOT_RECORDED demographics, empty medication and disease sets, and every pathology result NO_TEST_HISTORY |
| PrmData.CopyOf | src/main/java/com/filA3/prm/HCHRiskStratificationPRMData.java:444-451 | The set setters store the shared empty set or a fresh copy; either way the stored set has exactly the argument's elements |
| PrmData.Get | src/main/java/com/filA3/prm/HCHRiskStratificationPRMData.java:259-805 | Each getter answers with a value of the field it names; `Set` states that this value is the one last stored |
| PrmData.SetPathology | src/main/java/com/filA3/prm/HCHRiskStratificationPRMData.java:485-805 | A pathology setter stores its category in its own test and leaves the other twelve tests and every non-pathology field unchanged |
| PrmData.Set | src/main/java/com/filA3/prm/HCHRiskStratificationPRMData.java:259-805 | Get after set returns the value just set, and every other field reads as before |
| PrmData.GettersDetermineRecord | src/main/java/com/filA3/prm/HCHRiskStratificationPRMData.java:214-252 | Two records whose getters all agree are equal: the record holds no state the getters do not expose |
| PrmData.SetCurrentValueIsIdentity | src/main/java/com/filA3/prm/HCHRiskStratificationPRMData.java:259-805 | Setting a field to its current value leaves the record unchanged |
| PrmData.SetOverridesSameField | src/main/java/com/filA3/prm/HCHRiskStratificationPRMData.java:259-805 | A second setter call on the same field overrides the first |
| PrmData.SetDifferentFieldsCommute | src/main/java/com/filA3/prm/HCHRiskStratificationPRMData.java:259-805 | Setter calls on different fields commute |
| PrmData.SetStoresEqualSet | src/main/java/com/filA3/prm/HCHRiskStratificationPRMData.java:444-477 | setMedicationGroups and setDiseases store a set equal to the argument, so an empty argument gives an empty set |
| PrmData.Representative | src/main/java/com/filA3/prm/HCHRiskStratificationPRMData.java:138-195 | For every disease group, a disease that the table maps to it |
| PrmData.GroupTableIsOnto | src/main/java/com/filA3/prm/HCHRiskStratificationPRMData.java:115-195 | Every one of the 16 disease groups is the group of some disease |
| PrmData.GroupTableExamples | src/main/java/com/filA3/prm/HCHRiskStratificationPRMData.java:138-195 | RESPIRATORY is exactly {ASTHMA, COPD}; OTHER is exactly {EPILEPSY}; CARDIOVASCULAR is exactly the five heart and stroke diseases; MENTAL_HEALTH is exactly the five mental-health diseases |
| PrmData.EnumerationsComplete | src/main/java/com/filA3/prm/HCHRiskStratificationPRMData.java:102-190 | The canonical listings hold every medication group, disease group and disease |
| PrmData.DiseaseAt | src/main/java/com/filA3/prm/HCHRiskStratificationPRMData.java:138-190 | The disease at each of the 33 declaration positions, the inverse of the enum's ordinal |
| PrmData.OrdinalRoundTrip | src/main/java/com/filA3/prm/HCHRiskStratificationPRMData.java:138-190 | Every disease's ordinal is below 33, and the disease at that position is the disease itself |
| PrmData.BelowStep | src/main/java/com/filA3/prm/HCHRiskStratificationPRMData.java:138-190 | The diseases before position n + 1 are those before n plus exactly one new disease |
| PrmData.CountBelow | src/main/java/com/filA3/prm/HCHRiskStratificationPRMData.java:138-190 | Exactly n diseases stand before position n |
| PrmData.AllDiseasesCount | src/main/java/com/filA3/prm/HCHRiskStratificationPRMData.java:138-190 | The Disease enumeration has exactly 33 values: a set holding every disease has 33 members |
| Coefficients.EthnicityCoefficient | src/main/java/com/filA3/prm/HCHRiskStratificationPRMScoreCalculator.java:319-330 | The ethnicity coefficient is zero exactly for NON_ATSI, the reference variant |
| Coefficients.BmiCoefficient | src/main/java/com/filA3/prm/HCHRiskStratificationPRMScoreCalculator.java:332-354 | The BMI coefficient is zero exactly for BMI_7_TO_25 |
| Coefficients.SmokingCoefficient | src/main/java/com/filA3/prm/HCHRiskStratificationPRMScoreCalculator.java:356-371 | The smoking coefficient is zero exactly for NON_SMOKER |
| Coefficients.AlcoholCoefficient | src/main/java/com/filA3/prm/HCHRiskStratificationPRMScoreCalculator.java:373-384 | The alcohol coefficient is zero exactly for NON_DRINKER |
| Coefficients.DecileCoefficient | src/main/java/com/filA3/prm/HCHRiskStratificationPRMScoreCalculator.java:386-429 | The IRSAD decile coefficient is zero exactly for FIVE |
| Coefficients.MedicationCoefficient | src/main/java/com/filA3/prm/HCHRiskStratificationPRMScoreCalculator.java:431-460 | Every medication group has a nonzero coefficient |
| Coefficients.GroupCoefficient | src/main/java/com/filA3/prm/HCHRiskStratificationPRMScoreCalculator.java:472-541 | Every disease group has a nonzero coefficient |
| Coefficients.InteractionCoefficient | src/main/java/com/filA3/prm/HCHRiskStratificationPRMScoreCalculator.java:752-808 | The interaction coefficient is nonzero exactly for the nine interaction groups |
| Coefficients.PathologyCoefficient | src/main/java/com/filA3/prm/HCHRiskStratificationPRMScoreCalculator.java:543-750 | A pathology result adds zero exactly when it is LOW, or when it is MED for platelets |
| Coefficients.MergedCategories | src/main/java/com/filA3/prm/HCHRiskStratificationPRMScoreCalculator.java:560-682 | MED and HIGH share a coefficient if and only if the test is bilirubin, creatinine or triglycerides; for platelets MED scores as LOW |
| ScoreCalculator.CubicTerms | src/main/java/com/filA3/prm/HCHRiskStratificationPRMScoreCalculator.java:307-312 | The age contribution is AGE·a + AGE_SQ·a² + AGE_CU·a³, and the disease-count contribution is the same cubic shape in the count |
| ScoreCalculator.GroupImageNoLarger | src/main/java/com/filA3/prm/HCHRiskStratificationPRMScoreCalculator.java:819-823 | Mapping diseases to their groups never yields more groups than diseases |
| ScoreCalculator.ExtractDiseaseGroups | src/main/java/com/filA3/prm/HCHRiskStratificationPRMScoreCalculator.java:819-823 | A group is in the result if and only if some given disease maps to it, and there are no more groups than diseases |
| ScoreCalculator.ExtractDistributes | src/main/java/com/filA3/prm/HCHRiskStratificationPRMScoreCalculator.java:819-823 | Extracting the groups of a union is the union of the extractions |
| ScoreCalculator.ExtractInsert | src/main/java/com/filA3/prm/HCHRiskStratificationPRMScoreCalculator.java:819-823 | Adding one disease adds exactly its group |
| ScoreCalculator.AddEachMember | src/main/java/com/filA3/prm/HCHRiskStratificationPRMScoreCalculator.java:431-460 | A for-each loop over a set, in any visiting order, adds each member's coefficient once |
| ScoreCalculator.AddInteractions | src/main/java/com/filA3/prm/HCHRiskStratificationPRMScoreCalculator.java:752-808 | The nine membership tests, in the calculator's order, add the interaction sum for a female patient and nothing otherwise |
| ScoreCalculator.CalculateLinearPredictor | src/main/java/com/filA3/prm/HCHRiskStratificationPRMScoreCalculator.java:302-810 | The calculator's step-by-step accumulation computes exactly the closed-form linear predictor |
| PredictorProperties.EmptyDiseaseTerm | src/main/java/com/filA3/prm/HCHRiskStratificationPRMScoreCalculator.java:462-541 | With no diseases, the disease-count, group and interaction terms add nothing |
| PredictorProperties.EmptyRecordPredictor | src/main/java/com/filA3/prm/HCHRiskStratificationPRMScoreCalculator.java:302-810 | At age 0 with no medications and no diseases, the predictor is the intercept plus the demographic and pathology lookups |
| PredictorProperties.ReferenceRecordScoresIntercept | src/main/java/com/filA3/prm/HCHRiskStratificationPRMScoreCalculator.java:305-809 | Age 0, empty sets, every field at its reference variant and every pathology LOW: the predictor is exactly INTERCEPT, plus the sex coefficient if female |
| PredictorProperties.UntestedPathologyTerm | src/main/java/com/filA3/prm/HCHRiskStratificationPRMScoreCalculator.java:543-750 | With every test NO_TEST_HISTORY, the pathology lookups add 0.19345737 |
| PredictorProperties.NewRecordPredictor | src/main/java/com/filA3/prm/HCHRiskStratificationPRMData.java:214-252 | A default record has linear predictor -2.54938769 exactly |
| PredictorProperties.ReferenceValue | src/main/java/com/filA3/prm/HCHRiskStratificationPRMScoreCalculator.java:319-429 | Every categorical field has a reference variant, and its coefficient is zero |
| PredictorProperties.LookupsOnlyDiffer | src/main/java/com/filA3/prm/HCHRiskStratificationPRMScoreCalculator.java:319-429 | Records that agree on age, sex, medications and diseases differ in predictor only by their lookups |
| PredictorProperties.PathologyShift | src/main/java/com/filA3/prm/HCHRiskStratificationPRMScoreCalculator.java:543-750 | Moving one pathology result from LOW to c adds exactly c's coefficient for that test |
| PredictorProperties.CategoricalShift | src/main/java/com/filA3/prm/HCHRiskStratificationPRMScoreCalculator.java:319-750 | Moving any one categorical field from its reference variant to v shifts the predictor by exactly v's coefficient, whatever the rest of the record |
| PredictorProperties.MergedCategoriesInPredictor | src/main/java/com/filA3/prm/HCHRiskStratificationPRMScoreCalculator.java:625-682 | In the whole predictor, MED and HIGH score the same if and only if the test is bilirubin, creatinine or triglycerides |
| PredictorProperties.PlateletsMedInPredictor | src/main/java/com/filA3/prm/HCHRiskStratificationPRMScoreCalculator.java:560-572 | In the whole predictor, a platelets MED result scores the same as LOW |
| PredictorProperties.AgeOnlyDiffers | src/main/java/com/filA3/prm/HCHRiskStratificationPRMScoreCalculator.java:306-312 | Records that differ only in age differ in predictor only by the age terms |
| PredictorProperties.AgeContribution | src/main/java/com/filA3/prm/HCHRiskStratificationPRMScoreCalculator.java:306-312 | Setting age a adds exactly AGE·a + AGE_SQ·a² + AGE_CU·a³ to the age-0 predictor |
| PredictorProperties.MedicationsOnlyDiffer | src/main/java/com/filA3/prm/HCHRiskStratificationPRMScoreCalculator.java:431-460 | Records that differ only in medications differ in predictor only by the medication sums |
| PredictorProperties.MedicationTermInsert | src/main/java/com/filA3/prm/HCHRiskStratificationPRMScoreCalculator.java:431-460 | Adding a medication group adds its coefficient once; adding one already present adds nothing |
| PredictorProperties.MedicationAdded | src/main/java/com/filA3/prm/HCHRiskStratificationPRMScoreCalculator.java:431-460 | The same for a whole record's predictor |
| PredictorProperties.InteractionOrderDistinct | src/main/java/com/filA3/prm/HCHRiskStratificationPRMScoreCalculator.java:752-808 | The calculator tests each of the nine interaction groups exactly once |
| PredictorProperties.DiseasesOnlyDiffer | src/main/java/com/filA3/prm/HCHRiskStratificationPRMScoreCalculator.java:462-541 | Records that differ only in diseases differ in predictor only by the disease terms |
| PredictorProperties.InteractionInsert | src/main/java/com/filA3/prm/HCHRiskStratificationPRMScoreCalculator.java:752-808 | A new group adds its interaction coefficient if it is one of the nine, and nothing otherwise |
| PredictorProperties.GroupTermInsert | src/main/java/com/filA3/prm/HCHRiskStratificationPRMScoreCalculator.java:470-541 | A new group adds its group coefficient once |
| PredictorProperties.DiseaseTermInsert | src/main/java/com/filA3/prm/HCHRiskStratificationPRMScoreCalculator.java:462-541 | A new disease moves the count cubic; it adds a group coefficient, plus the interaction coefficient for a female patient, only when its group was absent |
| PredictorProperties.DiseaseAdded | src/main/java/com/filA3/prm/HCHRiskStratificationPRMScoreCalculator.java:462-808 | The same for a whole record's predictor: a disease whose group is already present changes only the count cubic |
| PredictorProperties.FemaleInteractions | src/main/java/com/filA3/prm/HCHRiskStratificationPRMScoreCalculator.java:752-808 | Switching a patient to female adds the sex coefficient plus the interaction coefficient of every interaction group present |
| PredictorProperties.SetSumsIgnoreIterationOrder | src/main/java/com/filA3/prm/HCHRiskStratificationPRMScoreCalculator.java:431-541 | Summing medication or group coefficients in any order without repeats gives the set sum |
| Sums.SumOverInsert | src/main/java/com/filA3/prm/HCHRiskStratificationPRMScoreCalculator.java:431-460 | Adding a new member to a set adds its value to the set sum once |
| Sums.IterationOrderIrrelevant | src/main/java/com/filA3/prm/HCHRiskStratificationPRMScoreCalculator.java:431-541 | A sum along any repeat-free listing of the set equals the set sum |
| Sums.SumOverRemove | src/main/java/com/filA3/prm/HCHRiskStratificationPRMScoreCalculator.java:431-460 | Removing a member takes its value away from the set sum again |
| Sums.SumOverEmpty | src/main/java/com/filA3/prm/HCHRiskStratificationPRMScoreCalculator.java:431-460 | An empty set sums to zero |
| Sums.SumOverFull | src/main/java/com/filA3/prm/HCHRiskStratificationPRMScoreCalculator.java:431-541 | A set holding every value of the enumeration sums every value once |
| Rounding.ScaleIsPow10 | src/main/java/com/filA3/prm/HCHRiskStratificationPRMScoreCalculator.java:40 | The rounding unit is 10^-PRECISION with PRECISION = 8 |
| Rounding.RoundHalfUpSpec | src/main/java/com/filA3/prm/HCHRiskStratificationPRMScoreCalculator.java:288-290 | The rounded value has eight decimal places, lies within half a unit of x, keeps x's sign, and breaks an exact tie away from zero |
| Rounding.RoundHalfUpNearest | src/main/java/com/filA3/prm/HCHRiskStratificationPRMScoreCalculator.java:288-290 | No eight-place decimal is closer to x than the rounded value |
| Rounding.RoundHalfUpMonotone | src/main/java/com/filA3/prm/HCHRiskStratificationPRMScoreCalculator.java:288-290 | Rounding preserves order |
| Rounding.RoundHalfUpOnGrid | src/main/java/com/filA3/prm/HCHRiskStratificationPRMScoreCalculator.java:288-290 | A value that already has eight decimal places is unchanged |
| PrmScore.Logistic | src/main/java/com/filA3/prm/HCHRiskStratificationPRMScoreCalculator.java:288-289 | For e ≥ 0 the exact quotient q satisfies q·(1 + e) = e and 0 ≤ q < 1 |
| PrmScore.Probability | src/main/java/com/filA3/prm/HCHRiskStratificationPRMScoreCalculator.java:286-291 | For e ≥ 0 the rounded quotient lies in [0, 1], has eight decimal places, and is within 5·10⁻⁹ of e/(1 + e) |
| PrmScore.LogisticMonotone | src/main/java/com/filA3/prm/HCHRiskStratificationPRMScoreCalculator.java:288-289 | The exact quotient grows with the exponent |
| PrmScore.ProbabilityMonotone | src/main/java/com/filA3/prm/HCHRiskStratificationPRMScoreCalculator.java:286-291 | A larger exponent never gives a smaller probability |
| PrmScore.ProbabilitySaturates | src/main/java/com/filA3/prm/HCHRiskStratificationPRMScoreCalculator.java:286-291 | The probability is exactly 1 if and only if the exponent is at least 199999999 |
| PrmScore.ProbabilityVanishes | src/main/java/com/filA3/prm/HCHRiskStratificationPRMScoreCalculator.java:286-291 | The probability is exactly 0 if and only if the exponent is below 1/199999999 |
| PrmScore.Score | src/main/java/com/filA3/prm/HCHRiskStratificationPRMScoreCalculator.java:282-292 | A record's score lies in [0, 1], and it is 1 exactly when the exponential of its predictor reaches the saturation threshold |
| PrmScore.CalculatePrmScore | src/main/java/com/filA3/prm/HCHRiskStratificationPRMScoreCalculator.java:282-292 | The scoring step computes the score of the record's closed-form predictor, a value in [0, 1] |
| PrmScore.ScoreFollowsPredictor | src/main/java/com/filA3/prm/HCHRiskStratificationPRMScoreCalculator.java:282-292 | With a nondecreasing exponential, a larger predictor never gives a smaller score |
| PrmScore.ReferenceRecordProbability | src/main/java/com/filA3/prm/HCHRiskStratificationPRMScoreCalculator.java:282-810 | A male patient at the reference of every field has predictor INTERCEPT and scores the rounded exp(INTERCEPT) / (1 + exp(INTERCEPT)) |
| Scenario.AllMedicationsTerm | src/main/java/com/filA3/prm/HCHRiskStratificationPRMScoreCalculator.java:431-460 | Taking every medication group adds the six flag coefficients, 1.14708406 |
| Scenario.AllGroupsSum | src/main/java/com/filA3/prm/HCHRiskStratificationPRMScoreCalculator.java:472-541 | The sixteen group coefficients total 1.99611313 |
| Scenario.AllGroupsPresent | src/main/java/com/filA3/prm/HCHRiskStratificationPRMScoreCalculator.java:819-823 | With every disease present, every disease group is present |
| Scenario.AllInteractionsSum | src/main/java/com/filA3/prm/HCHRiskStratificationPRMScoreCalculator.java:752-808 | The nine interaction coefficients total -0.5902778939 |
| Scenario.AllDiseasesTerm | src/main/java/com/filA3/prm/HCHRiskStratificationPRMScoreCalculator.java:462-808 | For a female patient with all 33 diseases, the disease terms are the count cubic at 33 plus every group and every interaction coefficient |
| Scenario.ScenarioPathology | src/main/java/com/filA3/prm/HCHRiskStratificationPRMScoreCalculator.java:543-750 | Cholesterol MED, LDL HIGH, albumin-creatinine ratio untested and all else LOW add 0.0110053 |
| Scenario.ScenarioPredictor | src/main/java/com/filA3/prm/HCHRiskStratificationPRMScoreCalculator.java:302-810 | The end-to-end scenario's linear predictor is exactly 36.188348860924 |
| Scenario.ScenarioScoreSaturates | src/main/java/com/filA3/prm/HCHRiskStratificationPRMScoreCalculator.java:282-292 | With any nondecreasing exponential that is at least 485165195 at 20, as e^20 is, the scenario's probability is exactly 1 |
| PrmScore.MedicationMovesScore | src/main/java/com/filA3/prm/HCHRiskStratificationPRMScoreCalculator.java:431-460 | Starting a medication with a positive coefficient never lowers the score, and one with a negative coefficient never raises it |

## Left out

- `Math.exp` and the double ↔ decimal conversions in `calculatePRMScore` (HCHRiskStratificationPRMScoreCalculator.java:286-287, 291) are floating-point library code. The exponential is a parameter `exp`, required only to return a nonnegative value for the predictor. The final `doubleValue()` of the eight-place decimal is not modelled.
- PrmScore.Score and PrmScore.CalculatePrmScore do not model the exception the calculator raises when `Math.exp` overflows to infinity. This happens for a predictor above about 709, and `BigDecimal.valueOf` rejects the result. The model assumes a finite exponent.
- Age is a `double` in the record and enters the calculator through `BigDecimal.valueOf(double)`. The model takes age to be the exact decimal that conversion yields, as a `real`. The binary representation of the double is not modelled. A NaN or infinite age makes `BigDecimal.valueOf` throw NumberFormatException (HCHRiskStratificationPRMScoreCalculator.java:307); the model's age is always finite, so that error path is not modelled.
- `toString` (HCHRiskStratificationPRMData.java:813-817) is a reflection-based library call.
- The singleton `getInstance` and the protected constructor (HCHRiskStratificationPRMScoreCalculator.java:255-275) hold no state that affects the score.
- Null field values and null sets are not representable in the model. The source's setters store a null enum value unchecked, and the calculator then throws NullPointerException at its first `switch` on it (e.g. HCHRiskStratificationPRMScoreCalculator.java:319). `setMedicationGroups(null)` and `setDiseases(null)` throw inside the setter (HCHRiskStratificationPRMData.java:448, 474), as `EnumSet.copyOf` does for a null element.
- The setters return `this` for chaining. In the model `Set` returns the updated record.
- The set setters store the very same empty set for an empty argument, and a fresh copy otherwise. Object identity is not modelled; only the stored elements are.
- The other classes of the repository are not part of this model:
  - the string-to-setter reflection adapter (`PRMData.java`);
  - the JSON adapter (`PRMCalculator.java`);
  - the command-line entry point (`PRM.java`);
  - the HTTP controller;
  - the Angular front end.
  They are I/O and plumbing around the engine.
