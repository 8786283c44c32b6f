/** A worked example: the example data file shown in the Javadoc of the
    command-line entry point PRM (PRM.java:48-113). It describes a 44-year-old
    female patient with every medication group and every disease, demographics
    at their reference variants except IRSAD decile TEN, and all pathology LOW
    except cholesterol MED, LDL HIGH and albumin-creatinine ratio
    NO_TEST_HISTORY.

    Her linear predictor is 36.188348860924 exactly: the model's sum of every
    applicable coefficient. With any nondecreasing exponential that reaches
    e^20 by 20, her probability rounds to exactly 1.00000000.
 */
module Scenario {
  import opened PrmData
  import opened Coefficients
  import opened Sums
  import opened ScoreCalculator
  import opened PrmScore

  /** The scenario's record. */
  predicate IsScenarioRecord(r: Record) {
    && r.age == 44.0 && r.isFemale
    && r.ethnicity == NonAtsi && r.bmiCategory == Bmi7To25 && r.smokingStatus == NonSmoker
    && r.alcoholStatus == NonDrinker && r.irsadDecile == Ten
    && (forall m: MedicationGroup :: m in r.medicationGroups)
    && (forall d: Disease :: d in r.diseases)
    && r.haemoglobin == Low && r.platelets == Low && r.alanineAminotransferase == Low
    && r.gammaGT == Low && r.hbA1c == Low && r.bilirubin == Low && r.cholesterol == Med
    && r.creatinine == Low && r.triglycerides == Low && r.albuminCreatinineRatio == NoTestHistory
    && r.ldl == High && r.eGfr == Low && r.bloodPressure == Low
  }

  /** Every medication group taken: the six flag coefficients together. */
  lemma AllMedicationsTerm(meds: set<MedicationGroup>)
    requires forall m: MedicationGroup :: m in meds
    ensures MedicationTerm(meds) == 1.14708406
  {
    SumOverFull(AllMedicationGroups, meds, MedicationCoefficient);
  }

  /** The sixteen group coefficients together. */
  lemma AllGroupsSum()
    ensures SeqSum(AllDiseaseGroups, GroupCoefficient) == 1.99611313
  {
    var a := [DiseaseGroup.Respiratory, DiseaseGroup.AtrialFibr, DiseaseGroup.Cardiovascular, DiseaseGroup.Osteoarthritis];
    var b := [DiseaseGroup.Osteoporosis, DiseaseGroup.Rheumatoid, DiseaseGroup.MentalHealth, DiseaseGroup.Cancer];
    var c := [DiseaseGroup.Digestive, DiseaseGroup.Hypertension, DiseaseGroup.Bloodfats, DiseaseGroup.ChronicKidney];
    var d := [DiseaseGroup.DiabetesType1, DiseaseGroup.DiabetesType2, DiseaseGroup.VenousThrombo, DiseaseGroup.Other];
    SeqSumOfFour(a[0], a[1], a[2], a[3], GroupCoefficient);
    SeqSumOfFour(b[0], b[1], b[2], b[3], GroupCoefficient);
    SeqSumOfFour(c[0], c[1], c[2], c[3], GroupCoefficient);
    SeqSumOfFour(d[0], d[1], d[2], d[3], GroupCoefficient);
    assert AllDiseaseGroups == a + b + (c + d);
    SeqSumAppend(a, b, GroupCoefficient);
    SeqSumAppend(c, d, GroupCoefficient);
    SeqSumAppend(a + b, c + d, GroupCoefficient);
  }

  /** Every disease present: every group present. */
  lemma AllGroupsPresent(diseases: set<Disease>)
    requires forall d: Disease :: d in diseases
    ensures forall g: DiseaseGroup :: g in ExtractDiseaseGroups(diseases)
  {
    forall g: DiseaseGroup ensures g in ExtractDiseaseGroups(diseases) {
      assert Representative(g) in diseases;
    }
  }

  /** The nine interaction coefficients together. */
  lemma AllInteractionsSum()
    ensures SeqSum(InteractionOrder, InteractionCoefficient) == -0.5902778939
  {
  }

  /** Every disease present, for a female patient: the count cubic at 33, every
      group coefficient, and every interaction coefficient. */
  lemma AllDiseasesTerm(diseases: set<Disease>)
    requires forall d: Disease :: d in diseases
    ensures DiseaseTerm(true, diseases) == 37.186824543 + 1.99611313 - 0.5902778939
  {
    var groups := ExtractDiseaseGroups(diseases);
    AllGroupsPresent(diseases);
    AllDiseasesCount(diseases);
    SquareAndCube(33.0);
    assert DiseaseCountTerm(|diseases|) == 37.186824543;
    SumOverFull(AllDiseaseGroups, groups, GroupCoefficient);
    AllGroupsSum();
    assert GroupTerm(groups) == 1.99611313;
    SumOverFull(InteractionOrder, groups, InteractionCoefficient);
    AllInteractionsSum();
    assert InteractionTerm(true, groups) == -0.5902778939;
  }

  /** The scenario's thirteen pathology lookups. */
  lemma ScenarioPathology(r: Record)
    requires IsScenarioRecord(r)
    ensures PathologyTerm(r) == -0.03635341 - 0.05859249 + 0.1059512
  {
  }

  /** The scenario's linear predictor, every applicable coefficient summed. */
  lemma ScenarioPredictor(r: Record)
    requires IsScenarioRecord(r)
    ensures LinearPredictor(r) == 36.188348860924
  {
    SquareAndCube(44.0);
    assert AgeTerm(r.age) == -0.566673778176;
    assert DemographicTerm(r) == 0.2216384 - 0.4622169;
    AllMedicationsTerm(r.medicationGroups);
    AllDiseasesTerm(r.diseases);
    ScenarioPathology(r);
  }

  /** With any nondecreasing nonnegative exponential that is at least
      485165195 (just below e^20) at 20, the scenario's probability rounds to
      exactly 1.00000000. */
  lemma ScenarioScoreSaturates(r: Record, exp: real -> real)
    requires IsScenarioRecord(r)
    requires MonotoneExp(exp) && exp(20.0) >= 485165195.0
    ensures Score(r, exp) == 1.0
  {
    ScenarioPredictor(r);
    assert exp(20.0) <= exp(LinearPredictor(r));
  }
}
