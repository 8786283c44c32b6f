/** The fixed coefficient table of the hospitalisation logistic-regression model.

    Every coefficient is the shortest decimal literal of the double constant
    that HCHRiskStratificationPRMScoreCalculator passes to `BigDecimal.valueOf`,
    which is exactly the value its decimal arithmetic starts from.
    Each categorical field has one reference variant with no coefficient; the
    lookups below return 0.0 for it, and the contracts state that the
    reference variant is the ONLY variant contributing nothing.
 */
module Coefficients {
  import opened PrmData

  const Intercept: real := -2.755148

  const AgeCoefficient: real := -0.03795278
  const AgeSqCoefficient: real := 0.0006159449
  const AgeCuCoefficient: real := -0.000001047389

  const FemaleCoefficient: real := 0.2216384

  const NumDiseasesCoefficient: real := 0.3369661
  const NumDiseasesSqCoefficient: real := -0.03976625
  const NumDiseasesCuCoefficient: real := 0.001930389

  /** Reference: NON_ATSI. */
  function EthnicityCoefficient(e: Ethnicity): (c: real)
    ensures c == 0.0 <==> e == NonAtsi
  {
    match e
    case NonAtsi => 0.0
    case Atsi => 0.4033629
    case Unknown => -0.06624966
  }

  /** Reference: BMI 7 to 25. */
  function BmiCoefficient(b: BmiCategory): (c: real)
    ensures c == 0.0 <==> b == Bmi7To25
  {
    match b
    case Bmi7To25 => 0.0
    case Bmi25To30 => 0.03294204
    case Bmi30To35 => 0.1939825
    case Bmi35To40 => 0.2712273
    case Bmi40To200 => 0.4643618
    case NotRecorded => 0.139507
  }

  /** Reference: NON_SMOKER. */
  function SmokingCoefficient(s: SmokingStatus): (c: real)
    ensures c == 0.0 <==> s == NonSmoker
  {
    match s
    case NonSmoker => 0.0
    case ExSmoker => 0.1969316
    case Smoker => 0.4057213
    case Unknown => 0.199347
  }

  /** Reference: NON_DRINKER. */
  function AlcoholCoefficient(a: AlcoholStatus): (c: real)
    ensures c == 0.0 <==> a == NonDrinker
  {
    match a
    case NonDrinker => 0.0
    case Drinker => -0.2853232
    case NotRecorded => -0.2301394
  }

  /** Reference: decile FIVE. */
  function DecileCoefficient(d: IrsadDecile): (c: real)
    ensures c == 0.0 <==> d == Five
  {
    match d
    case One => -0.01238492
    case Two => -0.07421796
    case Three => 0.004430832
    case Four => -0.1857272
    case Five => 0.0
    case Six => -0.2340966
    case Seven => -0.2468854
    case Eight => -0.2990624
    case Nine => -0.1834029
    case Ten => -0.4622169
    case Unknown => -0.030162
  }

  /** One flag coefficient per medication group; none of them is zero, so every
      medication present changes the predictor. */
  function MedicationCoefficient(m: MedicationGroup): (c: real)
    ensures c != 0.0
  {
    match m
    case Statins => -0.01528814
    case AntiCoagulants => 0.2886091
    case AntiDepressants => 0.2025163
    case AntiPsychotics => 0.3923084
    case AntiInflammatory => 0.1301034
    case Steroids => 0.148835
  }

  /** One flag coefficient per disease group present. */
  function GroupCoefficient(g: DiseaseGroup): (c: real)
    ensures c != 0.0
  {
    match g
    case Respiratory => -0.07150371
    case AtrialFibr => 0.2234789
    case Cardiovascular => 0.4764327
    case Osteoarthritis => -0.2060183
    case Osteoporosis => 0.05950344
    case Rheumatoid => 0.1149149
    case MentalHealth => 0.06869549
    case Cancer => 0.06008254
    case Digestive => 0.1796635
    case Hypertension => -0.1591489
    case Bloodfats => -0.3726723
    case ChronicKidney => 0.02682657
    case DiabetesType1 => 0.5844975
    case DiabetesType2 => 0.1332004
    case VenousThrombo => 0.3623621
    case Other => 0.5157983
  }

  /** The nine disease groups with a female interaction term, in the order the
      calculator tests them. */
  const InteractionOrder: seq<DiseaseGroup> :=
    [ DiseaseGroup.Cardiovascular, DiseaseGroup.Respiratory, DiseaseGroup.DiabetesType1
    , DiseaseGroup.Other, DiseaseGroup.Osteoporosis, DiseaseGroup.ChronicKidney
    , DiseaseGroup.MentalHealth, DiseaseGroup.Hypertension, DiseaseGroup.DiabetesType2 ]

  const InteractionGroups: set<DiseaseGroup> :=
    { DiseaseGroup.Cardiovascular, DiseaseGroup.Respiratory, DiseaseGroup.DiabetesType1
    , DiseaseGroup.Other, DiseaseGroup.Osteoporosis, DiseaseGroup.ChronicKidney
    , DiseaseGroup.MentalHealth, DiseaseGroup.Hypertension, DiseaseGroup.DiabetesType2 }

  /** The female-by-group interaction coefficient; the seven groups without an
      interaction term have none, written 0.0. */
  function InteractionCoefficient(g: DiseaseGroup): (c: real)
    ensures c != 0.0 <==> g in InteractionGroups
  {
    match g
    case Cardiovascular => -0.2108839
    case Respiratory => 0.05705658
    case DiabetesType1 => 0.2492323
    case Other => -0.172162
    case Osteoporosis => -0.2475655
    case ChronicKidney => -0.112216
    case MentalHealth => -0.06436747
    case Hypertension => -0.08909346
    case DiabetesType2 => -0.0002784439
    case _ => 0.0
  }

  /** How a pathology test's categories map to coefficients. LOW is always the
      reference. Most tests have a coefficient for MED, HIGH and NO_TEST_HISTORY;
      three tests merge MED and HIGH into one coefficient; platelets has no MED
      coefficient at all. */
  datatype PathologyScheme =
    | FourCategory(med: real, high: real, noTestHistory: real)
    | MedOrHigh(medOrHigh: real, noTestHistory: real)
    | HighOnly(high: real, noTestHistory: real)
  {
    function MedCoefficient(): real {
      match this
      case FourCategory(med, _, _) => med
      case MedOrHigh(medOrHigh, _) => medOrHigh
      case HighOnly(_, _) => 0.0
    }

    function HighCoefficient(): real {
      match this
      case FourCategory(_, high, _) => high
      case MedOrHigh(medOrHigh, _) => medOrHigh
      case HighOnly(high, _) => high
    }
  }

  function PathologyTable(t: PathologyTest): PathologyScheme {
    match t
    case Haemoglobin => FourCategory(0.1546069, 0.4416708, 0.04502215)
    case Platelets => HighOnly(0.1398411, -0.01470966)
    case AlanineAminotransferase => FourCategory(0.05502668, -0.06195176, -0.2940664)
    case GammaGT => FourCategory(0.1261477, 0.2209109, 0.1979201)
    case HbA1c => FourCategory(0.1720256, 0.1746667, -0.04617213)
    case Bilirubin => MedOrHigh(0.1803894, 0.07843205)
    case Cholesterol => FourCategory(-0.03635341, 0.04530537, 0.1749709)
    case Creatinine => MedOrHigh(1.134946, -0.1704331)
    case Triglycerides => MedOrHigh(0.1234874, -0.0963018)
    case AlbuminCreatinineRatio => FourCategory(0.1151562, 0.304275, 0.1059512)
    case Ldl => FourCategory(-0.05395995, -0.05859249, 0.1556545)
    case Egfr => FourCategory(0.09504744, 0.08914862, 0.04597902)
    case BloodPressure => FourCategory(0.1839175, 0.2946162, 0.01121054)
  }

  /** The tests whose MED and HIGH categories share one coefficient. */
  const MergedTests: set<PathologyTest> := {Bilirubin, Creatinine, Triglycerides}

  /** The coefficient added for category `c` of test `t`. Only LOW, and MED for
      platelets, contribute nothing. */
  function PathologyCoefficient(t: PathologyTest, c: PathologyCategory): (k: real)
    ensures k == 0.0 <==> c == Low || (t == Platelets && c == Med)
  {
    var scheme := PathologyTable(t);
    match c
    case Low => 0.0
    case Med => scheme.MedCoefficient()
    case High => scheme.HighCoefficient()
    case NoTestHistory => scheme.noTestHistory
  }

  /** MED and HIGH contribute the same exactly for bilirubin, creatinine and
      triglycerides; platelets MED contributes what LOW does. */
  lemma MergedCategories(t: PathologyTest)
    ensures PathologyCoefficient(t, Med) == PathologyCoefficient(t, High) <==> t in MergedTests
    ensures PathologyCoefficient(Platelets, Med) == PathologyCoefficient(Platelets, Low)
  {
  }
}
