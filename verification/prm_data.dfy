/** The input record of the hospitalisation-probability (PRM) calculation.

    Every categorical risk factor is a closed enumeration, so a record can never
    hold an out-of-domain value; absence of information is itself a variant
    (UNKNOWN, NOT_RECORDED, NO_TEST_HISTORY). Each disease belongs to exactly
    one of sixteen disease groups through a fixed table.
 */
module PrmData {

  datatype Ethnicity = NonAtsi | Atsi | Unknown

  datatype BmiCategory = Bmi7To25 | Bmi25To30 | Bmi30To35 | Bmi35To40 | Bmi40To200 | NotRecorded

  datatype SmokingStatus = NonSmoker | ExSmoker | Smoker | Unknown

  datatype AlcoholStatus = NonDrinker | Drinker | NotRecorded

  /** Socio-economic decile of the patient's area; ONE is the most disadvantaged. */
  datatype IrsadDecile = One | Two | Three | Four | Five | Six | Seven | Eight | Nine | Ten | Unknown

  datatype MedicationGroup =
    Statins | AntiCoagulants | AntiDepressants | AntiPsychotics | AntiInflammatory | Steroids

  datatype DiseaseGroup =
    | Respiratory | AtrialFibr | Cardiovascular | Osteoarthritis | Osteoporosis | Rheumatoid
    | MentalHealth | Cancer | Digestive | Hypertension | Bloodfats | ChronicKidney
    | DiabetesType1 | DiabetesType2 | VenousThrombo | Other

  datatype Disease =
    | Asthma | Copd | ChronicKidney | CoronaryHeart | Stroke | TransientIschaemicAttack
    | AtrialFibr | CongHeartFailure | DiabetesType1 | DiabetesType2 | VenousThrombo
    | Osteoarthritis | Depression | Anxiety | Bipolar | Schizophrenia | Cancer | Dementia
    | Epilepsy | Crohns | UlcerColitis | Coeliac | Steatorrhea | MalabsorpSyndr | ChronicLiver
    | Pancreatitis | Hypertension | Osteoporosis | Rheumatoid | Hyperlipidaemia
    | Hypercholesterolaemia | Hypertriglyceridaemia | RheumaticHeart
  {
    /** The position of the disease in the declaration order. */
    function Ordinal(): nat {
      match this
      case Asthma => 0 case Copd => 1 case ChronicKidney => 2 case CoronaryHeart => 3
      case Stroke => 4 case TransientIschaemicAttack => 5 case AtrialFibr => 6
      case CongHeartFailure => 7 case DiabetesType1 => 8 case DiabetesType2 => 9
      case VenousThrombo => 10 case Osteoarthritis => 11 case Depression => 12
      case Anxiety => 13 case Bipolar => 14 case Schizophrenia => 15 case Cancer => 16
      case Dementia => 17 case Epilepsy => 18 case Crohns => 19 case UlcerColitis => 20
      case Coeliac => 21 case Steatorrhea => 22 case MalabsorpSyndr => 23
      case ChronicLiver => 24 case Pancreatitis => 25 case Hypertension => 26
      case Osteoporosis => 27 case Rheumatoid => 28 case Hyperlipidaemia => 29
      case Hypercholesterolaemia => 30 case Hypertriglyceridaemia => 31 case RheumaticHeart => 32
    }

    /** The fixed disease-to-group table. */
    function Group(): DiseaseGroup {
      match this
      case Asthma => DiseaseGroup.Respiratory
      case Copd => DiseaseGroup.Respiratory
      case ChronicKidney => DiseaseGroup.ChronicKidney
      case CoronaryHeart => DiseaseGroup.Cardiovascular
      case Stroke => DiseaseGroup.Cardiovascular
      case TransientIschaemicAttack => DiseaseGroup.Cardiovascular
      case AtrialFibr => DiseaseGroup.AtrialFibr
      case CongHeartFailure => DiseaseGroup.Cardiovascular
      case DiabetesType1 => DiseaseGroup.DiabetesType1
      case DiabetesType2 => DiseaseGroup.DiabetesType2
      case VenousThrombo => DiseaseGroup.VenousThrombo
      case Osteoarthritis => DiseaseGroup.Osteoarthritis
      case Depression => DiseaseGroup.MentalHealth
      case Anxiety => DiseaseGroup.MentalHealth
      case Bipolar => DiseaseGroup.MentalHealth
      case Schizophrenia => DiseaseGroup.MentalHealth
      case Cancer => DiseaseGroup.Cancer
      case Dementia => DiseaseGroup.MentalHealth
      case Epilepsy => DiseaseGroup.Other
      case Crohns => DiseaseGroup.Digestive
      case UlcerColitis => DiseaseGroup.Digestive
      case Coeliac => DiseaseGroup.Digestive
      case Steatorrhea => DiseaseGroup.Digestive
      case MalabsorpSyndr => DiseaseGroup.Digestive
      case ChronicLiver => DiseaseGroup.Digestive
      case Pancreatitis => DiseaseGroup.Digestive
      case Hypertension => DiseaseGroup.Hypertension
      case Osteoporosis => DiseaseGroup.Osteoporosis
      case Rheumatoid => DiseaseGroup.Rheumatoid
      case Hyperlipidaemia => DiseaseGroup.Bloodfats
      case Hypercholesterolaemia => DiseaseGroup.Bloodfats
      case Hypertriglyceridaemia => DiseaseGroup.Bloodfats
      case RheumaticHeart => DiseaseGroup.Cardiovascular
    }
  }

  /** The number of diseases. */
  const DiseaseCount: nat := 33

  /** The disease at declaration position i: the inverse of `Ordinal`. */
  function DiseaseAt(i: nat): (d: Disease)
    requires i < DiseaseCount
    ensures d.Ordinal() == i
  {
    if i < 11 then DiseaseAtLow(i) else if i < 22 then DiseaseAtMiddle(i) else DiseaseAtHigh(i)
  }

  function DiseaseAtLow(i: nat): (d: Disease)
    requires i < 11
    ensures d.Ordinal() == i
  {
    match i
    case 0 => Asthma case 1 => Copd case 2 => Disease.ChronicKidney case 3 => CoronaryHeart
    case 4 => Stroke case 5 => TransientIschaemicAttack case 6 => Disease.AtrialFibr
    case 7 => CongHeartFailure case 8 => Disease.DiabetesType1 case 9 => Disease.DiabetesType2
    case _ => Disease.VenousThrombo
  }

  function DiseaseAtMiddle(i: nat): (d: Disease)
    requires 11 <= i < 22
    ensures d.Ordinal() == i
  {
    match i
    case 11 => Disease.Osteoarthritis case 12 => Depression case 13 => Anxiety
    case 14 => Bipolar case 15 => Schizophrenia case 16 => Disease.Cancer case 17 => Dementia
    case 18 => Epilepsy case 19 => Crohns case 20 => UlcerColitis case _ => Coeliac
  }

  function DiseaseAtHigh(i: nat): (d: Disease)
    requires 22 <= i < DiseaseCount
    ensures d.Ordinal() == i
  {
    match i
    case 22 => Steatorrhea case 23 => MalabsorpSyndr case 24 => ChronicLiver
    case 25 => Pancreatitis case 26 => Disease.Hypertension case 27 => Disease.Osteoporosis
    case 28 => Disease.Rheumatoid case 29 => Hyperlipidaemia case 30 => Hypercholesterolaemia
    case 31 => Hypertriglyceridaemia case _ => RheumaticHeart
  }

  /** Each disease is the one at its own declaration position. */
  lemma OrdinalRoundTrip(d: Disease)
    ensures d.Ordinal() < DiseaseCount && DiseaseAt(d.Ordinal()) == d
  {
  }

  /** The diseases before position n + 1 are those before n and the one at n. */
  lemma BelowStep(diseases: set<Disease>, n: nat)
    requires forall d: Disease :: d in diseases
    requires n < DiseaseCount
    ensures DiseaseAt(n) !in (set d | d in diseases && d.Ordinal() < n)
    ensures (set d | d in diseases && d.Ordinal() < n + 1)
            == (set d | d in diseases && d.Ordinal() < n) + {DiseaseAt(n)}
  {
    var x := DiseaseAt(n);
    assert x in diseases;
    forall d | d in diseases && d.Ordinal() == n ensures d == x {
      OrdinalRoundTrip(d);
    }
  }

  /** Exactly n of the diseases stand before position n. */
  lemma {:induction false} CountBelow(diseases: set<Disease>, n: nat)
    requires forall d: Disease :: d in diseases
    requires n <= DiseaseCount
    ensures |set d | d in diseases && d.Ordinal() < n| == n
  {
    if n == 0 {
      assert (set d | d in diseases && d.Ordinal() < n) == {};
    } else {
      CountBelow(diseases, n - 1);
      BelowStep(diseases, n - 1);
    }
  }

  /** There are 33 diseases: a set holding every disease has 33 members. */
  lemma AllDiseasesCount(diseases: set<Disease>)
    requires forall d: Disease :: d in diseases
    ensures |diseases| == DiseaseCount
  {
    CountBelow(diseases, DiseaseCount);
    forall d | d in diseases ensures d.Ordinal() < DiseaseCount {
      OrdinalRoundTrip(d);
    }
    assert (set d | d in diseases && d.Ordinal() < DiseaseCount) == diseases;
  }

  datatype PathologyCategory = Low | Med | High | NoTestHistory

  /** The thirteen pathology tests the record holds a category for. */
  datatype PathologyTest =
    | Haemoglobin | Platelets | AlanineAminotransferase | GammaGT | HbA1c | Bilirubin
    | Cholesterol | Creatinine | Triglycerides | AlbuminCreatinineRatio | Ldl | Egfr
    | BloodPressure

  /** Every disease, in declaration order. */
  const AllDiseases: seq<Disease> :=
    [ Asthma, Copd, Disease.ChronicKidney, CoronaryHeart, Stroke, TransientIschaemicAttack
    , Disease.AtrialFibr, CongHeartFailure, Disease.DiabetesType1, Disease.DiabetesType2
    , Disease.VenousThrombo, Disease.Osteoarthritis, Depression, Anxiety, Bipolar
    , Schizophrenia, Disease.Cancer, Dementia, Epilepsy, Crohns, UlcerColitis, Coeliac
    , Steatorrhea, MalabsorpSyndr, ChronicLiver, Pancreatitis, Disease.Hypertension
    , Disease.Osteoporosis, Disease.Rheumatoid, Hyperlipidaemia, Hypercholesterolaemia
    , Hypertriglyceridaemia, RheumaticHeart ]

  /** Every medication group, in declaration order. */
  const AllMedicationGroups: seq<MedicationGroup> :=
    [Statins, AntiCoagulants, AntiDepressants, AntiPsychotics, AntiInflammatory, Steroids]

  /** Every disease group, in declaration order. */
  const AllDiseaseGroups: seq<DiseaseGroup> :=
    [ DiseaseGroup.Respiratory, DiseaseGroup.AtrialFibr, DiseaseGroup.Cardiovascular
    , DiseaseGroup.Osteoarthritis, DiseaseGroup.Osteoporosis, DiseaseGroup.Rheumatoid
    , DiseaseGroup.MentalHealth, DiseaseGroup.Cancer, DiseaseGroup.Digestive
    , DiseaseGroup.Hypertension, DiseaseGroup.Bloodfats, DiseaseGroup.ChronicKidney
    , DiseaseGroup.DiabetesType1, DiseaseGroup.DiabetesType2, DiseaseGroup.VenousThrombo
    , DiseaseGroup.Other ]

  /** The patient record; the fields are those of the Java class
      HCHRiskStratificationPRMData. */
  datatype Record = Record(
    age: real,
    isFemale: bool,
    ethnicity: Ethnicity,
    bmiCategory: BmiCategory,
    smokingStatus: SmokingStatus,
    alcoholStatus: AlcoholStatus,
    irsadDecile: IrsadDecile,
    medicationGroups: set<MedicationGroup>,
    diseases: set<Disease>,
    haemoglobin: PathologyCategory,
    platelets: PathologyCategory,
    alanineAminotransferase: PathologyCategory,
    gammaGT: PathologyCategory,
    hbA1c: PathologyCategory,
    bilirubin: PathologyCategory,
    cholesterol: PathologyCategory,
    creatinine: PathologyCategory,
    triglycerides: PathologyCategory,
    albuminCreatinineRatio: PathologyCategory,
    ldl: PathologyCategory,
    eGfr: PathologyCategory,
    bloodPressure: PathologyCategory)
  {
    /** The category recorded for pathology test `t` (the per-test getters). */
    function Pathology(t: PathologyTest): PathologyCategory {
      match t
      case Haemoglobin => haemoglobin
      case Platelets => platelets
      case AlanineAminotransferase => alanineAminotransferase
      case GammaGT => gammaGT
      case HbA1c => hbA1c
      case Bilirubin => bilirubin
      case Cholesterol => cholesterol
      case Creatinine => creatinine
      case Triglycerides => triglycerides
      case AlbuminCreatinineRatio => albuminCreatinineRatio
      case Ldl => ldl
      case Egfr => eGfr
      case BloodPressure => bloodPressure
    }
  }

  /** A freshly constructed record: every field at its declared default. */
  function NewRecord(): (r: Record)
    ensures r.age == 0.0 && !r.isFemale
    ensures r.ethnicity == Ethnicity.Unknown && r.bmiCategory == BmiCategory.NotRecorded
    ensures r.smokingStatus == SmokingStatus.Unknown && r.alcoholStatus == AlcoholStatus.NotRecorded
    ensures r.irsadDecile == IrsadDecile.Unknown
    ensures r.medicationGroups == {} && r.diseases == {}
    ensures forall t: PathologyTest :: r.Pathology(t) == NoTestHistory
  {
    Record(
      0.0, false, Ethnicity.Unknown, BmiCategory.NotRecorded, SmokingStatus.Unknown,
      AlcoholStatus.NotRecorded, IrsadDecile.Unknown, {}, {},
      NoTestHistory, NoTestHistory, NoTestHistory, NoTestHistory, NoTestHistory,
      NoTestHistory, NoTestHistory, NoTestHistory, NoTestHistory, NoTestHistory,
      NoTestHistory, NoTestHistory, NoTestHistory)
  }

  /** The set-valued setters keep an empty set as the shared empty set and
      copy any other argument into a fresh enum set; either way the stored set
      has exactly the argument's elements. */
  function CopyOf<T(!new)>(s: set<T>): (c: set<T>)
    ensures forall x :: x in c <==> x in s
  {
    if |s| == 0 then {} else set x | x in s
  }

  /** Names the fields of a record, one per getter/setter pair. */
  datatype Field =
    | AgeField | IsFemaleField | EthnicityField | BmiField | SmokingField | AlcoholField
    | DecileField | MedicationsField | DiseasesField | PathologyField(test: PathologyTest)

  /** The argument of a setter, tagged with the field it sets. */
  datatype Value =
    | AgeValue(age: real)
    | IsFemaleValue(isFemale: bool)
    | EthnicityValue(ethnicity: Ethnicity)
    | BmiValue(bmiCategory: BmiCategory)
    | SmokingValue(smokingStatus: SmokingStatus)
    | AlcoholValue(alcoholStatus: AlcoholStatus)
    | DecileValue(irsadDecile: IrsadDecile)
    | MedicationsValue(medicationGroups: set<MedicationGroup>)
    | DiseasesValue(diseases: set<Disease>)
    | PathologyValue(test: PathologyTest, category: PathologyCategory)
  {
    function FieldOf(): Field {
      match this
      case AgeValue(_) => AgeField
      case IsFemaleValue(_) => IsFemaleField
      case EthnicityValue(_) => EthnicityField
      case BmiValue(_) => BmiField
      case SmokingValue(_) => SmokingField
      case AlcoholValue(_) => AlcoholField
      case DecileValue(_) => DecileField
      case MedicationsValue(_) => MedicationsField
      case DiseasesValue(_) => DiseasesField
      case PathologyValue(t, _) => PathologyField(t)
    }
  }

  /** The getters: the current value of field `f`. */
  function Get(r: Record, f: Field): (v: Value)
    ensures v.FieldOf() == f
  {
    match f
    case AgeField => AgeValue(r.age)
    case IsFemaleField => IsFemaleValue(r.isFemale)
    case EthnicityField => EthnicityValue(r.ethnicity)
    case BmiField => BmiValue(r.bmiCategory)
    case SmokingField => SmokingValue(r.smokingStatus)
    case AlcoholField => AlcoholValue(r.alcoholStatus)
    case DecileField => DecileValue(r.irsadDecile)
    case MedicationsField => MedicationsValue(r.medicationGroups)
    case DiseasesField => DiseasesValue(r.diseases)
    case PathologyField(t) => PathologyValue(t, r.Pathology(t))
  }

  /** The pathology setters: replace the category of test `t` only. */
  function SetPathology(r: Record, t: PathologyTest, c: PathologyCategory): (r': Record)
    ensures r'.Pathology(t) == c
    ensures forall u :: u != t ==> r'.Pathology(u) == r.Pathology(u)
    ensures r'.age == r.age && r'.isFemale == r.isFemale && r'.ethnicity == r.ethnicity
    ensures r'.bmiCategory == r.bmiCategory && r'.smokingStatus == r.smokingStatus
    ensures r'.alcoholStatus == r.alcoholStatus && r'.irsadDecile == r.irsadDecile
    ensures r'.medicationGroups == r.medicationGroups && r'.diseases == r.diseases
  {
    match t
    case Haemoglobin => r.(haemoglobin := c)
    case Platelets => r.(platelets := c)
    case AlanineAminotransferase => r.(alanineAminotransferase := c)
    case GammaGT => r.(gammaGT := c)
    case HbA1c => r.(hbA1c := c)
    case Bilirubin => r.(bilirubin := c)
    case Cholesterol => r.(cholesterol := c)
    case Creatinine => r.(creatinine := c)
    case Triglycerides => r.(triglycerides := c)
    case AlbuminCreatinineRatio => r.(albuminCreatinineRatio := c)
    case Ldl => r.(ldl := c)
    case Egfr => r.(eGfr := c)
    case BloodPressure => r.(bloodPressure := c)
  }

  /** The setters: store `v` in its field. Reading that field back yields `v`,
      and every other field reads as before. */
  function Set(r: Record, v: Value): (r': Record)
    ensures Get(r', v.FieldOf()) == v
    ensures forall f :: f != v.FieldOf() ==> Get(r', f) == Get(r, f)
  {
    match v
    case AgeValue(a) => r.(age := a)
    case IsFemaleValue(b) => r.(isFemale := b)
    case EthnicityValue(e) => r.(ethnicity := e)
    case BmiValue(b) => r.(bmiCategory := b)
    case SmokingValue(s) => r.(smokingStatus := s)
    case AlcoholValue(a) => r.(alcoholStatus := a)
    case DecileValue(d) => r.(irsadDecile := d)
    case MedicationsValue(ms) => r.(medicationGroups := CopyOf(ms))
    case DiseasesValue(ds) => r.(diseases := CopyOf(ds))
    case PathologyValue(t, c) => SetPathology(r, t, c)
  }

  /** Records that agree on every pathology test agree on each pathology field. */
  lemma PathologyDeterminesFields(r1: Record, r2: Record)
    requires forall t: PathologyTest :: r1.Pathology(t) == r2.Pathology(t)
    ensures r1.haemoglobin == r2.haemoglobin && r1.platelets == r2.platelets
    ensures r1.alanineAminotransferase == r2.alanineAminotransferase && r1.gammaGT == r2.gammaGT
    ensures r1.hbA1c == r2.hbA1c && r1.bilirubin == r2.bilirubin && r1.cholesterol == r2.cholesterol
    ensures r1.creatinine == r2.creatinine && r1.triglycerides == r2.triglycerides
    ensures r1.albuminCreatinineRatio == r2.albuminCreatinineRatio && r1.ldl == r2.ldl
    ensures r1.eGfr == r2.eGfr && r1.bloodPressure == r2.bloodPressure
  {
    assert r1.Pathology(Haemoglobin) == r2.Pathology(Haemoglobin);
    assert r1.Pathology(Platelets) == r2.Pathology(Platelets);
    assert r1.Pathology(AlanineAminotransferase) == r2.Pathology(AlanineAminotransferase);
    assert r1.Pathology(GammaGT) == r2.Pathology(GammaGT);
    assert r1.Pathology(HbA1c) == r2.Pathology(HbA1c);
    assert r1.Pathology(Bilirubin) == r2.Pathology(Bilirubin);
    assert r1.Pathology(Cholesterol) == r2.Pathology(Cholesterol);
    assert r1.Pathology(Creatinine) == r2.Pathology(Creatinine);
    assert r1.Pathology(Triglycerides) == r2.Pathology(Triglycerides);
    assert r1.Pathology(AlbuminCreatinineRatio) == r2.Pathology(AlbuminCreatinineRatio);
    assert r1.Pathology(Ldl) == r2.Pathology(Ldl);
    assert r1.Pathology(Egfr) == r2.Pathology(Egfr);
    assert r1.Pathology(BloodPressure) == r2.Pathology(BloodPressure);
  }

  /** The getters together determine a record: no state is hidden from them. */
  lemma GettersDetermineRecord(r1: Record, r2: Record)
    requires forall f :: Get(r1, f) == Get(r2, f)
    ensures r1 == r2
  {
    assert Get(r1, AgeField) == Get(r2, AgeField);
    assert Get(r1, IsFemaleField) == Get(r2, IsFemaleField);
    assert Get(r1, EthnicityField) == Get(r2, EthnicityField);
    assert Get(r1, BmiField) == Get(r2, BmiField);
    assert Get(r1, SmokingField) == Get(r2, SmokingField);
    assert Get(r1, AlcoholField) == Get(r2, AlcoholField);
    assert Get(r1, DecileField) == Get(r2, DecileField);
    assert Get(r1, MedicationsField) == Get(r2, MedicationsField);
    assert Get(r1, DiseasesField) == Get(r2, DiseasesField);
    forall t: PathologyTest
      ensures r1.Pathology(t) == r2.Pathology(t)
    {
      assert Get(r1, PathologyField(t)) == Get(r2, PathologyField(t));
    }
    PathologyDeterminesFields(r1, r2);
  }

  /** Storing a field's current value leaves the record unchanged. */
  lemma SetCurrentValueIsIdentity(r: Record, f: Field)
    ensures Set(r, Get(r, f)) == r
  {
    GettersDetermineRecord(Set(r, Get(r, f)), r);
  }

  /** A second store into the same field overrides the first. */
  lemma SetOverridesSameField(r: Record, v: Value, w: Value)
    requires v.FieldOf() == w.FieldOf()
    ensures Set(Set(r, v), w) == Set(r, w)
  {
    GettersDetermineRecord(Set(Set(r, v), w), Set(r, w));
  }

  /** Stores into different fields commute. */
  lemma SetDifferentFieldsCommute(r: Record, v: Value, w: Value)
    requires v.FieldOf() != w.FieldOf()
    ensures Set(Set(r, v), w) == Set(Set(r, w), v)
  {
    GettersDetermineRecord(Set(Set(r, v), w), Set(Set(r, w), v));
  }

  /** The setters of the two set-valued fields store a set with exactly the
      argument's elements; in particular an empty argument gives an empty set. */
  lemma SetStoresEqualSet(r: Record, ms: set<MedicationGroup>, ds: set<Disease>)
    ensures Set(r, MedicationsValue(ms)).medicationGroups == ms
    ensures Set(r, DiseasesValue(ds)).diseases == ds
  {
  }

  /** Some disease with group `g`: the group table is onto. */
  function Representative(g: DiseaseGroup): (d: Disease)
    ensures d.Group() == g
  {
    match g
    case Respiratory => Asthma
    case AtrialFibr => Disease.AtrialFibr
    case Cardiovascular => CoronaryHeart
    case Osteoarthritis => Disease.Osteoarthritis
    case Osteoporosis => Disease.Osteoporosis
    case Rheumatoid => Disease.Rheumatoid
    case MentalHealth => Depression
    case Cancer => Disease.Cancer
    case Digestive => Crohns
    case Hypertension => Disease.Hypertension
    case Bloodfats => Hyperlipidaemia
    case ChronicKidney => Disease.ChronicKidney
    case DiabetesType1 => Disease.DiabetesType1
    case DiabetesType2 => Disease.DiabetesType2
    case VenousThrombo => Disease.VenousThrombo
    case Other => Epilepsy
  }

  /** Every one of the sixteen disease groups is the group of some disease. */
  lemma GroupTableIsOnto(g: DiseaseGroup)
    ensures g in (set d | d in AllDiseases :: d.Group())
  {
    var d := Representative(g);
    assert d in AllDiseases;
  }

  /** Four groups of the disease-group table, each with every disease that
      maps to it. */
  lemma GroupTableExamples(d: Disease)
    ensures d.Group() == DiseaseGroup.Respiratory <==> d in {Asthma, Copd}
    ensures d.Group() == DiseaseGroup.Other <==> d == Epilepsy
    ensures d.Group() == DiseaseGroup.Cardiovascular <==>
      d in {CoronaryHeart, Stroke, TransientIschaemicAttack, CongHeartFailure, RheumaticHeart}
    ensures d.Group() == DiseaseGroup.MentalHealth <==>
      d in {Depression, Anxiety, Bipolar, Schizophrenia, Dementia}
  {
  }

  /** The enumerations list every value. */
  lemma EnumerationsComplete(m: MedicationGroup, g: DiseaseGroup, d: Disease)
    ensures m in AllMedicationGroups && g in AllDiseaseGroups && d in AllDiseases
  {
  }
}
