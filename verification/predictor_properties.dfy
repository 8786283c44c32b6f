/** Structural properties of the linear predictor: the all-reference record
    scores the intercept, each categorical field shifts the predictor by its
    own coefficient only, set-valued fields contribute per member exactly once,
    and the interaction terms appear only for female patients.
 */
module PredictorProperties {
  import opened PrmData
  import opened Coefficients
  import opened Sums
  import opened ScoreCalculator

  /** No diseases contribute nothing. */
  lemma EmptyDiseaseTerm(isFemale: bool)
    ensures DiseaseTerm(isFemale, {}) == 0.0
  {
    SumOverEmpty(AllDiseaseGroups, GroupCoefficient);
    SumOverEmpty(InteractionOrder, InteractionCoefficient);
    SquareAndCube(0.0);
    assert ExtractDiseaseGroups({}) == {};
  }

  /** A record without medications or diseases, at age 0, scores the
      intercept plus its demographic and pathology lookups. */
  lemma EmptyRecordPredictor(r: Record)
    requires r.age == 0.0 && r.medicationGroups == {} && r.diseases == {}
    ensures LinearPredictor(r) == Intercept + DemographicTerm(r) + PathologyTerm(r)
  {
    SumOverEmpty(AllMedicationGroups, MedicationCoefficient);
    SquareAndCube(0.0);
    EmptyDiseaseTerm(r.isFemale);
    assert AgeTerm(r.age) == 0.0;
    assert MedicationTerm(r.medicationGroups) == 0.0;
  }

  /** A record at age 0, with no medications or diseases, every categorical
      field at its reference variant and every pathology result LOW scores
      exactly the intercept, whatever its sex. */
  lemma ReferenceRecordScoresIntercept(r: Record)
    requires r.age == 0.0 && r.medicationGroups == {} && r.diseases == {}
    requires r.ethnicity == NonAtsi && r.bmiCategory == Bmi7To25 && r.smokingStatus == NonSmoker
    requires r.alcoholStatus == NonDrinker && r.irsadDecile == Five
    requires forall t: PathologyTest :: r.Pathology(t) == Low
    ensures LinearPredictor(r) == Intercept + (if r.isFemale then FemaleCoefficient else 0.0)
  {
    EmptyRecordPredictor(r);
    assert r.Pathology(Haemoglobin) == Low;
    assert r.Pathology(Platelets) == Low;
    assert r.Pathology(AlanineAminotransferase) == Low;
    assert r.Pathology(GammaGT) == Low;
    assert r.Pathology(HbA1c) == Low;
    assert r.Pathology(Bilirubin) == Low;
    assert r.Pathology(Cholesterol) == Low;
    assert r.Pathology(Creatinine) == Low;
    assert r.Pathology(Triglycerides) == Low;
    assert r.Pathology(AlbuminCreatinineRatio) == Low;
    assert r.Pathology(Ldl) == Low;
    assert r.Pathology(Egfr) == Low;
    assert r.Pathology(BloodPressure) == Low;
  }

  /** Every pathology test untested contributes the sum of the NO_TEST_HISTORY
      coefficients. */
  lemma UntestedPathologyTerm(r: Record)
    requires forall t: PathologyTest :: r.Pathology(t) == NoTestHistory
    ensures PathologyTerm(r) == 0.19345737
  {
    assert r.Pathology(Haemoglobin) == NoTestHistory;
    assert r.Pathology(Platelets) == NoTestHistory;
    assert r.Pathology(AlanineAminotransferase) == NoTestHistory;
    assert r.Pathology(GammaGT) == NoTestHistory;
    assert r.Pathology(HbA1c) == NoTestHistory;
    assert r.Pathology(Bilirubin) == NoTestHistory;
    assert r.Pathology(Cholesterol) == NoTestHistory;
    assert r.Pathology(Creatinine) == NoTestHistory;
    assert r.Pathology(Triglycerides) == NoTestHistory;
    assert r.Pathology(AlbuminCreatinineRatio) == NoTestHistory;
    assert r.Pathology(Ldl) == NoTestHistory;
    assert r.Pathology(Egfr) == NoTestHistory;
    assert r.Pathology(BloodPressure) == NoTestHistory;
  }

  /** A freshly constructed record scores the intercept plus the coefficients
      of the UNKNOWN, NOT_RECORDED and NO_TEST_HISTORY variants. */
  lemma NewRecordPredictor()
    ensures LinearPredictor(NewRecord()) == -2.54938769
  {
    var r := NewRecord();
    EmptyRecordPredictor(r);
    UntestedPathologyTerm(r);
    assert DemographicTerm(r) == 0.01230294;
  }

  /** The fields looked up in a per-variant coefficient table. */
  predicate IsCategoricalField(f: Field) {
    !(f.AgeField? || f.IsFemaleField? || f.MedicationsField? || f.DiseasesField?)
  }

  /** The coefficient the calculator adds for a categorical value. */
  function CategoricalCoefficient(v: Value): real
    requires IsCategoricalField(v.FieldOf())
  {
    match v
    case EthnicityValue(e) => EthnicityCoefficient(e)
    case BmiValue(b) => BmiCoefficient(b)
    case SmokingValue(s) => SmokingCoefficient(s)
    case AlcoholValue(a) => AlcoholCoefficient(a)
    case DecileValue(d) => DecileCoefficient(d)
    case PathologyValue(t, c) => PathologyCoefficient(t, c)
  }

  /** The reference variant of a categorical field. */
  function ReferenceValue(f: Field): (v: Value)
    requires IsCategoricalField(f)
    ensures v.FieldOf() == f
    ensures CategoricalCoefficient(v) == 0.0
  {
    match f
    case EthnicityField => EthnicityValue(NonAtsi)
    case BmiField => BmiValue(Bmi7To25)
    case SmokingField => SmokingValue(NonSmoker)
    case AlcoholField => AlcoholValue(NonDrinker)
    case DecileField => DecileValue(Five)
    case PathologyField(t) => PathologyValue(t, Low)
  }

  /** Records that agree on age, sex, medications and diseases differ in their
      predictors only by their demographic and pathology lookups. */
  lemma LookupsOnlyDiffer(r1: Record, r0: Record)
    requires r1.age == r0.age && r1.isFemale == r0.isFemale
    requires r1.medicationGroups == r0.medicationGroups && r1.diseases == r0.diseases
    ensures LinearPredictor(r1) - LinearPredictor(r0)
            == (DemographicTerm(r1) - DemographicTerm(r0)) + (PathologyTerm(r1) - PathologyTerm(r0))
  {
    assert MedicationTerm(r1.medicationGroups) == MedicationTerm(r0.medicationGroups);
    assert DiseaseTerm(r1.isFemale, r1.diseases) == DiseaseTerm(r0.isFemale, r0.diseases);
  }

  /** Changing one pathology result from LOW to c adds exactly c's coefficient. */
  lemma PathologyShift(r: Record, t: PathologyTest, c: PathologyCategory)
    ensures PathologyTerm(SetPathology(r, t, c))
            == PathologyTerm(SetPathology(r, t, Low)) + PathologyCoefficient(t, c)
  {
    var r1 := SetPathology(r, t, c);
    var r0 := SetPathology(r, t, Low);
    forall u | u != t ensures r1.Pathology(u) == r0.Pathology(u) { }
  }

  /** Moving one categorical field from its reference variant to v shifts the
      predictor by exactly v's coefficient, whatever the rest of the record. */
  lemma CategoricalShift(r: Record, v: Value)
    requires IsCategoricalField(v.FieldOf())
    ensures LinearPredictor(Set(r, v))
            == LinearPredictor(Set(r, ReferenceValue(v.FieldOf()))) + CategoricalCoefficient(v)
  {
    var r1 := Set(r, v);
    var r0 := Set(r, ReferenceValue(v.FieldOf()));
    LookupsOnlyDiffer(r1, r0);
    if v.PathologyValue? {
      PathologyShift(r, v.test, v.category);
      assert DemographicTerm(r1) == DemographicTerm(r0);
    } else {
      assert PathologyTerm(r1) == PathologyTerm(r0);
    }
  }

  /** For bilirubin, creatinine and triglycerides a MED result scores as HIGH;
      for every other test it does not. */
  lemma MergedCategoriesInPredictor(r: Record, t: PathologyTest)
    ensures t in MergedTests <==>
      LinearPredictor(Set(r, PathologyValue(t, Med))) == LinearPredictor(Set(r, PathologyValue(t, High)))
  {
    CategoricalShift(r, PathologyValue(t, Med));
    CategoricalShift(r, PathologyValue(t, High));
    MergedCategories(t);
  }

  /** For platelets a MED result scores as LOW. */
  lemma PlateletsMedInPredictor(r: Record)
    ensures LinearPredictor(Set(r, PathologyValue(Platelets, Med)))
            == LinearPredictor(Set(r, PathologyValue(Platelets, Low)))
  {
    CategoricalShift(r, PathologyValue(Platelets, Med));
    CategoricalShift(r, PathologyValue(Platelets, Low));
  }

  /** Records that differ only in age differ in their predictors only by the
      age terms. */
  lemma AgeOnlyDiffers(r1: Record, r0: Record)
    requires r1 == r0.(age := r1.age)
    ensures LinearPredictor(r1) - LinearPredictor(r0) == AgeTerm(r1.age) - AgeTerm(r0.age)
  {
    assert DemographicTerm(r1) == DemographicTerm(r0);
    assert MedicationTerm(r1.medicationGroups) == MedicationTerm(r0.medicationGroups);
    assert DiseaseTerm(r1.isFemale, r1.diseases) == DiseaseTerm(r0.isFemale, r0.diseases);
    assert PathologyTerm(r1) == PathologyTerm(r0);
  }

  /** The age contribution is the closed-form cubic in age. */
  lemma AgeContribution(r: Record, a: real)
    ensures LinearPredictor(r.(age := a)) == LinearPredictor(r.(age := 0.0))
            + AgeCoefficient * a + AgeSqCoefficient * a * a + AgeCuCoefficient * a * a * a
  {
    AgeOnlyDiffers(r.(age := a), r.(age := 0.0));
    CubicTerms(a, 0);
    CubicTerms(0.0, 0);
  }

  /** Records that differ only in their medications differ in their
      predictors only by the medication sums. */
  lemma MedicationsOnlyDiffer(r1: Record, r0: Record)
    requires r1 == r0.(medicationGroups := r1.medicationGroups)
    ensures LinearPredictor(r1) - LinearPredictor(r0)
            == MedicationTerm(r1.medicationGroups) - MedicationTerm(r0.medicationGroups)
  {
    assert DemographicTerm(r1) == DemographicTerm(r0);
    assert DiseaseTerm(r1.isFemale, r1.diseases) == DiseaseTerm(r0.isFemale, r0.diseases);
    assert PathologyTerm(r1) == PathologyTerm(r0);
  }

  /** Adding a medication group adds its coefficient once; adding one already
      present changes nothing. */
  lemma MedicationTermInsert(meds: set<MedicationGroup>, m: MedicationGroup)
    ensures MedicationTerm(meds + {m})
            == MedicationTerm(meds) + (if m in meds then 0.0 else MedicationCoefficient(m))
  {
    if m !in meds {
      UniversesDistinct();
      EnumerationsComplete(m, DiseaseGroup.Other, Asthma);
      SumOverInsert(AllMedicationGroups, meds, m, MedicationCoefficient);
    } else {
      assert meds + {m} == meds;
    }
  }

  /** Adding a medication group to a record adds its coefficient once; adding
      one already present changes nothing. */
  lemma MedicationAdded(r: Record, m: MedicationGroup)
    ensures LinearPredictor(r.(medicationGroups := r.medicationGroups + {m}))
            == LinearPredictor(r) + (if m in r.medicationGroups then 0.0 else MedicationCoefficient(m))
  {
    MedicationsOnlyDiffer(r.(medicationGroups := r.medicationGroups + {m}), r);
    MedicationTermInsert(r.medicationGroups, m);
  }

  /** The interaction groups are listed once each in the calculator's order. */
  lemma InteractionOrderDistinct()
    ensures Distinct(InteractionOrder)
    ensures Elements(InteractionOrder) == InteractionGroups
  {
    forall i | 0 <= i < |InteractionOrder| ensures InteractionOrder[i] in Elements(InteractionOrder) { }
    assert InteractionGroups <= Elements(InteractionOrder) by {
      forall g | g in InteractionGroups ensures g in Elements(InteractionOrder) {
        assert InteractionOrder[0] == DiseaseGroup.Cardiovascular;
        assert InteractionOrder[1] == DiseaseGroup.Respiratory;
        assert InteractionOrder[2] == DiseaseGroup.DiabetesType1;
        assert InteractionOrder[3] == DiseaseGroup.Other;
        assert InteractionOrder[4] == DiseaseGroup.Osteoporosis;
        assert InteractionOrder[5] == DiseaseGroup.ChronicKidney;
        assert InteractionOrder[6] == DiseaseGroup.MentalHealth;
        assert InteractionOrder[7] == DiseaseGroup.Hypertension;
        assert InteractionOrder[8] == DiseaseGroup.DiabetesType2;
      }
    }
  }

  /** Records that differ only in their diseases differ in their predictors
      only by the disease terms. */
  lemma DiseasesOnlyDiffer(r1: Record, r0: Record)
    requires r1 == r0.(diseases := r1.diseases)
    ensures LinearPredictor(r1) - LinearPredictor(r0)
            == DiseaseTerm(r1.isFemale, r1.diseases) - DiseaseTerm(r0.isFemale, r0.diseases)
  {
    assert DemographicTerm(r1) == DemographicTerm(r0);
    assert PathologyTerm(r1) == PathologyTerm(r0);
  }

  /** Adding a group not yet present to the interaction sum adds its
      interaction coefficient, which is zero outside the interaction groups. */
  lemma InteractionInsert(groups: set<DiseaseGroup>, g: DiseaseGroup)
    requires g !in groups
    ensures SumOver(InteractionOrder, groups + {g}, InteractionCoefficient)
            == SumOver(InteractionOrder, groups, InteractionCoefficient)
               + (if g in InteractionGroups then InteractionCoefficient(g) else 0.0)
  {
    InteractionOrderDistinct();
    if g in InteractionGroups {
      assert g in Elements(InteractionOrder);
      SumOverInsert(InteractionOrder, groups, g, InteractionCoefficient);
    } else {
      forall x | x in InteractionOrder ensures x in groups + {g} <==> x in groups {
        assert x in Elements(InteractionOrder);
      }
      SumOverAgree(InteractionOrder, groups + {g}, groups, InteractionCoefficient);
    }
  }

  /** Adding a group not yet present adds its group coefficient. */
  lemma GroupTermInsert(groups: set<DiseaseGroup>, g: DiseaseGroup)
    requires g !in groups
    ensures GroupTerm(groups + {g}) == GroupTerm(groups) + GroupCoefficient(g)
  {
    UniversesDistinct();
    EnumerationsComplete(Statins, g, Asthma);
    SumOverInsert(AllDiseaseGroups, groups, g, GroupCoefficient);
  }

  /** Adding a new disease always moves the disease-count cubic; it adds a
      group coefficient (and, for a female patient, an interaction coefficient)
      only when its group was not already present. */
  lemma DiseaseTermInsert(isFemale: bool, diseases: set<Disease>, d: Disease)
    requires d !in diseases
    ensures
      var groups := ExtractDiseaseGroups(diseases);
      var g := d.Group();
      var n := |diseases|;
      DiseaseTerm(isFemale, diseases + {d})
      == DiseaseTerm(isFemale, diseases) + DiseaseCountTerm(n + 1) - DiseaseCountTerm(n)
         + (if g in groups then 0.0
            else GroupCoefficient(g)
                 + (if isFemale && g in InteractionGroups then InteractionCoefficient(g) else 0.0))
  {
    var groups := ExtractDiseaseGroups(diseases);
    var g := d.Group();
    var groups' := ExtractDiseaseGroups(diseases + {d});
    var n := |diseases|;
    assert |diseases + {d}| == n + 1;
    assert DiseaseTerm(isFemale, diseases + {d})
           == DiseaseCountTerm(n + 1) + GroupTerm(groups') + InteractionTerm(isFemale, groups');
    assert DiseaseTerm(isFemale, diseases)
           == DiseaseCountTerm(n) + GroupTerm(groups) + InteractionTerm(isFemale, groups);
    ExtractInsert(diseases, d);
    if g !in groups {
      GroupTermInsert(groups, g);
      InteractionInsert(groups, g);
      assert groups' == groups + {g};
    } else {
      assert groups' == groups;
    }
  }

  /** The disease-insertion property for a whole record. */
  lemma DiseaseAdded(r: Record, d: Disease)
    requires d !in r.diseases
    ensures
      var groups := ExtractDiseaseGroups(r.diseases);
      var g := d.Group();
      var n := |r.diseases|;
      LinearPredictor(r.(diseases := r.diseases + {d}))
      == LinearPredictor(r) + DiseaseCountTerm(n + 1) - DiseaseCountTerm(n)
         + (if g in groups then 0.0
            else GroupCoefficient(g)
                 + (if r.isFemale && g in InteractionGroups then InteractionCoefficient(g) else 0.0))
  {
    DiseasesOnlyDiffer(r.(diseases := r.diseases + {d}), r);
    DiseaseTermInsert(r.isFemale, r.diseases, d);
  }

  /** Switching a patient from male to female adds the sex coefficient plus
      the interaction coefficient of every interaction group present; a male
      patient's predictor holds no interaction term. */
  lemma FemaleInteractions(r: Record)
    ensures LinearPredictor(r.(isFemale := true))
            == LinearPredictor(r.(isFemale := false)) + FemaleCoefficient
               + SumOver(InteractionOrder, ExtractDiseaseGroups(r.diseases), InteractionCoefficient)
  {
    var r1 := r.(isFemale := true);
    var r0 := r.(isFemale := false);
    assert DemographicTerm(r1) == DemographicTerm(r0) + FemaleCoefficient;
    assert PathologyTerm(r1) == PathologyTerm(r0);
    assert MedicationTerm(r1.medicationGroups) == MedicationTerm(r0.medicationGroups);
  }

  /** The medication and disease-group sums do not depend on the order in
      which the calculator's loop visits the set. */
  lemma SetSumsIgnoreIterationOrder(medOrder: seq<MedicationGroup>, groupOrder: seq<DiseaseGroup>)
    requires Distinct(medOrder) && Distinct(groupOrder)
    ensures SeqSum(medOrder, MedicationCoefficient) == MedicationTerm(Elements(medOrder))
    ensures SeqSum(groupOrder, GroupCoefficient) == GroupTerm(Elements(groupOrder))
  {
    UniversesDistinct();
    forall m | m in medOrder ensures m in AllMedicationGroups {
      EnumerationsComplete(m, DiseaseGroup.Other, Asthma);
    }
    forall g | g in groupOrder ensures g in AllDiseaseGroups {
      EnumerationsComplete(Statins, g, Asthma);
    }
    IterationOrderIrrelevant(AllMedicationGroups, medOrder, MedicationCoefficient);
    IterationOrderIrrelevant(AllDiseaseGroups, groupOrder, GroupCoefficient);
  }
}
