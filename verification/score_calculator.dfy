/** The linear predictor of the hospitalisation model.

    `LinearPredictor` is the closed-form definition: intercept, a cubic in age,
    one lookup per categorical field, set sums over medication groups and over
    the disease groups derived from the diseases, a cubic in the number of
    diseases, and, for female patients only, nine interaction terms.
    `CalculateLinearPredictor` follows the calculator step by step, iterating
    the sets in an arbitrary order, and is proved to compute the same value.
    All arithmetic is exact decimal arithmetic, modelled with `real`.
 */
module ScoreCalculator {
  import opened PrmData
  import opened Coefficients
  import opened Sums

  /** x raised to the n-th power, as the calculator's exact `pow`. */
  function Pow(x: real, n: nat): real {
    if n == 0 then 1.0 else x * Pow(x, n - 1)
  }

  /** The calculator's cubic term: x·c1 + x²·c2 + x³·c3. */
  function Cubic(x: real, c1: real, c2: real, c3: real): real {
    x * c1 + Pow(x, 2) * c2 + Pow(x, 3) * c3
  }

  function AgeTerm(age: real): real {
    Cubic(age, AgeCoefficient, AgeSqCoefficient, AgeCuCoefficient)
  }

  function DiseaseCountTerm(n: nat): real {
    Cubic(n as real, NumDiseasesCoefficient, NumDiseasesSqCoefficient, NumDiseasesCuCoefficient)
  }

  /** The age contribution is exactly the cubic polynomial in age, and the
      disease-count contribution the cubic polynomial in the count. */
  lemma CubicTerms(a: real, n: nat)
    ensures AgeTerm(a) == AgeCoefficient * a + AgeSqCoefficient * a * a + AgeCuCoefficient * a * a * a
    ensures DiseaseCountTerm(n) ==
      NumDiseasesCoefficient * (n as real) + NumDiseasesSqCoefficient * (n as real) * (n as real)
      + NumDiseasesCuCoefficient * (n as real) * (n as real) * (n as real)
  {
    SquareAndCube(a);
    SquareAndCube(n as real);
  }

  lemma SquareAndCube(x: real)
    ensures Pow(x, 2) == x * x && Pow(x, 3) == x * x * x
  {
    assert Pow(x, 1) == x;
    assert Pow(x, 2) == x * Pow(x, 1);
    assert Pow(x, 3) == x * Pow(x, 2);
  }

  /** The image of a set of diseases under the group table is no larger than it. */
  lemma {:induction false} GroupImageNoLarger(diseases: set<Disease>)
    ensures |set d | d in diseases :: d.Group()| <= |diseases|
  {
    if diseases != {} {
      var x :| x in diseases;
      var rest := diseases - {x};
      GroupImageNoLarger(rest);
      assert (set d | d in diseases :: d.Group()) == (set d | d in rest :: d.Group()) + {x.Group()};
    }
  }

  /** The set of groups of the given diseases, without duplicates. */
  function ExtractDiseaseGroups(diseases: set<Disease>): (groups: set<DiseaseGroup>)
    ensures forall g :: g in groups <==> exists d :: d in diseases && d.Group() == g
    ensures |groups| <= |diseases|
  {
    GroupImageNoLarger(diseases);
    set d | d in diseases :: d.Group()
  }

  /** Extraction distributes over union: it depends on each disease alone, so
      not on the order in which diseases were collected. */
  lemma ExtractDistributes(s1: set<Disease>, s2: set<Disease>)
    ensures ExtractDiseaseGroups(s1 + s2) == ExtractDiseaseGroups(s1) + ExtractDiseaseGroups(s2)
  {
  }

  /** Adding one disease adds exactly its group. */
  lemma ExtractInsert(diseases: set<Disease>, d: Disease)
    ensures ExtractDiseaseGroups(diseases + {d}) == ExtractDiseaseGroups(diseases) + {d.Group()}
  {
    ExtractDistributes(diseases, {d});
    assert ExtractDiseaseGroups({d}) == {d.Group()};
  }

  function MedicationTerm(meds: set<MedicationGroup>): real {
    SumOver(AllMedicationGroups, meds, MedicationCoefficient)
  }

  function GroupTerm(groups: set<DiseaseGroup>): real {
    SumOver(AllDiseaseGroups, groups, GroupCoefficient)
  }

  /** Female patients get one interaction coefficient per interaction group
      present; male patients get none. */
  function InteractionTerm(isFemale: bool, groups: set<DiseaseGroup>): real {
    if isFemale then SumOver(InteractionOrder, groups, InteractionCoefficient) else 0.0
  }

  function PathologyTerm(r: Record): real {
    PathologyCoefficient(Haemoglobin, r.haemoglobin)
    + PathologyCoefficient(Platelets, r.platelets)
    + PathologyCoefficient(AlanineAminotransferase, r.alanineAminotransferase)
    + PathologyCoefficient(GammaGT, r.gammaGT)
    + PathologyCoefficient(HbA1c, r.hbA1c)
    + PathologyCoefficient(Bilirubin, r.bilirubin)
    + PathologyCoefficient(Cholesterol, r.cholesterol)
    + PathologyCoefficient(Creatinine, r.creatinine)
    + PathologyCoefficient(Triglycerides, r.triglycerides)
    + PathologyCoefficient(AlbuminCreatinineRatio, r.albuminCreatinineRatio)
    + PathologyCoefficient(Ldl, r.ldl)
    + PathologyCoefficient(Egfr, r.eGfr)
    + PathologyCoefficient(BloodPressure, r.bloodPressure)
  }

  /** Sex, ethnicity, BMI, smoking, alcohol and IRSAD decile. */
  function DemographicTerm(r: Record): real {
    (if r.isFemale then FemaleCoefficient else 0.0)
    + EthnicityCoefficient(r.ethnicity)
    + BmiCoefficient(r.bmiCategory)
    + SmokingCoefficient(r.smokingStatus)
    + AlcoholCoefficient(r.alcoholStatus)
    + DecileCoefficient(r.irsadDecile)
  }

  /** Disease count, disease groups, and the female interaction terms. */
  function DiseaseTerm(isFemale: bool, diseases: set<Disease>): real {
    var groups := ExtractDiseaseGroups(diseases);
    DiseaseCountTerm(|diseases|) + GroupTerm(groups) + InteractionTerm(isFemale, groups)
  }

  /** The linear predictor of record r. */
  function LinearPredictor(r: Record): real {
    Intercept
    + AgeTerm(r.age)
    + DemographicTerm(r)
    + MedicationTerm(r.medicationGroups)
    + DiseaseTerm(r.isFemale, r.diseases)
    + PathologyTerm(r)
  }

  /** The canonical orders list each group once. */
  lemma UniversesDistinct()
    ensures Distinct(AllMedicationGroups) && Distinct(AllDiseaseGroups)
  {
  }

  /** A for-each loop over a set: adds f(x) once per member, visiting the
      members in an arbitrary order. */
  method AddEachMember<T(==)>(lp0: real, universe: seq<T>, s: set<T>, f: T -> real) returns (lp: real)
    requires Distinct(universe)
    requires forall x :: x in s ==> x in universe
    ensures lp == lp0 + SumOver(universe, s, f)
  {
    lp := lp0;
    var pending := s;
    SumOverEmpty(universe, f);
    assert s - pending == {};
    while pending != {}
      invariant pending <= s
      invariant lp == lp0 + SumOver(universe, s - pending, f)
      decreases pending
    {
      var x :| x in pending;
      SumOverInsert(universe, s - pending, x, f);
      assert (s - pending) + {x} == s - (pending - {x});
      lp := lp + f(x);
      pending := pending - {x};
    }
    assert s - pending == s;
  }

  /** The calculator's accumulation, step by step, in its order. */
  method CalculateLinearPredictor(data: Record) returns (lp: real)
    ensures lp == LinearPredictor(data)
  {
    UniversesDistinct();
    lp := Intercept;

    var age := data.age;
    lp := lp + age * AgeCoefficient;
    lp := lp + Pow(age, 2) * AgeSqCoefficient;
    lp := lp + Pow(age, 3) * AgeCuCoefficient;
    if data.isFemale {
      lp := lp + FemaleCoefficient;
    }
    lp := lp + EthnicityCoefficient(data.ethnicity);
    lp := lp + BmiCoefficient(data.bmiCategory);
    lp := lp + SmokingCoefficient(data.smokingStatus);
    lp := lp + AlcoholCoefficient(data.alcoholStatus);
    lp := lp + DecileCoefficient(data.irsadDecile);
    assert lp == Intercept + AgeTerm(data.age) + DemographicTerm(data);

    forall m | m in data.medicationGroups ensures m in AllMedicationGroups {
      EnumerationsComplete(m, DiseaseGroup.Other, Asthma);
    }
    lp := AddEachMember(lp, AllMedicationGroups, data.medicationGroups, MedicationCoefficient);

    var numDiseases := |data.diseases| as real;
    lp := lp + numDiseases * NumDiseasesCoefficient;
    lp := lp + Pow(numDiseases, 2) * NumDiseasesSqCoefficient;
    lp := lp + Pow(numDiseases, 3) * NumDiseasesCuCoefficient;

    var groups := ExtractDiseaseGroups(data.diseases);
    forall g | g in groups ensures g in AllDiseaseGroups {
      EnumerationsComplete(Statins, g, Asthma);
    }
    lp := AddEachMember(lp, AllDiseaseGroups, groups, GroupCoefficient);

    var before := lp;
    lp := lp + PathologyCoefficient(Haemoglobin, data.haemoglobin);
    lp := lp + PathologyCoefficient(Platelets, data.platelets);
    lp := lp + PathologyCoefficient(AlanineAminotransferase, data.alanineAminotransferase);
    lp := lp + PathologyCoefficient(GammaGT, data.gammaGT);
    lp := lp + PathologyCoefficient(HbA1c, data.hbA1c);
    lp := lp + PathologyCoefficient(Bilirubin, data.bilirubin);
    lp := lp + PathologyCoefficient(Cholesterol, data.cholesterol);
    lp := lp + PathologyCoefficient(Creatinine, data.creatinine);
    lp := lp + PathologyCoefficient(Triglycerides, data.triglycerides);
    lp := lp + PathologyCoefficient(AlbuminCreatinineRatio, data.albuminCreatinineRatio);
    lp := lp + PathologyCoefficient(Ldl, data.ldl);
    lp := lp + PathologyCoefficient(Egfr, data.eGfr);
    lp := lp + PathologyCoefficient(BloodPressure, data.bloodPressure);
    assert lp == before + PathologyTerm(data);
    lp := AddInteractions(lp, data.isFemale, groups);
  }

  /** The female interaction block: for a female patient, one membership test
      per interaction group, in the calculator's order. */
  method AddInteractions(lp0: real, isFemale: bool, groups: set<DiseaseGroup>) returns (lp: real)
    ensures lp == lp0 + InteractionTerm(isFemale, groups)
  {
    lp := lp0;
    if isFemale {
      var i := 0;
      while i < |InteractionOrder|
        invariant 0 <= i <= |InteractionOrder|
        invariant lp + SumOver(InteractionOrder[i..], groups, InteractionCoefficient)
                  == lp0 + SumOver(InteractionOrder, groups, InteractionCoefficient)
      {
        assert InteractionOrder[i..][1..] == InteractionOrder[i + 1..];
        var g := InteractionOrder[i];
        if g in groups {
          lp := lp + InteractionCoefficient(g);
        }
        i := i + 1;
      }
    }
  }
}
