/** The hospitalisation probability: the logistic transform of the linear
    predictor, exp(lp) / (1 + exp(lp)), divided exactly and rounded half up to
    eight decimal places.

    The exponential itself is floating-point library code; the model takes it
    as a parameter `exp` and asks only that the value it returns for the
    predictor be nonnegative, as every finite result of an exponential is.
 */
module PrmScore {
  import opened PrmData
  import opened ScoreCalculator
  import opened Rounding
  import opened Coefficients
  import opened PredictorProperties

  /** The exact logistic quotient e / (1 + e) of a nonnegative exponent. */
  function Logistic(e: real): (q: real)
    requires e >= 0.0
    ensures 0.0 <= q < 1.0
    ensures q * (1.0 + e) == e
  {
    e / (1.0 + e)
  }

  /** The quotient rounded to eight decimal places, half up. */
  function Probability(e: real): (p: real)
    requires e >= 0.0
    ensures 0.0 <= p <= 1.0
    ensures OnGrid(p)
    ensures Abs(p - e / (1.0 + e)) <= 0.5 / Scale
  {
    RoundHalfUpSpec(Logistic(e));
    RoundHalfUpMonotone(Logistic(e), 1.0);
    RoundHalfUpOnGrid(1.0);
    RoundHalfUp(Logistic(e))
  }

  /** Multiplying by a positive factor preserves order, both ways. */
  lemma ScaleOrder(a: real, b: real, f: real)
    requires f > 0.0
    ensures a <= b <==> a * f <= b * f
  {
    if a <= b {
      assert (b - a) * f >= 0.0;
    } else {
      assert (a - b) * f > 0.0;
    }
    assert (b - a) * f == b * f - a * f;
  }

  /** Comparing the quotient with a constant c is comparing e with c (1 + e). */
  lemma LogisticThreshold(e: real, c: real)
    requires e >= 0.0
    ensures Logistic(e) < c <==> e < c + c * e
  {
    ScaleOrder(c, Logistic(e), 1.0 + e);
    assert c * (1.0 + e) == c + c * e;
  }

  /** The quotient grows with the exponent. */
  lemma LogisticMonotone(e1: real, e2: real)
    requires 0.0 <= e1 <= e2
    ensures Logistic(e1) <= Logistic(e2)
  {
    var q1 := Logistic(e1);
    var q2 := Logistic(e2);
    // q = 1 - 1/(1 + e), and the reciprocal shrinks as e grows.
    assert q1 == 1.0 - 1.0 / (1.0 + e1);
    assert q2 == 1.0 - 1.0 / (1.0 + e2);
    assert 1.0 / (1.0 + e2) <= 1.0 / (1.0 + e1) by {
      var a := 1.0 / (1.0 + e1);
      var b := 1.0 / (1.0 + e2);
      assert b * (1.0 + e2) == 1.0 == a * (1.0 + e1);
      assert b * (1.0 + e1) <= b * (1.0 + e2);
    }
  }

  /** A larger exponent never gives a smaller probability. */
  lemma ProbabilityMonotone(e1: real, e2: real)
    requires 0.0 <= e1 <= e2
    ensures Probability(e1) <= Probability(e2)
  {
    LogisticMonotone(e1, e2);
    RoundHalfUpMonotone(Logistic(e1), Logistic(e2));
  }

  /** The threshold at which the quotient is within half a unit of one. */
  const SaturationThreshold: real := 199999999.0

  /** The probability reads exactly 1.00000000 precisely when the exponent is
      at least 199999999, i.e. when e / (1 + e) >= 1 - 5e-9. */
  lemma ProbabilitySaturates(e: real)
    requires e >= 0.0
    ensures Probability(e) == 1.0 <==> e >= SaturationThreshold
  {
    var k := (Logistic(e) * Scale + 0.5).Floor;
    assert Probability(e) == k as real / Scale;
    assert k <= 100000000;
    assert Probability(e) == 1.0 <==> Logistic(e) >= 0.999999995;
    LogisticThreshold(e, 0.999999995);
    assert Logistic(e) >= 0.999999995 <==> e >= 0.999999995 + 0.999999995 * e;
  }

  /** The probability reads exactly 0.00000000 precisely when the exponent is
      below 1 / 199999999, i.e. when e / (1 + e) < 5e-9. */
  lemma ProbabilityVanishes(e: real)
    requires e >= 0.0
    ensures Probability(e) == 0.0 <==> e < 1.0 / SaturationThreshold
  {
    var k := (Logistic(e) * Scale + 0.5).Floor;
    assert Probability(e) == k as real / Scale;
    assert Probability(e) == 0.0 <==> Logistic(e) < 0.000000005;
    LogisticThreshold(e, 0.000000005);
    assert Logistic(e) < 0.000000005 <==> e < 0.000000005 + 0.000000005 * e;
    assert e < 0.000000005 + 0.000000005 * e <==> e * SaturationThreshold < 1.0;
  }

  /** The score of a record: the probability of the exponent that `exp`
      returns for its linear predictor. */
  function Score(r: Record, exp: real -> real): (p: real)
    requires exp(LinearPredictor(r)) >= 0.0
    ensures 0.0 <= p <= 1.0
    ensures p == 1.0 <==> exp(LinearPredictor(r)) >= SaturationThreshold
  {
    ProbabilitySaturates(exp(LinearPredictor(r)));
    Probability(exp(LinearPredictor(r)))
  }

  /** The calculator's scoring step: compute the linear predictor, take its
      exponential, divide e by 1 + e to eight places rounding half up. */
  method CalculatePrmScore(data: Record, exp: real -> real) returns (p: real)
    requires exp(LinearPredictor(data)) >= 0.0
    ensures p == Score(data, exp)
    ensures 0.0 <= p <= 1.0
  {
    var lp := CalculateLinearPredictor(data);
    var exponent := exp(lp);
    p := RoundHalfUp(exponent / (1.0 + exponent));
  }

  /** A male patient at the reference of every field scores the rounded
      logistic of the intercept alone. */
  lemma ReferenceRecordProbability(r: Record, exp: real -> real)
    requires r.age == 0.0 && !r.isFemale && r.medicationGroups == {} && r.diseases == {}
    requires r.ethnicity == NonAtsi && r.bmiCategory == Bmi7To25 && r.smokingStatus == NonSmoker
    requires r.alcoholStatus == NonDrinker && r.irsadDecile == Five
    requires forall t: PathologyTest :: r.Pathology(t) == Low
    requires exp(LinearPredictor(r)) >= 0.0
    ensures LinearPredictor(r) == Intercept && Score(r, exp) == Probability(exp(Intercept))
  {
    ReferenceRecordScoresIntercept(r);
  }

  /** True when `exp` is nonnegative and nondecreasing, as the exponential is. */
  ghost predicate MonotoneExp(exp: real -> real) {
    (forall a :: exp(a) >= 0.0) && (forall a, b :: a <= b ==> exp(a) <= exp(b))
  }

  /** With a nondecreasing exponential, a record with a larger linear
      predictor never gets a smaller score. */
  lemma ScoreFollowsPredictor(r1: Record, r2: Record, exp: real -> real)
    requires MonotoneExp(exp)
    requires LinearPredictor(r1) <= LinearPredictor(r2)
    ensures Score(r1, exp) <= Score(r2, exp)
  {
    ProbabilityMonotone(exp(LinearPredictor(r1)), exp(LinearPredictor(r2)));
  }

  /** With a nondecreasing exponential, starting a medication whose
      coefficient is positive never lowers the score, and one whose
      coefficient is negative (statins) never raises it. */
  lemma MedicationMovesScore(r: Record, m: MedicationGroup, exp: real -> real)
    requires MonotoneExp(exp)
    ensures var r' := r.(medicationGroups := r.medicationGroups + {m});
      && (MedicationCoefficient(m) > 0.0 ==> Score(r, exp) <= Score(r', exp))
      && (MedicationCoefficient(m) < 0.0 ==> Score(r', exp) <= Score(r, exp))
  {
    var r' := r.(medicationGroups := r.medicationGroups + {m});
    MedicationAdded(r, m);
    if MedicationCoefficient(m) > 0.0 {
      ScoreFollowsPredictor(r, r', exp);
    } else {
      ScoreFollowsPredictor(r', r, exp);
    }
  }
}
