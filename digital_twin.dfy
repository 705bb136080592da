/** The patient digital twin: an additive risk score from the patient profile,
    three base percentages derived from it, and a bounded random jitter before
    the values are clamped and rounded for display.
 */
module DigitalTwin {
  import opened JsNumbers

  /** The value of the genetics selector. */
  datatype Genetics = LowGenetics | MediumGenetics | HighGenetics

  datatype Profile = Profile(age: int, vitals: int, genetics: Genetics,
                             diabetes: bool, hypertension: bool, cardio: bool)

  /** The three displayed percentages. */
  datatype Prediction = Prediction(survival: int, response: int, sideEffects: int)

  function AgeRisk(age: int): real
  {
    (if age > 60 then 2.0 else 0.0) + (if age > 75 then 2.0 else 0.0)
  }

  function ComorbidityRisk(diabetes: bool, hypertension: bool, cardio: bool): real
  {
    (if diabetes then 1.5 else 0.0) + (if hypertension then 1.5 else 0.0) + (if cardio then 2.0 else 0.0)
  }

  function GeneticsRisk(g: Genetics): real
  {
    match g
    case LowGenetics => 0.0
    case MediumGenetics => 1.0
    case HighGenetics => 2.5
  }

  /** Part of the score that comes from the vitals reading: worse vitals, more risk. */
  function VitalsRisk(vitals: int): real
  {
    (100 - vitals) as real / 40.0
  }

  /** Reference definition: the score is the sum of independent contributions. */
  function RiskScoreOf(p: Profile): real
  {
    AgeRisk(p.age) + ComorbidityRisk(p.diabetes, p.hypertension, p.cardio)
    + GeneticsRisk(p.genetics) + VitalsRisk(p.vitals)
  }

  /** Accumulates the risk score one factor at a time. */
  method RiskScore(p: Profile) returns (riskScore: real)
    ensures riskScore == RiskScoreOf(p)
    ensures 0.0 <= riskScore - VitalsRisk(p.vitals) <= 11.5
  {
    riskScore := 0.0;
    if p.age > 60 { riskScore := riskScore + 2.0; }
    if p.age > 75 { riskScore := riskScore + 2.0; }
    if p.diabetes { riskScore := riskScore + 1.5; }
    if p.hypertension { riskScore := riskScore + 1.5; }
    if p.cardio { riskScore := riskScore + 2.0; }
    if p.genetics == MediumGenetics { riskScore := riskScore + 1.0; }
    if p.genetics == HighGenetics { riskScore := riskScore + 2.5; }
    riskScore := riskScore + VitalsRisk(p.vitals);
  }

  function BaseSurvival(riskScore: real): (s: real)
    ensures s >= 40.0
  {
    MaxReal(40.0, 98.0 - riskScore * 6.0)
  }

  function BaseResponse(riskScore: real, vitals: int): (r: real)
    ensures r >= 25.0
  {
    MaxReal(25.0, 90.0 - riskScore * 4.0 + vitals as real / 6.0)
  }

  function BaseSideEffect(riskScore: real): (e: real)
    ensures e <= 95.0
  {
    MinReal(95.0, 15.0 + riskScore * 7.0)
  }

  /** `(Math.random() - 0.5) * 4`: a shift within [-2, 2). */
  function Jitter(r: Draw): (j: real)
    ensures -2.0 <= j < 2.0
  {
    (r - 0.5) * 4.0
  }

  /** Clamps to [0, 99] and rounds, as the display does. */
  function Displayed(x: real): (n: int)
    ensures 0 <= n <= 99
  {
    var c := MaxReal(0.0, MinReal(99.0, x));
    RoundBetweenWhole(c, 0, 99);
    Round(c)
  }

  /** Runs one simulation: the score, the base values, then one jitter draw per
      output. Whatever the draws, every output is in [0, 99], survival stays at
      least 38, response at least 23 and side effects at most 97. */
  method RunDigitalTwinSimulation(p: Profile, survivalDraw: Draw, responseDraw: Draw, sideDraw: Draw)
    returns (prediction: Prediction)
    ensures prediction.survival == Displayed(BaseSurvival(RiskScoreOf(p)) + Jitter(survivalDraw))
    ensures prediction.response == Displayed(BaseResponse(RiskScoreOf(p), p.vitals) + Jitter(responseDraw))
    ensures prediction.sideEffects == Displayed(BaseSideEffect(RiskScoreOf(p)) + Jitter(sideDraw))
    ensures 38 <= prediction.survival <= 99
    ensures 23 <= prediction.response <= 99
    ensures 0 <= prediction.sideEffects <= 97
  {
    var riskScore := RiskScore(p);
    var survivalProb := BaseSurvival(riskScore);
    var responseProb := BaseResponse(riskScore, p.vitals);
    var sideEffectRisk := BaseSideEffect(riskScore);
    survivalProb := survivalProb + Jitter(survivalDraw);
    responseProb := responseProb + Jitter(responseDraw);
    sideEffectRisk := sideEffectRisk + Jitter(sideDraw);
    DisplayedAtLeast(survivalProb, 38);
    DisplayedAtLeast(responseProb, 23);
    DisplayedAtMost(sideEffectRisk, 97);
    prediction := Prediction(Displayed(survivalProb), Displayed(responseProb), Displayed(sideEffectRisk));
  }

  /** A value of at least `lo` (within [0, 99]) is displayed as at least `lo`. */
  lemma DisplayedAtLeast(x: real, lo: int)
    requires 0 <= lo <= 99 && x >= lo as real
    ensures Displayed(x) >= lo
  {
    var c := MaxReal(0.0, MinReal(99.0, x));
    RoundBetweenWhole(c, lo, 99);
  }

  /** A value of at most `hi` (within [0, 99]) is displayed as at most `hi`. */
  lemma DisplayedAtMost(x: real, hi: int)
    requires 0 <= hi <= 99 && x <= hi as real
    ensures Displayed(x) <= hi
  {
    var c := MaxReal(0.0, MinReal(99.0, x));
    RoundBetweenWhole(c, 0, hi);
  }

  /** A higher score never raises survival or response and never lowers the
      side-effect risk. */
  lemma BaseValuesFollowRisk(s1: real, s2: real, vitals: int)
    requires s1 <= s2
    ensures BaseSurvival(s2) <= BaseSurvival(s1)
    ensures BaseResponse(s2, vitals) <= BaseResponse(s1, vitals)
    ensures BaseSideEffect(s1) <= BaseSideEffect(s2)
  {
  }

  /** An older patient, an extra comorbidity or a riskier genetics never lower
      the score; better vitals never raise it. */
  lemma RiskScoreMonotone(p: Profile, q: Profile)
    requires p.age <= q.age && q.vitals <= p.vitals
    requires (p.diabetes ==> q.diabetes) && (p.hypertension ==> q.hypertension) && (p.cardio ==> q.cardio)
    requires GeneticsRisk(p.genetics) <= GeneticsRisk(q.genetics)
    ensures RiskScoreOf(p) <= RiskScoreOf(q)
  {
  }

  /** The displayed survival is non-increasing in age for the same draw. */
  lemma SurvivalNonIncreasingInAge(p: Profile, olderAge: int, r: Draw)
    requires p.age <= olderAge
    ensures Displayed(BaseSurvival(RiskScoreOf(p.(age := olderAge))) + Jitter(r))
            <= Displayed(BaseSurvival(RiskScoreOf(p)) + Jitter(r))
  {
    var q := p.(age := olderAge);
    RiskScoreMonotone(p, q);
    BaseValuesFollowRisk(RiskScoreOf(p), RiskScoreOf(q), p.vitals);
    DisplayedMonotone(BaseSurvival(RiskScoreOf(q)) + Jitter(r), BaseSurvival(RiskScoreOf(p)) + Jitter(r));
  }

  /** Clamping and rounding keep the order of two values. */
  lemma DisplayedMonotone(x: real, y: real)
    requires x <= y
    ensures Displayed(x) <= Displayed(y)
  {
    RoundMonotone(MaxReal(0.0, MinReal(99.0, x)), MaxReal(0.0, MinReal(99.0, y)));
  }
}
