/** The trial-success predictor: three clamped linear formulas in the match rate.
    The trial count is read by the source but no formula uses it.
 */
module TrialOutcome {
  import opened JsNumbers

  datatype Outcome = Outcome(completion: int, dropout: int, adverse: int)

  function Completion(matchRate: int): (c: int)
    ensures c <= 99
  {
    MinInt(99, Round(70.0 + (matchRate - 80) as real * 0.8))
  }

  function Dropout(matchRate: int): (d: int)
    ensures d >= 5
  {
    MaxInt(5, Round(30.0 - (matchRate - 80) as real * 0.5))
  }

  function Adverse(matchRate: int): (a: int)
    ensures a >= 8
  {
    MaxInt(8, Round(18.0 + (100 - matchRate) as real * 0.3))
  }

  function UpdateTrialSuccessPredictor(trialCount: int, matchRate: int): (o: Outcome)
    ensures o.completion <= 99 && o.dropout >= 5 && o.adverse >= 8
  {
    Outcome(Completion(matchRate), Dropout(matchRate), Adverse(matchRate))
  }

  /** A better match rate never lowers completion and never raises dropout or
      adverse-event risk. */
  lemma MonotoneInMatchRate(m1: int, m2: int)
    requires m1 <= m2
    ensures Completion(m1) <= Completion(m2)
    ensures Dropout(m2) <= Dropout(m1)
    ensures Adverse(m2) <= Adverse(m1)
  {
    RoundMonotone(70.0 + (m1 - 80) as real * 0.8, 70.0 + (m2 - 80) as real * 0.8);
    RoundMonotone(30.0 - (m2 - 80) as real * 0.5, 30.0 - (m1 - 80) as real * 0.5);
    RoundMonotone(18.0 + (100 - m2) as real * 0.3, 18.0 + (100 - m1) as real * 0.3);
  }

  /** The trial count does not influence the prediction. */
  lemma IndependentOfTrialCount(c1: int, c2: int, matchRate: int)
    ensures UpdateTrialSuccessPredictor(c1, matchRate) == UpdateTrialSuccessPredictor(c2, matchRate)
  {
  }

  /** The dropout floor binds only at high match rates: 20 at a rate of 100,
      5 at 130, and 70 unfloored at 0. */
  lemma DropoutFloorExamples()
    ensures Dropout(100) == 20 && Dropout(130) == 5 && Dropout(0) == 70
  {
    RoundWhole(20);
    RoundWhole(5);
    RoundWhole(70);
  }

  /** Completion reaches its cap of 99 from a match rate of 116 on. */
  lemma CompletionCapsAt116(matchRate: int)
    ensures Completion(matchRate) == 99 <==> matchRate >= 116
  {
    if matchRate >= 116 {
      RoundMonotone(98.5, 70.0 + (matchRate - 80) as real * 0.8);
      assert Round(98.5) == 99;
    } else {
      RoundMonotone(70.0 + (matchRate - 80) as real * 0.8, 98.0);
      RoundWhole(98);
    }
  }
}
