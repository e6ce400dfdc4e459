/**
 * `calculateABTestSignificance` of src/utils/ml-utils.ts: a two-proportion
 * z-test between a control and a variant, turned into a coarse confidence
 * level, a significance flag and the relative improvement of the variant.
 *
 * The source computes in IEEE doubles. The model computes exactly on
 * rationals and keeps the non-finite outcomes the source can reach: a zero
 * user count or a rate above 1 makes the z-score NaN, and a zero standard
 * error with a nonzero difference makes it +Infinity. The square root is
 * never taken: for a positive variance `v` and a positive threshold `t`,
 * `|d| / sqrt(v) > t` holds exactly when `d * d > t * t * v`.
 */
module ABTesting {

  /** The z-score `|d| / sqrt(v)` of the source, kept as `d * d` and `v`. */
  datatype ZScore =
    | NaN                              // a NaN rate, a NaN standard error or 0 / 0
    | PosInfinity                      // a nonzero difference over a zero standard error
    | Ratio(dSquared: real, v: real)   // the finite case, with v > 0

  /** A JavaScript number that may not be finite. */
  datatype Num = Finite(value: real) | PosInfinityNum | NaNNum

  datatype ABTestResult = ABTestResult(significant: bool, confidenceLevel: nat, relativeImprovement: Num)

  /** `zScore > t`; every comparison with NaN is false. */
  predicate Above(z: ZScore, t: real)
  {
    match z
    case NaN => false
    case PosInfinity => true
    case Ratio(dSquared, v) => dSquared > t * t * v
  }

  /** The z-score of the source, for user and conversion counts. */
  function ZScoreOf(controlUsers: nat, controlConversions: nat, variantUsers: nat, variantConversions: nat): (z: ZScore)
    ensures z.Ratio? ==> z.v > 0.0 && z.dSquared >= 0.0
  {
    if controlUsers == 0 || variantUsers == 0 then NaN
    else
      var controlRate := controlConversions as real / controlUsers as real;
      var variantRate := variantConversions as real / variantUsers as real;
      var controlVar := controlRate * (1.0 - controlRate) / controlUsers as real;
      var variantVar := variantRate * (1.0 - variantRate) / variantUsers as real;
      var d := variantRate - controlRate;
      if controlVar < 0.0 || variantVar < 0.0 then NaN
      else if controlVar + variantVar == 0.0 then (if d == 0.0 then NaN else PosInfinity)
      else Ratio(d * d, controlVar + variantVar)
  }

  /** The chain of strict thresholds that turns a z-score into a confidence level. */
  function ConfidenceLevel(z: ZScore): (r: nat)
    ensures r in {70, 80, 90, 95, 99}
  {
    if Above(z, 2.576) then 99
    else if Above(z, 1.96) then 95
    else if Above(z, 1.645) then 90
    else if Above(z, 1.28) then 80
    else 70
  }

  /** `((variantRate - controlRate) / controlRate) * 100`, with its non-finite cases. */
  function RelativeImprovement(controlUsers: nat, controlConversions: nat, variantUsers: nat, variantConversions: nat): (r: Num)
    ensures r.Finite? <==> controlUsers > 0 && variantUsers > 0 && controlConversions > 0
    ensures r == NaNNum <==>
              controlUsers == 0
              || (variantUsers == 0 && variantConversions == 0)
              || (variantUsers > 0 && controlConversions == 0 && variantConversions == 0)
  {
    if controlUsers == 0 then NaNNum            // NaN or +Infinity over NaN or +Infinity
    else if variantUsers == 0 then
      (if variantConversions == 0 then NaNNum else PosInfinityNum)
    else if controlConversions == 0 then
      (if variantConversions == 0 then NaNNum else PosInfinityNum)
    else
      var controlRate := controlConversions as real / controlUsers as real;
      var variantRate := variantConversions as real / variantUsers as real;
      Finite((variantRate - controlRate) / controlRate * 100.0)
  }

  /** `calculateABTestSignificance`. */
  function CalculateABTestSignificance(controlUsers: nat, controlConversions: nat,
                                       variantUsers: nat, variantConversions: nat): (r: ABTestResult)
    ensures r.confidenceLevel in {70, 80, 90, 95, 99}
  {
    var level := ConfidenceLevel(ZScoreOf(controlUsers, controlConversions, variantUsers, variantConversions));
    ABTestResult(level >= 95, level, RelativeImprovement(controlUsers, controlConversions, variantUsers, variantConversions))
  }

  // ---------------------------------------------------------------------------
  // Properties

  /** Passing a higher threshold implies passing a lower one. */
  lemma AboveMonotone(z: ZScore, lo: real, hi: real)
    requires 0.0 <= lo <= hi
    requires z.Ratio? ==> z.v > 0.0
    requires Above(z, hi)
    ensures Above(z, lo)
  {
    if z.Ratio? {
      assert lo * lo <= hi * hi by {
        assert lo * lo <= lo * hi <= hi * hi;
      }
      assert lo * lo * z.v <= hi * hi * z.v;
    }
  }

  /** Each level is reached exactly when the z-score passes its threshold. */
  lemma LevelBands(z: ZScore)
    requires z.Ratio? ==> z.v > 0.0
    ensures ConfidenceLevel(z) == 99 <==> Above(z, 2.576)
    ensures ConfidenceLevel(z) >= 95 <==> Above(z, 1.96)
    ensures ConfidenceLevel(z) >= 90 <==> Above(z, 1.645)
    ensures ConfidenceLevel(z) >= 80 <==> Above(z, 1.28)
  {
    if Above(z, 2.576) {
      AboveMonotone(z, 1.96, 2.576);
    }
    if Above(z, 1.96) {
      AboveMonotone(z, 1.645, 1.96);
    }
    if Above(z, 1.645) {
      AboveMonotone(z, 1.28, 1.645);
    }
  }

  /** The result is significant exactly when the z-score exceeds 1.96. */
  lemma SignificantIff(controlUsers: nat, controlConversions: nat, variantUsers: nat, variantConversions: nat)
    ensures CalculateABTestSignificance(controlUsers, controlConversions, variantUsers, variantConversions).significant
        <==> Above(ZScoreOf(controlUsers, controlConversions, variantUsers, variantConversions), 1.96)
  {
    LevelBands(ZScoreOf(controlUsers, controlConversions, variantUsers, variantConversions));
  }

  /** A larger squared difference over the same variance never lowers the level. */
  lemma LevelMonotone(d1: real, d2: real, v: real)
    requires 0.0 <= d1 <= d2 && v > 0.0
    ensures ConfidenceLevel(Ratio(d1, v)) <= ConfidenceLevel(Ratio(d2, v))
  {
    LevelBands(Ratio(d1, v));
    LevelBands(Ratio(d2, v));
  }

  /** Without users on either side the z-score is NaN: level 70, not significant. */
  lemma NoUsers(controlUsers: nat, controlConversions: nat, variantUsers: nat, variantConversions: nat)
    requires controlUsers == 0 || variantUsers == 0
    ensures var r := CalculateABTestSignificance(controlUsers, controlConversions, variantUsers, variantConversions);
            r.confidenceLevel == 70 && !r.significant
  {
  }

  /** Equal conversion rates give level 70, no significance and no improvement. */
  lemma EqualRates(controlUsers: nat, controlConversions: nat, variantUsers: nat, variantConversions: nat)
    requires controlUsers > 0 && variantUsers > 0 && controlConversions > 0
    requires controlConversions * variantUsers == variantConversions * controlUsers
    ensures var r := CalculateABTestSignificance(controlUsers, controlConversions, variantUsers, variantConversions);
            r.confidenceLevel == 70 && !r.significant && r.relativeImprovement == Finite(0.0)
  {
    var cr := controlConversions as real / controlUsers as real;
    var vr := variantConversions as real / variantUsers as real;
    assert cr == vr by {
      assert (controlConversions * variantUsers) as real == (variantConversions * controlUsers) as real;
    }
  }

  /** The improvement is positive, zero or negative as the variant's rate is above, at or below the control's. */
  lemma ImprovementSign(controlUsers: nat, controlConversions: nat, variantUsers: nat, variantConversions: nat)
    requires controlUsers > 0 && variantUsers > 0 && controlConversions > 0
    ensures var r := RelativeImprovement(controlUsers, controlConversions, variantUsers, variantConversions);
            var lift := variantConversions * controlUsers - controlConversions * variantUsers;
            r.Finite? && (r.value > 0.0 <==> lift > 0) && (r.value < 0.0 <==> lift < 0)
  {
    var cu, cc := controlUsers as real, controlConversions as real;
    var vu, vc := variantUsers as real, variantConversions as real;
    var cr, vr := cc / cu, vc / vu;
    assert cr > 0.0;
    assert vr - cr == (vc * cu - cc * vu) / (cu * vu);
    assert (variantConversions * controlUsers - controlConversions * variantUsers) as real == vc * cu - cc * vu;
  }

  /** Swapping control and variant changes neither the level nor the significance. */
  lemma Symmetric(controlUsers: nat, controlConversions: nat, variantUsers: nat, variantConversions: nat)
    ensures ZScoreOf(controlUsers, controlConversions, variantUsers, variantConversions)
         == ZScoreOf(variantUsers, variantConversions, controlUsers, controlConversions)
    ensures CalculateABTestSignificance(controlUsers, controlConversions, variantUsers, variantConversions).confidenceLevel
         == CalculateABTestSignificance(variantUsers, variantConversions, controlUsers, controlConversions).confidenceLevel
  {
    if controlUsers > 0 && variantUsers > 0 {
      var cr := controlConversions as real / controlUsers as real;
      var vr := variantConversions as real / variantUsers as real;
      assert (vr - cr) * (vr - cr) == (cr - vr) * (cr - vr);
    }
  }

  /** No control conversion against a variant that converts everyone: +Infinity, level 99. */
  lemma PerfectSeparation(controlUsers: nat, variantUsers: nat)
    requires controlUsers > 0 && variantUsers > 0
    ensures ZScoreOf(controlUsers, 0, variantUsers, variantUsers) == PosInfinity
    ensures var r := CalculateABTestSignificance(controlUsers, 0, variantUsers, variantUsers);
            r.confidenceLevel == 99 && r.significant && r.relativeImprovement == PosInfinityNum
  {
    assert variantUsers as real / variantUsers as real == 1.0;
  }

  /** 100 of 1000 against 150 of 1000: a 50% lift at the 99 level. */
  lemma TenAgainstFifteenPercent()
    ensures var r := CalculateABTestSignificance(1000, 100, 1000, 150);
            r.significant && r.confidenceLevel == 99 && r.relativeImprovement == Finite(50.0)
  {
    assert ZScoreOf(1000, 100, 1000, 150) == Ratio(0.0025, 0.0002175);
  }
}
