/**
 * The result panel (components/SaspDisplay.tsx): the runway health label,
 * the saving-goal progress with its colour tier, and the clamped bar widths.
 */
module SaspDisplay {
  import opened Types
  import opened Engine

  /** 健康 (healthy), 预警 (warning), 危险 (danger). */
  datatype Health = Healthy | Warning | Danger

  /** Under three months is danger, under the safety line a warning, anything else healthy. */
  function HealthLabel(runway: real, safetyLine: real): (h: Health)
    ensures h == Danger <==> runway < 3.0
    ensures h == Warning <==> 3.0 <= runway < safetyLine
    ensures h == Healthy <==> runway >= 3.0 && runway >= safetyLine
  {
    if runway < 3.0 then Danger
    else if runway < safetyLine then Warning
    else Healthy
  }

  /** With a safety line of three months or less the warning tier is empty. */
  lemma NoWarningUnderShortLine(runway: real, safetyLine: real)
    requires safetyLine <= 3.0
    ensures HealthLabel(runway, safetyLine) != Warning
  {
  }

  /** The goal bar is shown only for a positive target, so the percentage below never divides by zero. */
  predicate ShowSavingsProgress(targetSavings: real): (shown: bool)
    ensures shown ==> targetSavings != 0.0
  {
    targetSavings > 0.0
  }

  /** Total savings as a percentage of the target; 0 when the bar is hidden, so there is never a division by zero. */
  function SavingsProgress(totalSavings: real, targetSavings: real): (p: real)
    ensures !ShowSavingsProgress(targetSavings) ==> p == 0.0
    ensures ShowSavingsProgress(targetSavings) ==> p * targetSavings == totalSavings * 100.0
  {
    if ShowSavingsProgress(targetSavings) then (totalSavings / targetSavings) * 100.0 else 0.0
  }

  /** The progress colours: red, orange, beige, and green for a reached goal (and for a hidden bar). */
  datatype ProgressColor = Red | Orange | Beige | Green

  /** Four tiers below 50, 80 and 100 percent, each threshold belonging to the higher tier. */
  function SavingsColor(targetSavings: real, progress: real): (c: ProgressColor)
    ensures !ShowSavingsProgress(targetSavings) ==> c == Green
    ensures ShowSavingsProgress(targetSavings) ==>
      && (c == Red <==> progress < 50.0)
      && (c == Orange <==> 50.0 <= progress < 80.0)
      && (c == Beige <==> 80.0 <= progress < 100.0)
      && (c == Green <==> progress >= 100.0)
  {
    if !ShowSavingsProgress(targetSavings) then Green
    else if progress < 50.0 then Red
    else if progress < 80.0 then Orange
    else if progress < 100.0 then Beige
    else Green
  }

  /** `Math.min(x, 100)`: a bar never reaches past its track. */
  function BarWidth(x: real): (w: real)
    ensures w <= 100.0
    ensures x <= 100.0 ==> w == x
    ensures x >= 100.0 ==> w == 100.0
  {
    Min(x, 100.0)
  }

  /** For a positive target, progress reaches 100% exactly when the total savings reach the target. */
  lemma ProgressReachesGoal(totalSavings: real, targetSavings: real)
    requires targetSavings > 0.0
    ensures SavingsProgress(totalSavings, targetSavings) >= 100.0 <==> totalSavings >= targetSavings
  {
    var p := SavingsProgress(totalSavings, targetSavings);
    assert (p - 100.0) * targetSavings == (totalSavings - targetSavings) * 100.0;
    if p >= 100.0 {
      assert (p - 100.0) * targetSavings >= 0.0;
    } else {
      assert (p - 100.0) * targetSavings < 0.0 * targetSavings;
    }
  }

  /** The safety-factor bar shows K as a percentage, never clipped, since K lies in [0, 1]. */
  lemma SafetyBarIsFactor(assets: seq<Asset>, debts: seq<Debt>, fin: FinancialState,
                          algo: Algorithm, L: real, exp: real -> real)
    requires L > 0.0 && ExpLaws(exp)
    ensures var k := Calculate(assets, debts, fin, algo, L, exp).safetyFactor;
      BarWidth(k * 100.0) == k * 100.0 && 0.0 <= k * 100.0
  {
  }

  /** With a positive expense, an insolvent user is always shown the danger label. */
  lemma InsolvencyShowsDanger(assets: seq<Asset>, debts: seq<Debt>, fin: FinancialState,
                              algo: Algorithm, L: real, exp: real -> real)
    requires L > 0.0 && ExpLaws(exp) && fin.expense > 0.0
    ensures var r := Calculate(assets, debts, fin, algo, L, exp);
      r.isInsolvency ==> HealthLabel(r.runwayMonths, L) == Danger
  {
  }

  /** With no positive expense the runway is 0 and the label is danger, however large the net worth. */
  lemma ZeroExpenseShowsDanger(assets: seq<Asset>, debts: seq<Debt>, fin: FinancialState,
                               algo: Algorithm, L: real, exp: real -> real)
    requires L > 0.0 && ExpLaws(exp) && fin.expense <= 0.0
    ensures HealthLabel(Calculate(assets, debts, fin, algo, L, exp).runwayMonths, L) == Danger
  {
  }

  /** Solvent with money beyond a positive target: the goal bar shows the goal reached (green). */
  lemma GoalReachedWhenSufficient(assets: seq<Asset>, debts: seq<Debt>, fin: FinancialState,
                                  algo: Algorithm, L: real, exp: real -> real)
    requires L > 0.0 && ExpLaws(exp)
    ensures var r := Calculate(assets, debts, fin, algo, L, exp);
      r.netWorth >= 0.0 && r.nominalDisposable > r.targetSavings > 0.0 ==>
        SavingsColor(r.targetSavings, SavingsProgress(r.totalSavings, r.targetSavings)) == Green
  {
    var r := Calculate(assets, debts, fin, algo, L, exp);
    if r.netWorth >= 0.0 && r.nominalDisposable > r.targetSavings > 0.0 {
      assert r.totalSavings >= r.targetSavings;
      ProgressReachesGoal(r.totalSavings, r.targetSavings);
    }
  }

  /** Solvent with a positive target above the disposable money: the goal bar never shows green. */
  lemma GoalMissedWhenTargetTooHigh(assets: seq<Asset>, debts: seq<Debt>, fin: FinancialState,
                                    algo: Algorithm, L: real, exp: real -> real)
    requires L > 0.0 && ExpLaws(exp)
    ensures var r := Calculate(assets, debts, fin, algo, L, exp);
      r.netWorth >= 0.0 && r.targetSavings > r.nominalDisposable ==>
        SavingsColor(r.targetSavings, SavingsProgress(r.totalSavings, r.targetSavings)) != Green
  {
    var r := Calculate(assets, debts, fin, algo, L, exp);
    if r.netWorth >= 0.0 && r.targetSavings > r.nominalDisposable {
      assert r.totalSavings == r.nominalDisposable;
      ProgressReachesGoal(r.totalSavings, r.targetSavings);
    }
  }

  /** Insolvent with a positive target: the double-counted target makes the goal bar show green. */
  lemma InsolvencyShowsGoalReached(assets: seq<Asset>, debts: seq<Debt>, fin: FinancialState,
                                   algo: Algorithm, L: real, exp: real -> real)
    requires L > 0.0 && ExpLaws(exp)
    ensures var r := Calculate(assets, debts, fin, algo, L, exp);
      r.isInsolvency && r.targetSavings > 0.0 ==>
        SavingsColor(r.targetSavings, SavingsProgress(r.totalSavings, r.targetSavings)) == Green
  {
    var r := Calculate(assets, debts, fin, algo, L, exp);
    if r.isInsolvency && r.targetSavings > 0.0 {
      ProgressReachesGoal(r.totalSavings, r.targetSavings);
    }
  }
}
