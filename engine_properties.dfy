/**
 * Properties of the calculation engine: the safety-factor curves, the
 * three savings cases, the crisis flags and what depends on the algorithm.
 */
module EngineProperties {
  import opened Wrappers
  import opened Types
  import opened Ledger
  import opened Engine

  // ---- The safety-factor curves ----

  /** The step curve: four left-closed tiers; a runway on a threshold falls in the higher tier. */
  lemma StepTiers(runway: real, L: real, exp: real -> real)
    requires L > 0.0 && ExpLaws(exp) && runway > 0.0
    ensures var k := SafetyFactor(Step, runway, L, exp);
      && (k == 0.3 <==> runway < L * 0.5)
      && (k == 0.6 <==> L * 0.5 <= runway < L)
      && (k == 0.85 <==> L <= runway < L * 1.5)
      && (k == 1.0 <==> runway >= L * 1.5)
  {
  }

  /** The thresholds themselves: half the safety line gives 0.6, the line 0.85, one and a half lines 1.0. */
  lemma StepBoundaries(L: real, exp: real -> real)
    requires L > 0.0 && ExpLaws(exp)
    ensures SafetyFactor(Step, L * 0.5, L, exp) == 0.6
    ensures SafetyFactor(Step, L, L, exp) == 0.85
    ensures SafetyFactor(Step, L * 1.5, L, exp) == 1.0
  {
  }

  /** The linear curve is runway / L below the safety line and exactly 1 from it on. */
  lemma LinearSaturates(runway: real, L: real, exp: real -> real)
    requires L > 0.0 && ExpLaws(exp) && runway > 0.0
    ensures runway >= L ==> SafetyFactor(Linear, runway, L, exp) == 1.0
    ensures runway < L ==> SafetyFactor(Linear, runway, L, exp) == runway / L
  {
    var q := runway / L;
    assert q * L == runway;
    assert (q - 1.0) * L == runway - L;
    assert (1.0 - q) * L == L - runway;
    FactorSign(q - 1.0, L);
    FactorSign(1.0 - q, L);
    FactorSign(q, L);
  }

  /** The sigmoid curve is centred on the safety line: K = 0.5 exactly when runway = L. */
  lemma SigmoidMidpoint(L: real, exp: real -> real)
    requires L > 0.0 && ExpLaws(exp)
    ensures SafetyFactor(Sigmoid, L, L, exp) == 0.5
  {
    assert (-2.0 * (L - L)) / L == 0.0;
  }

  /** For a positive runway the sigmoid lies strictly inside (0, 1), so the clamp never acts on it. */
  lemma SigmoidInsideUnit(runway: real, L: real, exp: real -> real)
    requires L > 0.0 && ExpLaws(exp) && runway > 0.0
    ensures 0.0 < SafetyFactor(Sigmoid, runway, L, exp) < 1.0
  {
    var e := exp((-2.0 * (runway - L)) / L);
    assert e > 0.0;
    var c := 1.0 / (1.0 + e);
    assert c * (1.0 + e) == 1.0;
    assert 0.0 < c < 1.0;
  }

  /** The smooth curve never reaches 1 for a finite runway. */
  lemma SmoothBelowOne(runway: real, L: real, exp: real -> real)
    requires L > 0.0 && ExpLaws(exp)
    ensures SafetyFactor(Smooth, runway, L, exp) < 1.0
  {
    if runway > 0.0 {
      assert exp(-runway / L) > 0.0;
    }
  }

  /** A factor of a positive (non-negative) product with a positive other factor is positive (non-negative). */
  lemma FactorSign(a: real, c: real)
    requires c > 0.0
    ensures a * c > 0.0 ==> a > 0.0
    ensures a * c >= 0.0 ==> a >= 0.0
  {
    if a < 0.0 {
      assert a * c < 0.0 * c;
    } else if a == 0.0 {
      assert a * c == 0.0;
    }
  }

  /** Dividing by a positive safety line keeps the order of runways. */
  lemma DivideKeepsOrder(a: real, b: real, L: real)
    requires L > 0.0 && a <= b
    ensures a / L <= b / L
  {
    assert (b / L - a / L) * L == b - a;
  }

  /** 1 / (1 + x) falls as x grows, for positive x. */
  lemma ReciprocalFalls(x: real, y: real)
    requires 0.0 < x <= y
    ensures 1.0 / (1.0 + y) <= 1.0 / (1.0 + x)
  {
    var p, q := 1.0 / (1.0 + x), 1.0 / (1.0 + y);
    assert p * (1.0 + x) == 1.0;
    assert q * (1.0 + y) == 1.0;
    assert q * (1.0 + x) <= q * (1.0 + y);
    assert (p - q) * (1.0 + x) >= 0.0;
    FactorSign(p - q, 1.0 + x);
  }

  /** Clamping to [0, 1] keeps order. */
  lemma ClampKeepsOrder(a: real, b: real)
    requires a <= b
    ensures Clamp01(a) <= Clamp01(b)
  {
  }

  /** The smooth curve rises with the runway (given a rising exp). */
  lemma SmoothMonotone(r1: real, r2: real, L: real, exp: real -> real)
    requires L > 0.0 && ExpLaws(exp) && ExpIncreasing(exp) && r1 <= r2
    ensures Curve(Smooth, r1, L, exp) <= Curve(Smooth, r2, L, exp)
  {
    DivideKeepsOrder(-r2, -r1, L);
    var a1, a2 := -r1 / L, -r2 / L;
    assert a2 <= a1;
    if a2 < a1 {
      assert exp(a2) < exp(a1);
    }
  }

  /** The sigmoid curve rises with the runway (given a rising exp). */
  lemma SigmoidMonotone(r1: real, r2: real, L: real, exp: real -> real)
    requires L > 0.0 && ExpLaws(exp) && ExpIncreasing(exp) && r1 <= r2
    ensures Curve(Sigmoid, r1, L, exp) <= Curve(Sigmoid, r2, L, exp)
  {
    var a1, a2 := (-2.0 * (r1 - L)) / L, (-2.0 * (r2 - L)) / L;
    DivideKeepsOrder(-2.0 * (r2 - L), -2.0 * (r1 - L), L);
    assert a2 <= a1;
    var e1, e2 := exp(a1), exp(a2);
    if a2 < a1 {
      assert e2 < e1;
    }
    assert 0.0 < e2 <= e1;
    ReciprocalFalls(e2, e1);
  }

  /** The raw curve of every algorithm rises with the runway (given a rising exp). */
  lemma CurveMonotone(algo: Algorithm, r1: real, r2: real, L: real, exp: real -> real)
    requires L > 0.0 && ExpLaws(exp) && ExpIncreasing(exp) && r1 <= r2
    ensures Curve(algo, r1, L, exp) <= Curve(algo, r2, L, exp)
  {
    match algo
    case Linear => DivideKeepsOrder(r1, r2, L);
    case Smooth => SmoothMonotone(r1, r2, L, exp);
    case Step =>
    case Sigmoid => SigmoidMonotone(r1, r2, L, exp);
  }

  /** Every curve is monotonic: a longer runway never lowers the safety factor. */
  lemma SafetyFactorMonotone(algo: Algorithm, r1: real, r2: real, L: real, exp: real -> real)
    requires L > 0.0 && ExpLaws(exp) && ExpIncreasing(exp) && r1 <= r2
    ensures SafetyFactor(algo, r1, L, exp) <= SafetyFactor(algo, r2, L, exp)
  {
    if r1 > 0.0 {
      CurveMonotone(algo, r1, r2, L, exp);
      ClampKeepsOrder(Curve(algo, r1, L, exp), Curve(algo, r2, L, exp));
    }
  }

  // ---- The engine's result ----

  /** Empty lists sum to zero; with nothing owned the runway and K are 0 and nothing may be spent. */
  lemma EmptyPortfolio(fin: FinancialState, algo: Algorithm, L: real, exp: real -> real)
    requires L > 0.0 && ExpLaws(exp)
    ensures var r := Calculate([], [], fin, algo, L, exp);
      && r.totalAssets == 0.0 && r.totalDebts == 0.0 && r.netWorth == 0.0
      && r.passiveIncome == 0.0 && r.monthlyInterest == 0.0 && r.netPassiveIncome == 0.0
      && r.runwayMonths == 0.0 && r.safetyFactor == 0.0 && r.sasp == 0.0
      && !r.isInsolvency
  {
  }

  /** With no positive expense the runway is 0, so K is 0 and the spending power is 0. */
  lemma ZeroExpenseMeansNoSpending(assets: seq<Asset>, debts: seq<Debt>, fin: FinancialState,
                                   algo: Algorithm, L: real, exp: real -> real)
    requires L > 0.0 && ExpLaws(exp) && fin.expense <= 0.0
    ensures var r := Calculate(assets, debts, fin, algo, L, exp);
      r.runwayMonths == 0.0 && r.safetyFactor == 0.0 && r.sasp == 0.0
  {
  }

  /** Insolvency, whatever the algorithm: no spending, all disposable money locked, the target added on top. */
  lemma InsolvencyCase(assets: seq<Asset>, debts: seq<Debt>, fin: FinancialState,
                       algo: Algorithm, L: real, exp: real -> real)
    requires L > 0.0 && ExpLaws(exp)
    ensures var r := Calculate(assets, debts, fin, algo, L, exp);
      r.netWorth < 0.0 ==>
        && r.sasp == 0.0
        && r.lockedSavings == r.nominalDisposable
        && r.totalSavings == r.nominalDisposable + r.targetSavings
  {
  }

  /**
   * Solvent with disposable money beyond the target: K's share of what is
   * left after the target is spending power, the rest is locked, and the
   * target is saved on top.
   */
  lemma SufficientCase(assets: seq<Asset>, debts: seq<Debt>, fin: FinancialState,
                       algo: Algorithm, L: real, exp: real -> real)
    requires L > 0.0 && ExpLaws(exp)
    ensures var r := Calculate(assets, debts, fin, algo, L, exp);
      r.netWorth >= 0.0 && r.nominalDisposable > r.targetSavings ==>
        && r.sasp == (r.nominalDisposable - r.targetSavings) * r.safetyFactor
        && r.sasp + r.lockedSavings == r.nominalDisposable - r.targetSavings
        && 0.0 <= r.sasp <= r.nominalDisposable - r.targetSavings
        && r.totalSavings == r.lockedSavings + r.targetSavings
  {
  }

  /** Solvent but the target takes all disposable money or more: nothing to spend, all of it saved, no more. */
  lemma TargetExceedsCase(assets: seq<Asset>, debts: seq<Debt>, fin: FinancialState,
                          algo: Algorithm, L: real, exp: real -> real)
    requires L > 0.0 && ExpLaws(exp)
    ensures var r := Calculate(assets, debts, fin, algo, L, exp);
      r.netWorth >= 0.0 && r.nominalDisposable <= r.targetSavings ==>
        && r.sasp == 0.0
        && r.lockedSavings == r.nominalDisposable
        && r.totalSavings == r.nominalDisposable
  {
  }

  /** When solvent, spending power and total savings together are exactly the nominal disposable money. */
  lemma SolventConservation(assets: seq<Asset>, debts: seq<Debt>, fin: FinancialState,
                            algo: Algorithm, L: real, exp: real -> real)
    requires L > 0.0 && ExpLaws(exp)
    ensures var r := Calculate(assets, debts, fin, algo, L, exp);
      r.netWorth >= 0.0 ==> r.sasp + r.totalSavings == r.nominalDisposable
  {
  }

  /**
   * The insolvency case counts the target twice: its total savings exceed
   * all disposable money by the target, where the solvent cases account for
   * exactly the disposable money.
   */
  lemma InsolvencyCountsTargetTwice(assets: seq<Asset>, debts: seq<Debt>, fin: FinancialState,
                                    algo: Algorithm, L: real, exp: real -> real)
    requires L > 0.0 && ExpLaws(exp)
    ensures var r := Calculate(assets, debts, fin, algo, L, exp);
      r.netWorth < 0.0 ==>
        && r.sasp + r.totalSavings == r.nominalDisposable + r.targetSavings
        && (r.targetSavings > 0.0 ==> r.totalSavings > r.nominalDisposable)
  {
  }

  /** The cash-flow flag is raised exactly when income does not cover expense and interest, in every savings case. */
  lemma CashFlowCrisisFlag(assets: seq<Asset>, debts: seq<Debt>, fin: FinancialState,
                           algo: Algorithm, L: real, exp: real -> real)
    requires L > 0.0 && ExpLaws(exp)
    ensures var r := Calculate(assets, debts, fin, algo, L, exp);
      r.isCashFlowCrisis <==> fin.income < fin.expense + AnnualYield(debts) / 12.0
  {
  }

  /**
   * Without any asset yield, a cash-flow crisis leaves no disposable money;
   * with a non-negative target nothing may then be spent.
   */
  lemma CrisisWithoutYieldMeansNoSpending(assets: seq<Asset>, debts: seq<Debt>, fin: FinancialState,
                                          algo: Algorithm, L: real, exp: real -> real)
    requires L > 0.0 && ExpLaws(exp)
    requires AnnualYield(assets) <= 0.0 && fin.targetSaving.GetOr(0.0) >= 0.0
    ensures var r := Calculate(assets, debts, fin, algo, L, exp);
      r.isCashFlowCrisis ==> r.nominalDisposable == 0.0 && r.sasp == 0.0
  {
  }

  /** Only K and the split depend on the algorithm; every other field is the same for all four. */
  lemma AlgorithmIndependence(assets: seq<Asset>, debts: seq<Debt>, fin: FinancialState,
                              a1: Algorithm, a2: Algorithm, L: real, exp: real -> real)
    requires L > 0.0 && ExpLaws(exp)
    ensures var r1, r2 := Calculate(assets, debts, fin, a1, L, exp), Calculate(assets, debts, fin, a2, L, exp);
      r1 == r2.(safetyFactor := r1.safetyFactor, sasp := r1.sasp,
                lockedSavings := r1.lockedSavings, totalSavings := r1.totalSavings)
  {
  }

  /** Inside the engine an absent target is the same as a target of 0. */
  lemma AbsentTargetActsAsZero(assets: seq<Asset>, debts: seq<Debt>, fin: FinancialState,
                               algo: Algorithm, L: real, exp: real -> real)
    requires L > 0.0 && ExpLaws(exp)
    ensures Calculate(assets, debts, fin.(targetSaving := None), algo, L, exp)
         == Calculate(assets, debts, fin.(targetSaving := Some(0.0)), algo, L, exp)
  {
  }
}
