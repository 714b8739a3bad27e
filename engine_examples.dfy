/**
 * Worked examples of the engine on concrete inputs, including the default
 * portfolio of constants.ts.
 */
module EngineExamples {
  import opened Wrappers
  import opened Types
  import opened Ledger
  import opened Engine
  import opened EngineProperties

  /** INITIAL_ASSETS of constants.ts. */
  const InitialAssets: seq<Asset> := [
    Holding("1", "现金", 10000.0, 0.0),
    Holding("2", "余额宝", 30000.0, 2.0),
    Holding("3", "基金定投", 50000.0, 6.0),
    Holding("4", "股票账户", 30000.0, 10.0)
  ]

  /** INITIAL_DEBTS of constants.ts. */
  const InitialDebts: seq<Debt> := [Holding("1", "花呗", 2000.0, 15.0)]

  /** The default financial state of App.tsx. */
  const DefaultFinancials := FinancialState(12000.0, 6000.0, Some(1000.0))

  /** The default portfolio sums to 120000 of assets against 2000 of debt, 550 a month of yield against 25 of interest. */
  lemma InitialPortfolioSums()
    ensures TotalAmount(InitialAssets) == 120000.0
    ensures TotalAmount(InitialDebts) == 2000.0
    ensures MonthlyYield(InitialAssets) == 550.0
    ensures MonthlyYield(InitialDebts) == 25.0
  {
    var a := InitialAssets;
    assert a[..3][..2] == a[..2];
    assert a[..2][..1] == a[..1];
    assert a[..1][..0] == [];
    assert TotalAmount(a[..1]) == 10000.0 && AnnualYield(a[..1]) == 0.0;
    assert TotalAmount(a[..2]) == 40000.0 && AnnualYield(a[..2]) == 600.0;
    assert TotalAmount(a[..3]) == 90000.0 && AnnualYield(a[..3]) == 3600.0;
    assert a[..4] == a;
    assert InitialDebts[..0] == [];
  }

  /**
   * The defaults with the linear curve and a six-month line: a runway of
   * almost 20 months saturates K, so all 5525 left after the target is
   * spending power and only the target is saved.
   */
  lemma DefaultsWithLinearCurve(exp: real -> real)
    requires ExpLaws(exp)
    ensures var r := Calculate(InitialAssets, InitialDebts, DefaultFinancials, Linear, 6.0, exp);
      && r.netWorth == 118000.0
      && r.nominalDisposable == 6525.0
      && r.safetyFactor == 1.0
      && r.sasp == 5525.0
      && r.lockedSavings == 0.0
      && r.totalSavings == 1000.0
      && !r.isInsolvency && !r.isCashFlowCrisis
  {
    InitialPortfolioSums();
    var runway := Runway(118000.0, 6000.0);
    assert runway * 6000.0 == 118000.0;
    LinearSaturates(runway, 6.0, exp);
  }

  /** The defaults with the sigmoid curve: whatever K is, the 5525 left after the target is split between spending and locked savings. */
  lemma DefaultsWithSigmoidCurve(exp: real -> real)
    requires ExpLaws(exp)
    ensures var r := Calculate(InitialAssets, InitialDebts, DefaultFinancials, Sigmoid, 6.0, exp);
      && r.sasp + r.lockedSavings == 5525.0
      && r.totalSavings == r.lockedSavings + 1000.0
      && 0.0 < r.sasp < 5525.0
  {
    InitialPortfolioSums();
    var runway := Runway(118000.0, 6000.0);
    assert runway * 6000.0 == 118000.0;
    SigmoidInsideUnit(runway, 6.0, exp);
    SufficientCase(InitialAssets, InitialDebts, DefaultFinancials, Sigmoid, 6.0, exp);
    var k := SafetyFactor(Sigmoid, runway, 6.0, exp);
    assert 5525.0 * k < 5525.0 * 1.0;
  }

  /** Income 5000, expense 4000, nothing owned, target 2000: nothing to spend, 1000 locked and 1000 saved in all (not 3000). */
  lemma TargetTooHighExample(algo: Algorithm, L: real, exp: real -> real)
    requires L > 0.0 && ExpLaws(exp)
    ensures var r := Calculate([], [], FinancialState(5000.0, 4000.0, Some(2000.0)), algo, L, exp);
      && r.nominalDisposable == 1000.0
      && r.sasp == 0.0
      && r.lockedSavings == 1000.0
      && r.totalSavings == 1000.0
  {
  }

  /** A debt of 5000 with nothing owned and an expense of 3000: runway below zero, K = 0, nothing to spend, the target counted into savings. */
  lemma InsolvencyExample(algo: Algorithm, L: real, exp: real -> real)
    requires L > 0.0 && ExpLaws(exp)
    ensures var r := Calculate([], [Holding("d", "loan", 5000.0, 0.0)], FinancialState(3500.0, 3000.0, Some(200.0)), algo, L, exp);
      && r.netWorth == -5000.0
      && r.runwayMonths < 0.0
      && r.safetyFactor == 0.0
      && r.isInsolvency
      && r.sasp == 0.0
      && r.lockedSavings == 500.0
      && r.totalSavings == 700.0
  {
    var debts := [Holding("d", "loan", 5000.0, 0.0)];
    assert debts[..0] == [];
  }
}
