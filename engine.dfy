/**
 * The calculation engine (`calculateResult` in App.tsx): aggregates,
 * disposable income, runway, the safety factor K from one of four curves,
 * the three-way split into spending power and savings, and the two crisis
 * flags. A total function of its inputs.
 *
 * `Math.exp` is not computed: it is a parameter `exp` of which only
 * `exp(0) = 1` and positivity are assumed (ExpLaws), plus monotonicity
 * where a lemma needs it (ExpIncreasing).
 */
module Engine {
  import opened Types
  import opened Ledger

  /** What the model knows of `Math.exp`. */
  ghost predicate ExpLaws(exp: real -> real) {
    exp(0.0) == 1.0 && forall x :: exp(x) > 0.0
  }

  /** `Math.exp` is strictly increasing. */
  ghost predicate ExpIncreasing(exp: real -> real) {
    forall x, y :: x < y ==> exp(x) < exp(y)
  }

  function Min(a: real, b: real): real { if a <= b then a else b }

  function Max(a: real, b: real): real { if a >= b then a else b }

  /** `Math.max(0, Math.min(1, k))`. */
  function Clamp01(k: real): (c: real)
    ensures 0.0 <= c <= 1.0
    ensures 0.0 <= k <= 1.0 ==> c == k
    ensures k < 0.0 ==> c == 0.0
    ensures k > 1.0 ==> c == 1.0
  {
    Max(0.0, Min(1.0, k))
  }

  /** Monthly passive income of the assets, or monthly interest of the debts: simple interest over twelve months. */
  function MonthlyYield(s: seq<Holding>): (y: real)
    ensures y * 12.0 == AnnualYield(s)
  {
    AnnualYield(s) / 12.0
  }

  /**
   * Money left over in a month, clamped at zero (`nominalDisposable`):
   * income minus expense plus passive income minus interest.
   */
  function NominalDisposable(income: real, expense: real, netPassiveIncome: real): (d: real)
    ensures d >= 0.0
    ensures d >= income - expense + netPassiveIncome
    ensures d == 0.0 || d == income - expense + netPassiveIncome
  {
    Max(0.0, income - expense + netPassiveIncome)
  }

  /** What is left of the nominal disposable once the saving target is set aside, clamped at zero. */
  function AvailableDisposable(nominal: real, target: real): (a: real)
    ensures a >= 0.0
    ensures a >= nominal - target
    ensures a == 0.0 || a == nominal - target
    ensures target >= 0.0 && nominal >= 0.0 ==> a <= nominal
  {
    Max(0.0, nominal - target)
  }

  /** Months of expense that the net worth covers; 0 when there is no positive expense. */
  function Runway(netWorth: real, expense: real): (m: real)
    ensures expense <= 0.0 ==> m == 0.0
    ensures expense > 0.0 ==> m * expense == netWorth
    ensures m < 0.0 <==> expense > 0.0 && netWorth < 0.0
    ensures m > 0.0 <==> expense > 0.0 && netWorth > 0.0
  {
    if expense > 0.0 then netWorth / expense else 0.0
  }

  /**
   * The selected curve, before clamping, for a positive runway. Step takes
   * one of four values, linear never exceeds 1, and smooth stays below 1.
   */
  function Curve(algo: Algorithm, runway: real, L: real, exp: real -> real): (c: real)
    requires L > 0.0 && ExpLaws(exp)
    ensures algo == Step ==> c == 0.3 || c == 0.6 || c == 0.85 || c == 1.0
    ensures algo == Linear ==> c <= 1.0
    ensures algo == Smooth ==> c < 1.0
  {
    match algo
    case Linear => Min(1.0, runway / L)
    case Smooth => 1.0 - exp(-runway / L)
    case Step =>
      if runway < L * 0.5 then 0.3
      else if runway < L then 0.6
      else if runway < L * 1.5 then 0.85
      else 1.0
    case Sigmoid => 1.0 / (1.0 + exp((-2.0 * (runway - L)) / L))
  }

  /** The safety factor K: 0 for a non-positive runway, otherwise the clamped curve. */
  function SafetyFactor(algo: Algorithm, runway: real, L: real, exp: real -> real): (k: real)
    requires L > 0.0 && ExpLaws(exp)
    ensures 0.0 <= k <= 1.0
    ensures runway <= 0.0 ==> k == 0.0
  {
    if runway <= 0.0 then 0.0 else Clamp01(Curve(algo, runway, L, exp))
  }

  /** Spending power, locked savings and total savings. */
  datatype Split = Split(sasp: real, locked: real, total: real)

  /**
   * The three exclusive cases, in the source's order: insolvency; enough
   * disposable money to exceed the target; the target takes everything.
   */
  function SavingsSplit(netWorth: real, nominal: real, target: real, k: real): (sp: Split)
    requires nominal >= 0.0 && 0.0 <= k <= 1.0
    ensures sp.sasp >= 0.0 && sp.locked >= 0.0
    ensures netWorth < 0.0 ==> sp.sasp == 0.0 && sp.locked == nominal && sp.total == nominal + target
    ensures netWorth >= 0.0 && nominal > target ==>
      && sp.sasp + sp.locked == nominal - target
      && sp.sasp <= nominal - target
      && sp.total == sp.locked + target
    ensures netWorth >= 0.0 && nominal <= target ==> sp.sasp == 0.0 && sp.locked == nominal && sp.total == nominal
    ensures netWorth >= 0.0 ==> sp.sasp + sp.total == nominal
  {
    var available := AvailableDisposable(nominal, target);
    if netWorth < 0.0 then
      Split(0.0, nominal, nominal + target)
    else if nominal > target then
      var sasp := Share(available, k);
      Split(sasp, available - sasp, available - sasp + target)
    else
      Split(0.0, nominal, nominal)
  }

  /** `available * k`: a share `k` in [0, 1] of a non-negative amount lies between 0 and that amount. */
  function Share(a: real, k: real): (s: real)
    requires a >= 0.0 && 0.0 <= k <= 1.0
    ensures 0.0 <= s <= a
  {
    assert a * k <= a * 1.0;
    a * k
  }

  /** `calculateResult(assets, debts, financials, algorithm, L)`. */
  function Calculate(assets: seq<Asset>, debts: seq<Debt>, fin: FinancialState, algo: Algorithm,
                     L: real, exp: real -> real): (r: CalculationResult)
    requires L > 0.0 && ExpLaws(exp)
    ensures r.totalAssets == TotalAmount(assets) && r.totalDebts == TotalAmount(debts)
    ensures r.passiveIncome == MonthlyYield(assets) && r.monthlyInterest == MonthlyYield(debts)
    ensures r.netWorth == r.totalAssets - r.totalDebts
    ensures r.netPassiveIncome == r.passiveIncome - r.monthlyInterest
    ensures r.nominalDisposable == NominalDisposable(fin.income, fin.expense, r.netPassiveIncome)
    ensures r.runwayMonths == Runway(r.netWorth, fin.expense)
    ensures r.safetyFactor == SafetyFactor(algo, r.runwayMonths, L, exp)
    ensures Split(r.sasp, r.lockedSavings, r.totalSavings)
         == SavingsSplit(r.netWorth, r.nominalDisposable, r.targetSavings, r.safetyFactor)
    ensures r.nominalDisposable >= 0.0
    ensures r.nominalDisposable >= fin.income - fin.expense + r.netPassiveIncome
    ensures r.targetSavings == fin.targetSaving.GetOr(0.0)
    ensures 0.0 <= r.safetyFactor <= 1.0
    ensures r.runwayMonths <= 0.0 ==> r.safetyFactor == 0.0
    ensures fin.expense <= 0.0 ==> r.runwayMonths == 0.0
    ensures r.sasp >= 0.0 && r.lockedSavings >= 0.0
    ensures r.isInsolvency <==> r.netWorth < 0.0
    ensures r.isInsolvency ==> r.sasp == 0.0
    ensures r.isCashFlowCrisis <==> fin.income < fin.expense + r.monthlyInterest
  {
    var totalAssets := TotalAmount(assets);
    var totalDebts := TotalAmount(debts);
    var netWorth := totalAssets - totalDebts;
    var passiveIncome := MonthlyYield(assets);
    var monthlyInterest := MonthlyYield(debts);
    var netPassiveIncome := passiveIncome - monthlyInterest;
    var target := fin.targetSaving.GetOr(0.0);
    var nominal := NominalDisposable(fin.income, fin.expense, netPassiveIncome);
    var runway := Runway(netWorth, fin.expense);
    var k := SafetyFactor(algo, runway, L, exp);
    var sp := SavingsSplit(netWorth, nominal, target, k);
    CalculationResult(
      totalAssets := totalAssets,
      totalDebts := totalDebts,
      netWorth := netWorth,
      passiveIncome := passiveIncome,
      monthlyInterest := monthlyInterest,
      netPassiveIncome := netPassiveIncome,
      nominalDisposable := nominal,
      runwayMonths := runway,
      safetyFactor := k,
      sasp := sp.sasp,
      lockedSavings := sp.locked,
      targetSavings := target,
      totalSavings := sp.total,
      isInsolvency := netWorth < 0.0,
      isCashFlowCrisis := fin.income < fin.expense + monthlyInterest
    )
  }
}
