/**
 * The debt analysis panel (components/DebtAnalysis.tsx): debt-to-income and
 * payment-pressure ratios with their three tiers, and the high-interest
 * debts with their sum. Nothing is shown when there is no debt.
 */
module DebtAnalysis {
  import opened Wrappers
  import opened Types
  import opened Ledger
  import opened Engine

  /** The debt-to-income tiers: 安全 (safe), 可控 (manageable), 危险 (dangerous). */
  datatype DtiLevel = Safe | Manageable | Dangerous

  /** The payment-pressure tiers: 轻松 (easy), 适中 (moderate), 偏高 (high). */
  datatype PressureLevel = Easy | Moderate | High

  /** `whole > 0 ? (part / whole) * 100 : 0`: a percentage guarded against a non-positive whole. */
  function Percent(part: real, whole: real): (p: real)
    ensures whole <= 0.0 ==> p == 0.0
    ensures whole > 0.0 ==> p * whole == part * 100.0
  {
    if whole > 0.0 then (part / whole) * 100.0 else 0.0
  }

  /** Total debt as a percentage of annual income; 0 when there is no positive income. */
  function DebtToIncomeRatio(totalDebts: real, annualIncome: real): (ratio: real)
    ensures annualIncome <= 0.0 ==> ratio == 0.0
    ensures annualIncome > 0.0 ==> ratio * annualIncome == totalDebts * 100.0
  {
    Percent(totalDebts, annualIncome)
  }

  /** Three tiers, each threshold belonging to the higher one. */
  function ClassifyDti(ratio: real): (level: DtiLevel)
    ensures level == Dangerous <==> ratio >= 300.0
    ensures level == Manageable <==> 100.0 <= ratio < 300.0
    ensures level == Safe <==> ratio < 100.0
  {
    if ratio >= 300.0 then Dangerous
    else if ratio >= 100.0 then Manageable
    else Safe
  }

  /** Monthly interest as a percentage of monthly income; 0 when there is no positive income. */
  function PaymentPressure(monthlyInterest: real, monthlyIncome: real): (pressure: real)
    ensures monthlyIncome <= 0.0 ==> pressure == 0.0
    ensures monthlyIncome > 0.0 ==> pressure * monthlyIncome == monthlyInterest * 100.0
  {
    Percent(monthlyInterest, monthlyIncome)
  }

  /** Three tiers, each threshold belonging to the higher one. */
  function ClassifyPressure(pressure: real): (level: PressureLevel)
    ensures level == High <==> pressure >= 30.0
    ensures level == Moderate <==> 20.0 <= pressure < 30.0
    ensures level == Easy <==> pressure < 20.0
  {
    if pressure >= 30.0 then High
    else if pressure >= 20.0 then Moderate
    else Easy
  }

  /** A debt is high-interest above 10% a year; exactly 10% is not. */
  predicate IsHighInterest(d: Debt) {
    d.rate > 10.0
  }

  predicate IsNotHighInterest(d: Debt) {
    !(d.rate > 10.0)
  }

  /** `debts.filter(d => d.rate > 10)`. */
  function HighInterestDebts(debts: seq<Debt>): (r: seq<Debt>)
    ensures forall d :: d in r <==> d in debts && d.rate > 10.0
    ensures |r| <= |debts|
  {
    Filter(debts, IsHighInterest)
  }

  /** The high-interest debts keep their relative order: filtering distributes over concatenation. */
  lemma HighInterestKeepsOrder(a: seq<Debt>, b: seq<Debt>)
    ensures HighInterestDebts(a + b) == HighInterestDebts(a) + HighInterestDebts(b)
  {
    FilterAppend(a, b, IsHighInterest);
  }

  /**
   * The sum of the high-interest amounts: together with the other debts it
   * makes up the total debt, and with non-negative amounts it lies between 0
   * and the total debt.
   */
  function HighInterestAmount(debts: seq<Debt>): (amount: real)
    ensures amount + TotalAmount(Filter(debts, IsNotHighInterest)) == TotalAmount(debts)
    ensures (forall d :: d in debts ==> d.amount >= 0.0) ==> 0.0 <= amount <= TotalAmount(debts)
  {
    var high := HighInterestDebts(debts);
    FilterPartitionsTotal(debts, IsHighInterest, IsNotHighInterest);
    TotalAmountNonNegativeWhen(debts, high);
    TotalAmountNonNegativeWhen(debts, Filter(debts, IsNotHighInterest));
    TotalAmount(high)
  }

  /** A sub-list of a list with non-negative amounts has a non-negative total. */
  lemma TotalAmountNonNegativeWhen(debts: seq<Debt>, part: seq<Debt>)
    requires forall d :: d in part ==> d in debts
    ensures (forall d :: d in debts ==> d.amount >= 0.0) ==> TotalAmount(part) >= 0.0
  {
    if forall d :: d in debts ==> d.amount >= 0.0 {
      TotalAmountNonNegative(part);
    }
  }

  /** What the panel shows. */
  datatype Report = Report(
    debtToIncome: real,
    dtiLevel: DtiLevel,
    paymentPressure: real,
    pressureLevel: PressureLevel,
    highInterestDebts: seq<Debt>,
    highInterestAmount: real
  )

  /** The panel: nothing when the total debt is exactly 0, otherwise the two classified ratios and the high-interest debts. */
  function Analyze(debts: seq<Debt>, totalDebts: real, monthlyInterest: real,
                   annualIncome: real, monthlyIncome: real): (r: Option<Report>)
    ensures r.None? <==> totalDebts == 0.0
    ensures r.Some? ==>
      && r.value.debtToIncome == DebtToIncomeRatio(totalDebts, annualIncome)
      && r.value.dtiLevel == ClassifyDti(r.value.debtToIncome)
      && r.value.paymentPressure == PaymentPressure(monthlyInterest, monthlyIncome)
      && r.value.pressureLevel == ClassifyPressure(r.value.paymentPressure)
      && r.value.highInterestDebts == HighInterestDebts(debts)
      && r.value.highInterestAmount == HighInterestAmount(debts)
      && (r.value.dtiLevel == Dangerous <==> r.value.debtToIncome >= 300.0)
      && (r.value.pressureLevel == High <==> r.value.paymentPressure >= 30.0)
      && (forall d :: d in r.value.highInterestDebts <==> d in debts && d.rate > 10.0)
  {
    if totalDebts == 0.0 then None
    else
      var dti := DebtToIncomeRatio(totalDebts, annualIncome);
      var pressure := PaymentPressure(monthlyInterest, monthlyIncome);
      Some(Report(dti, ClassifyDti(dti), pressure, ClassifyPressure(pressure),
                  HighInterestDebts(debts), HighInterestAmount(debts)))
  }

  /**
   * The panel as App.tsx wires it: the total debt and the monthly interest
   * are the engine's (`Engine.Calculate` reports TotalAmount and MonthlyYield
   * of the debts), and the incomes are a year's and a month's income. The
   * panel is hidden exactly when the debts sum to 0; without income both
   * tiers read safe, however large the debt; and the high-interest sum plus
   * the rest is the total debt.
   */
  lemma PanelOfDebts(debts: seq<Debt>, income: real)
    ensures var p := Analyze(debts, TotalAmount(debts), MonthlyYield(debts), income * 12.0, income);
      && (p.None? <==> TotalAmount(debts) == 0.0)
      && (p.Some? && income <= 0.0 ==> p.value.dtiLevel == Safe && p.value.pressureLevel == Easy)
      && (p.Some? ==> p.value.highInterestAmount + TotalAmount(Filter(debts, IsNotHighInterest)) == TotalAmount(debts))
  {
  }
}
