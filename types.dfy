/**
 * The records of types.ts: assets and debts, the monthly financial state,
 * the four safety-factor algorithms and the result record of the engine.
 */
module Types {
  import opened Wrappers

  /**
   * An asset or a debt: identity, display name, principal amount and annual
   * rate in percent (6.0 means 6% a year). Asset and Debt have the same four
   * fields in the source, so one record serves both.
   */
  datatype Holding = Holding(id: string, name: string, amount: real, rate: real)

  type Asset = Holding
  type Debt = Holding

  /** Monthly income, monthly necessary expense and an optional monthly saving target. */
  datatype FinancialState = FinancialState(income: real, expense: real, targetSaving: Option<real>)

  /** The closed set of curves mapping runway to a safety factor. */
  datatype Algorithm = Linear | Smooth | Step | Sigmoid

  /** The engine's output; every field is derived from the inputs. */
  datatype CalculationResult = CalculationResult(
    totalAssets: real,
    totalDebts: real,
    netWorth: real,
    passiveIncome: real,
    monthlyInterest: real,
    netPassiveIncome: real,
    nominalDisposable: real,
    runwayMonths: real,
    safetyFactor: real,
    sasp: real,
    lockedSavings: real,
    targetSavings: real,
    totalSavings: real,
    isInsolvency: bool,
    isCashFlowCrisis: bool
  )

  /** `parseFloat(text) || 0` and `isNaN(x) ? 0 : x`: a failed parse (NaN) becomes 0. */
  function NumberOrZero(parsed: Option<real>): (v: real)
    ensures parsed.None? ==> v == 0.0
    ensures parsed.Some? ==> v == parsed.value
  {
    parsed.GetOr(0.0)
  }
}
