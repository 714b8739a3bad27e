/**
 * The income, expense and saving-target form (components/IncomeExpense.tsx):
 * how an input edits the financial state, clearing the target, the
 * "target too high" warning and the suggested maximum target.
 *
 * `parseFloat` is a parameter returning None for NaN.
 */
module IncomeExpense {
  import opened Wrappers
  import opened Types
  import opened Engine

  /** The fields of FinancialState an input edits. */
  datatype FinancialField = Income | Expense | TargetSaving

  /**
   * `handleChange(field, value)`: an empty target input removes the target;
   * any other input sets only its own field, to the parsed number or to 0
   * when the parse fails.
   */
  function HandleChange(data: FinancialState, field: FinancialField, value: string,
                        parseFloat: string -> Option<real>): (r: FinancialState)
    ensures r.income == (if field == Income then NumberOrZero(parseFloat(value)) else data.income)
    ensures r.expense == (if field == Expense then NumberOrZero(parseFloat(value)) else data.expense)
    ensures field != TargetSaving ==> r.targetSaving == data.targetSaving
    ensures field == TargetSaving ==> (r.targetSaving.None? <==> value == "")
    ensures field == TargetSaving && value != "" ==> r.targetSaving == Some(NumberOrZero(parseFloat(value)))
  {
    if value == "" && field == TargetSaving then
      data.(targetSaving := None)
    else
      var num := NumberOrZero(parseFloat(value));
      match field
      case Income => data.(income := num)
      case Expense => data.(expense := num)
      case TargetSaving => data.(targetSaving := Some(num))
  }

  /** `clearTarget()`: the target becomes absent; income and expense are kept. */
  function ClearTarget(data: FinancialState): (r: FinancialState)
    ensures r.targetSaving == None
    ensures r.income == data.income && r.expense == data.expense
  {
    data.(targetSaving := None)
  }

  /** The clear button does what emptying the target input does. */
  lemma ClearTargetIsEmptyInput(data: FinancialState, parseFloat: string -> Option<real>)
    ensures ClearTarget(data) == HandleChange(data, TargetSaving, "", parseFloat)
  {
  }

  /** Emptying the income or expense input sets it to 0 and, unlike the target, never makes anything absent. */
  lemma EmptyAmountIsZero(data: FinancialState, field: FinancialField, parseFloat: string -> Option<real>)
    requires field != TargetSaving && parseFloat("") == None
    ensures var r := HandleChange(data, field, "", parseFloat);
      && (if field == Income then r.income == 0.0 && r.expense == data.expense
          else r.expense == 0.0 && r.income == data.income)
      && r.targetSaving == data.targetSaving
  {
  }

  /** Entering the same input twice has the effect of entering it once. */
  lemma HandleChangeIdempotent(data: FinancialState, field: FinancialField, value: string,
                               parseFloat: string -> Option<real>)
    ensures var once := HandleChange(data, field, value, parseFloat);
      HandleChange(once, field, value, parseFloat) == once
  {
  }

  /** The warning: the target, read as 0 when absent, exceeds the nominal disposable money. */
  function IsTargetTooHigh(data: FinancialState, nominalDisposable: real): (tooHigh: bool)
    ensures tooHigh <==> data.targetSaving.GetOr(0.0) > nominalDisposable
    ensures data.targetSaving.None? && nominalDisposable >= 0.0 ==> !tooHigh
  {
    data.targetSaving.GetOr(0.0) > nominalDisposable
  }

  /** The suggested ceiling: 30% of the nominal disposable money, never negative. */
  function SuggestedMax(nominalDisposable: real): (m: real)
    ensures m >= 0.0
    ensures nominalDisposable >= 0.0 ==> m == nominalDisposable * 0.3 && m <= nominalDisposable
    ensures nominalDisposable <= 0.0 ==> m == 0.0
  {
    Max(0.0, nominalDisposable * 0.3)
  }

  /** A target set to the suggested ceiling never triggers the warning. */
  lemma SuggestedTargetIsNotTooHigh(data: FinancialState, nominalDisposable: real)
    requires nominalDisposable >= 0.0
    ensures !IsTargetTooHigh(data.(targetSaving := Some(SuggestedMax(nominalDisposable))), nominalDisposable)
  {
  }

  /**
   * Whenever the form warns that the target is too high for the engine's
   * nominal disposable money, the engine grants no spending power; when
   * solvent it saves exactly the disposable money.
   */
  lemma TooHighMeansNoSpending(assets: seq<Asset>, debts: seq<Debt>, fin: FinancialState,
                               algo: Algorithm, L: real, exp: real -> real)
    requires L > 0.0 && ExpLaws(exp)
    ensures var r := Calculate(assets, debts, fin, algo, L, exp);
      IsTargetTooHigh(fin, r.nominalDisposable) ==>
        r.sasp == 0.0 && (r.netWorth >= 0.0 ==> r.totalSavings == r.nominalDisposable)
  {
  }
}
